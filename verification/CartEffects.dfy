/**
 What each cart call leaves behind, told without its specification: which rows stand, what they hold and until when,
 and where the units went. No cart call changes what is on hand.
 */
module CartEffects {
  import opened Results
  import opened Sums
  import opened Inventory
  import opened StoreState
  import opened CartOps
  import opened CartProofs

  // ---------------------------------------------------------------------------
  // Stock on hand, and what follows for the available part
  // ---------------------------------------------------------------------------

  ghost predicate SameOnHand(before: Levels, after: Levels) {
    forall v: VariantId :: LevelOf(after, v).OnHand() == LevelOf(before, v).OnHand()
  }

  /** In balance before and after, available stock gains exactly what carts and open orders let go of. */
  lemma AvailableFollows(s: Store, t: Store, v: VariantId)
    requires Slack(s, v) == 0 && Slack(t, v) == 0
    ensures LevelOf(t.levels, v).available - LevelOf(s.levels, v).available ==
            LevelOf(t.levels, v).OnHand() - LevelOf(s.levels, v).OnHand()
            + Held(s.items, v) - Held(t.items, v) + Open(s.orders, v) - Open(t.orders, v)
  {
  }

  /** Apart from stock and cart rows, nothing moves. */
  predicate OnlyCarts(s: Store, t: Store) {
    t == s.(levels := t.levels, items := t.items, carts := t.carts, nextId := t.nextId)
  }

  predicate IsRow(i: CartItem, owner: Owner, v: VariantId) {
    i.owner == owner && i.variant == v
  }

  function InCart(owner: Owner, v: VariantId): CartItem -> int {
    (i: CartItem) => if IsRow(i, owner, v) then i.quantity else 0
  }

  /** Units of `v` in one cart. */
  function InCartOf(items: seq<CartItem>, owner: Owner, v: VariantId): int {
    SumBy(items, InCart(owner, v))
  }

  /** A cart has one row for a variant at most, and that row's quantity is the cart's. */
  lemma OneRow(items: seq<CartItem>, carts: set<Owner>, nextId: nat, owner: Owner, v: VariantId)
    requires ItemsOk(items, carts, nextId)
    ensures match FindItem(items, owner, v)
            case None => InCartOf(items, owner, v) == 0
            case Some(k) => InCartOf(items, owner, v) == items[k].quantity
                            && forall i :: i in items && IsRow(i, owner, v) ==> i == items[k]
  {
    match FindItem(items, owner, v)
    case None => Nothing(items, InCart(owner, v));
    case Some(k) =>
      forall i | i in RemoveAt(items, k) ensures !IsRow(i, owner, v) {
        var j :| 0 <= j < |items| - 1 && RemoveAt(items, k)[j] == i;
        assert if j < k then Apart(items[j], items[k]) else Apart(items[k], items[j + 1]);
      }
      Nothing(RemoveAt(items, k), InCart(owner, v));
      SumByRemove(items, k, InCart(owner, v));
      forall i | i in items && i != items[k] ensures i in RemoveAt(items, k) {
        var j :| 0 <= j < |items| && items[j] == i;
        assert RemoveAt(items, k)[if j < k then j else j - 1] == i;
      }
  }

  lemma {:induction false} Nothing<T>(rows: seq<T>, f: T -> int)
    requires forall x :: x in rows ==> f(x) == 0
    ensures SumBy(rows, f) == 0
  {
    if rows != [] {
      Nothing(rows[1..], f);
    }
  }

  // ---------------------------------------------------------------------------
  // add_to_cart and update_cart_item
  // ---------------------------------------------------------------------------

  /** The cart's row for `v` has `q` units, held for thirty minutes from now; no other row has changed. */
  ghost predicate RowBecomes(s: Store, t: Store, owner: Owner, v: VariantId, q: nat) {
    && (exists i :: i in t.items && IsRow(i, owner, v) && i.quantity == q && i.hold == Some(Hold(q, s.now + 30)))
    && (forall i :: !IsRow(i, owner, v) ==> (i in t.items <==> i in s.items))
  }

  /** `delta` units of `v` went from available to the cart. */
  ghost predicate UnitsTaken(s: Store, t: Store, v: VariantId, delta: int) {
    && SameOnHand(s.levels, t.levels)
    && forall w: VariantId ::
         LevelOf(t.levels, w).available == LevelOf(s.levels, w).available - if w == v then delta else 0
  }

  lemma RowRequantified(s: Store, k: nat, q: nat, t: Store)
    requires ItemsOk(s.items, s.carts, s.nextId) && k < |s.items|
    requires t.items == s.items[k := Requantified(s.items[k], q, Expiry(s))]
    ensures RowBecomes(s, t, s.items[k].owner, s.items[k].variant, q)
  {
    var (owner, v) := (s.items[k].owner, s.items[k].variant);
    assert t.items[k] in t.items;
    forall i | !IsRow(i, owner, v) ensures i in t.items <==> i in s.items {
      if i in s.items {
        var j :| 0 <= j < |s.items| && s.items[j] == i;
        assert t.items[j] == i;
      }
      if i in t.items {
        var j :| 0 <= j < |t.items| && t.items[j] == i;
        assert s.items[j] == i;
      }
    }
  }

  lemma RowAppended(s: Store, x: CartItem, t: Store)
    requires t.items == s.items + [x] && x.hold == Some(Hold(x.quantity, s.now + 30))
    ensures RowBecomes(s, t, x.owner, x.variant, x.quantity)
  {
    assert t.items[|s.items|] == x;
  }

  lemma AddTakes(s: Store, owner: Owner, v: VariantId, active: bool, q: int, t: Store)
    requires AfterAdd(s, owner, v, active, q) == Ok(t)
    ensures OnlyCarts(s, t) && t.carts == s.carts + {owner} && UnitsTaken(s, t, v, q)
  {
    CallMoves(s.levels, Reserve(v, q), t.levels);
  }

  lemma AddWritesRow(s: Store, owner: Owner, v: VariantId, active: bool, q: int, t: Store)
    requires ItemsOk(s.items, s.carts, s.nextId) && AfterAdd(s, owner, v, active, q) == Ok(t)
    ensures InCartOf(s.items, owner, v) >= 0 && RowBecomes(s, t, owner, v, InCartOf(s.items, owner, v) + q)
  {
    OneRow(s.items, s.carts, s.nextId, owner, v);
    match FindItem(s.items, owner, v)
    case None => RowAppended(s, CartItem(s.nextId, owner, v, q, Some(Hold(q, Expiry(s)))), t);
    case Some(k) => RowRequantified(s, k, s.items[k].quantity + q, t);
  }

  /**
   Adding succeeds exactly for a positive number of units of an active variant that are available; then they leave
   the available stock, the cart's row has so many more, and the whole row is held for thirty minutes from now.
   */
  lemma AddExactly(s: Store, owner: Owner, v: VariantId, active: bool, q: int)
    requires Inv(s)
    ensures AfterAdd(s, owner, v, active, q).Ok? <==> active && 0 < q <= LevelOf(s.levels, v).available
    ensures AfterAdd(s, owner, v, active, q).Ok? ==>
              var t := AfterAdd(s, owner, v, active, q).value;
              && Inv(t) && OnlyCarts(s, t) && t.carts == s.carts + {owner}
              && InCartOf(s.items, owner, v) >= 0
              && RowBecomes(s, t, owner, v, InCartOf(s.items, owner, v) + q) && UnitsTaken(s, t, v, q)
  {
    CallSucceedsIff(s.levels, Reserve(v, q));
    if AfterAdd(s, owner, v, active, q).Ok? {
      var t := AfterAdd(s, owner, v, active, q).value;
      AddKeepsInv(s, owner, v, active, q, t);
      AddTakes(s, owner, v, active, q, t);
      AddWritesRow(s, owner, v, active, q, t);
    }
  }

  predicate OwnedRow(s: Store, i: CartItem, owner: Owner, id: nat) {
    i in s.items && i.id == id && i.owner == owner
  }

  lemma OwnedRowFound(s: Store, owner: Owner, id: nat)
    requires ItemsOk(s.items, s.carts, s.nextId)
    ensures (exists i :: OwnedRow(s, i, owner, id)) <==>
            FindId(s.items, id).Some? && s.items[FindId(s.items, id).value].owner == owner
    ensures forall i :: OwnedRow(s, i, owner, id) ==>
              FindId(s.items, id).Some? && s.items[FindId(s.items, id).value] == i
  {
    if FindId(s.items, id).Some? {
      var x := s.items[FindId(s.items, id).value];
      assert x in s.items;
      forall i | OwnedRow(s, i, owner, id) ensures i == x {
        SameIdSameRow(s.items, s.carts, s.nextId, i, x);
      }
      assert x.owner == owner ==> OwnedRow(s, x, owner, id);
    }
  }

  /**
   An owner's row takes any positive quantity whose growth is available; the difference leaves, or returns to, the
   available stock, and the row is held anew. Nobody else's row answers to the call.
   */
  lemma UpdateExactly(s: Store, owner: Owner, id: nat, q: int)
    requires Inv(s)
    ensures AfterUpdate(s, owner, id, q).Ok? <==>
            q > 0 && exists i :: OwnedRow(s, i, owner, id) && q - i.quantity <= LevelOf(s.levels, i.variant).available
    ensures AfterUpdate(s, owner, id, q).Ok? ==>
              var t := AfterUpdate(s, owner, id, q).value;
              && Inv(t) && OnlyCarts(s, t) && t.carts == s.carts
              && forall i :: OwnedRow(s, i, owner, id) ==>
                   RowBecomes(s, t, owner, i.variant, q) && UnitsTaken(s, t, i.variant, q - i.quantity)
  {
    OwnedRowFound(s, owner, id);
    if q > 0 && FindId(s.items, id).Some? && s.items[FindId(s.items, id).value].owner == owner {
      var k := FindId(s.items, id).value;
      assert OwnedRow(s, s.items[k], owner, id);
      UpdateFailsOnlyForStock(s, owner, id, q);
      if AfterUpdate(s, owner, id, q).Ok? {
        var t := AfterUpdate(s, owner, id, q).value;
        UpdateKeepsInv(s, owner, id, q, t);
        RowRequantified(s, k, q, t);
        ResizeTakes(s.levels, s.items[k].variant, q - s.items[k].quantity, t.levels);
      }
    }
  }

  lemma ResizeTakes(ls: Levels, v: VariantId, delta: int, ls': Levels)
    requires AfterResize(ls, v, delta) == Ok(ls')
    ensures SameOnHand(ls, ls')
    ensures forall w: VariantId ::
              LevelOf(ls', w).available == LevelOf(ls, w).available - if w == v then delta else 0
  {
    if delta > 0 {
      CallMoves(ls, Reserve(v, delta), ls');
    } else if delta < 0 {
      CallMoves(ls, Release(v, -delta), ls');
    }
  }

  // ---------------------------------------------------------------------------
  // remove_from_cart and the sweep
  // ---------------------------------------------------------------------------

  /** Exactly row `i` is gone, and all its units are available again. */
  ghost predicate RowDropped(s: Store, t: Store, i: CartItem) {
    && (forall j :: j in t.items <==> j in s.items && j != i)
    && UnitsTaken(s, t, i.variant, 0 - i.quantity)
  }

  lemma DropExactly(s: Store, k: nat)
    requires Inv(s) && k < |s.items|
    ensures AfterDrop(s, k).Ok?
    ensures var t := AfterDrop(s, k).value;
            Inv(t) && OnlyCarts(s, t) && t.carts == s.carts && RowDropped(s, t, s.items[k])
  {
    DropKeepsInv(s, k);
    var (i, t) := (s.items[k], AfterDrop(s, k).value);
    assert ItemOk(i, s.carts, s.nextId);
    CallMoves(s.levels, Release(i.variant, i.quantity), t.levels);
    forall j ensures j in t.items <==> j in s.items && j != i {
      if j in s.items && j != i {
        var n :| 0 <= n < |s.items| && s.items[n] == j;
        assert t.items[if n < k then n else n - 1] == j;
      }
      if j in t.items {
        var n :| 0 <= n < |t.items| && t.items[n] == j;
        assert j == s.items[if n < k then n else n + 1];
        assert if n < k then Apart(s.items[n], s.items[k]) else Apart(s.items[k], s.items[n + 1]);
      }
    }
  }

  /** Removing succeeds exactly for one's own row: it goes, and all its units are available again. */
  lemma RemoveExactly(s: Store, owner: Owner, id: nat)
    requires Inv(s)
    ensures AfterRemove(s, owner, id).Ok? <==> exists i :: OwnedRow(s, i, owner, id)
    ensures AfterRemove(s, owner, id).Ok? ==>
              var t := AfterRemove(s, owner, id).value;
              && Inv(t) && OnlyCarts(s, t) && t.carts == s.carts
              && forall i :: OwnedRow(s, i, owner, id) ==> RowDropped(s, t, i)
  {
    OwnedRowFound(s, owner, id);
    if FindId(s.items, id).Some? {
      DropExactly(s, FindId(s.items, id).value);
    }
  }

  /** One snapshotted id of the sweep: its row goes exactly when its hold has lapsed by now. */
  lemma SweepItemExactly(s: Store, i: CartItem)
    requires Inv(s) && i in s.items
    ensures AfterSweepItem(s, i.id).Ok?
    ensures var t := AfterSweepItem(s, i.id).value;
            && i.hold.Some?
            && if i.hold.value.expiresAt < s.now then Inv(t) && OnlyCarts(s, t) && RowDropped(s, t, i) else t == s
  {
    var k := FindId(s.items, i.id).value;
    SameIdSameRow(s.items, s.carts, s.nextId, i, s.items[k]);
    assert ItemOk(i, s.carts, s.nextId);
    DropExactly(s, k);
  }

  /** However stale its snapshot, a sweep counts exactly the rows it deletes, and on-hand stock is unchanged. */
  lemma {:induction false} SweepCounts(s: Store, ids: seq<nat>)
    requires Inv(s)
    ensures var (t, n) := AfterSweep(s, ids);
            n == |s.items| - |t.items| && OnlyCarts(s, t) && SameOnHand(s.levels, t.levels)
    decreases |ids|
  {
    if ids != [] {
      match FindId(s.items, ids[0])
      case None => SweepCounts(s, ids[1..]);
      case Some(k) =>
        assert s.items[k] in s.items;
        SweepItemExactly(s, s.items[k]);
        SweepCounts(AfterSweepItem(s, ids[0]).value, ids[1..]);
    }
  }

  function LapsedUnits(v: VariantId, now: int): CartItem -> int {
    (i: CartItem) => if i.variant == v && i.hold.Some? && i.hold.value.expiresAt < now then i.quantity else 0
  }

  function LiveUnits(v: VariantId, now: int): CartItem -> int {
    (i: CartItem) => if i.variant == v && i.hold.Some? && i.hold.value.expiresAt >= now then i.quantity else 0
  }

  /** The whole sweep: rows whose hold has lapsed go, all others stand, and the lapsed units are available again. */
  lemma SweepExactly(s: Store)
    requires Inv(s)
    ensures var (t, n) := AfterSweep(s, ExpiredIds(s));
            && Inv(t) && OnlyCarts(s, t) && SameOnHand(s.levels, t.levels)
            && (forall i :: i in t.items <==> i in s.items && i.hold.Some? && i.hold.value.expiresAt >= s.now)
            && forall v: VariantId ::
                 LevelOf(t.levels, v).available ==
                 LevelOf(s.levels, v).available + SumBy(s.items, LapsedUnits(v, s.now))
  {
    var (t, n) := AfterSweep(s, ExpiredIds(s));
    SweepDropsExactlyExpired(s);
    SweepCounts(s, ExpiredIds(s));
    forall i | i in s.items ensures i.hold.Some? && i.hold.value.quantity == i.quantity {
      assert ItemOk(i, s.carts, s.nextId);
    }
    forall v: VariantId
      ensures LevelOf(t.levels, v).available ==
              LevelOf(s.levels, v).available + SumBy(s.items, LapsedUnits(v, s.now))
    {
      SumByLinear(s.items, LapsedUnits(v, s.now), LiveUnits(v, s.now), HoldOf(v));
      SameRowsSameSum(s, t, LiveUnits(v, s.now));
      SumByPointwise(t.items, HoldOf(v), LiveUnits(v, s.now));
      AvailableFollows(s, t, v);
    }
  }

  /** A weight that only rows of `t` carry adds up to the same over `s`. */
  lemma SameRowsSameSum(s: Store, t: Store, f: CartItem -> int)
    requires ItemsOk(s.items, s.carts, s.nextId) && ItemsOk(t.items, t.carts, t.nextId)
    requires forall i :: i in t.items ==> i in s.items
    requires forall i :: i in s.items && i !in t.items ==> f(i) == 0
    ensures SumBy(t.items, f) == SumBy(s.items, f)
  {
    var (kept, gone) := ((i: CartItem) => i in t.items, (i: CartItem) => i !in t.items);
    SumByPartition(s.items, kept, gone, f);
    Nothing(Filter(s.items, gone), f);
    FilterItemsOk(s.items, s.carts, s.nextId, kept);
    RowsDistinct(Filter(s.items, kept), s.carts, s.nextId);
    RowsDistinct(t.items, t.carts, t.nextId);
    SumBySame(Filter(s.items, kept), t.items, f);
  }

  lemma RowsDistinct(items: seq<CartItem>, carts: set<Owner>, nextId: nat)
    requires ItemsOk(items, carts, nextId)
    ensures Distinct(items)
  {
    forall j, k | 0 <= j < k < |items| ensures items[j] != items[k] {
      assert Apart(items[j], items[k]);
    }
  }

  lemma SumBySame(a: seq<CartItem>, b: seq<CartItem>, f: CartItem -> int)
    requires Distinct(a) && Distinct(b) && forall i :: i in a <==> i in b
    ensures SumBy(a, f) == SumBy(b, f)
  {
    SumBySameKeys(a, b, f);
  }

  // ---------------------------------------------------------------------------
  // clear_cart
  // ---------------------------------------------------------------------------

  lemma {:induction false} ReleaseAllKeepsOnHand(ls: Levels, items: seq<CartItem>)
    requires AfterReleaseAll(ls, items).Ok?
    ensures SameOnHand(ls, AfterReleaseAll(ls, items).value)
    decreases |items|
  {
    if items != [] {
      var ls1 := AfterReleaseHold(ls, items[0]).value;
      if items[0].hold.Some? {
        CallMoves(ls, Release(items[0].variant, items[0].hold.value.quantity), ls1);
      }
      ReleaseAllKeepsOnHand(ls1, items[1..]);
    }
  }

  /** Clearing always succeeds: that cart's rows go, no others, and all their units are available again. */
  lemma ClearExactly(s: Store, owner: Owner)
    requires Inv(s)
    ensures AfterClear(s, owner).Ok?
    ensures var t := AfterClear(s, owner).value;
            && Inv(t) && OnlyCarts(s, t) && t.carts == s.carts && SameOnHand(s.levels, t.levels)
            && (forall i :: i in t.items <==> i in s.items && i.owner != owner)
            && forall v: VariantId ::
                 LevelOf(t.levels, v).available == LevelOf(s.levels, v).available + InCartOf(s.items, owner, v)
  {
    ClearKeepsInv(s, owner);
    var t := AfterClear(s, owner).value;
    ReleaseAllKeepsOnHand(s.levels, Filter(s.items, OwnedBy(owner)));
    forall i | i in s.items ensures i.hold.Some? && i.hold.value.quantity == i.quantity {
      assert ItemOk(i, s.carts, s.nextId);
    }
    forall v: VariantId
      ensures LevelOf(t.levels, v).available == LevelOf(s.levels, v).available + InCartOf(s.items, owner, v)
    {
      var others := (i: CartItem) => if i.owner != owner then HoldOf(v)(i) else 0;
      SumByLinear(s.items, InCart(owner, v), others, HoldOf(v));
      SameRowsSameSum(s, t, others);
      SumByPointwise(t.items, HoldOf(v), others);
      AvailableFollows(s, t, v);
    }
  }

  // ---------------------------------------------------------------------------
  // merge_guest_cart
  // ---------------------------------------------------------------------------

  ghost function IdSet(ids: seq<nat>): set<nat> {
    set id | id in ids
  }

  ghost predicate Merges(items: seq<CartItem>, ids: set<nat>, v: VariantId) {
    exists x :: x in items && x.id in ids && x.variant == v
  }

  /** The user's rows of a merged variant are held until `expiry`; the others are as they were. */
  ghost predicate Renewed(before: seq<CartItem>, after: seq<CartItem>, ids: set<nat>, user: Owner, expiry: int) {
    forall i :: i in after && i.owner == user ==>
      if Merges(before, ids, i.variant) then i.hold.Some? && i.hold.value.expiresAt == expiry else i in before
  }

  ghost predicate KeepsOthers(before: seq<CartItem>, after: seq<CartItem>, ids: set<nat>, user: Owner) {
    forall i :: i in before && i.owner != user && i.id !in ids ==> i in after
  }

  ghost predicate RenewedOthersKept(before: seq<CartItem>, after: seq<CartItem>, id: nat, user: Owner, expiry: int) {
    Renewed(before, after, {id}, user, expiry) && KeepsOthers(before, after, {id}, user)
  }

  lemma MergeIntoRenews(items: seq<CartItem>, carts: set<Owner>, nextId: nat, g: nat, e: nat, user: Owner, expiry: int,
                        r: seq<CartItem>)
    requires ItemsOk(items, carts, nextId) && g < |items| && e < |items| && items[g].owner != user
    requires items[e].owner == user && items[e].variant == items[g].variant
    requires r == RemoveAt(items[e := Requantified(items[e], items[e].quantity + items[g].quantity, expiry)], g)
    ensures RenewedOthersKept(items, r, items[g].id, user, expiry)
  {
    var x := Requantified(items[e], items[e].quantity + items[g].quantity, expiry);
    assert items[g] in items;
    forall i | i in r && i.owner == user
      ensures if Merges(items, {items[g].id}, i.variant) then i == x else i in items
    {
      var n :| 0 <= n < |r| && r[n] == i;
      var j := if n < g then n else n + 1;
      if j != e {
        assert i == items[j];
        assert if j < e then Apart(items[j], items[e]) else Apart(items[e], items[j]);
        OnlyVariantOf(items, carts, nextId, g, i.variant);
      }
    }
    forall i | i in items && i.owner != user && i.id != items[g].id ensures i in r {
      var j :| 0 <= j < |items| && items[j] == i;
      assert r[if j < g then j else j - 1] == i;
    }
  }

  /** A single merged id merges its own row's variant and no other. */
  lemma OnlyVariantOf(items: seq<CartItem>, carts: set<Owner>, nextId: nat, g: nat, v: VariantId)
    requires ItemsOk(items, carts, nextId) && g < |items|
    ensures Merges(items, {items[g].id}, v) <==> v == items[g].variant
  {
    assert items[g] in items;
    forall x | x in items && x.id == items[g].id ensures x == items[g] {
      SameIdSameRow(items, carts, nextId, x, items[g]);
    }
  }

  lemma MoveRowRenews(items: seq<CartItem>, carts: set<Owner>, nextId: nat, g: nat, user: Owner, expiry: int)
    requires ItemsOk(items, carts, nextId) && g < |items| && items[g].owner != user
    requires FindItem(items, user, items[g].variant).None? && items[g].hold.Some?
    ensures var x := items[g].(owner := user, hold := Some(items[g].hold.value.(expiresAt := expiry)));
            Renewed(items, items[g := x], {items[g].id}, user, expiry)
            && KeepsOthers(items, items[g := x], {items[g].id}, user)
  {
    var x := items[g].(owner := user, hold := Some(items[g].hold.value.(expiresAt := expiry)));
    var r := items[g := x];
    forall i | i in r && i.owner == user
      ensures if Merges(items, {items[g].id}, i.variant) then i == x else i in items
    {
      var j :| 0 <= j < |r| && r[j] == i;
      OnlyVariantOf(items, carts, nextId, g, i.variant);
      assert j != g ==> i in items && i.variant != items[g].variant;
    }
    forall i | i in items && i.owner != user && i.id != items[g].id ensures i in r {
      var j :| 0 <= j < |items| && items[j] == i;
      assert r[j] == i;
    }
  }

  lemma NothingMerged(items: seq<CartItem>, id: nat, user: Owner, expiry: int)
    requires FindId(items, id).None?
    ensures Renewed(items, items, {id}, user, expiry) && KeepsOthers(items, items, {id}, user)
  {
  }

  lemma MergeIntoFound(items: seq<CartItem>, carts: set<Owner>, nextId: nat, g: nat, e: nat, user: Owner, expiry: int)
    requires ItemsOk(items, carts, nextId) && g < |items| && FindId(items, items[g].id) == Some(g)
    requires items[g].owner != user && FindItem(items, user, items[g].variant) == Some(e)
    ensures RenewedOthersKept(items, MergeOne(items, items[g].id, user, expiry), items[g].id, user, expiry)
  {
    MergeIntoRenews(items, carts, nextId, g, e, user, expiry, MergeOne(items, items[g].id, user, expiry));
  }

  lemma MoveFound(items: seq<CartItem>, carts: set<Owner>, nextId: nat, g: nat, user: Owner, expiry: int)
    requires ItemsOk(items, carts, nextId) && g < |items| && FindId(items, items[g].id) == Some(g)
    requires items[g].owner != user && FindItem(items, user, items[g].variant).None? && items[g].hold.Some?
    ensures RenewedOthersKept(items, MergeOne(items, items[g].id, user, expiry), items[g].id, user, expiry)
  {
    MoveRowRenews(items, carts, nextId, g, user, expiry);
  }

  lemma MergeOneRenews(items: seq<CartItem>, carts: set<Owner>, nextId: nat, id: nat, guest: Owner, user: Owner,
                       expiry: int)
    requires ItemsOk(items, carts, nextId) && guest != user
    requires forall i :: i in items && i.id == id ==> i.owner == guest
    ensures RenewedOthersKept(items, MergeOne(items, id, user, expiry), id, user, expiry)
  {
    var found := FindId(items, id);
    if found.None? {
      NothingMerged(items, id, user, expiry);
    } else {
      var g := found.value;
      assert ItemOk(items[g], carts, nextId) && items[g] in items;
      var e := FindItem(items, user, items[g].variant);
      if e.Some? {
        MergeIntoFound(items, carts, nextId, g, e.value, user, expiry);
      } else {
        MoveFound(items, carts, nextId, g, user, expiry);
      }
    }
  }

  ghost predicate Merged(items: seq<CartItem>, ids: seq<nat>, user: Owner, expiry: int) {
    var (r, merged) := (MergeAll(items, ids, user, expiry), IdSet(ids));
    Renewed(items, r, merged, user, expiry) && KeepsOthers(items, r, merged, user)
  }

  lemma {:induction false} MergeAllRenews(items: seq<CartItem>, carts: set<Owner>, nextId: nat, ids: seq<nat>,
                                          guest: Owner, user: Owner, expiry: int)
    requires ItemsOk(items, carts, nextId) && user in carts && guest != user && Distinct(ids)
    requires forall i :: i in items && i.id in ids ==> i.owner == guest
    ensures Merged(items, ids, user, expiry)
    decreases |ids|
  {
    if ids == [] {
      assert forall v: VariantId :: !Merges(items, {}, v);
    } else {
      var (id, rest) := (ids[0], ids[1..]);
      var mid := MergeOne(items, id, user, expiry);
      assert id in ids && id !in rest;
      MergeOneKeeps(items, carts, nextId, id, guest, user, expiry);
      MergeOneRenews(items, carts, nextId, id, guest, user, expiry);
      forall i | i in mid && i.id in rest ensures i.owner == guest {
        assert i.id in ids;
      }
      MergeAllRenews(mid, carts, nextId, rest, guest, user, expiry);
      RenewalsCompose(items, mid, MergeAll(mid, rest, user, expiry), id, rest, guest, user, expiry);
      assert IdSet(ids) == {id} + IdSet(rest);
    }
  }

  lemma RenewalsCompose(items: seq<CartItem>, mid: seq<CartItem>, after: seq<CartItem>, id: nat, rest: seq<nat>,
                        guest: Owner, user: Owner, expiry: int)
    requires guest != user
    requires Renewed(items, mid, {id}, user, expiry) && KeepsOthers(items, mid, {id}, user)
    requires LeavesOnly(items, mid, {id}, user)
    requires forall i :: i in items && i.id in rest ==> i.owner == guest
    requires forall i :: i in mid && i.id in rest ==> i.owner == guest
    requires id !in rest
    requires Renewed(mid, after, IdSet(rest), user, expiry) && KeepsOthers(mid, after, IdSet(rest), user)
    ensures Renewed(items, after, {id} + IdSet(rest), user, expiry)
    ensures KeepsOthers(items, after, {id} + IdSet(rest), user)
  {
    var later := IdSet(rest);
    forall v: VariantId
      ensures Merges(items, {id} + later, v) <==> Merges(items, {id}, v) || Merges(mid, later, v)
    {
      if Merges(items, {id} + later, v) {
        var x :| x in items && x.id in {id} + later && x.variant == v;
        assert x.id != id ==> x in mid;
      }
      if Merges(mid, later, v) {
        var x :| x in mid && x.id in later && x.variant == v;
        assert x in items;
      }
    }
    forall i | i in after && i.owner == user
      ensures if Merges(items, {id} + later, i.variant) then i.hold.Some? && i.hold.value.expiresAt == expiry
              else i in items
    {
      assert !Merges(mid, later, i.variant) ==> i in mid;
    }
  }

  ghost function GuestIds(s: Store, guest: Owner): seq<nat> {
    Ids(Filter(s.items, OwnedBy(guest)))
  }

  /** What a guest's cart has of a variant is positive exactly when one of its rows is merged into it. */
  lemma GuestHas(s: Store, guest: Owner, v: VariantId)
    requires ItemsOk(s.items, s.carts, s.nextId)
    ensures InCartOf(s.items, guest, v) > 0 <==> Merges(s.items, IdSet(GuestIds(s, guest)), v)
  {
    GuestRows(s, guest);
    OneRow(s.items, s.carts, s.nextId, guest, v);
    match FindItem(s.items, guest, v)
    case None =>
    case Some(k) => assert ItemOk(s.items[k], s.carts, s.nextId) && s.items[k] in s.items;
  }

  lemma MergeRows(s: Store, guest: Owner, target: Owner)
    requires Inv(s) && guest in s.carts && guest != target
    ensures var r := MergeAll(s.items, GuestIds(s, guest), target, Expiry(s));
            && Filter(r, NotOwnedBy(guest)) == r
            && (forall i: CartItem :: i.owner != guest && i.owner != target ==> (i in r <==> i in s.items))
            && Renewed(s.items, r, IdSet(GuestIds(s, guest)), target, Expiry(s))
            && SameUnits(s.items, r, guest, target)
  {
    var (ids, carts) := (GuestIds(s, guest), s.carts + {target});
    GuestRows(s, guest);
    MoreCarts(s.items, s.carts, carts, s.nextId);
    MergedRows(s, guest, target);
    MergeAllKeeps(s.items, carts, s.nextId, ids, guest, target, Expiry(s));
    MergeAllRenews(s.items, carts, s.nextId, ids, guest, target, Expiry(s));
  }

  lemma MergeUnits(s: Store, t: Store, guest: Owner, target: Owner)
    requires SameUnits(s.items, t.items, guest, target) && guest != target
    requires forall i :: i in t.items ==> i.owner != guest
    ensures forall v: VariantId ::
              InCartOf(t.items, target, v) == InCartOf(s.items, guest, v) + InCartOf(s.items, target, v)
  {
    forall v: VariantId
      ensures InCartOf(t.items, target, v) == InCartOf(s.items, guest, v) + InCartOf(s.items, target, v)
    {
      SumByLinear(s.items, InCart(guest, v), InCart(target, v), UnitsIn(guest, target, v));
      SumByPointwise(t.items, UnitsIn(guest, target, v), InCart(target, v));
    }
  }

  /**
   Of each variant the user's cart has what the two had together, held for thirty minutes from now if any of it was the
   guest's; no row is the guest's any more; and nobody else's rows change.
   */
  ghost predicate CartsMerged(s: Store, t: Store, guest: Owner, target: Owner) {
    && (forall i :: i in t.items ==> i.owner != guest)
    && (forall i: CartItem :: i.owner != guest && i.owner != target ==> (i in t.items <==> i in s.items))
    && (forall v: VariantId ::
          InCartOf(t.items, target, v) == InCartOf(s.items, guest, v) + InCartOf(s.items, target, v))
    && (forall i :: i in t.items && i.owner == target ==>
          if InCartOf(s.items, guest, i.variant) > 0 then i.hold == Some(Hold(i.quantity, s.now + 30))
          else i in s.items)
  }

  lemma NoGuestCart(s: Store, guest: Owner, target: Owner)
    requires ItemsOk(s.items, s.carts, s.nextId) && guest !in s.carts && guest != target
    ensures CartsMerged(s, s, guest, target)
  {
    NoCartNoRows(s, guest);
    forall v: VariantId ensures InCartOf(s.items, guest, v) == 0 {
      Nothing(s.items, InCart(guest, v));
    }
  }

  lemma RowMerged(s: Store, t: Store, guest: Owner, target: Owner, i: CartItem)
    requires ItemsOk(s.items, s.carts, s.nextId) && ItemsOk(t.items, t.carts, t.nextId)
    requires Renewed(s.items, t.items, IdSet(GuestIds(s, guest)), target, Expiry(s))
    requires i in t.items && i.owner == target
    ensures if InCartOf(s.items, guest, i.variant) > 0 then i.hold == Some(Hold(i.quantity, s.now + 30))
            else i in s.items
  {
    assert ItemOk(i, t.carts, t.nextId);
    GuestHas(s, guest, i.variant);
  }

  lemma GuestCartMerged(s: Store, t: Store, guest: Owner, target: Owner)
    requires Inv(s) && guest in s.carts && guest != target
    requires t.items == MergeAll(s.items, GuestIds(s, guest), target, Expiry(s))
    requires ItemsOk(t.items, t.carts, t.nextId) && forall i :: i in t.items ==> i.owner != guest
    ensures CartsMerged(s, t, guest, target)
  {
    MergeRows(s, guest, target);
    MergeUnits(s, t, guest, target);
    forall i | i in t.items && i.owner == target
      ensures if InCartOf(s.items, guest, i.variant) > 0 then i.hold == Some(Hold(i.quantity, s.now + 30))
              else i in s.items
    {
      RowMerged(s, t, guest, target, i);
    }
  }

  /** Merging moves no stock, ends the guest's cart, and leaves the user's cart with what the two had together. */
  lemma MergeExactly(s: Store, key: nat, user: nat)
    requires Inv(s)
    ensures var (t, guest, target) := (AfterMerge(s, key, user), Session(key), User(user));
            && Inv(t) && OnlyCarts(s, t) && t.levels == s.levels
            && t.carts == (if guest in s.carts then s.carts + {target} - {guest} else s.carts)
            && CartsMerged(s, t, guest, target)
  {
    MergeKeepsInv(s, key, user);
    var (t, guest, target) := (AfterMerge(s, key, user), Session(key), User(user));
    if guest !in s.carts {
      NoGuestCart(s, guest, target);
    } else {
      MergeRows(s, guest, target);
      GuestCartMerged(s, t, guest, target);
    }
  }
}
