/** Every cart call keeps the reservation balance, and the releasing ones cannot fail. */
module CartProofs {
  import opened Results
  import opened Sums
  import opened Inventory
  import opened StoreState
  import opened CartOps

  lemma AddKeepsInv(s: Store, owner: Owner, v: VariantId, active: bool, q: int, s': Store)
    requires Inv(s) && AfterAdd(s, owner, v, active, q) == Ok(s')
    ensures Inv(s')
  {
    ReserveExplained(s.levels, v, q, s'.levels);
    MoreCarts(s.items, s.carts, s'.carts, s.nextId);
    match FindItem(s.items, owner, v) {
      case None =>
        var row := CartItem(s.nextId, owner, v, q, Some(Hold(q, Expiry(s))));
        AppendItem(s.items, s'.carts, s.nextId, row);
        forall w: VariantId ensures Slack(s', w) == 0 {
          SumBySnoc(s.items, row, HoldOf(w));
          assert Slack(s, w) == 0;
        }
      case Some(k) =>
        RequantifyItem(s.items, s'.carts, s.nextId, k, s.items[k].quantity + q, Expiry(s));
        forall w: VariantId ensures Slack(s', w) == 0 {
          RequantifyHeld(s, k, s.items[k].quantity + q, w);
          assert Slack(s, w) == 0;
        }
    }
  }

  /** Because the hold always equals the quantity, re-quantifying a row moves Held by the difference. */
  lemma RequantifyHeld(s: Store, k: nat, q: nat, w: VariantId)
    requires ItemsOk(s.items, s.carts, s.nextId) && k < |s.items|
    ensures Held(s.items[k := Requantified(s.items[k], q, Expiry(s))], w)
         == Held(s.items, w) + if w == s.items[k].variant then q - s.items[k].quantity else 0
  {
    assert ItemOk(s.items[k], s.carts, s.nextId);
    SumByUpdate(s.items, k, Requantified(s.items[k], q, Expiry(s)), HoldOf(w));
  }

  lemma ResizeExplained(ls: Levels, v: VariantId, delta: int, ls': Levels)
    requires AllExplained(ls) && AfterResize(ls, v, delta) == Ok(ls')
    ensures AllExplained(ls')
  {
    if delta > 0 {
      ReserveExplained(ls, v, delta, ls');
    } else if delta < 0 {
      ReleaseExplained(ls, v, -delta, ls');
    }
  }

  lemma ResizeMoves(ls: Levels, v: VariantId, delta: int, ls': Levels, w: VariantId)
    requires AfterResize(ls, v, delta) == Ok(ls')
    ensures LevelOf(ls', w).reserved == LevelOf(ls, w).reserved + if w == v then delta else 0
  {
  }

  lemma UpdateKeepsInv(s: Store, owner: Owner, id: nat, q: int, s': Store)
    requires Inv(s) && AfterUpdate(s, owner, id, q) == Ok(s')
    ensures Inv(s')
  {
    var k := FindId(s.items, id).value;
    var (v, delta) := (s.items[k].variant, q - s.items[k].quantity);
    ResizeExplained(s.levels, v, delta, s'.levels);
    RequantifyItem(s.items, s.carts, s.nextId, k, q, Expiry(s));
    forall w: VariantId ensures Slack(s', w) == 0 {
      ResizeMoves(s.levels, v, delta, s'.levels, w);
      RequantifyHeld(s, k, q, w);
      assert Slack(s, w) == 0;
    }
  }

  /** Shrinking a cart row never fails; growing it fails only for want of available stock. */
  lemma UpdateFailsOnlyForStock(s: Store, owner: Owner, id: nat, q: int)
    requires Inv(s) && q > 0
    requires FindId(s.items, id).Some? && s.items[FindId(s.items, id).value].owner == owner
    ensures var i := s.items[FindId(s.items, id).value];
            AfterUpdate(s, owner, id, q).Ok? <==> q - i.quantity <= LevelOf(s.levels, i.variant).available
  {
    var k := FindId(s.items, id).value;
    HoldCovered(s, k);
    assert ItemOk(s.items[k], s.carts, s.nextId);
  }

  // ---------------------------------------------------------------------------
  // Dropping a row: remove_from_cart and the expiry sweep
  // ---------------------------------------------------------------------------

  /** Dropping a row releases exactly its own hold and can never be refused. */
  lemma DropKeepsInv(s: Store, k: nat)
    requires Inv(s) && k < |s.items|
    ensures AfterDrop(s, k).Ok? && Inv(AfterDrop(s, k).value)
  {
    HoldCovered(s, k);
    assert ItemOk(s.items[k], s.carts, s.nextId);
    var (i, s') := (s.items[k], AfterDrop(s, k).value);
    ReleaseExplained(s.levels, i.variant, i.hold.value.quantity, s'.levels);
    RemoveItem(s.items, s.carts, s.nextId, k);
    forall w: VariantId ensures Slack(s', w) == 0 {
      SumByRemove(s.items, k, HoldOf(w));
      assert Slack(s, w) == 0;
    }
  }

  lemma RemoveKeepsInv(s: Store, owner: Owner, id: nat)
    requires Inv(s)
    ensures AfterRemove(s, owner, id).Ok? ==> Inv(AfterRemove(s, owner, id).value)
    ensures AfterRemove(s, owner, id).Ok? <==>
            exists k: nat :: k < |s.items| && s.items[k].id == id && s.items[k].owner == owner
  {
    match FindId(s.items, id) {
      case None =>
      case Some(k) =>
        DropKeepsInv(s, k);
        forall j: nat | j < |s.items| && j != k ensures s.items[j].id != id {
          assert if j < k then Apart(s.items[j], s.items[k]) else Apart(s.items[k], s.items[j]);
        }
    }
  }

  /** The sweep never fails on a row that still exists, whatever happened since its snapshot. */
  lemma SweepItemKeepsInv(s: Store, id: nat)
    requires Inv(s)
    ensures AfterSweepItem(s, id).Err? <==> FindId(s.items, id).None?
    ensures AfterSweepItem(s, id).Ok? ==> Inv(AfterSweepItem(s, id).value)
  {
    match FindId(s.items, id) {
      case None =>
      case Some(k) => DropKeepsInv(s, k);
    }
  }

  /** Dropping by id removes that row and no other. */
  lemma DropById(s: Store, id: nat)
    requires Inv(s) && FindId(s.items, id).Some? && Expired(s.items[FindId(s.items, id).value], s.now)
    ensures var r := AfterSweepItem(s, id);
            && r.Ok? && Inv(r.value) && r.value.now == s.now
            && forall i :: i in r.value.items <==> i in s.items && i.id != id
  {
    var k := FindId(s.items, id).value;
    DropKeepsInv(s, k);
    OnlyRowWithId(s.items, s.carts, s.nextId, k);
    forall i | i in s.items && i.id != id ensures i in RemoveAt(s.items, k) {
      var j :| 0 <= j < |s.items| && s.items[j] == i;
      assert RemoveAt(s.items, k)[if j < k then j else j - 1] == i;
    }
  }

  ghost predicate HasExpired(s: Store, id: nat) {
    exists i :: i in s.items && i.id == id && Expired(i, s.now)
  }

  lemma {:induction false} SweepIdsDrops(s: Store, ids: seq<nat>)
    requires Inv(s) && Distinct(ids)
    requires forall id :: id in ids ==> HasExpired(s, id)
    ensures var (t, n) := AfterSweep(s, ids);
            && Inv(t) && n == |ids|
            && forall i :: i in t.items <==> i in s.items && i.id !in ids
    decreases |ids|
  {
    if ids != [] {
      var (id, rest) := (ids[0], ids[1..]);
      assert id in ids && HasExpired(s, id);
      var i :| i in s.items && i.id == id && Expired(i, s.now);
      var k := FindId(s.items, id).value;
      SameIdSameRow(s.items, s.carts, s.nextId, i, s.items[k]);
      DropById(s, id);
      var t := AfterSweepItem(s, id).value;
      forall other | other in rest ensures HasExpired(t, other) {
        assert other in ids && HasExpired(s, other);
        var x :| x in s.items && x.id == other && Expired(x, s.now);
        assert x in t.items;
      }
      SweepIdsDrops(t, rest);
    }
  }

  /** An undisturbed sweep deletes exactly the expired rows, counts them, and keeps the balance. */
  lemma SweepDropsExactlyExpired(s: Store)
    requires Inv(s)
    ensures var (t, n) := AfterSweep(s, ExpiredIds(s));
            && Inv(t) && n == |Filter(s.items, ExpiredAt(s.now))|
            && forall i :: i in t.items <==> i in s.items && !Expired(i, s.now)
  {
    var gone := Filter(s.items, ExpiredAt(s.now));
    FilterItemsOk(s.items, s.carts, s.nextId, ExpiredAt(s.now));
    forall j, k | 0 <= j < k < |gone| ensures Ids(gone)[j] != Ids(gone)[k] {
      assert Apart(gone[j], gone[k]);
    }
    forall id | id in Ids(gone) ensures HasExpired(s, id) {
      var k :| 0 <= k < |gone| && Ids(gone)[k] == id;
      assert gone[k] in s.items;
    }
    SweepIdsDrops(s, Ids(gone));
    forall i | i in s.items ensures i.id in Ids(gone) <==> Expired(i, s.now) {
      if i in gone {
        var k :| 0 <= k < |gone| && gone[k] == i;
        assert Ids(gone)[k] == i.id;
      }
      if i.id in Ids(gone) {
        var k :| 0 <= k < |gone| && Ids(gone)[k] == i.id;
        SameIdSameRow(s.items, s.carts, s.nextId, i, gone[k]);
      }
    }
  }

  // ---------------------------------------------------------------------------
  // clear_cart
  // ---------------------------------------------------------------------------

  ghost predicate HoldsPositive(items: seq<CartItem>) {
    forall i :: i in items ==> i.hold.Some? && i.hold.value.quantity > 0
  }

  /** Releasing many holds in a row: never refused when together they are covered. */
  lemma {:induction false} ReleaseAllMoves(ls: Levels, items: seq<CartItem>)
    requires HoldsPositive(items) && AllExplained(ls)
    requires forall v: VariantId :: Held(items, v) <= LevelOf(ls, v).reserved
    ensures var r := AfterReleaseAll(ls, items);
            && r.Ok? && AllExplained(r.value)
            && forall v: VariantId :: LevelOf(r.value, v).reserved == LevelOf(ls, v).reserved - Held(items, v)
  {
    if items == [] {
    } else {
      var (i, rest) := (items[0], items[1..]);
      HeldNonNegative(rest, i.variant);
      assert Held(items, i.variant) == i.hold.value.quantity + Held(rest, i.variant);
      var ls1 := AfterReleaseHold(ls, i).value;
      ReleaseExplained(ls, i.variant, i.hold.value.quantity, ls1);
      forall v: VariantId ensures Held(rest, v) <= LevelOf(ls1, v).reserved {
        assert Held(items, v) == HoldOf(v)(i) + Held(rest, v);
      }
      ReleaseAllMoves(ls1, rest);
      var ls2 := AfterReleaseAll(ls1, rest).value;
      forall v: VariantId ensures LevelOf(ls2, v).reserved == LevelOf(ls, v).reserved - Held(items, v) {
        assert Held(items, v) == HoldOf(v)(i) + Held(rest, v);
      }
    }
  }

  lemma HeldNonNegative(items: seq<CartItem>, v: VariantId)
    ensures Held(items, v) >= 0
  {
    SumByNonNegative(items, HoldOf(v));
  }

  lemma {:induction false} FilterItemsOk(items: seq<CartItem>, carts: set<Owner>, nextId: nat, p: CartItem -> bool)
    requires ItemsOk(items, carts, nextId)
    ensures ItemsOk(Filter(items, p), carts, nextId)
  {
    if items != [] {
      var rest := items[1..];
      forall j, k | 0 <= j < k < |rest| ensures Apart(rest[j], rest[k]) {
        assert Apart(items[j + 1], items[k + 1]);
      }
      FilterItemsOk(rest, carts, nextId, p);
      if p(items[0]) {
        var f := Filter(rest, p);
        forall k | 0 <= k < |f| ensures Apart(items[0], f[k]) {
          assert f[k] in rest;
          var j :| 0 <= j < |rest| && rest[j] == f[k];
          assert Apart(items[0], items[j + 1]);
        }
        var g := [items[0]] + f;
        forall j, k | 0 <= j < k < |g| ensures Apart(g[j], g[k]) {
          if j > 0 {
            assert Apart(f[j - 1], f[k - 1]);
          }
        }
      }
    }
  }

  /** clear_cart always succeeds, empties that cart, touches no other, and keeps the balance. */
  lemma ClearKeepsInv(s: Store, owner: Owner)
    requires Inv(s)
    ensures var r := AfterClear(s, owner);
            && r.Ok? && Inv(r.value)
            && (forall i :: i in r.value.items <==> i in s.items && i.owner != owner)
  {
    var mine := Filter(s.items, OwnedBy(owner));
    forall v: VariantId ensures Held(mine, v) <= LevelOf(s.levels, v).reserved {
      SumByPartition(s.items, OwnedBy(owner), NotOwnedBy(owner), HoldOf(v));
      HeldNonNegative(Filter(s.items, NotOwnedBy(owner)), v);
      OrdersNonNegative(s.orders, v);
      assert Slack(s, v) == 0;
    }
    forall i | i in mine ensures i.hold.Some? && i.hold.value.quantity > 0 {
      assert ItemOk(i, s.carts, s.nextId);
    }
    ReleaseAllMoves(s.levels, mine);
    FilterItemsOk(s.items, s.carts, s.nextId, NotOwnedBy(owner));
    var s' := AfterClear(s, owner).value;
    forall v: VariantId ensures Slack(s', v) == 0 {
      SumByPartition(s.items, OwnedBy(owner), NotOwnedBy(owner), HoldOf(v));
      assert Slack(s, v) == 0;
    }
  }

  // ---------------------------------------------------------------------------
  // merge_guest_cart
  // ---------------------------------------------------------------------------

  /** Units of `v` in either of two carts. */
  function UnitsIn(a: Owner, b: Owner, v: VariantId): CartItem -> int {
    (i: CartItem) => if (i.owner == a || i.owner == b) && i.variant == v then i.quantity else 0
  }

  /** Merging moves no unit: neither the reserved units of a variant nor the two carts' own units. */
  ghost predicate SameUnits(before: seq<CartItem>, after: seq<CartItem>, guest: Owner, user: Owner) {
    forall v: VariantId ::
      && Held(after, v) == Held(before, v)
      && SumBy(after, UnitsIn(guest, user, v)) == SumBy(before, UnitsIn(guest, user, v))
  }

  lemma OnlyRowWithId(items: seq<CartItem>, carts: set<Owner>, nextId: nat, g: nat)
    requires ItemsOk(items, carts, nextId) && g < |items|
    ensures forall i :: i in RemoveAt(items, g) ==> i.id != items[g].id
  {
    forall k | 0 <= k < |items| - 1 ensures RemoveAt(items, g)[k].id != items[g].id {
      assert if k < g then Apart(items[k], items[g]) else Apart(items[g], items[k + 1]);
    }
  }

  ghost function UserIds(items: seq<CartItem>, user: Owner): set<nat> {
    set i | i in items && i.owner == user :: i.id
  }

  /** What a merge leaves: the user's rows, and rows of other carts it was not asked to move. */
  ghost predicate LeavesOnly(before: seq<CartItem>, after: seq<CartItem>, ids: set<nat>, user: Owner) {
    forall i :: i in after ==>
      if i.owner == user then i.id in UserIds(before, user) + ids else i in before && i.id !in ids
  }

  lemma MergeIntoLeaves(items: seq<CartItem>, carts: set<Owner>, nextId: nat, g: nat, e: nat, user: Owner, x: CartItem)
    requires ItemsOk(items, carts, nextId) && g < |items| && e < |items| && g != e
    requires items[e].owner == user == x.owner && x.id == items[e].id && items[g].owner != user
    ensures LeavesOnly(items, RemoveAt(items[e := x], g), {items[g].id}, user)
  {
    OnlyRowWithId(items, carts, nextId, g);
    var r := RemoveAt(items[e := x], g);
    forall k | 0 <= k < |r|
      ensures if r[k].owner == user then r[k].id in UserIds(items, user) + {items[g].id}
              else r[k] in items && r[k].id != items[g].id
    {
      var j := if k < g then k else k + 1;
      assert RemoveAt(items, g)[k] == items[j] && items[j] in items;
      assert items[j].owner == user ==> items[j].id in UserIds(items, user);
    }
  }

  lemma MoveRowLeaves(items: seq<CartItem>, carts: set<Owner>, nextId: nat, g: nat, user: Owner, x: CartItem)
    requires ItemsOk(items, carts, nextId) && g < |items| && x.owner == user && x.id == items[g].id
    ensures LeavesOnly(items, items[g := x], {items[g].id}, user)
  {
    OnlyRowWithId(items, carts, nextId, g);
    var r := items[g := x];
    forall k | 0 <= k < |r|
      ensures if r[k].owner == user then r[k].id in UserIds(items, user) + {items[g].id}
              else r[k] in items && r[k].id != items[g].id
    {
      if k != g {
        var j := if k < g then k else k - 1;
        assert RemoveAt(items, g)[j] == items[k] && items[k] in items;
        assert items[k].owner == user ==> items[k].id in UserIds(items, user);
      }
    }
  }

  lemma MergeIntoKeeps(items: seq<CartItem>, carts: set<Owner>, nextId: nat, g: nat, e: nat,
                       guest: Owner, user: Owner, expiry: int)
    requires ItemsOk(items, carts, nextId) && g < |items| && e < |items|
    requires items[g].owner == guest != user == items[e].owner && items[e].variant == items[g].variant
    ensures var q := items[e].quantity + items[g].quantity;
            var r := RemoveAt(items[e := Requantified(items[e], q, expiry)], g);
            ItemsOk(r, carts, nextId) && SameUnits(items, r, guest, user)
  {
    assert ItemOk(items[g], carts, nextId) && ItemOk(items[e], carts, nextId);
    var q := items[e].quantity + items[g].quantity;
    var mid := items[e := Requantified(items[e], q, expiry)];
    RequantifyItem(items, carts, nextId, e, q, expiry);
    RemoveItem(mid, carts, nextId, g);
    forall v: VariantId
      ensures Held(RemoveAt(mid, g), v) == Held(items, v)
      ensures SumBy(RemoveAt(mid, g), UnitsIn(guest, user, v)) == SumBy(items, UnitsIn(guest, user, v))
    {
      SumByUpdate(items, e, mid[e], HoldOf(v));
      SumByRemove(mid, g, HoldOf(v));
      SumByUpdate(items, e, mid[e], UnitsIn(guest, user, v));
      SumByRemove(mid, g, UnitsIn(guest, user, v));
    }
  }

  lemma MoveRowKeeps(items: seq<CartItem>, carts: set<Owner>, nextId: nat, g: nat,
                     guest: Owner, user: Owner, expiry: int)
    requires ItemsOk(items, carts, nextId) && user in carts && g < |items|
    requires items[g].owner == guest != user && FindItem(items, user, items[g].variant).None?
    ensures var x := items[g].(owner := user, hold := Some(Hold(items[g].quantity, expiry)));
            var r := items[g := x];
            ItemsOk(r, carts, nextId) && SameUnits(items, r, guest, user)
  {
    assert ItemOk(items[g], carts, nextId);
    var x := items[g].(owner := user, hold := Some(Hold(items[g].quantity, expiry)));
    ReplaceItem(items, carts, nextId, g, x);
    var r := items[g := x];
    forall v: VariantId
      ensures Held(r, v) == Held(items, v)
      ensures SumBy(r, UnitsIn(guest, user, v)) == SumBy(items, UnitsIn(guest, user, v))
    {
      SumByUpdate(items, g, x, HoldOf(v));
      SumByUpdate(items, g, x, UnitsIn(guest, user, v));
    }
  }

  lemma MergeOneKeeps(items: seq<CartItem>, carts: set<Owner>, nextId: nat, id: nat,
                      guest: Owner, user: Owner, expiry: int)
    requires ItemsOk(items, carts, nextId) && user in carts && guest != user
    requires forall i :: i in items && i.id == id ==> i.owner == guest
    ensures var r := MergeOne(items, id, user, expiry);
            && ItemsOk(r, carts, nextId)
            && SameUnits(items, r, guest, user)
            && LeavesOnly(items, r, {id}, user)
  {
    match FindId(items, id) {
      case None =>
      case Some(g) =>
        assert ItemOk(items[g], carts, nextId) && items[g] in items;
        match FindItem(items, user, items[g].variant) {
          case Some(e) =>
            MergeIntoKeeps(items, carts, nextId, g, e, guest, user, expiry);
            MergeIntoLeaves(items, carts, nextId, g, e, user,
              Requantified(items[e], items[e].quantity + items[g].quantity, expiry));
          case None =>
            MoveRowKeeps(items, carts, nextId, g, guest, user, expiry);
            MoveRowLeaves(items, carts, nextId, g, user,
              items[g].(owner := user, hold := Some(Hold(items[g].quantity, expiry))));
        }
    }
  }

  lemma {:induction false} MergeAllKeeps(items: seq<CartItem>, carts: set<Owner>, nextId: nat, ids: seq<nat>,
                                         guest: Owner, user: Owner, expiry: int)
    requires ItemsOk(items, carts, nextId) && user in carts && guest != user && Distinct(ids)
    requires forall i :: i in items && i.id in ids ==> i.owner == guest
    ensures var r := MergeAll(items, ids, user, expiry);
            && ItemsOk(r, carts, nextId)
            && SameUnits(items, r, guest, user)
            && LeavesOnly(items, r, (set id | id in ids), user)
    decreases |ids|
  {
    if ids != [] {
      var (id, rest) := (ids[0], ids[1..]);
      var mid := MergeOne(items, id, user, expiry);
      MergeOneKeeps(items, carts, nextId, id, guest, user, expiry);
      assert id !in rest;
      forall i | i in mid && i.id in rest ensures i.owner == guest {
        if i.owner == user {
          var j :| j in items && j.owner == user && j.id == i.id;
          assert j.id in ids;
        }
      }
      MergeAllKeeps(mid, carts, nextId, rest, guest, user, expiry);
      var r := MergeAll(mid, rest, user, expiry);
      forall i | i in r
        ensures if i.owner == user then i.id in UserIds(items, user) + (set id | id in ids)
                else i in items && i.id !in ids
      {
        if i.owner == user && i.id in UserIds(mid, user) {
          var j :| j in mid && j.owner == user && j.id == i.id;
        }
      }
    }
  }

  lemma {:induction false} FilterAll<T(!new)>(s: seq<T>, p: T -> bool)
    requires forall x :: x in s ==> p(x)
    ensures Filter(s, p) == s
  {
    if s != [] {
      FilterAll(s[1..], p);
    }
  }

  /** The guest's rows, by id: distinct ids, and exactly the guest's. */
  lemma GuestRows(s: Store, guest: Owner)
    requires ItemsOk(s.items, s.carts, s.nextId)
    ensures var ids := Ids(Filter(s.items, OwnedBy(guest)));
            Distinct(ids) && forall i :: i in s.items ==> (i.id in ids <==> i.owner == guest)
  {
    var mine := Filter(s.items, OwnedBy(guest));
    FilterItemsOk(s.items, s.carts, s.nextId, OwnedBy(guest));
    forall j, k | 0 <= j < k < |mine| ensures Ids(mine)[j] != Ids(mine)[k] {
      assert Apart(mine[j], mine[k]);
    }
    forall i | i in s.items ensures i.id in Ids(mine) <==> i.owner == guest {
      if i in mine {
        var k :| 0 <= k < |mine| && mine[k] == i;
        assert Ids(mine)[k] == i.id;
      }
      if i.id in Ids(mine) {
        var k :| 0 <= k < |mine| && Ids(mine)[k] == i.id;
        SameIdSameRow(s.items, s.carts, s.nextId, i, mine[k]);
      }
    }
  }

  /** A guest without a cart has no rows. */
  lemma NoCartNoRows(s: Store, guest: Owner)
    requires ItemsOk(s.items, s.carts, s.nextId) && guest !in s.carts
    ensures forall i :: i in s.items ==> i.owner != guest
  {
    forall i | i in s.items ensures i.owner != guest {
      assert ItemOk(i, s.carts, s.nextId);
    }
  }

  /** Once every guest row has been merged none is left, so the cascade deletes nothing and the rows stay sound. */
  lemma MergedRows(s: Store, guest: Owner, user: Owner)
    requires ItemsOk(s.items, s.carts, s.nextId) && guest in s.carts && guest != user
    ensures var r := MergeAll(s.items, Ids(Filter(s.items, OwnedBy(guest))), user, Expiry(s));
            && Filter(r, NotOwnedBy(guest)) == r
            && (forall i :: i in r ==> i.owner != guest)
            && ItemsOk(r, s.carts + {user} - {guest}, s.nextId)
            && SameUnits(s.items, r, guest, user)
  {
    var ids := Ids(Filter(s.items, OwnedBy(guest)));
    var carts := s.carts + {user};
    GuestRows(s, guest);
    MoreCarts(s.items, s.carts, carts, s.nextId);
    MergeAllKeeps(s.items, carts, s.nextId, ids, guest, user, Expiry(s));
    var r := MergeAll(s.items, ids, user, Expiry(s));
    assert forall i :: i in r ==> i.owner != guest;
    FilterAll(r, NotOwnedBy(guest));
    forall i | i in r ensures ItemOk(i, carts - {guest}, s.nextId) {
      assert ItemOk(i, carts, s.nextId);
    }
  }

  /**
   merge_guest_cart: the cascade of the guest cart's deletion reaches no row, so no unit stays reserved
   without an owner, and the user's cart holds, variant by variant, what the two carts held together.
   */
  lemma MergeKeepsInv(s: Store, key: nat, user: nat)
    requires Inv(s)
    ensures var s' := AfterMerge(s, key, user);
            && Inv(s')
            && (forall i :: i in s'.items ==> i.owner != Session(key))
            && (forall v: VariantId ::
                  SumBy(s'.items, UnitsIn(Session(key), User(user), v))
                  == SumBy(s.items, UnitsIn(Session(key), User(user), v)))
  {
    var (guest, s') := (Session(key), AfterMerge(s, key, user));
    if guest !in s.carts {
      NoCartNoRows(s, guest);
    } else {
      MergedRows(s, guest, User(user));
      forall v: VariantId ensures Slack(s', v) == 0 {
        assert Slack(s, v) == 0;
      }
    }
  }

  lemma SameIdSameRow(items: seq<CartItem>, carts: set<Owner>, nextId: nat, a: CartItem, b: CartItem)
    requires ItemsOk(items, carts, nextId) && a in items && b in items && a.id == b.id
    ensures a == b
  {
    var j :| 0 <= j < |items| && items[j] == a;
    var k :| 0 <= k < |items| && items[k] == b;
    assert j < k ==> Apart(items[j], items[k]);
    assert k < j ==> Apart(items[k], items[j]);
  }

  // ---------------------------------------------------------------------------
  // Handing a cart hold to an order
  // ---------------------------------------------------------------------------

  lemma HandOverSlack(s: Store, k: nat, q: int, w: VariantId)
    requires k < |s.items| && s.items[k].hold.Some? && AfterHandOver(s, k, q).Ok?
    ensures var (s', taken) := AfterHandOver(s, k, q).value;
            Slack(s', w) == Slack(s, w) + if taken && w == s.items[k].variant then q else 0
  {
    SumByRemove(s.items, k, HoldOf(w));
  }

  lemma HandOverExplained(s: Store, k: nat, q: int)
    requires AllExplained(s.levels) && k < |s.items| && s.items[k].hold.Some?
    ensures AfterHandOver(s, k, q).Ok? ==> AllExplained(AfterHandOver(s, k, q).value.0.levels)
  {
    var r := AfterHandOver(s, k, q);
    if r.Ok? {
      var (v, held) := (s.items[k].variant, s.items[k].hold.value.quantity);
      if held < q {
        ReleaseExplained(s.levels, v, held, r.value.0.levels);
      } else if held > q {
        ReleaseExplained(s.levels, v, held - q, r.value.0.levels);
      }
    }
  }

  /** Covered by the reserved column, a live hold can always be handed over. */
  lemma HandOverSucceeds(s: Store, k: nat, q: int)
    requires ItemsOk(s.items, s.carts, s.nextId) && OrdersOk(s.orders) && q > 0 && k < |s.items|
    requires Slack(s, s.items[k].variant) >= 0
    ensures s.items[k].hold.Some? && AfterHandOver(s, k, q).Ok?
  {
    assert ItemOk(s.items[k], s.carts, s.nextId);
    SumByMember(s.items, k, HoldOf(s.items[k].variant));
    OrdersNonNegative(s.orders, s.items[k].variant);
  }

  /** Every branch: the hand-over leaves exactly the units the order will take unaccounted for, or none. */
  lemma ConsumeKeeps(s: Store, buyer: nat, v: VariantId, q: int)
    requires ItemsOk(s.items, s.carts, s.nextId) && AllExplained(s.levels) && OrdersOk(s.orders) && q > 0
    requires Slack(s, v) >= 0
    ensures var r := AfterConsume(s, buyer, v, q);
            && r.Ok?
            && var (s', taken) := r.value;
               && ItemsOk(s'.items, s'.carts, s'.nextId) && AllExplained(s'.levels)
               && s' == s.(levels := s'.levels, items := s'.items)
               && forall w: VariantId :: Slack(s', w) == Slack(s, w) + if taken && w == v then q else 0
  {
    match FindItem(s.items, User(buyer), v) {
      case None =>
      case Some(k) =>
        HandOverSucceeds(s, k, q);
        HandOverExplained(s, k, q);
        RemoveItem(s.items, s.carts, s.nextId, k);
        var r := AfterHandOver(s, k, q).value;
        forall w: VariantId
          ensures Slack(r.0, w) == Slack(s, w) + if r.1 && w == v then q else 0
        {
          HandOverSlack(s, k, q, w);
        }
    }
  }
}
