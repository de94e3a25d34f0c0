/**
 Committed effect of each cart call (apps/marketplace/services.py, tasks.py) on the store, and the
 proof that each keeps the reservation balance. An `Err` is an exception: the transaction rolls back.
 */
module CartOps {
  import opened Results
  import opened Sums
  import opened Inventory
  import opened StoreState

  // ---------------------------------------------------------------------------
  // Row lookups
  // ---------------------------------------------------------------------------

  /** The cart's row for a variant; (cart, variant) is unique, so the first match is the only one. */
  function FindItem(items: seq<CartItem>, owner: Owner, v: VariantId): (r: Option<nat>)
    ensures r.Some? ==> r.value < |items| && items[r.value].owner == owner && items[r.value].variant == v
    ensures r.None? ==> forall i :: i in items ==> i.owner != owner || i.variant != v
  {
    if items == [] then None
    else if items[0].owner == owner && items[0].variant == v then Some(0)
    else match FindItem(items[1..], owner, v)
      case None => None
      case Some(k) => Some(k + 1)
  }

  function FindId(items: seq<CartItem>, id: nat): (r: Option<nat>)
    ensures r.Some? ==> r.value < |items| && items[r.value].id == id
    ensures r.None? ==> forall i :: i in items ==> i.id != id
  {
    if items == [] then None
    else if items[0].id == id then Some(0)
    else match FindId(items[1..], id)
      case None => None
      case Some(k) => Some(k + 1)
  }

  function OwnedBy(owner: Owner): CartItem -> bool {
    (i: CartItem) => i.owner == owner
  }

  function NotOwnedBy(owner: Owner): CartItem -> bool {
    (i: CartItem) => i.owner != owner
  }

  // ---------------------------------------------------------------------------
  // Specifications
  // ---------------------------------------------------------------------------

  function Expiry(s: Store): int {
    s.now + RESERVATION_MINUTES
  }

  /** The row with a new quantity and its reservation renewed at that quantity. */
  function Requantified(i: CartItem, q: nat, expiry: int): CartItem {
    i.(quantity := q, hold := Some(Hold(q, expiry)))
  }

  /** Give back the row's hold, when it has one. */
  function AfterReleaseHold(ls: Levels, i: CartItem): Result<Levels> {
    if i.hold.None? then Ok(ls) else AfterRelease(ls, i.variant, i.hold.value.quantity)
  }

  function AfterAdd(s: Store, owner: Owner, v: VariantId, active: bool, q: int): Result<Store> {
    if q <= 0 then Err(NonPositiveQuantity)
    else if !active then Err(NotFound)
    else
      var ls :- AfterReserve(s.levels, v, q);
      var t := s.(levels := ls, carts := s.carts + {owner});
      match FindItem(s.items, owner, v)
      case None =>
        var row := CartItem(s.nextId, owner, v, q, Some(Hold(q, Expiry(s))));
        Ok(t.(items := s.items + [row], nextId := s.nextId + 1))
      case Some(k) =>
        Ok(t.(items := s.items[k := Requantified(s.items[k], s.items[k].quantity + q, Expiry(s))]))
  }

  function AfterResize(ls: Levels, v: VariantId, delta: int): Result<Levels> {
    if delta > 0 then AfterReserve(ls, v, delta)
    else if delta < 0 then AfterRelease(ls, v, -delta)
    else Ok(ls)
  }

  function AfterUpdate(s: Store, owner: Owner, id: nat, q: int): Result<Store> {
    if q <= 0 then Err(NonPositiveQuantity)
    else match FindId(s.items, id)
      case None => Err(NotFound)
      case Some(k) =>
        if s.items[k].owner != owner then Err(NotFound)
        else
          var ls :- AfterResize(s.levels, s.items[k].variant, q - s.items[k].quantity);
          Ok(s.(levels := ls, items := s.items[k := Requantified(s.items[k], q, Expiry(s))]))
  }

  /** Release the row's hold and delete the row. */
  function AfterDrop(s: Store, k: nat): Result<Store>
    requires k < |s.items|
  {
    var ls :- AfterReleaseHold(s.levels, s.items[k]);
    Ok(s.(levels := ls, items := RemoveAt(s.items, k)))
  }

  function AfterRemove(s: Store, owner: Owner, id: nat): Result<Store> {
    match FindId(s.items, id)
    case None => Err(NotFound)
    case Some(k) => if s.items[k].owner != owner then Err(NotFound) else AfterDrop(s, k)
  }

  function AfterReleaseAll(ls: Levels, items: seq<CartItem>): Result<Levels> {
    if items == [] then Ok(ls)
    else
      var ls1 :- AfterReleaseHold(ls, items[0]);
      AfterReleaseAll(ls1, items[1..])
  }

  function AfterClear(s: Store, owner: Owner): Result<Store> {
    var ls :- AfterReleaseAll(s.levels, Filter(s.items, OwnedBy(owner)));
    Ok(s.(levels := ls, items := Filter(s.items, NotOwnedBy(owner))))
  }

  /** One guest row: summed into the user's row for the variant, else moved to the user's cart. */
  function MergeOne(items: seq<CartItem>, id: nat, user: Owner, expiry: int): seq<CartItem> {
    match FindId(items, id)
    case None => items
    case Some(g) =>
      match FindItem(items, user, items[g].variant)
      case Some(e) =>
        RemoveAt(items[e := Requantified(items[e], items[e].quantity + items[g].quantity, expiry)], g)
      case None =>
        var hold := if items[g].hold.None? then None else Some(items[g].hold.value.(expiresAt := expiry));
        items[g := items[g].(owner := user, hold := hold)]
  }

  function MergeAll(items: seq<CartItem>, ids: seq<nat>, user: Owner, expiry: int): seq<CartItem>
    decreases |ids|
  {
    if ids == [] then items else MergeAll(MergeOne(items, ids[0], user, expiry), ids[1..], user, expiry)
  }

  function Ids(items: seq<CartItem>): (ids: seq<nat>)
    ensures |ids| == |items| && forall k :: 0 <= k < |items| ==> ids[k] == items[k].id
  {
    seq(|items|, k requires 0 <= k < |items| => items[k].id)
  }

  /** Deleting the emptied guest cart cascades to any row still in it. */
  function AfterMerge(s: Store, key: nat, user: nat): Store {
    var (guest, target) := (Session(key), User(user));
    if guest !in s.carts then s
    else
      var items := MergeAll(s.items, Ids(Filter(s.items, OwnedBy(guest))), target, Expiry(s));
      s.(items := Filter(items, NotOwnedBy(guest)), carts := s.carts + {target} - {guest})
  }

  predicate Expired(i: CartItem, now: int) {
    i.hold.Some? && i.hold.value.expiresAt < now
  }

  /** One item of the expiry sweep: re-read under the lock, release only if still expired. */
  function AfterSweepItem(s: Store, id: nat): Result<Store> {
    match FindId(s.items, id)
    case None => Err(NotFound)
    case Some(k) => if Expired(s.items[k], s.now) then AfterDrop(s, k) else Ok(s)
  }

  function ExpiredAt(now: int): CartItem -> bool {
    (i: CartItem) => Expired(i, now)
  }

  /** The sweep's snapshot: the cart items whose reservation has lapsed. */
  function ExpiredIds(s: Store): seq<nat> {
    Ids(Filter(s.items, ExpiredAt(s.now)))
  }

  /** The sweep over a snapshot of ids, and how many reservations it released. */
  function AfterSweep(s: Store, ids: seq<nat>): (Store, nat)
    decreases |ids|
  {
    if ids == [] then (s, 0)
    else
      var k := FindId(s.items, ids[0]);
      var expired := k.Some? && Expired(s.items[k.value], s.now);
      match AfterSweepItem(s, ids[0])
      case Err(_) => AfterSweep(s, ids[1..])
      case Ok(t) =>
        var (u, n) := AfterSweep(t, ids[1..]);
        (u, if expired then n + 1 else n)
  }

  /** The row's live hold goes to an order of `q` units: keep what the order needs, free the rest. */
  function AfterHandOver(s: Store, k: nat, q: int): Result<(Store, bool)>
    requires k < |s.items| && s.items[k].hold.Some?
  {
    var (v, held) := (s.items[k].variant, s.items[k].hold.value.quantity);
    var t := s.(items := RemoveAt(s.items, k));
    if held < q then
      var ls :- AfterRelease(s.levels, v, held);
      Ok((t.(levels := ls), false))
    else if held > q then
      var ls :- AfterRelease(s.levels, v, held - q);
      Ok((t.(levels := ls), true))
    else Ok((t, true))
  }

  /**
   `_consume_cart_reservation`: true when the units the order needs are now already reserved.
   A row without a live hold is left in the cart.
   */
  function AfterConsume(s: Store, buyer: nat, v: VariantId, q: int): Result<(Store, bool)> {
    match FindItem(s.items, User(buyer), v)
    case None => Ok((s, false))
    case Some(k) =>
      var i := s.items[k];
      if i.hold.None? || i.hold.value.expiresAt <= s.now then Ok((s, false)) else AfterHandOver(s, k, q)
  }

  // ---------------------------------------------------------------------------
  // Editing the cart table
  // ---------------------------------------------------------------------------

  lemma AppendItem(items: seq<CartItem>, carts: set<Owner>, nextId: nat, x: CartItem)
    requires ItemsOk(items, carts, nextId)
    requires ItemOk(x, carts, nextId + 1) && x.id == nextId
    requires forall i :: i in items ==> i.owner != x.owner || i.variant != x.variant
    ensures ItemsOk(items + [x], carts, nextId + 1)
  {
    var r := items + [x];
    forall i | i in r ensures ItemOk(i, carts, nextId + 1) {
      assert i in items ==> ItemOk(i, carts, nextId);
    }
    forall j, k | 0 <= j < k < |r| ensures Apart(r[j], r[k]) {
      assert r[j] in items && ItemOk(r[j], carts, nextId);
    }
  }

  lemma ReplaceItem(items: seq<CartItem>, carts: set<Owner>, nextId: nat, k: nat, x: CartItem)
    requires ItemsOk(items, carts, nextId) && k < |items|
    requires ItemOk(x, carts, nextId) && x.id == items[k].id
    requires forall j :: 0 <= j < |items| && j != k ==> items[j].owner != x.owner || items[j].variant != x.variant
    ensures ItemsOk(items[k := x], carts, nextId)
  {
    var r := items[k := x];
    forall i, j | 0 <= i < j < |items| ensures Apart(r[i], r[j]) {
      assert Apart(items[i], items[j]);
    }
  }

  /** Changing quantity and hold only. */
  lemma RequantifyItem(items: seq<CartItem>, carts: set<Owner>, nextId: nat, k: nat, q: nat, expiry: int)
    requires ItemsOk(items, carts, nextId) && k < |items| && q > 0
    ensures ItemsOk(items[k := Requantified(items[k], q, expiry)], carts, nextId)
  {
    assert ItemOk(items[k], carts, nextId);
    forall j | 0 <= j < |items| && j != k
      ensures items[j].owner != items[k].owner || items[j].variant != items[k].variant
    {
      assert if j < k then Apart(items[j], items[k]) else Apart(items[k], items[j]);
    }
    ReplaceItem(items, carts, nextId, k, Requantified(items[k], q, expiry));
  }

  lemma RemoveItem(items: seq<CartItem>, carts: set<Owner>, nextId: nat, k: nat)
    requires ItemsOk(items, carts, nextId) && k < |items|
    ensures ItemsOk(RemoveAt(items, k), carts, nextId)
  {
  }

  lemma MoreCarts(items: seq<CartItem>, carts: set<Owner>, more: set<Owner>, nextId: nat)
    requires ItemsOk(items, carts, nextId) && carts <= more
    ensures ItemsOk(items, more, nextId)
  {
    assert forall i :: i in items ==> ItemOk(i, carts, nextId);
  }
}
