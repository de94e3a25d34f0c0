/**
 Stock levels and the movement log (apps/inventory). Each `After...` function is the committed effect
 of one service call on the table of levels; class `Inventory` performs the calls in place.
 */
module Inventory {
  import opened Results
  import opened Sums

  type VariantId = nat

  datatype MovementType = INBOUND | OUTBOUND | ADJUSTMENT | RETURN | RESERVED | UNRESERVED

  datatype Movement = Movement(kind: MovementType, quantity: int, quantityAfter: int)

  datatype Level = Level(variant: VariantId, available: nat, reserved: nat, log: seq<Movement>) {
    function OnHand(): nat {
      available + reserved
    }
  }

  type Levels = map<VariantId, Level>

  /** get_or_create: a variant without a row starts at zero. */
  function LevelOf(ls: Levels, v: VariantId): Level {
    if v in ls then ls[v] else Level(v, 0, 0, [])
  }

  /** Write the row back and append the movement that explains it. */
  function Record(ls: Levels, v: VariantId, available: nat, reserved: nat, kind: MovementType, quantity: int): Levels {
    var l := LevelOf(ls, v);
    var m := Movement(kind, quantity, available);
    ls[v := l.(available := available, reserved := reserved, log := l.log + [m])]
  }

  function AfterReceive(ls: Levels, v: VariantId, q: int): Result<Levels> {
    var l := LevelOf(ls, v);
    if q <= 0 then Err(NonPositiveQuantity)
    else Ok(Record(ls, v, l.available + q, l.reserved, INBOUND, q))
  }

  function AfterAdjust(ls: Levels, v: VariantId, delta: int): Result<Levels> {
    var l := LevelOf(ls, v);
    if delta == 0 then Err(ZeroDelta)
    else if l.available + delta < 0 then Err(NegativeStock)
    else Ok(Record(ls, v, l.available + delta, l.reserved, ADJUSTMENT, delta))
  }

  function AfterReserve(ls: Levels, v: VariantId, q: int): Result<Levels> {
    var l := LevelOf(ls, v);
    if q <= 0 then Err(NonPositiveQuantity)
    else if l.available < q then Err(InsufficientStock)
    else Ok(Record(ls, v, l.available - q, l.reserved + q, RESERVED, -q))
  }

  function AfterRelease(ls: Levels, v: VariantId, q: int): Result<Levels> {
    var l := LevelOf(ls, v);
    if q <= 0 then Err(NonPositiveQuantity)
    else if l.reserved < q then Err(OnlyReserved)
    else Ok(Record(ls, v, l.available + q, l.reserved - q, UNRESERVED, q))
  }

  function AfterDispatch(ls: Levels, v: VariantId, q: int): Result<Levels> {
    var l := LevelOf(ls, v);
    if q <= 0 then Err(NonPositiveQuantity)
    else if l.reserved < q then Err(OnlyReserved)
    else Ok(Record(ls, v, l.available, l.reserved - q, OUTBOUND, -q))
  }

  function AfterReturn(ls: Levels, v: VariantId, q: int): Result<Levels> {
    var l := LevelOf(ls, v);
    if q <= 0 then Err(NonPositiveQuantity)
    else Ok(Record(ls, v, l.available + q, l.reserved, RETURN, q))
  }

  // ---------------------------------------------------------------------------
  // Replaying the log
  // ---------------------------------------------------------------------------

  /** What a row says about available stock: every movement except an outbound dispatch. */
  function AvailableEffect(m: Movement): int {
    if m.kind == OUTBOUND then 0 else m.quantity
  }

  /** What a row says about stock on hand: everything except moves between available and reserved. */
  function OnHandEffect(m: Movement): int {
    if m.kind == RESERVED || m.kind == UNRESERVED then 0 else m.quantity
  }

  /** Each entry carries the available balance as it was right after that movement. */
  ghost predicate Running(log: seq<Movement>) {
    log == [] ||
    var n := |log| - 1;
    log[n].quantityAfter == SumBy(log, AvailableEffect) && Running(log[..n])
  }

  /** The log alone reconstructs the row. */
  ghost predicate Explained(l: Level) {
    && l.available == SumBy(l.log, AvailableEffect)
    && l.OnHand() == SumBy(l.log, OnHandEffect)
    && Running(l.log)
  }

  ghost predicate AllExplained(ls: Levels) {
    forall v :: v in ls ==> Explained(ls[v])
  }

  /** Appending a row that states its own effect and balance keeps a level explained. */
  lemma AppendExplained(l: Level, m: Movement, available: nat, reserved: nat)
    requires Explained(l)
    requires m.quantityAfter == available == l.available + AvailableEffect(m)
    requires available + reserved == l.OnHand() + OnHandEffect(m)
    ensures Explained(l.(available := available, reserved := reserved, log := l.log + [m]))
  {
    SumBySnoc(l.log, m, AvailableEffect);
    SumBySnoc(l.log, m, OnHandEffect);
    assert (l.log + [m])[..|l.log|] == l.log;
  }

  lemma {:induction false} RunningAt(log: seq<Movement>, k: nat)
    requires Running(log) && k < |log|
    ensures log[k].quantityAfter == SumBy(log[..k + 1], AvailableEffect)
  {
    if k == |log| - 1 {
      assert log[..k + 1] == log;
    } else {
      RunningAt(log[..|log| - 1], k);
      assert log[..|log| - 1][..k + 1] == log[..k + 1];
    }
  }

  /**
   Replay: available is the sum of all but the outbound rows, on hand the sum of the rows that cross
   the warehouse door, reserved their difference, and every row's balance is the running available.
   */
  lemma ReplayReconstructs(ls: Levels, v: VariantId)
    requires AllExplained(ls) && v in ls
    ensures var l := ls[v];
            && l.available == SumBy(l.log, AvailableEffect)
            && l.reserved == SumBy(l.log, OnHandEffect) - SumBy(l.log, AvailableEffect)
            && forall k: nat :: k < |l.log| ==> l.log[k].quantityAfter == SumBy(l.log[..k + 1], AvailableEffect)
  {
    assert Explained(ls[v]);
    forall k: nat | k < |ls[v].log|
      ensures ls[v].log[k].quantityAfter == SumBy(ls[v].log[..k + 1], AvailableEffect)
    {
      RunningAt(ls[v].log, k);
    }
  }

  lemma RecordExplained(ls: Levels, v: VariantId, available: nat, reserved: nat, kind: MovementType, q: int,
                        ls': Levels)
    requires AllExplained(ls) && ls' == Record(ls, v, available, reserved, kind, q)
    requires available == LevelOf(ls, v).available + AvailableEffect(Movement(kind, q, available))
    requires available + reserved == LevelOf(ls, v).OnHand() + OnHandEffect(Movement(kind, q, available))
    ensures AllExplained(ls')
  {
    AppendExplained(LevelOf(ls, v), Movement(kind, q, available), available, reserved);
  }

  datatype StockCall =
    | Receive(v: VariantId, q: int)
    | Adjust(v: VariantId, q: int)
    | Reserve(v: VariantId, q: int)
    | Release(v: VariantId, q: int)
    | Dispatch(v: VariantId, q: int)
    | Return(v: VariantId, q: int)

  function AfterCall(ls: Levels, c: StockCall): Result<Levels> {
    match c
    case Receive(v, q) => AfterReceive(ls, v, q)
    case Adjust(v, q) => AfterAdjust(ls, v, q)
    case Reserve(v, q) => AfterReserve(ls, v, q)
    case Release(v, q) => AfterRelease(ls, v, q)
    case Dispatch(v, q) => AfterDispatch(ls, v, q)
    case Return(v, q) => AfterReturn(ls, v, q)
  }

  /** What a committed call adds to available stock, and to stock on hand. */
  function AvailableGain(c: StockCall): int {
    match c
    case Reserve(_, q) => -q
    case Dispatch(_, _) => 0
    case _ => c.q
  }

  function OnHandGain(c: StockCall): int {
    match c
    case Reserve(_, _) => 0
    case Release(_, _) => 0
    case Dispatch(_, q) => -q
    case _ => c.q
  }

  /** Units are positive, except that a correction only has to change something. */
  predicate Sensible(c: StockCall) {
    if c.Adjust? then c.q != 0 else c.q > 0
  }

  function KindOf(c: StockCall): MovementType {
    match c
    case Receive(_, _) => INBOUND
    case Adjust(_, _) => ADJUSTMENT
    case Reserve(_, _) => RESERVED
    case Release(_, _) => UNRESERVED
    case Dispatch(_, _) => OUTBOUND
    case Return(_, _) => RETURN
  }

  /** A call commits exactly when it is sensible and leaves neither available nor reserved stock below zero. */
  lemma CallSucceedsIff(ls: Levels, c: StockCall)
    ensures var (l, reservedGain) := (LevelOf(ls, c.v), OnHandGain(c) - AvailableGain(c));
            AfterCall(ls, c).Ok? <==>
              Sensible(c) && l.available + AvailableGain(c) >= 0 && l.reserved + reservedGain >= 0
  {
  }

  /** And then moves its own variant by its gains, writes one row about it, and leaves every other variant alone. */
  lemma CallMoves(ls: Levels, c: StockCall, ls': Levels)
    requires AfterCall(ls, c) == Ok(ls')
    ensures var (l, m) := (LevelOf(ls, c.v), LevelOf(ls', c.v));
            && m.available == l.available + AvailableGain(c)
            && m.OnHand() == l.OnHand() + OnHandGain(c)
            && |m.log| == |l.log| + 1 && m.log[..|l.log|] == l.log && m.log[|l.log|].kind == KindOf(c)
    ensures forall w: VariantId :: w != c.v ==> LevelOf(ls', w) == LevelOf(ls, w)
  {
  }

  lemma ReceiveExplained(ls: Levels, v: VariantId, q: int, ls': Levels)
    requires AllExplained(ls) && AfterReceive(ls, v, q) == Ok(ls')
    ensures AllExplained(ls')
  {
    var l := LevelOf(ls, v);
    RecordExplained(ls, v, l.available + q, l.reserved, INBOUND, q, ls');
  }

  lemma AdjustExplained(ls: Levels, v: VariantId, q: int, ls': Levels)
    requires AllExplained(ls) && AfterAdjust(ls, v, q) == Ok(ls')
    ensures AllExplained(ls')
  {
    var l := LevelOf(ls, v);
    RecordExplained(ls, v, l.available + q, l.reserved, ADJUSTMENT, q, ls');
  }

  lemma ReserveExplained(ls: Levels, v: VariantId, q: int, ls': Levels)
    requires AllExplained(ls) && AfterReserve(ls, v, q) == Ok(ls')
    ensures AllExplained(ls')
  {
    var l := LevelOf(ls, v);
    RecordExplained(ls, v, l.available - q, l.reserved + q, RESERVED, -q, ls');
  }

  lemma ReleaseExplained(ls: Levels, v: VariantId, q: int, ls': Levels)
    requires AllExplained(ls) && AfterRelease(ls, v, q) == Ok(ls')
    ensures AllExplained(ls')
  {
    var l := LevelOf(ls, v);
    RecordExplained(ls, v, l.available + q, l.reserved - q, UNRESERVED, q, ls');
  }

  lemma DispatchExplained(ls: Levels, v: VariantId, q: int, ls': Levels)
    requires AllExplained(ls) && AfterDispatch(ls, v, q) == Ok(ls')
    ensures AllExplained(ls')
  {
    var l := LevelOf(ls, v);
    RecordExplained(ls, v, l.available, l.reserved - q, OUTBOUND, -q, ls');
  }

  lemma ReturnExplained(ls: Levels, v: VariantId, q: int, ls': Levels)
    requires AllExplained(ls) && AfterReturn(ls, v, q) == Ok(ls')
    ensures AllExplained(ls')
  {
    var l := LevelOf(ls, v);
    RecordExplained(ls, v, l.available + q, l.reserved, RETURN, q, ls');
  }

  /** Whatever call commits, the log still explains every row. */
  lemma CallKeepsExplained(ls: Levels, c: StockCall, ls': Levels)
    requires AllExplained(ls) && AfterCall(ls, c) == Ok(ls')
    ensures AllExplained(ls')
  {
    match c
    case Receive(v, q) => ReceiveExplained(ls, v, q, ls');
    case Adjust(v, q) => AdjustExplained(ls, v, q, ls');
    case Reserve(v, q) => ReserveExplained(ls, v, q, ls');
    case Release(v, q) => ReleaseExplained(ls, v, q, ls');
    case Dispatch(v, q) => DispatchExplained(ls, v, q, ls');
    case Return(v, q) => ReturnExplained(ls, v, q, ls');
  }

  // ---------------------------------------------------------------------------
  // The service
  // ---------------------------------------------------------------------------

  /** A call commits what its specification says, or raises and leaves the table alone. */
  ghost predicate Performed(spec: Result<Levels>, before: Levels, after: Levels, outcome: Result<()>) {
    match spec
    case Ok(ls) => after == ls && outcome == Ok(())
    case Err(e) => after == before && outcome == Err(e)
  }

  class Inventory {
    var levels: Levels

    constructor ()
      ensures levels == map[]
    {
      levels := map[];
    }

    method ReceiveStock(v: VariantId, q: int) returns (r: Result<()>)
      modifies this
      ensures Performed(AfterReceive(old(levels), v, q), old(levels), levels, r)
    {
      if q <= 0 {
        return Err(NonPositiveQuantity);
      }
      var level := LevelOf(levels, v);
      level := level.(available := level.available + q);
      level := level.(log := level.log + [Movement(INBOUND, q, level.available)]);
      levels := levels[v := level];
      return Ok(());
    }

    method AdjustStock(v: VariantId, delta: int) returns (r: Result<()>)
      modifies this
      ensures Performed(AfterAdjust(old(levels), v, delta), old(levels), levels, r)
    {
      if delta == 0 {
        return Err(ZeroDelta);
      }
      var level := LevelOf(levels, v);
      var newAvailable := level.available + delta;
      if newAvailable < 0 {
        return Err(NegativeStock);
      }
      level := level.(available := newAvailable);
      level := level.(log := level.log + [Movement(ADJUSTMENT, delta, level.available)]);
      levels := levels[v := level];
      return Ok(());
    }

    method ReserveStock(v: VariantId, q: int) returns (r: Result<()>)
      modifies this
      ensures Performed(AfterReserve(old(levels), v, q), old(levels), levels, r)
    {
      if q <= 0 {
        return Err(NonPositiveQuantity);
      }
      var level := LevelOf(levels, v);
      if level.available < q {
        return Err(InsufficientStock);
      }
      level := level.(available := level.available - q);
      level := level.(reserved := level.reserved + q);
      level := level.(log := level.log + [Movement(RESERVED, -q, level.available)]);
      levels := levels[v := level];
      return Ok(());
    }

    method ReleaseReservation(v: VariantId, q: int) returns (r: Result<()>)
      modifies this
      ensures Performed(AfterRelease(old(levels), v, q), old(levels), levels, r)
    {
      if q <= 0 {
        return Err(NonPositiveQuantity);
      }
      var level := LevelOf(levels, v);
      if level.reserved < q {
        return Err(OnlyReserved);
      }
      level := level.(reserved := level.reserved - q);
      level := level.(available := level.available + q);
      level := level.(log := level.log + [Movement(UNRESERVED, q, level.available)]);
      levels := levels[v := level];
      return Ok(());
    }

    method DispatchStock(v: VariantId, q: int) returns (r: Result<()>)
      modifies this
      ensures Performed(AfterDispatch(old(levels), v, q), old(levels), levels, r)
    {
      if q <= 0 {
        return Err(NonPositiveQuantity);
      }
      var level := LevelOf(levels, v);
      if level.reserved < q {
        return Err(OnlyReserved);
      }
      level := level.(reserved := level.reserved - q);
      level := level.(log := level.log + [Movement(OUTBOUND, -q, level.available)]);
      levels := levels[v := level];
      return Ok(());
    }

    method ReturnStock(v: VariantId, q: int) returns (r: Result<()>)
      modifies this
      ensures Performed(AfterReturn(old(levels), v, q), old(levels), levels, r)
    {
      if q <= 0 {
        return Err(NonPositiveQuantity);
      }
      var level := LevelOf(levels, v);
      level := level.(available := level.available + q);
      level := level.(log := level.log + [Movement(RETURN, q, level.available)]);
      levels := levels[v := level];
      return Ok(());
    }
  }
}
