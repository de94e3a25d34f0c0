/**
 Refunding a return (`process_return_refund` in apps/orders/services.py) over the payment's refund ledger: many callers
 claim, call `initiate_refund`, reverse the payout, and finish; each may crash or fail between its transactions, and
 every other user of the ledger carries on. The ledger is asked with the default key, so for one payment a refund is
 named by its amount in pence.
 */
module ReturnRefund {
  import opened Results
  import opened Sums
  import opened Inventory
  import opened ReturnStates
  import L = RefundLedger
  import StoreState

  type Line = StoreState.Line

  /** `due` is what `_return_refund_amount` computes from the return's fixed snapshot. */
  datatype OrderReturn = OrderReturn(
    status: ReturnStatus,
    amount: Option<int>,
    due: int,
    items: seq<Line>,
    subItems: seq<Line>)

  datatype Pc =
    | Claimed(amount: int, mine: bool)
    | Asking(amount: int, mine: bool)
    | BuyerRefunded(amount: int)
    | PayoutReversed(amount: int)
    | Failed(mine: bool)
    | Succeeded
    | Raised
    | AssertionFailed

  /** A stock call as the movement table keeps it; `own` when its note names this return. */
  datatype Entry = Entry(call: StockCall, own: bool)

  /**
   `paid` holds the amounts the provider has refunded for this return's callers; `journal` the stock calls committed
   since the return was raised, by anyone.
   */
  datatype System = System(
    ret: OrderReturn,
    hasPayment: bool,
    ledger: L.Ledger,
    paid: set<int>,
    stock: Levels,
    journal: seq<Entry>,
    callers: map<nat, Pc>)

  predicate Ended(pc: Pc) {
    pc.Succeeded? || pc.Raised? || pc.AssertionFailed?
  }

  // ---------------------------------------------------------------------------
  // Phases
  // ---------------------------------------------------------------------------

  /** Phase 1: claim an approved return at an amount, or join a claim at its stored amount. */
  function AfterBegin(ret: OrderReturn, hasPayment: bool, given: Option<int>): (OrderReturn, Pc) {
    if ret.status == REFUNDED then (ret, Succeeded)
    else if ret.status != APPROVED && ret.status != REFUNDING then (ret, Raised)
    else if !hasPayment then (ret, Raised)
    else if ret.status == APPROVED then
      var amount := if given.Some? then given.value else ret.due;
      (ret.(amount := Some(amount), status := REFUNDING), Claimed(amount, true))
    else if ret.amount.None? then (ret, AssertionFailed)
    else (ret, Claimed(ret.amount.value, false))
  }

  /** After a failed refund only the caller that claimed lets go, and only while the claim stands. */
  function AfterFailure(ret: OrderReturn, mine: bool): OrderReturn {
    if mine && ret.status == REFUNDING then ret.(status := APPROVED) else ret
  }

  /** The units to put back: the returned items, or the whole sub-order when none are listed. */
  function UnitsBack(ret: OrderReturn): seq<Line> {
    if ret.items != [] then ret.items else ret.subItems
  }

  function Restocked(stock: Levels, lines: seq<Line>): Result<Levels>
    decreases |lines|
  {
    if lines == [] then Ok(stock)
    else
      var next :- AfterReturn(stock, lines[0].variant, lines[0].quantity);
      Restocked(next, lines[1..])
  }

  /** Phase 3: restock and finish, unless someone already has. */
  function AfterFinish(ret: OrderReturn, stock: Levels): Result<(OrderReturn, Levels)> {
    if ret.status == REFUNDED then Ok((ret, stock))
    else
      var back :- Restocked(stock, UnitsBack(ret));
      Ok((ret.(status := REFUNDED), back))
  }

  function ReturnEntries(lines: seq<Line>): (r: seq<Entry>)
    ensures |r| == |lines|
  {
    seq(|lines|, k requires 0 <= k < |lines| => Entry(Return(lines[k].variant, lines[k].quantity), true))
  }

  // ---------------------------------------------------------------------------
  // Steps and runs
  // ---------------------------------------------------------------------------

  datatype Step =
    | Approve
    | Reject
    | Begin(c: nat, given: Option<int>)
    | Ask(c: nat)
    | Answered(c: nat)
    | Refused(c: nat)
    | LetGo(c: nat)
    | ReverseOk(c: nat)
    | ReverseError(c: nat)
    | Finish(c: nat)
    | Crash(c: nat)
    | Ledger(step: L.Step)
    | Other(call: StockCall)

  predicate Busy(s: System, c: nat) {
    c in s.callers && !Ended(s.callers[c])
  }

  predicate BusyInLedger(s: System, c: nat) {
    c in s.ledger.callers && L.Live(s.ledger.callers[c])
  }

  /** Caller `c` of this return is inside `initiate_refund`. */
  predicate InCall(s: System, c: nat) {
    c in s.callers && s.callers[c].Asking? && c in s.ledger.callers
  }

  /**
   The ledger moves on its own, except that this return's callers are its own; keys given explicitly never look like
   default ones. A call may also end by raising where it stands, as an unexpected error does.
   */
  predicate LedgerMay(s: System, step: L.Step) {
    step.Claim? ==> !Busy(s, step.c) && (step.key.Some? ==> step.key.value.Named?)
  }

  predicate Enabled(s: System, step: Step) {
    match step
    case Approve => s.ret.status == REQUESTED
    case Reject => s.ret.status == REQUESTED
    case Begin(c, _) => !Busy(s, c) && !BusyInLedger(s, c)
    case Ask(c) => c in s.callers && s.callers[c].Claimed? && !BusyInLedger(s, c)
    case Answered(c) => InCall(s, c) && s.ledger.callers[c].Returned?
    case Refused(c) => InCall(s, c) && s.ledger.callers[c].Raised?
    case LetGo(c) => c in s.callers && s.callers[c].Failed?
    case ReverseOk(c) => c in s.callers && s.callers[c].BuyerRefunded?
    case ReverseError(c) => c in s.callers && s.callers[c].BuyerRefunded?
    case Finish(c) => c in s.callers && s.callers[c].PayoutReversed?
    case Crash(c) => Busy(s, c)
    case Ledger(ls) => L.Enabled(s.ledger, ls) && LedgerMay(s, ls)
    case Other(_) => true
  }

  /** What the provider refunds for this return in a step of the ledger. */
  function Newly(s: System, step: L.Step): set<int> {
    if (step.Execute? || step.ExecuteUnheard?) && InCall(s, step.c) then {s.callers[step.c].amount} else {}
  }

  function WithCaller(s: System, c: nat, pc: Pc): System {
    s.(callers := s.callers[c := pc])
  }

  function Next(s: System, step: Step): System
    requires Enabled(s, step)
  {
    match step
    case Approve => s.(ret := s.ret.(status := APPROVED))
    case Reject => s.(ret := s.ret.(status := REJECTED))
    case Begin(c, given) =>
      var (ret, pc) := AfterBegin(s.ret, s.hasPayment, given);
      WithCaller(s.(ret := ret), c, pc)
    case Ask(c) =>
      var pc := s.callers[c];
      WithCaller(s.(ledger := L.Next(s.ledger, L.Claim(c, Some(pc.amount), None))), c, Asking(pc.amount, pc.mine))
    case Answered(c) =>
      var amount := s.callers[c].amount;
      WithCaller(s.(paid := s.paid + {amount}), c, BuyerRefunded(amount))
    case Refused(c) => WithCaller(s, c, Failed(s.callers[c].mine))
    case LetGo(c) => WithCaller(s.(ret := AfterFailure(s.ret, s.callers[c].mine)), c, Raised)
    case ReverseOk(c) => WithCaller(s, c, PayoutReversed(s.callers[c].amount))
    case ReverseError(c) => WithCaller(s, c, Raised)
    case Finish(c) =>
      var done := AfterFinish(s.ret, s.stock);
      if done.Err? then WithCaller(s, c, Raised)
      else
        var own := if s.ret.status == REFUNDED then [] else ReturnEntries(UnitsBack(s.ret));
        WithCaller(s.(ret := done.value.0, stock := done.value.1, journal := s.journal + own), c, Succeeded)
    case Crash(c) =>
      var ledger := if BusyInLedger(s, c) then L.Next(s.ledger, L.Crash(c)) else s.ledger;
      WithCaller(s.(ledger := ledger), c, Raised)
    case Ledger(ls) => s.(ledger := L.Next(s.ledger, ls), paid := s.paid + Newly(s, ls))
    case Other(call) =>
      var after := AfterCall(s.stock, call);
      if after.Err? then s else s.(stock := after.value, journal := s.journal + [Entry(call, false)])
  }

  // ---------------------------------------------------------------------------
  // As the code runs: the return's row and the stock, one method a transaction
  // ---------------------------------------------------------------------------

  class ReturnService {
    var ret: OrderReturn
    var hasPayment: bool
    const inventory: Inventory

    constructor (ret: OrderReturn, hasPayment: bool, inventory: Inventory)
      ensures this.ret == ret && this.hasPayment == hasPayment && this.inventory == inventory
    {
      this.ret, this.hasPayment, this.inventory := ret, hasPayment, inventory;
    }

    method BeginRefund(given: Option<int>) returns (pc: Pc)
      modifies this`ret
      ensures (ret, pc) == AfterBegin(old(ret), hasPayment, given)
    {
      if ret.status == REFUNDED {
        return Succeeded;
      }
      if ret.status != APPROVED && ret.status != REFUNDING {
        return Raised;
      }
      if !hasPayment {
        return Raised;
      }
      if ret.status == APPROVED {
        var amount := if given.Some? then given.value else ret.due;
        ret := ret.(amount := Some(amount));
        ret := ret.(status := REFUNDING);
        return Claimed(amount, true);
      }
      if ret.amount.None? {
        return AssertionFailed;
      }
      return Claimed(ret.amount.value, false);
    }

    method ReleaseClaim(mine: bool)
      modifies this`ret
      ensures ret == AfterFailure(old(ret), mine)
    {
      if mine {
        if ret.status == REFUNDING {
          ret := ret.(status := APPROVED);
        }
      }
    }

    /** A failing restock rolls the whole transaction back. */
    method FinishRefund() returns (ok: bool)
      modifies this`ret, inventory
      ensures match AfterFinish(old(ret), old(inventory.levels))
              case Ok(done) => ok && ret == done.0 && inventory.levels == done.1
              case Err(_) => !ok && ret == old(ret) && inventory.levels == old(inventory.levels)
    {
      if ret.status == REFUNDED {
        return true;
      }
      var lines := if ret.items != [] then ret.items else ret.subItems;
      var saved := inventory.levels;
      for j := 0 to |lines|
        invariant Restocked(saved, lines) == Restocked(inventory.levels, lines[j..])
        invariant ret == old(ret)
      {
        assert lines[j..][1..] == lines[j + 1..];
        var r := inventory.ReturnStock(lines[j].variant, lines[j].quantity);
        if r.Err? {
          inventory.levels := saved;
          return false;
        }
      }
      ret := ret.(status := REFUNDED);
      return true;
    }
  }
}
