/** What refunding a return keeps in every interleaving, and exactly when its buyer is refunded once. */
module ReturnProofs {
  import opened Results
  import opened Runs
  import opened Sums
  import opened Inventory
  import opened ReturnStates
  import opened ReturnRefund
  import L = RefundLedger
  import LP = RefundProofs

  // ---------------------------------------------------------------------------
  // The ledger underneath
  // ---------------------------------------------------------------------------

  /** No row promises more than the payment, and a default key names its row's amount. */
  ghost predicate Plain(l: L.Ledger) {
    && l.payment.refunded >= 0 && l.payment.pending >= 0
    && forall k :: k in l.requests ==>
         l.requests[k].amount <= l.payment.amount && (k.ByAmount? ==> k.pence == l.requests[k].amount)
  }

  ghost predicate Kept(l: L.Ledger) {
    LP.Consistent(l) && Plain(l)
  }

  predicate NamesKeys(step: L.Step) {
    step.Claim? && step.key.Some? ==> step.key.value.Named?
  }

  lemma ClaimKept(l: L.Ledger, c: nat, amount: Option<int>, key: Option<L.Key>)
    requires Kept(l) && L.Enabled(l, L.Claim(c, amount, key)) && NamesKeys(L.Claim(c, amount, key))
    ensures Plain(L.Next(l, L.Claim(c, amount, key)))
  {
  }

  lemma LedgerKept(l: L.Ledger, step: L.Step)
    requires Kept(l) && L.Enabled(l, step) && NamesKeys(step)
    ensures Kept(L.Next(l, step)) && L.Next(l, step).payment.amount == l.payment.amount
  {
    LP.StepConsistent(l, step);
    match step
    case Claim(c, amount, key) => ClaimKept(l, c, amount, key);
    case _ =>
  }

  /** A claim without a key works under the default one, on a row of that amount. */
  lemma DefaultClaim(l: L.Ledger, amount: int)
    requires Kept(l)
    ensures var pc := L.AfterClaim(l, Some(amount), None).1;
            pc.Raised? || (amount > 0 && pc.key == L.ByAmount(amount) && (pc.Returned? || pc.Claimed?))
  {
  }

  /** A return before anyone has tried to refund it, whatever its payment's ledger has seen. */
  ghost predicate Untouched(s: System) {
    && s.ret.status != REFUNDING && s.ret.status != REFUNDED && s.ret.amount.None?
    && s.paid == {} && s.callers == map[] && s.journal == [] && Kept(s.ledger)
  }

  // ---------------------------------------------------------------------------
  // Every interleaving: restocked once, refunded is final, a claim has its amount
  // ---------------------------------------------------------------------------

  /** The provider holds a refund of this amount under the payment's default key. */
  predicate Refunded(l: L.Ledger, amount: int) {
    amount > 0 && L.ByAmount(amount) in l.provider
  }

  /** A call of `initiate_refund` for `amount` works under the default key of that amount. */
  predicate CallFits(pc: L.Pc, amount: int) {
    match pc
    case Claimed(k, _, _) => amount > 0 && k == L.ByAmount(amount)
    case Errored(k, _, _) => amount > 0 && k == L.ByAmount(amount)
    case Executed(k, _) => amount > 0 && k == L.ByAmount(amount)
    case Returned(k) => amount > 0 && k == L.ByAmount(amount)
    case Raised => true
  }

  predicate PcFits(s: System, c: nat)
    requires c in s.callers
  {
    match s.callers[c]
    case Claimed(_, _) => s.ret.amount.Some?
    case Asking(a, _) => s.ret.amount.Some? && c in s.ledger.callers && CallFits(s.ledger.callers[c], a)
    case BuyerRefunded(a) => s.ret.amount.Some? && a in s.paid
    case PayoutReversed(a) => s.ret.amount.Some? && a in s.paid
    case Succeeded => s.ret.status == REFUNDED
    case AssertionFailed => false
    case _ => true
  }

  function IsOwn(): Entry -> bool {
    (e: Entry) => e.own
  }

  /** The movements that carry this return's note. */
  function Own(journal: seq<Entry>): seq<Entry> {
    Filter(journal, IsOwn())
  }

  function Replay(stock: Levels, journal: seq<Entry>): Result<Levels>
    decreases |journal|
  {
    if journal == [] then Ok(stock)
    else
      var next :- AfterCall(stock, journal[0].call);
      Replay(next, journal[1..])
  }

  lemma {:induction false} ReplayConcat(stock: Levels, a: seq<Entry>, b: seq<Entry>)
    ensures Replay(stock, a).Ok? ==> Replay(stock, a + b) == Replay(Replay(stock, a).value, b)
    decreases |a|
  {
    if a == [] {
      assert a + b == b;
    } else {
      assert (a + b)[1..] == a[1..] + b;
      if AfterCall(stock, a[0].call).Ok? {
        ReplayConcat(AfterCall(stock, a[0].call).value, a[1..], b);
      }
    }
  }

  /** The restock loop makes exactly the return's RETURN movements. */
  lemma {:induction false} ReplayReturns(stock: Levels, lines: seq<Line>)
    ensures Replay(stock, ReturnEntries(lines)) == Restocked(stock, lines)
    decreases |lines|
  {
    if lines != [] {
      assert ReturnEntries(lines)[1..] == ReturnEntries(lines[1..]);
      var next := AfterReturn(stock, lines[0].variant, lines[0].quantity);
      if next.Ok? {
        ReplayReturns(next.value, lines[1..]);
      }
    }
  }

  lemma {:induction false} AllOwn(journal: seq<Entry>)
    requires forall e :: e in journal ==> e.own
    ensures Own(journal) == journal
  {
    if journal != [] {
      AllOwn(journal[1..]);
    }
  }

  /** The return's own movements are its units, once, when it is REFUNDED, and none otherwise. */
  ghost predicate RestockedRight(s: System) {
    Own(s.journal) == if s.ret.status == REFUNDED then ReturnEntries(UnitsBack(s.ret)) else []
  }

  ghost predicate CallersFit(s: System) {
    forall c :: c in s.callers ==> PcFits(s, c)
  }

  /** What this return is said to have been paid, the provider has refunded. */
  ghost predicate PaidIsRefunded(s: System) {
    forall a :: a in s.paid ==> Refunded(s.ledger, a)
  }

  ghost predicate Inv(s: System, before: Levels) {
    && (s.ret.status == REFUNDING || s.ret.status == REFUNDED ==> s.ret.amount.Some?)
    && Replay(before, s.journal) == Ok(s.stock)
    && RestockedRight(s)
    && (s.ret.status == REFUNDED ==> s.paid != {})
    && Kept(s.ledger) && PaidIsRefunded(s) && CallersFit(s)
  }

  lemma OtherInv(s: System, before: Levels, call: StockCall)
    requires Inv(s, before)
    ensures Inv(Next(s, Other(call)), before)
  {
    var t := Next(s, Other(call));
    var e := [Entry(call, false)];
    ReplayConcat(before, s.journal, e);
    FilterConcat(s.journal, e, IsOwn());
    assert Own(e) == [];
    assert e[1..] == [];
    forall c | c in t.callers ensures PcFits(t, c) {
      assert PcFits(s, c);
    }
  }

  /** Restocking a return that has moved nothing yet: its own movements are then its units. */
  lemma RestockJournal(before: Levels, stock: Levels, journal: seq<Entry>, lines: seq<Line>)
    requires Replay(before, journal) == Ok(stock) && Own(journal) == [] && Restocked(stock, lines).Ok?
    ensures Replay(before, journal + ReturnEntries(lines)) == Restocked(stock, lines)
    ensures Own(journal + ReturnEntries(lines)) == ReturnEntries(lines)
  {
    ReplayConcat(before, journal, ReturnEntries(lines));
    ReplayReturns(stock, lines);
    FilterConcat(journal, ReturnEntries(lines), IsOwn());
    AllOwn(ReturnEntries(lines));
  }

  lemma FinishCallersFit(s: System, c: nat)
    requires CallersFit(s) && Enabled(s, Finish(c))
    ensures CallersFit(Next(s, Finish(c)))
    ensures Next(s, Finish(c)).ret.amount == s.ret.amount && Next(s, Finish(c)).paid == s.paid && s.paid != {}
  {
    var t := Next(s, Finish(c));
    assert PcFits(s, c);
    forall d | d in t.callers ensures PcFits(t, d) {
      assert d in s.callers ==> PcFits(s, d);
    }
  }

  lemma FinishInv(s: System, before: Levels, c: nat)
    requires Inv(s, before) && Enabled(s, Finish(c))
    ensures Inv(Next(s, Finish(c)), before)
  {
    FinishCallersFit(s, c);
    assert PcFits(s, c);
    if s.ret.status != REFUNDED && Restocked(s.stock, UnitsBack(s.ret)).Ok? {
      RestockJournal(before, s.stock, s.journal, UnitsBack(s.ret));
    }
    assert s.journal + [] == s.journal;
  }

  /** The provider forgets nothing, and refunds under the caller's key. */
  lemma PaidStaysRefunded(s: System, ls: L.Step)
    requires Kept(s.ledger) && PaidIsRefunded(s) && CallersFit(s) && Enabled(s, Ledger(ls))
    ensures PaidIsRefunded(Next(s, Ledger(ls)))
  {
    var t := Next(s, Ledger(ls));
    forall a | a in t.paid ensures Refunded(t.ledger, a) {
      if a in s.paid {
        assert Refunded(s.ledger, a);
      } else {
        assert PcFits(s, ls.c);
      }
    }
  }

  lemma LedgerCallFits(s: System, ls: L.Step, c: nat)
    requires CallersFit(s) && Enabled(s, Ledger(ls)) && c in s.callers
    ensures PcFits(Next(s, Ledger(ls)), c)
  {
    assert PcFits(s, c);
  }

  lemma LedgerInv(s: System, before: Levels, ls: L.Step)
    requires Inv(s, before) && Enabled(s, Ledger(ls))
    ensures Inv(Next(s, Ledger(ls)), before)
  {
    LedgerKept(s.ledger, ls);
    PaidStaysRefunded(s, ls);
    forall c | c in s.callers ensures PcFits(Next(s, Ledger(ls)), c) {
      LedgerCallFits(s, ls, c);
    }
  }

  lemma AskCallersFit(s: System, c: nat)
    requires CallersFit(s) && Kept(s.ledger) && Enabled(s, Ask(c))
    ensures CallersFit(Next(s, Ask(c)))
  {
    var t := Next(s, Ask(c));
    DefaultClaim(s.ledger, s.callers[c].amount);
    assert PcFits(s, c);
    forall d | d in t.callers ensures PcFits(t, d) {
      assert PcFits(s, d);
    }
  }

  lemma AskInv(s: System, before: Levels, c: nat)
    requires Inv(s, before) && Enabled(s, Ask(c))
    ensures Inv(Next(s, Ask(c)), before)
  {
    var amount := s.callers[c].amount;
    LedgerKept(s.ledger, L.Claim(c, Some(amount), None));
    var t := Next(s, Ask(c));
    forall a | a in t.paid ensures Refunded(t.ledger, a) {
      assert Refunded(s.ledger, a);
    }
    AskCallersFit(s, c);
  }

  lemma AnsweredInv(s: System, before: Levels, c: nat)
    requires Inv(s, before) && Enabled(s, Answered(c))
    ensures Inv(Next(s, Answered(c)), before)
  {
    assert PcFits(s, c) && LP.PcOk(s.ledger, s.ledger.callers[c]);
    var t := Next(s, Answered(c));
    forall d | d in t.callers ensures PcFits(t, d) {
      assert PcFits(s, d);
    }
    forall a | a in t.paid ensures Refunded(t.ledger, a) {
      assert a in s.paid ==> Refunded(s.ledger, a);
    }
  }

  lemma CrashInv(s: System, before: Levels, c: nat)
    requires Inv(s, before) && Enabled(s, Crash(c))
    ensures Inv(Next(s, Crash(c)), before)
  {
    if BusyInLedger(s, c) {
      LedgerKept(s.ledger, L.Crash(c));
    }
    var t := Next(s, Crash(c));
    forall a | a in t.paid ensures Refunded(t.ledger, a) {
      assert Refunded(s.ledger, a);
    }
    forall d | d in t.callers ensures PcFits(t, d) {
      assert PcFits(s, d);
    }
  }

  lemma CallCallersFit(s: System, step: Step)
    requires CallersFit(s) && Enabled(s, step) && (s.ret.status == REFUNDING ==> s.ret.amount.Some?)
    requires
      || step.Approve? || step.Reject? || step.Begin? || step.Refused? || step.LetGo?
      || step.ReverseOk? || step.ReverseError?
    ensures CallersFit(Next(s, step))
  {
    var t := Next(s, step);
    forall c | c in t.callers ensures PcFits(t, c) {
      assert c in s.callers ==> PcFits(s, c);
    }
  }

  lemma CallInv(s: System, before: Levels, step: Step)
    requires Inv(s, before) && Enabled(s, step)
    requires
      || step.Approve? || step.Reject? || step.Begin? || step.Refused? || step.LetGo?
      || step.ReverseOk? || step.ReverseError?
    ensures Inv(Next(s, step), before)
  {
    CallCallersFit(s, step);
  }

  lemma StepInv(s: System, before: Levels, step: Step)
    requires Inv(s, before) && Enabled(s, step)
    ensures Inv(Next(s, step), before) && UnitsBack(Next(s, step).ret) == UnitsBack(s.ret)
  {
    match step
    case Other(call) => OtherInv(s, before, call);
    case Finish(c) => FinishInv(s, before, c);
    case Ledger(ls) => LedgerInv(s, before, ls);
    case Ask(c) => AskInv(s, before, c);
    case Answered(c) => AnsweredInv(s, before, c);
    case Crash(c) => CrashInv(s, before, c);
    case _ => CallInv(s, before, step);
  }

  lemma {:induction false} RunInv(s: System, before: Levels, steps: seq<Step>, ok: (System, Step) -> bool)
    requires Inv(s, before) && IsRun(Next, s, steps, ok)
    ensures Inv(Run(Next, s, steps, ok), before) && UnitsBack(Run(Next, s, steps, ok).ret) == UnitsBack(s.ret)
    decreases |steps|
  {
    if steps != [] {
      StepInv(s, before, steps[0]);
      RunInv(Next(s, steps[0]), before, steps[1..], ok);
    }
  }

  function UnitsOf(lines: seq<Line>, v: VariantId): int {
    if lines == [] then 0
    else (if lines[0].variant == v then lines[0].quantity else 0) + UnitsOf(lines[1..], v)
  }

  /** Units of `v` that a stock movement puts back. */
  function PutBack(v: VariantId): Entry -> int {
    (e: Entry) => if e.call.Return? && e.call.v == v then e.call.q else 0
  }

  lemma {:induction false} EntriesPutBack(lines: seq<Line>, v: VariantId)
    ensures SumBy(ReturnEntries(lines), PutBack(v)) == UnitsOf(lines, v)
    ensures forall e :: e in ReturnEntries(lines) ==> e.call.Return?
    decreases |lines|
  {
    if lines != [] {
      EntriesPutBack(lines[1..], v);
      assert ReturnEntries(lines)[1..] == ReturnEntries(lines[1..]);
    }
  }

  /**
   Whatever else happens to the stock meanwhile, its movements with this return's note put back exactly the items the
   return lists, or all the sub-order's when it lists none, once, if and only if it is REFUNDED; the stock is what the
   whole journal makes of it; REFUNDED and success both need a refund that the provider has made; and no caller ever
   meets a claim without a stored amount.
   */
  lemma RestockedOnceIffRefunded(s: System, steps: seq<Step>)
    requires Untouched(s) && IsRun(Next, s, steps, AnyStep)
    ensures var t := Run(Next, s, steps, AnyStep);
            && (forall e :: e in Own(t.journal) ==> e.call.Return?)
            && |Own(t.journal)| == (if t.ret.status != REFUNDED then 0
                                    else if s.ret.items == [] then |s.ret.subItems| else |s.ret.items|)
            && (forall v: VariantId ::
                  SumBy(Own(t.journal), PutBack(v)) ==
                  if t.ret.status != REFUNDED then 0
                  else if s.ret.items == [] then UnitsOf(s.ret.subItems, v) else UnitsOf(s.ret.items, v))
            && Replay(s.stock, t.journal) == Ok(t.stock)
            && (t.ret.status == REFUNDED ==> t.paid != {})
            && (forall a :: a in t.paid ==> Refunded(t.ledger, a))
            && (t.ret.status == REFUNDING ==> t.ret.amount.Some?)
            && forall c :: c in t.callers ==>
                 !t.callers[c].AssertionFailed? && (t.callers[c].Succeeded? ==> t.ret.status == REFUNDED)
  {
    RunInv(s, s.stock, steps, AnyStep);
    var t := Run(Next, s, steps, AnyStep);
    forall c | c in t.callers ensures PcFits(t, c) {
    }
    EntriesPutBack(UnitsBack(s.ret), 0);
    forall v: VariantId ensures SumBy(ReturnEntries(UnitsBack(s.ret)), PutBack(v)) == UnitsOf(UnitsBack(s.ret), v) {
      EntriesPutBack(UnitsBack(s.ret), v);
    }
  }

  lemma RefundedStepIsFinal(s: System, step: Step)
    requires s.ret.status == REFUNDED && Enabled(s, step)
    ensures Next(s, step).ret == s.ret && Own(Next(s, step).journal) == Own(s.journal)
  {
    if step.Other? {
      FilterConcat(s.journal, [Entry(step.call, false)], IsOwn());
      assert Own([Entry(step.call, false)]) == [];
    }
    assert s.journal + [] == s.journal;
  }

  /** REFUNDED is final: the row never changes again, and the return moves no more stock. */
  lemma {:induction false} RefundedIsFinal(s: System, steps: seq<Step>)
    requires s.ret.status == REFUNDED && IsRun(Next, s, steps, AnyStep)
    ensures Run(Next, s, steps, AnyStep).ret == s.ret && Own(Run(Next, s, steps, AnyStep).journal) == Own(s.journal)
    decreases |steps|
  {
    if steps != [] {
      RefundedStepIsFinal(s, steps[0]);
      RefundedIsFinal(Next(s, steps[0]), steps[1..]);
    }
  }

  // ---------------------------------------------------------------------------
  // What restocking does
  // ---------------------------------------------------------------------------

  lemma ReturnAdds(stock: Levels, line: Line, next: Levels, v: VariantId)
    requires AllExplained(stock) && AfterReturn(stock, line.variant, line.quantity) == Ok(next)
    ensures AllExplained(next)
    ensures LevelOf(next, v).available == LevelOf(stock, v).available + if line.variant == v then line.quantity else 0
    ensures LevelOf(next, v).reserved == LevelOf(stock, v).reserved
  {
    ReturnExplained(stock, line.variant, line.quantity, next);
  }

  /** Restocking adds each variant's returned units to what is available, reserves nothing, and is fully logged. */
  lemma {:induction false} RestockAdds(stock: Levels, lines: seq<Line>, v: VariantId)
    requires AllExplained(stock) && Restocked(stock, lines).Ok?
    ensures var back := Restocked(stock, lines).value;
            && LevelOf(back, v).available == LevelOf(stock, v).available + UnitsOf(lines, v)
            && LevelOf(back, v).reserved == LevelOf(stock, v).reserved
            && AllExplained(back)
    decreases |lines|
  {
    if lines != [] {
      var next := AfterReturn(stock, lines[0].variant, lines[0].quantity).value;
      ReturnAdds(stock, lines[0], next, v);
      RestockAdds(next, lines[1..], v);
    }
  }

  /** It fails exactly on a line without units, and then nothing was put back. */
  lemma {:induction false} RestockFailsIff(stock: Levels, lines: seq<Line>)
    ensures Restocked(stock, lines).Ok? <==> forall j :: 0 <= j < |lines| ==> lines[j].quantity > 0
    decreases |lines|
  {
    if lines != [] {
      if lines[0].quantity > 0 {
        RestockFailsIff(AfterReturn(stock, lines[0].variant, lines[0].quantity).value, lines[1..]);
        assert forall j :: 0 <= j < |lines| - 1 ==> lines[1..][j] == lines[j + 1];
        assert forall j :: 0 < j < |lines| ==> lines[j] == lines[1..][j - 1];
      }
    }
  }

  // ---------------------------------------------------------------------------
  // One refund for each amount claimed
  // ---------------------------------------------------------------------------

  /** What a first claim by this call would refund. */
  function ClaimOf(s: System, given: Option<int>): int {
    if given.Some? then given.value else s.ret.due
  }

  /** Every caller asks for an amount in `amounts`. */
  predicate AsksWithin(amounts: set<int>, s: System, step: Step) {
    step.Begin? ==> ClaimOf(s, step.given) in amounts
  }

  /** And a call that fails means that nothing was refunded. */
  predicate AsksHonestly(amounts: set<int>, s: System, step: Step) {
    && AsksWithin(amounts, s, step)
    && (step.Ledger? && step.step.ExecuteUnheard? ==> !InCall(s, step.step.c))
    && (step.Ledger? && step.step.Crash? && InCall(s, step.step.c) ==> !s.ledger.callers[step.step.c].Executed?)
  }

  function AskedWithin(amounts: set<int>): (System, Step) -> bool {
    (s: System, step: Step) => AsksWithin(amounts, s, step)
  }

  function Honestly(amounts: set<int>): (System, Step) -> bool {
    (s: System, step: Step) => AsksHonestly(amounts, s, step)
  }

  /** The amounts asked for that the payment can bear. */
  function Bearable(s: System, amounts: set<int>): set<int> {
    set a | a in amounts && 0 < a <= s.ledger.payment.amount
  }

  ghost predicate Within(s: System, amounts: set<int>) {
    && (forall a :: a in s.paid ==> a in amounts)
    && (s.ret.amount.Some? ==> s.ret.amount.value in amounts)
    && forall c :: c in s.callers && (s.callers[c].Claimed? || s.callers[c].Asking?) ==> s.callers[c].amount in amounts
  }

  lemma WithinStep(s: System, amounts: set<int>, step: Step)
    requires Within(s, amounts) && Enabled(s, step) && AsksWithin(amounts, s, step)
    ensures Within(Next(s, step), amounts)
  {
  }

  lemma {:induction false} WithinRun(s: System, amounts: set<int>, steps: seq<Step>, ok: (System, Step) -> bool)
    requires forall v: System, step: Step :: ok(v, step) ==> AsksWithin(amounts, v, step)
    requires Within(s, amounts) && IsRun(Next, s, steps, ok)
    ensures Within(Run(Next, s, steps, ok), amounts)
    decreases |steps|
  {
    if steps != [] {
      WithinStep(s, amounts, steps[0]);
      WithinRun(Next(s, steps[0]), amounts, steps[1..], ok);
    }
  }

  lemma {:induction false} ChargeStays(s: System, steps: seq<Step>, ok: (System, Step) -> bool)
    requires IsRun(Next, s, steps, ok)
    ensures Run(Next, s, steps, ok).ledger.payment.amount == s.ledger.payment.amount
    decreases |steps|
  {
    if steps != [] {
      ChargeStays(Next(s, steps[0]), steps[1..], ok);
    }
  }

  /**
   Whatever fails, and whoever else refunds this payment, the buyer is refunded for this return only amounts that were
   asked for and that the payment can bear: one refund for each.
   */
  lemma RefundsWithinAsked(s: System, amounts: set<int>, steps: seq<Step>, ok: (System, Step) -> bool)
    requires forall v: System, step: Step :: ok(v, step) ==> AsksWithin(amounts, v, step)
    requires Untouched(s) && IsRun(Next, s, steps, ok)
    ensures Run(Next, s, steps, ok).paid <= Bearable(s, amounts)
    ensures Run(Next, s, steps, ok).ret.amount.Some? ==> Run(Next, s, steps, ok).ret.amount.value in amounts
  {
    WithinRun(s, amounts, steps, ok);
    RunInv(s, s.stock, steps, ok);
    ChargeStays(s, steps, ok);
    var t := Run(Next, s, steps, ok);
    forall a | a in t.paid ensures 0 < a <= s.ledger.payment.amount {
      assert Refunded(t.ledger, a) && L.ByAmount(a) in t.ledger.requests;
    }
  }

  /** With one amount asked, a REFUNDED return was refunded exactly that, by the provider, and says so. */
  lemma StoredAmountIsRefunded(s: System, a: int, steps: seq<Step>)
    requires Untouched(s) && IsRun(Next, s, steps, AskedWithin({a}))
    ensures var t := Run(Next, s, steps, AskedWithin({a}));
            t.ret.status == REFUNDED ==>
              && t.paid == {a} && t.ret.amount == Some(a)
              && Refunded(t.ledger, a) && t.ledger.provider[L.ByAmount(a)].amount == a
  {
    RunInv(s, s.stock, steps, AskedWithin({a}));
    RefundsWithinAsked(s, {a}, steps, AskedWithin({a}));
    var t := Run(Next, s, steps, AskedWithin({a}));
    if t.ret.status == REFUNDED {
      var x :| x in t.paid;
      assert x == a && Refunded(t.ledger, a);
    }
  }

  // ---------------------------------------------------------------------------
  // Two refunds: a caller that joined a claim outlives its release by the first
  // ---------------------------------------------------------------------------

  predicate AtMostOne(refunds: set<int>) {
    forall a, b :: a in refunds && b in refunds ==> a == b
  }

  predicate PaidTwice(s: System) {
    !AtMostOne(s.paid)
  }

  /** Caller `c` stands before the provider for `a`. */
  predicate AtProvider(s: System, c: nat, a: int) {
    && a > 0 && InCall(s, c) && s.callers[c].amount == a
    && s.ledger.callers[c].Claimed? && s.ledger.callers[c].key == L.ByAmount(a)
  }

  /** Both refunds go out. */
  lemma BothRefunded(s: System, d: nat, a: int, e: nat, b: int, amounts: set<int>)
    requires AtProvider(s, d, a) && AtProvider(s, e, b) && d != e && a != b
    ensures CanReach(Next, s, Honestly(amounts), PaidTwice)
  {
    var s1 := Next(s, Ledger(L.Execute(d)));
    var s2 := Next(s1, Ledger(L.Execute(e)));
    assert a in s2.paid && b in s2.paid;
    ReachNow(Next, s2, Honestly(amounts), PaidTwice);
    ReachNext(Next, s1, Ledger(L.Execute(e)), Honestly(amounts), PaidTwice);
    ReachNext(Next, s, Ledger(L.Execute(d)), Honestly(amounts), PaidTwice);
  }

  /** What `initiate_refund` finds for an amount nobody has asked for: room for it. */
  predicate RoomFor(l: L.Ledger, b: int) {
    0 < b <= L.Refundable(l.payment) && L.Open(l.payment) && L.ByAmount(b) !in l.requests && l.foreign == {}
  }

  lemma NewClaim(l: L.Ledger, e: nat, b: int)
    requires RoomFor(l, b) && !(e in l.callers && L.Live(l.callers[e]))
    ensures L.Enabled(l, L.Claim(e, Some(b), None))
    ensures var t := L.Next(l, L.Claim(e, Some(b), None));
            && t.callers == l.callers[e := L.Claimed(L.ByAmount(b), b, true)]
            && t.requests == l.requests[L.ByAmount(b) := L.Request(b, L.InFlight, None)]
            && t.payment == l.payment.(pending := l.payment.pending + b) && t.foreign == l.foreign
  {
  }

  /** Let go of, the return can be claimed at another amount while `d` is still at the provider. */
  lemma ClaimedAgain(s: System, d: nat, a: int, e: nat, b: int, amounts: set<int>)
    requires s.ret.status == APPROVED && s.hasPayment && AtProvider(s, d, a) && a != b && b in amounts
    requires RoomFor(s.ledger, b) && e !in s.callers && e !in s.ledger.callers
    ensures CanReach(Next, s, Honestly(amounts), PaidTwice)
  {
    var s1 := Next(s, Begin(e, Some(b)));
    assert s1.callers[e] == Claimed(b, true);
    NewClaim(s1.ledger, e, b);
    var s2 := Next(s1, Ask(e));
    BothRefunded(s2, d, a, e, b, amounts);
    ReachNext(Next, s1, Ask(e), Honestly(amounts), PaidTwice);
    ReachNext(Next, s, Begin(e, Some(b)), Honestly(amounts), PaidTwice);
  }

  /** The claimant's call has raised: it lets go. */
  lemma LetGoOf(s: System, c: nat, d: nat, a: int, e: nat, b: int, amounts: set<int>)
    requires s.ret.status == REFUNDING && s.hasPayment && InCall(s, c) && s.callers[c].mine && c != d
    requires s.ledger.callers[c].Raised? && AtProvider(s, d, a) && a != b && b in amounts
    requires RoomFor(s.ledger, b) && e !in s.callers && e !in s.ledger.callers
    ensures CanReach(Next, s, Honestly(amounts), PaidTwice)
  {
    var s1 := Next(s, Refused(c));
    var s2 := Next(s1, LetGo(c));
    ClaimedAgain(s2, d, a, e, b, amounts);
    ReachNext(Next, s1, LetGo(c), Honestly(amounts), PaidTwice);
    ReachNext(Next, s, Refused(c), Honestly(amounts), PaidTwice);
  }

  /** Callers `c` and `d` are both at the provider for `a`, on the one row that `c` reserved. */
  predicate BothAtProvider(s: System, c: nat, d: nat, a: int, amount: nat) {
    && s.ret.status == REFUNDING && s.hasPayment && c != d && 0 < a <= amount
    && s.callers == map[c := Asking(a, true)][d := Asking(a, false)]
    && s.ledger.callers == map[c := L.Claimed(L.ByAmount(a), a, true)][d := L.Claimed(L.ByAmount(a), a, false)]
    && s.ledger.requests == map[L.ByAmount(a) := L.Request(a, L.InFlight, None)]
    && s.ledger.foreign == {} && s.ledger.payment == L.Payment(amount, L.SUCCEEDED, 0, a)
  }

  lemma RefusedAndReleased(l: L.Ledger, c: nat, a: int)
    requires c in l.callers && a > 0 && l.callers[c] == L.Claimed(L.ByAmount(a), a, true) && L.ByAmount(a) in l.requests
    ensures L.Enabled(l, L.Refuse(c)) && L.Enabled(L.Next(l, L.Refuse(c)), L.Release(c))
    ensures var t := L.Next(L.Next(l, L.Refuse(c)), L.Release(c));
            && t.callers == l.callers[c := L.Raised] && t.requests.Keys == l.requests.Keys && t.foreign == l.foreign
            && t.payment == l.payment.(pending := L.Max(0, l.payment.pending - a))
  {
    var t := L.Next(L.Next(l, L.Refuse(c)), L.Release(c));
    assert t.callers == l.callers[c := L.Raised];
  }

  /** The provider refuses the claimant, whose release frees what the other is about to refund. */
  lemma JoinedThenReleased(s: System, c: nat, d: nat, a: int, amount: nat, e: nat, b: int, amounts: set<int>)
    requires BothAtProvider(s, c, d, a, amount) && 0 < b <= amount && a != b && b in amounts && e != c && e != d
    ensures CanReach(Next, s, Honestly(amounts), PaidTwice)
  {
    RefusedAndReleased(s.ledger, c, a);
    var s1 := Next(s, Ledger(L.Refuse(c)));
    var s2 := Next(s1, Ledger(L.Release(c)));
    LetGoOf(s2, c, d, a, e, b, amounts);
    ReachNext(Next, s1, Ledger(L.Release(c)), Honestly(amounts), PaidTwice);
    ReachNext(Next, s, Ledger(L.Refuse(c)), Honestly(amounts), PaidTwice);
  }

  /** Caller `c` alone is at the provider for `a`. */
  predicate OneAtProvider(s: System, c: nat, a: int, amount: nat) {
    && s.ret.status == REFUNDING && s.ret.amount == Some(a) && s.hasPayment && 0 < a <= amount
    && s.callers == map[c := Asking(a, true)]
    && s.ledger.callers == map[c := L.Claimed(L.ByAmount(a), a, true)]
    && s.ledger.requests == map[L.ByAmount(a) := L.Request(a, L.InFlight, None)]
    && s.ledger.foreign == {} && s.ledger.payment == L.Payment(amount, L.SUCCEEDED, 0, a)
  }

  lemma SecondClaimJoins(l: L.Ledger, d: nat, a: int)
    requires a > 0 && L.ByAmount(a) in l.requests && l.requests[L.ByAmount(a)] == L.Request(a, L.InFlight, None)
    requires l.foreign == {} && L.Open(l.payment) && d !in l.callers
    ensures L.Enabled(l, L.Claim(d, Some(a), None))
    ensures L.Next(l, L.Claim(d, Some(a), None)) == l.(callers := l.callers[d := L.Claimed(L.ByAmount(a), a, false)])
  {
  }

  lemma SecondCallerJoins(s: System, c: nat, d: nat, a: int, amount: nat, e: nat, b: int, amounts: set<int>)
    requires OneAtProvider(s, c, a, amount) && 0 < b <= amount && a != b && a in amounts && b in amounts
    requires c != d && e != c && e != d
    ensures CanReach(Next, s, Honestly(amounts), PaidTwice)
  {
    var s1 := Next(s, Begin(d, Some(a)));
    assert s1.callers == s.callers[d := Claimed(a, false)] && s1.ledger == s.ledger;
    SecondClaimJoins(s1.ledger, d, a);
    var s2 := Next(s1, Ask(d));
    assert s2.callers == s.callers[d := Asking(a, false)];
    JoinedThenReleased(s2, c, d, a, amount, e, b, amounts);
    ReachNext(Next, s1, Ask(d), Honestly(amounts), PaidTwice);
    ReachNext(Next, s, Begin(d, Some(a)), Honestly(amounts), PaidTwice);
  }

  /** An approved return of a payment that nobody has refunded yet. */
  ghost predicate Claimable(s: System) {
    && Untouched(s) && s.ret.status == APPROVED && s.hasPayment
    && s.ledger == L.NewLedger(s.ledger.payment.amount)
  }

  lemma FirstCallerAsks(s: System, c: nat, a: int) returns (s1: System, s2: System)
    requires Claimable(s) && 0 < a <= s.ledger.payment.amount
    ensures Enabled(s, Begin(c, Some(a))) && s1 == Next(s, Begin(c, Some(a)))
    ensures Enabled(s1, Ask(c)) && s2 == Next(s1, Ask(c)) && OneAtProvider(s2, c, a, s.ledger.payment.amount)
  {
    s1 := Next(s, Begin(c, Some(a)));
    assert s1.callers == map[c := Claimed(a, true)] && s1.ledger == s.ledger;
    NewClaim(s1.ledger, c, a);
    s2 := Next(s1, Ask(c));
    assert s2.callers == map[c := Asking(a, true)];
  }

  lemma TwoRefundsFrom(s: System, a: int, b: int, amounts: set<int>)
    requires Claimable(s) && a in Bearable(s, amounts) && b in Bearable(s, amounts) && a != b
    ensures CanReach(Next, s, Honestly(amounts), PaidTwice)
  {
    var (c, d, e) := (0, 1, 2);
    var s1, s2 := FirstCallerAsks(s, c, a);
    SecondCallerJoins(s2, c, d, a, s.ledger.payment.amount, e, b, amounts);
    ReachNext(Next, s1, Ask(c), Honestly(amounts), PaidTwice);
    ReachNext(Next, s, Begin(c, Some(a)), Honestly(amounts), PaidTwice);
  }

  /**
   One return, one refund: even when a failed call always means that nothing was refunded, this holds in every run
   exactly when all callers who ask for an amount the payment can bear ask for the same one. Two such amounts can both
   go out although together they exceed the payment.
   */
  lemma OneRefundIff(s: System, amounts: set<int>)
    requires Claimable(s)
    ensures !CanReach(Next, s, Honestly(amounts), PaidTwice) <==> AtMostOne(Bearable(s, amounts))
  {
    if AtMostOne(Bearable(s, amounts)) {
      forall steps | IsRun(Next, s, steps, Honestly(amounts))
        ensures AtMostOne(Run(Next, s, steps, Honestly(amounts)).paid)
      {
        RefundsWithinAsked(s, amounts, steps, Honestly(amounts));
      }
    } else {
      var a, b :| a in Bearable(s, amounts) && b in Bearable(s, amounts) && a != b;
      TwoRefundsFrom(s, a, b, amounts);
    }
  }
}
