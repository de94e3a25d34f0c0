/**
 When a dispute's resolution tells the truth about its refund, exactly: from any state at rest, and for every liberty
 its surroundings may take.
 */
module DisputeLiberties {
  import opened Results
  import opened Runs
  import opened FreshIds
  import opened Disputes
  import opened DisputeProofs
  import L = RefundLedger

  type Ok = (System, Step) -> bool

  predicate Untruthful(s: System) {
    !Truthful(s)
  }

  /** Resolved as rejected with the refund out. */
  predicate Denied(s: System) {
    s.dispute.status == RESOLVED && s.dispute.outcome == Some(REJECTED) && Executed(s)
  }

  /** Some continuation ends untruthful. */
  ghost predicate CanMislead(s: System, ok: Ok) {
    CanReach(Next, s, ok, Untruthful)
  }

  /** Some continuation ends with the refund denied. */
  ghost predicate CanDeny(s: System, ok: Ok) {
    CanReach(Next, s, ok, Denied)
  }

  lemma DenialMisleads(s: System, ok: Ok)
    requires CanDeny(s, ok)
    ensures CanMislead(s, ok)
  {
    var steps :| IsRun(Next, s, steps, ok) && Denied(Run(Next, s, steps, ok));
    assert Untruthful(Run(Next, s, steps, ok));
  }

  predicate Nobody(s: System) {
    forall d :: d in s.callers ==> !Busy(s, d)
  }

  predicate Idle(s: System, c: nat) {
    !Busy(s, c) && !BusyInLedger(s, c)
  }

  ghost predicate AllowsCareful(ok: Ok) {
    forall s: System, step: Step :: Careful(s, step) ==> ok(s, step)
  }

  // ---------------------------------------------------------------------------
  // Rejections of a dispute whose refund was executed
  // ---------------------------------------------------------------------------

  /** An admin rejects the escalated dispute. */
  function Rejecting(c: nat): seq<Step> {
    [Resolve(c, REJECTED, None)] + ([Finish(c)] + [])
  }

  /** The ledger is not looked at: the outcome is REJECTED whatever the provider has done. */
  lemma RejectionDeniesIff(s: System, c: nat, ok: Ok)
    requires s.dispute.status == ESCALATED && Idle(s, c) && AllowsCareful(ok) && ok(s, Resolve(c, REJECTED, None))
    ensures IsRun(Next, s, Rejecting(c), ok)
    ensures var t := Run(Next, s, Rejecting(c), ok);
            && t.dispute.status == RESOLVED && t.dispute.outcome == Some(REJECTED) && !t.dispute.payoutHeld
            && t.ledger == s.ledger && t.callers == s.callers[c := Succeeded] && t.id == s.id
            && (Denied(t) <==> Executed(s))
  {
    var s1 := Next(s, Resolve(c, REJECTED, None));
    assert s1.callers[c] == ToFinish(REJECTED, None) && Enabled(s1, Finish(c));
    StepThenRun(Next, s1, Finish(c), [], ok);
    StepThenRun(Next, s, Resolve(c, REJECTED, None), [Finish(c)] + [], ok);
    assert s1.callers[c := Succeeded] == s.callers[c := Succeeded];
  }

  lemma RejectionDenies(s: System, c: nat, ok: Ok)
    requires s.dispute.status == ESCALATED && Executed(s) && Idle(s, c)
    requires AllowsCareful(ok) && ok(s, Resolve(c, REJECTED, None))
    ensures CanDeny(s, ok)
  {
    RejectionDeniesIff(s, c, ok);
  }

  /** A claim without refund, joined and finished. */
  lemma JoinedRejectionMisleads(s: System, c: nat, ok: Ok)
    requires s.dispute.status == RESOLVING && s.dispute.outcome.Some? && !IsRefund(s.dispute.outcome.value)
    requires Executed(s) && Nobody(s) && Idle(s, c) && AllowsCareful(ok)
    ensures CanMislead(s, ok)
  {
    var s1 := Next(s, Resolve(c, REJECTED, None));
    assert s1.callers[c] == ToFinish(s.dispute.outcome.value, None);
    ReachNow(Next, Next(s1, Finish(c)), ok, Untruthful);
    ReachNext(Next, s1, Finish(c), ok, Untruthful);
    ReachNext(Next, s, Resolve(c, REJECTED, None), ok, Untruthful);
  }

  /** Escalating again while a refund is being resolved, as the view allows, lets a rejection overwrite it. */
  lemma EscalationLosesRefund(s: System, c: nat, ok: Ok)
    requires s.dispute.status != RESOLVED && s.dispute.status != CLOSED && Executed(s) && Nobody(s) && Idle(s, c)
    requires AllowsCareful(ok) && ok(s, Escalate)
    ensures CanDeny(s, ok)
  {
    RejectionDenies(Next(s, Escalate), c, ok);
    ReachNext(Next, s, Escalate, ok, Denied);
  }

  /** So does the overdue sweep, which writes ESCALATED over whatever happened since it looked. */
  lemma SweepLosesRefund(s: System, c: nat, ok: Ok)
    requires s.sweepSaw && Executed(s) && Nobody(s) && Idle(s, c) && AllowsCareful(ok) && ok(s, SweepWrites)
    ensures CanDeny(s, ok)
  {
    RejectionDenies(Next(s, SweepWrites), c, ok);
    ReachNext(Next, s, SweepWrites, ok, Denied);
  }

  // ---------------------------------------------------------------------------
  // From any state at rest
  // ---------------------------------------------------------------------------

  /** Nobody is resolving, and nobody is in the ledger under the dispute's key. */
  ghost predicate AtRest(s: System) {
    && Nobody(s)
    && forall e :: e in s.ledger.callers && BusyInLedger(s, e) ==> s.ledger.callers[e].key != RefundKey(s)
  }

  /** The executed refund is what the dispute's claim or resolution says. */
  predicate RefundOnRecord(d: Dispute) {
    Claiming(d) && d.outcome.Some? && IsRefund(d.outcome.value)
  }

  /** Closed for good: no sweep is about to reopen it. */
  predicate ShutForGood(s: System) {
    s.dispute.status == CLOSED && !s.sweepSaw
  }

  predicate ByResolver(step: Step) {
    step.CallRefund? || step.RefundReturned? || step.RefundRaised? || step.LetGo? || step.Finish? || step.Crash?
  }

  lemma ResolverIsBusy(s: System, step: Step)
    requires ByResolver(step) && Enabled(s, step)
    ensures !Nobody(s)
  {
    assert step.c in s.callers && Busy(s, step.c);
  }

  lemma ShutStays(s: System, step: Step)
    requires ShutForGood(s) && Nobody(s) && Enabled(s, step)
    ensures ShutForGood(Next(s, step)) && Nobody(Next(s, step))
  {
    if ByResolver(step) {
      ResolverIsBusy(s, step);
    } else {
      var t := Next(s, step);
      forall d | d in t.callers ensures !Busy(t, d) {
        assert d in s.callers ==> !Busy(s, d);
      }
    }
  }

  lemma {:induction false} ShutRun(s: System, steps: seq<Step>, ok: Ok)
    requires ShutForGood(s) && Nobody(s) && IsRun(Next, s, steps, ok)
    ensures ShutForGood(Run(Next, s, steps, ok))
    decreases |steps|
  {
    if steps != [] {
      ShutStays(s, steps[0]);
      ShutRun(Next(s, steps[0]), steps[1..], ok);
    }
  }

  lemma RestIsOrderly(s: System)
    requires Inv(s) && AtRest(s) && (Executed(s) ==> RefundOnRecord(s.dispute))
    ensures Orderly(s)
  {
    forall c ensures !Busy(s, c) {
    }
    forall e | BusyInLedger(s, e) ensures s.ledger.callers[e].key != RefundKey(s) {
      assert e in s.ledger.callers;
    }
  }

  lemma OffRecordMisleads(s: System, ok: Ok)
    requires Inv(s) && AtRest(s) && AllowsCareful(ok)
    requires Executed(s) && !RefundOnRecord(s.dispute) && !ShutForGood(s)
    ensures CanMislead(s, ok)
  {
    var c := FreshId(s.callers.Keys + s.ledger.callers.Keys);
    assert c !in s.callers && c !in s.ledger.callers;
    match s.dispute.status
    case RESOLVED => ReachNow(Next, s, ok, Untruthful);
    case RESOLVING => JoinedRejectionMisleads(s, c, ok);
    case CLOSED =>
      SweepLosesRefund(s, c, ok);
      DenialMisleads(s, ok);
    case ESCALATED =>
      RejectionDenies(s, c, ok);
      DenialMisleads(s, ok);
    case _ =>
      EscalationLosesRefund(s, c, ok);
      DenialMisleads(s, ok);
  }

  /**
   A dispute at rest is truthful in every careful continuation exactly when its refund, if executed, is what its claim
   or resolution says, or it is closed with no sweep about to reopen it.
   */
  lemma AlwaysTruthfulIff(s: System)
    requires Inv(s) && AtRest(s)
    ensures !CanMislead(s, Careful) <==> (Executed(s) ==> RefundOnRecord(s.dispute) || ShutForGood(s))
  {
    if !Executed(s) || RefundOnRecord(s.dispute) {
      RestIsOrderly(s);
      forall steps | IsRun(Next, s, steps, Careful) ensures Truthful(Run(Next, s, steps, Careful)) {
        RunOrderly(s, steps, Careful);
        OrderlyIsTruthful(Run(Next, s, steps, Careful));
      }
    } else if ShutForGood(s) {
      forall steps | IsRun(Next, s, steps, Careful) ensures Truthful(Run(Next, s, steps, Careful)) {
        ShutRun(s, steps, Careful);
      }
    } else {
      OffRecordMisleads(s, Careful);
    }
  }

  lemma OrderlyIsTruthful(s: System)
    requires Orderly(s)
    ensures Truthful(s)
  {
  }

  // ---------------------------------------------------------------------------
  // Each liberty, from a new dispute
  // ---------------------------------------------------------------------------

  /**
   `concurrent`: two live resolvers. `escalates`, `closes`, `sweeps`: a party, or the overdue sweep, writes over a
   claim or a resolution. `unheard`: a provider error that hides the refund. `lateRaise`: the call of
   `initiate_refund` raises after the provider has refunded.
   */
  datatype Liberties = Liberties(
    concurrent: bool, escalates: bool, closes: bool, sweeps: bool, unheard: bool, lateRaise: bool)

  predicate NoneTaken(lib: Liberties) {
    !lib.concurrent && !lib.escalates && !lib.closes && !lib.sweeps && !lib.unheard && !lib.lateRaise
  }

  ghost predicate Allowed(lib: Liberties, s: System, step: Step) {
    match step
    case Resolve(_, _, _) => lib.concurrent || Nobody(s)
    case Escalate => lib.escalates || !Claiming(s.dispute)
    case Close => lib.closes || !Claiming(s.dispute)
    case SweepWrites => lib.sweeps || !Claiming(s.dispute)
    case Ledger(ls) => (lib.unheard || !HidesRefund(s, ls)) && (lib.lateRaise || !RaisesLate(s, ls))
    case _ => true
  }

  ghost function With(lib: Liberties): Ok {
    (s, step) => Allowed(lib, s, step)
  }

  lemma WithAllowsCareful(lib: Liberties)
    ensures AllowsCareful(With(lib))
  {
  }

  /** A new dispute escalated, the overdue sweep having looked at it first or not. */
  lemma Opened(amount: nat, id: nat, subtotal: nat, swept: bool, ok: Ok) returns (s: System)
    requires AllowsCareful(ok)
    ensures s == NewSystem(amount, id, subtotal).(dispute := Dispute(ESCALATED, None, None, true), sweepSaw := swept)
    ensures CanDeny(s, ok) ==> CanDeny(NewSystem(amount, id, subtotal), ok)
  {
    var s0 := NewSystem(amount, id, subtotal);
    var s1 := if swept then Next(s0, SweepSees) else s0;
    s := Next(s1, Escalate);
    if CanDeny(s, ok) {
      ReachNext(Next, s1, Escalate, ok, Denied);
      if swept {
        ReachNext(Next, s0, SweepSees, ok, Denied);
      }
    }
  }

  /** Caller `c` is inside `initiate_refund` for `p` pence, with its reservation made. */
  predicate RefundClaimed(s: System, c: nat, p: nat) {
    && s.dispute.status == RESOLVING && s.dispute.outcome == Some(PARTIAL_REFUND) && s.dispute.amount == Some(p)
    && s.callers == map[c := Refunding(PARTIAL_REFUND, p, true)]
    && s.ledger.callers == map[c := L.Claimed(RefundKey(s), p, true)]
    && s.ledger.requests == map[RefundKey(s) := L.Request(p, L.InFlight, None)]
    && s.ledger.foreign == {} && L.Open(s.ledger.payment) && p > 0
  }

  lemma NewClaim(l: L.Ledger, c: nat, p: nat, k: L.Key)
    requires l == L.NewLedger(l.payment.amount) && 0 < p <= l.payment.amount
    ensures L.Enabled(l, L.Claim(c, Some(p), Some(k)))
    ensures var t := L.Next(l, L.Claim(c, Some(p), Some(k)));
            && t.callers == map[c := L.Claimed(k, p, true)] && t.requests == map[k := L.Request(p, L.InFlight, None)]
            && t.payment == l.payment.(pending := p) && t.foreign == {}
  {
  }

  lemma ClaimantCalls(s: System, c: nat, p: nat, ok: Ok) returns (t: System)
    requires s.ledger == L.NewLedger(s.ledger.payment.amount) && 0 < p <= s.ledger.payment.amount
    requires s.dispute.status == RESOLVING && s.dispute.outcome == Some(PARTIAL_REFUND) && s.dispute.amount == Some(p)
    requires s.callers == map[c := ToRefund(PARTIAL_REFUND, p, true)] && AllowsCareful(ok)
    ensures RefundClaimed(t, c, p) && t.sweepSaw == s.sweepSaw && t.id == s.id
    ensures CanDeny(t, ok) ==> CanDeny(s, ok)
  {
    NewClaim(s.ledger, c, p, RefundKey(s));
    t := Next(s, CallRefund(c));
    if CanDeny(t, ok) {
      ReachNext(Next, s, CallRefund(c), ok, Denied);
    }
  }

  lemma RefundIsClaimed(s: System, c: nat, p: nat, ok: Ok) returns (t: System)
    requires s.ledger == L.NewLedger(s.ledger.payment.amount) && 0 < p <= s.ledger.payment.amount
    requires s.callers == map[] && s.dispute.status == ESCALATED && AllowsCareful(ok)
    ensures RefundClaimed(t, c, p) && t.sweepSaw == s.sweepSaw && t.id == s.id
    ensures CanDeny(t, ok) ==> CanDeny(s, ok)
  {
    var s1 := Next(s, Resolve(c, PARTIAL_REFUND, Some(p)));
    t := ClaimantCalls(s1, c, p, ok);
    if CanDeny(t, ok) {
      ReachNext(Next, s, Resolve(c, PARTIAL_REFUND, Some(p)), ok, Denied);
    }
  }

  lemma RefundExecuted(s: System, c: nat, p: nat, ok: Ok) returns (t: System)
    requires RefundClaimed(s, c, p) && AllowsCareful(ok)
    ensures Executed(t) && t.dispute == s.dispute && t.callers == s.callers && t.sweepSaw == s.sweepSaw && t.id == s.id
    ensures c in t.ledger.callers && t.ledger.callers[c].Executed? && t.ledger.callers[c].key == RefundKey(t)
    ensures t.ledger.callers.Keys == {c}
    ensures CanDeny(t, ok) ==> CanDeny(s, ok)
  {
    t := Next(s, Ledger(L.Execute(c)));
    if CanDeny(t, ok) {
      ReachNext(Next, s, Ledger(L.Execute(c)), ok, Denied);
    }
  }

  /** The resolver crashes once its refund is out: the claim stands, and nobody is at work. */
  lemma RefundAbandoned(s: System, c: nat, p: nat, d: nat, ok: Ok) returns (t: System)
    requires RefundClaimed(s, c, p) && d != c && AllowsCareful(ok)
    ensures Executed(t) && t.dispute == s.dispute && t.sweepSaw == s.sweepSaw && Nobody(t) && Idle(t, d)
    ensures CanDeny(t, ok) ==> CanDeny(s, ok)
  {
    var u := RefundExecuted(s, c, p, ok);
    t := Next(u, Crash(c));
    if CanDeny(t, ok) {
      ReachNext(Next, u, Crash(c), ok, Denied);
    }
  }

  /** Closed over the claim, then reopened by a sweep that saw it open. */
  lemma ClosureLosesRefund(s: System, c: nat, ok: Ok)
    requires s.dispute.status == RESOLVING && s.sweepSaw && Executed(s) && Nobody(s) && Idle(s, c)
    requires AllowsCareful(ok) && ok(s, Close)
    ensures CanDeny(s, ok)
  {
    SweepLosesRefund(Next(s, Close), c, ok);
    ReachNext(Next, s, Close, ok, Denied);
  }

  /** The resolver's call failed although the refund is out: it lets go, and the dispute is rejected. */
  lemma LetGoDenies(s: System, c: nat, ok: Ok)
    requires s.dispute.status == RESOLVING && Executed(s) && s.callers == map[c := Failed(true)] && !BusyInLedger(s, c)
    requires AllowsCareful(ok)
    ensures CanDeny(s, ok)
  {
    var t := Next(s, LetGo(c));
    assert t.callers == map[c := Raised];
    RejectionDenies(t, c, ok);
    ReachNext(Next, s, LetGo(c), ok, Denied);
  }

  lemma RaisedCallDenies(s: System, c: nat, p: nat, ok: Ok)
    requires s.dispute.status == RESOLVING && Executed(s) && AllowsCareful(ok)
    requires s.callers == map[c := Refunding(PARTIAL_REFUND, p, true)]
    requires c in s.ledger.callers && s.ledger.callers[c].Raised?
    ensures CanDeny(s, ok)
  {
    var t := Next(s, RefundRaised(c));
    assert t.callers == map[c := Failed(true)];
    LetGoDenies(t, c, ok);
    ReachNext(Next, s, RefundRaised(c), ok, Denied);
  }

  /** The call raises after the refund: the resolver takes it for a failure and lets go. */
  lemma LateRaiseLosesRefund(s: System, c: nat, p: nat, ok: Ok)
    requires s.dispute.status == RESOLVING && Executed(s) && AllowsCareful(ok) && ok(s, Ledger(L.Crash(c)))
    requires s.callers == map[c := Refunding(PARTIAL_REFUND, p, true)]
    requires c in s.ledger.callers && s.ledger.callers[c].Executed?
    ensures CanDeny(s, ok)
  {
    RaisedCallDenies(Next(s, Ledger(L.Crash(c))), c, p, ok);
    ReachNext(Next, s, Ledger(L.Crash(c)), ok, Denied);
  }

  /** The provider refunds but answers with an error: the reservation is released and the claim let go. */
  lemma UnheardRefundIsLost(s: System, c: nat, p: nat, ok: Ok)
    requires RefundClaimed(s, c, p) && AllowsCareful(ok) && ok(s, Ledger(L.ExecuteUnheard(c)))
    ensures CanDeny(s, ok)
  {
    var t := Next(s, Ledger(L.ExecuteUnheard(c)));
    assert Executed(t) && t.ledger.callers == map[c := L.Errored(RefundKey(t), p, true)];
    ErroredCallDenies(t, c, p, ok);
    ReachNext(Next, s, Ledger(L.ExecuteUnheard(c)), ok, Denied);
  }

  lemma ErroredCallDenies(s: System, c: nat, p: nat, ok: Ok)
    requires s.dispute.status == RESOLVING && Executed(s) && AllowsCareful(ok)
    requires s.callers == map[c := Refunding(PARTIAL_REFUND, p, true)]
    requires s.ledger.callers == map[c := L.Errored(RefundKey(s), p, true)] && RefundKey(s) in s.ledger.requests
    ensures CanDeny(s, ok)
  {
    var t := Next(s, Ledger(L.Release(c)));
    assert Executed(t) && c in t.ledger.callers && t.ledger.callers[c].Raised?;
    RaisedCallDenies(t, c, p, ok);
    ReachNext(Next, s, Ledger(L.Release(c)), ok, Denied);
  }

  // Two resolvers: `c` made the claim, `d` joins it.

  ghost predicate AllowsResolvers(ok: Ok) {
    forall s: System, c: nat, o: Outcome, given: Option<nat> :: ok(s, Resolve(c, o, given))
  }

  /** Resolver `d` stands before the provider under the dispute's key. */
  predicate AtProvider(s: System, d: nat) {
    d in s.ledger.callers && s.ledger.callers[d].Claimed? && s.ledger.callers[d].key == RefundKey(s)
  }

  lemma ExecutionDenies(s: System, d: nat, ok: Ok)
    requires s.dispute.status == RESOLVED && s.dispute.outcome == Some(REJECTED)
    requires AtProvider(s, d) && AllowsCareful(ok)
    ensures CanDeny(s, ok)
  {
    ReachNow(Next, Next(s, Ledger(L.Execute(d))), ok, Denied);
    ReachNext(Next, s, Ledger(L.Execute(d)), ok, Denied);
  }

  lemma LateExecutionDenies(s: System, c: nat, d: nat, ok: Ok)
    requires s.dispute.status == ESCALATED && Idle(s, c) && AtProvider(s, d) && AllowsCareful(ok) && AllowsResolvers(ok)
    ensures CanDeny(s, ok)
  {
    RejectionDeniesIff(s, c, ok);
    ExecutionDenies(Run(Next, s, Rejecting(c), ok), d, ok);
    ReachAfter(Next, s, Rejecting(c), ok, Denied);
  }

  lemma RaisedBesideOther(s: System, c: nat, d: nat, ok: Ok)
    requires s.dispute.status == RESOLVING && c in s.callers && s.callers[c].Refunding? && s.callers[c].mine && c != d
    requires c in s.ledger.callers && s.ledger.callers[c].Raised? && AtProvider(s, d)
    requires AllowsCareful(ok) && AllowsResolvers(ok)
    ensures CanDeny(s, ok)
  {
    var s1 := Next(s, RefundRaised(c));
    var s2 := Next(s1, LetGo(c));
    LateExecutionDenies(s2, c, d, ok);
    ReachNext(Next, s1, LetGo(c), ok, Denied);
    ReachNext(Next, s, RefundRaised(c), ok, Denied);
  }

  lemma ErroredBesideOther(s: System, c: nat, d: nat, ok: Ok)
    requires s.dispute.status == RESOLVING && c in s.callers && s.callers[c].Refunding? && s.callers[c].mine && c != d
    requires c in s.ledger.callers && s.ledger.callers[c].Errored? && s.ledger.callers[c].key in s.ledger.requests
    requires AtProvider(s, d) && AllowsCareful(ok) && AllowsResolvers(ok)
    ensures CanDeny(s, ok)
  {
    RaisedBesideOther(Next(s, Ledger(L.Release(c))), c, d, ok);
    ReachNext(Next, s, Ledger(L.Release(c)), ok, Denied);
  }

  lemma RefusedBesideOther(s: System, c: nat, d: nat, ok: Ok)
    requires s.dispute.status == RESOLVING && c in s.callers && s.callers[c].Refunding? && s.callers[c].mine && c != d
    requires AtProvider(s, c) && AtProvider(s, d) && RefundKey(s) in s.ledger.requests
    requires AllowsCareful(ok) && AllowsResolvers(ok)
    ensures CanDeny(s, ok)
  {
    ErroredBesideOther(Next(s, Ledger(L.Refuse(c))), c, d, ok);
    ReachNext(Next, s, Ledger(L.Refuse(c)), ok, Denied);
  }

  lemma SecondClaimJoins(l: L.Ledger, d: nat, p: nat, k: L.Key)
    requires k in l.requests && l.requests[k].status == L.InFlight && k !in l.foreign && L.Open(l.payment) && p > 0
    requires d !in l.callers
    ensures L.Enabled(l, L.Claim(d, Some(p), Some(k)))
    ensures L.Next(l, L.Claim(d, Some(p), Some(k))) ==
            l.(callers := l.callers[d := L.Claimed(k, l.requests[k].amount, false)])
  {
  }

  /** The one that claimed is refused and lets go; the dispute is rejected; then the other's refund goes out. */
  lemma SecondResolverRefundsAfterRejection(s: System, c: nat, p: nat, d: nat, ok: Ok)
    requires RefundClaimed(s, c, p) && c != d && AllowsCareful(ok) && AllowsResolvers(ok)
    ensures CanDeny(s, ok)
  {
    var s1 := Next(s, Resolve(d, PARTIAL_REFUND, None));
    assert s1.callers[d] == ToRefund(PARTIAL_REFUND, p, false) && s1.callers[c] == s.callers[c];
    SecondClaimJoins(s1.ledger, d, p, RefundKey(s));
    RefusedBesideOther(Next(s1, CallRefund(d)), c, d, ok);
    ReachNext(Next, s1, CallRefund(d), ok, Denied);
    ReachNext(Next, s, Resolve(d, PARTIAL_REFUND, None), ok, Denied);
  }

  /** Any liberty taken, some run from a new dispute ends resolved as rejected with its refund out. */
  lemma LibertyDeniesRefund(lib: Liberties, amount: nat, id: nat, subtotal: nat)
    requires amount > 0 && !NoneTaken(lib)
    ensures CanDeny(NewSystem(amount, id, subtotal), With(lib))
  {
    var ok := With(lib);
    WithAllowsCareful(lib);
    var escalated := Opened(amount, id, subtotal, lib.closes || lib.sweeps, ok);
    var (c, d) := (0, 1);
    var s := RefundIsClaimed(escalated, c, 1, ok);
    if lib.concurrent {
      SecondResolverRefundsAfterRejection(s, c, 1, d, ok);
    } else if lib.unheard {
      UnheardRefundIsLost(s, c, 1, ok);
    } else if lib.lateRaise {
      var t := RefundExecuted(s, c, 1, ok);
      LateRaiseLosesRefund(t, c, 1, ok);
    } else {
      AbandonedDenies(lib, s, c, 1, d);
    }
  }

  lemma AbandonedDenies(lib: Liberties, s: System, c: nat, p: nat, d: nat)
    requires RefundClaimed(s, c, p) && c != d && (lib.escalates || ((lib.closes || lib.sweeps) && s.sweepSaw))
    ensures CanDeny(s, With(lib))
  {
    var ok := With(lib);
    WithAllowsCareful(lib);
    var t := RefundAbandoned(s, c, p, d, ok);
    if lib.escalates {
      EscalationLosesRefund(t, d, ok);
    } else if lib.closes {
      ClosureLosesRefund(t, d, ok);
    } else {
      SweepLosesRefund(t, d, ok);
    }
  }

  /** From a new dispute on: every resolution is truthful exactly when none of the six liberties is taken. */
  lemma TruthfulInEveryRunIff(lib: Liberties, amount: nat, id: nat, subtotal: nat)
    requires amount > 0
    ensures !CanMislead(NewSystem(amount, id, subtotal), With(lib)) <==> NoneTaken(lib)
  {
    if NoneTaken(lib) {
      var s := NewSystem(amount, id, subtotal);
      forall steps | IsRun(Next, s, steps, With(lib)) ensures Truthful(Run(Next, s, steps, With(lib))) {
        RunOrderly(s, steps, With(lib));
        OrderlyIsTruthful(Run(Next, s, steps, With(lib)));
      }
    } else {
      LibertyDeniesRefund(lib, amount, id, subtotal);
      DenialMisleads(NewSystem(amount, id, subtotal), With(lib));
    }
  }
}
