/**
 Redeeming one discount code (`_resolve_discount`, `preview_discount` and `place_order` in apps/orders/services.py)
 under concurrent transactions: the code's row is locked from before the check to the end of the checkout, and a
 redemption is seen by others only once its checkout commits. The check reads the clock, which only moves forward.
 */
module DiscountUse {
  import opened Results
  import opened Runs

  datatype Code = Code(
    active: bool,
    validFrom: Option<int>,
    validUntil: Option<int>,
    minimumSpend: int,
    maxUses: Option<nat>,
    maxUsesPerBuyer: Option<nat>)

  datatype Redemption = Redemption(buyer: nat, checkout: nat)

  datatype Refusal = NotLive | BelowMinimum | UsedUp | UsedByBuyer

  /** A transaction that names the code: a checkout, or a preview that ends with its check. */
  datatype Pc =
    | Waiting(buyer: nat, goods: int, preview: bool)
    | Locked(buyer: nat, goods: int, preview: bool)
    | Checked(buyer: nat)
    | Redeeming(buyer: nat)
    | Done

  datatype System = System(
    code: Code,
    now: int,
    redemptions: seq<Redemption>,
    holder: Option<nat>,
    checkouts: map<nat, Pc>)

  predicate IsLive(code: Code, now: int) {
    && code.active
    && (code.validFrom.Some? ==> now >= code.validFrom.value)
    && (code.validUntil.Some? ==> now <= code.validUntil.value)
  }

  function UsesBy(redemptions: seq<Redemption>, buyer: nat): nat {
    if redemptions == [] then 0
    else (if redemptions[0].buyer == buyer then 1 else 0) + UsesBy(redemptions[1..], buyer)
  }

  /** `_resolve_discount` once it holds the row; None when the code may be used. */
  function Refused(code: Code, redemptions: seq<Redemption>, buyer: nat, goods: int, now: int): Option<Refusal> {
    if !IsLive(code, now) then Some(NotLive)
    else if goods < code.minimumSpend then Some(BelowMinimum)
    else if code.maxUses.Some? && |redemptions| >= code.maxUses.value then Some(UsedUp)
    else if code.maxUsesPerBuyer.Some? && UsesBy(redemptions, buyer) >= code.maxUsesPerBuyer.value then
      Some(UsedByBuyer)
    else None
  }

  // ---------------------------------------------------------------------------
  // Steps and runs
  // ---------------------------------------------------------------------------

  datatype Step =
    | Tick(seconds: nat)
    | Begin(c: nat, buyer: nat, goods: int, preview: bool)
    | Lock(c: nat)
    | Check(c: nat)
    | Redeem(c: nat)
    | Commit(c: nat)
    | Rollback(c: nat)

  predicate At(s: System, c: nat) {
    c in s.checkouts
  }

  predicate Enabled(s: System, step: Step) {
    match step
    case Tick(_) => true
    case Begin(c, _, _, _) => !At(s, c)
    case Lock(c) => At(s, c) && s.checkouts[c].Waiting? && s.holder.None?
    case Check(c) => At(s, c) && s.checkouts[c].Locked?
    case Redeem(c) => At(s, c) && s.checkouts[c].Checked?
    case Commit(c) => At(s, c) && s.checkouts[c].Redeeming?
    case Rollback(c) => At(s, c) && !s.checkouts[c].Done?
  }

  function WithCheckout(s: System, c: nat, pc: Pc): System {
    s.(checkouts := s.checkouts[c := pc])
  }

  /** The end of a transaction gives the row back. */
  function Released(s: System, c: nat): System {
    WithCheckout(s.(holder := if s.holder == Some(c) then None else s.holder), c, Done)
  }

  function Next(s: System, step: Step): System
    requires Enabled(s, step)
  {
    match step
    case Tick(seconds) => s.(now := s.now + seconds)
    case Begin(c, buyer, goods, preview) => WithCheckout(s, c, Waiting(buyer, goods, preview))
    case Lock(c) =>
      var pc := s.checkouts[c];
      WithCheckout(s.(holder := Some(c)), c, Locked(pc.buyer, pc.goods, pc.preview))
    case Check(c) =>
      var pc := s.checkouts[c];
      if Refused(s.code, s.redemptions, pc.buyer, pc.goods, s.now).Some? || pc.preview then Released(s, c)
      else WithCheckout(s, c, Checked(pc.buyer))
    case Redeem(c) => WithCheckout(s, c, Redeeming(s.checkouts[c].buyer))
    case Commit(c) => Released(s.(redemptions := s.redemptions + [Redemption(s.checkouts[c].buyer, c)]), c)
    case Rollback(c) => Released(s, c)
  }

  function NewCode(code: Code, now: int): System {
    System(code, now, [], None, map[])
  }

  // ---------------------------------------------------------------------------
  // The limits hold
  // ---------------------------------------------------------------------------

  /** One more use, by this buyer, is still within the limits. */
  predicate RoomFor(s: System, buyer: nat) {
    && (s.code.maxUses.Some? ==> |s.redemptions| < s.code.maxUses.value)
    && (s.code.maxUsesPerBuyer.Some? ==> UsesBy(s.redemptions, buyer) < s.code.maxUsesPerBuyer.value)
  }

  /** Past its check a checkout holds the row, and the check still stands. */
  predicate PcFits(s: System, c: nat)
    requires At(s, c)
  {
    match s.checkouts[c]
    case Waiting(_, _, _) => true
    case Locked(_, _, _) => s.holder == Some(c)
    case Checked(buyer) => s.holder == Some(c) && RoomFor(s, buyer)
    case Redeeming(buyer) => s.holder == Some(c) && RoomFor(s, buyer)
    case Done => s.holder != Some(c)
  }

  ghost predicate WithinLimits(s: System) {
    && (s.code.maxUses.Some? ==> |s.redemptions| <= s.code.maxUses.value)
    && (s.code.maxUsesPerBuyer.Some? ==> forall b :: UsesBy(s.redemptions, b) <= s.code.maxUsesPerBuyer.value)
  }

  ghost predicate OneEach(s: System) {
    && (forall i, j :: 0 <= i < j < |s.redemptions| ==> s.redemptions[i].checkout != s.redemptions[j].checkout)
    && (forall i :: 0 <= i < |s.redemptions| ==>
          At(s, s.redemptions[i].checkout) && s.checkouts[s.redemptions[i].checkout].Done?)
  }

  /** Whoever holds the row is at work. */
  predicate HolderAtWork(s: System) {
    s.holder.Some? ==>
      && At(s, s.holder.value)
      && !s.checkouts[s.holder.value].Waiting? && !s.checkouts[s.holder.value].Done?
  }

  ghost predicate Inv(s: System) {
    WithinLimits(s) && OneEach(s) && HolderAtWork(s) && forall c :: At(s, c) ==> PcFits(s, c)
  }

  lemma {:induction false} UsesBySnoc(redemptions: seq<Redemption>, r: Redemption, buyer: nat)
    ensures UsesBy(redemptions + [r], buyer) == UsesBy(redemptions, buyer) + if r.buyer == buyer then 1 else 0
  {
    if redemptions == [] {
      assert redemptions + [r] == [r];
    } else {
      UsesBySnoc(redemptions[1..], r, buyer);
      assert (redemptions + [r])[1..] == redemptions[1..] + [r];
    }
  }

  lemma CommitInv(s: System, c: nat)
    requires Inv(s) && Enabled(s, Commit(c))
    ensures Inv(Next(s, Commit(c)))
  {
    assert PcFits(s, c);
    var t := Next(s, Commit(c));
    forall b: nat
      ensures UsesBy(t.redemptions, b) == UsesBy(s.redemptions, b) + if s.checkouts[c].buyer == b then 1 else 0
    {
      UsesBySnoc(s.redemptions, Redemption(s.checkouts[c].buyer, c), b);
    }
    forall d | At(t, d) ensures PcFits(t, d) {
      assert PcFits(s, d);
    }
  }

  lemma StepInv(s: System, step: Step)
    requires Inv(s) && Enabled(s, step)
    ensures Inv(Next(s, step)) && Next(s, step).code == s.code
  {
    if step.Commit? {
      CommitInv(s, step.c);
    } else {
      var t := Next(s, step);
      forall d | At(t, d) ensures PcFits(t, d) {
        assert At(s, d) ==> PcFits(s, d);
        assert !step.Tick? && At(s, step.c) ==> PcFits(s, step.c);
      }
    }
  }

  lemma {:induction false} RunInv(s: System, steps: seq<Step>)
    requires Inv(s) && IsRun(Next, s, steps, AnyStep)
    ensures Inv(Run(Next, s, steps, AnyStep)) && Run(Next, s, steps, AnyStep).code == s.code
    decreases |steps|
  {
    if steps != [] {
      StepInv(s, steps[0]);
      RunInv(Next(s, steps[0]), steps[1..]);
    }
  }

  /**
   Whatever checkouts, previews and rollbacks interleave: committed redemptions never exceed `max_uses`, no buyer's
   exceed `max_uses_per_buyer`, and no checkout redeems twice.
   */
  lemma LimitsAlwaysHold(code: Code, now: int, steps: seq<Step>)
    requires IsRun(Next, NewCode(code, now), steps, AnyStep)
    ensures var r := Run(Next, NewCode(code, now), steps, AnyStep).redemptions;
            && (code.maxUses.Some? ==> |r| <= code.maxUses.value)
            && (code.maxUsesPerBuyer.Some? ==> forall b :: UsesBy(r, b) <= code.maxUsesPerBuyer.value)
            && forall i, j :: 0 <= i < j < |r| ==> r[i].checkout != r[j].checkout
  {
    RunInv(NewCode(code, now), steps);
  }

  // ---------------------------------------------------------------------------
  // Who can still redeem
  // ---------------------------------------------------------------------------

  predicate Redeemed(s: System, c: nat) {
    exists i :: 0 <= i < |s.redemptions| && s.redemptions[i].checkout == c
  }

  function Redeems(c: nat): System -> bool {
    (s: System) => Redeemed(s, c)
  }

  ghost predicate CanRedeem(s: System, c: nat) {
    CanReach(Next, s, AnyStep, Redeems(c))
  }

  /** Active, and live now or at some later time: the window is not empty and has not closed. */
  predicate Usable(code: Code, now: int) {
    && code.active
    && (code.validUntil.Some? ==>
          now <= code.validUntil.value && (code.validFrom.Some? ==> code.validFrom.value <= code.validUntil.value))
  }

  /** How long until the code opens. */
  function Wait(code: Code, now: int): nat {
    if code.validFrom.Some? && now < code.validFrom.value then code.validFrom.value - now else 0
  }

  /** It waits for the code to open, then takes the row. */
  lemma FreeRowRedeems(s: System, c: nat, buyer: nat, goods: int)
    requires At(s, c) && s.checkouts[c] == Waiting(buyer, goods, false) && s.holder.None?
    requires Usable(s.code, s.now) && goods >= s.code.minimumSpend && RoomFor(s, buyer)
    ensures CanRedeem(s, c)
  {
    var s1 := Next(s, Tick(Wait(s.code, s.now)));
    var s2 := Next(s1, Lock(c));
    var s3 := Next(s2, Check(c));
    var s4 := Next(s3, Redeem(c));
    var s5 := Next(s4, Commit(c));
    assert s5.redemptions[|s5.redemptions| - 1].checkout == c;
    ReachNow(Next, s5, AnyStep, Redeems(c));
    ReachNext(Next, s4, Commit(c), AnyStep, Redeems(c));
    ReachNext(Next, s3, Redeem(c), AnyStep, Redeems(c));
    ReachNext(Next, s2, Check(c), AnyStep, Redeems(c));
    ReachNext(Next, s1, Lock(c), AnyStep, Redeems(c));
    ReachNext(Next, s, Tick(Wait(s.code, s.now)), AnyStep, Redeems(c));
  }

  /** A preview that has redeemed nothing and is still at, or past, its check. */
  ghost predicate Previewing(s: System, c: nat, buyer: nat, goods: int) {
    && At(s, c) && !Redeemed(s, c)
    && s.checkouts[c] in {Done, Waiting(buyer, goods, true), Locked(buyer, goods, true)}
  }

  lemma PreviewingStep(s: System, c: nat, buyer: nat, goods: int, step: Step)
    requires Previewing(s, c, buyer, goods) && Enabled(s, step)
    ensures Previewing(Next(s, step), c, buyer, goods)
  {
    var t := Next(s, step);
    if step.Commit? {
      forall i | 0 <= i < |t.redemptions| ensures t.redemptions[i].checkout != c {
        assert i < |s.redemptions| ==> t.redemptions[i] == s.redemptions[i];
      }
    }
  }

  /** A preview takes the lock and makes the check, and whatever comes of it redeems nothing. */
  lemma {:induction false} PreviewNeverRedeems(s: System, c: nat, buyer: nat, goods: int, steps: seq<Step>)
    requires Previewing(s, c, buyer, goods) && IsRun(Next, s, steps, AnyStep)
    ensures !Redeemed(Run(Next, s, steps, AnyStep), c)
    decreases |steps|
  {
    if steps != [] {
      assert Enabled(s, steps[0]);
      PreviewingStep(s, c, buyer, goods, steps[0]);
      PreviewNeverRedeems(Next(s, steps[0]), c, buyer, goods, steps[1..]);
    }
  }

  /** Before its check and not redeemed, with no use left for this checkout now or later. */
  ghost predicate Barred(s: System, c: nat, buyer: nat, goods: int) {
    && At(s, c) && !Redeemed(s, c)
    && s.checkouts[c] in {Done, Waiting(buyer, goods, false), Locked(buyer, goods, false)}
    && (!Usable(s.code, s.now) || goods < s.code.minimumSpend || !RoomFor(s, buyer))
  }

  lemma BarredStep(s: System, c: nat, buyer: nat, goods: int, step: Step)
    requires Barred(s, c, buyer, goods) && Enabled(s, step)
    ensures Barred(Next(s, step), c, buyer, goods)
  {
    var t := Next(s, step);
    if step.Commit? {
      UsesBySnoc(s.redemptions, Redemption(s.checkouts[step.c].buyer, step.c), buyer);
      forall i | 0 <= i < |t.redemptions| ensures t.redemptions[i].checkout != c {
        assert i < |s.redemptions| ==> t.redemptions[i] == s.redemptions[i];
      }
    }
  }

  lemma {:induction false} BarredRun(s: System, c: nat, buyer: nat, goods: int, steps: seq<Step>)
    requires Barred(s, c, buyer, goods) && IsRun(Next, s, steps, AnyStep)
    ensures !Redeemed(Run(Next, s, steps, AnyStep), c)
    decreases |steps|
  {
    if steps != [] {
      BarredStep(s, c, buyer, goods, steps[0]);
      BarredRun(Next(s, steps[0]), c, buyer, goods, steps[1..]);
    }
  }

  /**
   The limits are reached and not undershot: a checkout that waits for the code can still redeem it exactly when the
   code is or will be live, the goods reach the minimum spend, and committed redemptions leave room for its buyer,
   whoever holds the row meanwhile.
   */
  lemma CanRedeemIff(s: System, c: nat, buyer: nat, goods: int)
    requires Inv(s) && At(s, c) && s.checkouts[c] == Waiting(buyer, goods, false)
    ensures CanRedeem(s, c) <==> Usable(s.code, s.now) && goods >= s.code.minimumSpend && RoomFor(s, buyer)
  {
    if Usable(s.code, s.now) && goods >= s.code.minimumSpend && RoomFor(s, buyer) {
      if s.holder.None? {
        FreeRowRedeems(s, c, buyer, goods);
      } else {
        FreeRowRedeems(Next(s, Rollback(s.holder.value)), c, buyer, goods);
        ReachNext(Next, s, Rollback(s.holder.value), AnyStep, Redeems(c));
      }
    } else {
      forall i | 0 <= i < |s.redemptions| ensures s.redemptions[i].checkout != c {
        assert At(s, s.redemptions[i].checkout) && s.checkouts[s.redemptions[i].checkout].Done?;
      }
      forall steps | IsRun(Next, s, steps, AnyStep) ensures !Redeemed(Run(Next, s, steps, AnyStep), c) {
        BarredRun(s, c, buyer, goods, steps);
      }
    }
  }
}
