/** What each supplier is owed for a paid order (`_create_payouts` in apps/payments/services.py). */
module PayoutSplit {
  import opened Results
  import opened Sums
  import opened Rounding
  import opened Allocation
  import opened Pricing
  import opened PricingProofs

  datatype Funding = PLATFORM | SUPPLIER

  datatype PayoutAmounts = PayoutAmounts(gross: int, fee: int, net: int)

  /** 100%, in hundredths of a percent. */
  const FULL_RATE: nat := 10000

  function CommissionBase(sub: SubPricing, funding: Funding): int {
    if funding == PLATFORM then sub.goods else sub.goods - sub.discount
  }

  function SupplierShipping(sub: SubPricing): int {
    if sub.supplier.mode == SUPPLIER_SHIP then sub.shipping else 0
  }

  /** `commission_rate or default`: a zero rate falls back to the platform default. */
  function FeeRate(sub: SubPricing, defaultRate: nat): nat {
    if sub.supplier.commission != 0 then sub.supplier.commission else defaultRate
  }

  function PayoutFor(sub: SubPricing, funding: Funding, defaultRate: nat): PayoutAmounts {
    var base := CommissionBase(sub, funding);
    var gross := base + SupplierShipping(sub);
    var fee := HalfEven(base * FeeRate(sub, defaultRate), FULL_RATE);
    PayoutAmounts(gross, fee, gross - fee)
  }

  method CreatePayouts(subs: seq<SubPricing>, funding: Funding, defaultRate: nat) returns (payouts: seq<PayoutAmounts>)
    ensures payouts == PayoutsFor(subs, funding, defaultRate)
  {
    payouts := [];
    for j := 0 to |subs|
      invariant |payouts| == j && forall p :: 0 <= p < j ==> payouts[p] == PayoutFor(subs[p], funding, defaultRate)
    {
      var base := if funding == PLATFORM then subs[j].goods else subs[j].goods - subs[j].discount;
      var supplierShipping := if subs[j].supplier.mode == SUPPLIER_SHIP then subs[j].shipping else 0;
      var gross := base + supplierShipping;
      var rate := if subs[j].supplier.commission != 0 then subs[j].supplier.commission else defaultRate;
      var fee := HalfEven(base * rate, FULL_RATE);
      payouts := payouts + [PayoutAmounts(gross, fee, gross - fee)];
    }
  }

  function PayoutsFor(subs: seq<SubPricing>, funding: Funding, defaultRate: nat): (r: seq<PayoutAmounts>)
    ensures |r| == |subs|
  {
    seq(|subs|, j requires 0 <= j < |subs| => PayoutFor(subs[j], funding, defaultRate))
  }

  lemma RateWithin(base: int, rate: nat)
    requires 0 <= base && rate <= FULL_RATE
    ensures 0 <= HalfEven(base * rate, FULL_RATE) <= base
  {
    HalfEvenNearest(base * rate, FULL_RATE);
    MulMono(base, 0, rate);
    MulMono(base, rate, FULL_RATE);
    NearestBetween(HalfEven(base * rate, FULL_RATE), base * rate, FULL_RATE, 0, base);
  }

  /** A commission of at most 100% never exceeds its base, so shipping always reaches the supplier whole. */
  lemma FeeWithinBase(sub: SubPricing, funding: Funding, defaultRate: nat)
    requires sub.discount <= sub.goods && FeeRate(sub, defaultRate) <= FULL_RATE
    ensures var p := PayoutFor(sub, funding, defaultRate);
            && 0 <= p.fee <= CommissionBase(sub, funding)
            && p.net >= SupplierShipping(sub) >= 0
  {
    RateWithin(CommissionBase(sub, funding), FeeRate(sub, defaultRate));
  }

  /** A supplier agreed at a zero rate pays nothing only while the default rate rounds to nothing. */
  lemma ZeroRateIsFreeIff(sub: SubPricing, funding: Funding, defaultRate: nat)
    requires sub.supplier.commission == 0 && 0 <= CommissionBase(sub, funding)
    ensures PayoutFor(sub, funding, defaultRate).fee == 0 <==>
            2 * (CommissionBase(sub, funding) * defaultRate) <= FULL_RATE
  {
    var num := CommissionBase(sub, funding) * defaultRate;
    MulMono(CommissionBase(sub, funding), 0, defaultRate);
    HalfEvenNearest(num, FULL_RATE);
    assert num >= 0;
    DivMod(num, FULL_RATE);
  }

  /** The payout due: whose rate is charged, on what, and how fee and net add up. */
  ghost predicate IsDue(p: PayoutAmounts, sub: SubPricing, funding: Funding, defaultRate: nat) {
    var base := if funding == SUPPLIER then sub.goods - sub.discount else sub.goods;
    && base >= 0
    && (sub.supplier.commission != 0 ==> NearestEven(p.fee, base * sub.supplier.commission, 10000))
    && (sub.supplier.commission == 0 ==> NearestEven(p.fee, base * defaultRate, 10000))
    && p.gross == p.fee + p.net
    && p.gross == base + if sub.supplier.mode == SUPPLIER_SHIP then sub.shipping else 0
  }

  lemma PayoutForIs(sub: SubPricing, funding: Funding, defaultRate: nat)
    requires 0 <= sub.discount <= sub.goods
    ensures IsDue(PayoutFor(sub, funding, defaultRate), sub, funding, defaultRate)
  {
    HalfEvenIs(CommissionBase(sub, funding) * FeeRate(sub, defaultRate), FULL_RATE);
  }

  lemma SuppliersPart(groups: seq<Group>, code: Option<DiscountCode>, j: nat)
    requires j < |groups|
    ensures var subs := PriceOrder(groups, code).subs;
            && |subs| == |groups| && subs[j].supplier == groups[j].supplier
            && 0 <= subs[j].discount <= subs[j].goods
  {
    DiscountsCompose(groups, code);
    SubOrderIs(groups, code, j);
  }

  /**
   Each payout of a priced order. Its base is the goods, less the discount unless the platform funds that. The fee is
   the supplier's own commission on the base, or the default where none is agreed, to the nearest penny; fee and net
   make up the base and, when the supplier delivers, the shipping.
   */
  lemma PayoutIs(groups: seq<Group>, code: Option<DiscountCode>, funding: Funding, defaultRate: nat, j: nat)
    requires j < |groups|
    ensures var subs := PriceOrder(groups, code).subs;
            && |PayoutsFor(subs, funding, defaultRate)| == |groups| == |subs|
            && subs[j].supplier == groups[j].supplier
            && IsDue(PayoutsFor(subs, funding, defaultRate)[j], subs[j], funding, defaultRate)
  {
    SuppliersPart(groups, code, j);
    PayoutForIs(PriceOrder(groups, code).subs[j], funding, defaultRate);
  }

  function FeeAndNet(): PayoutAmounts -> int {
    (p: PayoutAmounts) => p.fee + p.net
  }

  /** Delivery money the platform keeps because it brokers the courier. */
  function PlatformDelivery(): SubPricing -> int {
    (s: SubPricing) => if s.supplier.mode == SUPPLIER_SHIP then 0 else s.shipping
  }

  lemma {:induction false} PayoutsConserve(subs: seq<SubPricing>, funding: Funding, defaultRate: nat)
    requires forall s :: s in subs ==> s.total == s.goods - s.discount + s.shipping
    ensures var p := Summed(subs);
            SumBy(PayoutsFor(subs, funding, defaultRate), FeeAndNet())
            == p.total - SumBy(subs, PlatformDelivery()) + if funding == PLATFORM then p.discount else 0
  {
    if subs != [] {
      PayoutsConserve(subs[1..], funding, defaultRate);
      var (all, rest) := (PayoutsFor(subs, funding, defaultRate), PayoutsFor(subs[1..], funding, defaultRate));
      assert all == [PayoutFor(subs[0], funding, defaultRate)] + rest;
      assert subs[0] in subs;
    }
  }

  /**
   From pricing to payout, order-wide: fees and supplier nets together are the money charged, less the
   delivery fees the platform keeps, plus the discount when the platform funds it.
   */
  lemma OrderMoneyConserved(groups: seq<Group>, code: Option<DiscountCode>, funding: Funding, defaultRate: nat)
    ensures var p := PriceOrder(groups, code);
            SumBy(PayoutsFor(p.subs, funding, defaultRate), FeeAndNet())
            == p.total - SumBy(p.subs, PlatformDelivery())
               + if funding == PLATFORM then OrderDiscount(groups, code) else 0
  {
    DiscountsCompose(groups, code);
    PayoutsConserve(PriceOrder(groups, code).subs, funding, defaultRate);
  }

  /** For every sub-order of a priced order, a legal commission leaves fee and net within their bounds. */
  lemma OrderFeesWithinBase(groups: seq<Group>, code: Option<DiscountCode>, funding: Funding, defaultRate: nat, j: nat)
    requires j < |groups| && defaultRate <= FULL_RATE && groups[j].supplier.commission <= FULL_RATE
    ensures var sub := PriceOrder(groups, code).subs[j];
            var p := PayoutFor(sub, funding, defaultRate);
            0 <= p.fee <= CommissionBase(sub, funding) && p.net >= SupplierShipping(sub)
  {
    DiscountsCompose(groups, code);
    FeeWithinBase(PriceOrder(groups, code).subs[j], funding, defaultRate);
  }
}
