/** Largest-remainder allocation (`allocate_largest_remainder` in apps/orders/pricing.py), in pence. */
module Allocation {
  import opened Sums
  import opened Rounding

  function Self(): nat -> int {
    (w: nat) => w
  }

  function Total(weights: seq<nat>): (t: nat) {
    SumByNonNegative(weights, Self());
    SumBy(weights, Self())
  }

  /** Whole pence of the exact share total * w / sum. */
  function FloorShare(total: nat, sum: nat, w: nat): (r: nat)
    requires sum > 0
  {
    total * w / sum
  }

  /** Numerator of the exact share's fractional part, over `sum`. */
  function Remainder(total: nat, sum: nat, w: nat): (r: nat)
    requires sum > 0
    ensures r < sum
    ensures total * w == sum * FloorShare(total, sum, w) + r
  {
    DivMod(total * w, sum);
    total * w % sum
  }

  function FloorOf(total: nat, sum: nat): nat -> int
    requires sum > 0
  {
    (w: nat) => FloorShare(total, sum, w)
  }

  function RemainderOf(total: nat, sum: nat): nat -> int
    requires sum > 0
  {
    (w: nat) => Remainder(total, sum, w)
  }

  function Remainders(total: nat, weights: seq<nat>): (r: seq<nat>)
    requires Total(weights) > 0
    ensures |r| == |weights|
    ensures forall i :: 0 <= i < |weights| ==> r[i] == Remainder(total, Total(weights), weights[i])
  {
    seq(|weights|, i requires 0 <= i < |weights| => Remainder(total, Total(weights), weights[i]))
  }

  // ---------------------------------------------------------------------------
  // The stable descending order of the remainders
  // ---------------------------------------------------------------------------

  /** Strictly ahead in `sorted(range(n), key=remainder, reverse=True)`, which keeps ties in order. */
  predicate Ahead(rems: seq<nat>, i: nat, j: nat) {
    i < |rems| && j < |rems| && (rems[i] > rems[j] || (rems[i] == rems[j] && i < j))
  }

  predicate Below(order: seq<nat>, i: nat) {
    forall a :: 0 <= a < |order| ==> order[a] < i
  }

  function Insert(order: seq<nat>, i: nat, rems: seq<nat>): (r: seq<nat>)
    requires i < |rems| && Below(order, i)
    ensures |r| == |order| + 1
  {
    if order == [] || rems[order[0]] < rems[i] then [i] + order
    else [order[0]] + Insert(order[1..], i, rems)
  }

  ghost predicate Sorted(order: seq<nat>, rems: seq<nat>) {
    forall a, b :: 0 <= a < b < |order| ==> Ahead(rems, order[a], order[b])
  }

  lemma {:induction false} InsertSorts(order: seq<nat>, i: nat, rems: seq<nat>)
    requires i < |rems| && Below(order, i) && Sorted(order, rems)
    ensures var r := Insert(order, i, rems);
            Sorted(r, rems) && forall k: nat :: k in r <==> k in order || k == i
  {
    var r := Insert(order, i, rems);
    if order == [] {
    } else if rems[order[0]] < rems[i] {
      forall a, b | 0 <= a < b < |r| ensures Ahead(rems, r[a], r[b]) {
        assert a > 0 ==> Ahead(rems, order[a - 1], order[b - 1]);
        assert b > 1 ==> Ahead(rems, order[0], order[b - 1]);
      }
    } else {
      var (head, rest) := (order[0], order[1..]);
      assert forall a, b :: 0 <= a < b < |rest| ==> Ahead(rems, rest[a], rest[b]) by {
        forall a, b | 0 <= a < b < |rest| ensures Ahead(rems, rest[a], rest[b]) {
          assert Ahead(rems, order[a + 1], order[b + 1]);
        }
      }
      InsertSorts(rest, i, rems);
      var t := Insert(rest, i, rems);
      forall k: nat | k in t ensures Ahead(rems, head, k) {
        if k != i {
          var b :| 0 <= b < |rest| && rest[b] == k;
          assert Ahead(rems, order[0], order[b + 1]);
        }
      }
      forall a, b | 0 <= a < b < |r| ensures Ahead(rems, r[a], r[b]) {
        assert r[b] == t[b - 1] && t[b - 1] in t;
        assert a > 0 ==> Ahead(rems, t[a - 1], t[b - 1]);
      }
    }
  }

  /** The first `n` indices, in the order in which they receive a leftover penny. */
  function Order(rems: seq<nat>, n: nat): (r: seq<nat>)
    requires n <= |rems|
    ensures |r| == n && Sorted(r, rems)
    ensures forall k: nat :: k in r <==> k < n
  {
    if n == 0 then []
    else
      var r := Order(rems, n - 1);
      assert Below(r, n - 1) by {
        forall a | 0 <= a < |r| ensures r[a] < n - 1 {
          assert r[a] in r;
        }
      }
      InsertSorts(r, n - 1, rems);
      Insert(r, n - 1, rems)
  }

  function Indices(n: nat): (r: seq<nat>)
    ensures |r| == n && forall i :: 0 <= i < n ==> r[i] == i
  {
    seq(n, i => i)
  }

  lemma OrderDistinct(rems: seq<nat>)
    ensures var order := Order(rems, |rems|);
            Distinct(order) && forall a :: 0 <= a < |order| ==> order[a] < |rems|
  {
    var order := Order(rems, |rems|);
    forall a, b | 0 <= a < b < |order| ensures order[a] != order[b] {
      assert Ahead(rems, order[a], order[b]);
    }
    forall a | 0 <= a < |order| ensures order[a] < |rems| {
      assert order[a] in order;
    }
  }

  /** Summing over the order is summing over the positions. */
  lemma OrderReindexes(rems: seq<nat>, f: nat -> int)
    ensures SumBy(Order(rems, |rems|), f) == SumBy(Indices(|rems|), f)
  {
    var (order, all) := (Order(rems, |rems|), Indices(|rems|));
    forall k: nat | k < |rems| ensures k in all {
      assert all[k] == k;
    }
    OrderDistinct(rems);
    SumBySameKeys(order, all, f);
  }

  function One(): nat -> int {
    (k: nat) => 1
  }

  lemma {:induction false} SumOfOnes(s: seq<nat>)
    ensures SumBy(s, One()) == |s|
  {
    if s != [] {
      SumOfOnes(s[1..]);
    }
  }

  // ---------------------------------------------------------------------------
  // The leftover
  // ---------------------------------------------------------------------------

  function Leftover(total: nat, weights: seq<nat>): int
    requires Total(weights) > 0
  {
    total - SumBy(weights, FloorOf(total, Total(weights)))
  }

  lemma {:induction false} SharesSum(total: nat, sum: nat, weights: seq<nat>)
    requires sum > 0
    ensures sum * SumBy(weights, FloorOf(total, sum)) + SumBy(weights, RemainderOf(total, sum))
         == total * SumBy(weights, Self())
  {
    if weights == [] {
      assert sum * 0 == 0 && total * 0 == 0;
    } else {
      var (w, rest) := (weights[0], weights[1..]);
      SharesSum(total, sum, rest);
      var f := SumBy(rest, FloorOf(total, sum));
      assert sum * (FloorShare(total, sum, w) + f) == sum * FloorShare(total, sum, w) + sum * f;
      assert total * (w + SumBy(rest, Self())) == total * w + total * SumBy(rest, Self());
    }
  }

  lemma {:induction false} RemaindersBelow(total: nat, sum: nat, weights: seq<nat>)
    requires sum > 0
    ensures 0 <= SumBy(weights, RemainderOf(total, sum)) <= |weights| * (sum - 1)
  {
    if weights == [] {
      assert 0 * (sum - 1) == 0;
    } else {
      RemaindersBelow(total, sum, weights[1..]);
      assert |weights| * (sum - 1) == (sum - 1) + |weights[1..]| * (sum - 1);
    }
  }

  lemma LeftoverTimesSum(total: nat, weights: seq<nat>)
    requires Total(weights) > 0
    ensures Total(weights) * Leftover(total, weights) == SumBy(weights, RemainderOf(total, Total(weights)))
  {
    var sum := Total(weights);
    var f := SumBy(weights, FloorOf(total, sum));
    SharesSum(total, sum, weights);
    assert sum * (total - f) == sum * total - sum * f;
  }

  /** A product within 0 .. n * (sum - 1) pins its other factor below n. */
  lemma FactorBound(sum: int, left: int, n: int)
    requires sum > 0 && n > 0 && 0 <= sum * left <= n * (sum - 1)
    ensures 0 <= left < n
  {
    assert n * (sum - 1) == sum * n - n;
    if left < 0 {
      MulMono(sum, left, -1);
    }
    if left >= n {
      MulMono(sum, n, left);
    }
  }

  /** There are fewer leftover pennies than buckets, so the bonus loop stays in range. */
  lemma LeftoverBound(total: nat, weights: seq<nat>)
    requires Total(weights) > 0
    ensures 0 <= Leftover(total, weights) < |weights|
  {
    LeftoverTimesSum(total, weights);
    RemaindersBelow(total, Total(weights), weights);
    assert weights != [];
    FactorBound(Total(weights), Leftover(total, weights), |weights|);
  }

  // ---------------------------------------------------------------------------
  // The allocation
  // ---------------------------------------------------------------------------

  /** The buckets that get an extra penny. */
  function Lucky(total: nat, weights: seq<nat>): (r: seq<nat>)
    requires Total(weights) > 0
  {
    LeftoverBound(total, weights);
    var rems := Remainders(total, weights);
    Order(rems, |rems|)[..Leftover(total, weights)]
  }

  function Bonus(lucky: seq<nat>): nat -> int {
    (k: nat) => if k in lucky then 1 else 0
  }

  function Allocate(total: nat, weights: seq<nat>): (parts: seq<nat>)
    ensures |parts| == |weights|
  {
    var sum := Total(weights);
    if sum == 0 then seq(|weights|, i => 0)
    else
      var lucky := Lucky(total, weights);
      seq(|weights|, i requires 0 <= i < |weights| =>
        FloorShare(total, sum, weights[i]) + if i in lucky then 1 else 0)
  }

  lemma {:induction false} IndicesReindex(weights: seq<nat>, f: nat -> int, g: nat -> int)
    requires forall i: nat :: i < |weights| ==> g(i) == f(weights[i])
    ensures SumBy(Indices(|weights|), g) == SumBy(weights, f)
  {
    SumByAligned(Indices(|weights|), weights, g, f);
  }

  /** Each lucky bucket gets one penny, and there are as many of them as leftover pennies. */
  lemma BonusesSum(total: nat, weights: seq<nat>)
    requires Total(weights) > 0
    ensures SumBy(Indices(|weights|), Bonus(Lucky(total, weights))) == Leftover(total, weights)
  {
    LeftoverBound(total, weights);
    var rems := Remainders(total, weights);
    var (order, left, lucky) := (Order(rems, |rems|), Leftover(total, weights), Lucky(total, weights));
    OrderReindexes(rems, Bonus(lucky));
    assert order == lucky + order[left..];
    SumByConcat(lucky, order[left..], Bonus(lucky));
    SumByPointwise(lucky, Bonus(lucky), One());
    SumOfOnes(lucky);
    forall k: nat | k in order[left..] ensures k !in lucky {
      var b :| left <= b < |order| && order[b] == k;
      forall a | 0 <= a < left ensures order[a] != k {
        assert Ahead(rems, order[a], order[b]);
      }
    }
    SumByPointwise(order[left..], Bonus(lucky), Zero());
    SumOfZeros(order[left..]);
  }

  function Zero(): nat -> int {
    (k: nat) => 0
  }

  lemma {:induction false} SumOfZeros(s: seq<nat>)
    ensures SumBy(s, Zero()) == 0
  {
    if s != [] {
      SumOfZeros(s[1..]);
    }
  }

  /** No penny is lost or invented, unless there is no bucket with weight to receive any. */
  lemma AllocateSums(total: nat, weights: seq<nat>)
    ensures SumBy(Allocate(total, weights), Self()) == if Total(weights) == 0 then 0 else total
  {
    var parts := Allocate(total, weights);
    if Total(weights) == 0 {
      SumByPointwise(parts, Self(), Zero());
      SumOfZeros(parts);
    } else {
      var (sum, lucky) := (Total(weights), Lucky(total, weights));
      var floorAt := (i: nat) => if i < |weights| then FloorShare(total, sum, weights[i]) else 0;
      var partAt := (i: nat) => floorAt(i) + Bonus(lucky)(i);
      BonusesSum(total, weights);
      IndicesReindex(weights, FloorOf(total, sum), floorAt);
      SumByLinear(Indices(|weights|), floorAt, Bonus(lucky), partAt);
      IndicesReindex(parts, Self(), partAt);
    }
  }

  // ---------------------------------------------------------------------------
  // Who gets the leftover
  // ---------------------------------------------------------------------------

  /** Past a zero remainder the descending order has only zeros. */
  lemma ZeroTail(rems: seq<nat>, order: seq<nat>, p: nat, remAt: nat -> int)
    requires Sorted(order, rems) && p < |order| && order[p] < |rems| && rems[order[p]] == 0
    requires forall k: nat :: k < |rems| ==> remAt(k) == rems[k]
    ensures SumBy(order, remAt) == SumBy(order[..p], remAt)
  {
    forall b | p < b < |order| ensures remAt(order[b]) == 0 {
      assert Ahead(rems, order[p], order[b]);
    }
    assert order == order[..p] + order[p..];
    SumByConcat(order[..p], order[p..], remAt);
    SumByPointwise(order[p..], remAt, Zero());
    SumOfZeros(order[p..]);
  }

  lemma TooFewRemainders(sum: int, left: int, p: int)
    requires sum > 0 && 0 <= p < left
    ensures sum * left > (sum - 1) * p
  {
    MulMono(sum, p + 1, left);
    assert sum * (p + 1) == sum * p + sum && (sum - 1) * p == sum * p - p;
  }

  /** Summed in descending order, the remainders are the leftover in units of the weight sum. */
  lemma RemaindersInOrder(total: nat, weights: seq<nat>, remAt: nat -> int)
    requires Total(weights) > 0
    requires forall k: nat :: k < |weights| ==> remAt(k) == Remainders(total, weights)[k]
    ensures SumBy(Order(Remainders(total, weights), |weights|), remAt) == Total(weights) * Leftover(total, weights)
  {
    LeftoverTimesSum(total, weights);
    OrderReindexes(Remainders(total, weights), remAt);
    IndicesReindex(weights, RemainderOf(total, Total(weights)), remAt);
  }

  /** A lucky bucket has a fractional share: floor + 1 is then its ceiling. */
  lemma LuckyHasRemainder(total: nat, weights: seq<nat>, i: nat)
    requires Total(weights) > 0 && i < |weights| && i in Lucky(total, weights)
    ensures Remainder(total, Total(weights), weights[i]) > 0
  {
    LeftoverBound(total, weights);
    var (sum, left, rems) := (Total(weights), Leftover(total, weights), Remainders(total, weights));
    var order := Order(rems, |rems|);
    var p :| 0 <= p < left && order[p] == i;
    if rems[i] == 0 {
      var remAt := (k: nat) => if k < |rems| then rems[k] else 0;
      RemaindersInOrder(total, weights, remAt);
      ZeroTail(rems, order, p, remAt);
      SumByCapped(order[..p], remAt, sum - 1);
      TooFewRemainders(sum, left, p);
    }
  }

  lemma {:induction false} SumByCapped(s: seq<nat>, f: nat -> int, cap: nat)
    requires forall k: nat :: k in s ==> f(k) <= cap
    ensures SumBy(s, f) <= cap * |s|
  {
    if s == [] {
      assert cap * 0 == 0;
    } else {
      SumByCapped(s[1..], f, cap);
      assert cap * |s| == cap + cap * |s[1..]|;
    }
  }

  lemma PositionOf(rems: seq<nat>, k: nat) returns (a: nat)
    requires k < |rems|
    ensures a < |rems| && Order(rems, |rems|)[a] == k
  {
    var order := Order(rems, |rems|);
    assert k in order;
    a :| 0 <= a < |order| && order[a] == k;
  }

  lemma PrefixIsUpward(order: seq<nat>, rems: seq<nat>, left: nat, a: nat, b: nat)
    requires Sorted(order, rems) && left <= |order| && a < left && b < |order|
    requires Ahead(rems, order[b], order[a])
    ensures b < left
  {
  }

  lemma LuckyIff(total: nat, weights: seq<nat>, a: nat)
    requires Total(weights) > 0 && a < |weights|
    ensures var rems := Remainders(total, weights);
            Order(rems, |rems|)[a] in Lucky(total, weights) <==> a < Leftover(total, weights)
  {
    LeftoverBound(total, weights);
    var rems := Remainders(total, weights);
    var (order, left) := (Order(rems, |rems|), Leftover(total, weights));
    assert Lucky(total, weights) == order[..left];
    if a < left {
      assert order[..left][a] == order[a];
    } else {
      forall b | 0 <= b < left ensures order[b] != order[a] {
        assert Ahead(rems, order[b], order[a]);
      }
    }
  }

  /** Luck goes down the order: whoever is ahead of a lucky bucket is lucky too. */
  lemma LuckyIsUpward(total: nat, weights: seq<nat>, i: nat, j: nat)
    requires Total(weights) > 0 && i < |weights| && j < |weights|
    requires i in Lucky(total, weights) && Ahead(Remainders(total, weights), j, i)
    ensures j in Lucky(total, weights)
  {
    LeftoverBound(total, weights);
    var rems := Remainders(total, weights);
    var a := PositionOf(rems, i);
    var b := PositionOf(rems, j);
    LuckyIff(total, weights, a);
    LuckyIff(total, weights, b);
    PrefixIsUpward(Order(rems, |rems|), rems, Leftover(total, weights), a, b);
  }

  // ---------------------------------------------------------------------------
  // What each bucket gets
  // ---------------------------------------------------------------------------

  /** A part is the floor of its share, or one more when the share is not whole. */
  lemma PartIsFloorOrCeiling(total: nat, weights: seq<nat>, i: nat)
    requires Total(weights) > 0 && i < |weights|
    ensures var (sum, part, exact) := (Total(weights), Allocate(total, weights)[i], total * weights[i]);
            part == exact / sum || (part == exact / sum + 1 && exact % sum > 0)
  {
    if i in Lucky(total, weights) {
      LuckyHasRemainder(total, weights, i);
    }
  }

  lemma ShareBounds(total: nat, sum: nat, w: nat, part: int)
    requires sum > 0
    requires part == total * w / sum || (part == total * w / sum + 1 && total * w % sum > 0)
    ensures sum * (part - 1) < total * w < sum * (part + 1)
    ensures w == 0 ==> part == 0
  {
    var (f: int, r: int) := (FloorShare(total, sum, w), Remainder(total, sum, w));
    assert sum * (f + 1) == sum * f + sum && sum * (f - 1) == sum * f - sum && sum * (f + 2) == sum * f + 2 * sum;
    if w == 0 {
      assert total * w == 0;
    }
  }

  /** A whole weight caps its part when the total is at most the weight sum. */
  lemma ShareCap(total: nat, sum: nat, w: nat, part: int)
    requires 0 < sum && total <= sum
    requires sum * (part - 1) < total * w
    ensures part <= w
  {
    MulMono(w, total, sum);
    assert w * total == total * w && w * sum == sum * w;
    if part > w {
      MulMono(sum, w, part - 1);
    }
  }

  /**
   Each part is within a penny of its exact share on both sides, so it is the share's floor or ceiling; a
   zero weight gets nothing; and when the total is at most the weight sum no part exceeds its own weight.
   */
  lemma PartNearShare(total: nat, weights: seq<nat>, i: nat)
    requires Total(weights) > 0 && i < |weights|
    ensures var (sum, part, exact) := (Total(weights), Allocate(total, weights)[i], total * weights[i]);
            && sum * (part - 1) < exact < sum * (part + 1)
            && (exact % sum == 0 ==> part == exact / sum)
            && (weights[i] == 0 ==> part == 0)
            && (total <= sum ==> part <= weights[i])
  {
    var (sum, part) := (Total(weights), Allocate(total, weights)[i]);
    PartIsFloorOrCeiling(total, weights, i);
    ShareBounds(total, sum, weights[i], part);
    if total <= sum {
      ShareCap(total, sum, weights[i], part);
    }
  }

  /**
   Who is rounded up: nobody while a bucket with a larger fractional part of its share is not, nor, of buckets with the
   same fractional part, before an earlier one.
   */
  lemma LargestRemainderFirst(total: nat, weights: seq<nat>, i: nat, j: nat)
    requires Total(weights) > 0 && i < |weights| && j < |weights|
    requires var (ri, rj) := (total * weights[i] % Total(weights), total * weights[j] % Total(weights));
             ri > rj || (ri == rj && i < j)
    ensures Allocate(total, weights)[j] > total * weights[j] / Total(weights) ==>
              Allocate(total, weights)[i] > total * weights[i] / Total(weights)
  {
    if j in Lucky(total, weights) {
      LuckyIsUpward(total, weights, j, i);
    }
  }

  /** A larger weight has the larger floor, and behind an equal floor the larger remainder. */
  lemma SharesMonotone(total: nat, sum: nat, a: nat, b: nat)
    requires 0 < sum && 0 < total && a < b
    ensures FloorShare(total, sum, a) <= FloorShare(total, sum, b)
    ensures FloorShare(total, sum, a) == FloorShare(total, sum, b) ==>
              Remainder(total, sum, a) < Remainder(total, sum, b)
  {
    var (fa, fb) := (FloorShare(total, sum, a), FloorShare(total, sum, b));
    assert total * b == total * a + total * (b - a);
    MulMono(total, 1, b - a);
    assert sum * (fb + 1) == sum * fb + sum;
    if fa > fb {
      MulMono(sum, fb + 1, fa);
    }
  }

  /** A smaller weight never gets more; between equal weights the earlier bucket never gets less. */
  lemma AllocationMonotone(total: nat, weights: seq<nat>, i: nat, j: nat)
    requires i < |weights| && j < |weights|
    requires weights[i] < weights[j] || (weights[i] == weights[j] && j < i)
    ensures Allocate(total, weights)[i] <= Allocate(total, weights)[j]
  {
    var sum := Total(weights);
    if sum > 0 {
      if total == 0 {
        NothingToSplit(weights);
      } else {
        if weights[i] < weights[j] {
          SharesMonotone(total, sum, weights[i], weights[j]);
        }
        if i in Lucky(total, weights) && Ahead(Remainders(total, weights), j, i) {
          LuckyIsUpward(total, weights, i, j);
        }
      }
    }
  }

  // ---------------------------------------------------------------------------
  // As the code runs
  // ---------------------------------------------------------------------------

  /** One penny to each bucket of `order[..left]`, in place. */
  method AddBonuses(floors: array<nat>, order: seq<nat>, left: nat)
    requires left <= |order| && Distinct(order) && forall a :: 0 <= a < |order| ==> order[a] < floors.Length
    modifies floors
    ensures forall k: nat :: k < floors.Length ==> floors[k] == old(floors[k]) + Bonus(order[..left])(k)
  {
    for i := 0 to left
      invariant forall k: nat :: k < floors.Length ==> floors[k] == old(floors[k]) + Bonus(order[..i])(k)
    {
      floors[order[i]] := floors[order[i]] + 1;
      assert order[..i + 1] == order[..i] + [order[i]];
    }
  }

  method Floors(total: nat, weights: seq<nat>) returns (floors: array<nat>, rems: seq<nat>)
    requires Total(weights) > 0
    ensures fresh(floors) && floors.Length == |weights|
    ensures forall k :: 0 <= k < |weights| ==> floors[k] == FloorShare(total, Total(weights), weights[k])
    ensures rems == Remainders(total, weights)
  {
    var (n, totalWeight) := (|weights|, Total(weights));
    floors := new nat[n];
    rems := [];
    for i := 0 to n
      invariant |rems| == i
      invariant forall k :: 0 <= k < i ==> floors[k] == FloorShare(total, totalWeight, weights[k])
      invariant forall k :: 0 <= k < i ==> rems[k] == Remainder(total, totalWeight, weights[k])
    {
      floors[i] := total * weights[i] / totalWeight;
      rems := rems + [total * weights[i] % totalWeight];
    }
  }

  method AllocateLargestRemainder(total: nat, weights: seq<nat>) returns (parts: seq<nat>)
    ensures parts == Allocate(total, weights)
  {
    var n := |weights|;
    var totalWeight := Total(weights);
    if n == 0 || total == 0 || totalWeight == 0 {
      if totalWeight > 0 {
        NothingToSplit(weights);
      }
      return seq(n, i => 0);
    }
    var floors, rems := Floors(total, weights);
    ghost var base := floors[..];
    FloorsLeave(total, weights, base);
    var leftover := total - SumBy(floors[..], Self());
    var order := Order(rems, n);
    OrderDistinct(rems);
    AddBonuses(floors, order, leftover);
    parts := floors[..];
    Assembled(total, weights, base, parts);
  }

  lemma FloorsLeave(total: nat, weights: seq<nat>, base: seq<nat>)
    requires Total(weights) > 0 && |base| == |weights|
    requires forall k :: 0 <= k < |weights| ==> base[k] == FloorShare(total, Total(weights), weights[k])
    ensures 0 <= total - SumBy(base, Self()) == Leftover(total, weights) < |weights|
  {
    SumByAligned(base, weights, Self(), FloorOf(total, Total(weights)));
    LeftoverBound(total, weights);
  }

  lemma Assembled(total: nat, weights: seq<nat>, base: seq<nat>, parts: seq<nat>)
    requires Total(weights) > 0 && |base| == |parts| == |weights|
    requires forall k :: 0 <= k < |weights| ==> base[k] == FloorShare(total, Total(weights), weights[k])
    requires forall k: nat :: k < |weights| ==> parts[k] == base[k] + Bonus(Lucky(total, weights))(k)
    ensures parts == Allocate(total, weights)
  {
  }

  /** The early return on a zero total agrees with the general rule. */
  lemma NothingToSplit(weights: seq<nat>)
    requires Total(weights) > 0
    ensures Allocate(0, weights) == seq(|weights|, i => 0)
  {
    forall i: nat | i < |weights| ensures Allocate(0, weights)[i] == 0 {
      PartNearShare(0, weights, i);
      assert 0 * weights[i] == 0;
    }
  }
}
