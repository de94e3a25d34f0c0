/** Among all ways to split a total into whole pence, the largest-remainder split is closest to the exact shares. */
module AllocationOptimality {
  import opened Sums
  import opened Rounding
  import opened Allocation

  function Abs(x: int): nat {
    if x < 0 then -x else x
  }

  /** Distance, over the weight sum, of giving bucket `k` the amount `q[k]` from its exact share. */
  function Deviation(total: nat, weights: seq<nat>, q: seq<int>): nat -> int
    requires |q| == |weights|
  {
    (k: nat) => if k < |weights| then Abs(Total(weights) * q[k] - total * weights[k]) else 0
  }

  function Surplus(q: seq<int>, parts: seq<nat>, price: int): nat -> int
    requires |q| == |parts|
  {
    (k: nat) => if k < |parts| then price * (q[k] - parts[k]) else 0
  }

  /** An unlucky bucket, at its floor: moving by `d` pence at price sum - 2 * theta never pays. */
  lemma FloorPriced(sum: int, r: int, theta: int, d: int)
    requires 0 <= r <= theta < sum
    ensures Abs(sum * d - r) >= r + (sum - 2 * theta) * d
  {
    assert (sum - 2 * theta) * d == sum * d - 2 * (theta * d);
    if d >= 1 {
      MulMono(sum, 1, d);
      MulMono(theta, 1, d);
    } else {
      MulMono(sum, d, 0);
      MulMono(sum - theta, d, 0);
      assert (sum - theta) * d == sum * d - theta * d;
    }
  }

  /** A lucky bucket, at its ceiling. */
  lemma CeilingPriced(sum: int, r: int, theta: int, d: int)
    requires 0 <= theta <= r < sum
    ensures Abs(sum * d - r) >= (sum - r) + (sum - 2 * theta) * (d - 1)
  {
    assert (sum - 2 * theta) * (d - 1) == sum * d - sum - 2 * (theta * d) + 2 * theta;
    if d >= 1 {
      MulMono(sum, 1, d);
      MulMono(theta, 1, d);
    } else {
      MulMono(sum, d, 0);
      MulMono(sum - theta, d, 0);
      assert (sum - theta) * d == sum * d - theta * d;
    }
  }

  /** A remainder that separates the lucky buckets from the others. */
  lemma Threshold(total: nat, weights: seq<nat>) returns (theta: nat)
    requires Total(weights) > 0
    ensures theta < Total(weights)
    ensures forall k: nat :: k < |weights| ==>
              var r := Remainder(total, Total(weights), weights[k]);
              if k in Lucky(total, weights) then r >= theta else r <= theta
  {
    LeftoverBound(total, weights);
    var rems := Remainders(total, weights);
    var (order, left) := (Order(rems, |rems|), Leftover(total, weights));
    assert order[left] in order;
    theta := rems[order[left]];
    forall k: nat | k < |weights|
      ensures if k in Lucky(total, weights) then rems[k] >= theta else rems[k] <= theta
    {
      var a := PositionOf(rems, k);
      LuckyIff(total, weights, a);
      if a < left {
        assert Ahead(rems, order[a], order[left]);
      } else if a > left {
        assert Ahead(rems, order[left], order[a]);
      }
    }
  }

  lemma PenniesPriced(sum: int, f: int, r: int, theta: int, q: int, lucky: bool)
    requires 0 <= r < sum && 0 <= theta < sum && (if lucky then r >= theta else r <= theta)
    ensures var (exact, part) := (sum * f + r, if lucky then f + 1 else f);
            Abs(sum * q - exact) >= Abs(sum * part - exact) + (sum - 2 * theta) * (q - part)
  {
    assert sum * q == sum * f + sum * (q - f);
    if lucky {
      CeilingPriced(sum, r, theta, q - f);
      assert sum * (f + 1) == sum * f + sum;
    } else {
      FloorPriced(sum, r, theta, q - f);
    }
  }

  lemma BucketPriced(total: nat, weights: seq<nat>, q: seq<int>, theta: nat, k: nat)
    requires Total(weights) > 0 && |q| == |weights| && k < |weights| && theta < Total(weights)
    requires var r := Remainder(total, Total(weights), weights[k]);
             if k in Lucky(total, weights) then r >= theta else r <= theta
    ensures var parts := Allocate(total, weights);
            Deviation(total, weights, q)(k)
            >= Deviation(total, weights, parts)(k) + Surplus(q, parts, Total(weights) - 2 * theta)(k)
  {
    var (sum, w) := (Total(weights), weights[k]);
    PenniesPriced(sum, FloorShare(total, sum, w), Remainder(total, sum, w), theta, q[k], k in Lucky(total, weights));
  }

  lemma {:induction false} SumByAtLeast(s: seq<nat>, a: nat -> int, b: nat -> int, c: nat -> int)
    requires forall k: nat :: k in s ==> a(k) >= b(k) + c(k)
    ensures SumBy(s, a) >= SumBy(s, b) + SumBy(s, c)
  {
    if s != [] {
      assert s[0] in s;
      SumByAtLeast(s[1..], a, b, c);
    }
  }

  function Id(): int -> int {
    (x: int) => x
  }

  function Scaled(price: int, f: nat -> int): nat -> int {
    (k: nat) => price * f(k)
  }

  lemma {:induction false} SumByScaled(s: seq<nat>, price: int, f: nat -> int)
    ensures SumBy(s, Scaled(price, f)) == price * SumBy(s, f)
  {
    if s == [] {
      assert price * 0 == 0;
    } else {
      SumByScaled(s[1..], price, f);
      assert price * (f(s[0]) + SumBy(s[1..], f)) == price * f(s[0]) + price * SumBy(s[1..], f);
    }
  }

  function At(q: seq<int>): nat -> int {
    (k: nat) => if k < |q| then q[k] else 0
  }

  /** Two splits of the same total differ by nothing in sum, at whatever price per penny. */
  lemma SurplusVanishes(q: seq<int>, parts: seq<nat>, price: int)
    requires |q| == |parts| && SumBy(q, Id()) == SumBy(parts, Self())
    ensures SumBy(Indices(|q|), Surplus(q, parts, price)) == 0
  {
    var all := Indices(|q|);
    var gap := (k: nat) => if k < |parts| then q[k] - parts[k] else 0;
    var partAt := (k: nat) => if k < |parts| then parts[k] else 0;
    SumByPointwise(all, Surplus(q, parts, price), Scaled(price, gap));
    SumByScaled(all, price, gap);
    SumByAligned(all, q, At(q), Id());
    SumByAligned(all, parts, partAt, Self());
    SumByLinear(all, gap, partAt, At(q));
    assert price * 0 == 0;
  }

  /**
   Optimality: no split of the same total into whole pence, negative amounts included, has a smaller
   total distance from the exact proportional shares.
   */
  lemma AllocationIsClosest(total: nat, weights: seq<nat>, q: seq<int>)
    requires Total(weights) > 0 && |q| == |weights| && SumBy(q, Id()) == total
    ensures var all := Indices(|weights|);
            SumBy(all, Deviation(total, weights, Allocate(total, weights))) <= SumBy(all, Deviation(total, weights, q))
  {
    var (all, parts) := (Indices(|weights|), Allocate(total, weights));
    var theta := Threshold(total, weights);
    var price := Total(weights) - 2 * theta;
    forall k: nat | k in all
      ensures Deviation(total, weights, q)(k) >= Deviation(total, weights, parts)(k) + Surplus(q, parts, price)(k)
    {
      BucketPriced(total, weights, q, theta, k);
    }
    SumByAtLeast(all, Deviation(total, weights, q), Deviation(total, weights, parts), Surplus(q, parts, price));
    AllocateSums(total, weights);
    SurplusVanishes(q, parts, price);
  }
}
