/**
  The weighted scheduler for new sessions (pick_proxy) and the load estimate
  behind it. Weights are real numbers; float rounding is not modelled. The
  random number is an arbitrary draw in [0, 1).
*/
module Scheduler {
  import opened Common

  /** A member that may take a new session, with its effective weight. */
  datatype Candidate<+M> = Candidate(member: M, weight: real)

  function Total<M>(cs: seq<Candidate<M>>): real {
    if cs == [] then 0.0 else cs[0].weight + Total(cs[1..])
  }

  predicate AllPositive<M>(cs: seq<Candidate<M>>) {
    forall i :: 0 <= i < |cs| ==> cs[i].weight > 0.0
  }

  function Positive<M>(cs: seq<Candidate<M>>): (r: seq<Candidate<M>>)
    ensures AllPositive(r)
  {
    if cs == [] then [] else if cs[0].weight > 0.0 then [cs[0]] + Positive(cs[1..]) else Positive(cs[1..])
  }

  lemma {:induction false} PositiveMembers<M>(cs: seq<Candidate<M>>, c: Candidate<M>)
    ensures c in Positive(cs) <==> c in cs && c.weight > 0.0
  {
    if cs != [] {
      PositiveMembers(cs[1..], c);
      assert cs == [cs[0]] + cs[1..];
    }
  }

  /** Index k owns the threshold t: the weights before it stay below t, with its own they reach t. */
  predicate OwnsThreshold<M>(cs: seq<Candidate<M>>, k: int, t: real) {
    0 <= k < |cs| && Total(cs[..k]) < t <= Total(cs[..k + 1])
  }

  lemma {:induction false} TotalAppend<M>(cs: seq<Candidate<M>>, c: Candidate<M>)
    ensures Total(cs + [c]) == Total(cs) + c.weight
  {
    if cs == [] {
      assert cs + [c] == [c];
    } else {
      assert (cs + [c])[1..] == cs[1..] + [c];
      TotalAppend(cs[1..], c);
    }
  }

  lemma PrefixStep<M>(cs: seq<Candidate<M>>, k: nat)
    requires k < |cs|
    ensures Total(cs[..k + 1]) == Total(cs[..k]) + cs[k].weight
  {
    assert cs[..k + 1] == cs[..k] + [cs[k]];
    TotalAppend(cs[..k], cs[k]);
  }

  lemma {:induction false} PrefixMonotone<M>(cs: seq<Candidate<M>>, i: nat, j: nat)
    requires AllPositive(cs) && i <= j <= |cs|
    ensures Total(cs[..i]) <= Total(cs[..j])
    ensures i < j ==> Total(cs[..i]) < Total(cs[..j])
    decreases j
  {
    if i < j {
      PrefixStep(cs, j - 1);
      PrefixMonotone(cs, i, j - 1);
    }
  }

  /** The selecting intervals partition (0, total]: every threshold has one owner and only one. */
  lemma {:induction false} ThresholdHasOneOwner<M>(cs: seq<Candidate<M>>, t: real)
    requires AllPositive(cs) && 0.0 < t <= Total(cs)
    ensures exists k :: OwnsThreshold(cs, k, t)
    ensures forall i, j :: OwnsThreshold(cs, i, t) && OwnsThreshold(cs, j, t) ==> i == j
  {
    assert cs[..|cs|] == cs;
    var k := 0;
    while k < |cs| && Total(cs[..k + 1]) < t
      invariant 0 <= k <= |cs|
      invariant Total(cs[..k]) < t
    {
      k := k + 1;
    }
    assert OwnsThreshold(cs, k, t);
    forall i, j | OwnsThreshold(cs, i, t) && OwnsThreshold(cs, j, t)
      ensures i == j
    {
      if i < j {
        PrefixMonotone(cs, i + 1, j);
      } else if j < i {
        PrefixMonotone(cs, j + 1, i);
      }
    }
  }

  /** The thresholds owned by k are exactly an interval whose length is the weight of k. */
  lemma OwnedIntervalLength<M>(cs: seq<Candidate<M>>, k: nat, t: real)
    requires AllPositive(cs) && k < |cs|
    ensures OwnsThreshold(cs, k, t) <==> Total(cs[..k]) < t <= Total(cs[..k]) + cs[k].weight
  {
    PrefixStep(cs, k);
  }

  type Draw = d: real | 0.0 <= d < 1.0 witness 0.0

  /** thr_weight: the draw is turned into a threshold of (0, total]. */
  function Threshold(draw: Draw, total: real): (t: real)
    requires total > 0.0
    ensures 0.0 < t <= total
  {
    WeightScaled(total, draw);
    WeightScaled(total, 1.0 - draw);
    (1.0 - draw) * total
  }

  lemma WeightScaled(w: real, f: real)
    requires w > 0.0 && 0.0 <= f <= 1.0
    ensures 0.0 <= w * f <= w
    ensures f > 0.0 ==> w * f > 0.0
  {
    assert w * (1.0 - f) >= 0.0;
    assert w * (1.0 - f) == w - w * f;
  }

  /** Some element is heaviest and the first of its weight. */
  predicate FirstHeaviest<M>(cs: seq<Candidate<M>>, k: int) {
    && 0 <= k < |cs|
    && (forall i :: 0 <= i < |cs| ==> cs[i].weight <= cs[k].weight)
    && (forall i :: 0 <= i < k ==> cs[i].weight < cs[k].weight)
  }

  lemma {:induction false} TotalPositive<M>(cs: seq<Candidate<M>>)
    requires AllPositive(cs)
    ensures Total(cs) >= 0.0
    ensures cs != [] ==> Total(cs) > 0.0
  {
    if cs != [] {
      TotalPositive(cs[1..]);
    }
  }

  /** The choice of pick_proxy over the ACTIVE online members, in list order. */
  ghost predicate Picks<M>(cs: seq<Candidate<M>>, soft: bool, draw: Draw, r: Option<M>) {
    var available := Positive(cs);
    if available != [] then
      TotalPositive(available);
      exists k :: OwnsThreshold(available, k, Threshold(draw, Total(available))) && r == Some(available[k].member)
    else if cs != [] && soft then
      exists k :: FirstHeaviest(cs, k) && r == Some(cs[k].member)
    else r == None
  }

  /** The choice is a function of the list, the limit and the draw. */
  lemma PicksUnique<M>(cs: seq<Candidate<M>>, soft: bool, draw: Draw, r1: Option<M>, r2: Option<M>)
    requires Picks(cs, soft, draw, r1) && Picks(cs, soft, draw, r2)
    ensures r1 == r2
  {
    var a := Positive(cs);
    if a != [] {
      TotalPositive(a);
      ThresholdHasOneOwner(a, Threshold(draw, Total(a)));
    }
  }

  /** The draw counts down from the total t and ends above p, at q or below. */
  predicate Between(p: real, q: real, t: real, draw: Draw) {
    p < (1.0 - draw) * t <= q
  }

  /** The draw selects position k: the weights before k do not reach it, with that of k they do. */
  predicate Draws<M>(available: seq<Candidate<M>>, k: int, draw: Draw) {
    0 <= k < |available| && Between(Total(available[..k]), Total(available[..k + 1]), Total(available), draw)
  }

  lemma DrawsExactly<M>(available: seq<Candidate<M>>, k: int, draw: Draw)
    requires Total(available) > 0.0
    ensures Draws(available, k, draw) <==> OwnsThreshold(available, k, Threshold(draw, Total(available)))
  {
  }

  lemma DrawsExists<M>(available: seq<Candidate<M>>, draw: Draw)
    requires AllPositive(available)
    ensures available != [] ==> exists k :: Draws(available, k, draw)
  {
    if available != [] {
      TotalPositive(available);
      ThresholdHasOneOwner(available, Threshold(draw, Total(available)));
      var k :| OwnsThreshold(available, k, Threshold(draw, Total(available)));
      DrawsExactly(available, k, draw);
    }
  }

  /** While some weight is positive, the choice is the member that the draw selects, and no other. */
  lemma DrawDecides<M>(cs: seq<Candidate<M>>, soft: bool, draw: Draw, r: Option<M>)
    requires Positive(cs) != []
    ensures Picks(cs, soft, draw, r) <==>
      exists k :: Draws(Positive(cs), k, draw) && r == Some(Positive(cs)[k].member)
  {
    var a := Positive(cs);
    TotalPositive(a);
    forall k ensures Draws(a, k, draw) <==> OwnsThreshold(a, k, Threshold(draw, Total(a))) {
      DrawsExactly(a, k, draw);
    }
  }

  /**
    The draws that select position k form an interval. Measured in units of the total it is as long as the
    weight of k, so that k is selected with the share of its weight in the total.
  */
  lemma DrawsFormInterval<M>(available: seq<Candidate<M>>, k: nat, draw: Draw)
    requires k < |available|
    ensures var t := Total(available);
      var low, high := t - Total(available[..k + 1]), t - Total(available[..k]);
      (Draws(available, k, draw) <==> Lies(draw, t, low, high)) && high - low == available[k].weight
  {
    PrefixStep(available, k);
    var p, q, t := Total(available[..k]), Total(available[..k + 1]), Total(available);
    LiesExactly(p, q, t, draw);
  }

  /** The draw, in units of t, is at least low and below high. */
  predicate Lies(draw: Draw, t: real, low: real, high: real) {
    low <= draw * t < high
  }

  lemma LiesExactly(p: real, q: real, t: real, draw: Draw)
    ensures Between(p, q, t, draw) <==> Lies(draw, t, t - q, t - p)
  {
    assert (1.0 - draw) * t == t - draw * t;
  }

  ghost predicate SomePositive<M>(cs: seq<Candidate<M>>) {
    exists i :: 0 <= i < |cs| && cs[i].weight > 0.0
  }

  lemma {:induction false} FirstHeaviestExists<M>(cs: seq<Candidate<M>>)
    requires cs != []
    ensures exists k :: FirstHeaviest(cs, k)
  {
    if |cs| == 1 {
      assert FirstHeaviest(cs, 0);
    } else {
      var before, n := cs[..|cs| - 1], |cs| - 1;
      FirstHeaviestExists(before);
      var k :| FirstHeaviest(before, k);
      if cs[n].weight > before[k].weight {
        assert FirstHeaviest(cs, n);
      } else {
        assert FirstHeaviest(cs, k);
      }
    }
  }

  /** The choice as a function; PicksUnique says there is no other. */
  ghost function Choice<M>(cs: seq<Candidate<M>>, soft: bool, draw: Draw): (r: Option<M>)
    ensures Picks(cs, soft, draw, r)
  {
    var a := Positive(cs);
    if a != [] then
      TotalPositive(a);
      ThresholdHasOneOwner(a, Threshold(draw, Total(a)));
      var k :| OwnsThreshold(a, k, Threshold(draw, Total(a)));
      Some(a[k].member)
    else if cs != [] && soft then
      FirstHeaviestExists(cs);
      var k :| FirstHeaviest(cs, k);
      Some(cs[k].member)
    else None
  }

  /** Soundness and completeness of the choice. */
  lemma PicksSoundAndComplete<M>(cs: seq<Candidate<M>>, soft: bool, draw: Draw, r: Option<M>)
    requires Picks(cs, soft, draw, r)
    ensures r.Some? ==> (exists c :: c in cs && c.member == r.value && (SomePositive(cs) ==> c.weight > 0.0))
    ensures r.None? <==> cs == [] || (!soft && !SomePositive(cs))
  {
    var a := Positive(cs);
    forall c { PositiveMembers(cs, c); }
    if a != [] {
      assert a[0] in a;
      assert a[0] in cs && a[0].weight > 0.0;
      TotalPositive(a);
      var k :| OwnsThreshold(a, k, Threshold(draw, Total(a))) && r == Some(a[k].member);
      assert a[k] in a;
    } else if cs != [] && soft {
      var k :| FirstHeaviest(cs, k) && r == Some(cs[k].member);
      assert cs[k] in cs;
    }
  }

  /** The roulette loop: it always stops at the break, on the owner of the threshold. */
  method Roulette<M>(available: seq<Candidate<M>>, t: real) returns (k: nat)
    requires AllPositive(available) && 0.0 < t <= Total(available)
    ensures OwnsThreshold(available, k, t)
  {
    var thr_weight := t;
    k := 0;
    assert available[..|available|] == available;
    while k < |available|
      invariant 0 <= k <= |available|
      invariant thr_weight == t - Total(available[..k]) > 0.0
    {
      PrefixStep(available, k);
      thr_weight := thr_weight - available[k].weight;
      if thr_weight <= 0.0 {
        return;
      }
      k := k + 1;
    }
  }

  /** The soft-limit fallback: the first member of maximal weight. */
  method Heaviest<M>(cs: seq<Candidate<M>>) returns (k: nat)
    requires cs != []
    ensures FirstHeaviest(cs, k)
  {
    k := 0;
    for i := 1 to |cs|
      invariant 0 <= k < i
      invariant FirstHeaviest(cs[..i], k)
    {
      if cs[i].weight > cs[k].weight {
        k := i;
      }
      assert cs[..i + 1] == cs[..i] + [cs[i]];
    }
    assert cs[..|cs|] == cs;
  }

  /** pick_proxy after the candidates have been collected. */
  method Pick<M>(cs: seq<Candidate<M>>, soft: bool, draw: Draw) returns (r: Option<M>)
    ensures Picks(cs, soft, draw, r)
    ensures Positive(cs) != [] ==> exists k :: Draws(Positive(cs), k, draw) && r == Some(Positive(cs)[k].member)
  {
    DrawsExists(Positive(cs), draw);
    var available: seq<Candidate<M>> := [];
    var total_weight := 0.0;
    for i := 0 to |cs|
      invariant available == Positive(cs[..i])
      invariant total_weight == Total(available)
    {
      PositiveAppend(cs[..i], cs[i]);
      assert cs[..i + 1] == cs[..i] + [cs[i]];
      if cs[i].weight > 0.0 {
        TotalAppend(available, cs[i]);
        available := available + [cs[i]];
        total_weight := total_weight + cs[i].weight;
      }
    }
    assert cs[..|cs|] == cs;
    if |available| > 0 {
      TotalPositive(available);
      var k := Roulette(available, Threshold(draw, total_weight));
      DrawsExactly(available, k, draw);
      return Some(available[k].member);
    } else if |cs| > 0 && soft {
      var k := Heaviest(cs);
      return Some(cs[k].member);
    }
    r := None;
  }

  lemma {:induction false} PositiveAppend<M>(cs: seq<Candidate<M>>, c: Candidate<M>)
    ensures Positive(cs + [c]) == Positive(cs) + if c.weight > 0.0 then [c] else []
  {
    if cs != [] {
      assert (cs + [c])[1..] == cs[1..] + [c];
      PositiveAppend(cs[1..], c);
    } else {
      assert cs + [c] == [c];
    }
  }

  // -------------------------------------------------------- load estimate

  /** Division by a zero capacity is not modelled. */
  type Capacity = c: int | c != 0 witness 4000

  /** One application of the recursive filter with coefficient one half. */
  function Filter(last: real, x: int): real {
    0.5 * x as real + 0.5 * last
  }

  function Filtered(reports: seq<int>): real {
    if reports == [] then 0.0 else Filter(Filtered(reports[..|reports| - 1]), reports[|reports| - 1])
  }

  function CapUtil(filtered: real, capacity: Capacity): real {
    filtered / capacity as real
  }

  function EffectiveWeight(weight: int, util: real): real {
    weight as real * (1.0 - util)
  }

  /** A report moves the estimate half way to the reported count. */
  lemma FilterIsMidpoint(last: real, n: int)
    ensures Filter(last, n) - last == n as real - Filter(last, n)
  {
  }

  /** The effective weight is the configured one times the free part of the capacity, and falls as load grows. */
  lemma EffectiveWeightExactly(weight: int, f: real, g: real, capacity: Capacity)
    requires capacity > 0
    ensures EffectiveWeight(weight, CapUtil(f, capacity)) * capacity as real == weight as real * (capacity as real - f)
    ensures EffectiveWeight(weight, CapUtil(0.0, capacity)) == weight as real
    ensures EffectiveWeight(weight, CapUtil(capacity as real, capacity)) == 0.0
    ensures weight > 0 && f < g ==>
      EffectiveWeight(weight, CapUtil(g, capacity)) < EffectiveWeight(weight, CapUtil(f, capacity))
  {
    var c, w := capacity as real, weight as real;
    var u, v := CapUtil(f, capacity), CapUtil(g, capacity);
    assert u * c == f && v * c == g;
    assert w * (1.0 - u) * c == w * (c - u * c);
    if weight > 0 && f < g {
      assert (v - u) * c == g - f > 0.0;
      assert v > u;
      assert w * (1.0 - v) == w * (1.0 - u) - w * (v - u);
      assert w * (v - u) > 0.0;
    }
  }

  lemma {:induction false} FilterStaysWithin(reports: seq<int>, cap: int)
    requires forall i :: 0 <= i < |reports| ==> 0 <= reports[i] <= cap
    requires 0 <= cap
    ensures 0.0 <= Filtered(reports) <= cap as real
  {
    if reports != [] {
      FilterStaysWithin(reports[..|reports| - 1], cap);
    }
  }

  lemma UtilWithin(f: real, capacity: Capacity)
    requires capacity > 0 && 0.0 <= f <= capacity as real
    ensures 0.0 <= CapUtil(f, capacity) <= 1.0
  {
    var c := capacity as real;
    var u := CapUtil(f, capacity);
    assert u * c == f;
    assert u > 1.0 ==> (u - 1.0) * c > 0.0;
    assert (u - 1.0) * c == f - c;
    assert u < 0.0 ==> u * c < 0.0;
  }

  /** Reports between zero and the capacity never drive the estimate out of [0, 1] nor a positive weight below zero. */
  lemma {:induction false} LoadEstimateBounded(reports: seq<int>, capacity: Capacity, weight: int)
    requires capacity > 0
    requires forall i :: 0 <= i < |reports| ==> 0 <= reports[i] <= capacity
    ensures 0.0 <= CapUtil(Filtered(reports), capacity) <= 1.0
    ensures weight > 0 ==> 0.0 <= EffectiveWeight(weight, CapUtil(Filtered(reports), capacity)) <= weight as real
  {
    FilterStaysWithin(reports, capacity);
    UtilWithin(Filtered(reports), capacity);
    var u := CapUtil(Filtered(reports), capacity);
    if weight > 0 {
      WeightScaled(weight as real, 1.0 - u);
    }
  }
}
