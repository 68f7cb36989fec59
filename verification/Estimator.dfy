/** Burst estimates by exponential average, and the choice of the process to run. Times and
    estimates are reals. */
module Estimator {

  /** __media_exponencial */
  function Average(alpha: real, burst: real, est: real): real { alpha * burst + (1.0 - alpha) * est }

  /** The estimate after the bursts of bs. */
  function Estimate(alpha: real, est0: real, bs: seq<real>): real {
    if bs == [] then est0 else Average(alpha, bs[|bs| - 1], Estimate(alpha, est0, bs[..|bs| - 1]))
  }

  function Power(x: real, n: nat): real { if n == 0 then 1.0 else x * Power(x, n - 1) }

  /** Burst i of n weighs alpha * (1 - alpha) ^ (n - 1 - i). */
  function WeightedSum(alpha: real, bs: seq<real>): real {
    if bs == [] then 0.0
    else alpha * Power(1.0 - alpha, |bs| - 1) * bs[0] + WeightedSum(alpha, bs[1..])
  }

  // ------------------------------------------------------------------ closed form

  // The proofs hide multiplication behind this name and go through the laws below.
  function Times(x: real, y: real): real { x * y }

  lemma Reorder(a: real, r: real, p: real, h: real)
    ensures Times(Times(a, Times(r, p)), h) == Times(r, Times(Times(a, p), h))
  {
    assert a * (r * p) * h == r * (a * p * h);
  }

  lemma Regroup(r: real, p: real, e: real)
    ensures Times(r, Times(p, e)) == Times(Times(r, p), e)
  {
    assert r * (p * e) == (r * p) * e;
  }

  lemma AverageLinear(alpha: real, b: real, x: real, y: real)
    ensures Average(alpha, b, x + y) == Times(1.0 - alpha, x) + Average(alpha, b, y)
  {
    assert (1.0 - alpha) * (x + y) == (1.0 - alpha) * x + (1.0 - alpha) * y;
  }

  lemma PowerUnfold(x: real, n: nat)
    ensures Power(x, n + 1) == Times(x, Power(x, n))
  {
  }

  lemma SumUnfold(alpha: real, bs: seq<real>)
    requires bs != []
    ensures WeightedSum(alpha, bs)
         == Times(Times(alpha, Power(1.0 - alpha, |bs| - 1)), bs[0]) + WeightedSum(alpha, bs[1..])
  {
  }

  lemma SumOfOne(alpha: real, b: real)
    ensures WeightedSum(alpha, [b]) == Average(alpha, b, WeightedSum(alpha, []))
  {
    assert [b][1..] == [] && Power(1.0 - alpha, 0) == 1.0;
  }

  lemma EstimateUnfold(alpha: real, est0: real, front: seq<real>, b: real)
    ensures Estimate(alpha, est0, front + [b]) == Average(alpha, b, Estimate(alpha, est0, front))
  {
    assert (front + [b])[..|front|] == front;
  }

  lemma {:induction false} SumOneMore(alpha: real, bs: seq<real>, b: real)
    ensures WeightedSum(alpha, bs + [b]) == Average(alpha, b, WeightedSum(alpha, bs))
  {
    hide Times, Average, Power, WeightedSum;
    var r, cs := 1.0 - alpha, bs + [b];
    if bs == [] {
      assert cs == [b];
      SumOfOne(alpha, b);
    } else {
      assert cs[1..] == bs[1..] + [b];
      SumOneMore(alpha, bs[1..], b);
      SumUnfold(alpha, bs);
      SumUnfold(alpha, cs);
      PowerUnfold(r, |bs| - 1);
      Reorder(alpha, r, Power(r, |bs| - 1), bs[0]);
      AverageLinear(alpha, b, Times(Times(alpha, Power(r, |bs| - 1)), bs[0]), WeightedSum(alpha, bs[1..]));
    }
  }

  lemma {:induction false} ClosedFormTimes(alpha: real, est0: real, bs: seq<real>)
    ensures Estimate(alpha, est0, bs) == Times(Power(1.0 - alpha, |bs|), est0) + WeightedSum(alpha, bs)
  {
    if bs != [] {
      hide Times, Average, Power, WeightedSum, Estimate;
      var r, front, b := 1.0 - alpha, bs[..|bs| - 1], bs[|bs| - 1];
      assert bs == front + [b];
      ClosedFormTimes(alpha, est0, front);
      EstimateUnfold(alpha, est0, front, b);
      SumOneMore(alpha, front, b);
      PowerUnfold(r, |front|);
      Regroup(r, Power(r, |front|), est0);
      AverageLinear(alpha, b, Times(Power(r, |front|), est0), WeightedSum(alpha, front));
    }
  }

  /** The estimate is the initial one and the bursts, each weighted by its age. */
  lemma ClosedForm(alpha: real, est0: real, bs: seq<real>)
    ensures Estimate(alpha, est0, bs) == Power(1.0 - alpha, |bs|) * est0 + WeightedSum(alpha, bs)
  {
    hide Power, WeightedSum, Estimate;
    ClosedFormTimes(alpha, est0, bs);
  }

  // ---------------------------------------------------------------------- bounds

  lemma AverageBetween(alpha: real, burst: real, est: real, lo: real, hi: real)
    requires 0.0 <= alpha <= 1.0 && lo <= burst <= hi && lo <= est <= hi
    ensures lo <= Average(alpha, burst, est) <= hi
  {
    assert alpha * (burst - lo) >= 0.0 && (1.0 - alpha) * (est - lo) >= 0.0;
    assert alpha * (hi - burst) >= 0.0 && (1.0 - alpha) * (hi - est) >= 0.0;
  }

  /** The estimate never leaves the range of the initial estimate and the bursts. */
  lemma {:induction false} EstimateBetween(alpha: real, est0: real, bs: seq<real>, lo: real, hi: real)
    requires 0.0 <= alpha <= 1.0 && lo <= est0 <= hi && forall i :: 0 <= i < |bs| ==> lo <= bs[i] <= hi
    ensures lo <= Estimate(alpha, est0, bs) <= hi
  {
    hide Average;
    if bs != [] {
      EstimateBetween(alpha, est0, bs[..|bs| - 1], lo, hi);
      AverageBetween(alpha, bs[|bs| - 1], Estimate(alpha, est0, bs[..|bs| - 1]), lo, hi);
    }
  }

  ghost predicate Bursts(bs: seq<real>) { forall i :: 0 <= i < |bs| ==> bs[i] >= 0.0 }

  lemma PositiveAverage(alpha: real, burst: real, est: real)
    requires 0.0 <= alpha < 1.0 && burst >= 0.0 && est > 0.0
    ensures Average(alpha, burst, est) > 0.0
  {
    assert alpha * burst >= 0.0 && (1.0 - alpha) * est > 0.0;
  }

  lemma {:induction false} EstimatePositive(alpha: real, est0: real, bs: seq<real>)
    requires 0.0 <= alpha < 1.0 && est0 > 0.0 && Bursts(bs)
    ensures Estimate(alpha, est0, bs) > 0.0
  {
    hide Average;
    if bs != [] {
      var front := bs[..|bs| - 1];
      assert Bursts(front);
      EstimatePositive(alpha, est0, front);
      PositiveAverage(alpha, bs[|bs| - 1], Estimate(alpha, est0, front));
    }
  }

  /** Every estimate is positive, so every response ratio is defined, exactly when alpha is less
      than one and the initial estimate positive: with alpha = 1 one empty burst gives zero. */
  lemma AlwaysPositive(alpha: real, est0: real)
    requires 0.0 <= alpha <= 1.0
    ensures (forall bs :: Bursts(bs) ==> Estimate(alpha, est0, bs) > 0.0) <==> alpha < 1.0 && est0 > 0.0
  {
    if alpha < 1.0 && est0 > 0.0 {
      forall bs | Bursts(bs) ensures Estimate(alpha, est0, bs) > 0.0 { EstimatePositive(alpha, est0, bs); }
    } else {
      assert Bursts([]) && Estimate(alpha, est0, []) == est0;
      assert [0.0][..0] == [];
      assert Bursts([0.0]) && Estimate(alpha, est0, [0.0]) == (1.0 - alpha) * est0;
    }
  }

  // ------------------------------------------------------------------- the records

  datatype Algorithm = Sjf | Hrrn

  /** A quotient of doubles: division by zero gives an infinity, or no number at all. */
  datatype Ratio = Finite(value: real) | PlusInfinity | MinusInfinity | NoNumber

  function Quotient(a: real, b: real): Ratio {
    if b != 0.0 then Finite(a / b)
    else if a > 0.0 then PlusInfinity
    else if a < 0.0 then MinusInfinity
    else NoNumber
  }

  function PlusOne(x: Ratio): Ratio { if x.Finite? then Finite(x.value + 1.0) else x }

  /** The comparison of doubles: nothing compares with what is no number. */
  predicate Greater(x: Ratio, y: Ratio) {
    !x.NoNumber? && !y.NoNumber? && x != y &&
    (x.PlusInfinity? || y.MinusInfinity? || (x.Finite? && y.Finite? && x.value > y.value))
  }

  /** t_sjf and t_hrrn: an estimate, and since when the process waits. */
  class Burst {
    var estimate: real
    var since: real

    constructor (est0: real, now: real)
      ensures estimate == est0 && since == now
    {
      estimate, since := est0, now;
    }

    /** __pcb_sjf_est_update */
    method UpdateSjf(end: real, start: real, alpha: real)
      modifies this
      ensures estimate == Average(alpha, end - start, old(estimate)) && since == old(since)
    {
      estimate := alpha * (end - start) + (1.0 - alpha) * estimate;
    }

    /** __pcb_hrrn_est_update: the process also begins to wait anew. */
    method UpdateHrrn(end: real, start: real, now: real, alpha: real)
      modifies this
      ensures estimate == Average(alpha, end - start, old(estimate)) && since == now
    {
      estimate := alpha * (end - start) + (1.0 - alpha) * estimate;
      since := now;
    }

    /** pcb_response_ratio */
    function ResponseRatio(now: real): Ratio
      reads this
    {
      PlusOne(Quotient(now - since, estimate))
    }
  }

  /** Start and end of a burst, and when it is recorded. */
  datatype Span = Span(start: real, end: real, recorded: real)

  function Lengths(spans: seq<Span>): (r: seq<real>)
    ensures |r| == |spans|
  {
    seq(|spans|, i requires 0 <= i < |spans| => spans[i].end - spans[i].start)
  }

  /** pcb_algoritmo_update_next_est_info after each of some bursts: the record holds the estimate
      of its whole history, and under HRRN the process waits since the last of them. */
  method UpdateAfterEach(x: Burst, algorithm: Algorithm, spans: seq<Span>, alpha: real)
    modifies x
    ensures x.estimate == Estimate(alpha, old(x.estimate), Lengths(spans))
    ensures x.since == if algorithm == Hrrn && spans != [] then spans[|spans| - 1].recorded else old(x.since)
  {
    hide Average;
    ghost var bs := Lengths(spans);
    var i := 0;
    while i < |spans|
      invariant 0 <= i <= |spans| && x.estimate == Estimate(alpha, old(x.estimate), bs[..i])
      invariant x.since == if algorithm == Hrrn && i > 0 then spans[i - 1].recorded else old(x.since)
    {
      if algorithm == Sjf {
        x.UpdateSjf(spans[i].end, spans[i].start, alpha);
      } else {
        x.UpdateHrrn(spans[i].end, spans[i].start, spans[i].recorded, alpha);
      }
      assert bs[..i + 1][..i] == bs[..i];
      i := i + 1;
    }
    assert bs[..i] == bs;
  }

  // -------------------------------------------------------------------- the choice

  /** elegir_en_base_a_hrrn: the earliest process of the list whose response ratio no other exceeds.
      If the ratio of the first is no number it stays, for nothing compares with it; ratios further
      on that are no number are passed over. */
  method ChooseHrrn(q: seq<Burst>, now: real) returns (x: Burst, ghost k: nat)
    requires q != []
    ensures k < |q| && x == q[k]
    ensures forall i :: 0 <= i < |q| ==> !Greater(q[i].ResponseRatio(now), x.ResponseRatio(now))
    ensures forall i :: 0 <= i < k ==>
      q[i].ResponseRatio(now).NoNumber? || Greater(x.ResponseRatio(now), q[i].ResponseRatio(now))
    ensures if q[0].ResponseRatio(now).NoNumber? then k == 0 else !x.ResponseRatio(now).NoNumber?
  {
    x, k := q[0], 0;
    var i := 1;
    while i < |q|
      invariant k < i <= |q| && x == q[k]
      invariant forall j :: 0 <= j < i ==> !Greater(q[j].ResponseRatio(now), x.ResponseRatio(now))
      invariant forall j :: 0 <= j < k ==>
        q[j].ResponseRatio(now).NoNumber? || Greater(x.ResponseRatio(now), q[j].ResponseRatio(now))
      invariant if q[0].ResponseRatio(now).NoNumber? then k == 0 else !x.ResponseRatio(now).NoNumber?
    {
      if Greater(q[i].ResponseRatio(now), x.ResponseRatio(now)) {
        x, k := q[i], i;
      }
      i := i + 1;
    }
  }

  /** elegir_en_base_a_sjf, list_get_minimum by pcb_minimum_est: the earliest process of the list
      with the least estimate. */
  method ChooseSjf(q: seq<Burst>) returns (x: Burst, ghost k: nat)
    requires q != []
    ensures k < |q| && x == q[k]
    ensures forall i :: 0 <= i < |q| ==> x.estimate <= q[i].estimate
    ensures forall i :: 0 <= i < k ==> x.estimate < q[i].estimate
  {
    x, k := q[0], 0;
    var i := 1;
    while i < |q|
      invariant k < i <= |q| && x == q[k]
      invariant forall j :: 0 <= j < i ==> x.estimate <= q[j].estimate
      invariant forall j :: 0 <= j < k ==> x.estimate < q[j].estimate
    {
      if !(x.estimate <= q[i].estimate) {
        x, k := q[i], i;
      }
      i := i + 1;
    }
  }

  // -------------------------------------------------------- histories and choice together

  ghost predicate Forward(spans: seq<Span>) { forall i :: 0 <= i < |spans| ==> spans[i].start <= spans[i].end }

  /** Since when a process waits that arrived at a time and then had the bursts of a history. */
  function WaitsSince(arrival: real, history: seq<Span>): real {
    if history == [] then arrival else history[|history| - 1].recorded
  }

  /** What its response ratio should be: its wait over the estimate of its bursts, plus one. */
  function HistoryRatio(history: seq<Span>, alpha: real, est0: real, arrival: real, now: real): real
    requires Estimate(alpha, est0, Lengths(history)) != 0.0
  {
    (now - WaitsSince(arrival, history)) / Estimate(alpha, est0, Lengths(history)) + 1.0
  }

  /** Every process of a ready list arrived with the initial estimate and then had the bursts of
      its history. With alpha below one and a positive initial estimate every ratio is a number,
      and the choice is the earliest process with the highest. */
  method ChooseByHistory(histories: seq<seq<Span>>, alpha: real, est0: real, arrival: real, now: real)
    returns (q: seq<Burst>, x: Burst, ghost k: nat)
    requires histories != [] && 0.0 <= alpha < 1.0 && est0 > 0.0
    requires forall i :: 0 <= i < |histories| ==> Forward(histories[i])
    ensures |q| == |histories| && k < |q| && x == q[k]
    ensures forall i :: 0 <= i < |q| ==>
      q[i].estimate == Estimate(alpha, est0, Lengths(histories[i])) && q[i].since == WaitsSince(arrival, histories[i])
    ensures forall i :: 0 <= i < |histories| ==> Estimate(alpha, est0, Lengths(histories[i])) > 0.0
    ensures forall i :: 0 <= i < |histories| ==>
      HistoryRatio(histories[i], alpha, est0, arrival, now) <= HistoryRatio(histories[k], alpha, est0, arrival, now)
    ensures forall i :: 0 <= i < k ==>
      HistoryRatio(histories[i], alpha, est0, arrival, now) < HistoryRatio(histories[k], alpha, est0, arrival, now)
  {
    hide Estimate;
    q := [];
    var i := 0;
    while i < |histories|
      invariant 0 <= i <= |histories| && |q| == i
      invariant forall j :: 0 <= j < i ==> fresh(q[j])
      invariant forall j :: 0 <= j < i ==>
        q[j].estimate == Estimate(alpha, est0, Lengths(histories[j])) && q[j].since == WaitsSince(arrival, histories[j])
      invariant forall j :: 0 <= j < i ==> Estimate(alpha, est0, Lengths(histories[j])) > 0.0
    {
      var b := new Burst(est0, arrival);
      UpdateAfterEach(b, Hrrn, histories[i], alpha);
      assert Bursts(Lengths(histories[i])) by { assert Forward(histories[i]); }
      EstimatePositive(alpha, est0, Lengths(histories[i]));
      q := q + [b];
      i := i + 1;
    }
    x, k := ChooseHrrn(q, now);
  }

  /** For bursts of between lo and hi the estimate is between lo and hi: in particular it is exact
      for a process whose bursts all last as long as it was first estimated. */
  lemma HistoryBetween(history: seq<Span>, alpha: real, est0: real, lo: real, hi: real)
    requires 0.0 <= alpha <= 1.0 && lo <= est0 <= hi
    requires forall i :: 0 <= i < |history| ==> history[i].start + lo <= history[i].end <= history[i].start + hi
    ensures lo <= Estimate(alpha, est0, Lengths(history)) <= hi
  {
    hide Estimate;
    EstimateBetween(alpha, est0, Lengths(history), lo, hi);
  }

  /** The response ratio, by cases: a number when there is an estimate; without one, a process that
      has waited exceeds every number, one that is yet to wait is below every number, and one that
      begins now compares with nothing. */
  lemma RatioCases(x: Burst, y: Burst, now: real)
    ensures x.estimate != 0.0 ==> x.ResponseRatio(now) == Finite((now - x.since) / x.estimate + 1.0)
    ensures x.estimate != 0.0 && now == x.since ==> x.ResponseRatio(now) == Finite(1.0)
    ensures x.estimate == 0.0 && now > x.since && y.estimate != 0.0 ==>
      Greater(x.ResponseRatio(now), y.ResponseRatio(now)) && !Greater(y.ResponseRatio(now), x.ResponseRatio(now))
    ensures x.estimate == 0.0 && now < x.since && y.estimate != 0.0 ==>
      Greater(y.ResponseRatio(now), x.ResponseRatio(now)) && !Greater(x.ResponseRatio(now), y.ResponseRatio(now))
    ensures x.estimate == 0.0 && now == x.since ==>
      !Greater(x.ResponseRatio(now), y.ResponseRatio(now)) && !Greater(y.ResponseRatio(now), x.ResponseRatio(now))
  {
  }

  // ------------------------------------------------------------------- overtaking

  lemma QuotientOrder(a: real, b: real, c: real, d: real)
    requires b > 0.0 && d > 0.0
    ensures a / b > c / d <==> a * d > c * b
  {
    var u, w := a / b, c / d;
    assert u * b == a && w * d == c;
    assert a * d - c * b == (u - w) * (b * d) by {
      assert a * d == u * (b * d);
      assert c * b == w * (b * d);
    }
    assert b * d > 0.0;
    if u > w { assert (u - w) * (b * d) > 0.0; }
    if u <= w { assert (w - u) * (b * d) >= 0.0; }
  }

  /** Exactly when one process's ratio exceeds another's: its wait, weighed by the other's estimate,
      is the longer. */
  lemma Overtakes(x: Burst, y: Burst, now: real)
    requires x.estimate > 0.0 && y.estimate > 0.0
    ensures Greater(x.ResponseRatio(now), y.ResponseRatio(now)) <==>
            (now - x.since) * y.estimate > (now - y.since) * x.estimate
  {
    QuotientOrder(now - x.since, x.estimate, now - y.since, y.estimate);
  }

  lemma PositiveFactor(a: real, b: real)
    requires b > 0.0
    ensures a * b > 0.0 ==> a > 0.0
  {
    if a <= 0.0 { assert (-a) * b >= 0.0; }
  }

  lemma ScaledWaits(wait: real, own: real, other: real, estimate: real, longest: real, least: real)
    requires own > 0.0 && 0.0 <= other <= longest && 0.0 < least <= estimate && wait * least > longest * own
    ensures wait * estimate > other * own
  {
    assert longest * own >= 0.0;
    PositiveFactor(wait, least);
    assert wait * (estimate - least) >= 0.0;
    assert (longest - other) * own >= 0.0;
  }

  /** When the others have estimates of at least some least one and have waited no longer than some
      longest wait, a process whose own wait has passed that bound, scaled by the estimates, exceeds
      them all, so the choice falls on it however long its burst. */
  lemma OverdueIsChosen(q: seq<Burst>, k: nat, now: real, least: real, longest: real)
    requires k < |q| && q[k].estimate > 0.0 && least > 0.0
    requires forall i :: 0 <= i < |q| && i != k ==> least <= q[i].estimate && 0.0 <= now - q[i].since <= longest
    requires longest >= 0.0 && (now - q[k].since) * least > longest * q[k].estimate
    ensures forall i :: 0 <= i < |q| && i != k ==> Greater(q[k].ResponseRatio(now), q[i].ResponseRatio(now))
  {
    forall i | 0 <= i < |q| && i != k ensures Greater(q[k].ResponseRatio(now), q[i].ResponseRatio(now)) {
      ScaledWaits(now - q[k].since, q[k].estimate, now - q[i].since, q[i].estimate, longest, least);
      Overtakes(q[k], q[i], now);
    }
  }
}
