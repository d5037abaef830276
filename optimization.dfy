/** The real-time process optimisation card: a progress counter advanced
    every 500 ms while an optimisation runs; the first step that finds it at
    100 or more stops the run, stamps the time and nudges every metric once. */
module ProcessOptimization {
  import opened Common

  datatype MetricStatus = Optimal | Improving | Attention

  datatype OptimizationMetric = OptimizationMetric(
    name: string,
    current: real,
    target: real,
    unit: string,
    status: MetricStatus,
    trend: real)

  function SeedMetrics(): seq<OptimizationMetric> {
    [ OptimizationMetric("Energy Efficiency", 87.3, 92.0, "%", Improving, 2.1),
      OptimizationMetric("Temperature Stability", 1547.0, 1550.0, "°C", Optimal, 0.2),
      OptimizationMetric("Alloy Utilization", 94.8, 96.0, "%", Improving, 1.5),
      OptimizationMetric("Cycle Time", 42.3, 38.0, "min", Attention, -1.8) ]
  }

  /** One metric after the run: `current` moves by (r - 0.3) * 2 and the
      status becomes optimal when a second draw exceeds 0.3. */
  function ImproveMetric(m: OptimizationMetric, rCurrent: real, rStatus: real): (n: OptimizationMetric)
    requires IsDraw(rCurrent) && IsDraw(rStatus)
    ensures -0.6 <= n.current - m.current < 1.4
    ensures n.status == (if rStatus > 0.3 then Optimal else m.status)
    ensures n == m.(current := n.current, status := n.status)
  {
    m.(current := m.current + (rCurrent - 0.3) * 2.0,
       status := if rStatus > 0.3 then Optimal else m.status)
  }

  /** The metrics after the run, two draws per metric. */
  function ImproveMetrics(prev: seq<OptimizationMetric>, currentDraws: seq<real>, statusDraws: seq<real>)
    : (next: seq<OptimizationMetric>)
    requires |currentDraws| == |prev| && AllDraws(currentDraws)
    requires |statusDraws| == |prev| && AllDraws(statusDraws)
    ensures |next| == |prev|
    ensures forall i :: 0 <= i < |next| ==>
      next[i] == prev[i].(current := next[i].current, status := next[i].status)
    ensures forall i :: 0 <= i < |next| ==> -0.6 <= next[i].current - prev[i].current < 1.4
    ensures forall i :: 0 <= i < |next| ==> next[i].status == Optimal || next[i].status == prev[i].status
  {
    seq(|prev|, i requires 0 <= i < |prev| => ImproveMetric(prev[i], currentDraws[i], statusDraws[i]))
  }

  /** One step of the progress counter: at 100 or more it is set to exactly
      100 and the run ends; below 100 it grows by Math.random() * 15. */
  function NextProgress(prev: real, r: real): (next: (real, bool))
    requires IsDraw(r)
    ensures prev >= 100.0 ==> next == (100.0, false)
    ensures prev < 100.0 ==> next.1 && prev <= next.0 < prev + 15.0
  {
    if prev >= 100.0 then (100.0, false) else (prev + r * 15.0, true)
  }

  /** The counter after one step per draw, starting from `start`. */
  function Run(start: real, draws: seq<real>): real
    requires AllDraws(draws)
  {
    if draws == [] then start
    else NextProgress(Run(start, draws[..|draws| - 1]), draws[|draws| - 1]).0
  }

  /** From 0, after k <= 7 steps the counter is below 15 * k, so the first
      seven steps never find it at 100 and a run stops at its eighth step
      at the earliest. */
  lemma {:induction false} RunFromZero(draws: seq<real>)
    requires AllDraws(draws) && |draws| <= 7
    ensures 0.0 <= Run(0.0, draws) <= 15.0 * |draws| as real
    ensures draws != [] ==> Run(0.0, draws) < 15.0 * |draws| as real
    ensures |draws| < 7 ==> Run(0.0, draws) < 100.0
    decreases |draws|
  {
    if draws != [] {
      RunFromZero(draws[..|draws| - 1]);
    }
  }

  /** The card's state; `lastOptimized` is a time in milliseconds. */
  class Optimizer {
    var isOptimizing: bool
    var progress: real
    var lastOptimized: Option<int>
    var metrics: seq<OptimizationMetric>

    /** The counter is nonnegative and below 115, and at most 100 once the run is over. */
    ghost predicate Valid()
      reads this
    {
      0.0 <= progress < 115.0 &&
      (!isOptimizing ==> progress <= 100.0)
    }

    constructor ()
      ensures Valid()
      ensures !isOptimizing && progress == 0.0 && lastOptimized == None
      ensures metrics == SeedMetrics()
    {
      isOptimizing := false;
      progress := 0.0;
      lastOptimized := None;
      metrics := SeedMetrics();
    }

    /** startOptimization: the run starts from 0; its button is disabled
        while a run is in progress. */
    method StartOptimization()
      requires !isOptimizing
      modifies this
      ensures Valid()
      ensures isOptimizing && progress == 0.0
      ensures lastOptimized == old(lastOptimized) && metrics == old(metrics)
    {
      isOptimizing := true;
      progress := 0.0;
    }

    /** One 500 ms step of the run. */
    method Step(r: real, currentDraws: seq<real>, statusDraws: seq<real>, now: int)
      requires Valid() && isOptimizing && IsDraw(r)
      requires |currentDraws| == |metrics| && AllDraws(currentDraws)
      requires |statusDraws| == |metrics| && AllDraws(statusDraws)
      modifies this
      ensures Valid()
      ensures (progress, isOptimizing) == NextProgress(old(progress), r)
      ensures old(progress) >= 100.0 ==>
        lastOptimized == Some(now) &&
        metrics == ImproveMetrics(old(metrics), currentDraws, statusDraws)
      ensures old(progress) < 100.0 ==>
        lastOptimized == old(lastOptimized) && metrics == old(metrics) &&
        old(progress) <= progress
    {
      if progress >= 100.0 {
        isOptimizing := false;
        lastOptimized := Some(now);
        metrics := ImproveMetrics(metrics, currentDraws, statusDraws);
        progress := 100.0;
      } else {
        progress := progress + r * 15.0;
      }
    }

    /** resetOptimization: clears the counter and the time stamp and nothing
        else, even while a run continues. */
    method ResetOptimization()
      requires Valid()
      modifies this
      ensures Valid()
      ensures progress == 0.0 && lastOptimized == None
      ensures isOptimizing == old(isOptimizing) && metrics == old(metrics)
    {
      progress := 0.0;
      lastOptimized := None;
    }
  }
}
