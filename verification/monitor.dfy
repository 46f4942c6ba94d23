/** The system monitor (localknow/utils/monitor.py): a bounded sample
    history, the memory pressure read from its newest samples, a worker
    recommendation, and the list of registered callbacks. psutil's numbers
    are passed in as samples; the background thread, its sleep and the
    invocation of callbacks are not modelled. */
module Monitor {
  import opened Common

  /** The history keeps at most this many samples (max_history). */
  const MaxHistory: int := 100
  /** get_memory_pressure averages at most this many recent samples. */
  const PressureWindow: int := 5

  /** The parts of a get_current_stats result the policy reads. */
  datatype Sample = Sample(timestamp: real, memoryPercent: real, availableGb: real, coreCount: int)

  /** A registered callable, identified by its identity. */
  type Callback = int

  /** The newest `n` entries of `s`, oldest first. */
  function Newest<T>(s: seq<T>, n: nat): (r: seq<T>)
    ensures |r| == Min(n, |s|)
    ensures r == s[|s| - |r|..]
  {
    if |s| <= n then s else s[|s| - n..]
  }

  function MemoryPercents(s: seq<Sample>): (r: seq<real>)
    ensures |r| == |s| && forall i :: 0 <= i < |s| ==> r[i] == s[i].memoryPercent
  {
    if s == [] then [] else MemoryPercents(s[..|s| - 1]) + [s[|s| - 1].memoryPercent]
  }

  /** get_memory_pressure: the current sample's percent when there is no
      history, else the mean percent of the newest five (or fewer) samples,
      as a fraction. */
  function Pressure(history: seq<Sample>, current: Sample): (p: real)
    ensures history == [] ==> p * 100.0 == current.memoryPercent
    ensures (forall i :: 0 <= i < |history| ==> 0.0 <= history[i].memoryPercent <= 100.0) && 0.0 <= current.memoryPercent <= 100.0
      ==> 0.0 <= p <= 1.0
  {
    WindowPercentBounds(history);
    if history == [] then current.memoryPercent / 100.0
    else Mean(MemoryPercents(Newest(history, PressureWindow))) / 100.0
  }

  /** Percentages in [0, 100] average to a percentage in [0, 100] over the
      newest samples. */
  lemma WindowPercentBounds(history: seq<Sample>)
    ensures history != [] && (forall i :: 0 <= i < |history| ==> 0.0 <= history[i].memoryPercent <= 100.0)
      ==> 0.0 <= Mean(MemoryPercents(Newest(history, PressureWindow))) <= 100.0
  {
    if history != [] && forall i :: 0 <= i < |history| ==> 0.0 <= history[i].memoryPercent <= 100.0 {
      var recent := Newest(history, PressureWindow);
      assert forall i :: 0 <= i < |recent| ==> recent[i] == history[|history| - |recent| + i];
      MeanBounds(MemoryPercents(recent), 0.0, 100.0);
    }
  }

  /** Pressure is a fraction in [lo/100, hi/100] whenever every sample it may
      read has a memory percent in [lo, hi]; in particular it stays in [0, 1]
      for percentages in [0, 100]. */
  lemma PressureBounds(history: seq<Sample>, current: Sample, lo: real, hi: real)
    requires lo <= current.memoryPercent <= hi
    requires forall i :: 0 <= i < |history| ==> lo <= history[i].memoryPercent <= hi
    ensures lo / 100.0 <= Pressure(history, current) <= hi / 100.0
  {
    if history != [] {
      var recent := Newest(history, PressureWindow);
      var percents := MemoryPercents(recent);
      assert forall i :: 0 <= i < |recent| ==> recent[i] == history[|history| - |recent| + i];
      MeanBounds(percents, lo, hi);
    }
  }

  /** Only the newest five samples matter: two non-empty histories that end
      in the same five (or the same shorter whole) give the same pressure. */
  lemma PressureReadsNewestOnly(h1: seq<Sample>, h2: seq<Sample>, c1: Sample, c2: Sample)
    requires h1 != [] && h2 != []
    requires Newest(h1, PressureWindow) == Newest(h2, PressureWindow)
    ensures Pressure(h1, c1) == Pressure(h2, c2)
  {
  }

  /** The base worker count: cores minus two on Apple silicon, cores minus
      one elsewhere, at least two. */
  function BaseWorkers(isAppleSilicon: bool, cores: int): (b: int)
    ensures isAppleSilicon ==> b == Max(2, cores - 2)
    ensures !isAppleSilicon ==> b == Max(2, cores - 1)
    ensures b >= 2
    ensures b <= Max(2, cores)
  {
    if isAppleSilicon then Max(2, cores - 2) else Max(2, cores - 1)
  }

  /** get_optimal_workers: halve the base (floor 2) when pressure is above
      0.8, add two (capped at the core count) when pressure is below 0.3 and
      more than 8 GB are free. The result lies in [min(2, cores),
      max(2, cores)]; it exceeds the base only in the low-pressure case and
      never does under high pressure. */
  function WorkerRule(isAppleSilicon: bool, cores: int, availableGb: real, pressure: real): (r: int)
    ensures pressure > 0.8 ==> r == Max(2, BaseWorkers(isAppleSilicon, cores) / 2)
    ensures pressure <= 0.8 && pressure < 0.3 && availableGb > 8.0 ==> r == Min(cores, BaseWorkers(isAppleSilicon, cores) + 2)
    ensures pressure <= 0.8 && !(pressure < 0.3 && availableGb > 8.0) ==> r == BaseWorkers(isAppleSilicon, cores)
    ensures Min(2, cores) <= r <= Max(2, cores)
    ensures pressure > 0.8 ==> 2 <= r <= BaseWorkers(isAppleSilicon, cores)
    ensures r > BaseWorkers(isAppleSilicon, cores) ==> pressure < 0.3 && availableGb > 8.0
    ensures r < BaseWorkers(isAppleSilicon, cores) ==> pressure > 0.8 || cores < BaseWorkers(isAppleSilicon, cores)
  {
    var base := BaseWorkers(isAppleSilicon, cores);
    if pressure > 0.8 then Max(2, base / 2)
    else if pressure < 0.3 && availableGb > 8.0 then Min(cores, base + 2)
    else base
  }

  /** The position of the first occurrence of `x` (list.index). */
  function IndexOf<T(==)>(s: seq<T>, x: T): (i: nat)
    requires x in s
    ensures i < |s| && s[i] == x && x !in s[..i]
  {
    if s[0] == x then 0 else 1 + IndexOf(s[1..], x)
  }

  /** Removes the first occurrence of `x`, as list.remove does: one copy of
      `x` goes, everything else stays, in order. */
  function RemoveFirst<T(==)>(s: seq<T>, x: T): (r: seq<T>)
    requires x in s
    ensures |r| == |s| - 1
    ensures multiset(r) == multiset(s) - multiset{x}
    ensures exists i :: 0 <= i < |s| && s[i] == x && x !in s[..i] && r == s[..i] + s[i + 1..]
  {
    var i := IndexOf(s, x);
    assert s == s[..i] + [x] + s[i + 1..];
    assert multiset(s) == multiset(s[..i]) + multiset{x} + multiset(s[i + 1..]);
    s[..i] + s[i + 1..]
  }

  /** Unregistering a callable just registered undoes the registration when
      it was not registered before. */
  lemma {:induction false} RegisterThenUnregister<T>(s: seq<T>, x: T)
    requires x !in s
    ensures RemoveFirst(s + [x], x) == s
  {
    if s != [] {
      assert (s + [x])[1..] == s[1..] + [x];
      RegisterThenUnregister(s[1..], x);
    }
  }

  class AppleSiliconMonitor {
    const isAppleSilicon: bool
    var history: seq<Sample>
    var callbacks: seq<Callback>

    constructor (isAppleSilicon: bool)
      ensures this.isAppleSilicon == isAppleSilicon && history == [] && callbacks == []
    {
      this.isAppleSilicon := isAppleSilicon;
      history := [];
      callbacks := [];
    }

    /** One pass of the monitoring loop: append the sample, then drop the
        oldest entries until at most max_history remain. */
    method RecordSample(stats: Sample)
      modifies this
      ensures history == Newest(old(history) + [stats], MaxHistory)
      ensures |history| <= MaxHistory && history[|history| - 1] == stats
      ensures callbacks == old(callbacks)
    {
      var trimmed := history + [stats];
      ghost var grown := trimmed;
      while |trimmed| > MaxHistory
        invariant |trimmed| >= Min(MaxHistory, |grown|)
        invariant trimmed == grown[|grown| - |trimmed|..]
        decreases |trimmed|
      {
        trimmed := trimmed[1..];
      }
      history := trimmed;
    }

    /** `stats` is the sample taken first; `fallback` is the second sample
        get_memory_pressure takes when the history is empty. */
    method GetOptimalWorkers(stats: Sample, fallback: Sample) returns (count: int)
      ensures count == WorkerRule(isAppleSilicon, stats.coreCount, stats.availableGb, Pressure(history, fallback))
      ensures Min(2, stats.coreCount) <= count <= Max(2, stats.coreCount)
    {
      if isAppleSilicon {
        count := Max(2, stats.coreCount - 2);
      } else {
        count := Max(2, stats.coreCount - 1);
      }
      var memoryPressure := Pressure(history, fallback);
      if memoryPressure > 0.8 {
        count := Max(2, count / 2);
      } else if memoryPressure < 0.3 && stats.availableGb > 8.0 {
        count := Min(stats.coreCount, count + 2);
      }
    }

    method RegisterCallback(cb: Callback)
      modifies this
      ensures callbacks == old(callbacks) + [cb]
      ensures history == old(history)
    {
      callbacks := callbacks + [cb];
    }

    /** Removes one occurrence of `cb` when present; otherwise no change. */
    method UnregisterCallback(cb: Callback)
      modifies this
      ensures cb in old(callbacks) ==> callbacks == RemoveFirst(old(callbacks), cb)
      ensures cb !in old(callbacks) ==> callbacks == old(callbacks)
      ensures history == old(history)
    {
      if cb in callbacks {
        callbacks := RemoveFirst(callbacks, cb);
      }
    }
  }
}
