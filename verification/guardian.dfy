/** Admission control (intellidoc/core/domain_guardian.py): a resource
    monitor with a short sample history and a worker recommendation, a
    caching domain classifier, and the guardian that turns both into a
    full / limited / skip plan. psutil's numbers, the clock and the model
    client's replies are parameters. */
module DomainGuardian {
  import opened Common
  import opened Types

  const HighSuccessDomains: set<string> := {"technical", "computer_science", "mathematics", "physics", "engineering"}
  const MediumSuccessDomains: set<string> := {"biology", "chemistry", "economics", "history", "finance"}
  const LowSuccessDomains: set<string> := {"philosophy", "literature", "art"}
  const KnownDomains: set<string> := HighSuccessDomains + MediumSuccessDomains + LowSuccessDomains

  /** The configured base worker count (settings.pipeline_workers). */
  const PipelineWorkers: int := 8
  /** The history keeps at most this many samples. */
  const HistoryLimit: int := 10
  /** How many characters of a document the domain classifier sees. */
  const DomainSampleLength: int := 1500
  const CriticalMemoryReason: string := "Critical memory pressure"

  // ------------------------------------------------------------- monitor

  /** The raw numbers psutil reports: memory percent and available bytes,
      per-core CPU percentages, and disk I/O byte counters. */
  datatype RawSample = RawSample(memPercent: real, memAvailableBytes: int, cpuPercents: seq<real>,
                                 diskReadBytes: int, diskWriteBytes: int)

  /** The dict get_detailed_stats returns. */
  datatype SystemStats = SystemStats(memoryUsedPercent: real, memoryAvailableGb: real, cpuAverage: real,
                                     cpuMaxCore: real, diskBusy: bool)

  /** One history entry: (time.time(), memory fraction, CPU fraction). */
  datatype HistoryEntry = HistoryEntry(time: real, memoryUsedPercent: real, cpuAverage: real)

  function MaxOf(xs: seq<real>): (m: real)
    requires xs != []
    ensures m in xs && forall i :: 0 <= i < |xs| ==> xs[i] <= m
  {
    if |xs| == 1 then xs[0] else MaxReal(MaxOf(xs[..|xs| - 1]), xs[|xs| - 1])
  }

  /** Non-negative readings average to at most the largest one. */
  lemma MeanAtMostMax(xs: seq<real>)
    requires xs != []
    ensures (forall i :: 0 <= i < |xs| ==> 0.0 <= xs[i]) ==> 0.0 <= Mean(xs) <= MaxOf(xs)
  {
    if forall i :: 0 <= i < |xs| ==> 0.0 <= xs[i] {
      MeanBounds(xs, 0.0, MaxOf(xs));
    }
  }

  /** psutil always reports at least one CPU. */
  function StatsOf(raw: RawSample): (s: SystemStats)
    requires raw.cpuPercents != []
    ensures s.cpuMaxCore * 100.0 in raw.cpuPercents
    ensures (forall i :: 0 <= i < |raw.cpuPercents| ==> 0.0 <= raw.cpuPercents[i]) ==> 0.0 <= s.cpuAverage <= s.cpuMaxCore
  {
    MeanAtMostMax(raw.cpuPercents);
    SystemStats(raw.memPercent / 100.0,
                raw.memAvailableBytes as real / 1073741824.0,
                Sum(raw.cpuPercents) / (|raw.cpuPercents| as real) / 100.0,
                MaxOf(raw.cpuPercents) / 100.0,
                raw.diskReadBytes + raw.diskWriteBytes > 1000000)
  }

  /** With percentages in [0, 100], every fraction of the sample lies in
      [0, 1] and the average core load never exceeds the busiest core. */
  lemma StatsBounds(raw: RawSample)
    requires raw.cpuPercents != [] && 0.0 <= raw.memPercent <= 100.0
    requires forall i :: 0 <= i < |raw.cpuPercents| ==> 0.0 <= raw.cpuPercents[i] <= 100.0
    ensures var s := StatsOf(raw);
      && 0.0 <= s.memoryUsedPercent <= 1.0
      && 0.0 <= s.cpuAverage <= s.cpuMaxCore <= 1.0
  {
    var m := MaxOf(raw.cpuPercents);
    MeanBounds(raw.cpuPercents, 0.0, m);
    assert Mean(raw.cpuPercents) == Sum(raw.cpuPercents) / (|raw.cpuPercents| as real);
  }

  /** Append one entry and drop the oldest when the history grows past ten. */
  function Record(history: seq<HistoryEntry>, e: HistoryEntry): (h: seq<HistoryEntry>)
    requires |history| <= HistoryLimit
    ensures |h| <= HistoryLimit && h != [] && h[|h| - 1] == e
    ensures |history| < HistoryLimit ==> h == history + [e]
    ensures |history| == HistoryLimit ==> h == history[1..] + [e]
  {
    var grown := history + [e];
    if |grown| > HistoryLimit then grown[1..] else grown
  }

  /** get_system_load: 0.7 mem + 0.3 cpu on Apple silicon, else the larger
      of the two. Either way it lies between the two inputs, so it stays
      within [0, 1] when they do. */
  function SystemLoad(isAppleSilicon: bool, memory: real, cpu: real): (r: real)
    ensures (if memory <= cpu then memory else cpu) <= r <= (if memory <= cpu then cpu else memory)
    ensures 0.0 <= memory <= 1.0 && 0.0 <= cpu <= 1.0 ==> 0.0 <= r <= 1.0
    ensures isAppleSilicon ==> r == 0.7 * memory + 0.3 * cpu
    ensures !isAppleSilicon ==> r == MaxReal(memory, cpu)
  {
    if isAppleSilicon then 0.7 * memory + 0.3 * cpu else MaxReal(memory, cpu)
  }

  function RecentCpuSum(history: seq<HistoryEntry>): real
    requires |history| >= 5
  {
    var n := |history|;
    history[n - 5].cpuAverage + history[n - 4].cpuAverage + history[n - 3].cpuAverage
      + history[n - 2].cpuAverage + history[n - 1].cpuAverage
  }

  /** The mean CPU fraction of the last five samples is above 0.85, checked
      only once the history holds more than five samples. */
  predicate SustainedCpuLoad(history: seq<HistoryEntry>)
  {
    |history| > 5 && RecentCpuSum(history) / 5.0 > 0.85
  }

  /** The memory stage of get_optimal_workers for base count B: halve
      (floor 2) under memory pressure above 0.8, otherwise add two (cap 12)
      when more than 16 GB are free, otherwise keep B. */
  function MemoryStage(base: int, stats: SystemStats): (m: int)
    ensures stats.memoryUsedPercent > 0.8 ==> m == Max(2, base / 2)
    ensures stats.memoryUsedPercent <= 0.8 && stats.memoryAvailableGb > 16.0 ==> m == Min(12, base + 2)
    ensures stats.memoryUsedPercent <= 0.8 && stats.memoryAvailableGb <= 16.0 ==> m == base
    ensures Min(base, 2) <= m <= Max(base, 12)
  {
    if stats.memoryUsedPercent > 0.8 then Max(2, base / 2)
    else if stats.memoryAvailableGb > 16.0 then Min(12, base + 2)
    else base
  }

  /** The worker recommendation of get_optimal_workers for base count B:
      the memory stage, then one fewer (floor 2) under sustained CPU load.
      The result never leaves [min(B, 2), max(B, 12)]. */
  function RecommendedWorkers(base: int, stats: SystemStats, history: seq<HistoryEntry>): (r: int)
    ensures Min(base, 2) <= r <= Max(base, 12)
    ensures !SustainedCpuLoad(history) ==> r == MemoryStage(base, stats)
    ensures SustainedCpuLoad(history) ==> r == Max(2, MemoryStage(base, stats) - 1)
    ensures stats.memoryUsedPercent > 0.8 && !SustainedCpuLoad(history) ==> r == Max(2, base / 2)
    ensures stats.memoryUsedPercent <= 0.8 && stats.memoryAvailableGb > 16.0 && !SustainedCpuLoad(history) ==> r == Min(12, base + 2)
    ensures stats.memoryUsedPercent <= 0.8 && stats.memoryAvailableGb <= 16.0 && !SustainedCpuLoad(history) ==> r == base
    ensures SustainedCpuLoad(history) ==> r >= 2
  {
    var afterMemory := MemoryStage(base, stats);
    if SustainedCpuLoad(history) then Max(2, afterMemory - 1) else afterMemory
  }

  class ResourceMonitor {
    const isAppleSilicon: bool
    var history: seq<HistoryEntry>

    ghost predicate Valid()
      reads this
    {
      |history| <= HistoryLimit
    }

    constructor (isAppleSilicon: bool)
      ensures Valid() && this.isAppleSilicon == isAppleSilicon && history == []
    {
      this.isAppleSilicon := isAppleSilicon;
      history := [];
    }

    /** Take one sample at time `now`, record it in the history. */
    method GetDetailedStats(raw: RawSample, now: real) returns (stats: SystemStats)
      requires Valid() && raw.cpuPercents != []
      modifies this
      ensures Valid()
      ensures stats == StatsOf(raw)
      ensures history == Record(old(history), HistoryEntry(now, stats.memoryUsedPercent, stats.cpuAverage))
    {
      stats := StatsOf(raw);
      history := history + [HistoryEntry(now, stats.memoryUsedPercent, stats.cpuAverage)];
      if |history| > HistoryLimit {
        history := history[1..];
      }
    }

    method GetSystemLoad(raw: RawSample, now: real) returns (load: real)
      requires Valid() && raw.cpuPercents != []
      modifies this
      ensures Valid()
      ensures history == Record(old(history), HistoryEntry(now, StatsOf(raw).memoryUsedPercent, StatsOf(raw).cpuAverage))
      ensures load == SystemLoad(isAppleSilicon, StatsOf(raw).memoryUsedPercent, StatsOf(raw).cpuAverage)
    {
      var stats := GetDetailedStats(raw, now);
      if isAppleSilicon {
        load := 0.7 * stats.memoryUsedPercent + 0.3 * stats.cpuAverage;
      } else {
        load := MaxReal(stats.memoryUsedPercent, stats.cpuAverage);
      }
    }

    method GetOptimalWorkers(raw: RawSample, now: real) returns (count: int)
      requires Valid() && raw.cpuPercents != []
      modifies this
      ensures Valid()
      ensures history == Record(old(history), HistoryEntry(now, StatsOf(raw).memoryUsedPercent, StatsOf(raw).cpuAverage))
      ensures count == RecommendedWorkers(PipelineWorkers, StatsOf(raw), history)
      ensures 2 <= count <= 12
    {
      var stats := GetDetailedStats(raw, now);
      count := PipelineWorkers;
      if stats.memoryUsedPercent > 0.8 {
        count := Max(2, count / 2);
      } else if stats.memoryAvailableGb > 16.0 {
        count := Min(12, count + 2);
      }
      if |history| > 5 {
        var recentCpu := RecentCpuSum(history);
        if recentCpu / 5.0 > 0.85 {
          count := Max(2, count - 1);
        }
      }
    }
  }

  // ---------------------------------------------------------- classifier

  /** The reply, stripped, lower-cased and with '_' turned into ' ', if it
      names a known domain, else "unknown". Since no result contains '_',
      "computer_science" is never produced although it is a listed domain. */
  function NormaliseDomain(reply: string): (r: string)
    ensures r in KnownDomains || r == "unknown"
    ensures '_' !in r
    ensures r != "computer_science"
  {
    var domain := ReplaceChar(Lower(Strip(reply)), '_', ' ');
    NoUnderscoreIsNotComputerScience(domain);
    if domain in KnownDomains then domain else "unknown"
  }

  lemma NoUnderscoreIsNotComputerScience(s: string)
    requires forall i :: 0 <= i < |s| ==> s[i] != '_'
    ensures '_' !in s && s != "computer_science"
  {
  }

  function DomainSample(doc: Document): string
  {
    if |doc.content| <= DomainSampleLength then doc.content else doc.content[..DomainSampleLength]
  }

  /** One classify call against `cache`: the cached value when the id is
      present, otherwise the model's normalised reply, which is added to
      the cache. None when the model client raises. */
  function ClassifyStep(cache: map<string, string>, doc: Document, generate: string -> Reply): (r: Option<(string, map<string, string>)>)
    ensures doc.documentId in cache ==> r == Some((cache[doc.documentId], cache))
    ensures r.None? <==> doc.documentId !in cache && generate(DomainSample(doc)).Raised?
    ensures r.Some? ==> r.value.1 == cache[doc.documentId := r.value.0]
    ensures r.Some? && doc.documentId !in cache ==> r.value.0 in KnownDomains || r.value.0 == "unknown"
  {
    if doc.documentId in cache then Some((cache[doc.documentId], cache))
    else match generate(DomainSample(doc))
      case Raised(_) => None
      case Answer(text) =>
        var domain := NormaliseDomain(text);
        Some((domain, cache[doc.documentId := domain]))
  }

  class DomainClassifier {
    var cache: map<string, string>
    /** The samples handed to the model client, one per model call. */
    ghost var modelCalls: seq<string>

    constructor ()
      ensures cache == map[] && modelCalls == []
    {
      cache := map[];
      modelCalls := [];
    }

    method Classify(doc: Document, generate: string -> Reply) returns (ok: bool, domain: string)
      modifies this
      ensures ok <==> ClassifyStep(old(cache), doc, generate).Some?
      ensures ok ==> (domain, cache) == ClassifyStep(old(cache), doc, generate).value
      ensures !ok ==> cache == old(cache)
      ensures doc.documentId in old(cache) ==> modelCalls == old(modelCalls)
      ensures doc.documentId !in old(cache) ==> modelCalls == old(modelCalls) + [DomainSample(doc)]
    {
      if doc.documentId in cache {
        return true, cache[doc.documentId];
      }
      var sample := if |doc.content| <= DomainSampleLength then doc.content else doc.content[..DomainSampleLength];
      modelCalls := modelCalls + [sample];
      var reply := generate(sample);
      if reply.Raised? {
        return false, "";
      }
      var normalised := ReplaceChar(Lower(Strip(reply.text)), '_', ' ');
      domain := if normalised in KnownDomains then normalised else "unknown";
      cache := cache[doc.documentId := domain];
      ok := true;
    }
  }

  /** Classification repeated for the same document id agrees with the first. */
  lemma ClassifyIsStable(cache: map<string, string>, doc: Document, generate: string -> Reply, later: string -> Reply)
    requires ClassifyStep(cache, doc, generate).Some?
    ensures var (domain, cache') := ClassifyStep(cache, doc, generate).value;
      ClassifyStep(cache', doc, later) == Some((domain, cache'))
  {
  }

  // ------------------------------------------------------------ guardian

  /** The decision for a document that was classified into `domain`. */
  function DecisionFor(path: string, memory: real, domain: string): (d: ProcessingDecision)
    ensures d.path == path && d.reason == None && d.action != Skip
    ensures d.action == Limited <==> domain in MediumSuccessDomains && memory > 0.75
  {
    if domain in HighSuccessDomains then ProcessingDecision(path, Full, None)
    else if domain in MediumSuccessDomains then
      (if memory > 0.75 then ProcessingDecision(path, Limited, None) else ProcessingDecision(path, Full, None))
    else ProcessingDecision(path, Full, None)
  }

  /** The decision enforce_processing_limits appends for one document,
      with the classifier cache after it, or None when the model raised. */
  function PlanStep(doc: Document, memory: real, cache: map<string, string>, generate: string -> Reply)
    : Option<(ProcessingDecision, map<string, string>)>
  {
    if memory > 0.9 then Some((ProcessingDecision(doc.path, Skip, Some(CriticalMemoryReason)), cache))
    else
      match ClassifyStep(cache, doc, generate)
      case None => None
      case Some((domain, cache')) => Some((DecisionFor(doc.path, memory, domain), cache'))
  }

  /** The decisions and the final cache of enforce_processing_limits over
      `docs` for one memory reading, or None when a classification raises. */
  function PlanFor(docs: seq<Document>, memory: real, cache: map<string, string>, generate: string -> Reply)
    : (r: Option<(seq<ProcessingDecision>, map<string, string>)>)
    ensures memory > 0.9 ==> r.Some? && r.value.1 == cache
    ensures r.Some? ==> forall id :: id in cache ==> id in r.value.1 && r.value.1[id] == cache[id]
  {
    if docs == [] then Some(([], cache))
    else
      match PlanFor(docs[..|docs| - 1], memory, cache, generate)
      case None => None
      case Some((decisions, cache')) =>
        match PlanStep(docs[|docs| - 1], memory, cache', generate)
        case None => None
        case Some((d, cache'')) => Some((decisions + [d], cache''))
  }

  /** A decision for `path` under `memory`: `skip` exactly when memory is
      above 0.9, and `limited` only when it lies in (0.75, 0.9]. */
  predicate Shaped(d: ProcessingDecision, path: string, memory: real)
  {
    && d.path == path
    && (d.action == Skip <==> memory > 0.9)
    && (d.action == Limited ==> 0.75 < memory <= 0.9)
  }

  /** One decision per document, in input order, each shaped by the one
      memory reading. */
  lemma {:induction false} PlanShape(docs: seq<Document>, memory: real, cache: map<string, string>, generate: string -> Reply)
    requires PlanFor(docs, memory, cache, generate).Some?
    ensures var decisions := PlanFor(docs, memory, cache, generate).value.0;
      && |decisions| == |docs|
      && (forall i :: 0 <= i < |docs| ==> Shaped(decisions[i], docs[i].path, memory))
  {
    PlanLength(docs, memory, cache, generate);
    forall i | 0 <= i < |docs|
      ensures Shaped(PlanFor(docs, memory, cache, generate).value.0[i], docs[i].path, memory)
    {
      ShapeAt(docs, memory, cache, generate, i);
    }
  }

  lemma {:induction false} PlanLength(docs: seq<Document>, memory: real, cache: map<string, string>, generate: string -> Reply)
    requires PlanFor(docs, memory, cache, generate).Some?
    ensures |PlanFor(docs, memory, cache, generate).value.0| == |docs|
  {
    if docs != [] {
      PlanSnoc(docs, memory, cache, generate);
      PlanLength(docs[..|docs| - 1], memory, cache, generate);
    }
  }

  lemma {:induction false} ShapeAt(docs: seq<Document>, memory: real, cache: map<string, string>, generate: string -> Reply, i: int)
    requires PlanFor(docs, memory, cache, generate).Some? && 0 <= i < |docs|
    ensures i < |PlanFor(docs, memory, cache, generate).value.0|
    ensures Shaped(PlanFor(docs, memory, cache, generate).value.0[i], docs[i].path, memory)
    decreases |docs|
  {
    PlanLength(docs, memory, cache, generate);
    if i < |docs| - 1 {
      var init := docs[..|docs| - 1];
      ShapeAt(init, memory, cache, generate, i);
      EarlierDecision(docs, memory, cache, generate, i);
    } else {
      LastDecision(docs, memory, cache, generate);
    }
  }

  /** A decision before the last one is the plan over the other documents'. */
  lemma EarlierDecision(docs: seq<Document>, memory: real, cache: map<string, string>, generate: string -> Reply, i: int)
    requires PlanFor(docs, memory, cache, generate).Some? && 0 <= i < |docs| - 1
    ensures var prior := PlanFor(docs[..|docs| - 1], memory, cache, generate);
      && prior.Some? && i < |prior.value.0| && i < |PlanFor(docs, memory, cache, generate).value.0|
      && PlanFor(docs, memory, cache, generate).value.0[i] == prior.value.0[i]
      && docs[i] == docs[..|docs| - 1][i]
  {
    PlanSnoc(docs, memory, cache, generate);
    PlanLength(docs[..|docs| - 1], memory, cache, generate);
  }

  /** The last decision is shaped by the last document. */
  lemma LastDecision(docs: seq<Document>, memory: real, cache: map<string, string>, generate: string -> Reply)
    requires PlanFor(docs, memory, cache, generate).Some? && docs != []
    ensures |PlanFor(docs, memory, cache, generate).value.0| == |docs|
    ensures Shaped(PlanFor(docs, memory, cache, generate).value.0[|docs| - 1], docs[|docs| - 1].path, memory)
  {
    var init := docs[..|docs| - 1];
    PlanSnoc(docs, memory, cache, generate);
    PlanLength(init, memory, cache, generate);
    PlanLength(docs, memory, cache, generate);
    var prior := PlanFor(init, memory, cache, generate).value;
    StepShape(docs[|docs| - 1], memory, prior.1, generate);
  }

  /** A plan over one more document is the plan over the others followed by
      one step from their cache. */
  lemma PlanSnoc(docs: seq<Document>, memory: real, cache: map<string, string>, generate: string -> Reply)
    requires docs != [] && PlanFor(docs, memory, cache, generate).Some?
    ensures var prior := PlanFor(docs[..|docs| - 1], memory, cache, generate);
      && prior.Some?
      && PlanStep(docs[|docs| - 1], memory, prior.value.1, generate).Some?
      && PlanFor(docs, memory, cache, generate).value.0 == prior.value.0 + [PlanStep(docs[|docs| - 1], memory, prior.value.1, generate).value.0]
  {
  }

  /** The decision for one document is shaped by its path and the memory
      reading. */
  lemma StepShape(doc: Document, memory: real, cache: map<string, string>, generate: string -> Reply)
    requires PlanStep(doc, memory, cache, generate).Some?
    ensures Shaped(PlanStep(doc, memory, cache, generate).value.0, doc.path, memory)
  {
  }

  /** Under critical memory pressure every document is skipped with the
      same reason, nothing can fail, and the classifier cache is untouched. */
  lemma {:induction false} CriticalMemorySkipsAll(docs: seq<Document>, memory: real, cache: map<string, string>, generate: string -> Reply)
    requires memory > 0.9
    ensures PlanFor(docs, memory, cache, generate).Some?
    ensures PlanFor(docs, memory, cache, generate).value.1 == cache
    ensures forall d :: d in PlanFor(docs, memory, cache, generate).value.0 ==>
      d.action == Skip && d.reason == Some(CriticalMemoryReason)
  {
    if docs != [] {
      CriticalMemorySkipsAll(docs[..|docs| - 1], memory, cache, generate);
    }
  }

  /** Extending the document prefix by one runs one more PlanStep. */
  lemma PlanForExtend(docs: seq<Document>, i: int, memory: real, cache: map<string, string>, generate: string -> Reply,
                      decisions: seq<ProcessingDecision>, cache': map<string, string>)
    requires 0 <= i < |docs|
    requires PlanFor(docs[..i], memory, cache, generate) == Some((decisions, cache'))
    ensures PlanFor(docs[..i + 1], memory, cache, generate) ==
      match PlanStep(docs[i], memory, cache', generate)
      case None => None
      case Some((d, cache'')) => Some((decisions + [d], cache''))
  {
    assert docs[..i + 1][..i] == docs[..i];
  }

  class ResourceGuardian {
    const domainClassifier: DomainClassifier
    const resourceMonitor: ResourceMonitor

    constructor (isAppleSilicon: bool)
      ensures fresh(domainClassifier) && fresh(resourceMonitor)
      ensures domainClassifier.cache == map[] && domainClassifier.modelCalls == []
      ensures resourceMonitor.Valid() && resourceMonitor.history == [] && resourceMonitor.isAppleSilicon == isAppleSilicon
    {
      domainClassifier := new DomainClassifier();
      resourceMonitor := new ResourceMonitor(isAppleSilicon);
    }

    /** enforce_processing_limits: one stats sample, then one decision per
        document. `ok` is false when the classifier's model call raised. */
    method EnforceProcessingLimits(documents: seq<Document>, raw: RawSample, now: real, generate: string -> Reply)
      returns (ok: bool, plan: ProcessingPlan)
      requires resourceMonitor.Valid() && raw.cpuPercents != []
      modifies domainClassifier, resourceMonitor
      ensures fresh(plan)
      ensures resourceMonitor.Valid()
      ensures resourceMonitor.history == Record(old(resourceMonitor.history),
        HistoryEntry(now, StatsOf(raw).memoryUsedPercent, StatsOf(raw).cpuAverage))
      ensures ok <==> PlanFor(documents, StatsOf(raw).memoryUsedPercent, old(domainClassifier.cache), generate).Some?
      ensures StatsOf(raw).memoryUsedPercent > 0.9 ==> domainClassifier.modelCalls == old(domainClassifier.modelCalls)
      ensures ok ==>
        (plan.decisions, domainClassifier.cache)
          == PlanFor(documents, StatsOf(raw).memoryUsedPercent, old(domainClassifier.cache), generate).value
    {
      plan := new ProcessingPlan([]);
      var stats := resourceMonitor.GetDetailedStats(raw, now);
      ok := DecideAll(plan, documents, stats.memoryUsedPercent, generate);
    }

    /** The decision loop of enforce_processing_limits for one memory reading. */
    method DecideAll(plan: ProcessingPlan, documents: seq<Document>, memory: real, generate: string -> Reply) returns (ok: bool)
      requires plan.decisions == []
      modifies plan, domainClassifier
      ensures ok <==> PlanFor(documents, memory, old(domainClassifier.cache), generate).Some?
      ensures memory > 0.9 ==> domainClassifier.modelCalls == old(domainClassifier.modelCalls)
      ensures ok ==>
        (plan.decisions, domainClassifier.cache) == PlanFor(documents, memory, old(domainClassifier.cache), generate).value
    {
      ghost var cache0 := domainClassifier.cache;
      ghost var calls0 := domainClassifier.modelCalls;
      var i := 0;
      while i < |documents|
        invariant 0 <= i <= |documents|
        invariant PlanFor(documents[..i], memory, cache0, generate) == Some((plan.decisions, domainClassifier.cache))
        invariant memory > 0.9 ==> domainClassifier.modelCalls == calls0
      {
        PlanForExtend(documents, i, memory, cache0, generate, plan.decisions, domainClassifier.cache);
        var decided := Decide(plan, documents[i], memory, generate);
        if !decided {
          PlanForFails(documents, i + 1, memory, cache0, generate);
          return false;
        }
        i := i + 1;
      }
      assert documents[..i] == documents;
      ok := true;
    }

    /** The body of the decision loop for one document. */
    method Decide(plan: ProcessingPlan, doc: Document, memory: real, generate: string -> Reply) returns (ok: bool)
      modifies plan, domainClassifier
      ensures ok <==> PlanStep(doc, memory, old(domainClassifier.cache), generate).Some?
      ensures ok ==>
        (plan.decisions, domainClassifier.cache)
          == (old(plan.decisions) + [PlanStep(doc, memory, old(domainClassifier.cache), generate).value.0],
            PlanStep(doc, memory, old(domainClassifier.cache), generate).value.1)
      ensures memory > 0.9 ==> domainClassifier.modelCalls == old(domainClassifier.modelCalls)
    {
      if memory > 0.9 {
        plan.AddSkipProcessing(doc.path, CriticalMemoryReason);
        return true;
      }
      var classified, domain := domainClassifier.Classify(doc, generate);
      if !classified {
        return false;
      }
      if domain in HighSuccessDomains {
        plan.AddFullProcessing(doc.path);
      } else if domain in MediumSuccessDomains {
        if memory > 0.75 {
          plan.AddLimitedProcessing(doc.path);
        } else {
          plan.AddFullProcessing(doc.path);
        }
      } else {
        plan.AddFullProcessing(doc.path);
      }
      ok := true;
    }
  }

  lemma {:induction false} PlanForFails(docs: seq<Document>, k: int, memory: real, cache: map<string, string>, generate: string -> Reply)
    requires 0 <= k <= |docs|
    requires PlanFor(docs[..k], memory, cache, generate).None?
    ensures PlanFor(docs, memory, cache, generate).None?
    decreases |docs| - k
  {
    if k < |docs| {
      assert docs[..k + 1][..k] == docs[..k];
      PlanForFails(docs, k + 1, memory, cache, generate);
    } else {
      assert docs[..k] == docs;
    }
  }
}
