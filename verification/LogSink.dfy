/** internal/observability/metrics/log_sink.go: metrics kept in memory and reported at every flush. */
module LogSink {
  import opened Base
  import opened MetricKey
  import opened DurationStats

  /** What the sink holds between two flushes. */
  datatype Content = Content(counters: map<string, int>, gauges: map<string, real>, timers: map<string, seq<real>>)

  const EMPTY := Content(map[], map[], map[])

  /** The attributes of one "metrics_flush" log record. */
  datatype Report = Report(counters: map<string, int>, gauges: map<string, real>, timers: map<string, Stats>)

  /** A call of the sink; ns is a duration in nanoseconds. */
  datatype Call =
    | Inc(key: string, value: int)
    | Set(key: string, level: real)
    | Observe(key: string, ns: int)
    | Flushed

  function Milliseconds(ns: int): real {
    QuotientTowardZero(ns, MILLISECOND) as real
  }

  function Counter(c: Content, key: string): int {
    if key in c.counters then c.counters[key] else 0
  }

  function Window(c: Content, key: string): seq<real> {
    if key in c.timers then c.timers[key] else []
  }

  function Apply(c: Content, call: Call): Content {
    match call
    case Inc(key, value) => c.(counters := c.counters[key := Wrap64(Counter(c, key) + value)])
    case Set(key, level) => c.(gauges := c.gauges[key := level])
    case Observe(key, ns) => c.(timers := c.timers[key := Window(c, key) + [Milliseconds(ns)]])
    case Flushed => EMPTY
  }

  function ReportOf(c: Content): Report {
    Report(c.counters, c.gauges, map key | key in c.timers && c.timers[key] != [] :: Summary(c.timers[key]))
  }

  /** The content after a history of calls. */
  function After(calls: seq<Call>): Content {
    if calls == [] then EMPTY else Apply(After(calls[..|calls| - 1]), calls[|calls| - 1])
  }

  /** The reports logged in a history of calls; a flush of an empty sink logs nothing. */
  function Reports(calls: seq<Call>): seq<Report> {
    if calls == [] then []
    else
      var before := calls[..|calls| - 1];
      if calls[|calls| - 1].Flushed? && After(before) != EMPTY then Reports(before) + [ReportOf(After(before))]
      else Reports(before)
  }

  // ---------------------------------------------------------------------------------------------------------
  // Nothing observed is lost or counted twice
  // ---------------------------------------------------------------------------------------------------------

  /** Everything ever added to a counter. */
  function Added(calls: seq<Call>, key: string): int {
    if calls == [] then 0
    else
      var call := calls[|calls| - 1];
      Added(calls[..|calls| - 1], key) + (if call.Inc? && call.key == key then call.value else 0)
  }

  function Reported(reports: seq<Report>, key: string): int {
    if reports == [] then 0
    else
      var last := reports[|reports| - 1];
      Reported(reports[..|reports| - 1], key) + (if key in last.counters then last.counters[key] else 0)
  }

  /** The durations ever observed, in order. */
  function Observed(calls: seq<Call>, key: string): seq<real> {
    if calls == [] then [] else Observed(calls[..|calls| - 1], key) + Sample(calls[|calls| - 1], key)
  }

  function Sample(call: Call, key: string): seq<real> {
    if call.Observe? && call.key == key then [Milliseconds(call.ns)] else []
  }

  /** The durations observed since the last flush. */
  function Since(calls: seq<Call>, key: string): seq<real> {
    if calls == [] || calls[|calls| - 1].Flushed? then []
    else Since(calls[..|calls| - 1], key) + Sample(calls[|calls| - 1], key)
  }

  /** The durations observed between one flush and the next, leaving out the stretches without any. */
  function Windows(calls: seq<Call>, key: string): seq<seq<real>> {
    if calls == [] then []
    else
      var before := calls[..|calls| - 1];
      if calls[|calls| - 1].Flushed? && Since(before, key) != [] then Windows(before, key) + [Since(before, key)]
      else Windows(before, key)
  }

  function Concat(windows: seq<seq<real>>): seq<real> {
    if windows == [] then [] else Concat(windows[..|windows| - 1]) + windows[|windows| - 1]
  }

  /** The summaries reported for a timer, in order. */
  function Summaries(reports: seq<Report>, key: string): seq<Stats> {
    if reports == [] then []
    else
      var last := reports[|reports| - 1];
      Summaries(reports[..|reports| - 1], key) + (if key in last.timers then [last.timers[key]] else [])
  }

  lemma WrapAbsorbs(a: int, b: int, c: int)
    ensures Wrap64(a + Wrap64(b + c)) == Wrap64(a + b + c)
  {
  }

  lemma WrapShift(a: int, b: int, c: int)
    requires Wrap64(a) == Wrap64(b)
    ensures Wrap64(a + c) == Wrap64(b + c)
  {
  }

  lemma ReportedAppend(reports: seq<Report>, r: Report, key: string)
    ensures Reported(reports + [r], key) == Reported(reports, key) + (if key in r.counters then r.counters[key] else 0)
    ensures Summaries(reports + [r], key)
         == Summaries(reports, key) + (if key in r.timers then [r.timers[key]] else [])
  {
    assert (reports + [r])[..|reports|] == reports;
  }

  /** What one call does to a counter: what is reported, and what is held. */
  lemma CounterStep(calls: seq<Call>, call: Call, key: string)
    ensures var increment := if call.Inc? && call.key == key then call.value else 0;
            && Added(calls + [call], key) == Added(calls, key) + increment
            && if call.Flushed? then
                 && Reported(Reports(calls + [call]), key) == Reported(Reports(calls), key) + Counter(After(calls), key)
                 && Counter(After(calls + [call]), key) == 0
               else
                 && Reports(calls + [call]) == Reports(calls)
                 && Counter(After(calls + [call]), key)
                 == if call.Inc? && call.key == key then Wrap64(Counter(After(calls), key) + increment)
                    else Counter(After(calls), key)
  {
    Record(calls, call);
    assert (calls + [call])[..|calls|] == calls;
    var c := After(calls);
    ApplyCounter(c, call, key);
    ReportedAppend(Reports(calls), ReportOf(c), key);
    ReportCounter(c, key);
    hide Reports, After, Wrap64, Reported, ReportOf, Apply, Counter;
  }

  lemma ApplyCounter(c: Content, call: Call, key: string)
    ensures Counter(Apply(c, call), key)
         == if call.Flushed? then 0
            else if call.Inc? && call.key == key then Wrap64(Counter(c, key) + call.value)
            else Counter(c, key)
  {
    hide Wrap64, Milliseconds;
  }

  /** A report has the counters that are held, which is none of them when nothing is held. */
  lemma ReportCounter(c: Content, key: string)
    ensures Counter(c, key) == if key in ReportOf(c).counters then ReportOf(c).counters[key] else 0
    ensures c == EMPTY ==> Counter(c, key) == 0
  {
    hide Summary;
  }

  /**
   * Conservation of counters: over any history, the increments reported so far and those still held add up to all
   * that was ever added, up to the wrap-around of int64.
   */
  lemma {:induction false} CountersAreConserved(calls: seq<Call>, key: string)
    ensures Wrap64(Reported(Reports(calls), key) + Counter(After(calls), key)) == Wrap64(Added(calls, key))
  {
    hide *;
    if calls == [] {
      NothingYet(key);
    } else {
      var before := calls[..|calls| - 1];
      var call := calls[|calls| - 1];
      assert before + [call] == calls;
      CountersAreConserved(before, key);
      ConservedNext(before, call, key);
    }
  }

  lemma NothingYet(key: string)
    ensures Reported(Reports([]), key) == 0 && Counter(After([]), key) == 0 && Added([], key) == 0
  {
  }

  lemma ConservedNext(calls: seq<Call>, call: Call, key: string)
    requires Wrap64(Reported(Reports(calls), key) + Counter(After(calls), key)) == Wrap64(Added(calls, key))
    ensures var calls' := calls + [call];
            Wrap64(Reported(Reports(calls'), key) + Counter(After(calls'), key)) == Wrap64(Added(calls', key))
  {
    hide *;
    CounterStep(calls, call, key);
    var reported, held, added := Reported(Reports(calls), key), Counter(After(calls), key), Added(calls, key);
    if call.Flushed? {
      assert Added(calls + [call], key) == added + 0;
    } else if call.Inc? && call.key == key {
      IncConserves(reported, held, added, call.value);
    }
  }

  lemma IncConserves(reported: int, held: int, added: int, value: int)
    requires Wrap64(reported + held) == Wrap64(added)
    ensures Wrap64(reported + Wrap64(held + value)) == Wrap64(added + value)
  {
    WrapAbsorbs(reported, held, value);
    WrapShift(reported + held, added, value);
    hide Wrap64;
  }

  /** What is held of a timer is what was observed since the last flush. */
  lemma {:induction false} WindowIsSince(calls: seq<Call>, key: string)
    ensures Window(After(calls), key) == Since(calls, key)
  {
    if calls != [] {
      WindowIsSince(calls[..|calls| - 1], key);
      hide Milliseconds;
    }
  }

  /** Cut at the flushes, the observations are the windows one after the other, and what came since. */
  lemma {:induction false} WindowsAreObserved(calls: seq<Call>, key: string)
    ensures Concat(Windows(calls, key)) + Since(calls, key) == Observed(calls, key)
  {
    if calls != [] {
      var before := calls[..|calls| - 1];
      WindowsAreObserved(before, key);
      hide Milliseconds;
      if calls[|calls| - 1].Flushed? && Since(before, key) != [] {
        var windows := Windows(calls, key);
        assert windows[..|windows| - 1] == Windows(before, key);
      }
    }
  }

  /** The summary of each window, in order. */
  predicate Summarizes(summaries: seq<Stats>, windows: seq<seq<real>>) {
    && |summaries| == |windows|
    && forall i :: 0 <= i < |windows| ==> windows[i] != [] && summaries[i] == Summary(windows[i])
  }

  /** What one call does to the summaries: a flush of samples adds theirs. */
  lemma SummaryStep(calls: seq<Call>, call: Call, key: string)
    ensures var flushed := call.Flushed? && Since(calls, key) != [];
            && Summaries(Reports(calls + [call]), key)
               == Summaries(Reports(calls), key) + (if flushed then [Summary(Since(calls, key))] else [])
            && Windows(calls + [call], key) == Windows(calls, key) + (if flushed then [Since(calls, key)] else [])
  {
    Record(calls, call);
    assert (calls + [call])[..|calls|] == calls;
    WindowIsSince(calls, key);
    var c := After(calls);
    ReportTimer(c, key);
    ReportedAppend(Reports(calls), ReportOf(c), key);
    hide After, Reports, Summaries, Summary, ReportOf, Since, Reported, Apply;
  }

  /** A report has a summary for a timer that has samples, and for no other. */
  lemma ReportTimer(c: Content, key: string)
    ensures key in ReportOf(c).timers <==> Window(c, key) != []
    ensures Window(c, key) != [] ==> c != EMPTY && ReportOf(c).timers[key] == Summary(Window(c, key))
  {
    hide Summary;
  }

  lemma {:induction false} ReportsSummarizeWindows(calls: seq<Call>, key: string)
    ensures Summarizes(Summaries(Reports(calls), key), Windows(calls, key))
  {
    if calls != [] {
      hide *;
      var before := calls[..|calls| - 1];
      var call := calls[|calls| - 1];
      assert calls == before + [call];
      ReportsSummarizeWindows(before, key);
      SummaryStep(before, call, key);
      if call.Flushed? && Since(before, key) != [] {
        SummarizesNext(Summaries(Reports(before), key), Windows(before, key), Since(before, key));
      } else {
        assert Summaries(Reports(before), key) + [] == Summaries(Reports(before), key);
        assert Windows(before, key) + [] == Windows(before, key);
      }
    }
  }

  lemma SummarizesNext(summaries: seq<Stats>, windows: seq<seq<real>>, window: seq<real>)
    requires Summarizes(summaries, windows) && window != []
    ensures Summarizes(summaries + [Summary(window)], windows + [window])
  {
    hide Summary;
  }

  /**
   * Conservation of samples: the reports summarise the observed durations cut at the flushes, each window once and in
   * order, and what has been observed since the last flush is held.
   */
  lemma SamplesAreConserved(calls: seq<Call>, key: string)
    ensures Concat(Windows(calls, key)) + Window(After(calls), key) == Observed(calls, key)
    ensures Summarizes(Summaries(Reports(calls), key), Windows(calls, key))
  {
    hide *;
    WindowIsSince(calls, key);
    WindowsAreObserved(calls, key);
    ReportsSummarizeWindows(calls, key);
  }

  /** A gauge holds the level it was last set to. */
  lemma {:induction false} GaugeIsLatest(calls: seq<Call>, key: string, i: nat)
    requires i < |calls| && calls[i].Set? && calls[i].key == key
    requires forall j :: i < j < |calls| ==> !calls[j].Flushed? && !(calls[j].Set? && calls[j].key == key)
    ensures key in After(calls).gauges && After(calls).gauges[key] == calls[i].level
  {
    if i < |calls| - 1 {
      GaugeIsLatest(calls[..|calls| - 1], key, i);
    }
  }

  /** The level a gauge was last set to since the last flush. */
  function Level(calls: seq<Call>, key: string): Option<real> {
    if calls == [] then None
    else
      var last := calls[|calls| - 1];
      if last.Flushed? then None
      else if last.Set? && last.key == key then Some(last.level)
      else Level(calls[..|calls| - 1], key)
  }

  lemma {:induction false} HeldIsLevel(calls: seq<Call>, key: string)
    ensures key in After(calls).gauges <==> Level(calls, key).Some?
    ensures Level(calls, key).Some? ==> After(calls).gauges[key] == Level(calls, key).value
  {
    if calls != [] {
      HeldIsLevel(calls[..|calls| - 1], key);
      hide Milliseconds, Wrap64;
    }
  }

  /** What was added to a counter since the last flush, if anything was, even zero. */
  function AddedSince(calls: seq<Call>, key: string): Option<int> {
    if calls == [] then None
    else
      var last := calls[|calls| - 1];
      var before := AddedSince(calls[..|calls| - 1], key);
      if last.Flushed? then None
      else if last.Inc? && last.key == key then Some(last.value + if before.Some? then before.value else 0)
      else before
  }

  lemma {:induction false} HeldIsAdded(calls: seq<Call>, key: string)
    ensures key in After(calls).counters <==> AddedSince(calls, key).Some?
    ensures AddedSince(calls, key).Some? ==> After(calls).counters[key] == Wrap64(AddedSince(calls, key).value)
  {
    if calls != [] {
      HeldIsAdded(calls[..|calls| - 1], key);
      hide Milliseconds, Wrap64;
      var last := calls[|calls| - 1];
      var before := AddedSince(calls[..|calls| - 1], key);
      if last.Inc? && before.Some? {
        WrapAbsorbs(last.value, before.value, 0);
      }
    }
  }

  /**
   * A flush reports a gauge if and only if it was set since the last flush, with the level it was last set to, and a
   * counter if and only if it was added to since then, with the sum; and it reports nothing at all if and only if
   * nothing was recorded since then.
   */
  lemma FlushReports(calls: seq<Call>, key: string)
    ensures var reports := Reports(calls + [Flushed]);
            if calls == [] || calls[|calls| - 1].Flushed? then reports == Reports(calls)
            else
              && |reports| == |Reports(calls)| + 1 && reports[..|reports| - 1] == Reports(calls)
              && var r := reports[|reports| - 1];
                 && (key in r.gauges <==> Level(calls, key).Some?)
                 && (key in r.gauges ==> r.gauges[key] == Level(calls, key).value)
                 && (key in r.counters <==> AddedSince(calls, key).Some?)
                 && (key in r.counters ==> r.counters[key] == Wrap64(AddedSince(calls, key).value))
  {
    hide Wrap64, AddedSince;
    Record(calls, Flushed);
    HeldIsLevel(calls, key);
    HeldIsAdded(calls, key);
    SomethingHeld(calls);
    hide After, Reports, Summary, Level;
  }

  lemma SomethingHeld(calls: seq<Call>)
    ensures After(calls) == EMPTY <==> calls == [] || calls[|calls| - 1].Flushed?
  {
    hide Milliseconds, Wrap64;
    if calls != [] {
      var c := After(calls[..|calls| - 1]);
      hide After;
      match calls[|calls| - 1]
      case Inc(key, value) => assert key in Apply(c, calls[|calls| - 1]).counters;
      case Set(key, level) => assert key in Apply(c, calls[|calls| - 1]).gauges;
      case Observe(key, ns) => assert key in Apply(c, calls[|calls| - 1]).timers;
      case Flushed =>
    }
  }

  /** Durations are truncated to whole milliseconds. */
  lemma WholeMilliseconds(ns: nat)
    ensures Milliseconds(ns) * 1_000_000.0 == (ns - ns % 1_000_000) as real
    ensures Milliseconds(0 - ns) == -Milliseconds(ns)
  {
    assert ns - ns % 1_000_000 == ns / 1_000_000 * 1_000_000;
  }

  class LogSink {
    var counters: map<string, int>
    var gauges: map<string, real>
    var timers: map<string, seq<real>>

    /** The calls so far and the records logged by them. */
    ghost var calls: seq<Call>
    ghost var logged: seq<Report>

    ghost predicate Valid()
      reads this
    {
      Content(counters, gauges, timers) == After(calls) && logged == Reports(calls)
    }

    constructor ()
      ensures Valid() && calls == []
    {
      counters, gauges, timers := map[], map[], map[];
      calls, logged := [], [];
    }

    method IncCounter(name: string, labels: Labels, value: int)
      requires Valid()
      modifies this
      ensures Valid()
      ensures exists key :: IsKey(name, labels, key) && calls == old(calls) + [Inc(key, value)]
    {
      hide After, Reports, Wrap64;
      var key := Key(name, labels);
      var current := if key in counters then counters[key] else 0;
      counters := counters[key := Wrap64(current + value)];
      Record(calls, Inc(key, value));
      calls := calls + [Inc(key, value)];
    }

    method SetGauge(name: string, labels: Labels, value: real)
      requires Valid()
      modifies this
      ensures Valid()
      ensures exists key :: IsKey(name, labels, key) && calls == old(calls) + [Set(key, value)]
    {
      hide After, Reports;
      var key := Key(name, labels);
      gauges := gauges[key := value];
      Record(calls, Set(key, value));
      calls := calls + [Set(key, value)];
    }

    method ObserveDuration(name: string, labels: Labels, ns: int)
      requires Valid()
      modifies this
      ensures Valid()
      ensures exists key :: IsKey(name, labels, key) && calls == old(calls) + [Observe(key, ns)]
    {
      hide After, Reports, Milliseconds;
      var key := Key(name, labels);
      if key !in timers {
        timers := timers[key := []];
      }
      timers := timers[key := timers[key] + [Milliseconds(ns)]];
      Record(calls, Observe(key, ns));
      assert timers == After(calls + [Observe(key, ns)]).timers;
      calls := calls + [Observe(key, ns)];
    }

    /** Reports and forgets everything held; the report is absent when there is nothing to report. */
    method Flush() returns (report: Option<Report>)
      requires Valid()
      modifies this
      ensures Valid() && calls == old(calls) + [Flushed]
      ensures report == if After(old(calls)) == EMPTY then None else Some(ReportOf(After(old(calls))))
      ensures logged == old(logged) + (if report.Some? then [report.value] else [])
      ensures After(calls) == EMPTY
    {
      hide After, Reports, Summary;
      report := None;
      if |counters| != 0 || |gauges| != 0 || |timers| != 0 {
        var summaries := SummarizeTimers();
        report := Some(Report(counters, gauges, summaries));
      }
      Record(calls, Flushed);
      logged := logged + (if report.Some? then [report.value] else []);
      calls := calls + [Flushed];
      counters, gauges, timers := map[], map[], map[];
    }

    /** The range over the timers, in whatever order. */
    method SummarizeTimers() returns (summaries: map<string, Stats>)
      ensures summaries == ReportOf(Content(counters, gauges, timers)).timers
    {
      hide Summary;
      summaries := map[];
      var left := timers.Keys;
      while left != {}
        invariant left <= timers.Keys
        invariant summaries
               == map key | key in timers && timers[key] != [] && key !in left :: Summary(timers[key])
        decreases left
      {
        var key :| key in left;
        var window := timers[key];
        if |window| != 0 {
          var values := new real[|window|](i requires 0 <= i < |window| => window[i]);
          assert values[..] == window;
          var stats := Summarize(values);
          summaries := summaries[key := stats];
        }
        left := left - {key};
      }
    }
  }

  lemma Record(calls: seq<Call>, call: Call)
    ensures After(calls + [call]) == Apply(After(calls), call)
    ensures Reports(calls + [call])
         == if call.Flushed? && After(calls) != EMPTY then Reports(calls) + [ReportOf(After(calls))] else Reports(calls)
  {
    assert (calls + [call])[..|calls|] == calls;
  }
}
