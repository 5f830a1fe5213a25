/**
 The sweep with its engines: what a plan reports.

 `SharedSweep` sees an engine only as a machine that raises or not.  Here the machines are the
 backtest engines, and the result of a plan is the backtest of what its engine received.
 */
module SweepResults {
  import opened Wrappers
  import opened LedgerModel
  import opened LedgerLaws
  import opened LedgerRuns
  import opened EquityPath
  import opened Sorting
  import opened Loader
  import opened SharedSweep
  import opened Engine

  /** What the engine of a plan runs, with the reading of a row as a market event. */
  datatype Job = Job(cfg: Config, strategy: Strategy, decode: Row -> Event)

  function EventsOf(job: Job, rows: seq<Row>): seq<Event> {
    seq(|rows|, k requires 0 <= k < |rows| => job.decode(rows[k]))
  }

  /** The run of a plan's engine; a streamed engine starts its clock at zero. */
  function RunOf(job: Job, rows: seq<Row>): (Ledger, bool) {
    Run(job.cfg, Initial(0), EventsOf(job, rows), job.strategy)
  }

  /** The engines as the dispatch sees them: an engine raises when the run of what it received does. */
  function EnginesOf(jobs: seq<Job>): Engines {
    (i: nat, rows: seq<Row>) => i < |jobs| && !RunOf(jobs[i], rows).1
  }

  /** The engine has processed these rows. */
  ghost predicate EngineAt(engine: BacktestEngine, job: Job, rows: seq<Row>)
    reads engine
  {
    && engine.cfg == job.cfg && engine.strategy == job.strategy
    && engine.Valid() && MarketsDone(engine.View()) && engine.finished.None?
    && engine.View() == RunOf(job, rows).0
    && engine.samples == SamplesOf(job.cfg, Initial(0), EventsOf(job, rows), job.strategy)
  }

  ghost predicate Distinct(engines: seq<BacktestEngine>) {
    forall i, j :: 0 <= i < j < |engines| ==> engines[i] != engines[j]
  }

  /** Each engine has processed what its plan received, without an error unless its run id has failed. */
  ghost predicate AllAt(plans: seq<Plan>, engines: seq<BacktestEngine>, jobs: seq<Job>, st: Sweep)
    reads engines
  {
    && |engines| == |jobs| == |plans| && SweepOk(plans, st)
    && forall i :: 0 <= i < |plans| ==>
         && EngineAt(engines[i], jobs[i], st.received[i])
         && (plans[i].runId in st.failed || RunOf(jobs[i], st.received[i]).1)
  }

  /** The engine of a plan, before the first event. */
  method NewEngine(job: Job) returns (engine: BacktestEngine)
    ensures fresh(engine) && EngineAt(engine, job, []) && RunOf(job, []).1
  {
    hide Laws, MarketsDone;
    engine := new BacktestEngine(job.cfg, job.strategy, []);
    assert EventsOf(job, []) == [];
  }

  /** An engine takes one more row. */
  method Feed(engine: BacktestEngine, job: Job, ghost rows: seq<Row>, row: Row) returns (ok: bool)
    requires EngineAt(engine, job, rows) && RunOf(job, rows).1
    modifies engine
    ensures EngineAt(engine, job, rows + [row]) && ok == RunOf(job, rows + [row]).1
  {
    hide Laws, MarketsDone, Run, ProcessEvent, SamplesOf, EventSamples, Initial;
    var e := job.decode(row);
    assert EventsOf(job, rows + [row]) == EventsOf(job, rows) + [e];
    SamplesOneMore(job.cfg, Initial(0), EventsOf(job, rows), job.strategy, e);
    ok := engine.ProcessEvent(e);
  }

  /** One plan is offered the event: its engine takes it if it matches and the run id has not failed. */
  method FeedOne(
    g: Group, plans: seq<Plan>, engines: seq<BacktestEngine>, jobs: seq<Job>, before: Sweep, row: Row, i: nat)
    returns (st: Sweep)
    requires AllAt(plans, engines, jobs, before) && Distinct(engines) && i < |plans|
    modifies engines
    ensures st == Offer(g, plans, EnginesOf(jobs), before, row, i)
    ensures AllAt(plans, engines, jobs, st)
  {
    hide EngineAt, RunOf, EventMatches;
    st := before;
    var p := plans[i];
    if p.runId in st.failed || !EventMatches(g, p, row) {
      return;
    }
    var history := st.received[i] + [row];
    var ok := Feed(engines[i], jobs[i], st.received[i], row);
    if ok {
      st := st.(received := st.received[i := history], counts := st.counts[p.runId := st.counts[p.runId] + 1]);
    } else {
      st := st.(received := st.received[i := history], failed := st.failed + {p.runId});
    }
  }

  /** The engine processed these rows without an error, and this is its report. */
  ghost predicate ResultOf(job: Job, rows: seq<Row>, r: BacktestResult) {
    RunOf(job, rows).1 && IsReport(job.cfg, job.strategy, Initial(0), EventsOf(job, rows), r)
  }

  /** Exactly the plans that did not fail have a result, and it is the report of what they received. */
  ghost predicate ResultsOk(
    plans: seq<Plan>, jobs: seq<Job>, st: Sweep, failed: set<string>, results: seq<Option<BacktestResult>>)
  {
    && |results| == |plans| == |jobs| == |st.received|
    && forall i :: 0 <= i < |plans| ==>
         && (results[i].Some? <==> plans[i].runId !in failed)
         && (results[i].Some? ==> ResultOf(jobs[i], st.received[i], results[i].value))
  }

  /**
   The whole group: the events go to the engines, and every plan that did not fail gets the report
   of what its engine received.
   */
  method RunSweep(g: Group, plans: seq<Plan>, engines: seq<BacktestEngine>, jobs: seq<Job>, events: seq<Row>)
    returns (st: Sweep, failed: set<string>, results: seq<Option<BacktestResult>>)
    requires AllAt(plans, engines, jobs, InitialSweep(plans)) && Distinct(engines)
    modifies engines
    ensures st == Dispatch(g, plans, EnginesOf(jobs), events)
    ensures failed == Reported(plans, st, |plans|) && ResultsOk(plans, jobs, st, failed, results)
  {
    hide AllAt, Offer, Reported, ResultsOk;
    st := InitialSweep(plans);
    for k := 0 to |events|
      invariant AllAt(plans, engines, jobs, st) && st == Dispatch(g, plans, EnginesOf(jobs), events[..k])
    {
      ghost var before := st;
      for i := 0 to |plans|
        invariant AllAt(plans, engines, jobs, st)
        invariant st == OfferUpTo(g, plans, EnginesOf(jobs), before, events[k], i)
      {
        st := FeedOne(g, plans, engines, jobs, st, events[k], i);
      }
      assert events[..k + 1][..k] == events[..k];
    }
    assert events[..|events|] == events;
    failed, results := FinishAll(plans, engines, jobs, st);
  }

  method FinishAll(plans: seq<Plan>, engines: seq<BacktestEngine>, jobs: seq<Job>, st: Sweep)
    returns (failed: set<string>, results: seq<Option<BacktestResult>>)
    requires AllAt(plans, engines, jobs, st) && Distinct(engines)
    modifies engines
    ensures failed == Reported(plans, st, |plans|) && ResultsOk(plans, jobs, st, failed, results)
  {
    hide EngineAt, RunOf, ResultOf;
    failed, results := st.failed, [];
    for i := 0 to |plans|
      invariant failed == Reported(plans, st, i) && |results| == i
      invariant forall j :: i <= j < |plans| ==> EngineAt(engines[j], jobs[j], st.received[j])
      invariant forall j :: 0 <= j < i ==>
                  (results[j].Some? <==> plans[j].runId !in st.failed && st.counts[plans[j].runId] != 0)
      invariant forall j :: 0 <= j < i && results[j].Some? ==> ResultOf(jobs[j], st.received[j], results[j].value)
    {
      var id := plans[i].runId;
      ReportedAre(plans, st, i, id);
      if id in failed {
        results := results + [None];
        continue;
      }
      if st.counts[id] == 0 {
        failed := failed + {id};
        results := results + [None];
        continue;
      }
      var r := FinishOne(engines[i], jobs[i], st.received[i]);
      results := results + [Some(r)];
    }
    forall i | 0 <= i < |plans|
      ensures results[i].Some? <==> plans[i].runId !in failed
    {
      ReportedAre(plans, st, |plans|, plans[i].runId);
    }
  }

  method FinishOne(engine: BacktestEngine, job: Job, ghost rows: seq<Row>) returns (r: BacktestResult)
    requires EngineAt(engine, job, rows) && RunOf(job, rows).1
    modifies engine
    ensures ResultOf(job, rows, r)
  {
    hide Laws, MarketsDone, Run, SamplesOf, Initial;
    r := engine.Finish();
  }

  /**
   A plan that did not fail reports the backtest of its own load, when the shift is safe for the
   rows it asks for and no other plan uses its run id.
   */
  lemma {:induction false} SweepResultIsBacktest(
    g: Group, plans: seq<Plan>, jobs: seq<Job>, i: nat, source: Source, shared: seq<Row>, standalone: seq<Row>,
    r: BacktestResult, own: BacktestResult)
    requires i < |plans| == |jobs| && SECOND !in plans[i].intervals && SoleUser(g, plans, i, shared)
    requires var q := SharedRequest(g, plans);
             Answers(q, SourceRows(source), Loader.Wanted(q), shared, NeverLost(q, source))
    requires var q := OwnRequest(g, plans[i]);
             && Answers(q, SourceRows(source), Loader.Wanted(q), standalone, NeverLost(q, source))
             && SafeLoad(q, source) && NoTies(q, source)
    requires var st := Dispatch(g, plans, EnginesOf(jobs), shared);
             plans[i].runId !in st.failed && ResultOf(jobs[i], st.received[i], r)
    requires var events := EventsOf(jobs[i], standalone);
             IsReport(jobs[i].cfg, jobs[i].strategy, Initial(StartTime(events)), events, own)
    ensures r == own
  {
    hide Answers, SafeLoad, NoTies, IsReport, Dispatch;
    var job, events := jobs[i], EventsOf(jobs[i], standalone);
    SweepEqualsStandalone(g, plans, i, EnginesOf(jobs), source, shared, standalone);
    StartTimeIrrelevant(job.cfg, job.strategy, StartTime(events), 0, events, own);
    ReportUnique(job.cfg, job.strategy, Initial(0), events, r, own);
  }
}
