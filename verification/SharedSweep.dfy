/**
 Feeding many engines from one shared market stream.

 Plans of one group share symbol, source, time shift and end, but each has its own start and its
 own timeframes.  What a plan's engine receives from the shared stream is what it would have loaded
 for itself, as long as the shift is safe for the rows the plan asks for: outside that range the two
 loads cut the time axis into different chunks and may lose different candles.  No plan's failure
 changes what another plan receives, as long as the two do not share a run id.
 */
module SharedSweep {
  import opened Sorting
  import opened Loader

  datatype Plan = Plan(runId: string, loadStart: int, requiresSeconds: bool, intervals: set<string>)

  /** What the plans of one group have in common. */
  datatype Group = Group(symbol: string, end: int, shift: int)

  predicate EventMatches(g: Group, p: Plan, r: Row) {
    if r.timeframe == SECOND then p.requiresSeconds && r.openTime + g.shift >= p.loadStart
    else r.closeTime >= p.loadStart && r.timeframe in p.intervals
  }

  function Matching(g: Group, p: Plan): Row -> bool {
    (r: Row) => EventMatches(g, p, r)
  }

  function Timeframes(p: Plan): set<string> {
    p.intervals + if p.requiresSeconds then {SECOND} else {}
  }

  function OwnRequest(g: Group, p: Plan): Request {
    Request({g.symbol}, Timeframes(p), p.loadStart, g.end, g.shift)
  }

  function EarliestStart(plans: seq<Plan>): (t: int)
    requires plans != []
    ensures forall i :: 0 <= i < |plans| ==> t <= plans[i].loadStart
    ensures exists i :: 0 <= i < |plans| && t == plans[i].loadStart
  {
    if |plans| == 1 then plans[0].loadStart
    else
      var rest := EarliestStart(plans[1..]);
      if plans[0].loadStart <= rest then plans[0].loadStart else rest
  }

  function AllTimeframes(plans: seq<Plan>): set<string> {
    if plans == [] then {} else AllTimeframes(plans[..|plans| - 1]) + Timeframes(plans[|plans| - 1])
  }

  /** The shared load asks for the timeframes of the plans, and no others. */
  lemma {:induction false} AllTimeframesAre(plans: seq<Plan>, t: string)
    ensures t in AllTimeframes(plans)
       <==> exists i :: 0 <= i < |plans|
              && (t in plans[i].intervals || (t == "1s" && plans[i].requiresSeconds))
  {
    if plans != [] {
      var n := |plans| - 1;
      AllTimeframesAre(plans[..n], t);
      assert forall i :: 0 <= i < n ==> plans[..n][i] == plans[i];
      assert t in Timeframes(plans[n]) <==> t in plans[n].intervals || (t == "1s" && plans[n].requiresSeconds);
    }
  }

  function SharedRequest(g: Group, plans: seq<Plan>): Request
    requires plans != []
  {
    Request({g.symbol}, AllTimeframes(plans), EarliestStart(plans), g.end, g.shift)
  }

  lemma {:induction false} TimeframesIncluded(plans: seq<Plan>, i: nat)
    requires i < |plans|
    ensures Timeframes(plans[i]) <= AllTimeframes(plans)
  {
    if i < |plans| - 1 {
      TimeframesIncluded(plans[..|plans| - 1], i);
    }
  }

  /** A shared row matches a plan exactly when the plan's own load asks for it. */
  lemma MatchedIffOwn(g: Group, plans: seq<Plan>, i: nat, r: Row)
    requires i < |plans| && SECOND !in plans[i].intervals
    ensures Requested(SharedRequest(g, plans), r) && EventMatches(g, plans[i], r)
       <==> Requested(OwnRequest(g, plans[i]), r)
  {
    TimeframesIncluded(plans, i);
  }

  /** The plan's part of the shared stream meets the contract that the plan's own load would meet. */
  lemma {:induction false} FanOutAnswersOwn(g: Group, plans: seq<Plan>, i: nat, source: Source, shared: seq<Row>)
    requires i < |plans| && SECOND !in plans[i].intervals
    requires var q := SharedRequest(g, plans);
             Answers(q, SourceRows(source), Wanted(q), shared, NeverLost(q, source))
    ensures var own := OwnRequest(g, plans[i]);
            Answers(own, SourceRows(source), Wanted(own), Filter(shared, Matching(g, plans[i])), NeverLost(own, source))
  {
    var q, own := SharedRequest(g, plans), OwnRequest(g, plans[i]);
    var match_ := Matching(g, plans[i]);
    var mine, rows := Filter(shared, match_), SourceRows(source);
    forall r
      ensures multiset(mine)[r] <= multiset(Filter(rows, Wanted(own)))[r]
      ensures NeverLost(own, source)(r) ==> multiset(mine)[r] == multiset(Filter(rows, Wanted(own)))[r]
    {
      FilterCount(shared, match_, r);
      FilterCount(rows, Wanted(q), r);
      FilterCount(rows, Wanted(own), r);
      MatchedIffOwn(g, plans, i, r);
      assert NeverLost(own, source)(r) == NeverLost(q, source)(r);
    }
    FilterOrdered(shared, match_, Key(q));
    SameKey(q, own, mine);
  }

  lemma SameKey(q: Request, own: Request, xs: seq<Row>)
    requires q.shift == own.shift && Ordered(xs, Key(q))
    ensures Ordered(xs, Key(own))
  {
    var le, le' := Key(q), Key(own);
    forall i, j | 0 <= i < j < |xs|
      ensures le'(xs[i], xs[j])
    {
      assert le(xs[i], xs[j]);
    }
  }

  /** No two different rows that a load asks for tie on its sort key. */
  ghost predicate NoTies(q: Request, source: Source) {
    Separates(Key(q), Filter(SourceRows(source), Wanted(q)))
  }

  /** The shift is safe for every row of the source that the load asks for. */
  ghost predicate SafeLoad(q: Request, source: Source) {
    forall r :: r in SourceRows(source) && Requested(q, r) ==> NeverLost(q, source)(r)
  }

  /**
   Fan-out equals standalone: the very events of the plan's own load, in the same order.  Only the
   rows of this plan have to be safe; what the shift does to the rows of other plans is no matter.
   */
  lemma {:induction false} FanOutEqualsStandalone(
    g: Group, plans: seq<Plan>, i: nat, source: Source, shared: seq<Row>, standalone: seq<Row>)
    requires i < |plans| && SECOND !in plans[i].intervals
    requires var q := SharedRequest(g, plans);
             Answers(q, SourceRows(source), Wanted(q), shared, NeverLost(q, source))
    requires var own := OwnRequest(g, plans[i]);
             && Answers(own, SourceRows(source), Wanted(own), standalone, NeverLost(own, source))
             && SafeLoad(own, source) && NoTies(own, source)
    ensures Filter(shared, Matching(g, plans[i])) == standalone
  {
    var own := OwnRequest(g, plans[i]);
    var mine, rows := Filter(shared, Matching(g, plans[i])), SourceRows(source);
    FanOutAnswersOwn(g, plans, i, source, shared);
    SureIsComplete(own, rows, Wanted(own), mine, NeverLost(own, source));
    SureIsComplete(own, rows, Wanted(own), standalone, NeverLost(own, source));
    Untied(own, source, standalone);
    AnswersAgree(own, rows, Wanted(own), standalone, mine);
  }

  lemma Untied(q: Request, source: Source, out: seq<Row>)
    requires NoTies(q, source) && multiset(out) <= multiset(Filter(SourceRows(source), Wanted(q)))
    ensures Separates(Key(q), out)
  {
    var selected := Filter(SourceRows(source), Wanted(q));
    forall r | r in out
      ensures r in selected
    {
      assert r in multiset(out) && r in multiset(selected);
    }
    SeparatesMembers(Key(q), selected, out);
  }

  // ---------------------------------------------------------------------------
  // When fan-out equals standalone
  // ---------------------------------------------------------------------------

  /** The shared load and the plan's own load, as they come out of the loader with one chunk size. */
  ghost predicate BothLoads(
    g: Group, plans: seq<Plan>, i: nat, source: Source, chunk: int, shared: seq<Row>, standalone: seq<Row>)
  {
    && i < |plans| && SECOND !in plans[i].intervals && chunk >= 1 && SourceOk(source)
    && NoTies(OwnRequest(g, plans[i]), source)
    && Emits(SharedRequest(g, plans), source, chunk, shared)
    && Emits(OwnRequest(g, plans[i]), source, chunk, standalone)
  }

  lemma {:induction false} FanOutCounts(
    g: Group, plans: seq<Plan>, i: nat, source: Source, chunk: int, shared: seq<Row>, standalone: seq<Row>, r: Row)
    requires BothLoads(g, plans, i, source, chunk, shared, standalone)
    ensures var q, own := SharedRequest(g, plans), OwnRequest(g, plans[i]);
            && multiset(Filter(shared, Matching(g, plans[i])))[r]
               == (if Requested(own, r) then Copies(q, source, chunk, r) else 0)
            && multiset(standalone)[r] == if Requested(own, r) then Copies(own, source, chunk, r) else 0
  {
    FilterCount(shared, Matching(g, plans[i]), r);
    MatchedIffOwn(g, plans, i, r);
    assert multiset(shared)[r] == Copies(SharedRequest(g, plans), source, chunk, r);
    assert multiset(standalone)[r] == Copies(OwnRequest(g, plans[i]), source, chunk, r);
  }

  /** Both loads read each row that the plan asks for equally often. */
  ghost predicate ReadAlike(g: Group, plans: seq<Plan>, i: nat, source: Source, chunk: int)
    requires i < |plans| && chunk >= 1
  {
    forall r :: Requested(OwnRequest(g, plans[i]), r) ==>
      Copies(SharedRequest(g, plans), source, chunk, r) == Copies(OwnRequest(g, plans[i]), source, chunk, r)
  }

  /** At any shift: the two streams agree exactly when the two loads read the plan's rows alike. */
  lemma {:induction false} FanOutExactly(
    g: Group, plans: seq<Plan>, i: nat, source: Source, chunk: int, shared: seq<Row>, standalone: seq<Row>)
    requires BothLoads(g, plans, i, source, chunk, shared, standalone)
    ensures Filter(shared, Matching(g, plans[i])) == standalone <==> ReadAlike(g, plans, i, source, chunk)
  {
    if Filter(shared, Matching(g, plans[i])) == standalone {
      forall r | Requested(OwnRequest(g, plans[i]), r)
        ensures Copies(SharedRequest(g, plans), source, chunk, r)
             == Copies(OwnRequest(g, plans[i]), source, chunk, r)
      {
        FanOutCounts(g, plans, i, source, chunk, shared, standalone, r);
      }
    }
    if ReadAlike(g, plans, i, source, chunk) {
      SameCounts(g, plans, i, source, chunk, shared, standalone);
      SameRowsSameOrder(g, plans, i, source, chunk, shared, standalone);
    }
  }

  lemma {:induction false} SameCounts(
    g: Group, plans: seq<Plan>, i: nat, source: Source, chunk: int, shared: seq<Row>, standalone: seq<Row>)
    requires BothLoads(g, plans, i, source, chunk, shared, standalone) && ReadAlike(g, plans, i, source, chunk)
    ensures multiset(standalone) == multiset(Filter(shared, Matching(g, plans[i])))
  {
    var mine := Filter(shared, Matching(g, plans[i]));
    hide BothLoads, Copies, Requested, Filter;
    forall r
      ensures multiset(standalone)[r] == multiset(mine)[r]
    {
      FanOutCounts(g, plans, i, source, chunk, shared, standalone, r);
    }
  }

  lemma {:induction false} SameRowsSameOrder(
    g: Group, plans: seq<Plan>, i: nat, source: Source, chunk: int, shared: seq<Row>, standalone: seq<Row>)
    requires BothLoads(g, plans, i, source, chunk, shared, standalone)
    requires multiset(standalone) == multiset(Filter(shared, Matching(g, plans[i])))
    ensures Filter(shared, Matching(g, plans[i])) == standalone
  {
    hide Copies, NoTies, SourceOk;
    var q, own := SharedRequest(g, plans), OwnRequest(g, plans[i]);
    var mine := Filter(shared, Matching(g, plans[i]));
    FilterOrdered(shared, Matching(g, plans[i]), Key(q));
    SameKey(q, own, mine);
    EmitsAnswers(own, source, chunk, standalone);
    Untied(own, source, standalone);
    OrderedUnique(standalone, mine, Key(own));
  }

  /** The plan asks only for candles of this length. */
  ghost predicate OnlyBars(q: Request, source: Source, length: int) {
    forall r :: r in SourceRows(source) && Requested(q, r) ==> r.timeframe != SECOND && BarLength(r) == length
  }

  /** Fan-out equals standalone for candles of this length, in every group, archive and chunk size. */
  ghost predicate FanOutSound(shift: int, length: int) {
    forall g: Group, plans: seq<Plan>, i: nat, source: Source, chunk: int, shared: seq<Row>, standalone: seq<Row> ::
      BothLoads(g, plans, i, source, chunk, shared, standalone)
      && g.shift == shift && OnlyBars(OwnRequest(g, plans[i]), source, length) ==>
        Filter(shared, Matching(g, plans[i])) == standalone
  }

  /** That is so exactly for shifts from -1000 ms up to the length of the candle. */
  lemma FanOutSoundExactly(shift: int, length: int)
    requires length >= 1
    ensures FanOutSound(shift, length) <==> -1000 <= shift <= length
  {
    if -1000 <= shift <= length {
      forall g: Group, plans: seq<Plan>, i: nat, source: Source, chunk: int, shared: seq<Row>, standalone: seq<Row> |
        BothLoads(g, plans, i, source, chunk, shared, standalone)
        && g.shift == shift && OnlyBars(OwnRequest(g, plans[i]), source, length)
        ensures Filter(shared, Matching(g, plans[i])) == standalone
      {
        EmitsAnswers(SharedRequest(g, plans), source, chunk, shared);
        EmitsAnswers(OwnRequest(g, plans[i]), source, chunk, standalone);
        FanOutEqualsStandalone(g, plans, i, source, shared, standalone);
      }
    } else if shift > length {
      LateShiftSplits(shift, length);
    } else {
      EarlyShiftSplits(shift, length);
    }
  }

  /** The last bar of length `length` before time 1, alone in its file. */
  function OneBar(length: int): Row {
    Row("S", "1m", 1 - length, 0, 0)
  }

  function OneBarFile(length: int): File {
    File("S", "1m", 1 - length, 0, [OneBar(length)])
  }

  /** One bar that the plan's chunk and the group's chunk treat differently is enough. */
  lemma SplitShows(g: Group, own: Plan, other: Plan, chunk: int, length: int)
    requires length >= 1 && chunk >= 1 && SECOND !in own.intervals
    requires var plans, r, f := [own, other], OneBar(length), OneBarFile(length);
             && Requested(OwnRequest(g, own), r)
             && ReadFor(SharedRequest(g, plans), chunk, r)(f) != ReadFor(OwnRequest(g, own), chunk, r)(f)
    ensures !FanOutSound(g.shift, length)
  {
    var plans, r, f := [own, other], OneBar(length), OneBarFile(length);
    var q, q0, source := SharedRequest(g, plans), OwnRequest(g, own), Archive([f]);
    var shared := if ReadFor(q, chunk, r)(f) then [r] else [];
    var standalone := if ReadFor(q0, chunk, r)(f) then [r] else [];
    MatchedIffOwn(g, plans, 0, r);
    OneRowLoad(q, f, r, chunk);
    OneRowLoad(q0, f, r, chunk);
    OneRowSource(q0, f, r);
    assert BothLoads(g, plans, 0, source, chunk, shared, standalone);
    assert OnlyBars(q0, source, length);
    assert [r][..0] == [];
    assert Filter([r], Matching(g, own)) == [r] && Filter([], Matching(g, own)) == [];
    assert Filter(shared, Matching(g, plans[0])) != standalone;
  }

  lemma OneRowSource(q: Request, f: File, r: Row)
    requires f.rows == [r] && Requested(q, r)
    ensures SourceRows(Archive([f])) == [r] && NoTies(q, Archive([f]))
  {
    assert [f][..0] == [] && AllRows([]) == [];
    assert AllRows([f]) == [] + [r] == [r];
    assert [r][..0] == [];
    assert Filter([r], Wanted(q)) == [r];
  }

  /** Too late a shift: the group's chunk ends right after the bar and drops its file, the plan's reads it. */
  lemma LateShiftSplits(shift: int, length: int)
    requires length >= 1 && shift > length
    ensures !FanOutSound(shift, length)
  {
    var chunk := shift + 2;
    var g := Group("S", chunk, shift);
    var own, other := Plan("a", 0, false, {"1m"}), Plan("b", 2 - chunk, false, {"1m"});
    TwoPlans(g, own, other);
    Quotient(1, 0, chunk);
    Quotient(1 - (2 - chunk), 0, chunk);
    SplitShows(g, own, other, chunk, length);
  }

  /** Too early a shift: the plan's chunk starts right at the bar and drops its file, the group's reads it. */
  lemma EarlyShiftSplits(shift: int, length: int)
    requires length >= 1 && shift < -1000
    ensures !FanOutSound(shift, length)
  {
    var m := -(shift + 1001);
    var chunk := m + 2;
    var g := Group("S", 1, shift);
    var own, other := Plan("a", 1 - chunk, false, {"1m"}), Plan("b", -m - chunk, false, {"1m"});
    TwoPlans(g, own, other);
    Quotient(1 - (1 - chunk), 1, chunk);
    Quotient(1 - (-m - chunk), 1, chunk);
    SplitShows(g, own, other, chunk, length);
  }

  lemma TwoPlans(g: Group, own: Plan, other: Plan)
    requires other.loadStart <= own.loadStart
    ensures SharedRequest(g, [own, other]).start == other.loadStart
  {
    assert [own, other][1..] == [other];
  }

  // ---------------------------------------------------------------------------
  // Dispatch
  // ---------------------------------------------------------------------------

  /** `received[i]` is what engine i was given; failures and counts are kept by run id. */
  datatype Sweep = Sweep(received: seq<seq<Row>>, failed: set<string>, counts: map<string, nat>)

  /** An engine is a deterministic machine: it raises or not depending on the events it was given. */
  type Engines = (nat, seq<Row>) -> bool

  predicate SweepOk(plans: seq<Plan>, st: Sweep) {
    |st.received| == |plans| && forall i :: 0 <= i < |plans| ==> plans[i].runId in st.counts
  }

  function Offer(g: Group, plans: seq<Plan>, raises: Engines, st: Sweep, r: Row, i: nat): (st': Sweep)
    requires SweepOk(plans, st) && i < |plans|
    ensures SweepOk(plans, st')
  {
    var p := plans[i];
    if p.runId in st.failed || !EventMatches(g, p, r) then st
    else
      var history := st.received[i] + [r];
      if raises(i, history) then st.(received := st.received[i := history], failed := st.failed + {p.runId})
      else st.(received := st.received[i := history], counts := st.counts[p.runId := st.counts[p.runId] + 1])
  }

  function OfferUpTo(g: Group, plans: seq<Plan>, raises: Engines, st: Sweep, r: Row, n: nat): (st': Sweep)
    requires SweepOk(plans, st) && n <= |plans|
    ensures SweepOk(plans, st')
  {
    if n == 0 then st else Offer(g, plans, raises, OfferUpTo(g, plans, raises, st, r, n - 1), r, n - 1)
  }

  function InitialSweep(plans: seq<Plan>): (st: Sweep)
    ensures SweepOk(plans, st)
  {
    Sweep(seq(|plans|, i => []), {}, map i | 0 <= i < |plans| :: plans[i].runId := 0)
  }

  function Dispatch(g: Group, plans: seq<Plan>, raises: Engines, events: seq<Row>): (st: Sweep)
    ensures SweepOk(plans, st)
  {
    if events == [] then InitialSweep(plans)
    else OfferUpTo(g, plans, raises, Dispatch(g, plans, raises, events[..|events| - 1]), events[|events| - 1], |plans|)
  }

  /** Run ids reported as failed: those that raised, and those that got no event at all. */
  function Reported(plans: seq<Plan>, st: Sweep, n: nat): set<string>
    requires SweepOk(plans, st) && n <= |plans|
  {
    if n == 0 then st.failed
    else
      Reported(plans, st, n - 1) + if st.counts[plans[n - 1].runId] == 0 then {plans[n - 1].runId} else {}
  }

  method RunShiftGroup(
    g: Group, plans: seq<Plan>, raises: Engines, events: seq<Row>)
    returns (st: Sweep, failed: set<string>)
    ensures st == Dispatch(g, plans, raises, events)
    ensures failed == Reported(plans, st, |plans|)
  {
    hide EventMatches, Offer;
    st := InitialSweep(plans);
    for k := 0 to |events|
      invariant st == Dispatch(g, plans, raises, events[..k])
    {
      st := OfferEvent(g, plans, raises, st, events[k]);
      assert events[..k + 1][..k] == events[..k];
    }
    assert events[..|events|] == events;
    failed := st.failed;
    for i := 0 to |plans|
      invariant failed == Reported(plans, st, i)
    {
      if plans[i].runId in failed {
        continue;
      }
      if st.counts[plans[i].runId] == 0 {
        failed := failed + {plans[i].runId};
      }
    }
  }

  /** One event goes to every plan that matches it and has not failed. */
  method OfferEvent(g: Group, plans: seq<Plan>, raises: Engines, before: Sweep, r: Row) returns (st: Sweep)
    requires SweepOk(plans, before)
    ensures st == OfferUpTo(g, plans, raises, before, r, |plans|)
  {
    st := before;
    for i := 0 to |plans|
      invariant SweepOk(plans, st)
      invariant st == OfferUpTo(g, plans, raises, before, r, i)
    {
      var p := plans[i];
      if p.runId in st.failed || !EventMatches(g, p, r) {
        continue;
      }
      var history := st.received[i] + [r];
      if raises(i, history) {
        st := st.(received := st.received[i := history], failed := st.failed + {p.runId});
      } else {
        st := st.(received := st.received[i := history], counts := st.counts[p.runId := st.counts[p.runId] + 1]);
      }
    }
  }

  // ---------------------------------------------------------------------------
  // Isolation
  // ---------------------------------------------------------------------------

  /** What engine i receives when it is the only one on the stream. */
  function Alone(g: Group, p: Plan, raises: Engines, i: nat, events: seq<Row>): seq<Row> {
    if events == [] then []
    else
      var before := Alone(g, p, raises, i, events[..|events| - 1]);
      if Raised(raises, i, before) || !EventMatches(g, p, events[|events| - 1]) then before
      else before + [events[|events| - 1]]
  }

  predicate Raised(raises: Engines, i: nat, history: seq<Row>) {
    history != [] && raises(i, history)
  }

  /** No other plan with the run id of plan i matches any of the events. */
  ghost predicate SoleUser(g: Group, plans: seq<Plan>, i: nat, events: seq<Row>)
    requires i < |plans|
  {
    forall j, r :: 0 <= j < |plans| && j != i && plans[j].runId == plans[i].runId && r in events ==>
      !EventMatches(g, plans[j], r)
  }

  /** The sweep treats plan i as if it were alone on these events. */
  ghost predicate Isolated(plans: seq<Plan>, raises: Engines, st: Sweep, i: nat, alone: seq<Row>)
    requires SweepOk(plans, st) && i < |plans|
  {
    && st.received[i] == alone
    && (plans[i].runId in st.failed <==> Raised(raises, i, alone))
    && st.counts[plans[i].runId] == |alone| - if Raised(raises, i, alone) then 1 else 0
  }

  lemma OfferIsolated(
    g: Group, plans: seq<Plan>, raises: Engines, st: Sweep, r: Row, n: nat, i: nat, before: seq<Row>, after: seq<Row>)
    requires SweepOk(plans, st) && n < |plans| && i < |plans|
    requires n != i && plans[n].runId == plans[i].runId ==> !EventMatches(g, plans[n], r)
    requires after == if Raised(raises, i, before) || !EventMatches(g, plans[i], r) then before else before + [r]
    requires Isolated(plans, raises, st, i, if i < n then after else before)
    ensures Isolated(plans, raises, Offer(g, plans, raises, st, r, n), i, if i < n + 1 then after else before)
  {
  }

  lemma {:induction false} OfferUpToIsolated(
    g: Group, plans: seq<Plan>, raises: Engines, st: Sweep, r: Row, n: nat, i: nat, before: seq<Row>, after: seq<Row>)
    requires SweepOk(plans, st) && n <= |plans| && i < |plans| && SoleUser(g, plans, i, [r])
    requires after == if Raised(raises, i, before) || !EventMatches(g, plans[i], r) then before else before + [r]
    requires Isolated(plans, raises, st, i, before)
    ensures Isolated(plans, raises, OfferUpTo(g, plans, raises, st, r, n), i, if i < n then after else before)
  {
    if n > 0 {
      OfferUpToIsolated(g, plans, raises, st, r, n - 1, i, before, after);
      assert r in [r];
      OfferIsolated(g, plans, raises, OfferUpTo(g, plans, raises, st, r, n - 1), r, n - 1, i, before, after);
    }
  }

  /** The only plan that uses its run id receives, fails and counts exactly as if it were alone. */
  lemma {:induction false} DispatchIsolated(g: Group, plans: seq<Plan>, raises: Engines, events: seq<Row>, i: nat)
    requires i < |plans| && SoleUser(g, plans, i, events)
    ensures Isolated(plans, raises, Dispatch(g, plans, raises, events), i, Alone(g, plans[i], raises, i, events))
  {
    if events != [] {
      var n := |events| - 1;
      assert forall r :: r in events[..n] || r in [events[n]] ==> r in events;
      DispatchIsolated(g, plans, raises, events[..n], i);
      OfferUpToIsolated(g, plans, raises, Dispatch(g, plans, raises, events[..n]), events[n], |plans|, i,
                        Alone(g, plans[i], raises, i, events[..n]), Alone(g, plans[i], raises, i, events));
    }
  }

  lemma {:induction false} ReportedAre(plans: seq<Plan>, st: Sweep, n: nat, id: string)
    requires SweepOk(plans, st) && n <= |plans|
    ensures id in Reported(plans, st, n)
       <==> id in st.failed || exists j :: 0 <= j < n && plans[j].runId == id && st.counts[id] == 0
  {
    if n > 0 {
      ReportedAre(plans, st, n - 1, id);
    }
  }

  /** The only plan that uses its run id is reported exactly when its own engine raised or got no event to process. */
  lemma {:induction false} ReportedIffOwnFault(g: Group, plans: seq<Plan>, raises: Engines, events: seq<Row>, i: nat)
    requires i < |plans| && SoleUser(g, plans, i, events)
    ensures var alone := Alone(g, plans[i], raises, i, events);
            plans[i].runId in Reported(plans, Dispatch(g, plans, raises, events), |plans|)
            <==> alone == [] || Raised(raises, i, alone)
  {
    var st := Dispatch(g, plans, raises, events);
    DispatchIsolated(g, plans, raises, events, i);
    ReportedAre(plans, st, |plans|, plans[i].runId);
  }

  /** A plan whose engine did not raise in this run has received every matching event of the stream. */
  lemma {:induction false} AloneIsFilter(g: Group, p: Plan, raises: Engines, i: nat, events: seq<Row>)
    ensures Alone(g, p, raises, i, events) <= Filter(events, Matching(g, p))
    ensures !Raised(raises, i, Alone(g, p, raises, i, events)) ==>
              Alone(g, p, raises, i, events) == Filter(events, Matching(g, p))
  {
    if events != [] {
      AloneIsFilter(g, p, raises, i, events[..|events| - 1]);
    }
  }

  /** Deliveries end with the event that made the engine raise: it has not raised before. */
  lemma {:induction false} AloneStopsAtError(g: Group, p: Plan, raises: Engines, i: nat, events: seq<Row>, k: nat)
    requires 0 < k < |Alone(g, p, raises, i, events)|
    ensures !raises(i, Alone(g, p, raises, i, events)[..k])
  {
    var n := |events| - 1;
    var before := Alone(g, p, raises, i, events[..n]);
    if k < |before| {
      AloneStopsAtError(g, p, raises, i, events[..n], k);
      assert Alone(g, p, raises, i, events)[..k] == before[..k];
    } else {
      assert Alone(g, p, raises, i, events)[..k] == before;
    }
  }

  /**
   What the loop delivers to a plan, when the shift is safe for the plan's own rows: the events of
   its own load, up to the one that made its engine raise, and all of them if none did.  Both
   streams are what the loader promises for their requests.
   */
  lemma {:induction false} SweepEqualsStandalone(
    g: Group, plans: seq<Plan>, i: nat, raises: Engines, source: Source, shared: seq<Row>, standalone: seq<Row>)
    requires i < |plans| && SECOND !in plans[i].intervals && SoleUser(g, plans, i, shared)
    requires var q := SharedRequest(g, plans);
             Answers(q, SourceRows(source), Wanted(q), shared, NeverLost(q, source))
    requires var own := OwnRequest(g, plans[i]);
             && Answers(own, SourceRows(source), Wanted(own), standalone, NeverLost(own, source))
             && SafeLoad(own, source) && NoTies(own, source)
    ensures var st := Dispatch(g, plans, raises, shared);
            && st.received[i] <= standalone
            && (plans[i].runId !in st.failed ==> st.received[i] == standalone)
            && (plans[i].runId in st.failed <==> Raised(raises, i, st.received[i]))
  {
    hide Answers, SafeLoad, NoTies;
    DispatchIsolated(g, plans, raises, shared, i);
    AloneIsFilter(g, plans[i], raises, i, shared);
    FanOutEqualsStandalone(g, plans, i, source, shared, standalone);
  }

  /** Other engines cannot influence a plan: only its own machine matters. */
  lemma {:induction false} OthersDoNotMatter(
    g: Group, plans: seq<Plan>, raises: Engines, raises': Engines, events: seq<Row>, i: nat)
    requires i < |plans| && SoleUser(g, plans, i, events)
    requires forall h :: raises(i, h) == raises'(i, h)
    ensures Dispatch(g, plans, raises, events).received[i] == Dispatch(g, plans, raises', events).received[i]
  {
    DispatchIsolated(g, plans, raises, events, i);
    DispatchIsolated(g, plans, raises', events, i);
    AloneSame(g, plans[i], raises, raises', events, i);
  }

  lemma {:induction false} AloneSame(g: Group, p: Plan, raises: Engines, raises': Engines, events: seq<Row>, i: nat)
    requires forall h :: raises(i, h) == raises'(i, h)
    ensures Alone(g, p, raises, i, events) == Alone(g, p, raises', i, events)
  {
    if events != [] {
      AloneSame(g, p, raises, raises', events[..|events| - 1], i);
    }
  }

  // ---------------------------------------------------------------------------
  // When isolation holds
  // ---------------------------------------------------------------------------

  /** A stream that the loader can emit for the request: requested rows in order. */
  ghost predicate Streamable(q: Request, events: seq<Row>) {
    Ordered(events, Key(q)) && forall r :: r in events ==> Requested(q, r)
  }

  lemma StreamableIsEmitted(q: Request, events: seq<Row>, chunk: int)
    requires Streamable(q, events) && chunk >= 1
    ensures Emits(q, Table(events), chunk, events)
  {
    forall r
      ensures multiset(events)[r] == Copies(q, Table(events), chunk, r)
    {
      assert r in events <==> r in multiset(events);
    }
  }

  /** The plan has a timeframe that the loop matches, and a window that is not empty. */
  ghost predicate Listens(g: Group, p: Plan) {
    p.loadStart < g.end && (p.requiresSeconds || exists t :: t in p.intervals && t != SECOND)
  }

  /** The plans that listen are those that some row of the shared load can reach. */
  lemma ListensIffReached(g: Group, plans: seq<Plan>, i: nat)
    requires i < |plans|
    ensures Listens(g, plans[i])
       <==> exists r :: Requested(SharedRequest(g, plans), r) && EventMatches(g, plans[i], r)
  {
    if Listens(g, plans[i]) {
      var r := ListenerRow(g, plans, i, 0);
    }
  }

  lemma ListenerRow(g: Group, plans: seq<Plan>, i: nat, payload: int) returns (r: Row)
    requires i < |plans| && Listens(g, plans[i])
    ensures Requested(SharedRequest(g, plans), r) && EventMatches(g, plans[i], r) && r.payload == payload
  {
    var p := plans[i];
    TimeframesIncluded(plans, i);
    if p.requiresSeconds {
      r := Row(g.symbol, SECOND, p.loadStart - g.shift, p.loadStart, payload);
    } else {
      var t :| t in p.intervals && t != SECOND;
      r := Row(g.symbol, t, p.loadStart, p.loadStart, payload);
    }
  }

  /** No two plans that listen share a run id. */
  ghost predicate ListenersDistinct(g: Group, plans: seq<Plan>) {
    forall i, j :: 0 <= i < |plans| && 0 <= j < |plans| && i != j && plans[i].runId == plans[j].runId ==>
      !Listens(g, plans[i]) || !Listens(g, plans[j])
  }

  /** Plan i shares its run id with no other plan that listens. */
  ghost predicate SoleListener(g: Group, plans: seq<Plan>, i: nat)
    requires i < |plans|
  {
    forall j :: 0 <= j < |plans| && j != i && plans[j].runId == plans[i].runId ==> !Listens(g, plans[j])
  }

  lemma SoleListenerIsUser(g: Group, plans: seq<Plan>, i: nat, events: seq<Row>)
    requires i < |plans| && SoleListener(g, plans, i) && Streamable(SharedRequest(g, plans), events)
    ensures SoleUser(g, plans, i, events)
  {
    forall j: nat, r | j < |plans| && j != i && plans[j].runId == plans[i].runId && r in events
      ensures !EventMatches(g, plans[j], r)
    {
      ListensIffReached(g, plans, j);
      assert Requested(SharedRequest(g, plans), r);
    }
  }

  lemma {:induction false} DeafOffer(
    g: Group, plans: seq<Plan>, raises: Engines, st: Sweep, r: Row, n: nat, i: nat)
    requires SweepOk(plans, st) && n <= |plans| && i < |plans| && !EventMatches(g, plans[i], r)
    ensures OfferUpTo(g, plans, raises, st, r, n).received[i] == st.received[i]
  {
    if n > 0 {
      DeafOffer(g, plans, raises, st, r, n - 1, i);
    }
  }

  /** A plan that no event matches receives nothing, on the shared stream and alone. */
  lemma {:induction false} DeafDispatch(g: Group, plans: seq<Plan>, raises: Engines, events: seq<Row>, i: nat)
    requires i < |plans| && forall r :: r in events ==> !EventMatches(g, plans[i], r)
    ensures Dispatch(g, plans, raises, events).received[i] == [] == Alone(g, plans[i], raises, i, events)
  {
    if events != [] {
      var n := |events| - 1;
      assert events[n] in events && forall r :: r in events[..n] ==> r in events;
      DeafDispatch(g, plans, raises, events[..n], i);
      DeafOffer(g, plans, raises, Dispatch(g, plans, raises, events[..n]), events[n], |plans|, i);
    }
  }

  lemma NoListenerIsDeaf(g: Group, plans: seq<Plan>, i: nat, events: seq<Row>)
    requires i < |plans| && !Listens(g, plans[i]) && Streamable(SharedRequest(g, plans), events)
    ensures forall r :: r in events ==> !EventMatches(g, plans[i], r)
  {
    ListensIffReached(g, plans, i);
  }

  /** The engine of plan i raises at once, all others never. */
  function OnlyRaises(i: nat): Engines {
    (k: nat, h: seq<Row>) => k == i
  }

  /** After one event that plan a matches, its run id has failed, and plan b has seen nothing but that event. */
  lemma {:induction false} FirstEventFails(g: Group, plans: seq<Plan>, r: Row, n: nat, a: nat, b: nat)
    requires a < |plans| && b < |plans| && a != b && EventMatches(g, plans[a], r) && n <= |plans|
    ensures var st := OfferUpTo(g, plans, OnlyRaises(a), InitialSweep(plans), r, n);
            && (st.received[b] == [] || (st.received[b] == [r] && b < n))
            && (n <= a ==> st.received[a] == [])
            && st.failed == if n <= a then {} else {plans[a].runId}
  {
    if n > 0 {
      FirstEventFails(g, plans, r, n - 1, a, b);
    }
  }

  lemma {:induction false} FailedStaysOut(
    g: Group, plans: seq<Plan>, raises: Engines, st: Sweep, r: Row, n: nat, j: nat)
    requires SweepOk(plans, st) && n <= |plans| && j < |plans| && plans[j].runId in st.failed
    ensures plans[j].runId in OfferUpTo(g, plans, raises, st, r, n).failed
    ensures OfferUpTo(g, plans, raises, st, r, n).received[j] == st.received[j]
  {
    if n > 0 {
      FailedStaysOut(g, plans, raises, st, r, n - 1, j);
    }
  }

  /** In any group, of two plans with one run id the one that fails first withholds later events from the other. */
  lemma {:induction false} SharedIdLeaks(g: Group, plans: seq<Plan>, a: nat, b: nat, ra: Row, rb: Row)
    requires a < |plans| && b < |plans| && a != b && plans[a].runId == plans[b].runId && ra != rb
    requires EventMatches(g, plans[a], ra) && EventMatches(g, plans[b], rb)
    ensures rb !in Dispatch(g, plans, OnlyRaises(a), [ra, rb]).received[b]
    ensures rb in Alone(g, plans[b], OnlyRaises(a), b, [ra, rb])
  {
    var raises := OnlyRaises(a);
    assert [ra, rb][..1] == [ra] && [ra][..0] == [];
    assert Dispatch(g, plans, raises, []) == InitialSweep(plans);
    var st := Dispatch(g, plans, raises, [ra]);
    assert st == OfferUpTo(g, plans, raises, InitialSweep(plans), ra, |plans|);
    FirstEventFails(g, plans, ra, |plans|, a, b);
    FailedStaysOut(g, plans, raises, st, rb, |plans|, b);
    assert !Raised(raises, b, Alone(g, plans[b], raises, b, [ra]));
  }

  /** Every plan receives what it would receive alone, whatever the engines, on every stream of the group. */
  ghost predicate DeliveriesIsolated(g: Group, plans: seq<Plan>) {
    forall raises: Engines, events: seq<Row>, i: nat ::
      i < |plans| && Streamable(SharedRequest(g, plans), events) ==>
        Dispatch(g, plans, raises, events).received[i] == Alone(g, plans[i], raises, i, events)
  }

  /** Deliveries are isolated exactly when no two plans that listen share a run id. */
  lemma {:induction false} DeliveriesIsolatedExactly(g: Group, plans: seq<Plan>)
    ensures DeliveriesIsolated(g, plans) <==> ListenersDistinct(g, plans)
  {
    hide Streamable, Listens;
    if ListenersDistinct(g, plans) {
      forall raises: Engines, events: seq<Row>, i: nat | i < |plans| && Streamable(SharedRequest(g, plans), events)
        ensures Dispatch(g, plans, raises, events).received[i] == Alone(g, plans[i], raises, i, events)
      {
        if Listens(g, plans[i]) {
          SoleListenerIsUser(g, plans, i, events);
          DispatchIsolated(g, plans, raises, events, i);
        } else {
          NoListenerIsDeaf(g, plans, i, events);
          DeafDispatch(g, plans, raises, events, i);
        }
      }
    } else {
      var i: nat, j: nat :|
        i < |plans| && j < |plans| && i != j && plans[i].runId == plans[j].runId
        && Listens(g, plans[i]) && Listens(g, plans[j]);
      Starves(g, plans, i, j);
    }
  }

  /** Whichever of the two rows sorts first, its plan can starve the other. */
  lemma {:induction false} Starves(g: Group, plans: seq<Plan>, i: nat, j: nat)
    requires i < |plans| && j < |plans| && i != j && plans[i].runId == plans[j].runId
    requires Listens(g, plans[i]) && Listens(g, plans[j])
    ensures !DeliveriesIsolated(g, plans)
  {
    hide Listens;
    var q := SharedRequest(g, plans);
    var r1 := ListenerRow(g, plans, i, 1);
    var r2 := ListenerRow(g, plans, j, 2);
    KeyTotal(q, r1, r2);
    if KeyLe(q, r1, r2) {
      StarvesInOrder(g, plans, i, j, r1, r2);
    } else {
      StarvesInOrder(g, plans, j, i, r2, r1);
    }
  }

  lemma StarvesInOrder(g: Group, plans: seq<Plan>, a: nat, b: nat, ra: Row, rb: Row)
    requires a < |plans| && b < |plans| && a != b && plans[a].runId == plans[b].runId && ra != rb
    requires EventMatches(g, plans[a], ra) && EventMatches(g, plans[b], rb)
    requires var q := SharedRequest(g, plans); Requested(q, ra) && Requested(q, rb) && KeyLe(q, ra, rb)
    ensures !DeliveriesIsolated(g, plans)
  {
    SharedIdLeaks(g, plans, a, b, ra, rb);
    assert Streamable(SharedRequest(g, plans), [ra, rb]);
    assert Dispatch(g, plans, OnlyRaises(a), [ra, rb]).received[b]
        != Alone(g, plans[b], OnlyRaises(a), b, [ra, rb]);
  }

  /** Deliveries, failures and counts of every plan are as if it were alone. */
  ghost predicate FullyIsolated(g: Group, plans: seq<Plan>) {
    forall raises: Engines, events: seq<Row>, i: nat ::
      i < |plans| && Streamable(SharedRequest(g, plans), events) ==>
        Isolated(plans, raises, Dispatch(g, plans, raises, events), i, Alone(g, plans[i], raises, i, events))
  }

  /** Failures and counts are isolated, too, exactly when no plan that listens shares its run id at all. */
  lemma {:induction false} FullyIsolatedExactly(g: Group, plans: seq<Plan>)
    ensures FullyIsolated(g, plans) <==> forall i: nat :: i < |plans| ==> SoleListener(g, plans, i)
  {
    hide Streamable, Listens, Isolated;
    if forall i: nat :: i < |plans| ==> SoleListener(g, plans, i) {
      forall raises: Engines, events: seq<Row>, i: nat | i < |plans| && Streamable(SharedRequest(g, plans), events)
        ensures Isolated(plans, raises, Dispatch(g, plans, raises, events), i, Alone(g, plans[i], raises, i, events))
      {
        SoleListenerIsUser(g, plans, i, events);
        DispatchIsolated(g, plans, raises, events, i);
      }
    } else {
      var i: nat :| i < |plans| && !SoleListener(g, plans, i);
      var j: nat :| j < |plans| && j != i && plans[j].runId == plans[i].runId && Listens(g, plans[j]);
      SharedIdShows(g, plans, i, j);
    }
  }

  lemma {:induction false} SharedIdShows(g: Group, plans: seq<Plan>, i: nat, j: nat)
    requires i < |plans| && j < |plans| && i != j && plans[i].runId == plans[j].runId && Listens(g, plans[j])
    ensures !FullyIsolated(g, plans)
  {
    hide Listens;
    if Listens(g, plans[i]) {
      Starves(g, plans, i, j);
      if FullyIsolated(g, plans) {
        FullyImpliesDeliveries(g, plans);
      }
    } else {
      CountShows(g, plans, i, j);
    }
  }

  lemma {:induction false} FullyImpliesDeliveries(g: Group, plans: seq<Plan>)
    requires FullyIsolated(g, plans)
    ensures DeliveriesIsolated(g, plans)
  {
    forall raises: Engines, events: seq<Row>, i: nat | i < |plans| && Streamable(SharedRequest(g, plans), events)
      ensures Dispatch(g, plans, raises, events).received[i] == Alone(g, plans[i], raises, i, events)
    {
      assert Isolated(plans, raises, Dispatch(g, plans, raises, events), i, Alone(g, plans[i], raises, i, events));
    }
  }

  /** A plan that receives nothing is counted as served when another plan uses its run id. */
  lemma {:induction false} CountShows(g: Group, plans: seq<Plan>, i: nat, j: nat)
    requires i < |plans| && j < |plans| && plans[i].runId == plans[j].runId
    requires Listens(g, plans[j]) && !Listens(g, plans[i])
    ensures !FullyIsolated(g, plans)
  {
    hide Listens, Isolated;
    var r := ListenerRow(g, plans, j, 0);
    assert Streamable(SharedRequest(g, plans), [r]);
    hide Streamable;
    NoListenerIsDeaf(g, plans, i, [r]);
    assert r in [r];
    CountedTwice(g, plans, i, j, r);
  }

  function NeverRaises(): Engines {
    (k: nat, h: seq<Row>) => false
  }

  lemma {:induction false} CountedTwice(g: Group, plans: seq<Plan>, i: nat, j: nat, r: Row)
    requires i < |plans| && j < |plans| && plans[i].runId == plans[j].runId
    requires EventMatches(g, plans[j], r) && !EventMatches(g, plans[i], r)
    ensures var st := Dispatch(g, plans, NeverRaises(), [r]);
            || !Isolated(plans, NeverRaises(), st, i, Alone(g, plans[i], NeverRaises(), i, [r]))
            || !Isolated(plans, NeverRaises(), st, j, Alone(g, plans[j], NeverRaises(), j, [r]))
  {
    hide Dispatch;
    OneEventAlone(g, plans[i], i, r);
    OneEventAlone(g, plans[j], j, r);
    hide Alone;
  }

  lemma OneEventAlone(g: Group, p: Plan, i: nat, r: Row)
    ensures Alone(g, p, NeverRaises(), i, [r]) == if EventMatches(g, p, r) then [r] else []
  {
    hide EventMatches;
    assert [r][..0] == [];
    assert Alone(g, p, NeverRaises(), i, []) == [];
  }
}
