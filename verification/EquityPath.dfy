/**
 The equity path of a run, seen from the ledger alone.

 What the engine samples while it runs is a function of the ledger states it passes through: the
 fills so far give the books, the events so far give the prices.
 */
module EquityPath {
  import opened Wrappers
  import opened LedgerModel
  import opened LedgerLaws
  import opened Portfolio

  type Prices = map<Symbol, real>

  /** Bars of one second and of the execution timeframe set the last price. */
  predicate SetsPrice(cfg: Config, e: Event) {
    e.timeframe == Second || e.timeframe == cfg.executionTimeframe
  }

  function PriceAfter(cfg: Config, prices: Prices, e: Event): Prices {
    if SetsPrice(cfg, e) then prices[e.symbol := e.close] else prices
  }

  function PricesAfter(cfg: Config, events: seq<Event>): Prices {
    if events == [] then map[]
    else PriceAfter(cfg, PricesAfter(cfg, events[..|events| - 1]), events[|events| - 1])
  }

  /** Event j set the price of s, and no later event did. */
  ghost predicate LatestPrice(cfg: Config, events: seq<Event>, s: Symbol, j: nat) {
    && j < |events| && events[j].symbol == s
    && (events[j].timeframe == Second || events[j].timeframe == cfg.executionTimeframe)
    && forall k :: j < k < |events| ==>
         events[k].symbol != s
         || (events[k].timeframe != Second && events[k].timeframe != cfg.executionTimeframe)
  }

  /** The last price of a symbol is the close of the latest bar that sets it; without such a bar it has none. */
  lemma {:induction false} LastPriceIsLatest(cfg: Config, events: seq<Event>, s: Symbol)
    ensures forall j: nat :: LatestPrice(cfg, events, s, j) ==>
              s in PricesAfter(cfg, events) && PricesAfter(cfg, events)[s] == events[j].close
    ensures s in PricesAfter(cfg, events) <==> exists j: nat :: LatestPrice(cfg, events, s, j)
  {
    if events != [] {
      var n := |events| - 1;
      var before, last := events[..n], events[n];
      LastPriceIsLatest(cfg, before, s);
      if last.symbol == s && SetsPrice(cfg, last) {
        assert LatestPrice(cfg, events, s, n);
      } else {
        forall j: nat
          ensures LatestPrice(cfg, events, s, j) <==> LatestPrice(cfg, before, s, j)
        {
          assert forall k :: 0 <= k < n ==> before[k] == events[k];
        }
      }
    }
  }

  /** The price a position is marked at: the adverse extreme of its own bar, else the last price, else cost. */
  function MarkPrice(cfg: Config, prices: Prices, event: Option<Event>): Position -> real {
    (p: Position) =>
      if event.Some? && event.value.symbol == p.symbol && event.value.timeframe == cfg.executionTimeframe
      then (if p.side == Short then event.value.high else event.value.low)
      else if p.symbol in prices then prices[p.symbol]
      else p.entryPrice
  }

  /** What MarkPrice says in terms of the events: own bar, latest close, or cost. */
  lemma {:induction false} MarkIsLatestClose(cfg: Config, events: seq<Event>, event: Option<Event>, p: Position)
    ensures var mark := MarkPrice(cfg, PricesAfter(cfg, events), event)(p);
            if event.Some? && event.value.symbol == p.symbol && event.value.timeframe == cfg.executionTimeframe
            then mark == (if p.side == Long then event.value.low else event.value.high)
            else if exists j: nat :: LatestPrice(cfg, events, p.symbol, j)
            then exists j: nat :: LatestPrice(cfg, events, p.symbol, j) && mark == events[j].close
            else mark == p.entryPrice
  {
    LastPriceIsLatest(cfg, events, p.symbol);
  }

  /** What the account is worth on its latest event, at the adverse prices of that bar. */
  ghost function EquityAt(cfg: Config, l: Ledger): real {
    var event := if l.events == [] then None else Some(l.events[|l.events| - 1]);
    AccountValue(l.fills, Replay(l.fills).open, MarkPrice(cfg, PricesAfter(cfg, l.events), event))
  }

  /** What the account is worth at last prices. */
  ghost function FinalEquity(cfg: Config, l: Ledger): real {
    AccountValue(l.fills, Replay(l.fills).open, MarkPrice(cfg, PricesAfter(cfg, l.events), None))
  }

  /** The samples of one event: after its fills and, unless that raised, after the strategy's reaction. */
  ghost function EventSamples(cfg: Config, l: Ledger, e: Event, strategy: Strategy): seq<real> {
    var (m, ok) := CheckFills(cfg, Begin(l, e), e, strategy);
    if !ok then []
    else
      var (n, done) := React(cfg, m, e, strategy);
      [EquityAt(cfg, m)] + if done then [EquityAt(cfg, n)] else []
  }

  /** The samples of a run, up to the first error. */
  ghost function SamplesOf(cfg: Config, l: Ledger, events: seq<Event>, strategy: Strategy): seq<real>
    decreases |events|
  {
    if events == [] then []
    else
      var (m, ok) := ProcessEvent(cfg, l, events[0], strategy);
      EventSamples(cfg, l, events[0], strategy) + if ok then SamplesOf(cfg, m, events[1..], strategy) else []
  }

  /** One more event adds its samples to those of an error-free run. */
  lemma {:induction false} SamplesOneMore(cfg: Config, l: Ledger, events: seq<Event>, strategy: Strategy, e: Event)
    requires Run(cfg, l, events, strategy).1
    ensures var m := Run(cfg, l, events, strategy).0;
            && Run(cfg, l, events + [e], strategy) == ProcessEvent(cfg, m, e, strategy)
            && SamplesOf(cfg, l, events + [e], strategy)
               == SamplesOf(cfg, l, events, strategy) + EventSamples(cfg, m, e, strategy)
    decreases |events|
  {
    hide ProcessEvent, EventSamples;
    var all := events + [e];
    if events == [] {
      assert all[1..] == [];
      assert all[0] == e;
    } else {
      assert all[0] == events[0] && all[1..] == events[1..] + [e];
      SamplesOneMore(cfg, ProcessEvent(cfg, l, events[0], strategy).0, events[1..], strategy, e);
    }
  }

  /** The account when the fills of the k-th event of a run are done. */
  ghost function AfterFills(cfg: Config, l: Ledger, events: seq<Event>, strategy: Strategy, k: nat): Ledger
    requires k < |events|
  {
    CheckFills(cfg, Begin(Run(cfg, l, events[..k], strategy).0, events[k]), events[k], strategy).0
  }

  /**
   A run without an error has two samples for each event: the worth of the account after the
   event's fills, before the strategy reacts, and its worth after the whole event.
   */
  lemma {:induction false} SamplesFollowRun(cfg: Config, l: Ledger, events: seq<Event>, strategy: Strategy, k: nat)
    requires Run(cfg, l, events, strategy).1 && k < |events|
    ensures |SamplesOf(cfg, l, events, strategy)| == 2 * |events|
    ensures SamplesOf(cfg, l, events, strategy)[2 * k] == EquityAt(cfg, AfterFills(cfg, l, events, strategy, k))
    ensures SamplesOf(cfg, l, events, strategy)[2 * k + 1] == EquityAt(cfg, Run(cfg, l, events[..k + 1], strategy).0)
    decreases |events|
  {
    hide CheckFills, React, EquityAt;
    var e, rest := events[0], events[1..];
    var m := ProcessEvent(cfg, l, e, strategy).0;
    SamplesCount(cfg, m, rest, strategy);
    assert events[..k + 1][0] == e && events[..k + 1][1..] == rest[..k];
    if k > 0 {
      assert events[..k][0] == e && events[..k][1..] == rest[..k - 1];
      SamplesFollowRun(cfg, m, rest, strategy, k - 1);
      assert AfterFills(cfg, l, events, strategy, k) == AfterFills(cfg, m, rest, strategy, k - 1);
    }
  }

  lemma {:induction false} SamplesCount(cfg: Config, l: Ledger, events: seq<Event>, strategy: Strategy)
    requires Run(cfg, l, events, strategy).1
    ensures |SamplesOf(cfg, l, events, strategy)| == 2 * |events|
    decreases |events|
  {
    hide CheckFills, React, EquityAt;
    if events != [] {
      SamplesCount(cfg, ProcessEvent(cfg, l, events[0], strategy).0, events[1..], strategy);
    }
  }

  // ---------------------------------------------------------------------------
  // Adverse marks
  // ---------------------------------------------------------------------------

  /** Some price per position, within the bar where the position is on the bar. */
  ghost predicate WithinBar(cfg: Config, prices: Prices, e: Event, priceOf: Position -> real) {
    forall p: Position ::
      if p.symbol == e.symbol && e.timeframe == cfg.executionTimeframe then e.low <= priceOf(p) <= e.high
      else priceOf(p) == MarkPrice(cfg, prices, None)(p)
  }

  lemma {:induction false} AdverseOpenValue(
    cfg: Config, fills: seq<Fill>, open: seq<Position>, prices: Prices, e: Event, priceOf: Position -> real)
    requires WithinBar(cfg, prices, e, priceOf) && forall k :: 0 <= k < |open| ==> PositionOk(fills, open[k])
    ensures OpenValue(fills, open, MarkPrice(cfg, prices, Some(e))) <= OpenValue(fills, open, priceOf)
  {
    hide Held, MarkPrice, WithinBar, PositionOk;
    if open != [] {
      var n := |open| - 1;
      AdverseOpenValue(cfg, fills, open[..n], prices, e, priceOf);
      AdverseMark(cfg, fills, open[n], prices, e, priceOf);
    }
  }

  lemma AdverseMark(cfg: Config, fills: seq<Fill>, p: Position, prices: Prices, e: Event, priceOf: Position -> real)
    requires WithinBar(cfg, prices, e, priceOf) && PositionOk(fills, p)
    ensures Held(fills, p.symbol, MarkPrice(cfg, prices, Some(e))(p)) <= Held(fills, p.symbol, priceOf(p))
  {
    var x, y := MarkPrice(cfg, prices, Some(e))(p), priceOf(p);
    assert if p.side == Short then x >= y else x <= y;
    Ordered(p.quantity, x, y);
  }

  lemma Ordered(q: real, x: real, y: real)
    requires q > 0.0
    ensures x <= y ==> q * x <= q * y
    ensures x >= y ==> -q * x <= -q * y
  {
    if x <= y {
      assert q * (y - x) >= 0.0;
    }
    if x >= y {
      assert q * (x - y) >= 0.0;
    }
  }

  /** A sample is a lower bound: no path of prices inside the bar values the account lower. */
  lemma {:induction false} SampleIsAdverse(cfg: Config, l: Ledger, priceOf: Position -> real)
    requires Laws(cfg, l) && l.events != []
    requires WithinBar(cfg, PricesAfter(cfg, l.events), l.events[|l.events| - 1], priceOf)
    ensures EquityAt(cfg, l) <= AccountValue(l.fills, Replay(l.fills).open, priceOf)
  {
    hide Laws, WithinBar, PricesAfter, Replay;
    LawfulBooks(cfg, l);
    assert QuantitiesOk(l.fills, Replay(l.fills).open);
    AdverseOpenValue(cfg, l.fills, Replay(l.fills).open, PricesAfter(cfg, l.events), l.events[|l.events| - 1], priceOf);
  }
}
