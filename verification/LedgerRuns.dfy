/**
 The laws of `LedgerLaws` hold in every state any run can reach, whatever the strategy does, and
 what they mean for a caller.
 */
module LedgerRuns {
  import opened Wrappers
  import opened LedgerModel
  import opened LedgerLaws

  /** As long as no event has failed, a MARKET order is never left active. */
  ghost predicate MarketsDone(l: Ledger) {
    l.clean ==> forall i :: 0 <= i < |l.orders| && l.orders[i].orderType == Market ==> !l.orders[i].Active()
  }

  /** Nothing is placed and the clock stands still. */
  ghost predicate SamePlacements(l: Ledger, l': Ledger) {
    && |l'.orders| == |l.orders| && l'.placedOn == l.placedOn
    && l'.events == l.events && l'.now == l.now
  }

  /** Every order was placed by an earlier event. */
  ghost predicate AllPlacedEarlier(l: Ledger) {
    forall i :: 0 <= i < |l.placedOn| ==> l.placedOn[i] < |l.events|
  }

  /** `e` is the event being processed. */
  ghost predicate Ongoing(l: Ledger, e: Event) {
    l.events != [] && Current(l) == e
  }

  lemma MarketsStayDone(l: Ledger, l': Ledger)
    requires MarketsDone(l) && Evolves(l, l') && |l'.orders| == |l.orders|
    ensures MarketsDone(l')
  {
    if l'.clean {
      forall i | 0 <= i < |l'.orders| && l'.orders[i].orderType == Market
        ensures !l'.orders[i].Active()
      {
        assert OrderEvolves(l.orders[i], l'.orders[i]);
      }
    }
  }

  // ---------------------------------------------------------------------------
  // Callbacks
  // ---------------------------------------------------------------------------

  lemma CancelKeepsLaws(cfg: Config, l: Ledger, id: OrderId)
    requires Laws(cfg, l)
    ensures var l' := Cancel(l, id);
            && Laws(cfg, l') && Evolves(l, l') && SamePlacements(l, l')
            && l'.fills == l.fills && l'.clean == l.clean && l'.calls == l.calls
  {
    hide Laws, Evolves;
    EvolvesReflexive(l);
    if 1 <= id.counter <= |l.orders| && l.orders[id.counter - 1].id == id && l.orders[id.counter - 1].Active() {
      RetireKeepsLaws(cfg, l, id.counter - 1, Cancelled);
    }
  }

  lemma {:induction false} CancelAllKeepsLaws(cfg: Config, l: Ledger, ids: seq<OrderId>)
    requires Laws(cfg, l)
    ensures var l' := CancelAll(l, ids);
            && Laws(cfg, l') && Evolves(l, l') && SamePlacements(l, l')
            && l'.fills == l.fills && l'.clean == l.clean && l'.calls == l.calls
    decreases |ids|
  {
    hide Laws, Evolves, Cancel;
    EvolvesReflexive(l);
    if ids != [] {
      var m := Cancel(l, ids[0]);
      CancelKeepsLaws(cfg, l, ids[0]);
      CancelAllKeepsLaws(cfg, m, ids[1..]);
      EvolvesTransitive(l, m, CancelAll(l, ids));
    }
  }

  lemma CountingKeepsLaws(cfg: Config, l: Ledger, calls: nat)
    requires Laws(cfg, l)
    ensures Laws(cfg, l.(calls := calls)) && Evolves(l, l.(calls := calls))
  {
    hide FillJustified, OrdersOk, ClientsDistinct, FillsOk, Tallied, Paced, NotBeforeStart, NoReversal;
    hide ReduceOnlySafe, ReservationsBacked;
    var l' := l.(calls := calls);
    assert forall j :: 0 <= j < |l.fills| ==> CausalFill(cfg, l, j) ==> CausalFill(cfg, l', j);
  }

  lemma CallbackKeepsLaws(cfg: Config, l: Ledger, ids: seq<OrderId>)
    requires Laws(cfg, l)
    ensures var l' := AfterCallback(l, ids);
            && Laws(cfg, l') && Evolves(l, l') && SamePlacements(l, l')
            && l'.fills == l.fills && l'.clean == l.clean
  {
    hide Laws, Evolves, CancelAll;
    var m := l.(calls := l.calls + 1);
    CountingKeepsLaws(cfg, l, l.calls + 1);
    CancelAllKeepsLaws(cfg, m, ids);
    EvolvesTransitive(l, m, AfterCallback(l, ids));
  }

  // ---------------------------------------------------------------------------
  // Fills
  // ---------------------------------------------------------------------------

  lemma FailKeepsLaws(cfg: Config, l: Ledger)
    requires Laws(cfg, l)
    ensures Laws(cfg, l.(clean := false)) && Evolves(l, l.(clean := false))
  {
    hide FillJustified, OrdersOk, ClientsDistinct, FillsOk, Tallied, Paced, NotBeforeStart, NoReversal;
    hide ReduceOnlySafe, ReservationsBacked;
    var l' := l.(clean := false);
    assert forall j :: 0 <= j < |l.fills| ==> CausalFill(cfg, l, j) ==> CausalFill(cfg, l', j);
  }

  /** A fill attempt keeps every law, also when it fails; a MARKET order is final afterwards unless it failed. */
  lemma ExecuteFillKeepsLaws(cfg: Config, l: Ledger, i: nat)
    requires Laws(cfg, l) && Fillable(cfg, l, i)
    ensures var (l', attempt) := ExecuteFill(cfg, l, i, Current(l).open);
            && Laws(cfg, l') && Evolves(l, l') && SamePlacements(l, l')
            && (attempt.Failed? ==> !l'.clean)
            && (!attempt.Failed? ==> l'.clean == l.clean)
            && (!attempt.Failed? && l.orders[i].orderType == Market ==> !l'.orders[i].Active())
  {
    var net := Net(l.fills, l.orders[i].symbol);
    match Decide(cfg, l.orders[i], net)
    case Lapse =>
      RetireKeepsLaws(cfg, l, i, Expired);
    case WouldReverse =>
      FailKeepsLaws(cfg, l);
    case Take(q, cut) =>
      BookKeepsLaws(cfg, l, i);
      assert OrderOk(l.orders[i], i);
      TakeBounds(cfg, l.orders[i], i, net);
  }

  lemma SettleKeepsLaws(cfg: Config, l: Ledger, e: Event, strategy: Strategy, i: nat)
    requires Laws(cfg, l) && Fillable(cfg, l, i) && Ongoing(l, e)
    ensures var (l', ok) := Settle(cfg, l, e, strategy, i);
            && Laws(cfg, l') && Evolves(l, l') && SamePlacements(l, l')
            && (ok ==> l'.clean == l.clean) && (!ok ==> !l'.clean)
            && (ok && l.orders[i].orderType == Market ==> !l'.orders[i].Active())
  {
    hide Laws, AfterCallback, ExecuteFill;
    ExecuteFillKeepsLaws(cfg, l, i);
    var (m, attempt) := ExecuteFill(cfg, l, i, e.open);
    if attempt.Executed? {
      var ids := strategy.onFill(m.calls);
      CallbackKeepsLaws(cfg, m, ids);
      EvolvesTransitive(l, m, AfterCallback(m, ids));
      assert OrderEvolves(m.orders[i], AfterCallback(m, ids).orders[i]);
    }
  }

  lemma CrossedIsFillable(cfg: Config, l: Ledger, e: Event, i: nat)
    requires Laws(cfg, l) && AllPlacedEarlier(l) && Ongoing(l, e) && e.timeframe == cfg.executionTimeframe
    requires i < |l.orders| && l.orders[i].Active() && !l.orders[i].Lapsed(l.now)
    requires l.orders[i].symbol == e.symbol && Triggered(l.orders[i], e)
    ensures Shape(l) && Fillable(cfg, l, i)
  {
  }

  lemma MarketIsFillable(cfg: Config, l: Ledger, i: nat)
    requires Laws(cfg, l) && l.events != [] && i < |l.orders|
    requires l.orders[i].orderType == Market && l.orders[i].status == New
    ensures Shape(l) && Fillable(cfg, l, i)
  {
  }

  lemma VisitKeepsLaws(cfg: Config, l: Ledger, e: Event, strategy: Strategy, i: nat)
    requires Laws(cfg, l) && AllPlacedEarlier(l) && Ongoing(l, e) && e.timeframe == cfg.executionTimeframe
    requires i < |l.orders| && l.orders[i].symbol == e.symbol
    ensures var (l', ok) := Visit(cfg, l, e, strategy, i);
            && Laws(cfg, l') && Evolves(l, l') && SamePlacements(l, l')
            && (ok ==> l'.clean == l.clean) && (!ok ==> !l'.clean)
  {
    hide Laws, Evolves, Settle;
    EvolvesReflexive(l);
    var o := l.orders[i];
    if o.Active() {
      if o.Lapsed(l.now) {
        RetireKeepsLaws(cfg, l, i, Expired);
      } else if Triggered(o, e) {
        CrossedIsFillable(cfg, l, e, i);
        SettleKeepsLaws(cfg, l, e, strategy, i);
      }
    }
  }

  lemma {:induction false} VisitAllKeepsLaws(cfg: Config, l: Ledger, e: Event, strategy: Strategy, refs: seq<nat>)
    requires Laws(cfg, l) && AllPlacedEarlier(l) && Ongoing(l, e) && e.timeframe == cfg.executionTimeframe
    requires forall j :: 0 <= j < |refs| ==> refs[j] < |l.orders| && l.orders[refs[j]].symbol == e.symbol
    ensures var (l', ok) := VisitAll(cfg, l, e, strategy, refs);
            && Laws(cfg, l') && Evolves(l, l') && SamePlacements(l, l')
            && (ok ==> l'.clean == l.clean) && (!ok ==> !l'.clean)
    decreases |refs|
  {
    hide Laws, Visit;
    EvolvesReflexive(l);
    if refs != [] {
      VisitKeepsLaws(cfg, l, e, strategy, refs[0]);
      var (m, ok) := Visit(cfg, l, e, strategy, refs[0]);
      if ok {
        forall j | 0 <= j < |refs[1..]|
          ensures m.orders[refs[1..][j]].symbol == e.symbol
        {
          assert OrderEvolves(l.orders[refs[j + 1]], m.orders[refs[j + 1]]);
        }
        VisitAllKeepsLaws(cfg, m, e, strategy, refs[1..]);
        EvolvesTransitive(l, m, VisitAll(cfg, m, e, strategy, refs[1..]).0);
      }
    }
  }

  // ---------------------------------------------------------------------------
  // Placements
  // ---------------------------------------------------------------------------

  lemma PlaceKeepsLaws(cfg: Config, l: Ledger, intent: Intent)
    requires Laws(cfg, l) && TradingEnabled(cfg, l.now) && l.events != []
    ensures var (l', placed) := Place(l, intent);
            && Laws(cfg, l') && Evolves(l, l') && l'.now == l.now && l'.events == l.events
            && (placed.Some? ==>
                  && l'.clean == l.clean
                  && (l' == l || (l' == Append(l, intent) && placed.value == |l.orders|)))
            && (placed.None? ==> !l'.clean && l' == l.(clean := false))
  {
    hide Laws, Evolves, ReduceOnlyAllowed;
    EvolvesReflexive(l);
    if FindClient(l.orders, intent.clientId).None? {
      if intent.reduceOnly && !ReduceOnlyAllowed(l, intent) {
        FailKeepsLaws(cfg, l);
      } else {
        AppendKeepsLaws(cfg, l, intent);
      }
    }
  }

  lemma PlaceOneKeepsLaws(cfg: Config, l: Ledger, e: Event, strategy: Strategy, intent: Intent)
    requires Laws(cfg, l) && MarketsDone(l) && TradingEnabled(cfg, l.now) && Ongoing(l, e)
    ensures var (l', ok) := PlaceOne(cfg, l, e, strategy, intent);
            && Laws(cfg, l') && Evolves(l, l') && MarketsDone(l') && l'.now == l.now && l'.events == l.events
            && (ok ==> l'.clean == l.clean) && (!ok ==> !l'.clean)
  {
    hide Laws, Evolves, Settle, Place, MarketsDone;
    EvolvesReflexive(l);
    PlaceKeepsLaws(cfg, l, intent);
    var (m, placed) := Place(l, intent);
    if placed.Some? {
      var i := placed.value;
      if m.orders[i].orderType == Market && m.orders[i].status == New {
        MarketIsFillable(cfg, m, i);
        SettleKeepsLaws(cfg, m, e, strategy, i);
        var (r, ok) := Settle(cfg, m, e, strategy, i);
        EvolvesTransitive(l, m, r);
        PlacedMarketDone(l, m, r, i);
      } else {
        PlacedOtherDone(l, m, intent);
      }
    } else {
      FailedIsDone(m);
    }
  }

  lemma FailedIsDone(l: Ledger)
    requires !l.clean
    ensures MarketsDone(l)
  {
  }

  lemma PlacedOtherDone(l: Ledger, m: Ledger, intent: Intent)
    requires MarketsDone(l) && m.clean == l.clean
    requires m.orders == l.orders || (m == Append(l, intent) && intent.orderType == Limit)
    ensures MarketsDone(m)
  {
  }

  /** Only the order just settled could have been left active. */
  lemma PlacedMarketDone(l: Ledger, m: Ledger, r: Ledger, i: nat)
    requires MarketsDone(l) && Evolves(l, m) && Evolves(m, r) && |r.orders| == |m.orders|
    requires m == l || |m.orders| == |l.orders| + 1 == i + 1
    requires i < |m.orders|
    requires r.clean ==> !r.orders[i].Active()
    ensures MarketsDone(r)
  {
    if r.clean {
      forall k | 0 <= k < |r.orders| && r.orders[k].orderType == Market
        ensures !r.orders[k].Active()
      {
        assert OrderEvolves(m.orders[k], r.orders[k]);
        if k < |l.orders| {
          assert OrderEvolves(l.orders[k], m.orders[k]);
        }
      }
    }
  }

  lemma {:induction false} PlaceAllKeepsLaws(cfg: Config, l: Ledger, e: Event, strategy: Strategy, intents: seq<Intent>)
    requires Laws(cfg, l) && MarketsDone(l) && TradingEnabled(cfg, l.now) && Ongoing(l, e)
    ensures var (l', ok) := PlaceAll(cfg, l, e, strategy, intents);
            && Laws(cfg, l') && Evolves(l, l') && MarketsDone(l') && l'.events == l.events
            && (ok ==> l'.clean == l.clean) && (!ok ==> !l'.clean)
    decreases |intents|
  {
    hide Laws, Evolves, PlaceOne, MarketsDone;
    EvolvesReflexive(l);
    if intents != [] {
      PlaceOneKeepsLaws(cfg, l, e, strategy, intents[0]);
      var (m, ok) := PlaceOne(cfg, l, e, strategy, intents[0]);
      if ok {
        PlaceAllKeepsLaws(cfg, m, e, strategy, intents[1..]);
        EvolvesTransitive(l, m, PlaceAll(cfg, m, e, strategy, intents[1..]).0);
      }
    }
  }

  // ---------------------------------------------------------------------------
  // Events and runs
  // ---------------------------------------------------------------------------

  lemma BeginKeepsLaws(cfg: Config, l: Ledger, e: Event)
    requires Laws(cfg, l)
    ensures var l' := Begin(l, e); Laws(cfg, l') && Evolves(l, l') && AllPlacedEarlier(l') && Ongoing(l', e)
  {
    hide FillJustified, OrdersOk, ClientsDistinct, FillsOk, Tallied, Paced, NotBeforeStart, NoReversal;
    hide ReduceOnlySafe, ReservationsBacked;
    var l' := Begin(l, e);
    assert forall j :: 0 <= j < |l.fills| ==> CausalFill(cfg, l, j) ==> CausalFill(cfg, l', j);
  }

  lemma {:induction false} ActiveRefsOf(orders: seq<Order>, s: Symbol, refs: seq<nat>)
    requires refs == ActiveRefs(orders, s)
    ensures forall j :: 0 <= j < |refs| ==> refs[j] < |orders| && orders[refs[j]].symbol == s
  {
    ActiveRefsExact(orders, s);
    assert forall j :: 0 <= j < |refs| ==> refs[j] in refs;
  }

  lemma CheckFillsKeepsLaws(cfg: Config, l: Ledger, e: Event, strategy: Strategy)
    requires Laws(cfg, l) && AllPlacedEarlier(l) && MarketsDone(l) && Ongoing(l, e)
    ensures var (l', ok) := CheckFills(cfg, l, e, strategy);
            && Laws(cfg, l') && Evolves(l, l') && MarketsDone(l') && l'.events == l.events
            && (ok ==> l'.clean == l.clean) && (!ok ==> !l'.clean)
  {
    hide Laws, VisitAll, MarketsDone;
    EvolvesReflexive(l);
    if e.timeframe == cfg.executionTimeframe {
      var refs := ActiveRefs(l.orders, e.symbol);
      ActiveRefsOf(l.orders, e.symbol, refs);
      VisitAllKeepsLaws(cfg, l, e, strategy, refs);
      MarketsStayDone(l, CheckFills(cfg, l, e, strategy).0);
    }
  }

  lemma ReactKeepsLaws(cfg: Config, l: Ledger, e: Event, strategy: Strategy)
    requires Laws(cfg, l) && MarketsDone(l) && Ongoing(l, e)
    ensures var (l', ok) := React(cfg, l, e, strategy);
            && Laws(cfg, l') && Evolves(l, l') && MarketsDone(l') && l'.events == l.events
            && (ok ==> l'.clean == l.clean) && (!ok ==> !l'.clean)
  {
    hide Laws, Evolves, PlaceAll, MarketsDone, AfterCallback;
    EvolvesReflexive(l);
    var response := strategy.onEvent(l.calls);
    var m := AfterCallback(l, response.cancels);
    CallbackKeepsLaws(cfg, l, response.cancels);
    MarketsStayDone(l, m);
    if TradingEnabled(cfg, l.now) {
      PlaceAllKeepsLaws(cfg, m, e, strategy, response.intents);
      EvolvesTransitive(l, m, React(cfg, l, e, strategy).0);
    }
  }

  /** One event keeps every law, whether or not it ends in an error. */
  lemma ProcessEventKeepsLaws(cfg: Config, l: Ledger, e: Event, strategy: Strategy)
    requires Laws(cfg, l) && MarketsDone(l)
    ensures var (l', ok) := ProcessEvent(cfg, l, e, strategy);
            && Laws(cfg, l') && Evolves(l, l') && MarketsDone(l') && l'.events == l.events + [e]
            && (ok ==> l'.clean == l.clean) && (!ok ==> !l'.clean)
  {
    hide Laws, Evolves, CheckFills, React;
    var b := Begin(l, e);
    BeginKeepsLaws(cfg, l, e);
    assert MarketsDone(b);
    CheckFillsKeepsLaws(cfg, b, e, strategy);
    var (m, ok) := CheckFills(cfg, b, e, strategy);
    EvolvesTransitive(l, b, m);
    if ok {
      ReactKeepsLaws(cfg, m, e, strategy);
      EvolvesTransitive(l, m, React(cfg, m, e, strategy).0);
    }
  }

  /** Continuing a run from any lawful ledger stays lawful and rewrites no history. */
  lemma {:induction false} RunKeepsLaws(cfg: Config, l: Ledger, events: seq<Event>, strategy: Strategy)
    requires Laws(cfg, l) && MarketsDone(l)
    ensures var (l', ok) := Run(cfg, l, events, strategy);
            && Laws(cfg, l') && Evolves(l, l') && MarketsDone(l')
            && l.events <= l'.events <= l.events + events && (ok ==> l'.events == l.events + events)
            && (ok ==> l'.clean == l.clean) && (!ok ==> !l'.clean)
    decreases |events|
  {
    hide Laws, Evolves, ProcessEvent, MarketsDone;
    EvolvesReflexive(l);
    if events != [] {
      ProcessEventKeepsLaws(cfg, l, events[0], strategy);
      var (m, ok) := ProcessEvent(cfg, l, events[0], strategy);
      assert l.events + events == (l.events + [events[0]]) + events[1..];
      if ok {
        RunKeepsLaws(cfg, m, events[1..], strategy);
        EvolvesTransitive(l, m, Run(cfg, m, events[1..], strategy).0);
      }
    }
  }

  lemma InitialIsLawful(cfg: Config, now: int)
    ensures Laws(cfg, Initial(now)) && MarketsDone(Initial(now))
  {
    forall s
      ensures Backed([], Net([], s), s)
    {
    }
  }

  /** Every state of every run of every strategy obeys the laws, about the events it was given. */
  lemma {:induction false} EveryRunIsLawful(cfg: Config, now: int, events: seq<Event>, strategy: Strategy)
    ensures var (l, ok) := Run(cfg, Initial(now), events, strategy);
            && Laws(cfg, l) && MarketsDone(l) && (ok <==> l.clean)
            && l.events <= events && (ok ==> l.events == events)
  {
    hide Laws, Evolves, MarketsDone;
    InitialIsLawful(cfg, now);
    RunKeepsLaws(cfg, Initial(now), events, strategy);
    assert Initial(now).events + events == events;
  }

  // ---------------------------------------------------------------------------
  // What the laws mean
  // ---------------------------------------------------------------------------

  function Ceiling(x: real): int {
    -((-x).Floor)
  }

  /** No LIMIT order fills more often than the per-bar fraction divides one, rounded up. */
  lemma {:induction false} LimitFillsBounded(cfg: Config, l: Ledger, i: nat)
    requires Laws(cfg, l) && i < |l.orders| && l.orders[i].orderType == Limit
    ensures FillCount(l.fills, i) <= Ceiling(1.0 / cfg.fraction)
  {
    var o := l.orders[i];
    var k := FillCount(l.fills, i);
    assert OrderOk(o, i) && OnPace(cfg, o, k);
    if k >= 1 {
      var x := 1.0 / cfg.fraction;
      assert x * cfg.fraction == 1.0;
      PaceBelow(k, o.quantity, cfg.fraction, x);
    } else {
      assert 1.0 / cfg.fraction > 0.0;
    }
  }

  lemma PaceBelow(k: nat, q: real, fraction: real, x: real)
    requires q > 0.0 && 0.0 < fraction && x * fraction == 1.0
    requires Slices(k, q * fraction) < q + q * fraction
    ensures k <= Ceiling(x)
  {
    var y := k as real * fraction - 1.0 - fraction;
    assert q * y == k as real * (q * fraction) - q - q * fraction;
    PositiveFactor(q, y);
    var z := k as real - 1.0 - x;
    assert fraction * z == y;
    PositiveFactor(fraction, z);
  }

  lemma PositiveFactor(q: real, y: real)
    requires q > 0.0 && q * y < 0.0
    ensures y < 0.0
  {
  }

  /**
   While every closing fill so far came from a reduce-only order, a reduce-only order that is
   still active is filled as asked: it is neither cut short nor expired.
   */
  lemma ReduceOnlyNeverCut(cfg: Config, l: Ledger, i: nat)
    requires Laws(cfg, l) && ClosersReduceOnly(l.orders, l.fills)
    requires i < |l.orders| && l.orders[i].Active() && l.orders[i].reduceOnly
    ensures Decide(cfg, l.orders[i], Net(l.fills, l.orders[i].symbol)) == Take(Wanted(cfg, l.orders[i]), false)
  {
    hide Decide, Wanted;
    var o := l.orders[i];
    assert Backed(l.orders, Net(l.fills, o.symbol), o.symbol);
    assert OrderOk(o, i) && Reserves(o, o.symbol);
    ReservedIncludes(l.orders, i, o.symbol);
    FilledAsAsked(cfg, o, i, Net(l.fills, o.symbol));
  }

  lemma FilledAsAsked(cfg: Config, o: Order, i: nat, net: real)
    requires OrderOk(o, i) && o.Active() && o.reduceOnly && Closes(o.side, net) && o.Remaining() <= Abs(net)
    ensures Decide(cfg, o, net) == Take(Wanted(cfg, o), false)
  {
    ProductPositive(o.quantity, cfg.fraction);
  }

  /** Submitting a known client id again changes nothing while no event has failed. */
  lemma ResubmissionIsIdempotent(cfg: Config, l: Ledger, e: Event, strategy: Strategy, intent: Intent, i: nat)
    requires Laws(cfg, l) && MarketsDone(l) && l.clean
    requires i < |l.orders| && l.orders[i].clientId == intent.clientId
    ensures Place(l, intent) == (l, Some(i))
    ensures PlaceOne(cfg, l, e, strategy, intent) == (l, true)
  {
    assert FindClient(l.orders, intent.clientId).Some?;
  }

  /** One fill never takes a position from one side to the other. */
  lemma StepKeepsSign(fills: seq<Fill>, j: nat, s: Symbol)
    requires NoReversal(fills) && j < |fills|
    requires forall k :: 0 <= k < |fills| ==> fills[k].quantity > 0.0
    ensures Net(fills[..j], s) > 0.0 ==> Net(fills[..j + 1], s) >= 0.0
    ensures Net(fills[..j], s) < 0.0 ==> Net(fills[..j + 1], s) <= 0.0
  {
    assert fills[..j + 1] == fills[..j] + [fills[j]];
    SumAppend(fills[..j], fills[j], NetQuantity(s));
    assert KeepsSide(fills, j);
  }

  /** A position changes side only by being flat in between. */
  lemma {:induction false} SideChangePassesFlat(fills: seq<Fill>, m: nat, n: nat, s: Symbol) returns (k: nat)
    requires NoReversal(fills) && m <= n <= |fills|
    requires forall k :: 0 <= k < |fills| ==> fills[k].quantity > 0.0
    requires Net(fills[..m], s) < 0.0 < Net(fills[..n], s) || Net(fills[..n], s) < 0.0 < Net(fills[..m], s)
    ensures m < k < n && Net(fills[..k], s) == 0.0
    decreases n - m
  {
    StepKeepsSign(fills, m, s);
    if Net(fills[..m + 1], s) == 0.0 {
      k := m + 1;
    } else {
      k := SideChangePassesFlat(fills, m + 1, n, s);
    }
  }

  // ---------------------------------------------------------------------------
  // Prices
  // ---------------------------------------------------------------------------

  /** A LIMIT sale fills at its price or better, a LIMIT purchase exactly at its price. */
  lemma LimitPriceOrBetter(cfg: Config, l: Ledger, j: nat)
    requires Laws(cfg, l) && j < |l.fills| && l.fills[j].order < |l.orders|
    requires l.orders[l.fills[j].order].orderType == Limit
    ensures var f, o := l.fills[j], l.orders[l.fills[j].order];
            && Shape(l)
            && (o.side == Buy ==> f.price == o.price)
            && (o.side == Sell ==>
                  var open := l.events[l.filledOn[j] - 1].open;
                  f.price >= o.price && f.price >= open && (f.price == o.price || f.price == open))
  {
    hide Tallied, Paced, ReservationsBacked, NoReversal, ReduceOnlySafe, ClientsDistinct;
    assert CausalFill(cfg, l, j);
  }

  /** Slippage never favours a MARKET order. */
  lemma SlippageIsAdverse(cfg: Config, side: Side, price: real, open: real)
    requires cfg.slippageBps >= 0.0 && price >= 0.0 && open >= 0.0
    ensures if side == Buy then PriceFor(cfg, side, Market, price, open) >= price
            else PriceFor(cfg, side, Market, price, open) <= Max(price, open)
  {
    var baseline := if side == Sell then Max(price, open) else price;
    var rate := cfg.slippageBps / 10000.0;
    assert baseline * rate >= 0.0;
    assert baseline * (1.0 + rate) == baseline + baseline * rate;
    assert baseline * (1.0 - rate) == baseline - baseline * rate;
  }
}
