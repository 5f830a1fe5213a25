/**
 What the steps achieve, next to what they keep: cancellations take effect, intents become orders,
 and a bar leaves no order behind that it should have filled or expired.
 */
module LedgerProgress {
  import opened Wrappers
  import opened LedgerModel
  import opened LedgerLaws
  import opened LedgerRuns

  // ---------------------------------------------------------------------------
  // Cancelling
  // ---------------------------------------------------------------------------

  /** Cancelling a list of ids cancels the active orders among them, now, and touches no other. */
  lemma {:induction false} CancelledStay(cfg: Config, l: Ledger, ids: seq<OrderId>, i: nat)
    requires Laws(cfg, l) && i < |l.orders|
    ensures CancelAll(l, ids).orders[i]
         == if l.orders[i].Active() && l.orders[i].id in ids
            then l.orders[i].(status := Cancelled, cancelTime := Some(l.now)) else l.orders[i]
    decreases |ids|
  {
    hide Laws, Cancel;
    if ids != [] {
      CancelKeepsLaws(cfg, l, ids[0]);
      CancelledStay(cfg, Cancel(l, ids[0]), ids[1..], i);
      CancelHits(cfg, l, ids[0], i);
    }
  }

  /** Cancelling an id ends the order with that id and touches no other. */
  lemma CancelHits(cfg: Config, l: Ledger, id: OrderId, i: nat)
    requires Laws(cfg, l) && i < |l.orders|
    ensures Cancel(l, id).orders[i]
         == if l.orders[i].Active() && l.orders[i].id == id
            then l.orders[i].(status := Cancelled, cancelTime := Some(l.now)) else l.orders[i]
  {
    hide Causal, Tallied, Paced, ReservationsBacked, NoReversal, ReduceOnlySafe, ClientsDistinct;
    assert OrderOk(l.orders[i], i);
  }

  // ---------------------------------------------------------------------------
  // Placing
  // ---------------------------------------------------------------------------

  ghost predicate Known(l: Ledger, clientId: string) {
    exists i :: 0 <= i < |l.orders| && l.orders[i].clientId == clientId
  }

  lemma KnownStays(l: Ledger, l': Ledger, clientId: string)
    requires Known(l, clientId) && Evolves(l, l')
    ensures Known(l', clientId)
  {
    var i :| 0 <= i < |l.orders| && l.orders[i].clientId == clientId;
    assert OrderEvolves(l.orders[i], l'.orders[i]);
  }

  /** The intent that an order was placed for. */
  function IntentOf(o: Order): RawIntent {
    Intent(o.clientId, o.symbol, o.side, o.orderType, o.price, o.quantity, o.ttl, o.reduceOnly)
  }

  ghost predicate StandsFor(l: Ledger, intent: Intent) {
    exists i :: 0 <= i < |l.orders| && IntentOf(l.orders[i]) == intent
  }

  lemma StandsForStays(l: Ledger, l': Ledger, intent: Intent)
    requires StandsFor(l, intent) && Evolves(l, l')
    ensures StandsFor(l', intent)
  {
    var i :| 0 <= i < |l.orders| && IntentOf(l.orders[i]) == intent;
    assert OrderEvolves(l.orders[i], l'.orders[i]);
  }

  /** The intent can be read back from the order placed for it, and nothing else is touched. */
  lemma PlacedAsAsked(cfg: Config, l: Ledger, intent: Intent)
    requires Laws(cfg, l) && Place(l, intent).1.Some?
    ensures Known(Place(l, intent).0, intent.clientId)
    ensures !Known(l, intent.clientId) ==>
              var (l', i) := Place(l, intent);
              && l'.orders[..|l.orders|] == l.orders && |l'.orders| == |l.orders| + 1 && i == Some(|l.orders|)
              && l'.orders[|l.orders|].createdAt == l.now && IntentOf(l'.orders[|l.orders|]) == intent
  {
    hide Laws;
    var (l', placed) := Place(l, intent);
    assert l'.orders[placed.value].clientId == intent.clientId;
  }

  lemma PlaceOneKnown(cfg: Config, l: Ledger, e: Event, strategy: Strategy, intent: Intent)
    requires Laws(cfg, l) && MarketsDone(l) && TradingEnabled(cfg, l.now) && Ongoing(l, e)
    requires PlaceOne(cfg, l, e, strategy, intent).1
    ensures Known(PlaceOne(cfg, l, e, strategy, intent).0, intent.clientId)
    ensures !Known(l, intent.clientId) ==> StandsFor(PlaceOne(cfg, l, e, strategy, intent).0, intent)
    ensures forall c :: c != intent.clientId && !Known(l, c) ==> !Known(PlaceOne(cfg, l, e, strategy, intent).0, c)
  {
    hide Laws, Evolves, Settle, Place;
    PlaceKeepsLaws(cfg, l, intent);
    var (m, placed) := Place(l, intent);
    PlacedAsAsked(cfg, l, intent);
    PlacedClients(cfg, l, intent);
    assert !Known(l, intent.clientId) ==> StandsFor(m, intent);
    var i := placed.value;
    if m.orders[i].orderType == Market && m.orders[i].status == New {
      MarketIsFillable(cfg, m, i);
      SettleKeepsLaws(cfg, m, e, strategy, i);
      var r := Settle(cfg, m, e, strategy, i).0;
      KnownStays(m, r, intent.clientId);
      SameClients(m, r);
      if !Known(l, intent.clientId) {
        StandsForStays(m, r, intent);
      }
    }
  }

  lemma PlacedClients(cfg: Config, l: Ledger, intent: Intent)
    requires Laws(cfg, l) && Place(l, intent).1.Some?
    ensures forall c :: c != intent.clientId && !Known(l, c) ==> !Known(Place(l, intent).0, c)
  {
    hide Laws;
    var l' := Place(l, intent).0;
    forall c | c != intent.clientId && Known(l', c)
      ensures Known(l, c)
    {
      var i :| 0 <= i < |l'.orders| && l'.orders[i].clientId == c;
      assert l.orders[i].clientId == c;
    }
  }

  lemma SameClients(l: Ledger, l': Ledger)
    requires Evolves(l, l') && |l'.orders| == |l.orders|
    ensures forall c :: Known(l', c) ==> Known(l, c)
  {
    forall c | Known(l', c)
      ensures Known(l, c)
    {
      var i :| 0 <= i < |l'.orders| && l'.orders[i].clientId == c;
      assert OrderEvolves(l.orders[i], l'.orders[i]);
    }
  }

  ghost predicate FirstUse(l: Ledger, intents: seq<Intent>, k: nat)
    requires k < |intents|
  {
    !Known(l, intents[k].clientId) && forall j :: 0 <= j < k ==> intents[j].clientId != intents[k].clientId
  }

  /**
   When placing goes through without an error, every client id has its order, and an intent that
   uses its client id for the first time stands in the history exactly as asked.
   */
  lemma {:induction false} AllIntentsPlaced(
    cfg: Config, l: Ledger, e: Event, strategy: Strategy, intents: seq<Intent>, k: nat)
    requires Laws(cfg, l) && MarketsDone(l) && TradingEnabled(cfg, l.now) && Ongoing(l, e)
    requires k < |intents| && PlaceAll(cfg, l, e, strategy, intents).1
    ensures Known(PlaceAll(cfg, l, e, strategy, intents).0, intents[k].clientId)
    ensures FirstUse(l, intents, k) ==> StandsFor(PlaceAll(cfg, l, e, strategy, intents).0, intents[k])
    decreases |intents|
  {
    hide Laws, Evolves, PlaceOne, MarketsDone, Known, StandsFor;
    PlaceOneKeepsLaws(cfg, l, e, strategy, intents[0]);
    PlaceOneKnown(cfg, l, e, strategy, intents[0]);
    var m := PlaceOne(cfg, l, e, strategy, intents[0]).0;
    var last := PlaceAll(cfg, m, e, strategy, intents[1..]).0;
    PlaceAllKeepsLaws(cfg, m, e, strategy, intents[1..]);
    if k == 0 {
      KnownStays(m, last, intents[0].clientId);
      if StandsFor(m, intents[0]) {
        StandsForStays(m, last, intents[0]);
      }
    } else {
      AllIntentsPlaced(cfg, m, e, strategy, intents[1..], k - 1);
      assert FirstUse(l, intents, k) ==> FirstUse(m, intents[1..], k - 1) by {
        if FirstUse(l, intents, k) {
          assert forall j :: 0 <= j < k - 1 ==> intents[1..][j] == intents[j + 1];
        }
      }
    }
  }

  // ---------------------------------------------------------------------------
  // Filling
  // ---------------------------------------------------------------------------

  ghost predicate FilledNow(l: Ledger, i: nat) {
    exists j :: 0 <= j < |l.fills| && j < |l.filledOn| && l.fills[j].order == i && l.filledOn[j] == |l.events|
  }

  /** The bar is done with the order: it is final, or neither lapsed nor crossed without a fill. */
  ghost predicate Handled(l: Ledger, e: Event, i: nat)
    requires i < |l.orders|
  {
    var o := l.orders[i];
    o.Active() ==>
      && (o.ttl.Some? && o.ttl.value != 0 ==> l.now < o.createdAt + o.ttl.value)
      && ((o.side == Sell && o.price < e.high) || (o.side == Buy && e.low < o.price) ==> FilledNow(l, i))
  }

  lemma HandledStays(l: Ledger, l': Ledger, e: Event, i: nat)
    requires i < |l.orders| && Handled(l, e, i) && Evolves(l, l') && l'.events == l.events && l'.now == l.now
    ensures Handled(l', e, i)
  {
    assert OrderEvolves(l.orders[i], l'.orders[i]);
    if FilledNow(l, i) {
      var j :| 0 <= j < |l.fills| && j < |l.filledOn| && l.fills[j].order == i && l.filledOn[j] == |l.events|;
      assert l'.fills[j] == l.fills[j] && l'.filledOn[j] == l.filledOn[j];
    }
  }

  lemma BookedNow(cfg: Config, l: Ledger, i: nat, q: real, cut: bool, open: real)
    requires Shape(l) && i < |l.orders|
    ensures FilledNow(Book(cfg, l, i, q, cut, open), i)
  {
    var l' := Book(cfg, l, i, q, cut, open);
    assert l'.fills[|l.fills|].order == i && l'.filledOn[|l.fills|] == |l'.events|;
  }

  lemma SettleHandles(cfg: Config, l: Ledger, e: Event, strategy: Strategy, i: nat)
    requires Laws(cfg, l) && Fillable(cfg, l, i) && Ongoing(l, e) && !l.orders[i].Lapsed(l.now)
    requires Settle(cfg, l, e, strategy, i).1
    ensures Handled(Settle(cfg, l, e, strategy, i).0, e, i)
  {
    ExecuteFillKeepsLaws(cfg, l, i);
    var (m, attempt) := ExecuteFill(cfg, l, i, e.open);
    assert OrderEvolves(l.orders[i], m.orders[i]);
    if attempt.Executed? {
      var d := Decide(cfg, l.orders[i], Net(l.fills, l.orders[i].symbol));
      BookedNow(cfg, l, i, d.quantity, d.expireRemainder, e.open);
      hide Laws, ExecuteFill, Evolves;
      var ids := strategy.onFill(m.calls);
      CallbackKeepsLaws(cfg, m, ids);
      HandledStays(m, AfterCallback(m, ids), e, i);
    }
  }

  lemma VisitHandles(cfg: Config, l: Ledger, e: Event, strategy: Strategy, i: nat)
    requires Laws(cfg, l) && AllPlacedEarlier(l) && Ongoing(l, e) && e.timeframe == cfg.executionTimeframe
    requires i < |l.orders| && l.orders[i].symbol == e.symbol && Visit(cfg, l, e, strategy, i).1
    ensures Handled(Visit(cfg, l, e, strategy, i).0, e, i)
  {
    hide Laws, Settle;
    var o := l.orders[i];
    if o.Active() && !o.Lapsed(l.now) && Triggered(o, e) {
      CrossedIsFillable(cfg, l, e, i);
      SettleHandles(cfg, l, e, strategy, i);
    }
  }

  /** After the fill loop every order of the snapshot has been handled, whatever the callbacks did. */
  lemma {:induction false} VisitAllHandles(cfg: Config, l: Ledger, e: Event, strategy: Strategy, refs: seq<nat>, k: nat)
    requires Laws(cfg, l) && AllPlacedEarlier(l) && Ongoing(l, e) && e.timeframe == cfg.executionTimeframe
    requires forall j :: 0 <= j < |refs| ==> refs[j] < |l.orders| && l.orders[refs[j]].symbol == e.symbol
    requires k < |refs| && VisitAll(cfg, l, e, strategy, refs).1
    ensures Handled(VisitAll(cfg, l, e, strategy, refs).0, e, refs[k])
    decreases |refs|
  {
    hide Laws, Visit, Handled;
    VisitKeepsLaws(cfg, l, e, strategy, refs[0]);
    var m := Visit(cfg, l, e, strategy, refs[0]).0;
    forall j | 0 <= j < |refs[1..]|
      ensures m.orders[refs[1..][j]].symbol == e.symbol
    {
      assert OrderEvolves(l.orders[refs[j + 1]], m.orders[refs[j + 1]]);
    }
    VisitAllKeepsLaws(cfg, m, e, strategy, refs[1..]);
    if k == 0 {
      VisitHandles(cfg, l, e, strategy, refs[0]);
      HandledStays(m, VisitAll(cfg, m, e, strategy, refs[1..]).0, e, refs[0]);
    } else {
      VisitAllHandles(cfg, m, e, strategy, refs[1..], k - 1);
    }
  }

  /** A bar of the execution timeframe leaves no order of its symbol lapsed, or crossed without a fill. */
  lemma NoOrderLeftBehind(cfg: Config, l: Ledger, e: Event, strategy: Strategy, i: nat)
    requires Laws(cfg, l) && AllPlacedEarlier(l) && Ongoing(l, e) && e.timeframe == cfg.executionTimeframe
    requires i < |l.orders| && l.orders[i].symbol == e.symbol && CheckFills(cfg, l, e, strategy).1
    ensures |CheckFills(cfg, l, e, strategy).0.orders| == |l.orders|
    ensures Handled(CheckFills(cfg, l, e, strategy).0, e, i)
  {
    hide Laws, VisitAll, Handled;
    var refs := ActiveRefs(l.orders, e.symbol);
    ActiveRefsOf(l.orders, e.symbol, refs);
    VisitAllKeepsLaws(cfg, l, e, strategy, refs);
    if l.orders[i].Active() {
      ActiveRefsExact(l.orders, e.symbol);
      var k :| 0 <= k < |refs| && refs[k] == i;
      VisitAllHandles(cfg, l, e, strategy, refs, k);
    } else {
      InactiveHandled(l, e, i);
      HandledStays(l, VisitAll(cfg, l, e, strategy, refs).0, e, i);
    }
  }

  lemma InactiveHandled(l: Ledger, e: Event, i: nat)
    requires i < |l.orders| && !l.orders[i].Active()
    ensures Handled(l, e, i)
  {
  }

  /** The strategy's reaction leaves none behind either, whatever it cancels and places. */
  lemma EventLeavesNoneBehind(cfg: Config, l: Ledger, e: Event, strategy: Strategy, i: nat)
    requires Laws(cfg, l) && MarketsDone(l) && e.timeframe == cfg.executionTimeframe
    requires i < |l.orders| && l.orders[i].symbol == e.symbol && ProcessEvent(cfg, l, e, strategy).1
    ensures |l.orders| <= |ProcessEvent(cfg, l, e, strategy).0.orders|
    ensures Handled(ProcessEvent(cfg, l, e, strategy).0, e, i)
  {
    hide Laws, CheckFills, React, Handled, MarketsDone;
    var b := Begin(l, e);
    BeginKeepsLaws(cfg, l, e);
    BeginKeepsMarkets(l, e);
    CheckFillsKeepsLaws(cfg, b, e, strategy);
    NoOrderLeftBehind(cfg, b, e, strategy, i);
    var m := CheckFills(cfg, b, e, strategy).0;
    ReactKeepsLaws(cfg, m, e, strategy);
    var r := React(cfg, m, e, strategy).0;
    ClockOf(cfg, m);
    ClockOf(cfg, r);
    HandledStays(m, r, e, i);
  }

  lemma BeginKeepsMarkets(l: Ledger, e: Event)
    requires MarketsDone(l)
    ensures MarketsDone(Begin(l, e))
  {
  }

  lemma ClockOf(cfg: Config, l: Ledger)
    requires Laws(cfg, l)
    ensures l.events != [] ==> l.now == l.events[|l.events| - 1].availableTime
  {
  }

  /** A run up to and with event k is the run up to it, followed by the event. */
  lemma {:induction false} RunOneMore(cfg: Config, l: Ledger, events: seq<Event>, strategy: Strategy, k: nat)
    requires k < |events| && Run(cfg, l, events[..k + 1], strategy).1
    ensures Run(cfg, l, events[..k], strategy).1
    ensures Run(cfg, l, events[..k + 1], strategy)
         == ProcessEvent(cfg, Run(cfg, l, events[..k], strategy).0, events[k], strategy)
    decreases |events|
  {
    hide ProcessEvent;
    var (m, ok) := ProcessEvent(cfg, l, events[0], strategy);
    assert events[..k + 1][0] == events[0] && events[..k + 1][1..] == events[1..][..k];
    if k > 0 {
      assert events[..k][0] == events[0] && events[..k][1..] == events[1..][..k - 1];
      RunOneMore(cfg, m, events[1..], strategy, k - 1);
    }
  }

  /** A run that fails stops at the first event that raises, and that event is the last one processed. */
  lemma {:induction false} RunStopsAtError(cfg: Config, l: Ledger, events: seq<Event>, strategy: Strategy)
    returns (k: nat)
    requires !Run(cfg, l, events, strategy).1
    ensures k < |events| && Run(cfg, l, events[..k], strategy).1
    ensures Run(cfg, l, events, strategy)
         == ProcessEvent(cfg, Run(cfg, l, events[..k], strategy).0, events[k], strategy)
    decreases |events|
  {
    hide ProcessEvent;
    var (m, ok) := ProcessEvent(cfg, l, events[0], strategy);
    if !ok {
      k := 0;
    } else {
      var j := RunStopsAtError(cfg, m, events[1..], strategy);
      k := j + 1;
      assert events[..k][0] == events[0] && events[..k][1..] == events[1..][..j];
    }
  }

  /**
   Over a whole run: whenever a bar of the execution timeframe has been processed, no order of its
   symbol that stood before the bar is active past its time to live, or crossed without a fill.
   */
  lemma {:induction false} NoBarLeavesOrdersBehind(
    cfg: Config, l: Ledger, events: seq<Event>, strategy: Strategy, k: nat, i: nat)
    requires Laws(cfg, l) && MarketsDone(l) && k < |events| && Run(cfg, l, events[..k + 1], strategy).1
    requires events[k].timeframe == cfg.executionTimeframe
    requires var before := Run(cfg, l, events[..k], strategy).0;
             i < |before.orders| && before.orders[i].symbol == events[k].symbol
    ensures |Run(cfg, l, events[..k], strategy).0.orders| <= |Run(cfg, l, events[..k + 1], strategy).0.orders|
    ensures Handled(Run(cfg, l, events[..k + 1], strategy).0, events[k], i)
  {
    hide Laws, Run, ProcessEvent, Handled, MarketsDone, Evolves;
    RunKeepsLaws(cfg, l, events[..k], strategy);
    RunOneMore(cfg, l, events, strategy, k);
    EventLeavesNoneBehind(cfg, Run(cfg, l, events[..k], strategy).0, events[k], strategy, i);
  }
}
