/**
 The backtest engine with its executor: one object with the fields of both.

 An order object is its index in the order history, so that the id table, the client id table and
 the active index refer to the one order the history holds.  Every method is proved against the
 ledger: it changes `View()` exactly as the ledger function of the same name does, and keeps the
 indexes, positions, records and running totals in agreement with the two histories.
 */
module Engine {
  import opened Wrappers
  import opened Spec = LedgerModel
  import opened LedgerLaws
  import opened LedgerRuns
  import opened Portfolio
  import opened EquityPath
  import opened ActiveIndex

  datatype BacktestResult = BacktestResult(
    orders: seq<Order>, fills: seq<Fill>, positions: seq<Position>, eventsProcessed: nat, maxDrawdown: real)

  /** Total realised plus unrealised profit less commission, as the report adds it up. */
  function NetPnl(ps: seq<Position>): real {
    if ps == [] then 0.0
    else
      var p := ps[|ps| - 1];
      NetPnl(ps[..|ps| - 1]) + p.realized + p.unrealized - p.commission
  }

  function Marked(p: Position, lastPrices: Prices): Position {
    if p.symbol !in lastPrices then p
    else
      p.(unrealized := Gain(p, lastPrices[p.symbol]))
  }

  function MarkedAll(ps: seq<Position>, lastPrices: Prices): (r: seq<Position>)
    ensures |r| == |ps|
  {
    if ps == [] then [] else MarkedAll(ps[..|ps| - 1], lastPrices) + [Marked(ps[|ps| - 1], lastPrices)]
  }

  /** The final mark of each position: the difference of the last price to its entry price, on its quantity. */
  lemma {:induction false} MarkedAt(ps: seq<Position>, lastPrices: Prices, k: nat)
    requires k < |ps|
    ensures var p, q := ps[k], MarkedAll(ps, lastPrices)[k];
            && q == p.(unrealized := q.unrealized)
            && (p.symbol !in lastPrices ==> q.unrealized == p.unrealized)
            && (p.symbol in lastPrices ==>
                  var last := lastPrices[p.symbol];
                  q.unrealized == if p.side == Long then last * p.quantity - p.entryPrice * p.quantity
                                  else p.entryPrice * p.quantity - last * p.quantity)
  {
    var n := |ps| - 1;
    if k < n {
      MarkedAt(ps[..n], lastPrices, k);
    }
  }

  /** The clock starts at the first event of a list, and at zero for a stream. */
  function StartTime(listed: seq<Event>): int {
    if listed == [] then 0 else listed[0].availableTime
  }

  class BacktestEngine {
    const cfg: Config
    const strategy: Strategy

    var virtualTime: int
    var orders: seq<Order>
    var byId: map<OrderId, nat>
    var active: Index
    var fills: seq<Fill>
    var positions: seq<Position>
    var records: seq<Position>
    var lastPrices: Prices
    var equityPeak: real
    var maxDrawdown: real
    var eventsProcessed: nat
    var finished: Option<BacktestResult>
    var orderCounter: nat
    var byClient: map<string, nat>
    var calls: nat

    ghost var placedOn: seq<nat>
    ghost var filledOn: seq<nat>
    ghost var events: seq<Event>
    ghost var clean: bool
    ghost var samples: seq<real>

    /** The simple form of the account. */
    ghost function View(): Ledger
      reads this`orders, this`fills, this`placedOn, this`filledOn, this`events, this`virtualTime, this`calls, this`clean
    {
      Ledger(orders, fills, placedOn, filledOn, events, virtualTime, calls, clean)
    }

    ghost predicate OrdersValid()
      reads this`orders, this`fills, this`placedOn, this`filledOn, this`events, this`virtualTime, this`calls, this`clean
      reads this`active, this`byId, this`byClient, this`orderCounter
    {
      && Laws(cfg, View())
      && IndexOk(orders, active)
      && IdsOk(orders, byId)
      && ClientsOk(orders, byClient)
      && orderCounter == |orders|
    }

    ghost predicate MoneyValid()
      reads this`fills, this`positions, this`records
    {
      Books(positions, records) == Replay(fills) && BooksOk(fills, Books(positions, records))
    }

    /** Prices and the event count are those of the events seen. */
    ghost predicate PricesValid()
      reads this`lastPrices, this`eventsProcessed, this`events
    {
      lastPrices == PricesAfter(cfg, events) && eventsProcessed == |events|
    }

    ghost predicate DrawdownValid()
      reads this`equityPeak, this`maxDrawdown, this`samples
    {
      IsPeak(samples, equityPeak) && IsWorstDrop(samples, maxDrawdown)
    }

    ghost predicate Valid()
      reads this
    {
      OrdersValid() && PricesValid() && DrawdownValid() && (finished.None? ==> MoneyValid())
    }

    /** `listed` holds the events when they are given as a list, and nothing when they are streamed. */
    constructor (cfg: Config, strategy: Strategy, listed: seq<Event>)
      ensures Valid() && MarketsDone(View()) && finished.None?
      ensures View() == Initial(StartTime(listed))
      ensures this.cfg == cfg && this.strategy == strategy
      ensures samples == [] && positions == [] && records == [] && lastPrices == map[]
    {
      this.cfg, this.strategy := cfg, strategy;
      virtualTime := StartTime(listed);
      orders, byId, active, fills := [], map[], map[], [];
      positions, records, lastPrices, equityPeak, maxDrawdown := [], [], map[], 0.0, 0.0;
      eventsProcessed, finished, orderCounter, byClient, calls := 0, None, 0, map[], 0;
      placedOn, filledOn, events, clean, samples := [], [], [], true, [];
      new;
      InitialIsLawful(cfg, virtualTime);
      ReplayBalances([]);
      assert forall s :: EntryOk([], map[], s);
    }

    // -------------------------------------------------------------------------
    // The active index
    // -------------------------------------------------------------------------

    method RegisterActive(i: nat)
      requires i < |orders|
      modifies this`active
      ensures active == Registered(old(active), orders[i].symbol, i)
    {
      var s := orders[i].symbol;
      if s !in active {
        active := active[s := []];
      }
      if i !in active[s] {
        active := active[s := active[s] + [i]];
      }
      assert active == Registered(old(active), s, i);
    }

    method RemoveActive(i: nat)
      requires i < |orders|
      modifies this`active
      ensures active == Removed(old(active), orders[i].symbol, i)
    {
      var s := orders[i].symbol;
      if s !in active {
        return;
      }
      active := active[s := Pop(active[s], i)];
      if active[s] == [] {
        active := active - {s};
      }
    }

    /** The index holds exactly the active orders of the history, in placement order. */
    method IterActiveOrders(s: Symbol) returns (refs: seq<nat>)
      requires OrdersValid()
      ensures refs == ActiveRefs(orders, s)
    {
      assert EntryOk(orders, active, s);
      refs := if s in active then active[s] else [];
    }

    // -------------------------------------------------------------------------
    // Cancelling and expiring
    // -------------------------------------------------------------------------

    method MakeFinal(i: nat, status: Status)
      requires OrdersValid() && i < |orders| && orders[i].Active() && Final(status)
      modifies this`orders, this`active
      ensures OrdersValid() && View() == Retire(old(View()), i, status)
    {
      hide Laws;
      ghost var l := View();
      var o := orders[i].(status := status, cancelTime := Some(virtualTime));
      RemoveFinal(orders, active, i, o);
      UpdateKeepsLookups(orders, byId, byClient, i, o);
      RetireKeepsLaws(cfg, l, i, status);
      ghost var l' := Retire(l, i, status);
      orders := orders[i := o];
      RemoveActive(i);
      assert View() == l';
    }

    method ExpireOrder(i: nat)
      requires OrdersValid() && i < |orders| && orders[i].Active()
      modifies this`orders, this`active
      ensures OrdersValid() && View() == Retire(old(View()), i, Expired)
    {
      MakeFinal(i, Expired);
    }

    method CancelOrder(id: OrderId) returns (done: bool)
      requires OrdersValid()
      modifies this`orders, this`active
      ensures OrdersValid() && View() == Cancel(old(View()), id)
      ensures done <==> id in byId && old(orders)[byId[id]].Active()
    {
      hide Laws, IndexOk, IdsOk, ClientsOk, Cancel;
      CancelLookup(cfg, View(), byId, id);
      if id !in byId {
        return false;
      }
      var i := byId[id];
      if !orders[i].Active() {
        return false;
      }
      MakeFinal(i, Cancelled);
      return true;
    }

    method CancelSymbolOrders(s: Symbol) returns (count: nat)
      requires OrdersValid()
      modifies this`orders, this`active
      ensures OrdersValid() && Evolves(old(View()), View())
      ensures count == |ActiveRefs(old(orders), s)|
      ensures |orders| == |old(orders)|
      ensures forall i :: 0 <= i < |orders| ==>
                orders[i] == if old(orders)[i].Active() && old(orders)[i].symbol == s
                             then old(orders)[i].(status := Cancelled, cancelTime := Some(virtualTime))
                             else old(orders)[i]
    {
      var refs := IterActiveOrders(s);
      ActiveRefsExact(orders, s);
      count := CancelRefs(refs);
    }

    method CancelAllOrders() returns (count: nat)
      requires OrdersValid()
      modifies this`orders, this`active
      ensures OrdersValid() && Evolves(old(View()), View())
      ensures count == |set i | 0 <= i < |old(orders)| && old(orders)[i].Active()|
      ensures |orders| == |old(orders)|
      ensures forall i :: 0 <= i < |orders| ==>
                orders[i] == if old(orders)[i].Active()
                             then old(orders)[i].(status := Cancelled, cancelTime := Some(virtualTime))
                             else old(orders)[i]
    {
      hide Laws, IndexOk, IdsOk, ClientsOk, Evolves;
      var refs := IterAllActiveOrders();
      DistinctSize(refs);
      assert Elements(refs) == set i | 0 <= i < |orders| && orders[i].Active();
      count := CancelRefs(refs);
    }

    /** Cancel every order of a snapshot of distinct active orders. */
    method CancelRefs(refs: seq<nat>) returns (count: nat)
      requires OrdersValid()
      requires forall k :: 0 <= k < |refs| ==> refs[k] < |orders| && orders[refs[k]].Active()
      requires forall j, k :: 0 <= j < k < |refs| ==> refs[j] != refs[k]
      modifies this`orders, this`active
      ensures OrdersValid() && Evolves(old(View()), View())
      ensures count == |refs| && |orders| == |old(orders)|
      ensures forall i :: 0 <= i < |orders| ==>
                orders[i] == if i in refs
                             then old(orders)[i].(status := Cancelled, cancelTime := Some(virtualTime))
                             else old(orders)[i]
    {
      hide Laws, IndexOk, IdsOk, ClientsOk, Evolves;
      EvolvesReflexive(View());
      count := 0;
      for k := 0 to |refs|
        invariant OrdersValid() && Evolves(old(View()), View())
        invariant count == k && |orders| == |old(orders)|
        invariant forall i :: 0 <= i < |orders| ==>
                    orders[i] == if i in refs[..k]
                                 then old(orders)[i].(status := Cancelled, cancelTime := Some(virtualTime))
                                 else old(orders)[i]
      {
        ghost var before := View();
        var i := refs[k];
        assert i !in refs[..k];
        assert orders[i] == old(orders)[i];
        if orders[i].Active() {
          RetireEvolves(before, i);
          MakeFinal(i, Cancelled);
          EvolvesTransitive(old(View()), before, View());
          count := count + 1;
        }
        assert refs[..k + 1] == refs[..k] + [i];
      }
      assert refs[..|refs|] == refs;
    }

    /** All active orders of the account, symbol by symbol, each exactly once. */
    method IterAllActiveOrders() returns (refs: seq<nat>)
      requires OrdersValid()
      ensures forall i :: i in refs <==> 0 <= i < |orders| && orders[i].Active()
      ensures forall k :: 0 <= k < |refs| ==> refs[k] < |orders| && orders[refs[k]].Active()
      ensures forall j, k :: 0 <= j < k < |refs| ==> refs[j] != refs[k]
    {
      hide Laws, IdsOk, ClientsOk;
      refs := [];
      var todo := active.Keys;
      while todo != {}
        invariant todo <= active.Keys
        invariant forall i :: i in refs <==>
                    0 <= i < |orders| && orders[i].Active() && orders[i].symbol in active && orders[i].symbol !in todo
        invariant forall j, k :: 0 <= j < k < |refs| ==> refs[j] != refs[k]
        decreases todo
      {
        var s :| s in todo;
        ActiveRefsExact(orders, s);
        assert EntryOk(orders, active, s);
        assert forall k :: 0 <= k < |refs| ==> refs[k] in refs;
        assert forall k :: 0 <= k < |active[s]| ==> active[s][k] in active[s];
        refs := refs + active[s];
        todo := todo - {s};
      }
      forall i | 0 <= i < |orders| && orders[i].Active()
        ensures i in refs
      {
        ActiveRefsExact(orders, orders[i].symbol);
        assert EntryOk(orders, active, orders[i].symbol);
      }
      assert forall k :: 0 <= k < |refs| ==> refs[k] in refs;
    }

    // -------------------------------------------------------------------------
    // Placing
    // -------------------------------------------------------------------------

    /** The position look-up of `get_position`. */
    method GetPosition(s: Symbol) returns (p: Option<Position>)
      requires MoneyValid()
      ensures p.None? <==> Net(fills, s) == 0.0
      ensures p.Some? ==>
                p.value.symbol == s && p.value.Signed() == Net(fills, s) && p.value.quantity == Abs(Net(fills, s))
      ensures p.Some? ==> forall side :: ClosesPosition(p.value, side) == Closes(side, Net(fills, s))
    {
      PositionIsNet(fills, positions, s);
      var k := IndexOf(positions, s);
      if k.Some? {
        assert PositionOk(fills, positions[k.value]);
        p := Some(positions[k.value]);
      } else {
        p := None;
      }
    }

    method ValidateReduceOnly(intent: Intent) returns (ok: bool)
      requires OrdersValid() && MoneyValid()
      ensures ok == ReduceOnlyAllowed(View(), intent)
    {
      hide Laws;
      var position := GetPosition(intent.symbol);
      if position.None? {
        return false;
      }
      var closingSide := if position.value.side == Short then Buy else Sell;
      if intent.side != closingSide {
        return false;
      }
      var reserved := ReservedQuantity(intent.symbol);
      ok := intent.quantity <= position.value.quantity - reserved;
    }

    method ReservedQuantity(s: Symbol) returns (reserved: real)
      requires OrdersValid()
      ensures reserved == Reserved(orders, s)
    {
      hide Laws;
      reserved := 0.0;
      var refs := IterActiveOrders(s);
      for k := 0 to |refs|
        invariant reserved == ReservedOver(orders, refs[..k])
      {
        var o := orders[refs[k]];
        if o.reduceOnly {
          reserved := reserved + o.Remaining();
        }
        assert refs[..k + 1][..k] == refs[..k];
      }
      assert refs[..|refs|] == refs;
      ReservedOverActive(orders, s);
    }

    /** The order that stands for the intent, or nothing when a reduce-only intent is refused. */
    method PlaceOrder(intent: Intent) returns (placed: Option<nat>)
      requires OrdersValid() && MoneyValid() && TradingEnabled(cfg, virtualTime) && events != []
      modifies this`orders, this`active, this`byId, this`byClient, this`orderCounter, this`placedOn, this`clean
      ensures OrdersValid() && (View(), placed) == Place(old(View()), intent)
    {
      hide Laws, IndexOk, IdsOk, ClientsOk, BooksOk, Replay, ReduceOnlyAllowed;
      ghost var l := View();
      ClientLookup(orders, byClient, intent.clientId);
      if intent.clientId in byClient {
        return Some(byClient[intent.clientId]);
      }
      if intent.reduceOnly {
        var ok := ValidateReduceOnly(intent);
        if !ok {
          FailKeepsLaws(cfg, l);
          clean := false;
          return None;
        }
      }
      orderCounter := orderCounter + 1;
      var o := Order(OrderId(orderCounter, virtualTime), intent.clientId, intent.symbol, intent.side, intent.orderType,
                     intent.price, intent.quantity, virtualTime, intent.ttl, intent.reduceOnly, New, 0.0, None, None);
      AppendKeepsLaws(cfg, l, intent);
      FreshId(cfg, l, byId, o.id);
      placed := Some(|orders|);
      AddOrder(o);
      assert View() == Append(l, intent);
    }

    /** Enter a new order in the history, the active index and the two look-up tables. */
    method AddOrder(o: Order)
      requires IndexOk(orders, active) && IdsOk(orders, byId) && ClientsOk(orders, byClient)
      requires o.Active() && o.id !in byId
      modifies this`orders, this`active, this`byId, this`byClient, this`placedOn
      ensures orders == old(orders) + [o] && placedOn == old(placedOn) + [|events|]
      ensures IndexOk(orders, active) && IdsOk(orders, byId) && ClientsOk(orders, byClient)
    {
      hide IndexOk, IdsOk, ClientsOk;
      RegisterNew(orders, active, o);
      AppendKeepsIds(orders, byId, o);
      AppendKeepsClients(orders, byClient, o);
      var i := |orders|;
      orders := orders + [o];
      byId := byId[o.id := i];
      RegisterActive(i);
      byClient := byClient[o.clientId := i];
      placedOn := placedOn + [|events|];
    }

    // -------------------------------------------------------------------------
    // Filling
    // -------------------------------------------------------------------------

    /** How much of an order this bar fills, after the reduce-only and no-reversal checks. */
    method DecideFill(o: Order) returns (d: Decision)
      requires MoneyValid()
      ensures d == Decide(cfg, o, Net(fills, o.symbol))
    {
      hide MoneyValid, Net;
      var remaining := o.quantity - o.filled;
      var fillQty := remaining;
      if o.orderType == Limit {
        var perBar := o.quantity * cfg.fraction;
        fillQty := Min(fillQty, perBar);
      }
      var expireRemainder := false;
      var position := GetPosition(o.symbol);
      if o.reduceOnly {
        var closingSide := if position.Some? && position.value.side == Short then Buy else Sell;
        if position.None? || o.side != closingSide {
          return Lapse;
        }
        if fillQty > position.value.quantity {
          fillQty := position.value.quantity;
          expireRemainder := true;
        }
        if fillQty <= 0.0 {
          return Lapse;
        }
      } else if position.Some? {
        var held := position.value.side;
        var isClosing := (held == Short && o.side == Buy) || (held == Long && o.side == Sell);
        if isClosing && fillQty > position.value.quantity {
          return WouldReverse;
        }
      }
      return Take(fillQty, expireRemainder);
    }

    /** Fold a fill into the open positions and the closed records. */
    method UpdatePosition(f: Fill)
      requires MoneyValid() && f.quantity > 0.0 && f.time == virtualTime
      requires Closes(f.side, Net(fills, f.symbol)) ==> f.quantity <= Abs(Net(fills, f.symbol))
      modifies this`positions, this`records
      ensures Books(positions, records) == Replay(fills + [f])
      ensures BooksOk(fills + [f], Books(positions, records))
    {
      hide BooksOk, Replay, Reduced, Added, QuantitiesOk;
      ReplayAppend(fills, f);
      BooksParts(fills, Books(positions, records));
      PositionIsNet(fills, positions, f.symbol);
      AfterOneFillOk(fills, Books(positions, records), f);
      var k := IndexOf(positions, f.symbol);
      if k.None? {
        positions := positions + [Opened(f, virtualTime)];
      } else {
        var p := positions[k.value];
        var isClosing := (p.side == Short && f.side == Buy) || (p.side == Long && f.side == Sell);
        if isClosing {
          ReducePosition(k.value, f);
        } else {
          positions := positions[k.value := Added(p, f)];
        }
      }
    }

    method ReducePosition(k: nat, f: Fill)
      requires MoneyValid() && k < |positions| && positions[k].status == Open && f.time == virtualTime
      requires positions[k].symbol == f.symbol && ClosesPosition(positions[k], f.side)
      requires 0.0 < f.quantity <= positions[k].quantity
      modifies this`positions, this`records
      ensures Books(positions, records) == AfterClosing(old(Books(positions, records)), k, f)
      ensures BooksOk(fills + [f], Books(positions, records))
    {
      hide GainOn, BooksOk, Replay;
      AfterClosingOk(fills, Books(positions, records), k, f);
      var p := positions[k];
      var closeQty := Min(f.quantity, p.quantity);
      var pnl := GainOn(p, f.price, closeQty);
      p := p.(realized := p.realized + pnl, quantity := p.quantity - closeQty,
              commission := p.commission + f.commission);
      assert p == Reduced(positions[k], f);
      if p.quantity <= 0.0 {
        p := p.(status := Closed, closedAt := Some(virtualTime));
        records := records + [p];
        positions := Without(positions, k);
      } else {
        positions := positions[k := p];
      }
    }

    /** The order's side of a fill: its quantities, its status and its place in the index. */
    method ApplyToOrder(i: nat, q: real, expireRemainder: bool)
      requires i < |orders| && orders[i].Active()
      requires IndexOk(orders, active) && IdsOk(orders, byId) && ClientsOk(orders, byClient)
      modifies this`orders, this`active
      ensures orders == old(orders)[i := AfterFill(old(orders)[i], q, expireRemainder, virtualTime)]
      ensures IndexOk(orders, active) && IdsOk(orders, byId) && ClientsOk(orders, byClient)
    {
      hide IndexOk, IdsOk, ClientsOk;
      var o := orders[i];
      o := o.(filled := o.filled + q);
      o := o.(status := if o.filled == o.quantity then Filled else PartiallyFilled, fillTime := Some(virtualTime));
      if expireRemainder {
        o := o.(status := Expired, cancelTime := Some(virtualTime));
      }
      assert o == AfterFill(orders[i], q, expireRemainder, virtualTime);
      UpdateKeepsLookups(orders, byId, byClient, i, o);
      if o.status == PartiallyFilled {
        RegisterAgain(orders, active, i, o);
        orders := orders[i := o];
        RegisterActive(i);
      } else {
        RemoveFinal(orders, active, i, o);
        orders := orders[i := o];
        RemoveActive(i);
      }
    }

    method MakeFill(i: nat, q: real, open: real) returns (f: Fill)
      requires i < |orders|
      ensures f == FillFor(cfg, orders[i], i, q, open, virtualTime)
      ensures f.quantity == q && f.symbol == orders[i].symbol && f.side == orders[i].side && f.time == virtualTime
    {
      var o := orders[i];
      var baseline := if o.side == Sell then Max(o.price, open) else o.price;
      var price := baseline;
      if o.orderType == Market && cfg.slippageBps != 0.0 {
        var rate := cfg.slippageBps / 10000.0;
        price := baseline * (if o.side == Buy then 1.0 + rate else 1.0 - rate);
      }
      var isMaker := o.orderType != Market;
      var commission := Commission(cfg, q, price, isMaker);
      f := Fill(i, o.symbol, o.side, price, q, commission, virtualTime, isMaker);
    }

    /** Book a fill of quantity q: order, index, positions and histories move together. */
    method BookFill(i: nat, q: real, expireRemainder: bool, open: real)
      requires OrdersValid() && MoneyValid() && Fillable(cfg, View(), i) && open == Current(View()).open
      requires Take(q, expireRemainder) == Decide(cfg, orders[i], Net(fills, orders[i].symbol))
      modifies this`orders, this`active, this`fills, this`filledOn, this`positions, this`records
      ensures OrdersValid() && MoneyValid()
      ensures View() == Book(cfg, old(View()), i, q, expireRemainder, open)
    {
      hide Laws, IndexOk, IdsOk, ClientsOk, MoneyValid, Decide, Fillable, AfterFill, FillFor, Closes, Abs, Net;
      ghost var l := View();
      FillFacts(cfg, l, i);
      var f := MakeFill(i, q, open);
      BookKeepsLaws(cfg, l, i);
      ApplyToOrder(i, q, expireRemainder);
      AppendFill(f);
      assert View() == Book(cfg, l, i, q, expireRemainder, open);
    }

    /** Books and histories receive a fill. */
    method AppendFill(f: Fill)
      requires MoneyValid() && f.quantity > 0.0 && f.time == virtualTime
      requires Closes(f.side, Net(fills, f.symbol)) ==> f.quantity <= Abs(Net(fills, f.symbol))
      modifies this`fills, this`filledOn, this`positions, this`records
      ensures MoneyValid() && fills == old(fills) + [f] && filledOn == old(filledOn) + [|events|]
    {
      hide BooksOk, Replay, Closes, Abs, Net;
      UpdatePosition(f);
      fills := fills + [f];
      filledOn := filledOn + [|events|];
    }

    method ExecuteFill(i: nat, open: real) returns (attempt: Attempt)
      requires OrdersValid() && MoneyValid() && Fillable(cfg, View(), i) && open == Current(View()).open
      modifies this`orders, this`active, this`fills, this`filledOn, this`positions, this`records, this`clean
      ensures OrdersValid() && MoneyValid()
      ensures (View(), attempt) == Spec.ExecuteFill(cfg, old(View()), i, open)
    {
      hide Laws;
      var d := DecideFill(orders[i]);
      match d
      case Lapse =>
        ExpireOrder(i);
        attempt := Nothing;
      case WouldReverse =>
        FailKeepsLaws(cfg, View());
        clean := false;
        attempt := Failed;
      case Take(q, cut) =>
        BookFill(i, q, cut, open);
        attempt := Executed;
    }

    // -------------------------------------------------------------------------
    // One event
    // -------------------------------------------------------------------------

    /** The strategy is called back and cancels what it likes. */
    method Callback(ids: seq<OrderId>)
      requires OrdersValid()
      modifies this`orders, this`active, this`calls
      ensures OrdersValid() && View() == AfterCallback(old(View()), ids)
    {
      hide Laws, IndexOk, IdsOk, ClientsOk, Cancel;
      CountingKeepsLaws(cfg, View(), calls + 1);
      calls := calls + 1;
      ghost var l := View();
      for k := 0 to |ids|
        invariant OrdersValid()
        invariant CancelAll(l, ids) == CancelAll(View(), ids[k..])
      {
        assert ids[k..][0] == ids[k] && ids[k..][1..] == ids[k + 1..];
        var _ := CancelOrder(ids[k]);
      }
    }

    /** Try to fill one order and, if it filled, tell the strategy. */
    method Settle(i: nat, e: Event) returns (ok: bool)
      requires OrdersValid() && MoneyValid() && Fillable(cfg, View(), i) && Ongoing(View(), e)
      modifies this`orders, this`active, this`fills, this`filledOn, this`positions, this`records, this`clean, this`calls
      ensures OrdersValid() && MoneyValid()
      ensures (View(), ok) == Spec.Settle(cfg, old(View()), e, strategy, i)
    {
      hide Laws, IndexOk, IdsOk, ClientsOk, BooksOk, Replay, AfterCallback, Spec.ExecuteFill;
      var attempt := ExecuteFill(i, e.open);
      if attempt.Failed? {
        return false;
      }
      if attempt.Executed? {
        Callback(strategy.onFill(calls));
      }
      return true;
    }

    method CheckFills(e: Event) returns (ok: bool)
      requires OrdersValid() && MoneyValid() && AllPlacedEarlier(View()) && Ongoing(View(), e)
      modifies this`orders, this`active, this`fills, this`filledOn, this`positions, this`records, this`clean, this`calls
      ensures OrdersValid() && MoneyValid()
      ensures (View(), ok) == Spec.CheckFills(cfg, old(View()), e, strategy)
    {
      hide Laws, IndexOk, IdsOk, ClientsOk, BooksOk, Replay, VisitAll, AllPlacedEarlier;
      if e.timeframe != cfg.executionTimeframe {
        return true;
      }
      var snapshot := IterActiveOrders(e.symbol);
      ActiveRefsOf(orders, e.symbol, snapshot);
      ok := WalkSnapshot(snapshot, e);
    }

    /** The fill loop over a snapshot; callbacks may cancel orders the snapshot still holds. */
    method WalkSnapshot(snapshot: seq<nat>, e: Event) returns (ok: bool)
      requires OrdersValid() && MoneyValid() && AllPlacedEarlier(View())
      requires Ongoing(View(), e) && e.timeframe == cfg.executionTimeframe
      requires forall j :: 0 <= j < |snapshot| ==> snapshot[j] < |orders| && orders[snapshot[j]].symbol == e.symbol
      modifies this`orders, this`active, this`fills, this`filledOn, this`positions, this`records, this`clean, this`calls
      ensures OrdersValid() && MoneyValid()
      ensures (View(), ok) == VisitAll(cfg, old(View()), e, strategy, snapshot)
    {
      hide Laws, IndexOk, IdsOk, ClientsOk, BooksOk, Replay, Unmarked, Spec.Visit, AllPlacedEarlier;
      ghost var l := View();
      for k := 0 to |snapshot|
        invariant OrdersValid() && MoneyValid() && AllPlacedEarlier(View()) && |orders| == |l.orders|
        invariant forall j :: 0 <= j < |snapshot| ==> orders[snapshot[j]].symbol == e.symbol
        invariant VisitAll(cfg, l, e, strategy, snapshot) == VisitAll(cfg, View(), e, strategy, snapshot[k..])
      {
        assert snapshot[k..][0] == snapshot[k] && snapshot[k..][1..] == snapshot[k + 1..];
        VisitKeepsEarlier(cfg, View(), e, strategy, snapshot[k]);
        ok := Visit(snapshot[k], e);
        if !ok {
          return false;
        }
      }
      return true;
    }

    /** One snapshot entry of the fill loop, checked against the live index before it is used. */
    method Visit(i: nat, e: Event) returns (ok: bool)
      requires OrdersValid() && MoneyValid() && AllPlacedEarlier(View())
      requires Ongoing(View(), e) && e.timeframe == cfg.executionTimeframe
      requires i < |orders| && orders[i].symbol == e.symbol
      modifies this`orders, this`active, this`fills, this`filledOn, this`positions, this`records, this`clean, this`calls
      ensures OrdersValid() && MoneyValid()
      ensures (View(), ok) == Spec.Visit(cfg, old(View()), e, strategy, i)
    {
      hide Laws, IndexOk, IdsOk, ClientsOk, BooksOk, Replay, Spec.Settle;
      var o := orders[i];
      IndexedIffActive(orders, active, i);
      if !o.Active() || !(o.symbol in active && i in active[o.symbol]) {
        return true;
      }
      if o.Lapsed(virtualTime) {
        ExpireOrder(i);
        return true;
      }
      if !((o.side == Sell && e.high > o.price) || (o.side == Buy && e.low < o.price)) {
        return true;
      }
      CrossedIsFillable(cfg, View(), e, i);
      ok := Settle(i, e);
    }

    /** Place one intent; a MARKET order is filled at once. */
    method PlaceOne(intent: Intent, e: Event) returns (ok: bool)
      requires OrdersValid() && MoneyValid() && TradingEnabled(cfg, virtualTime) && Ongoing(View(), e)
      modifies this`orders, this`active, this`byId, this`byClient, this`orderCounter, this`placedOn, this`clean
      modifies this`fills, this`filledOn, this`positions, this`records, this`calls
      ensures OrdersValid() && MoneyValid()
      ensures (View(), ok) == Spec.PlaceOne(cfg, old(View()), e, strategy, intent)
    {
      hide Laws, IndexOk, IdsOk, ClientsOk, BooksOk, Replay, Spec.Settle, Place;
      var placed := PlaceOrder(intent);
      if placed.None? {
        return false;
      }
      var i := placed.value;
      if orders[i].orderType == Market && orders[i].status == New {
        MarketIsFillable(cfg, View(), i);
        ok := Settle(i, e);
        return;
      }
      return true;
    }

    method PlaceAll(intents: seq<Intent>, e: Event) returns (ok: bool)
      requires OrdersValid() && MoneyValid() && TradingEnabled(cfg, virtualTime) && Ongoing(View(), e)
      modifies this`orders, this`active, this`byId, this`byClient, this`orderCounter, this`placedOn, this`clean
      modifies this`fills, this`filledOn, this`positions, this`records, this`calls
      ensures OrdersValid() && MoneyValid()
      ensures (View(), ok) == Spec.PlaceAll(cfg, old(View()), e, strategy, intents)
    {
      hide Laws, IndexOk, IdsOk, ClientsOk, BooksOk, Replay, Spec.PlaceOne;
      ghost var l := View();
      for k := 0 to |intents|
        invariant OrdersValid() && MoneyValid()
        invariant Spec.PlaceAll(cfg, l, e, strategy, intents) == Spec.PlaceAll(cfg, View(), e, strategy, intents[k..])
      {
        assert intents[k..][0] == intents[k] && intents[k..][1..] == intents[k + 1..];
        ok := PlaceOne(intents[k], e);
        if !ok {
          return false;
        }
      }
      return true;
    }

    // -------------------------------------------------------------------------
    // Equity and drawdown
    // -------------------------------------------------------------------------

    /** The profit of one position at its mark; a position without a mark is carried at cost. */
    method MarkToMarket(p: Position, event: Option<Event>) returns (profit: real)
      requires p.status == Open || p.quantity == 0.0
      ensures profit == MarkedProfit(p, MarkPrice(cfg, lastPrices, event)(p))
    {
      ghost var price := MarkPrice(cfg, lastPrices, event)(p);
      profit := p.realized - p.commission;
      if p.status == Open {
        var mark := if p.symbol in lastPrices then Some(lastPrices[p.symbol]) else None;
        if event.Some? && event.value.symbol == p.symbol && event.value.timeframe == cfg.executionTimeframe {
          mark := Some(if p.side == Short then event.value.high else event.value.low);
        }
        if mark.Some? {
          assert price == mark.value;
          profit := profit + Gain(p, mark.value);
        } else {
          assert price == p.entryPrice;
          NoProfitYet(p, price);
        }
      } else {
        NoProfitYet(p, price);
      }
    }

    /** Adding up profits position by position gives the cash account marked to the same prices. */
    method PortfolioEquity(event: Option<Event>) returns (equity: real)
      requires MoneyValid()
      ensures equity == AccountValue(fills, positions, MarkPrice(cfg, lastPrices, event))
    {
      hide BookOk, MarkPrice, MarkedProfit, AccountValue;
      ghost var priceOf := MarkPrice(cfg, lastPrices, event);
      var all := records + positions;
      OpenOrFlat(fills, positions, records);
      equity := 0.0;
      for k := 0 to |all|
        invariant equity == ProfitSum(all[..k], priceOf)
      {
        assert all[..k + 1][..k] == all[..k];
        var profit := MarkToMarket(all[k], event);
        equity := equity + profit;
      }
      assert all[..|all|] == all;
      ProfitSumConcat(records, positions, priceOf);
      ProfitIsAccountValue(fills, positions, records, priceOf);
    }

    method UpdateDrawdown(event: Option<Event>)
      requires MoneyValid() && DrawdownValid()
      modifies this`equityPeak, this`maxDrawdown, this`samples
      ensures DrawdownValid()
      ensures samples == old(samples) + [AccountValue(fills, positions, MarkPrice(cfg, lastPrices, event))]
    {
      var equity := PortfolioEquity(event);
      WorstDropStep(samples, equityPeak, maxDrawdown, equity);
      if equity > equityPeak {
        equityPeak := equity;
      }
      var drawdown := equity - equityPeak;
      if drawdown < maxDrawdown {
        maxDrawdown := drawdown;
      }
      samples := samples + [equity];
    }

    // -------------------------------------------------------------------------
    // Events, runs and the result
    // -------------------------------------------------------------------------

    /** Advance the clock and remember the price of the bar. */
    method BeginEvent(e: Event)
      requires OrdersValid() && PricesValid() && MarketsDone(View())
      modifies this`virtualTime, this`events, this`eventsProcessed, this`lastPrices
      ensures OrdersValid() && PricesValid() && View() == Begin(old(View()), e)
      ensures AllPlacedEarlier(View()) && MarketsDone(View()) && Ongoing(View(), e)
    {
      hide Laws;
      BeginKeepsLaws(cfg, View(), e);
      eventsProcessed := eventsProcessed + 1;
      virtualTime := e.availableTime;
      events := events + [e];
      if e.timeframe == Second || e.timeframe == cfg.executionTimeframe {
        lastPrices := lastPrices[e.symbol := e.close];
      }
    }

    /** The strategy sees the event, may cancel, and has its intents placed once trading is enabled. */
    method React(e: Event) returns (ok: bool)
      requires OrdersValid() && MoneyValid() && Ongoing(View(), e)
      modifies this`orders, this`active, this`byId, this`byClient, this`orderCounter, this`placedOn, this`clean
      modifies this`fills, this`filledOn, this`positions, this`records, this`calls
      ensures OrdersValid() && MoneyValid()
      ensures (View(), ok) == Spec.React(cfg, old(View()), e, strategy)
    {
      hide Laws, IndexOk, IdsOk, ClientsOk, BooksOk, Replay, Spec.PlaceAll;
      var response := strategy.onEvent(calls);
      CallbackKeepsLaws(cfg, View(), response.cancels);
      Callback(response.cancels);
      if TradingEnabled(cfg, virtualTime) {
        ok := PlaceAll(response.intents, e);
      } else {
        ok := true;
      }
    }

    /** One event; `ok` is false when it raised an error, and the account is lawful either way. */
    method ProcessEvent(e: Event) returns (ok: bool)
      requires Valid() && MarketsDone(View())
      modifies this
      ensures Valid() && MarketsDone(View())
      ensures finished == old(finished)
      ensures finished.Some? ==> !ok && unchanged(this)
      ensures finished.None? ==> (View(), ok) == Spec.ProcessEvent(cfg, old(View()), e, strategy)
      ensures finished.None? ==> samples == old(samples) + EventSamples(cfg, old(View()), e, strategy)
    {
      if finished.Some? {
        return false;
      }
      ok := Advance(e);
    }

    method Advance(e: Event) returns (ok: bool)
      requires Valid() && MarketsDone(View()) && finished.None?
      modifies this
      ensures Valid() && MarketsDone(View()) && finished.None?
      ensures (View(), ok) == Spec.ProcessEvent(cfg, old(View()), e, strategy)
      ensures samples == old(samples) + EventSamples(cfg, old(View()), e, strategy)
    {
      hide Laws, MarketsDone, Spec.CheckFills, Spec.React, Evolves, EquityAt, Begin;
      ProcessEventKeepsLaws(cfg, View(), e, strategy);
      hide OrdersValid, PricesValid, MoneyValid, DrawdownValid;
      ok := FillPhase(e);
      if ok {
        ok := StrategyPhase(e);
      }
    }

    /** First half of an event: clock, price, fills, then the adverse path is sampled. */
    method FillPhase(e: Event) returns (ok: bool)
      requires OrdersValid() && PricesValid() && MoneyValid() && DrawdownValid() && MarketsDone(View())
      modifies this
      ensures OrdersValid() && PricesValid() && MoneyValid() && DrawdownValid() && finished == old(finished)
      ensures (View(), ok) == Spec.CheckFills(cfg, Begin(old(View()), e), e, strategy)
      ensures Ongoing(View(), e)
      ensures samples == old(samples) + if ok then [EquityAt(cfg, View())] else []
    {
      hide OrdersValid, PricesValid, MoneyValid, DrawdownValid, Spec.CheckFills, Begin, EquityAt, MarketsDone;
      hide AllPlacedEarlier;
      BeginEvent(e);
      ok := CheckFills(e);
      if ok {
        SampleEvent(e);
      }
    }

    /** Second half of an event: the strategy reacts, then equity is sampled again. */
    method StrategyPhase(e: Event) returns (ok: bool)
      requires OrdersValid() && PricesValid() && MoneyValid() && DrawdownValid() && Ongoing(View(), e)
      modifies this
      ensures OrdersValid() && PricesValid() && MoneyValid() && DrawdownValid() && finished == old(finished)
      ensures (View(), ok) == Spec.React(cfg, old(View()), e, strategy)
      ensures samples == old(samples) + if ok then [EquityAt(cfg, View())] else []
    {
      hide OrdersValid, PricesValid, MoneyValid, DrawdownValid, Spec.React, EquityAt;
      ok := React(e);
      if ok {
        SampleEvent(e);
      }
    }

    /** The sample taken at an event is what the account is worth there. */
    method SampleEvent(e: Event)
      requires PricesValid() && MoneyValid() && DrawdownValid() && Ongoing(View(), e)
      modifies this`equityPeak, this`maxDrawdown, this`samples
      ensures DrawdownValid() && samples == old(samples) + [EquityAt(cfg, View())]
    {
      hide BooksOk, AccountValue, MarkPrice, Replay, PricesAfter, DrawdownValid;
      UpdateDrawdown(Some(e));
    }

    /** List every position once, open ones marked to their last price, and close the engine. */
    method Finish() returns (r: BacktestResult)
      requires Valid()
      modifies this`positions, this`records, this`finished
      ensures Valid() && finished == Some(r)
      ensures old(finished).Some? ==> unchanged(this) && r == old(finished).value
      ensures old(finished).None? ==> Reports(r)
    {
      hide OrdersValid, BooksOk, AccountValue, MarkPrice, NetPnl, Replay, PricesAfter, IsWorstDrop;
      if finished.Some? {
        return finished.value;
      }
      NetPnlIsAccountValue(cfg, fills, positions, records, lastPrices);
      ListOpenPositions();
      r := BacktestResult(orders, fills, records, eventsProcessed, maxDrawdown);
      finished := Some(r);
    }

    /** What a finished run reports, in terms of the histories and the equity path. */
    ghost predicate Reports(r: BacktestResult)
      reads this
    {
      && r.orders == orders && r.fills == fills && r.positions == records && r.eventsProcessed == |events|
      && r.positions == Replay(fills).records + MarkedAll(Replay(fills).open, PricesAfter(cfg, events))
      && BooksOk(fills, Replay(fills))
      && NetPnl(r.positions) == FinalEquity(cfg, View())
      && IsWorstDrop(samples, r.maxDrawdown)
    }

    method ListOpenPositions()
      modifies this`positions, this`records
      ensures positions == MarkedAll(old(positions), lastPrices)
      ensures records == old(records) + MarkedAll(old(positions), lastPrices)
    {
      ghost var open := positions;
      var k := 0;
      while k < |positions|
        invariant k <= |positions| == |open|
        invariant positions[..k] == MarkedAll(open[..k], lastPrices) && positions[k..] == open[k..]
        invariant records == old(records) + positions[..k]
      {
        assert positions[k] == positions[k..][0] == open[k];
        var p := positions[k];
        if p.symbol in lastPrices {
          p := p.(unrealized := Gain(p, lastPrices[p.symbol]));
        }
        assert p == Marked(open[k], lastPrices);
        assert open[..k + 1][..k] == open[..k];
        assert positions[k..][1..] == open[k..][1..];
        positions := positions[k := p];
        records := records + [p];
        k := k + 1;
        assert positions[..k] == positions[..k - 1] + [p];
      }
      assert open[..k] == open && positions[..k] == positions;
    }

    /** Drive a whole stream of events; stop at the first error, as the exception would. */
    method Run(events: seq<Event>) returns (r: Option<BacktestResult>)
      requires Valid() && MarketsDone(View()) && finished.None?
      modifies this
      ensures Valid() && finished == r
      ensures (View(), r.Some?) == Spec.Run(cfg, old(View()), events, strategy)
      ensures samples == old(samples) + SamplesOf(cfg, old(View()), events, strategy)
      ensures r.Some? ==> Reports(r.value) && |samples| == |old(samples)| + 2 * |events|
      ensures r.Some? ==> forall k: nat :: k < |events| ==>
                && samples[|old(samples)| + 2 * k] == EquityAt(cfg, AfterFills(cfg, old(View()), events, strategy, k))
                && samples[|old(samples)| + 2 * k + 1]
                   == EquityAt(cfg, Spec.Run(cfg, old(View()), events[..k + 1], strategy).0)
    {
      hide Valid, Reports, MarketsDone, Spec.ProcessEvent, EventSamples, EquityAt, AfterFills;
      ghost var l, before := View(), samples;
      for k := 0 to |events|
        invariant Valid() && MarketsDone(View()) && finished.None?
        invariant Spec.Run(cfg, l, events, strategy) == Spec.Run(cfg, View(), events[k..], strategy)
        invariant before + SamplesOf(cfg, l, events, strategy)
               == samples + SamplesOf(cfg, View(), events[k..], strategy)
      {
        assert events[k..][0] == events[k] && events[k..][1..] == events[k + 1..];
        var ok := ProcessEvent(events[k]);
        if !ok {
          return None;
        }
      }
      SamplesCount(cfg, l, events, strategy);
      forall k: nat | k < |events|
        ensures SamplesOf(cfg, l, events, strategy)[2 * k] == EquityAt(cfg, AfterFills(cfg, l, events, strategy, k))
        ensures SamplesOf(cfg, l, events, strategy)[2 * k + 1]
             == EquityAt(cfg, Spec.Run(cfg, l, events[..k + 1], strategy).0)
      {
        SamplesFollowRun(cfg, l, events, strategy, k);
      }
      var result := Finish();
      r := Some(result);
    }
  }

  /** The report of a strategy on a list of events, determined by the ledger run from the given start. */
  ghost predicate IsReport(cfg: Config, strategy: Strategy, start: Ledger, events: seq<Event>, r: BacktestResult) {
    var l := Spec.Run(cfg, start, events, strategy).0;
    var books := Replay(l.fills);
    && r.orders == l.orders && r.fills == l.fills && r.eventsProcessed == |l.events|
    && BooksOk(l.fills, books)
    && r.positions == books.records + MarkedAll(books.open, PricesAfter(cfg, l.events))
    && NetPnl(r.positions) == FinalEquity(cfg, l)
    && IsWorstDrop(SamplesOf(cfg, start, events, strategy), r.maxDrawdown)
  }

  /** A run has one report. */
  lemma {:induction false} ReportUnique(
    cfg: Config, strategy: Strategy, start: Ledger, events: seq<Event>, r: BacktestResult, r': BacktestResult)
    requires IsReport(cfg, strategy, start, events, r) && IsReport(cfg, strategy, start, events, r')
    ensures r == r'
  {
    WorstDropUnique(SamplesOf(cfg, start, events, strategy), r.maxDrawdown, r'.maxDrawdown);
  }

  /** The clock of a new account makes no difference: the first event sets it. */
  lemma {:induction false} StartTimeIrrelevant(
    cfg: Config, strategy: Strategy, now: int, now': int, events: seq<Event>, r: BacktestResult)
    ensures Spec.Run(cfg, Initial(now), events, strategy).1 == Spec.Run(cfg, Initial(now'), events, strategy).1
    ensures IsReport(cfg, strategy, Initial(now), events, r) ==> IsReport(cfg, strategy, Initial(now'), events, r)
  {
    hide Spec.CheckFills, Spec.React, EquityAt, Replay, BooksOk, NetPnl, IsWorstDrop, PricesAfter;
    if events != [] {
      assert Begin(Initial(now), events[0]) == Begin(Initial(now'), events[0]);
    }
  }

  /**
   A backtest from start to end, without the engine in sight: what it reports is determined by the
   ledger run of the strategy on the events.
   */
  method Backtest(cfg: Config, strategy: Strategy, events: seq<Event>) returns (r: Option<BacktestResult>)
    ensures r.Some? <==> Spec.Run(cfg, Initial(StartTime(events)), events, strategy).1
    ensures r.Some? ==> IsReport(cfg, strategy, Initial(StartTime(events)), events, r.value)
    ensures r.Some? ==> Spec.Run(cfg, Initial(StartTime(events)), events, strategy).0.events == events
  {
    hide Laws, Evolves, Spec.Run, SamplesOf, BooksOk, NetPnl, FinalEquity, IsWorstDrop, Replay, PricesAfter;
    hide MarketsDone;
    var engine := new BacktestEngine(cfg, strategy, events);
    InitialIsLawful(cfg, StartTime(events));
    RunKeepsLaws(cfg, engine.View(), events, strategy);
    r := engine.Run(events);
    assert [] + events == events;
    assert engine.samples == SamplesOf(cfg, Initial(StartTime(events)), events, strategy);
  }

  // ---------------------------------------------------------------------------

  lemma RetireEvolves(l: Ledger, i: nat)
    requires i < |l.orders| && l.orders[i].Active()
    ensures Evolves(l, Retire(l, i, Cancelled))
  {
  }

  /** The id table finds the order that the counter in its id points at. */
  lemma CancelLookup(cfg: Config, l: Ledger, byId: map<OrderId, nat>, id: OrderId)
    requires Laws(cfg, l) && IdsOk(l.orders, byId)
    ensures id in byId ==> byId[id] < |l.orders|
    ensures Cancel(l, id) == if id in byId && l.orders[byId[id]].Active() then Retire(l, byId[id], Cancelled) else l
  {
    hide Causal, ReservationsBacked, Paced, Tallied, ClientsDistinct, FillsOk, ReduceOnlySafe, NoReversal;
    assert forall i :: 0 <= i < |l.orders| ==> OrderOk(l.orders[i], i) && l.orders[i].id in byId;
  }

  lemma {:induction false} ClientLookup(orders: seq<Order>, byClient: map<string, nat>, c: string)
    requires ClientsOk(orders, byClient)
    ensures FindClient(orders, c) == Lookup(byClient, c)
  {
  }

  ghost function Elements(refs: seq<nat>): set<nat> {
    set i | i in refs
  }

  lemma {:induction false} DistinctSize(refs: seq<nat>)
    requires forall j, k :: 0 <= j < k < |refs| ==> refs[j] != refs[k]
    ensures |Elements(refs)| == |refs|
  {
    if refs != [] {
      var n := |refs| - 1;
      DistinctSize(refs[..n]);
      assert refs == refs[..n] + [refs[n]];
      assert refs[n] !in Elements(refs[..n]);
      assert Elements(refs) == Elements(refs[..n]) + {refs[n]};
    }
  }

  /** Order ids carry the counter, so the next one is new. */
  lemma FreshId(cfg: Config, l: Ledger, byId: map<OrderId, nat>, id: OrderId)
    requires Laws(cfg, l) && IdsOk(l.orders, byId) && id.counter == |l.orders| + 1
    ensures id !in byId
  {
    assert forall i :: 0 <= i < |l.orders| ==> OrderOk(l.orders[i], i);
  }

  lemma FillFacts(cfg: Config, l: Ledger, i: nat)
    requires Laws(cfg, l) && Fillable(cfg, l, i)
    ensures i < |l.orders| && l.orders[i].Active()
    ensures var d := Decide(cfg, l.orders[i], Net(l.fills, l.orders[i].symbol));
            d.Take? ==>
              && d.quantity > 0.0
              && (Closes(l.orders[i].side, Net(l.fills, l.orders[i].symbol)) ==>
                    d.quantity <= Abs(Net(l.fills, l.orders[i].symbol)))
  {
    assert OrderOk(l.orders[i], i);
    var net := Net(l.fills, l.orders[i].symbol);
    if Decide(cfg, l.orders[i], net).Take? {
      TakeBounds(cfg, l.orders[i], i, net);
    }
  }

  lemma IndexedIffActive(orders: seq<Order>, index: Index, i: nat)
    requires IndexOk(orders, index) && i < |orders|
    ensures orders[i].Active() ==> orders[i].symbol in index && i in index[orders[i].symbol]
  {
    ActiveRefsExact(orders, orders[i].symbol);
    assert EntryOk(orders, index, orders[i].symbol);
  }

  /** At cost, or without any quantity, a mark adds nothing. */
  lemma NoProfitYet(p: Position, price: real)
    requires price == p.entryPrice || p.quantity == 0.0
    ensures MarkedProfit(p, price) == p.realized - p.commission
  {
    var x := if p.side == Short then p.entryPrice - price else price - p.entryPrice;
    assert Gain(p, price) == x * p.quantity;
    assert x == 0.0 || p.quantity == 0.0;
  }

  lemma OpenOrFlat(fills: seq<Fill>, open: seq<Position>, records: seq<Position>)
    requires BookOk(fills, open, records)
    ensures forall k :: 0 <= k < |records + open| ==>
              (records + open)[k].status == Open || (records + open)[k].quantity == 0.0
  {
    assert forall k :: 0 <= k < |open| ==> PositionOk(fills, open[k]);
  }

  lemma VisitKeepsEarlier(cfg: Config, l: Ledger, e: Event, strategy: Strategy, i: nat)
    requires Laws(cfg, l) && AllPlacedEarlier(l) && Ongoing(l, e) && e.timeframe == cfg.executionTimeframe
    requires i < |l.orders| && l.orders[i].symbol == e.symbol
    ensures var l' := Spec.Visit(cfg, l, e, strategy, i).0;
            && AllPlacedEarlier(l') && l'.events == l.events
            && forall k :: 0 <= k < |l.orders| ==> l'.orders[k].symbol == l.orders[k].symbol
  {
    VisitKeepsLaws(cfg, l, e, strategy, i);
  }

  lemma {:induction false} NetPnlOfMarked(cfg: Config, ps: seq<Position>, lastPrices: Prices)
    requires Unmarked(ps)
    ensures NetPnl(MarkedAll(ps, lastPrices)) == ProfitSum(ps, MarkPrice(cfg, lastPrices, None))
  {
    if ps != [] {
      var n := |ps| - 1;
      NetPnlOfMarked(cfg, ps[..n], lastPrices);
      var q := MarkedAll(ps, lastPrices);
      assert q[..n] == MarkedAll(ps[..n], lastPrices);
    }
  }

  lemma {:induction false} NetPnlOfRecords(ps: seq<Position>, priceOf: Position -> real)
    requires Unmarked(ps) && forall k :: 0 <= k < |ps| ==> ps[k].quantity == 0.0
    ensures NetPnl(ps) == ProfitSum(ps, priceOf)
  {
    if ps != [] {
      NetPnlOfRecords(ps[..|ps| - 1], priceOf);
    }
  }

  lemma {:induction false} NetPnlConcat(ps: seq<Position>, qs: seq<Position>)
    ensures NetPnl(ps + qs) == NetPnl(ps) + NetPnl(qs)
  {
    if qs == [] {
      assert ps + qs == ps;
    } else {
      var n := |qs| - 1;
      assert (ps + qs)[..|ps| + n] == ps + qs[..n];
      NetPnlConcat(ps, qs[..n]);
    }
  }

  /** The reported net profit is the cash account of the fills with open positions at their last price. */
  lemma {:induction false} NetPnlIsAccountValue(
    cfg: Config, fills: seq<Fill>, open: seq<Position>, records: seq<Position>, lastPrices: Prices)
    requires BooksOk(fills, Books(open, records))
    ensures NetPnl(records + MarkedAll(open, lastPrices))
         == AccountValue(fills, open, MarkPrice(cfg, lastPrices, None))
  {
    var priceOf := MarkPrice(cfg, lastPrices, None);
    NetPnlConcat(records, MarkedAll(open, lastPrices));
    NetPnlOfMarked(cfg, open, lastPrices);
    NetPnlOfRecords(records, priceOf);
    ProfitIsAccountValue(fills, open, records, priceOf);
  }
}
