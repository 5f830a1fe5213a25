/**
 The ledger: the simple form of the backtest account.

 It keeps the append-only order history and the append-only fill history and nothing else.
 Which orders are active, how large a position is and how much of it is reserved are all
 computed from the two histories.  `Engine.BacktestEngine` keeps the indexes, positions and
 running totals of the real engine and is proved to agree with this ledger.
 */
module LedgerModel {
  import opened Wrappers

  type Symbol = string

  datatype Side = Buy | Sell

  datatype OrderType = Limit | Market

  datatype Status = New | PartiallyFilled | Filled | Cancelled | Expired

  /** `order_{counter}_{time}` */
  datatype OrderId = OrderId(counter: nat, time: int)

  datatype RawIntent = Intent(
    clientId: string, symbol: Symbol, side: Side, orderType: OrderType,
    price: real, quantity: real, ttl: Option<int>, reduceOnly: bool)

  /** What a strategy may ask for: any order of positive size. */
  type Intent = i: RawIntent | i.quantity > 0.0
    witness Intent("", "", Buy, Limit, 1.0, 1.0, None, false)

  datatype Order = Order(
    id: OrderId, clientId: string, symbol: Symbol, side: Side, orderType: OrderType,
    price: real, quantity: real, createdAt: int, ttl: Option<int>, reduceOnly: bool,
    status: Status, filled: real, fillTime: Option<int>, cancelTime: Option<int>)
  {
    predicate Active() {
      status == New || status == PartiallyFilled
    }

    function Remaining(): real {
      quantity - filled
    }

    /** Everything a placement fixes once and for all. */
    ghost predicate SameTerms(o: Order) {
      && id == o.id && clientId == o.clientId && symbol == o.symbol && side == o.side
      && orderType == o.orderType && price == o.price && quantity == o.quantity
      && createdAt == o.createdAt && ttl == o.ttl && reduceOnly == o.reduceOnly
    }

    /** A time to live of zero counts as none. */
    predicate Lapsed(now: int) {
      ttl.Some? && ttl.value != 0 && now >= createdAt + ttl.value
    }
  }

  /** `order` is the index of the filled order in the order history. */
  datatype Fill = Fill(
    order: nat, symbol: Symbol, side: Side, price: real, quantity: real,
    commission: real, time: int, isMaker: bool)

  datatype Timeframe = Second | Interval(name: string)

  datatype Event = Event(
    symbol: Symbol, timeframe: Timeframe, open: real, high: real, low: real, close: real,
    availableTime: int)

  datatype RawConfig = Config(
    tradingStart: Option<int>, slippageBps: real, fraction: real, makerFee: real, takerFee: real,
    executionTimeframe: Timeframe)

  type Config = c: RawConfig | 0.0 < c.fraction <= 1.0
    witness Config(None, 0.0, 1.0, 0.0, 0.0, Second)

  datatype Response = Response(cancels: seq<OrderId>, intents: seq<Intent>)

  /**
   An arbitrary strategy, seen as the answers it gives: `onFill(n)` and `onEvent(n)` are what it
   does when it is called back for the n-th time in a run.  At each callback it may cancel any
   orders; at a market event it also returns order intents.
   */
  datatype Strategy = Strategy(onFill: nat -> seq<OrderId>, onEvent: nat -> Response)

  /**
   `events` lists the events processed so far; `placedOn` and `filledOn` record the number (from 1)
   of the event during which each order was placed and each fill was made.  `clean` says that no
   event so far ended in an error.
   */
  datatype Ledger = Ledger(
    orders: seq<Order>, fills: seq<Fill>, placedOn: seq<nat>, filledOn: seq<nat>,
    events: seq<Event>, now: int, calls: nat, clean: bool)

  /** The account before the first event, with its clock at `now`. */
  function Initial(now: int): Ledger {
    Ledger([], [], [], [], [], now, 0, true)
  }

  // ---------------------------------------------------------------------------
  // Sums over the fill history
  // ---------------------------------------------------------------------------

  datatype Scope = All | Only(symbol: Symbol)
  {
    predicate Has(s: Symbol) {
      All? || symbol == s
    }
  }

  datatype Measure = NetQuantity(s: Symbol) | Cash(scope: Scope) | Fees(scope: Scope) | FilledOf(order: nat)

  function SignedQuantity(f: Fill): real {
    if f.side == Buy then f.quantity else -f.quantity
  }

  /** What one fill contributes to a measure; cash flows in on a sale and out on a purchase. */
  function Weight(m: Measure, f: Fill): real {
    match m
    case NetQuantity(s) => if f.symbol == s then SignedQuantity(f) else 0.0
    case Cash(scope) => if scope.Has(f.symbol) then -SignedQuantity(f) * f.price else 0.0
    case Fees(scope) => if scope.Has(f.symbol) then f.commission else 0.0
    case FilledOf(i) => if f.order == i then f.quantity else 0.0
  }

  function Sum(fills: seq<Fill>, m: Measure): real {
    if fills == [] then 0.0
    else Sum(fills[..|fills| - 1], m) + Weight(m, fills[|fills| - 1])
  }

  /** BUY minus SELL quantity of a symbol: its signed position. */
  function Net(fills: seq<Fill>, s: Symbol): real {
    Sum(fills, NetQuantity(s))
  }

  function FillCount(fills: seq<Fill>, i: nat): nat {
    if fills == [] then 0
    else FillCount(fills[..|fills| - 1], i) + if fills[|fills| - 1].order == i then 1 else 0
  }

  // ---------------------------------------------------------------------------
  // Views of the order history
  // ---------------------------------------------------------------------------

  /** The active orders of a symbol, in placement order. */
  function ActiveRefs(orders: seq<Order>, s: Symbol): (refs: seq<nat>)
    ensures forall j :: 0 <= j < |refs| ==> refs[j] < |orders|
  {
    if orders == [] then []
    else
      var n := |orders| - 1;
      var rest := ActiveRefs(orders[..n], s);
      if orders[n].Active() && orders[n].symbol == s then rest + [n] else rest
  }

  function ReservedBy(o: Order, s: Symbol): real {
    if o.Active() && o.reduceOnly && o.symbol == s then o.Remaining() else 0.0
  }

  /** The quantity that active reduce-only orders of a symbol may still take. */
  function Reserved(orders: seq<Order>, s: Symbol): real {
    if orders == [] then 0.0
    else Reserved(orders[..|orders| - 1], s) + ReservedBy(orders[|orders| - 1], s)
  }

  function FindClient(orders: seq<Order>, clientId: string): (r: Option<nat>)
    ensures r.Some? ==> r.value < |orders| && orders[r.value].clientId == clientId
    ensures r.None? ==> forall i :: 0 <= i < |orders| ==> orders[i].clientId != clientId
  {
    if orders == [] then None
    else
      var n := |orders| - 1;
      if orders[n].clientId == clientId then Some(n) else FindClient(orders[..n], clientId)
  }

  // ---------------------------------------------------------------------------
  // One fill
  // ---------------------------------------------------------------------------

  function Abs(x: real): real {
    if x < 0.0 then -x else x
  }

  function Min(x: real, y: real): real {
    if x <= y then x else y
  }

  function Max(x: real, y: real): real {
    if x >= y then x else y
  }

  /** A trade on `side` works against a position of signed size `net`. */
  predicate Closes(side: Side, net: real) {
    (net < 0.0 && side == Buy) || (net > 0.0 && side == Sell)
  }

  /** A sale starts from the better of its price and the open; only MARKET orders pay slippage. */
  function PriceFor(cfg: Config, side: Side, orderType: OrderType, price: real, open: real): real {
    var baseline := if side == Sell then Max(price, open) else price;
    if orderType == Market && cfg.slippageBps != 0.0 then
      var rate := cfg.slippageBps / 10000.0;
      baseline * (if side == Buy then 1.0 + rate else 1.0 - rate)
    else baseline
  }

  function FillPrice(cfg: Config, o: Order, open: real): real {
    PriceFor(cfg, o.side, o.orderType, o.price, open)
  }

  function Commission(cfg: Config, quantity: real, price: real, isMaker: bool): real {
    quantity * price * (if isMaker then cfg.makerFee else cfg.takerFee)
  }

  /** How much one bar may fill before the position is looked at. */
  function Wanted(cfg: Config, o: Order): real {
    if o.orderType == Limit then Min(o.Remaining(), o.quantity * cfg.fraction) else o.Remaining()
  }

  datatype Decision = Take(quantity: real, expireRemainder: bool) | Lapse | WouldReverse

  function Decide(cfg: Config, o: Order, net: real): Decision {
    var wanted := Wanted(cfg, o);
    if o.reduceOnly then
      if !Closes(o.side, net) then Lapse
      else if wanted > Abs(net) then Take(Abs(net), true)
      else if wanted <= 0.0 then Lapse
      else Take(wanted, false)
    else if Closes(o.side, net) && wanted > Abs(net) then WouldReverse
    else Take(wanted, false)
  }

  function FillFor(cfg: Config, o: Order, i: nat, q: real, open: real, now: int): Fill {
    var price := FillPrice(cfg, o, open);
    var isMaker := o.orderType != Market;
    Fill(i, o.symbol, o.side, price, q, Commission(cfg, q, price, isMaker), now, isMaker)
  }

  function AfterFill(o: Order, q: real, expireRemainder: bool, now: int): Order {
    var filled := o.filled + q;
    if expireRemainder then o.(filled := filled, fillTime := Some(now), status := Expired, cancelTime := Some(now))
    else o.(filled := filled, fillTime := Some(now), status := if filled == o.quantity then Filled else PartiallyFilled)
  }

  /** An active order becomes CANCELLED or EXPIRED. */
  function Retire(l: Ledger, i: nat, status: Status): Ledger
    requires i < |l.orders|
  {
    l.(orders := l.orders[i := l.orders[i].(status := status, cancelTime := Some(l.now))])
  }

  function Book(cfg: Config, l: Ledger, i: nat, q: real, expireRemainder: bool, open: real): Ledger
    requires i < |l.orders|
  {
    var o := l.orders[i];
    l.(orders := l.orders[i := AfterFill(o, q, expireRemainder, l.now)],
       fills := l.fills + [FillFor(cfg, o, i, q, open, l.now)],
       filledOn := l.filledOn + [|l.events|])
  }

  datatype Attempt = Executed | Nothing | Failed

  function ExecuteFill(cfg: Config, l: Ledger, i: nat, open: real): (Ledger, Attempt)
    requires i < |l.orders|
  {
    match Decide(cfg, l.orders[i], Net(l.fills, l.orders[i].symbol))
    case Lapse => (Retire(l, i, Expired), Nothing)
    case WouldReverse => (l.(clean := false), Failed)
    case Take(q, cut) => (Book(cfg, l, i, q, cut, open), Executed)
  }

  // ---------------------------------------------------------------------------
  // Cancelling and placing
  // ---------------------------------------------------------------------------

  function Cancel(l: Ledger, id: OrderId): (r: Ledger)
    ensures |r.orders| == |l.orders|
  {
    if 1 <= id.counter <= |l.orders| && l.orders[id.counter - 1].id == id && l.orders[id.counter - 1].Active()
    then Retire(l, id.counter - 1, Cancelled)
    else l
  }

  function CancelAll(l: Ledger, ids: seq<OrderId>): (r: Ledger)
    ensures |r.orders| == |l.orders|
    decreases |ids|
  {
    if ids == [] then l else CancelAll(Cancel(l, ids[0]), ids[1..])
  }

  function AfterCallback(l: Ledger, ids: seq<OrderId>): Ledger {
    CancelAll(l.(calls := l.calls + 1), ids)
  }

  predicate ReduceOnlyAllowed(l: Ledger, intent: Intent) {
    var net := Net(l.fills, intent.symbol);
    Closes(intent.side, net) && intent.quantity <= Abs(net) - Reserved(l.orders, intent.symbol)
  }

  function NewOrder(l: Ledger, intent: Intent): Order {
    Order(OrderId(|l.orders| + 1, l.now), intent.clientId, intent.symbol, intent.side, intent.orderType,
          intent.price, intent.quantity, l.now, intent.ttl, intent.reduceOnly, New, 0.0, None, None)
  }

  function Append(l: Ledger, intent: Intent): Ledger {
    l.(orders := l.orders + [NewOrder(l, intent)], placedOn := l.placedOn + [|l.events|])
  }

  /** The ledger after a placement and the order it stands for; `None` when the placement is refused. */
  function Place(l: Ledger, intent: Intent): (r: (Ledger, Option<nat>))
    ensures r.1.Some? ==> r.1.value < |r.0.orders|
  {
    var existing := FindClient(l.orders, intent.clientId);
    if existing.Some? then (l, existing)
    else if intent.reduceOnly && !ReduceOnlyAllowed(l, intent) then (l.(clean := false), None)
    else (Append(l, intent), Some(|l.orders|))
  }

  // ---------------------------------------------------------------------------
  // One event
  // ---------------------------------------------------------------------------

  predicate Triggered(o: Order, e: Event) {
    (o.side == Sell && e.high > o.price) || (o.side == Buy && e.low < o.price)
  }

  /** One turn of the fill loop; the flag is false when the turn ended in an error. */
  function Visit(cfg: Config, l: Ledger, e: Event, strategy: Strategy, i: nat): (r: (Ledger, bool))
    requires i < |l.orders|
    ensures |r.0.orders| == |l.orders|
  {
    var o := l.orders[i];
    if !o.Active() then (l, true)
    else if o.Lapsed(l.now) then (Retire(l, i, Expired), true)
    else if !Triggered(o, e) then (l, true)
    else Settle(cfg, l, e, strategy, i)
  }

  /** Fill one order and, if it did fill, let the strategy react. */
  function Settle(cfg: Config, l: Ledger, e: Event, strategy: Strategy, i: nat): (r: (Ledger, bool))
    requires i < |l.orders|
    ensures |r.0.orders| == |l.orders|
  {
    var (l', attempt) := ExecuteFill(cfg, l, i, e.open);
    match attempt
    case Failed => (l', false)
    case Nothing => (l', true)
    case Executed => (AfterCallback(l', strategy.onFill(l'.calls)), true)
  }

  function VisitAll(cfg: Config, l: Ledger, e: Event, strategy: Strategy, refs: seq<nat>): (r: (Ledger, bool))
    requires forall j :: 0 <= j < |refs| ==> refs[j] < |l.orders|
    ensures |r.0.orders| == |l.orders|
    decreases |refs|
  {
    if refs == [] then (l, true)
    else
      var (l', ok) := Visit(cfg, l, e, strategy, refs[0]);
      if ok then VisitAll(cfg, l', e, strategy, refs[1..]) else (l', false)
  }

  function CheckFills(cfg: Config, l: Ledger, e: Event, strategy: Strategy): (Ledger, bool) {
    if e.timeframe != cfg.executionTimeframe then (l, true)
    else VisitAll(cfg, l, e, strategy, ActiveRefs(l.orders, e.symbol))
  }

  function PlaceOne(cfg: Config, l: Ledger, e: Event, strategy: Strategy, intent: Intent): (Ledger, bool) {
    var (l', placed) := Place(l, intent);
    if placed.None? then (l', false)
    else if l'.orders[placed.value].orderType == Market && l'.orders[placed.value].status == New
    then Settle(cfg, l', e, strategy, placed.value)
    else (l', true)
  }

  function PlaceAll(cfg: Config, l: Ledger, e: Event, strategy: Strategy, intents: seq<Intent>): (Ledger, bool)
    decreases |intents|
  {
    if intents == [] then (l, true)
    else
      var (l', ok) := PlaceOne(cfg, l, e, strategy, intents[0]);
      if ok then PlaceAll(cfg, l', e, strategy, intents[1..]) else (l', false)
  }

  predicate TradingEnabled(cfg: Config, now: int) {
    cfg.tradingStart.None? || now >= cfg.tradingStart.value
  }

  function Begin(l: Ledger, e: Event): Ledger {
    l.(events := l.events + [e], now := e.availableTime)
  }

  function React(cfg: Config, l: Ledger, e: Event, strategy: Strategy): (Ledger, bool) {
    var response := strategy.onEvent(l.calls);
    var l' := AfterCallback(l, response.cancels);
    if TradingEnabled(cfg, l.now) then PlaceAll(cfg, l', e, strategy, response.intents) else (l', true)
  }

  function ProcessEvent(cfg: Config, l: Ledger, e: Event, strategy: Strategy): (Ledger, bool) {
    var (l', ok) := CheckFills(cfg, Begin(l, e), e, strategy);
    if ok then React(cfg, l', e, strategy) else (l', false)
  }

  /** A whole run: events are processed until one of them fails. */
  function Run(cfg: Config, l: Ledger, events: seq<Event>, strategy: Strategy): (Ledger, bool)
    decreases |events|
  {
    if events == [] then (l, true)
    else
      var (l', ok) := ProcessEvent(cfg, l, events[0], strategy);
      if ok then Run(cfg, l', events[1..], strategy) else (l', false)
  }
}
