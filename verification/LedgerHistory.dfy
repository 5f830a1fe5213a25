/**
 What the two histories record of each order and each fill, written out: stamps, sizes, prices,
 commissions, the reasons for expiry and the errors.
 */
module LedgerHistory {
  import opened Wrappers
  import opened LedgerModel
  import opened LedgerLaws
  import opened LedgerProgress

  // ---------------------------------------------------------------------------
  // What the histories record of each order and each fill
  // ---------------------------------------------------------------------------

  function LastFillTime(fills: seq<Fill>, i: nat): Option<int> {
    if fills == [] then None
    else
      var f := fills[|fills| - 1];
      if f.order == i then Some(f.time) else LastFillTime(fills[..|fills| - 1], i)
  }

  /** The time to live is over; zero counts as none. */
  ghost predicate Due(o: Order, now: int) {
    o.ttl.Some? && o.ttl.value != 0 && o.createdAt + o.ttl.value <= now
  }

  /** Times are stamped where they belong, and only a reduce-only order expires before its time. */
  ghost predicate OrderHistory(fills: seq<Fill>, o: Order, i: nat) {
    && (o.cancelTime.Some? <==> o.status == Cancelled || o.status == Expired)
    && o.fillTime == LastFillTime(fills, i)
    && (o.status == Expired && !o.reduceOnly ==> o.cancelTime.Some? && Due(o, o.cancelTime.value))
  }

  /** What a bar may take of an order of which `left` remains: one slice of a LIMIT order, else all. */
  ghost function BarShare(cfg: Config, o: Order, left: real): real {
    if o.orderType == Limit && o.quantity * cfg.fraction < left then o.quantity * cfg.fraction else left
  }

  /** A fill takes the bar's share, and of a reduce-only order no more than the position. */
  ghost function Size(cfg: Config, o: Order, left: real, position: real): real {
    var share := BarShare(cfg, o, left);
    if o.reduceOnly && position < share then position else share
  }

  ghost predicate FillSized(cfg: Config, orders: seq<Order>, fills: seq<Fill>, j: nat)
    requires j < |fills|
  {
    var i := fills[j].order;
    && i < |orders|
    && fills[j].quantity
       == Size(cfg, orders[i], orders[i].quantity - Sum(fills[..j], FilledOf(i)), Abs(NetBefore(fills, j)))
  }

  ghost predicate History(cfg: Config, l: Ledger) {
    && (forall i :: 0 <= i < |l.orders| ==> OrderHistory(l.fills, l.orders[i], i))
    && (forall j :: 0 <= j < |l.fills| ==> FillSized(cfg, l.orders, l.fills, j))
  }

  lemma {:induction false} NoFillNoTime(fills: seq<Fill>, i: nat)
    requires forall j :: 0 <= j < |fills| ==> fills[j].order != i
    ensures LastFillTime(fills, i) == None
  {
    if fills != [] {
      NoFillNoTime(fills[..|fills| - 1], i);
    }
  }

  lemma SameTermsSized(cfg: Config, orders: seq<Order>, orders': seq<Order>, fills: seq<Fill>, j: nat)
    requires j < |fills| && FillSized(cfg, orders, fills, j) && |orders| <= |orders'|
    requires forall i :: 0 <= i < |orders| ==> orders[i].SameTerms(orders'[i])
    ensures FillSized(cfg, orders', fills, j)
  {
    assert orders[fills[j].order].SameTerms(orders'[fills[j].order]);
  }

  lemma RetireHistory(cfg: Config, l: Ledger, i: nat, status: Status)
    requires History(cfg, l) && i < |l.orders| && l.orders[i].Active() && Final(status)
    requires status == Expired ==> l.orders[i].reduceOnly || Due(l.orders[i], l.now)
    ensures History(cfg, Retire(l, i, status))
  {
    hide FillSized;
    var l' := Retire(l, i, status);
    forall k | 0 <= k < |l.orders|
      ensures OrderHistory(l.fills, l'.orders[k], k)
    {
      assert OrderHistory(l.fills, l.orders[k], k);
    }
    forall j | 0 <= j < |l.fills|
      ensures FillSized(cfg, l'.orders, l.fills, j)
    {
      assert FillSized(cfg, l.orders, l.fills, j);
      SameTermsSized(cfg, l.orders, l'.orders, l.fills, j);
    }
  }

  lemma AppendHistory(cfg: Config, l: Ledger, intent: Intent)
    requires History(cfg, l)
    ensures History(cfg, Append(l, intent))
  {
    var l' := Append(l, intent);
    forall j | 0 <= j < |l.fills|
      ensures l.fills[j].order != |l.orders|
    {
      assert FillSized(cfg, l.orders, l.fills, j);
    }
    NoFillNoTime(l.fills, |l.orders|);
    hide FillSized;
    forall k | 0 <= k < |l'.orders|
      ensures OrderHistory(l.fills, l'.orders[k], k)
    {
      if k < |l.orders| {
        assert OrderHistory(l.fills, l.orders[k], k);
      }
    }
    forall j | 0 <= j < |l.fills|
      ensures FillSized(cfg, l'.orders, l.fills, j)
    {
      assert FillSized(cfg, l.orders, l.fills, j);
      SameTermsSized(cfg, l.orders, l'.orders, l.fills, j);
    }
  }

  lemma DecidedSize(cfg: Config, o: Order, i: nat, net: real)
    requires OrderOk(o, i) && o.Active() && Decide(cfg, o, net).Take?
    ensures Decide(cfg, o, net).quantity == Size(cfg, o, o.quantity - o.filled, Abs(net))
  {
  }

  /** The order that is filled, and the others, after one more fill. */
  lemma FilledHistory(fills: seq<Fill>, f: Fill, o: Order, o': Order, i: nat, k: nat, cut: bool)
    requires OrderHistory(fills, o, k) && (k == i ==> o' == AfterFill(o, f.quantity, cut, f.time) && o.Active())
    requires (k != i ==> o' == o) && f.order == i && (cut ==> o.reduceOnly)
    ensures OrderHistory(fills + [f], o', k)
  {
    assert (fills + [f])[..|fills|] == fills;
  }

  lemma EarlierSized(cfg: Config, orders: seq<Order>, orders': seq<Order>, fills: seq<Fill>, f: Fill, j: nat)
    requires j < |fills| && FillSized(cfg, orders, fills, j) && |orders| <= |orders'|
    requires forall i :: 0 <= i < |orders| ==> orders[i].SameTerms(orders'[i])
    ensures FillSized(cfg, orders', fills + [f], j)
  {
    SameTermsSized(cfg, orders, orders', fills, j);
    PrefixOfAppend(fills, f, j);
  }

  /** The new fill has its size. */
  lemma LastSized(cfg: Config, l: Ledger, i: nat, open: real)
    requires OrdersOk(l.orders) && Tallied(l.orders, l.fills) && i < |l.orders| && l.orders[i].Active()
    requires Decide(cfg, l.orders[i], Net(l.fills, l.orders[i].symbol)).Take?
    ensures var d := Decide(cfg, l.orders[i], Net(l.fills, l.orders[i].symbol));
            var l' := Book(cfg, l, i, d.quantity, d.expireRemainder, open);
            && |l'.fills| == |l.fills| + 1 && FillSized(cfg, l'.orders, l'.fills, |l.fills|)
            && (d.expireRemainder ==> l.orders[i].reduceOnly)
  {
    var o, net := l.orders[i], Net(l.fills, l.orders[i].symbol);
    var d := Decide(cfg, o, net);
    var f := FillFor(cfg, o, i, d.quantity, open, l.now);
    assert OrderOk(o, i) && Sum(l.fills, FilledOf(i)) == o.filled;
    DecidedSize(cfg, o, i, net);
    LastOfAppend(l.fills, f);
    assert d.expireRemainder ==> o.reduceOnly;
    hide PriceFor, Commission, Decide, Net, Sum;
  }

  lemma BookHistory(cfg: Config, l: Ledger, i: nat, open: real)
    requires History(cfg, l) && OrdersOk(l.orders) && Tallied(l.orders, l.fills)
    requires i < |l.orders| && l.orders[i].Active()
    requires Decide(cfg, l.orders[i], Net(l.fills, l.orders[i].symbol)).Take?
    ensures var d := Decide(cfg, l.orders[i], Net(l.fills, l.orders[i].symbol));
            History(cfg, Book(cfg, l, i, d.quantity, d.expireRemainder, open))
  {
    hide PriceFor, Commission, Decide, FillSized, OrderHistory, Net, Sum, AfterFill, OrdersOk, Tallied;
    var o := l.orders[i];
    var d := Decide(cfg, o, Net(l.fills, o.symbol));
    var l' := Book(cfg, l, i, d.quantity, d.expireRemainder, open);
    var f := FillFor(cfg, o, i, d.quantity, open, l.now);
    LastSized(cfg, l, i, open);
    forall k | 0 <= k < |l.orders|
      ensures OrderHistory(l'.fills, l'.orders[k], k)
    {
      FilledHistory(l.fills, f, l.orders[k], l'.orders[k], i, k, k == i && d.expireRemainder);
    }
    SameTermsAfter(l.orders, l'.orders, i, d.quantity, d.expireRemainder, l.now);
    forall j | 0 <= j < |l.fills|
      ensures FillSized(cfg, l'.orders, l'.fills, j)
    {
      EarlierSized(cfg, l.orders, l'.orders, l.fills, f, j);
    }
  }

  lemma SameTermsAfter(orders: seq<Order>, orders': seq<Order>, i: nat, q: real, cut: bool, now: int)
    requires i < |orders| && orders' == orders[i := AfterFill(orders[i], q, cut, now)]
    ensures forall k :: 0 <= k < |orders| ==> orders[k].SameTerms(orders'[k])
  {
  }

  lemma SameHistory(cfg: Config, l: Ledger, l': Ledger)
    requires l'.orders == l.orders && l'.fills == l.fills
    ensures History(cfg, l) ==> History(cfg, l')
  {
  }

  lemma {:induction false} CancelAllHistory(cfg: Config, l: Ledger, ids: seq<OrderId>)
    requires History(cfg, l)
    ensures History(cfg, CancelAll(l, ids))
    decreases |ids|
  {
    hide History;
    if ids != [] {
      var m := Cancel(l, ids[0]);
      if m != l {
        RetireHistory(cfg, l, ids[0].counter - 1, Cancelled);
      }
      CancelAllHistory(cfg, m, ids[1..]);
    }
  }

  lemma CallHistory(cfg: Config, l: Ledger, ids: seq<OrderId>)
    requires History(cfg, l)
    ensures History(cfg, AfterCallback(l, ids))
  {
    assert History(cfg, l.(calls := l.calls + 1));
    hide History;
    CancelAllHistory(cfg, l.(calls := l.calls + 1), ids);
  }

  // ---------------------------------------------------------------------------
  // Prices, commissions and errors, written out
  // ---------------------------------------------------------------------------

  lemma MarketPriceScaled(cfg: Config, side: Side, price: real, open: real)
    ensures var base := if side == Sell && open > price then open else price;
            10000.0 * (PriceFor(cfg, side, Market, price, open) - base)
            == (if side == Buy then 1.0 else -1.0) * cfg.slippageBps * base
  {
    var base := if side == Sell && open > price then open else price;
    var rate := cfg.slippageBps / 10000.0;
    assert 10000.0 * rate == cfg.slippageBps;
    assert base * (1.0 + rate) - base == base * rate && base * (1.0 - rate) - base == -(base * rate);
    assert 10000.0 * (base * rate) == cfg.slippageBps * base;
  }

  /** What each fill of a lawful account costs: maker or taker fee, slippage in basis points of the base price. */
  lemma FillTerms(cfg: Config, l: Ledger, j: nat)
    requires Laws(cfg, l) && j < |l.fills|
    ensures Shape(l) && l.fills[j].order < |l.orders|
    ensures var f, o := l.fills[j], l.orders[l.fills[j].order];
            var open := l.events[l.filledOn[j] - 1].open;
            var base := if o.side == Sell && open > o.price then open else o.price;
            && f.commission == f.quantity * f.price * (if o.orderType == Market then cfg.takerFee else cfg.makerFee)
            && f.isMaker == (o.orderType == Limit)
            && (o.orderType == Limit ==> f.price == base)
            && (o.orderType == Market ==>
                  10000.0 * (f.price - base) == (if o.side == Buy then 1.0 else -1.0) * cfg.slippageBps * base)
  {
    hide Tallied, Paced, ReservationsBacked, NoReversal, ReduceOnlySafe, ClientsDistinct, OrdersOk, Dated;
    assert CausalFill(cfg, l, j) && FillOk(l.orders, l.fills[j]);
    var o := l.orders[l.fills[j].order];
    MarketPriceScaled(cfg, o.side, o.price, l.events[l.filledOn[j] - 1].open);
  }

  /** The reversal error comes exactly when an order that may open would take more than the position it closes. */
  lemma ReversalExactly(cfg: Config, l: Ledger, i: nat, open: real)
    requires i < |l.orders|
    ensures var o, net := l.orders[i], Net(l.fills, l.orders[i].symbol);
            ExecuteFill(cfg, l, i, open).1 == Failed
            <==> !o.reduceOnly
                 && ((o.side == Buy && net < 0.0 && BarShare(cfg, o, o.quantity - o.filled) > -net)
                     || (o.side == Sell && net > 0.0 && BarShare(cfg, o, o.quantity - o.filled) > net))
  {
  }

  /**
   A placement is refused exactly when its client id is new, it is reduce-only, and it does not close
   the position or asks for more than other active reduce-only orders leave of it.
   */
  lemma RefusedExactly(l: Ledger, intent: Intent)
    ensures var net, free := Net(l.fills, intent.symbol), Reserved(l.orders, intent.symbol);
            Place(l, intent).1.None?
            <==> && !Known(l, intent.clientId) && intent.reduceOnly
                 && !((intent.side == Buy && net < 0.0 && intent.quantity + free <= -net)
                      || (intent.side == Sell && net > 0.0 && intent.quantity + free <= net))
  {
    var found := FindClient(l.orders, intent.clientId);
    assert found.Some? ==> Known(l, intent.clientId);
  }
}
