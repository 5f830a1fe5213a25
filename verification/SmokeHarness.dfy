/**
 The fail-closed testnet order harness against an adversarial exchange.

 Every call may answer anything, raise an ordinary error, or be interrupted by something that
 ordinary error handlers do not catch.  The exchange keeps the log of all calls, and the promises
 are about that log: at most one entry and at most one exit are ever posted, on the main path and
 the final cleanup together.
 */
module SmokeHarness {
  import opened Wrappers

  datatype Side = Buy | Sell

  datatype Status = New | PartiallyFilled | PendingCancel
                  | Canceled | Expired | ExpiredInMatch | Filled | Rejected | Unrecognized
  {
    predicate Open() {
      New? || PartiallyFilled? || PendingCancel?
    }

    predicate Terminal() {
      Canceled? || Expired? || ExpiredInMatch? || Filled? || Rejected?
    }
  }

  /** `executed` is missing when the quantity cannot be read as a number. */
  datatype OrderView = OrderView(symbol: string, clientId: string, status: Status, executed: Option<real>)

  datatype PositionView = PositionView(symbol: string, oneWay: bool, amount: Option<real>, markPrice: Option<real>)

  datatype Reply<+T> = Value(value: T) | Error | Interrupt

  datatype Code =
    | ExchangeInfoInvalid | SymbolRuleViolation | ReferencePriceUnavailable | MarketableEntryRefused
    | FillPriceOutOfRange
    | HedgeModeUnsupported | PreflightOpenOrders | PreflightPosition | ClientOrderIdReused
    | SubmitUnknown | QueryUnknown
    | CancelUnknown | EntryNotFilled | FilledPositionNotVisible | PositionDirectionMismatch | ExitSubmitUnknown
    | ExitNotTerminal | ExitNotFilled | PositionNotFlat | OrderIdentityMismatch | OrderStatusUnknown
    | OrderResponseInvalid | PositionResponseInvalid | CallFailed

  /** How a step ends: with a value, with an error, or interrupted. */
  datatype Checked<+T> = Done(value: T) | Raised(code: Code) | Interrupted
  {
    predicate IsFailure() {
      !Done?
    }

    function PropagateFailure<U>(): Checked<U>
      requires IsFailure()
    {
      if Interrupted? then Interrupted else Raised(code)
    }

    function Extract(): T
      requires !IsFailure()
    {
      value
    }
  }

  datatype RunResult = DryRunOk | ExecutionOk

  /** What a position answer shows about the symbol. */
  datatype Observation = Flat | Holding(position: PositionView) | Unusable(code: Code)

  /** One call to the exchange; a posted MARKET order has no price. */
  datatype Entry =
    | InfoQuery
    | PriceQuery(price: Option<real>)
    | ModeQuery(oneWay: bool)
    | OpenOrdersQuery(none: bool)
    | PositionQuery(seen: Observation)
    | OrderQuery(clientId: string, absent: bool)
    | CancelCall(clientId: string)
    | Post(clientId: string, side: Side, price: Option<real>, quantity: real, reduceOnly: bool)

  datatype Args = Args(
    symbol: string, clientId: string, fillAndExit: bool, execute: bool, attempts: nat,
    quantity: real, limitPrice: real, minDistanceBps: real, maxFillDistanceBps: real,
    normalize: (Side, real, real) -> Option<(real, real)>)

  function ExitId(clientId: string): string {
    (if |clientId| <= 25 then clientId else clientId[..25]) + "_exit"
  }

  // ---------------------------------------------------------------------------
  // Reading answers
  // ---------------------------------------------------------------------------

  function Active(ps: seq<PositionView>, symbol: string): (r: Checked<seq<PositionView>>) {
    if ps == [] then Done([])
    else
      var rest :- Active(ps[..|ps| - 1], symbol);
      var p := ps[|ps| - 1];
      if p.symbol != symbol then Done(rest)
      else if p.amount.None? then Raised(PositionResponseInvalid)
      else if p.amount.value != 0.0 then Done(rest + [p])
      else Done(rest)
  }

  function Observe(reply: Reply<seq<PositionView>>, symbol: string): Observation {
    match reply
    case Error => Unusable(CallFailed)
    case Interrupt => Unusable(CallFailed)
    case Value(ps) =>
      match Active(ps, symbol)
      case Interrupted => Unusable(CallFailed)
      case Raised(code) => Unusable(code)
      case Done(active) =>
        if active == [] then Flat
        else if |active| != 1 || !active[0].oneWay then Unusable(HedgeModeUnsupported)
        else Holding(active[0])
  }

  /** A position that is reported has a readable, non-zero amount. */
  lemma {:induction false} ActiveHaveAmounts(ps: seq<PositionView>, symbol: string)
    ensures Active(ps, symbol).Done? ==>
              forall p :: p in Active(ps, symbol).value ==>
                p.amount.Some? && p.amount.value != 0.0 && p.symbol == symbol
  {
    if ps != [] {
      ActiveHaveAmounts(ps[..|ps| - 1], symbol);
    }
  }

  predicate Clear(p: PositionView, symbol: string) {
    p.symbol == symbol ==> p.amount == Some(0.0)
  }

  lemma {:induction false} ActiveExactly(ps: seq<PositionView>, symbol: string)
    ensures Active(ps, symbol) == Done([]) <==> forall i :: 0 <= i < |ps| ==> Clear(ps[i], symbol)
    ensures !Active(ps, symbol).Interrupted?
    ensures Active(ps, symbol).Raised? ==> Active(ps, symbol).code == PositionResponseInvalid
    ensures Active(ps, symbol).Done? ==>
              forall i :: 0 <= i < |ps| && ps[i].symbol == symbol ==>
                ps[i].amount.Some? && (ps[i].amount.value != 0.0 ==> ps[i] in Active(ps, symbol).value)
    ensures Active(ps, symbol).Done? ==> forall p :: p in Active(ps, symbol).value ==> p in ps
  {
    if ps != [] {
      var n := |ps| - 1;
      ActiveExactly(ps[..n], symbol);
      assert ps == ps[..n] + [ps[n]];
    }
  }

  /**
   Flat means that every entry of the symbol reads zero; holding means that all entries read as
   numbers and the position is the only one that is not zero, in one-way mode.
   */
  lemma ObserveExactly(ps: seq<PositionView>, symbol: string)
    ensures Observe(Value(ps), symbol) == Flat <==> forall i :: 0 <= i < |ps| ==> Clear(ps[i], symbol)
    ensures forall p :: Observe(Value(ps), symbol) == Holding(p) ==>
              && p in ps && p.symbol == symbol && p.oneWay && p.amount.Some? && p.amount.value != 0.0
              && forall i :: 0 <= i < |ps| && ps[i].symbol == symbol ==>
                   ps[i].amount.Some? && (ps[i].amount.value != 0.0 ==> ps[i] == p)
  {
    ActiveExactly(ps, symbol);
    ActiveHaveAmounts(ps, symbol);
  }

  /** A recognised status is either open or ended. */
  lemma StatusesSplit(s: Status)
    ensures s.Open() <==> s != Unrecognized && !s.Terminal()
    ensures s.Open() <==> s in {New, PartiallyFilled, PendingCancel}
  {
  }

  function ValidateOrder(o: OrderView, symbol: string, clientId: string): Checked<Status> {
    if o.symbol != symbol || o.clientId != clientId then Raised(OrderIdentityMismatch)
    else if o.status == Unrecognized then Raised(OrderStatusUnknown)
    else Done(o.status)
  }

  function HasFill(o: OrderView): Checked<bool> {
    if o.status == Filled then Done(true)
    else if o.executed.None? then Raised(OrderResponseInvalid)
    else Done(o.executed.value > 0.0)
  }

  // ---------------------------------------------------------------------------
  // The promises about the log
  // ---------------------------------------------------------------------------

  /** The latest position observation. */
  ghost function LastSeen(log: seq<Entry>): Option<Observation> {
    if log == [] then None
    else if log[|log| - 1].PositionQuery? then Some(log[|log| - 1].seen)
    else LastSeen(log[..|log| - 1])
  }

  /** The reference price: the first one that the exchange gave. */
  ghost function FirstPrice(log: seq<Entry>): Option<real> {
    if log == [] then None
    else
      var before := FirstPrice(log[..|log| - 1]);
      if before.None? && log[|log| - 1].PriceQuery? then log[|log| - 1].price else before
  }

  /** The entry as asked for, under the symbol's rules. */
  function EntryIntent(args: Args): Option<(real, real)> {
    args.normalize(Sell, args.limitPrice, args.quantity)
  }

  /** Far enough above the reference to stay open, or close enough below it to fill. */
  predicate PriceAllowed(args: Args, reference: real, price: real) {
    if !args.fillAndExit then price >= reference * (1.0 + args.minDistanceBps / 10000.0)
    else reference * (1.0 - args.maxFillDistanceBps / 10000.0) <= price <= reference
  }

  ghost predicate IsEntry(args: Args, e: Entry) {
    && e.Post? && e.clientId == args.clientId && e.side == Sell && !e.reduceOnly
    && e.price.Some? && EntryIntent(args) == Some((e.price.value, e.quantity))
  }

  ghost predicate IsExit(args: Args, e: Entry) {
    e.Post? && e.clientId == ExitId(args.clientId) && e.reduceOnly && e.price.None?
  }

  /** Right before: one-way mode, no open orders, flat, and the client id unused. */
  ghost predicate Preflight(args: Args, log: seq<Entry>) {
    var n := |log|;
    && n >= 4
    && log[n - 4] == ModeQuery(true) && log[n - 3] == OpenOrdersQuery(true)
    && log[n - 2] == PositionQuery(Flat) && log[n - 1] == OrderQuery(args.clientId, true)
  }

  function ExitSide(amount: real): Side {
    if amount < 0.0 then Buy else Sell
  }

  /** The exit for a position under the symbol's rules: all of it, priced at its mark or at the reference. */
  function ExitIntent(args: Args, p: PositionView, reference: real): Option<(real, real)>
    requires p.amount.Some?
  {
    var amount := p.amount.value;
    args.normalize(ExitSide(amount), if p.markPrice.Some? then p.markPrice.value else reference,
                   if amount < 0.0 then -amount else amount)
  }

  /** The latest observation is a position, and the exit trades against all of it. */
  ghost predicate Closes(args: Args, log: seq<Entry>, exit: Entry) {
    exit.Post? &&
    match LastSeen(log)
    case Some(Holding(p)) =>
      && p.amount.Some? && exit.side == ExitSide(p.amount.value) && FirstPrice(log).Some?
      && ExitIntent(args, p, FirstPrice(log).value).Some?
      && exit.quantity == ExitIntent(args, p, FirstPrice(log).value).value.1
    case _ => false
  }

  /** The entry keeps its distance from the reference price. */
  ghost predicate Priced(args: Args, log: seq<Entry>, entry: Entry) {
    && entry.Post? && entry.price.Some? && FirstPrice(log).Some?
    && PriceAllowed(args, FirstPrice(log).value, entry.price.value)
  }

  ghost predicate PostOk(args: Args, log: seq<Entry>, i: nat)
    requires i < |log|
  {
    || (IsEntry(args, log[i]) && Preflight(args, log[..i]) && Priced(args, log[..i], log[i]))
    || (IsExit(args, log[i]) && Closes(args, log[..i], log[i]) && HasEntry(args, log[..i]))
  }

  ghost predicate HasEntry(args: Args, log: seq<Entry>) {
    exists i :: 0 <= i < |log| && IsEntry(args, log[i])
  }

  ghost predicate HasExit(args: Args, log: seq<Entry>) {
    exists i :: 0 <= i < |log| && IsExit(args, log[i])
  }

  /** Of two posts the first is the entry and the second the exit: so there is at most one of each. */
  ghost predicate AtMostOnce(log: seq<Entry>) {
    forall i, j :: 0 <= i < j < |log| && log[i].Post? && log[j].Post? ==> !log[i].reduceOnly && log[j].reduceOnly
  }

  ghost predicate SafeLog(args: Args, log: seq<Entry>) {
    AtMostOnce(log) && forall i :: 0 <= i < |log| && log[i].Post? ==> PostOk(args, log, i)
  }

  ghost predicate NoPosts(log: seq<Entry>) {
    forall i :: 0 <= i < |log| ==> !log[i].Post?
  }

  ghost predicate NoExits(log: seq<Entry>) {
    forall i :: 0 <= i < |log| && log[i].Post? ==> !log[i].reduceOnly
  }

  /** Grows without posting anything. */
  ghost predicate Grows(log: seq<Entry>, log': seq<Entry>) {
    log <= log' && NoPosts(log'[|log|..])
  }

  /** Grows without posting or looking at positions. */
  ghost predicate GrowsQuietly(log: seq<Entry>, log': seq<Entry>) {
    Grows(log, log') && LastSeen(log') == LastSeen(log)
  }

  lemma GrowsTransitive(a: seq<Entry>, b: seq<Entry>, c: seq<Entry>)
    requires Grows(a, b) && Grows(b, c)
    ensures Grows(a, c)
  {
    forall i | 0 <= i < |c[|a|..]|
      ensures !c[|a|..][i].Post?
    {
      var k := i + |a|;
      assert c[|a|..][i] == c[k];
      if k < |b| {
        assert c[k] == b[k] == b[|a|..][i];
      } else {
        assert c[k] == c[|b|..][k - |b|];
      }
    }
  }

  lemma OldPost(log: seq<Entry>, log': seq<Entry>, i: nat)
    requires Grows(log, log') && i < |log'| && log'[i].Post?
    ensures i < |log| && log[i] == log'[i]
  {
    assert forall k :: |log| <= k < |log'| ==> log'[k] == log'[|log|..][k - |log|];
  }

  lemma {:induction false} FirstPriceStays(log: seq<Entry>, log': seq<Entry>)
    requires log <= log' && FirstPrice(log).Some?
    ensures FirstPrice(log') == FirstPrice(log)
    decreases |log'|
  {
    if |log'| == |log| {
      assert log' == log;
    } else {
      var before := log'[..|log'| - 1];
      assert before[..|log|] == log;
      FirstPriceStays(log, before);
    }
  }

  lemma {:induction false} GrowsSafe(args: Args, log: seq<Entry>, log': seq<Entry>)
    requires SafeLog(args, log) && Grows(log, log')
    ensures SafeLog(args, log') && log <= log'
    ensures NoPosts(log) ==> NoPosts(log')
    ensures NoExits(log) ==> NoExits(log')
    ensures HasEntry(args, log) ==> HasEntry(args, log')
    ensures HasExit(args, log) ==> HasExit(args, log')
    ensures FirstPrice(log).Some? ==> FirstPrice(log') == FirstPrice(log)
  {
    if FirstPrice(log).Some? {
      FirstPriceStays(log, log');
    }
    forall i | 0 <= i < |log'| && log'[i].Post?
      ensures i < |log| && log[i] == log'[i] && PostOk(args, log', i)
    {
      OldPost(log, log', i);
      assert log'[..i] == log[..i] && PostOk(args, log, i);
    }
    if HasEntry(args, log) {
      var i :| 0 <= i < |log| && IsEntry(args, log[i]);
      assert IsEntry(args, log'[i]);
    }
    if HasExit(args, log) {
      var i :| 0 <= i < |log| && IsExit(args, log[i]);
      assert IsExit(args, log'[i]);
    }
  }

  lemma {:induction false} EntrySafe(args: Args, log: seq<Entry>, e: Entry)
    requires SafeLog(args, log) && NoPosts(log) && IsEntry(args, e) && Preflight(args, log) && Priced(args, log, e)
    ensures SafeLog(args, log + [e]) && HasEntry(args, log + [e]) && NoExits(log + [e])
    ensures FirstPrice(log + [e]) == FirstPrice(log)
  {
    var log' := log + [e];
    FirstPriceStays(log, log');
    assert log'[..|log|] == log;
    assert IsEntry(args, log'[|log|]);
  }

  lemma ExitSafe(args: Args, log: seq<Entry>, e: Entry)
    requires SafeLog(args, log) && HasEntry(args, log) && NoExits(log) && IsExit(args, e) && Closes(args, log, e)
    ensures SafeLog(args, log + [e]) && HasEntry(args, log + [e]) && HasExit(args, log + [e])
  {
    var log' := log + [e];
    assert log'[..|log|] == log;
    assert IsExit(args, log'[|log|]);
    forall i | 0 <= i < |log'| && log'[i].Post?
      ensures PostOk(args, log', i)
    {
      if i < |log| {
        assert log'[..i] == log[..i] && PostOk(args, log, i);
      }
    }
    assert AtMostOnce(log') by {
      forall i, j | 0 <= i < j < |log'| && log'[i].Post? && log'[j].Post?
        ensures !log'[i].reduceOnly && log'[j].reduceOnly
      {
        assert log'[i] == log[i];
      }
    }
    var i :| 0 <= i < |log| && IsEntry(args, log[i]);
    assert IsEntry(args, log'[i]);
  }

  /** One more answered call that is not a post. */
  lemma {:induction false} OneMore(log: seq<Entry>, e: Entry)
    requires !e.Post?
    ensures Grows(log, log + [e])
    ensures LastSeen(log + [e]) == if e.PositionQuery? then Some(e.seen) else LastSeen(log)
    ensures FirstPrice(log + [e]) == if FirstPrice(log).None? && e.PriceQuery? then e.price else FirstPrice(log)
  {
    assert (log + [e])[..|log|] == log;
    assert (log + [e])[|log|..] == [e];
  }

  // ---------------------------------------------------------------------------
  // The exchange
  // ---------------------------------------------------------------------------

  /** The adversary: its answer to the n-th call is whatever these functions say, for an order also by client id. */
  class Exchange {
    const rulesAt: nat -> Reply<bool>
    const priceAt: nat -> Reply<Option<real>>
    const flagAt: nat -> Reply<bool>
    const positionsAt: nat -> Reply<seq<PositionView>>
    const orderAt: (nat, string) -> Reply<Option<OrderView>>
    var log: seq<Entry>

    constructor (rulesAt: nat -> Reply<bool>, priceAt: nat -> Reply<Option<real>>, flagAt: nat -> Reply<bool>,
                 positionsAt: nat -> Reply<seq<PositionView>>,
                 orderAt: (nat, string) -> Reply<Option<OrderView>>)
      ensures log == []
    {
      this.rulesAt, this.priceAt, this.flagAt := rulesAt, priceAt, flagAt;
      this.positionsAt, this.orderAt := positionsAt, orderAt;
      log := [];
    }

    method Info() returns (r: Reply<bool>)
      modifies this
      ensures r == rulesAt(|old(log)|) && log == old(log) + [InfoQuery]
    {
      r := rulesAt(|log|);
      log := log + [InfoQuery];
    }

    method LastPrice() returns (r: Reply<Option<real>>)
      modifies this
      ensures r == priceAt(|old(log)|) && log == old(log) + [PriceQuery(if r.Value? then r.value else None)]
    {
      r := priceAt(|log|);
      log := log + [PriceQuery(if r.Value? then r.value else None)];
    }

    method PositionMode() returns (r: Reply<bool>)
      modifies this
      ensures r == flagAt(|old(log)|) && log == old(log) + [ModeQuery(r == Value(true))]
    {
      r := flagAt(|log|);
      log := log + [ModeQuery(r == Value(true))];
    }

    method NoOpenOrders() returns (r: Reply<bool>)
      modifies this
      ensures r == flagAt(|old(log)|) && log == old(log) + [OpenOrdersQuery(r == Value(true))]
    {
      r := flagAt(|log|);
      log := log + [OpenOrdersQuery(r == Value(true))];
    }

    method PositionRisk(symbol: string) returns (r: Reply<seq<PositionView>>)
      modifies this
      ensures r == positionsAt(|old(log)|)
      ensures log == old(log) + [PositionQuery(Observe(r, symbol))]
    {
      r := positionsAt(|log|);
      log := log + [PositionQuery(Observe(r, symbol))];
    }

    method QueryOrder(clientId: string) returns (r: Reply<Option<OrderView>>)
      modifies this
      ensures r == orderAt(|old(log)|, clientId)
      ensures log == old(log) + [OrderQuery(clientId, r == Value(None))]
    {
      r := orderAt(|log|, clientId);
      log := log + [OrderQuery(clientId, r == Value(None))];
    }

    method CancelOrder(clientId: string) returns (r: Reply<Option<OrderView>>)
      modifies this
      ensures r == orderAt(|old(log)|, clientId)
      ensures log == old(log) + [CancelCall(clientId)]
    {
      r := orderAt(|log|, clientId);
      log := log + [CancelCall(clientId)];
    }

    /** A post counts as made whatever the answer is. */
    method PostOrder(clientId: string, side: Side, price: Option<real>, quantity: real, reduceOnly: bool)
      returns (r: Reply<Option<OrderView>>)
      modifies this
      ensures r == orderAt(|old(log)|, clientId)
      ensures log == old(log) + [Post(clientId, side, price, quantity, reduceOnly)]
    {
      r := orderAt(|log|, clientId);
      log := log + [Post(clientId, side, price, quantity, reduceOnly)];
    }
  }

  // ---------------------------------------------------------------------------
  // Bounded polling
  // ---------------------------------------------------------------------------

  /** The exchange does not know the order, or does not say. */
  predicate Unknown(reply: Reply<Option<OrderView>>) {
    reply.Error? || reply == Value(None)
  }

  /** The answer names another order, or a status nobody knows. */
  predicate Foreign(reply: Reply<Option<OrderView>>, symbol: string, clientId: string) {
    reply.Value? && reply.value.Some? && !ValidateOrder(reply.value.value, symbol, clientId).Done?
  }

  /** Questions about the order are never interrupted, and never answered with another one. */
  ghost predicate Readable(ex: Exchange, symbol: string, clientId: string) {
    forall n: nat :: !ex.orderAt(n, clientId).Interrupt? && !Foreign(ex.orderAt(n, clientId), symbol, clientId)
  }

  /** The k answers from call n on do not know the order. */
  ghost predicate AllUnknown(ex: Exchange, clientId: string, n: nat, k: nat) {
    forall j :: n <= j < n + k ==> Unknown(ex.orderAt(j, clientId))
  }

  /** Ask up to `attempts` times; the first answer that says something decides. */
  method QueryUntilKnown(ex: Exchange, symbol: string, clientId: string, attempts: nat)
    returns (r: Checked<Option<OrderView>>)
    modifies ex
    ensures GrowsQuietly(old(ex.log), ex.log)
    ensures attempts == 1 ==> (r == Done(None) <==> Unknown(ex.orderAt(|old(ex.log)|, clientId)))
    ensures attempts > 0 && Foreign(ex.orderAt(|old(ex.log)|, clientId), symbol, clientId) ==> r.Raised?
    ensures Readable(ex, symbol, clientId) ==> r.Done?
    ensures r.Done? && r.value.Some? ==>
              && ValidateOrder(r.value.value, symbol, clientId).Done?
              && r.value.value.symbol == symbol && r.value.value.clientId == clientId
              && r.value.value.status != Unrecognized
    ensures r == Done(None) ==>
              |ex.log| == |old(ex.log)| + attempts && AllUnknown(ex, clientId, |old(ex.log)|, attempts)
    ensures r != Done(None) ==>
              && |old(ex.log)| < |ex.log| <= |old(ex.log)| + attempts
              && AllUnknown(ex, clientId, |old(ex.log)|, |ex.log| - 1 - |old(ex.log)|)
              && !Unknown(ex.orderAt(|ex.log| - 1, clientId))
              && (r.Done? ==> ex.orderAt(|ex.log| - 1, clientId) == Value(r.value))
              && (!r.Done? ==>
                    || ex.orderAt(|ex.log| - 1, clientId).Interrupt?
                    || Foreign(ex.orderAt(|ex.log| - 1, clientId), symbol, clientId))
  {
    hide NoPosts, LastSeen;
    GrowsRefl(ex.log);
    for k := 0 to attempts
      invariant GrowsQuietly(old(ex.log), ex.log)
      invariant |ex.log| == |old(ex.log)| + k && AllUnknown(ex, clientId, |old(ex.log)|, k)
    {
      ghost var before := ex.log;
      var reply := ex.QueryOrder(clientId);
      OneMore(before, OrderQuery(clientId, reply == Value(None)));
      GrowsTransitive(old(ex.log), before, ex.log);
      if reply.Interrupt? {
        return Interrupted;
      }
      if reply.Value? && reply.value.Some? {
        var _ :- ValidateOrder(reply.value.value, symbol, clientId);
        return Done(reply.value);
      }
    }
    return Done(None);
  }

  lemma GrowsRefl(log: seq<Entry>)
    ensures GrowsQuietly(log, log)
  {
    assert log[|log|..] == [];
  }

  /** The k answers from call n on do not show an order that has ended. */
  ghost predicate NeverEnded(ex: Exchange, clientId: string, n: nat, k: nat) {
    forall j :: n <= j < n + k ==> !Ended(ex.orderAt(j, clientId))
  }

  predicate Ended(reply: Reply<Option<OrderView>>) {
    reply.Value? && reply.value.Some? && reply.value.value.status.Terminal()
  }

  /** Ask up to `attempts` times until the order is seen to have ended. */
  method QueryUntilTerminal(ex: Exchange, symbol: string, clientId: string, attempts: nat)
    returns (r: Checked<Option<OrderView>>)
    modifies ex
    ensures GrowsQuietly(old(ex.log), ex.log)
    ensures Readable(ex, symbol, clientId) ==> r.Done?
    ensures r.Done? && r.value.Some? ==>
              && r.value.value.status.Terminal() && ValidateOrder(r.value.value, symbol, clientId).Done?
              && |ex.log| > |old(ex.log)| && ex.orderAt(|ex.log| - 1, clientId) == Value(r.value)
    ensures r == Done(None) ==>
              |ex.log| == |old(ex.log)| + attempts && NeverEnded(ex, clientId, |old(ex.log)|, attempts)
  {
    hide NoPosts, LastSeen, Readable;
    GrowsRefl(ex.log);
    for k := 0 to attempts
      invariant GrowsQuietly(old(ex.log), ex.log)
      invariant |ex.log| == |old(ex.log)| + k && NeverEnded(ex, clientId, |old(ex.log)|, k)
    {
      ghost var before := ex.log;
      var known := QueryUntilKnown(ex, symbol, clientId, 1);
      GrowsTransitive(old(ex.log), before, ex.log);
      var order :- known;
      if order.Some? && order.value.status.Terminal() {
        return Done(order);
      }
    }
    return Done(None);
  }

  /** One look at the position; errors are not swallowed here. */
  method LookAtPosition(ex: Exchange, symbol: string) returns (r: Checked<Option<PositionView>>)
    modifies ex
    ensures Grows(old(ex.log), ex.log)
    ensures forall p :: Observe(ex.positionsAt(|old(ex.log)|), symbol) == Holding(p) <==> r == Done(Some(p))
    ensures Observe(ex.positionsAt(|old(ex.log)|), symbol) == Flat <==> r == Done(None)
    ensures |ex.log| == |old(ex.log)| + 1 && r != Raised(FilledPositionNotVisible)
    ensures r == Done(None) ==> LastSeen(ex.log) == Some(Flat)
    ensures r.Done? && r.value.Some? ==>
              && LastSeen(ex.log) == Some(Holding(r.value.value))
              && r.value.value.amount.Some? && r.value.value.amount.value != 0.0
  {
    hide NoPosts, LastSeen;
    ghost var before := ex.log;
    var reply := ex.PositionRisk(symbol);
    OneMore(before, PositionQuery(Observe(reply, symbol)));
    if reply.Interrupt? {
      return Interrupted;
    }
    if reply.Value? {
      ActiveHaveAmounts(reply.value, symbol);
      ActiveExactly(reply.value, symbol);
    }
    match Observe(reply, symbol)
    case Flat => return Done(None);
    case Holding(p) => return Done(Some(p));
    case Unusable(code) => return Raised(code);
  }

  ghost predicate SeenFlat(ex: Exchange, symbol: string, n: nat) {
    Observe(ex.positionsAt(n), symbol) == Flat
  }

  ghost predicate SeenHolding(ex: Exchange, symbol: string, n: nat) {
    Observe(ex.positionsAt(n), symbol).Holding?
  }

  /** Look up to `attempts` times until there is a position. */
  method QueryUntilPosition(ex: Exchange, symbol: string, attempts: nat) returns (r: Checked<Option<PositionView>>)
    requires attempts > 0
    modifies ex
    ensures Grows(old(ex.log), ex.log) && r != Raised(FilledPositionNotVisible)
    ensures r == Done(None) ==>
              && LastSeen(ex.log) == Some(Flat)
              && forall j :: |old(ex.log)| <= j < |old(ex.log)| + attempts ==> SeenFlat(ex, symbol, j)
    ensures r.Done? && r.value.Some? ==>
              && LastSeen(ex.log) == Some(Holding(r.value.value))
              && r.value.value.amount.Some? && r.value.value.amount.value != 0.0
  {
    hide NoPosts, LastSeen;
    GrowsRefl(ex.log);
    for k := 0 to attempts
      invariant Grows(old(ex.log), ex.log)
      invariant |ex.log| == |old(ex.log)| + k
      invariant forall j :: |old(ex.log)| <= j < |old(ex.log)| + k ==> SeenFlat(ex, symbol, j)
      invariant k > 0 ==> LastSeen(ex.log) == Some(Flat)
    {
      ghost var before := ex.log;
      var look := LookAtPosition(ex, symbol);
      GrowsTransitive(old(ex.log), before, ex.log);
      var position :- look;
      if position.Some? {
        return Done(position);
      }
    }
    return Done(None);
  }

  /** Look up to `attempts` times until the account is flat. */
  method QueryUntilFlat(ex: Exchange, symbol: string, attempts: nat) returns (r: Checked<Option<PositionView>>)
    requires attempts > 0
    modifies ex
    ensures Grows(old(ex.log), ex.log)
    ensures r == Done(None) ==> LastSeen(ex.log) == Some(Flat)
    ensures r.Done? && r.value.Some? ==>
              forall j :: |old(ex.log)| <= j < |old(ex.log)| + attempts ==> SeenHolding(ex, symbol, j)
  {
    hide NoPosts, LastSeen;
    GrowsRefl(ex.log);
    var position := None;
    for k := 0 to attempts
      invariant Grows(old(ex.log), ex.log)
      invariant |ex.log| == |old(ex.log)| + k
      invariant forall j :: |old(ex.log)| <= j < |old(ex.log)| + k ==> SeenHolding(ex, symbol, j)
      invariant k > 0 ==> position.Some?
    {
      ghost var before := ex.log;
      var look := LookAtPosition(ex, symbol);
      GrowsTransitive(old(ex.log), before, ex.log);
      position :- look;
      if position.None? {
        return Done(None);
      }
    }
    return Done(position);
  }

  // ---------------------------------------------------------------------------
  // The main path
  // ---------------------------------------------------------------------------

  datatype Prepared = Prepared(price: real, quantity: real, reference: real)

  /** From call n on: the rules are there, the entry normalises, and its price keeps its distance. */
  ghost predicate PricesOk(ex: Exchange, args: Args, n: nat) {
    && ex.rulesAt(n) == Value(true) && EntryIntent(args).Some?
    && ex.priceAt(n + 1).Value? && ex.priceAt(n + 1).value.Some?
    && PriceAllowed(args, ex.priceAt(n + 1).value.value, EntryIntent(args).value.0)
  }

  /** From call n on: one-way mode, no open orders, flat, and the client id unused. */
  ghost predicate IdleAt(ex: Exchange, args: Args, n: nat) {
    && ex.flagAt(n) == Value(true) && ex.flagAt(n + 1) == Value(true)
    && SeenFlat(ex, args.symbol, n + 2) && ex.orderAt(n + 3, args.clientId) == Value(None)
  }

  /** Rules, normalised entry and reference price, with the price checks of the scenario. */
  method Prepare(ex: Exchange, args: Args) returns (r: Checked<Prepared>)
    requires FirstPrice(ex.log).None?
    modifies ex
    ensures Grows(old(ex.log), ex.log)
    ensures r.Done? <==> PricesOk(ex, args, |old(ex.log)|)
    ensures r.Done? ==>
              && |ex.log| == |old(ex.log)| + 2
              && FirstPrice(ex.log) == Some(r.value.reference)
              && EntryIntent(args) == Some((r.value.price, r.value.quantity))
              && PriceAllowed(args, r.value.reference, r.value.price)
  {
    hide NoPosts, LastSeen, FirstPrice, PriceAllowed;
    ghost var log0 := ex.log;
    var rules := ex.Info();
    OneMore(log0, InfoQuery);
    if rules != Value(true) {
      return if rules.Interrupt? then Interrupted
             else if rules.Error? then Raised(CallFailed)
             else Raised(ExchangeInfoInvalid);
    }
    var intent := args.normalize(Sell, args.limitPrice, args.quantity);
    if intent.None? {
      return Raised(SymbolRuleViolation);
    }
    var (price, quantity) := intent.value;
    ghost var log1 := ex.log;
    var kline := ex.LastPrice();
    OneMore(log1, PriceQuery(if kline.Value? then kline.value else None));
    GrowsTransitive(log0, log1, ex.log);
    if !kline.Value? {
      return if kline.Interrupt? then Interrupted else Raised(CallFailed);
    }
    if kline.value.None? {
      return Raised(ReferencePriceUnavailable);
    }
    var reference := kline.value.value;
    PriceCheck(args, reference, price);
    if !args.fillAndExit {
      if price < reference * (1.0 + args.minDistanceBps / 10000.0) {
        return Raised(MarketableEntryRefused);
      }
    } else {
      if price > reference || price < reference * (1.0 - args.maxFillDistanceBps / 10000.0) {
        return Raised(FillPriceOutOfRange);
      }
    }
    return Done(Prepared(price, quantity, reference));
  }

  lemma PriceCheck(args: Args, reference: real, price: real)
    ensures !args.fillAndExit ==>
              (PriceAllowed(args, reference, price) <==> !(price < reference * (1.0 + args.minDistanceBps / 10000.0)))
    ensures args.fillAndExit ==>
              (PriceAllowed(args, reference, price)
               <==> !(price > reference || price < reference * (1.0 - args.maxFillDistanceBps / 10000.0)))
  {
  }

  method CheckIdle(ex: Exchange, args: Args) returns (r: Checked<()>)
    modifies ex
    ensures Grows(old(ex.log), ex.log)
    ensures r.Done? <==> IdleAt(ex, args, |old(ex.log)|)
    ensures r.Done? ==> Preflight(args, ex.log)
  {
    hide NoPosts, LastSeen;
    ghost var log0 := ex.log;
    var mode := ex.PositionMode();
    ghost var log1 := ex.log;
    OneMore(log0, ModeQuery(mode == Value(true)));
    if mode != Value(true) {
      return if mode.Interrupt? then Interrupted
             else if mode.Error? then Raised(CallFailed)
             else Raised(HedgeModeUnsupported);
    }
    var idle := ex.NoOpenOrders();
    ghost var log2 := ex.log;
    OneMore(log1, OpenOrdersQuery(idle == Value(true)));
    GrowsTransitive(log0, log1, log2);
    if idle != Value(true) {
      return if idle.Interrupt? then Interrupted
             else if idle.Error? then Raised(CallFailed)
             else Raised(PreflightOpenOrders);
    }
    var reply := ex.PositionRisk(args.symbol);
    ghost var log3 := ex.log;
    OneMore(log2, PositionQuery(Observe(reply, args.symbol)));
    GrowsTransitive(log0, log2, log3);
    var seen := Observe(reply, args.symbol);
    if seen != Flat {
      return if reply.Interrupt? then Interrupted
             else if seen.Unusable? then Raised(seen.code)
             else Raised(PreflightPosition);
    }
    var order := ex.QueryOrder(args.clientId);
    OneMore(log3, OrderQuery(args.clientId, order == Value(None)));
    GrowsTransitive(log0, log3, ex.log);
    if order != Value(None) {
      return if order.Interrupt? then Interrupted
             else if order.Error? then Raised(CallFailed)
             else Raised(ClientOrderIdReused);
    }
    return Done(());
  }

  function EntryPost(args: Args, plan: Prepared): Entry {
    Post(args.clientId, Sell, Some(plan.price), plan.quantity, false)
  }

  /** Post the entry once; when the answer is unclear, ask about it but never post again. */
  method SubmitEntry(ex: Exchange, args: Args, plan: Prepared) returns (r: Checked<OrderView>)
    modifies ex
    ensures GrowsQuietly(old(ex.log) + [EntryPost(args, plan)], ex.log)
  {
    hide NoPosts, LastSeen;
    var reply := ex.PostOrder(args.clientId, Sell, Some(plan.price), plan.quantity, false);
    GrowsRefl(ex.log);
    if reply.Interrupt? {
      return Interrupted;
    }
    if reply.Value? && reply.value.Some? && ValidateOrder(reply.value.value, args.symbol, args.clientId).Done? {
      return Done(reply.value.value);
    }
    var submitted :- QueryUntilKnown(ex, args.symbol, args.clientId, args.attempts);
    if submitted.None? {
      return Raised(SubmitUnknown);
    }
    return Done(submitted.value);
  }

  predicate IsKnown(args: Args, reply: Reply<Option<OrderView>>) {
    reply.Value? && reply.value.Some? && ValidateOrder(reply.value.value, args.symbol, args.clientId).Done?
  }

  /** The answer is this order, and it has ended; filled, if it must be. */
  predicate EndedAs(reply: Reply<Option<OrderView>>, symbol: string, clientId: string, mustFill: bool) {
    && reply.Value? && reply.value.Some?
    && reply.value.value.symbol == symbol && reply.value.value.clientId == clientId
    && reply.value.value.status in {Canceled, Expired, ExpiredInMatch, Filled, Rejected}
    && (mustFill ==> reply.value.value.status == Filled)
  }

  /** Some call from n up to m was answered so. */
  ghost predicate SeenEnd(ex: Exchange, symbol: string, clientId: string, n: nat, m: nat, mustFill: bool) {
    exists k: nat :: n <= k < m && EndedAs(ex.orderAt(k, clientId), symbol, clientId, mustFill)
  }

  lemma EndedIs(ex: Exchange, symbol: string, clientId: string, n: nat, k: nat, o: OrderView)
    requires n <= k && ex.orderAt(k, clientId) == Value(Some(o))
    requires ValidateOrder(o, symbol, clientId).Done? && !o.status.Open()
    ensures EndedAs(ex.orderAt(k, clientId), symbol, clientId, o.status == Filled)
    ensures SeenEnd(ex, symbol, clientId, n, k + 1, false)
  {
    assert EndedAs(ex.orderAt(k, clientId), symbol, clientId, false);
  }

  lemma SeenEndWidens(
    ex: Exchange, symbol: string, clientId: string, n: nat, m: nat, n': nat, m': nat, mustFill: bool)
    requires SeenEnd(ex, symbol, clientId, n, m, mustFill) && n' <= n && m <= m'
    ensures SeenEnd(ex, symbol, clientId, n', m', mustFill)
  {
    var k: nat :| n <= k < m && EndedAs(ex.orderAt(k, clientId), symbol, clientId, mustFill);
    assert n' <= k < m';
  }

  /** A cancel of the order was sent after the first n calls. */
  ghost predicate HasCancel(log: seq<Entry>, n: nat, clientId: string) {
    exists k :: n <= k < |log| && log[k] == CancelCall(clientId)
  }

  lemma CancelStays(log: seq<Entry>, log': seq<Entry>, n: nat, m: nat, clientId: string)
    requires HasCancel(log, m, clientId) && log <= log' && n <= m
    ensures HasCancel(log', n, clientId)
  {
    var k :| m <= k < |log| && log[k] == CancelCall(clientId);
    assert log'[k] == CancelCall(clientId);
  }

  /** The answer is the entry, with a status that is still open. */
  predicate ShowsOpen(args: Args, reply: Reply<Option<OrderView>>) {
    IsKnown(args, reply) && reply.value.value.status in {New, PartiallyFilled, PendingCancel}
  }

  /** The first answer about the entry that says anything, among `attempts` from call n on, shows it open. */
  ghost predicate FoundOpen(ex: Exchange, args: Args, n: nat) {
    exists k :: 0 <= k < args.attempts && AllUnknown(ex, args.clientId, n, k)
      && ShowsOpen(args, ex.orderAt(n + k, args.clientId))
  }

  /** All answers about the entry show it open. */
  ghost predicate StaysOpen(ex: Exchange, args: Args) {
    forall n: nat :: ShowsOpen(args, ex.orderAt(n, args.clientId))
  }

  lemma FoundOpenIs(ex: Exchange, args: Args, n: nat, k: nat)
    requires k < args.attempts && AllUnknown(ex, args.clientId, n, k)
    requires !Unknown(ex.orderAt(n + k, args.clientId)) && FoundOpen(ex, args, n)
    ensures ShowsOpen(args, ex.orderAt(n + k, args.clientId))
  {
    var k' :| 0 <= k' < args.attempts && AllUnknown(ex, args.clientId, n, k')
              && ShowsOpen(args, ex.orderAt(n + k', args.clientId));
  }

  lemma NotAllUnknown(ex: Exchange, args: Args, n: nat)
    requires FoundOpen(ex, args, n)
    ensures !AllUnknown(ex, args.clientId, n, args.attempts)
  {
    var k :| 0 <= k < args.attempts && AllUnknown(ex, args.clientId, n, k)
             && ShowsOpen(args, ex.orderAt(n + k, args.clientId));
    assert !Unknown(ex.orderAt(n + k, args.clientId));
  }

  lemma StaysFoundOpen(ex: Exchange, args: Args, n: nat)
    requires args.attempts > 0 && StaysOpen(ex, args)
    ensures FoundOpen(ex, args, n)
  {
    assert AllUnknown(ex, args.clientId, n, 0) && ShowsOpen(args, ex.orderAt(n + 0, args.clientId));
  }

  /** Follow the entry to a known end: filled, or cancelled; fill-and-exit insists on a fill. */
  method ResolveEntry(ex: Exchange, args: Args) returns (r: Checked<OrderView>)
    modifies ex
    ensures GrowsQuietly(old(ex.log), ex.log)
    ensures r.Done? ==> r.value.status.Terminal()
    ensures r.Done? && args.fillAndExit ==> r.value.status == Filled
    ensures r.Done? ==> SeenEnd(ex, args.symbol, args.clientId, |old(ex.log)|, |ex.log|, args.fillAndExit)
    ensures !args.fillAndExit && FoundOpen(ex, args, |old(ex.log)|) ==>
              HasCancel(ex.log, |old(ex.log)|, args.clientId)
    ensures args.attempts > 0 && StaysOpen(ex, args) ==> HasCancel(ex.log, |old(ex.log)|, args.clientId)
  {
    hide NoPosts, LastSeen;
    ghost var n := |ex.log|;
    ghost var at := n;
    EntryAnswers(ex, args, n);
    hide FoundOpen, StaysOpen, AllUnknown, NeverEnded, Readable;
    var first := QueryUntilKnown(ex, args.symbol, args.clientId, args.attempts);
    ghost var log1 := ex.log;
    if first != Done(None) {
      KnownAnswer(ex, args, n, |log1| - 1 - n);
    }
    var known :- first;
    if known.None? {
      return Raised(QueryUnknown);
    }
    var queried := known.value;
    at := |log1| - 1;
    if args.fillAndExit && queried.status.Open() {
      var terminal := QueryUntilTerminal(ex, args.symbol, args.clientId, args.attempts);
      GrowsTransitive(old(ex.log), log1, ex.log);
      var filled :- terminal;
      if filled.Some? {
        queried := filled.value;
        at := |ex.log| - 1;
        LaterAnswer(ex, args, at);
      }
    }
    ghost var log2 := ex.log;
    if queried.status.Open() {
      var canceled := CancelEntry(ex, args);
      GrowsTransitive(old(ex.log), log2, ex.log);
      CancelStays(ex.log, ex.log, n, |log2|, args.clientId);
      queried :- canceled;
      SeenEndWidens(ex, args.symbol, args.clientId, |log2|, |ex.log|, n, |ex.log|, false);
      if args.fillAndExit {
        return Raised(EntryNotFilled);
      }
    } else if args.fillAndExit && queried.status != Filled {
      return Raised(EntryNotFilled);
    } else {
      assert EndedAs(ex.orderAt(at, args.clientId), args.symbol, args.clientId, args.fillAndExit);
    }
    return Done(queried);
  }

  /** Whenever the entry stays open, polling for its end fails and it is found open. */
  lemma EntryAnswers(ex: Exchange, args: Args, n: nat)
    ensures FoundOpen(ex, args, n) ==> !AllUnknown(ex, args.clientId, n, args.attempts)
    ensures args.attempts > 0 && StaysOpen(ex, args) ==> FoundOpen(ex, args, n)
    ensures StaysOpen(ex, args) ==> Readable(ex, args.symbol, args.clientId)
  {
    if FoundOpen(ex, args, n) {
      NotAllUnknown(ex, args, n);
    }
    if args.attempts > 0 && StaysOpen(ex, args) {
      StaysFoundOpen(ex, args, n);
    }
    assert forall j: nat :: ShowsOpen(args, ex.orderAt(j, args.clientId)) ==>
             !ex.orderAt(j, args.clientId).Interrupt?
             && !Foreign(ex.orderAt(j, args.clientId), args.symbol, args.clientId);
  }

  lemma KnownAnswer(ex: Exchange, args: Args, n: nat, k: nat)
    requires k < args.attempts && AllUnknown(ex, args.clientId, n, k) && !Unknown(ex.orderAt(n + k, args.clientId))
    ensures FoundOpen(ex, args, n) ==> ShowsOpen(args, ex.orderAt(n + k, args.clientId))
  {
    if FoundOpen(ex, args, n) {
      FoundOpenIs(ex, args, n, k);
    }
  }

  lemma SomeKnown(ex: Exchange, args: Args, n: nat, k: nat)
    requires k < args.attempts && !Unknown(ex.orderAt(n + k, args.clientId))
    ensures !AllUnknown(ex, args.clientId, n, args.attempts)
  {
  }

  lemma LaterAnswer(ex: Exchange, args: Args, n: nat)
    ensures StaysOpen(ex, args) ==> ShowsOpen(args, ex.orderAt(n, args.clientId))
  {
  }

  /** Whatever the answers, the cancel is sent. */
  method CancelEntry(ex: Exchange, args: Args) returns (r: Checked<OrderView>)
    modifies ex
    ensures GrowsQuietly(old(ex.log), ex.log)
    ensures HasCancel(ex.log, |old(ex.log)|, args.clientId)
    ensures r.Done? ==> r.value.status.Terminal()
    ensures r.Done? ==> SeenEnd(ex, args.symbol, args.clientId, |old(ex.log)|, |ex.log|, false)
  {
    hide NoPosts, LastSeen;
    ghost var log0 := ex.log;
    var reply := ex.CancelOrder(args.clientId);
    OneMore(log0, CancelCall(args.clientId));
    ghost var log1 := ex.log;
    assert log1[|log0|] == CancelCall(args.clientId);
    var canceled: OrderView;
    match reply {
      case Interrupt => return Interrupted;
      case Error =>
        var terminal := QueryUntilTerminal(ex, args.symbol, args.clientId, args.attempts);
        GrowsTransitive(log0, log1, ex.log);
        var known :- terminal;
        if known.None? {
          return Raised(CancelUnknown);
        }
        canceled := known.value;
        assert EndedAs(ex.orderAt(|ex.log| - 1, args.clientId), args.symbol, args.clientId, false);
      case Value(None) => return Raised(CallFailed);
      case Value(Some(o)) =>
        canceled := o;
    }
    var status :- ValidateOrder(canceled, args.symbol, args.clientId);
    if status.Open() {
      ghost var log2 := ex.log;
      var terminal := QueryUntilTerminal(ex, args.symbol, args.clientId, args.attempts);
      GrowsTransitive(log0, log2, ex.log);
      var known :- terminal;
      if known.None? {
        return Raised(CancelUnknown);
      }
      canceled := known.value;
      assert EndedAs(ex.orderAt(|ex.log| - 1, args.clientId), args.symbol, args.clientId, false);
    } else if reply.Value? {
      assert EndedAs(ex.orderAt(|log0|, args.clientId), args.symbol, args.clientId, false);
    }
    return Done(canceled);
  }

  method FindPosition(ex: Exchange, args: Args, entry: OrderView) returns (r: Checked<Option<PositionView>>)
    requires args.attempts > 0
    modifies ex
    ensures Grows(old(ex.log), ex.log)
    ensures r == Done(None) ==> LastSeen(ex.log) == Some(Flat)
    ensures r.Done? && r.value.Some? ==>
              && LastSeen(ex.log) == Some(Holding(r.value.value))
              && r.value.value.amount.Some? && r.value.value.amount.value != 0.0
    ensures args.fillAndExit ==> r != Done(None)
    ensures r == Raised(FilledPositionNotVisible) ==>
              forall j :: |old(ex.log)| <= j < |old(ex.log)| + args.attempts ==> SeenFlat(ex, args.symbol, j)
  {
    hide NoPosts, LastSeen;
    GrowsRefl(ex.log);
    var filled := args.fillAndExit;
    if !filled {
      filled :- HasFill(entry);
    }
    if filled {
      r := QueryUntilPosition(ex, args.symbol, args.attempts);
      if r == Done(None) {
        return Raised(FilledPositionNotVisible);
      }
    } else {
      r := LookAtPosition(ex, args.symbol);
    }
  }

  /** Post the reduce-only exit once, then follow it until the account is seen flat. */
  method SubmitExit(ex: Exchange, args: Args, p: PositionView, reference: real)
    returns (r: Checked<()>, attempted: bool, ghost exit: Entry)
    requires args.attempts > 0 && FirstPrice(ex.log) == Some(reference)
    requires LastSeen(ex.log) == Some(Holding(p)) && p.amount.Some? && p.amount.value != 0.0
    modifies ex
    ensures !attempted ==> ex.log == old(ex.log) && !r.Done?
    ensures attempted <==>
              (args.fillAndExit ==> p.amount.value < 0.0) && ExitIntent(args, p, reference).Some?
    ensures attempted ==> IsExit(args, exit) && Closes(args, old(ex.log), exit) && Grows(old(ex.log) + [exit], ex.log)
    ensures r.Done? ==> LastSeen(ex.log) == Some(Flat)
    ensures r.Done? ==>
              SeenEnd(ex, args.symbol, ExitId(args.clientId), |old(ex.log)|, |ex.log|, args.fillAndExit)
  {
    hide NoPosts, LastSeen;
    attempted, exit := false, InfoQuery;
    var amount := p.amount.value;
    if args.fillAndExit && amount >= 0.0 {
      return Raised(PositionDirectionMismatch), attempted, exit;
    }
    var mark := if p.markPrice.Some? then p.markPrice.value else reference;
    var side := if amount < 0.0 then Buy else Sell;
    var intent := args.normalize(side, mark, if amount < 0.0 then -amount else amount);
    if intent.None? {
      return Raised(SymbolRuleViolation), attempted, exit;
    }
    var id := ExitId(args.clientId);
    attempted := true;
    exit := Post(id, side, None, intent.value.1, true);
    var reply := ex.PostOrder(id, side, None, intent.value.1, true);
    ghost var log1 := ex.log;
    GrowsRefl(log1);
    var result := FollowExit(ex, args, reply);
    r := result;
  }

  method FollowExit(ex: Exchange, args: Args, reply: Reply<Option<OrderView>>) returns (r: Checked<()>)
    requires args.attempts > 0 && ex.log != []
    requires reply == ex.orderAt(|ex.log| - 1, ExitId(args.clientId))
    modifies ex
    ensures Grows(old(ex.log), ex.log)
    ensures r.Done? ==> LastSeen(ex.log) == Some(Flat)
    ensures r.Done? ==>
              SeenEnd(ex, args.symbol, ExitId(args.clientId), |old(ex.log)| - 1, |ex.log|, args.fillAndExit)
  {
    hide NoPosts, LastSeen;
    GrowsRefl(ex.log);
    var id := ExitId(args.clientId);
    ghost var at := |ex.log| - 1;
    var order: OrderView;
    match reply {
      case Interrupt => return Interrupted;
      case Error =>
        var known :- QueryUntilKnown(ex, args.symbol, id, args.attempts);
        if known.None? {
          return Raised(ExitSubmitUnknown);
        }
        order := known.value;
        at := |ex.log| - 1;
      case Value(None) => return Raised(CallFailed);
      case Value(Some(o)) =>
        order := o;
    }
    var status :- ValidateOrder(order, args.symbol, id);
    ghost var log1 := ex.log;
    if status.Open() {
      var terminal := QueryUntilTerminal(ex, args.symbol, id, args.attempts);
      GrowsTransitive(old(ex.log), log1, ex.log);
      var known :- terminal;
      if known.None? {
        return Raised(ExitNotTerminal);
      }
      status := known.value.status;
      at := |ex.log| - 1;
    }
    if args.fillAndExit && status != Filled {
      return Raised(ExitNotFilled);
    }
    assert EndedAs(ex.orderAt(at, id), args.symbol, id, args.fillAndExit);
    ghost var log2 := ex.log;
    var flat := QueryUntilFlat(ex, args.symbol, args.attempts);
    GrowsTransitive(old(ex.log), log2, ex.log);
    var remaining :- flat;
    if remaining.Some? {
      return Raised(PositionNotFlat);
    }
    return Done(());
  }

  /** The entry, and the exit if there was one, were seen to have ended; filled in the fill-and-exit scenario. */
  ghost predicate OrdersEnded(ex: Exchange, args: Args, exitAttempted: bool, n: nat) {
    && SeenEnd(ex, args.symbol, args.clientId, 0, n, args.fillAndExit)
    && (exitAttempted ==> SeenEnd(ex, args.symbol, ExitId(args.clientId), 0, n, args.fillAndExit))
  }

  /** Everything up to the result; posts nothing unless it says that writing started. */
  method MainPath(ex: Exchange, args: Args)
    returns (r: Checked<RunResult>, writeStarted: bool, exitAttempted: bool, reference: real)
    requires args.attempts > 0 && NoPosts(ex.log) && FirstPrice(ex.log).None?
    modifies ex
    ensures SafeLog(args, ex.log)
    ensures !writeStarted ==> NoPosts(ex.log)
    ensures writeStarted ==> args.execute && HasEntry(args, ex.log) && FirstPrice(ex.log) == Some(reference)
    ensures !exitAttempted ==> NoExits(ex.log)
    ensures r == Done(ExecutionOk) ==> writeStarted && LastSeen(ex.log) == Some(Flat)
    ensures r == Done(ExecutionOk) && args.fillAndExit ==> HasExit(args, ex.log)
    ensures r == Done(ExecutionOk) ==> OrdersEnded(ex, args, exitAttempted, |ex.log|)
    ensures r == Done(DryRunOk) <==> !args.execute && PricesOk(ex, args, |old(ex.log)|)
    ensures writeStarted <==>
              args.execute && PricesOk(ex, args, |old(ex.log)|) && IdleAt(ex, args, |old(ex.log)| + 2)
  {
    writeStarted, exitAttempted, reference := false, false, 0.0;
    ghost var log0 := ex.log;
    SilentIsSafe(args, log0);
    hide NoPosts, NoExits, LastSeen, SafeLog, HasEntry, HasExit, Grows, Preflight, Closes, IsEntry, IsExit;
    hide OrdersEnded, FirstPrice, PriceAllowed, Priced, EntryIntent, PricesOk, IdleAt;
    var prepared := Prepare(ex, args);
    GrowsSafe(args, log0, ex.log);
    var plan :- prepared;
    reference := plan.reference;
    if !args.execute {
      return Done(DryRunOk), writeStarted, exitAttempted, reference;
    }
    ghost var log1 := ex.log;
    var idle := CheckIdle(ex, args);
    GrowsSafe(args, log1, ex.log);
    var _ :- idle;
    writeStarted := true;
    r, exitAttempted := Trade(ex, args, plan);
  }

  /** From the entry post on: submit, resolve, look, exit. */
  method Trade(ex: Exchange, args: Args, plan: Prepared) returns (r: Checked<RunResult>, exitAttempted: bool)
    requires args.attempts > 0 && NoPosts(ex.log) && SafeLog(args, ex.log) && Preflight(args, ex.log)
    requires FirstPrice(ex.log) == Some(plan.reference) && PriceAllowed(args, plan.reference, plan.price)
    requires EntryIntent(args) == Some((plan.price, plan.quantity))
    modifies ex
    ensures SafeLog(args, ex.log) && HasEntry(args, ex.log) && FirstPrice(ex.log) == Some(plan.reference)
    ensures !exitAttempted ==> NoExits(ex.log)
    ensures r == Done(ExecutionOk) ==> LastSeen(ex.log) == Some(Flat)
    ensures r == Done(ExecutionOk) && args.fillAndExit ==> HasExit(args, ex.log)
    ensures r != Done(DryRunOk)
    ensures r == Done(ExecutionOk) ==> OrdersEnded(ex, args, exitAttempted, |ex.log|)
  {
    hide NoPosts, NoExits, LastSeen, SafeLog, HasEntry, HasExit, Grows, Preflight, Closes, IsEntry, IsExit;
    hide SeenEnd, FirstPrice, PriceAllowed, Priced, EntryIntent, PricesOk, IdleAt;
    exitAttempted := false;
    ghost var log2 := ex.log;
    EntryIsEntry(args, log2, plan);
    EntrySafe(args, log2, EntryPost(args, plan));
    var entry := SubmitEntry(ex, args, plan);
    GrowsSafe(args, log2 + [EntryPost(args, plan)], ex.log);
    var _ :- entry;
    ghost var log3 := ex.log;
    var resolved := ResolveEntry(ex, args);
    GrowsSafe(args, log3, ex.log);
    var order :- resolved;
    ghost var log4 := ex.log;
    var found := FindPosition(ex, args, order);
    GrowsSafe(args, log4, ex.log);
    var position :- found;
    if position.None? {
      SeenEndWidens(ex, args.symbol, args.clientId, |log3|, |log4|, 0, |ex.log|, args.fillAndExit);
      return Done(ExecutionOk), exitAttempted;
    }
    ghost var log5 := ex.log;
    var exited;
    ghost var exit;
    exited, exitAttempted, exit := SubmitExit(ex, args, position.value, plan.reference);
    if exitAttempted {
      FirstPriceStays(log5, log5 + [exit]);
      ExitSafe(args, log5, exit);
      GrowsSafe(args, log5 + [exit], ex.log);
    }
    var _ :- exited;
    SeenEndWidens(ex, args.symbol, args.clientId, |log3|, |log4|, 0, |ex.log|, args.fillAndExit);
    SeenEndWidens(ex, args.symbol, ExitId(args.clientId), |log5|, |ex.log|, 0, |ex.log|, args.fillAndExit);
    r := Done(ExecutionOk);
  }

  lemma SilentIsSafe(args: Args, log: seq<Entry>)
    requires NoPosts(log)
    ensures SafeLog(args, log) && NoExits(log)
  {
  }

  lemma {:induction false} EntryIsEntry(args: Args, log: seq<Entry>, plan: Prepared)
    requires FirstPrice(log) == Some(plan.reference) && PriceAllowed(args, plan.reference, plan.price)
    requires EntryIntent(args) == Some((plan.price, plan.quantity))
    ensures IsEntry(args, EntryPost(args, plan)) && Priced(args, log, EntryPost(args, plan))
  {
  }

  // ---------------------------------------------------------------------------
  // The cleanup and the whole run
  // ---------------------------------------------------------------------------

  datatype CleanupReport = CleanupReport(entryResolved: bool, flat: bool, riskResolved: bool)

  /** Cancel what may still be open; returns whether the entry is known to have ended. */
  method SettleEntry(ex: Exchange, args: Args) returns (r: Checked<bool>)
    modifies ex
    ensures GrowsQuietly(old(ex.log), ex.log)
    ensures Readable(ex, args.symbol, args.clientId) ==> r.Done?
    ensures args.attempts > 0 && Foreign(ex.orderAt(|old(ex.log)|, args.clientId), args.symbol, args.clientId) ==>
              r.Raised?
    ensures FoundOpen(ex, args, |old(ex.log)|) || AllUnknown(ex, args.clientId, |old(ex.log)|, args.attempts) ==>
              HasCancel(ex.log, |old(ex.log)|, args.clientId)
    ensures r == Done(true) ==> SeenEnd(ex, args.symbol, args.clientId, |old(ex.log)|, |ex.log|, false)
    ensures r == Done(false) ==>
              && |old(ex.log)| + args.attempts <= |ex.log|
              && NeverEnded(ex, args.clientId, |ex.log| - args.attempts, args.attempts)
  {
    hide NoPosts, LastSeen;
    ghost var n := |ex.log|;
    EntryAnswers(ex, args, n);
    hide FoundOpen, AllUnknown, SeenEnd, NeverEnded, EndedAs, Readable, ValidateOrder, HasCancel;
    var known := QueryUntilKnown(ex, args.symbol, args.clientId, args.attempts);
    ghost var log1 := ex.log;
    if known != Done(None) {
      KnownAnswer(ex, args, n, |log1| - 1 - n);
      SomeKnown(ex, args, n, |log1| - 1 - n);
    }
    var entry :- known;
    if entry.Some? && !entry.value.status.Open() {
      EndedIs(ex, args.symbol, args.clientId, n, |log1| - 1, entry.value);
      return Done(true);
    }
    r := CancelUnsettled(ex, args);
    GrowsTransitive(old(ex.log), log1, ex.log);
    CancelStays(ex.log, ex.log, n, |log1|, args.clientId);
    if r == Done(true) {
      SeenEndWidens(ex, args.symbol, args.clientId, |log1|, |ex.log|, n, |ex.log|, false);
    }
  }

  /** Send the cancel and ask until the entry has ended. */
  method CancelUnsettled(ex: Exchange, args: Args) returns (r: Checked<bool>)
    modifies ex
    ensures GrowsQuietly(old(ex.log), ex.log) && HasCancel(ex.log, |old(ex.log)|, args.clientId)
    ensures Readable(ex, args.symbol, args.clientId) ==> r.Done?
    ensures r == Done(true) ==> SeenEnd(ex, args.symbol, args.clientId, |old(ex.log)|, |ex.log|, false)
    ensures r == Done(false) ==>
              && |old(ex.log)| + args.attempts <= |ex.log|
              && NeverEnded(ex, args.clientId, |ex.log| - args.attempts, args.attempts)
  {
    hide NoPosts, LastSeen, SeenEnd, NeverEnded, EndedAs, ValidateOrder;
    ghost var log1 := ex.log;
    var reply := ex.CancelOrder(args.clientId);
    OneMore(log1, CancelCall(args.clientId));
    ghost var log2 := ex.log;
    assert log2[|log1|] == CancelCall(args.clientId);
    if reply.Interrupt? {
      return Interrupted;
    }
    var terminal := QueryUntilTerminal(ex, args.symbol, args.clientId, args.attempts);
    GrowsTransitive(log1, log2, ex.log);
    CancelStays(log2, ex.log, |log1|, |log1|, args.clientId);
    var ended :- terminal;
    if ended.Some? {
      EndedIs(ex, args.symbol, args.clientId, |log1|, |ex.log| - 1, ended.value);
    }
    return Done(ended.Some?);
  }

  /** Post the exit unless one was attempted or is already known; errors of the post itself are swallowed. */
  method CleanupExit(ex: Exchange, args: Args, p: PositionView, reference: real, exitAttempted: bool)
    returns (r: Checked<()>, ghost posted: bool, ghost exit: Entry)
    requires LastSeen(ex.log) == Some(Holding(p)) && p.amount.Some? && p.amount.value != 0.0
    requires FirstPrice(ex.log) == Some(reference)
    modifies ex
    ensures posted <==>
              && !exitAttempted && Unknown(ex.orderAt(|old(ex.log)|, ExitId(args.clientId)))
              && ExitIntent(args, p, reference).Some?
    ensures !posted ==> Grows(old(ex.log), ex.log)
    ensures posted ==>
              exists mid ::
                && Grows(old(ex.log), mid) && IsExit(args, exit) && Closes(args, mid, exit)
                && Grows(mid + [exit], ex.log)
  {
    hide NoPosts, LastSeen, FirstPrice;
    posted, exit := false, InfoQuery;
    var id := ExitId(args.clientId);
    var known := QueryUntilKnown(ex, args.symbol, id, 1);
    var order :- known;
    if order.Some? || exitAttempted {
      return Done(()), posted, exit;
    }
    var amount := p.amount.value;
    var mark := if p.markPrice.Some? then p.markPrice.value else reference;
    var side := if amount < 0.0 then Buy else Sell;
    var intent := args.normalize(side, mark, if amount < 0.0 then -amount else amount);
    if intent.None? {
      return Raised(SymbolRuleViolation), posted, exit;
    }
    ghost var mid := ex.log;
    exit := Post(id, side, None, intent.value.1, true);
    posted := true;
    var reply := ex.PostOrder(id, side, None, intent.value.1, true);
    GrowsRefl(ex.log);
    FirstPriceStays(old(ex.log), mid);
    assert ex.log == mid + [exit] && Closes(args, mid, exit);
    if reply.Interrupt? {
      return Interrupted, posted, exit;
    }
    var again := QueryUntilKnown(ex, args.symbol, id, args.attempts);
    var _ :- again;
    r := Done(());
  }

  /** The exchange answers every question about the entry's id with the entry. */
  ghost predicate ReportsEntry(ex: Exchange, args: Args) {
    forall n: nat :: IsKnown(args, ex.orderAt(n, args.clientId))
  }

  /** The exchange has never a word about the exit being unknown. */
  ghost predicate ExitNeverUnknown(ex: Exchange, args: Args) {
    forall n: nat :: !Unknown(ex.orderAt(n, ExitId(args.clientId)))
  }

  /** The exchange does not know the exit, and shows a position that an exit can be normalised for. */
  ghost predicate ExitMissing(ex: Exchange, args: Args, reference: real) {
    && (forall n: nat :: Unknown(ex.orderAt(n, ExitId(args.clientId))))
    && (forall n: nat :: NeedsExit(args, Observe(ex.positionsAt(n), args.symbol), reference))
  }

  predicate NeedsExit(args: Args, seen: Observation, reference: real) {
    seen.Holding? && seen.position.amount.Some? && ExitIntent(args, seen.position, reference).Some?
  }

  lemma AnswerAt(ex: Exchange, args: Args, reference: real, n: nat)
    ensures ExitMissing(ex, args, reference) ==>
              && Unknown(ex.orderAt(n, ExitId(args.clientId)))
              && NeedsExit(args, Observe(ex.positionsAt(n), args.symbol), reference)
    ensures ExitNeverUnknown(ex, args) ==> !Unknown(ex.orderAt(n, ExitId(args.clientId)))
  {
  }

  lemma ReportedEntryIsKnown(ex: Exchange, args: Args)
    ensures ExitId(args.clientId) == args.clientId && ReportsEntry(ex, args) ==> ExitNeverUnknown(ex, args)
  {
    assert forall n: nat :: IsKnown(args, ex.orderAt(n, args.clientId)) ==> !Unknown(ex.orderAt(n, args.clientId));
  }

  /** Close what is left of a position: at most the missing exit is posted, then the account is looked at again. */
  method CloseRemainder(ex: Exchange, args: Args, reference: real, exitAttempted: bool) returns (flat: Checked<bool>)
    requires SafeLog(args, ex.log) && HasEntry(args, ex.log) && (!exitAttempted ==> NoExits(ex.log))
    requires FirstPrice(ex.log) == Some(reference)
    modifies ex
    ensures !exitAttempted && ExitMissing(ex, args, reference) ==> HasExit(args, ex.log)
    ensures ExitNeverUnknown(ex, args) ==> Grows(old(ex.log), ex.log)
    ensures SafeLog(args, ex.log) && old(ex.log) <= ex.log
    ensures flat.Done? ==> (flat.value <==> LastSeen(ex.log) == Some(Flat))
  {
    hide NoPosts, NoExits, LastSeen, SafeLog, HasEntry, HasExit, Closes, IsExit, AtMostOnce, FirstPrice;
    hide ExitMissing, ExitNeverUnknown, Observe, Unknown, ExitIntent;
    ghost var log1 := ex.log;
    AnswerAt(ex, args, reference, |log1|);
    var look := LookAtPosition(ex, args.symbol);
    GrowsSafe(args, log1, ex.log);
    var position :- look;
    if position.None? {
      return Done(true);
    }
    ghost var log2 := ex.log;
    AnswerAt(ex, args, reference, |log2|);
    var exited;
    ghost var posted, exit;
    exited, posted, exit := CleanupExit(ex, args, position.value, reference, exitAttempted);
    if posted {
      ghost var mid :|
        Grows(log2, mid) && IsExit(args, exit) && Closes(args, mid, exit) && Grows(mid + [exit], ex.log);
      GrowsSafe(args, log2, mid);
      ExitSafe(args, mid, exit);
      GrowsSafe(args, mid + [exit], ex.log);
    } else {
      GrowsSafe(args, log2, ex.log);
      GrowsTransitive(log1, log2, ex.log);
    }
    var _ :- exited;
    ghost var log3 := ex.log;
    var last := LookAtPosition(ex, args.symbol);
    GrowsSafe(args, log3, ex.log);
    if !posted {
      GrowsTransitive(log1, log3, ex.log);
    }
    var remaining :- last;
    return Done(remaining.None?);
  }

  /**
   The emergency cleanup: whatever happened before, it can add at most the missing exit.  It cancels
   an entry that is open or unknown.  It posts an exit when the exchange answers about the entry,
   knows no exit and shows a position, and none when the exchange answers for the exit's id in any
   other way, as it does when the ids of entry and exit coincide.  It gives up at once when it is
   answered with another order than the entry.
   */
  method EmergencyCleanup(ex: Exchange, args: Args, reference: real, exitAttempted: bool)
    returns (r: Checked<CleanupReport>)
    requires SafeLog(args, ex.log) && HasEntry(args, ex.log) && (!exitAttempted ==> NoExits(ex.log))
    requires FirstPrice(ex.log) == Some(reference)
    modifies ex
    ensures FoundOpen(ex, args, |old(ex.log)|) || AllUnknown(ex, args.clientId, |old(ex.log)|, args.attempts) ==>
              HasCancel(ex.log, |old(ex.log)|, args.clientId)
    ensures !exitAttempted && Readable(ex, args.symbol, args.clientId) && ExitMissing(ex, args, reference) ==>
              HasExit(args, ex.log)
    ensures ExitNeverUnknown(ex, args) ==> Grows(old(ex.log), ex.log)
    ensures ExitId(args.clientId) == args.clientId && ReportsEntry(ex, args) ==> Grows(old(ex.log), ex.log)
    ensures args.attempts > 0 && Foreign(ex.orderAt(|old(ex.log)|, args.clientId), args.symbol, args.clientId) ==>
              r.Raised? && Grows(old(ex.log), ex.log)
    ensures SafeLog(args, ex.log) && old(ex.log) <= ex.log
    ensures r.Done? ==>
              && (r.value.flat <==> LastSeen(ex.log) == Some(Flat))
              && (r.value.riskResolved <==> r.value.entryResolved && r.value.flat)
              && (r.value.entryResolved ==>
                    SeenEnd(ex, args.symbol, args.clientId, |old(ex.log)|, |ex.log|, false))
              && (!r.value.entryResolved ==>
                    exists n :: |old(ex.log)| <= n && NeverEnded(ex, args.clientId, n, args.attempts))
  {
    hide NoPosts, NoExits, LastSeen, SafeLog, HasEntry, HasExit, FirstPrice, HasCancel, SeenEnd, NeverEnded;
    hide Readable, ReportsEntry, ExitMissing, ExitNeverUnknown, Foreign, FoundOpen, AllUnknown;
    ReportedEntryIsKnown(ex, args);
    ghost var log0 := ex.log;
    var settled := SettleEntry(ex, args);
    GrowsSafe(args, log0, ex.log);
    var entryResolved :- settled;
    ghost var log1 := ex.log;
    var closed := CloseRemainder(ex, args, reference, exitAttempted);
    if HasCancel(log1, |log0|, args.clientId) {
      CancelStays(log1, ex.log, |log0|, |log0|, args.clientId);
    }
    if Grows(log1, ex.log) {
      GrowsTransitive(log0, log1, ex.log);
    }
    var flat :- closed;
    if entryResolved {
      SeenEndWidens(ex, args.symbol, args.clientId, |log0|, |log1|, |log0|, |ex.log|, false);
    }
    return Done(CleanupReport(entryResolved, flat, entryResolved && flat));
  }

  datatype Report = Report(result: Checked<RunResult>, cleanup: Option<Checked<CleanupReport>>)

  /**
   A whole run: main path, then the cleanup in any case once writing has started.  Whatever the
   exchange does, the log is safe; a dry run posts nothing; success was last seen flat.
   */
  method RunSmoke(ex: Exchange, args: Args) returns (report: Report, ghost mainEnd: nat)
    requires args.attempts > 0 && ex.log == []
    modifies ex
    ensures SafeLog(args, ex.log)
    ensures !args.execute ==> NoPosts(ex.log)
    ensures report.cleanup.None? ==> NoPosts(ex.log)
    ensures mainEnd <= |ex.log|
    ensures report.result == Done(ExecutionOk) ==>
              LastSeen(ex.log[..mainEnd]) == Some(Flat) && HasEntry(args, ex.log[..mainEnd])
    ensures report.result == Done(ExecutionOk) && args.fillAndExit ==> HasExit(args, ex.log[..mainEnd])
    ensures report.cleanup.Some? && report.cleanup.value.Done? && report.cleanup.value.value.riskResolved ==>
              LastSeen(ex.log) == Some(Flat)
    ensures report.cleanup.Some? && StaysOpen(ex, args) ==> HasCancel(ex.log, mainEnd, args.clientId)
    ensures report.result == Done(DryRunOk) <==> !args.execute && PricesOk(ex, args, 0)
    ensures report.cleanup.Some? <==> args.execute && PricesOk(ex, args, 0) && IdleAt(ex, args, 2)
    ensures report.cleanup.Some? ==> HasEntry(args, ex.log[..mainEnd])
    ensures report.result == Done(ExecutionOk) ==>
              OrdersEnded(ex, args, HasExit(args, ex.log[..mainEnd]), mainEnd)
  {
    hide LastSeen, SafeLog, HasEntry, SeenEnd, PricesOk, IdleAt;
    var result, writeStarted, exitAttempted, reference := MainPath(ex, args);
    mainEnd := |ex.log|;
    assert ex.log[..mainEnd] == ex.log;
    ghost var mainLog := ex.log;
    assert !exitAttempted ==> !HasExit(args, mainLog);
    hide HasExit, NoExits;
    if !writeStarted {
      return Report(result, None), mainEnd;
    }
    if StaysOpen(ex, args) {
      StaysFoundOpen(ex, args, mainEnd);
    }
    var cleanup := EmergencyCleanup(ex, args, reference, exitAttempted);
    assert ex.log[..mainEnd] == mainLog;
    return Report(result, Some(cleanup)), mainEnd;
  }

  // ---------------------------------------------------------------------------
  // What a safe log means
  // ---------------------------------------------------------------------------

  ghost function CountPosts(log: seq<Entry>, reduceOnly: bool): nat {
    if log == [] then 0
    else
      var e := log[|log| - 1];
      CountPosts(log[..|log| - 1], reduceOnly) + if e.Post? && e.reduceOnly == reduceOnly then 1 else 0
  }

  lemma {:induction false} NoneCounted(log: seq<Entry>, reduceOnly: bool)
    requires forall i :: 0 <= i < |log| && log[i].Post? ==> log[i].reduceOnly != reduceOnly
    ensures CountPosts(log, reduceOnly) == 0
  {
    if log != [] {
      NoneCounted(log[..|log| - 1], reduceOnly);
    }
  }

  /** At most one entry and at most one exit, in every safe log. */
  lemma {:induction false} SafeLogCounts(log: seq<Entry>)
    requires AtMostOnce(log)
    ensures CountPosts(log, false) <= 1 && CountPosts(log, true) <= 1
  {
    if log != [] {
      var n := |log| - 1;
      assert AtMostOnce(log[..n]);
      SafeLogCounts(log[..n]);
      if log[n].Post? {
        forall i | 0 <= i < n && log[..n][i].Post?
          ensures log[..n][i].reduceOnly != log[n].reduceOnly
        {
          assert log[i] == log[..n][i];
        }
        NoneCounted(log[..n], log[n].reduceOnly);
      }
    }
  }

  /** In basis points: an entry that must stay open lies above the first price, one that must fill just below it. */
  lemma EntryKeepsDistance(args: Args, log: seq<Entry>, i: nat)
    requires SafeLog(args, log) && i < |log| && log[i].Post? && !log[i].reduceOnly
    ensures log[i].price.Some? && FirstPrice(log[..i]).Some?
    ensures var price, first := log[i].price.value, FirstPrice(log[..i]).value;
            if args.fillAndExit
            then price <= first && 10000.0 * (first - price) <= args.maxFillDistanceBps * first
            else 10000.0 * (price - first) >= args.minDistanceBps * first
  {
    hide AtMostOnce, Preflight, Closes, HasEntry, FirstPrice;
    assert PostOk(args, log, i);
    Scaled(FirstPrice(log[..i]).value, args.minDistanceBps);
    Scaled(FirstPrice(log[..i]).value, args.maxFillDistanceBps);
  }

  lemma Scaled(first: real, bps: real)
    ensures first * (1.0 + bps / 10000.0) == first + first * (bps / 10000.0)
    ensures first * (1.0 - bps / 10000.0) == first - first * (bps / 10000.0)
    ensures 10000.0 * (first * (bps / 10000.0)) == bps * first
  {
    var rate := bps / 10000.0;
    assert 10000.0 * rate == bps;
    assert 10000.0 * (first * rate) == (10000.0 * rate) * first;
  }

  /** An exit is a reduce-only MARKET order against the position last seen, for its whole normalised amount. */
  lemma ExitFitsPosition(args: Args, log: seq<Entry>, i: nat, p: PositionView)
    requires SafeLog(args, log) && i < |log| && log[i].Post? && log[i].reduceOnly
    requires LastSeen(log[..i]) == Some(Holding(p))
    ensures p.amount.Some? && log[i].price == None && log[i].clientId == ExitId(args.clientId)
    ensures log[i].side == (if p.amount.value < 0.0 then Buy else Sell)
    ensures p.markPrice.Some? ==>
              var size := if p.amount.value < 0.0 then -p.amount.value else p.amount.value;
              var intent := args.normalize(log[i].side, p.markPrice.value, size);
              intent.Some? && intent.value.1 == log[i].quantity
  {
    hide AtMostOnce, Preflight, HasEntry, FirstPrice, Priced;
    assert PostOk(args, log, i);
  }

  /** The exit's client id differs from the entry's, except for 30-character ids that end in `_exit`. */
  lemma ExitIdDiffers(clientId: string)
    ensures ExitId(clientId) != clientId <==> !(|clientId| == 30 && clientId[25..] == "_exit")
  {
    if |clientId| == 30 {
      assert clientId == clientId[..25] + clientId[25..];
      if ExitId(clientId) == clientId {
        assert clientId[25..] == ExitId(clientId)[25..] == "_exit";
      }
    } else {
      assert |ExitId(clientId)| != |clientId|;
    }
  }
}
