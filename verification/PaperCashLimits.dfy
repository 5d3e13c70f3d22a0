/** Why the cash floor asks what it asks: for each of its hypotheses, whenever it is broken by more
    than the slack, a run that ends below the floor without ever opening a short. */
module PaperCashLimits {
  import opened Prelude
  import opened Costs
  import opened Orders
  import opened Portfolio
  import opened PaperExchange
  import Cash = PaperCash
  import Protection = PaperProtection

  /** A venue whose market for X has one fee rate and one slippage, in basis points. */
  predicate Charges(v: Venue, rate: real, bps: real) {
    && v.instruments == map[] && v.slippage.Bps(1.0) == bps
    && v.fees.Rate(CRYPTO, Taker, Some(NAME)) == rate && v.fees.Rate(CRYPTO, Maker, Some(NAME)) == rate
    && v.fees.Rate(CRYPTO, Taker, None) == rate
  }

  /** There are such venues for every rate and every slippage that is not negative. */
  lemma SomeVenueCharges(rate: real, bps: real) returns (v: Venue)
    requires 0.0 <= bps
    ensures Charges(v, rate, bps)
  {
    v := Venue(FeeSchedule(map[], map[], Some(rate), 0.0, 0.0),
               SlippageModel(true, FixedBps, bps, bps, 0.0, 0.0, 0.0), map[], 3, false);
  }

  function One(side: Side, kind: OrderType, limit: Option<real>, stop: Option<real>): Order {
    Order(None, "", "X", CRYPTO, side, kind, 1.0, 0.0, limit, None, CREATED, None, None, 0.0, 0.0, "", stop, None)
  }

  /** Buying one unit at a market price of one. */
  const BUY_ONE := Create(One(Side.BUY, MARKET, None, Some(0.5)), Some(1.0))

  /** The floor is gone although no short was opened. */
  predicate Sunk(s: State) { !Cash.Shorted(s.account) && s.account.cash < -CASH_SLACK }

  lemma OneCommand(v: Venue, cash: real, c: Command)
    ensures Run(v, Opened(cash), [c]) == Step(v, Opened(cash), c).state
  {
    assert [c][..0] == [];
  }

  /** What one unit in X costs on a side: the price of its fill and the fee. */
  predicate Prices(v: Venue, side: Side, price: real, paid: real, fee: real) {
    && v.instruments == map[] && v.slippage.FillPrice(side, price, false, 1.0) == paid
    && v.fees.Fee(paid, CRYPTO, Taker, Some(NAME)) == fee
  }

  /** Cash after the first purchase, and the position it leaves. */
  ghost predicate Holds(a: Account, cash: real) {
    a.cash == cash && !a.audit.shorted && "X" in a.positions
    && a.positions["X"].side == LONG && a.positions["X"].quantity == 1.0 && a.positions["X"].stop == Some(0.5)
  }

  lemma OpensOne(cash: real, paid: real, fee: real)
    requires 0.0 < paid && paid + fee <= cash
    ensures var (a, refusal) := Open(Fresh(cash), "X", LONG, 1.0, paid, fee, Some(0.5), None);
            refusal.None? && Holds(a, cash - paid - fee)
  {
  }

  lemma SettlesOne(s: State, id: OrderId, f: Fill)
    requires id in s.orders
    requires s.orders[id] == One(Side.BUY, MARKET, None, Some(0.5))
      .(id := Some(id), requested := Some(1.0), status := SUBMITTED)
    requires s.account == Fresh(s.account.cash) && f.quantity == 1.0
    requires 0.0 < f.price && f.price + f.fee <= s.account.cash
    ensures Holds(Settled(s, id, f).state.account, s.account.cash - f.price - f.fee)
    ensures var t := Settled(s, id, f).state;
            t.health == s.health && t.feed == s.feed && t.rules == s.rules
            && t.orders.Keys == s.orders.Keys && t.orders[id].status == FILLED
  {
    OpensOne(s.account.cash, f.price, f.fee);
  }

  /** A state in which an order of one unit in X at a market price of one passes every check, and
      nothing rests on the book. */
  ghost predicate Quiet(s: State) {
    s.health == Health(false, "", 0, NoFailure) && s.feed.stale == {} && s.rules == RuleBook(map[], map[], map[], map[])
    && (forall id :: id in s.orders ==> Terminal(s.orders[id].status))
  }

  lemma ArrivesAndSettles(v: Venue, s: State, o: Order, fillAt: real, limitFill: bool)
    requires Quiet(s) && v.instruments == map[] && o.id.None? && o.clientId == "" && o.symbol == "X"
    requires o.quantity == 1.0 && o.filled == 0.0 && o.status == CREATED
    requires (o.kind == MARKET && fillAt == 1.0 && !limitFill)
          || (o.kind == LIMIT && LimitTriggered(o, 1.0) && fillAt == LimitOr(o, 1.0) && limitFill)
    ensures var kept, id := Arrived(v, s, o, 1.0), Generated(s.orderSeq + 1);
            id in kept.orders && kept.account == s.account
            && kept.orders[id] == o.(id := Some(id), requested := Some(1.0), asset := CRYPTO, status := SUBMITTED)
            && CreateOrder(v, s, o, Some(1.0)) == Settled(kept, id, NextFill(v, kept, id, fillAt, limitFill))
  {
    assert !IsSpace("X"[0]) && !Blank("X");
    assert IntakeRefusal(v, s, o, Some(1.0)).None?;
  }

  lemma ClosesOne(a: Account, cash: real, price: real, fee: real)
    requires Holds(a, cash)
    ensures var (b, refusal) := Close(a, "X", Some(1.0), price, fee);
            refusal.None? && b.cash == cash + price - fee && !b.audit.shorted
  {
  }

  /** Selling the unit held brings in the price of the fill less its fee, whatever they are. */
  lemma SellsOne(s: State, id: OrderId, f: Fill, cash: real)
    requires id in s.orders && s.orders[id].side == Side.SELL && s.orders[id].symbol == "X"
    requires Holds(s.account, cash) && f.quantity == 1.0
    ensures var t := Settled(s, id, f).state;
            t.account.cash == cash + f.price - f.fee && !t.account.audit.shorted
  {
    ClosesOne(s.account, cash, f.price, f.fee);
  }

  const BOUGHT := One(Side.BUY, MARKET, None, Some(0.5))

  /** The fill of a market order for one unit. */
  lemma FillsOne(v: Venue, s: State, id: OrderId, paid: real, fee: real)
    requires id in s.orders && s.health.failure == NoFailure && Prices(v, s.orders[id].side, 1.0, paid, fee)
    requires s.orders[id].quantity == 1.0 && s.orders[id].filled == 0.0 && s.orders[id].asset == CRYPTO
    ensures var f := NextFill(v, s, id, 1.0, false);
            f.quantity == 1.0 && f.price == paid && f.fee == fee
  {
    assert 1.0 * paid == paid;
  }

  /** A new exchange with one accepted purchase of one unit on its book. */
  ghost predicate Buying(s: State, cash: real) {
    && s.account == Fresh(cash) && s.orders.Keys == {Generated(1)}
    && s.orders[Generated(1)] == BOUGHT.(id := Some(Generated(1)), requested := Some(1.0), status := SUBMITTED)
    && s.health == Health(false, "", 0, NoFailure) && s.feed.stale == {}
    && s.rules == RuleBook(map[], map[], map[], map[])
  }

  lemma ArrivesBuying(v: Venue, cash: real)
    requires v.instruments == map[]
    ensures Buying(Arrived(v, Opened(cash), BOUGHT, 1.0), cash)
  {
  }

  lemma BuyingIsTried(v: Venue, cash: real, kept: State)
    requires v.instruments == map[] && kept == Arrived(v, Opened(cash), BOUGHT, 1.0) && Buying(kept, cash)
    ensures Step(v, Opened(cash), BUY_ONE) == Settled(kept, Generated(1), NextFill(v, kept, Generated(1), 1.0, false))
  {
    ArrivesAndSettles(v, Opened(cash), BOUGHT, 1.0, false);
  }

  lemma BuyingSettles(s: State, f: Fill, cash: real)
    requires Buying(s, cash) && f.quantity == 1.0 && 0.0 < f.price && f.price + f.fee <= cash
    ensures var t := Settled(s, Generated(1), f).state;
            Holds(t.account, cash - f.price - f.fee) && Quiet(t)
  {
    SettlesOne(s, Generated(1), f);
  }

  /** The first command of every run below: the purchase of one unit. */
  lemma BuysOne(v: Venue, cash: real, paid: real, fee: real)
    requires Prices(v, Side.BUY, 1.0, paid, fee) && 0.0 < paid && paid + fee <= cash
    ensures var t := Step(v, Opened(cash), BUY_ONE).state;
            Holds(t.account, cash - paid - fee) && Quiet(t)
  {
    ArrivesBuying(v, cash);
    var kept := Arrived(v, Opened(cash), BOUGHT, 1.0);
    BuyingIsTried(v, cash, kept);
    FillsOne(v, kept, Generated(1), paid, fee);
    BuyingSettles(kept, NextFill(v, kept, Generated(1), 1.0, false), cash);
  }

  // ----- the runs -----

  lemma TwoCommands(v: Venue, cash: real, c: Command, d: Command)
    ensures Run(v, Opened(cash), [c, d]) == Step(v, Step(v, Opened(cash), c).state, d).state
  {
    assert [c, d][..1] == [c];
    OneCommand(v, cash, c);
  }

  /** A market order to sell the unit, at a price and fee that cost more than nothing. */
  lemma SaleSinks(v: Venue, cash: real, o: Order, paid: real, buyFee: real, got: real, sellFee: real)
    requires o == One(Side.SELL, MARKET, None, None)
    requires Prices(v, Side.BUY, 1.0, paid, buyFee) && 0.0 < paid && cash == paid + buyFee
    requires Prices(v, Side.SELL, 1.0, got, sellFee) && got - sellFee < -CASH_SLACK
    ensures Sunk(Run(v, Opened(cash), [BUY_ONE, Create(o, Some(1.0))]))
  {
    BuysOne(v, cash, paid, buyFee);
    TwoCommands(v, cash, BUY_ONE, Create(o, Some(1.0)));
    SaleFrom(v, Step(v, Opened(cash), BUY_ONE).state, o, got, sellFee);
  }

  lemma SaleFrom(v: Venue, s: State, o: Order, got: real, fee: real)
    requires o == One(Side.SELL, MARKET, None, None) && Holds(s.account, 0.0) && Quiet(s)
    requires Prices(v, Side.SELL, 1.0, got, fee) && got - fee < -CASH_SLACK
    ensures Sunk(CreateOrder(v, s, o, Some(1.0)).state)
  {
    ArrivesAndSettles(v, s, o, 1.0, false);
    var kept, id := Arrived(v, s, o, 1.0), Generated(s.orderSeq + 1);
    FillsOne(v, kept, id, got, fee);
    SellsOne(kept, id, NextFill(v, kept, id, 1.0, false), 0.0);
  }

  lemma ChargedPrices(v: Venue, rate: real, bps: real)
    requires Charges(v, rate, bps)
    ensures Prices(v, Side.BUY, 1.0, 1.0 + bps / 10000.0, Abs(1.0 + bps / 10000.0) * rate)
    ensures Prices(v, Side.SELL, 1.0, 1.0 - bps / 10000.0, Abs(1.0 - bps / 10000.0) * rate)
  {
  }

  /** A fee rate above 100 %: selling the unit costs more than it brings. */
  lemma FeeRateMatters(v: Venue, rate: real, cash: real, o: Order)
    requires Charges(v, rate, 0.0) && 1.0 + CASH_SLACK < rate && cash == 1.0 + rate
    requires o == One(Side.SELL, MARKET, None, None)
    ensures Sunk(Run(v, Opened(cash), [BUY_ONE, Create(o, Some(1.0))]))
  {
    ChargedPrices(v, rate, 0.0);
    SaleSinks(v, cash, o, 1.0, rate, 1.0, rate);
  }

  /** Slippage above 100 %: the unit is sold below zero. */
  lemma SlippageCapMatters(v: Venue, bps: real, cash: real, o: Order)
    requires Charges(v, 0.0, bps) && 10000.0 + 10000.0 * CASH_SLACK < bps && cash == 1.0 + bps / 10000.0
    requires o == One(Side.SELL, MARKET, None, None)
    ensures Sunk(Run(v, Opened(cash), [BUY_ONE, Create(o, Some(1.0))]))
  {
    ChargedPrices(v, 0.0, bps);
    SaleSinks(v, cash, o, cash, 0.0, 1.0 - bps / 10000.0, 0.0);
  }

  /** A negative limit: the unit is sold at it. */
  lemma LimitSignMatters(v: Venue, cash: real, o: Order, limit: real)
    requires Charges(v, 0.0, 0.0) && limit < -CASH_SLACK && cash == 1.0
    requires o == One(Side.SELL, LIMIT, Some(limit), None)
    ensures Sunk(Run(v, Opened(cash), [BUY_ONE, Create(o, Some(1.0))]))
  {
    ChargedPrices(v, 0.0, 0.0);
    BuysOne(v, cash, 1.0, 0.0);
    TwoCommands(v, cash, BUY_ONE, Create(o, Some(1.0)));
    LimitSaleFrom(v, Step(v, Opened(cash), BUY_ONE).state, o, limit);
  }

  lemma LimitSaleFrom(v: Venue, s: State, o: Order, limit: real)
    requires Charges(v, 0.0, 0.0) && limit < -CASH_SLACK && o == One(Side.SELL, LIMIT, Some(limit), None)
    requires Holds(s.account, 0.0) && Quiet(s)
    ensures Sunk(CreateOrder(v, s, o, Some(1.0)).state)
  {
    ArrivesAndSettles(v, s, o, limit, true);
    var kept, id := Arrived(v, s, o, 1.0), Generated(s.orderSeq + 1);
    LimitFill(v, kept, id, limit);
    SellsOne(kept, id, NextFill(v, kept, id, limit, true), 0.0);
  }

  lemma LimitFill(v: Venue, s: State, id: OrderId, limit: real)
    requires Charges(v, 0.0, 0.0) && id in s.orders && s.health.failure == NoFailure
    requires var o := s.orders[id]; o.quantity == 1.0 && o.filled == 0.0 && o.asset == CRYPTO && o.limit == Some(limit)
    ensures var f := NextFill(v, s, id, limit, true);
            f.quantity == 1.0 && f.price == limit && f.fee == 0.0
  {
  }

  /** A negative price: the stop sells the unit at it. */
  lemma PriceSignMatters(v: Venue, cash: real, tick: Command)
    requires Charges(v, 0.0, 0.0) && cash == 1.0
    requires tick.Price? && tick.symbol == "X" && tick.price < -CASH_SLACK
    ensures Sunk(Run(v, Opened(cash), [BUY_ONE, tick]))
  {
    ChargedPrices(v, 0.0, 0.0);
    BuysOne(v, cash, 1.0, 0.0);
    TwoCommands(v, cash, BUY_ONE, tick);
    TickSinks(v, Step(v, Opened(cash), BUY_ONE).state, tick);
  }

  lemma TickSinks(v: Venue, s: State, tick: Command)
    requires Charges(v, 0.0, 0.0) && Holds(s.account, 0.0) && Quiet(s)
    requires tick.Price? && tick.symbol == "X" && tick.price < -CASH_SLACK
    ensures Sunk(Step(v, s, tick).state)
  {
    StopSinks(v, s, tick.symbol, tick.price);
  }

  lemma StopSinks(v: Venue, s: State, symbol: string, price: real)
    requires Charges(v, 0.0, 0.0) && Holds(s.account, 0.0) && Quiet(s) && symbol == "X" && price < -CASH_SLACK
    ensures Sunk(PriceUpdate(v, s, symbol, price).state)
  {
    Protection.QuietUpdate(v, s, symbol, price);
    StopsOut(v, Priced(s, symbol, price), symbol, price);
  }

  lemma StopsOut(v: Venue, s: State, symbol: string, price: real)
    requires Charges(v, 0.0, 0.0) && Holds(s.account, 0.0) && Quiet(s) && symbol == "X" && price < -CASH_SLACK
    ensures Sunk(ManagePosition(v, s, symbol, price).state)
  {
  }

  /** And a start below the floor is below it already. */
  lemma StartMatters(v: Venue, cash: real)
    requires cash < -CASH_SLACK
    ensures Sunk(Run(v, Opened(cash), []))
  {
  }
}
