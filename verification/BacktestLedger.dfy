/** The books of a backtest: whatever the strategy, the gates and the candles, its money is conserved
    and its orders, fills and fees agree, with nothing asked of the run. */
module BacktestLedger {
  import opened Prelude
  import opened Orders
  import opened Candles
  import opened Portfolio
  import opened PaperExchange
  import opened Signals
  import opened Backtest
  import Money = PaperMoney
  import Ledger = PaperLedger
  import Prices = PaperPrices
  import Protection = PaperProtection

  // ----- the invariant -----

  /** Nothing rests on the book, and no failure is simulated. */
  ghost predicate Settles(s: State) {
    && s.health.failure == NoFailure
    && (forall id :: id in s.orders ==> Terminal(s.orders[id].status))
    && (forall symbol :: symbol in s.rules.partials ==> s.rules.partials[symbol].percent == 50.0)
  }

  ghost predicate Balanced(s: State, capital: real) {
    && Sound(s.account) && !Money.Dusted(s.account) && Capital(s.account) == capital
    && Ledger.Orderly(s) && Prices.AllHonoured(s) && Prices.IdsBehind(s)
  }

  ghost predicate Books(s: State, capital: real) { Settles(s) && Balanced(s, capital) }

  /** The commands a backtest gives its exchange: prices, marks, rules with a half exit or none, and
      market orders of its own for a symbol that is not held. */
  predicate Plain(s: State, c: Command) {
    match c
    case Price(_, _) => true
    case SetPrice(_, _) => true
    case TakeSnapshot => true
    case Configure(_, rules) => rules.partialPercent.Some? ==> rules.partialPercent.value == 50.0
    case Create(o, _) =>
      o.id.None? && o.kind == MARKET && o.filled == 0.0 && o.fees == 0.0 && o.symbol !in s.account.positions
    case _ => false
  }

  // ----- no close drops below nothing -----

  lemma CloseDusts(a: Account, symbol: string, quantity: Option<real>, price: real, fee: real)
    requires symbol in a.positions && (quantity.Some? ==> quantity.value <= a.positions[symbol].quantity)
    ensures Money.Dusted(Close(a, symbol, quantity, price, fee).0) == Money.Dusted(a)
  {
  }

  lemma ClosedOutSettles(v: Venue, s: State, symbol: string, quantity: Option<real>, price: real)
    requires symbol in s.account.positions
    requires quantity.Some? ==> quantity.value <= s.account.positions[symbol].quantity
    ensures var t := ClosedOut(v, s, symbol, quantity, price).state;
            t.health == s.health && t.rules == s.rules && Money.Dusted(t.account) == Money.Dusted(s.account)
  {
    var q := if quantity.None? then s.account.positions[symbol].quantity else quantity.value;
    CloseDusts(s.account, symbol, quantity, price, ExitFee(v, symbol, q, price));
  }

  lemma ProtectedSettles(v: Venue, s: State, symbol: string, price: real)
    ensures var t := Protected(v, s, symbol, price).state;
            t.health == s.health && t.rules == s.rules && Money.Dusted(t.account) == Money.Dusted(s.account)
  {
    if symbol in s.account.positions {
      var h := s.account.positions[symbol];
      var stop := Trailing.Trailed(s.rules.trailing, symbol, IsLong(h.side), price, h.stop);
      var t := s.(account := Bracketed(s.account, symbol, stop, h.target));
      ClosedOutSettles(v, s, symbol, None, price);
      ClosedOutSettles(v, t, symbol, None, price);
    }
  }

  lemma PartialSettles(v: Venue, s: State, symbol: string, risk: Option<real>, price: real)
    requires symbol in s.account.positions && s.account.positions[symbol].quantity > 0.0 && Settles(s)
    ensures var t := PartialExited(v, s, symbol, risk, price).state;
            t.health == s.health && Money.Dusted(t.account) == Money.Dusted(s.account)
            && forall x :: x in t.rules.partials ==> t.rules.partials[x].percent == 50.0
  {
    var h := s.account.positions[symbol];
    if PartialFires(s, symbol, h, risk, price) {
      ClosedOutSettles(v, s, symbol, Some(PartialQuantity(h, s.rules.partials[symbol])), price);
    }
  }

  lemma ManageSettles(v: Venue, s: State, symbol: string, price: real)
    requires Settles(s) && Sound(s.account)
    ensures var t := ManagePosition(v, s, symbol, price).state;
            Settles(t) && Money.Dusted(t.account) == Money.Dusted(s.account)
  {
    Ledger.ManageSame(v, s, symbol, price);
    if symbol in s.account.positions {
      var moved := MovedToBreakEven(s.(account := MarkOne(s.account, symbol, price)), symbol, price);
      var risk := RiskOf(s.account.positions[symbol]);
      PartialSettles(v, moved, symbol, risk, price);
      ProtectedSettles(v, PartialExited(v, moved, symbol, risk, price).state, symbol, price);
    }
  }

  lemma PriceSettles(v: Venue, s: State, symbol: string, price: real)
    requires Settles(s) && Sound(s.account)
    ensures var t := PriceUpdate(v, s, symbol, price).state;
            Settles(t) && Money.Dusted(t.account) == Money.Dusted(s.account)
  {
    Protection.QuietUpdate(v, s, symbol, price);
    ManageSettles(v, Priced(s, symbol, price), symbol, price);
  }

  // ----- market orders of a symbol that is not held -----

  lemma OpeningSettles(a: Account, o: Order, quantity: real, price: real, fee: real)
    requires o.symbol !in a.positions
    ensures Money.Dusted(Traded(a, o, quantity, price, fee).0) == Money.Dusted(a)
  {
  }

  /** A whole fill of a submitted order finishes it, one way or the other. */
  lemma WholeFillFinishes(s: State, id: OrderId, f: Fill)
    requires id in s.orders && s.orders[id].status == SUBMITTED && s.orders[id].symbol !in s.account.positions
    requires f.quantity == Remaining(s.orders[id])
    ensures var t := Settled(s, id, f).state;
            && Terminal(t.orders[id].status) && t.health == s.health && t.rules == s.rules
            && Money.Dusted(t.account) == Money.Dusted(s.account)
  {
    OpeningSettles(s.account, s.orders[id], f.quantity, f.price, f.fee);
  }

  lemma CreateSettles(v: Venue, s: State, o: Order, market: Option<real>)
    requires Settles(s) && Plain(s, Create(o, market))
    ensures var t := CreateOrder(v, s, o, market).state;
            Settles(t) && Money.Dusted(t.account) == Money.Dusted(s.account)
  {
    var refusal := IntakeRefusal(v, s, o, market);
    if refusal.None? && MayBecome(o.status, SUBMITTED) {
      var price := QuotedPrice(s, o, market).value;
      var kept, id := Arrived(v, s, o, price), Admitted(s, o).1.id.value;
      WholeFillFinishes(kept, id, NextFill(v, kept, id, price, false));
    }
  }

  // ----- commands -----

  lemma StepSettles(v: Venue, s: State, c: Command)
    requires Settles(s) && Sound(s.account) && Plain(s, c)
    ensures var t := Step(v, s, c).state;
            Settles(t) && Money.Dusted(t.account) == Money.Dusted(s.account)
  {
    match c
    case Price(symbol, price) => PriceSettles(v, s, symbol, price);
    case Create(o, market) => CreateSettles(v, s, o, market);
    case _ =>
  }

  lemma PlainIsAdmissible(v: Venue, s: State, c: Command)
    requires Plain(s, c)
    ensures Ledger.Admissible(v, s, c) && Prices.Admissible(v, s, c)
  {
  }

  lemma StepKeepsBooks(v: Venue, s: State, c: Command, capital: real)
    requires Books(s, capital) && Plain(s, c)
    ensures Books(Step(v, s, c).state, capital)
  {
    StepSettles(v, s, c);
    PlainIsAdmissible(v, s, c);
    Money.StepKeeps(v, s, c);
    Ledger.StepKeeps(v, s, c);
    Prices.StepHonours(v, s, c);
  }

  // ----- bars -----

  lemma PathKeepsBooks(v: Venue, s: State, symbol: string, c: Candle, capital: real)
    requires Books(s, capital)
    ensures Books(PricePath(v, s, symbol, c).state, capital)
  {
    StepKeepsBooks(v, s, Price(symbol, c.open), capital);
    var r1 := PriceUpdate(v, s, symbol, c.open);
    StepKeepsBooks(v, r1.state, Price(symbol, c.high), capital);
    var r2 := PriceUpdate(v, r1.state, symbol, c.high);
    StepKeepsBooks(v, r2.state, Price(symbol, c.low), capital);
    var r3 := PriceUpdate(v, r2.state, symbol, c.low);
    StepKeepsBooks(v, r3.state, Price(symbol, c.close), capital);
  }

  lemma SnappedKeepsBooks(v: Venue, s: State, capital: real)
    requires Books(s, capital)
    ensures Books(Snapped(s), capital) && Snapped(s).account.positions.Keys == s.account.positions.Keys
  {
    StepKeepsBooks(v, s, TakeSnapshot, capital);
  }

  lemma ExecuteKeepsBooks(v: Venue, s: State, p: Plan, close: real, capital: real)
    requires Books(s, capital) && p.symbol !in s.account.positions
    ensures Books(Execute(v, s, p, close).state, capital)
  {
    StepKeepsBooks(v, s, SetPrice(p.symbol, close), capital);
    StepKeepsBooks(v, Priced(s, p.symbol, close), Create(OrderFor(p, AssetOf(v, p.symbol)), Some(close)), capital);
  }

  lemma RulesKeepBooks(v: Venue, s: State, symbol: string, oneR: bool, model: string, c: Candle, capital: real)
    requires Books(s, capital)
    ensures Books(EntryRules(s, symbol, oneR, model, c), capital)
  {
    StepKeepsBooks(v, s, Configure(symbol, ONE_R_RULES), capital);
    var t := if oneR then WithRules(s, symbol, ONE_R_RULES) else s;
    StepKeepsBooks(v, t, Configure(symbol, TrailingRules(c)), capital);
  }

  lemma PlacedKeepsBooks<E>(p: Setup<E>, b: Progress<E>, plan: Plan, c: Candle, capital: real)
    requires Books(b.exchange, capital) && plan.symbol !in b.exchange.account.positions
    ensures Books(Placed(p, b, plan, c).exchange, capital)
  {
    var x := Execute(p.venue, b.exchange, plan, c.close);
    ExecuteKeepsBooks(p.venue, b.exchange, plan, c.close, capital);
    RulesKeepBooks(p.venue, x.state, p.symbol, p.oneR, plan.model, c, capital);
    SnappedKeepsBooks(p.venue, x.state, capital);
    SnappedKeepsBooks(p.venue, EntryRules(x.state, p.symbol, p.oneR, plan.model, c), capital);
  }

  lemma JudgedKeepsBooks<E>(p: Setup<E>, b: Progress<E>, halted: bool, plan: Plan, c: Candle, capital: real)
    requires Books(b.exchange, capital) && plan.symbol !in b.exchange.account.positions
    ensures Books(Judged(p, b, halted, plan, c).exchange, capital)
  {
    var snap := Snap(b.exchange.account, b.exchange.feed.prices).1;
    var after := p.risk(b.engine, halted, snap, plan).0;
    SnappedKeepsBooks(p.venue, b.exchange, capital);
    PlacedKeepsBooks(p, b.(engine := after, exchange := Snapped(b.exchange)), plan, c, capital);
  }

  lemma ActedKeepsBooks<E>(p: Setup<E>, b: Progress<E>, signal: Signal, c: Candle, capital: real)
    requires Books(b.exchange, capital) && p.symbol !in b.exchange.account.positions
    ensures Books(Acted(p, b, signal, c).exchange, capital)
  {
    var plan, halted := PlanFor(p.capital, p.symbol, signal), b.exchange.health.halted;
    JudgedKeepsBooks(p, b.(engine := p.comply(b.engine, halted, plan).0), halted, plan, c, capital);
  }

  lemma BarKeepsBooks<E>(p: Setup<E>, b: Progress<E>, c: Candle, index: nat, signal: Signal,
                         barred: bool, capital: real)
    requires !b.raised && Books(b.exchange, capital)
    ensures Books(BarStep(p, b, c, index, signal, barred).exchange, capital)
  {
    if !barred {
      var path := PricePath(p.venue, b.exchange, p.symbol, c);
      var moved := b.(exchange := path.state);
      PathKeepsBooks(p.venue, b.exchange, p.symbol, c, capital);
      if !path.raised {
        EndKeepsBooks(p, moved, signal, c, WARMUP <= index, capital);
      }
    }
  }

  lemma EndKeepsBooks<E>(p: Setup<E>, b: Progress<E>, signal: Signal, c: Candle, warm: bool, capital: real)
    requires Books(b.exchange, capital)
    ensures Books(BarEnd(p, b, signal, c, warm).exchange, capital)
  {
    var acts := warm && signal.direction != FLAT && p.symbol !in b.exchange.account.positions;
    if acts {
      ActedKeepsBooks(p, b, signal, c, capital);
    }
    SnappedKeepsBooks(p.venue, (if acts then Acted(p, b, signal, c) else b).exchange, capital);
  }

  // ----- the whole backtest -----

  lemma {:induction false} AfterKeepsBooks<E>(p: Setup<E>, candles: seq<Candle>, n: nat)
    requires p.strategy.Valid() && n <= |candles|
    ensures Books(After(p, candles, n).exchange, p.capital)
  {
    if n == 0 {
      OpenedBooks(p.venue, p.capital);
    } else {
      AfterKeepsBooks(p, candles, n - 1);
      var before := After(p, candles, n - 1);
      if before.raised {
        assert After(p, candles, n) == before;
      } else {
        assert After(p, candles, n) == BarOf(p, candles, n);
        BarKeepsBooks(p, before, candles[n - 1], n - 1, Decision(p.strategy, candles, n - 1),
                      p.guarded && Violates(candles[..n], candles[n - 1].timestamp), p.capital);
      }
    }
  }

  lemma OpenedBooks(v: Venue, capital: real)
    ensures Books(Opened(capital), capital)
  {
    Ledger.LedgersAgree(v, capital, []);
  }

  /** After every bar of every backtest: cash and positions account for the capital, the profit taken
      and the fees of the opens; every order's totals are those of its fills, every fill trades its
      order's terms, and no order is left open. */
  lemma BacktestBooksBalance<E>(p: Setup<E>, candles: seq<Candle>, n: nat, marks: map<string, real>)
    requires p.strategy.Valid() && n <= |candles|
    ensures var x := After(p, candles, n).exchange;
            && Money.MoneyConserved(x.account, p.capital, marks)
            && Ledger.Orderly(x) && Prices.AllHonoured(x)
            && forall id :: id in x.orders ==> Terminal(x.orders[id].status)
  {
    AfterKeepsBooks(p, candles, n);
    Money.CapitalIsMoney(After(p, candles, n).exchange.account, marks);
  }
}
