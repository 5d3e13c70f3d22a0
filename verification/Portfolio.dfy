/** The accounting portfolio: cash, realized profit, fees and one position per
    symbol, with weighted-average entries on the long and on the short side.

    `Account` is the value of a portfolio and `Open`, `Close`, `Snap` its
    transitions; the class `PortfolioManager` below performs them in place. */
module Portfolio {
  import opened Prelude

  /** A side label after case folding. The code accepts four labels. */
  datatype SideName = LONG | BUY | SHORT | SELL | OTHER

  predicate IsLong(side: SideName) { side == LONG || side == BUY }

  predicate IsShort(side: SideName) { side == SHORT || side == SELL }

  /** The value of one position. */
  datatype Holding = Holding(
    symbol: string, side: SideName, quantity: real, average: real,
    price: real, marketValue: real, unrealized: real,
    stop: Option<real>, target: Option<real>)

  /** History the code does not keep: what the conservation law needs to name.
      `dropped` sums the cost of the residues that full closes discard, `dropBound`
      its guaranteed bound, which an exact close leaves alone, `dusted` records a close of exactly `quantity + DUST`,
      `shorted` that some short was opened. */
  datatype Audit = Audit(openFees: real, dropped: real, dropBound: real, dusted: bool, shorted: bool)

  datatype Account = Account(
    cash: real, realized: real, feesPaid: real, peak: real, dayStart: real,
    positions: map<string, Holding>, tradesToday: nat, audit: Audit)

  datatype Refusal =
    | BadAmount | InsufficientCash | UnsupportedSide
    | OppositeSide | DivisionByZero | NoPosition | BadCloseQuantity

  function Fresh(startingCash: real): Account {
    Account(startingCash, 0.0, 0.0, startingCash, startingCash, map[], 0,
            Audit(0.0, 0.0, 0.0, false, false))
  }

  // ----- transitions -----

  function Marked(h: Holding, price: real): Holding {
    h.(price := price,
       marketValue := Abs(h.quantity) * price,
       unrealized := if IsLong(h.side) then (price - h.average) * h.quantity
                     else (h.average - price) * h.quantity)
  }

  /** Cash and fee movement of an opening trade, made before the position is looked at. */
  function Charged(a: Account, side: SideName, notional: real, fee: real): Account {
    a.(cash := if IsLong(side) then a.cash - (notional + fee) else a.cash + (notional - fee),
       feesPaid := a.feesPaid + fee)
  }

  function Added(h: Holding, quantity: real, price: real): Holding
    requires h.quantity + quantity != 0.0
  {
    var total := h.quantity + quantity;
    Marked(h.(average := (h.average * h.quantity + price * quantity) / total,
              quantity := total), price)
  }

  function NewHolding(symbol: string, side: SideName, quantity: real, price: real,
                      stop: Option<real>, target: Option<real>): Holding {
    Holding(symbol, side, quantity, price, price, quantity * price, 0.0, stop, target)
  }

  /** What the side check of an opening trade refuses before any cash moves. */
  function OpenRefusal(a: Account, side: SideName, quantity: real, price: real, fee: real): Option<Refusal> {
    if quantity <= 0.0 || price <= 0.0 then Some(BadAmount)
    else if IsLong(side) then
      if quantity * price + fee > a.cash + CASH_SLACK then Some(InsufficientCash) else None
    else if IsShort(side) then None
    else Some(UnsupportedSide)
  }

  /** What still fails after cash has moved. */
  function LateRefusal(ps: map<string, Holding>, symbol: string, side: SideName, quantity: real): Option<Refusal> {
    if symbol !in ps then None
    else if ps[symbol].side != side then Some(OppositeSide)
    else if ps[symbol].quantity + quantity == 0.0 then Some(DivisionByZero)
    else None
  }

  /** The position an opening trade leaves: the one held averaged with it, or a new one. */
  function HeldAfter(ps: map<string, Holding>, symbol: string, side: SideName, quantity: real, price: real,
                     stop: Option<real>, target: Option<real>): Holding
    requires LateRefusal(ps, symbol, side, quantity).None?
  {
    if symbol in ps then Added(ps[symbol], quantity, price)
    else NewHolding(symbol, side, quantity, price, stop, target)
  }

  function Open(a: Account, symbol: string, side: SideName, quantity: real, price: real, fee: real,
                stop: Option<real>, target: Option<real>): (Account, Option<Refusal>)
  {
    var early := OpenRefusal(a, side, quantity, price, fee);
    if early.Some? then (a, early)
    else
      var b := Charged(a, side, quantity * price, fee);
      var late := LateRefusal(a.positions, symbol, side, quantity);
      if late.Some? then (b, late)
      else
        (b.(positions := a.positions[symbol := HeldAfter(a.positions, symbol, side, quantity, price, stop, target)],
            tradesToday := a.tradesToday + 1,
            audit := a.audit.(openFees := a.audit.openFees + fee,
                              shorted := a.audit.shorted || IsShort(side))),
         None)
  }

  function ClosePnl(h: Holding, quantity: real, price: real, fee: real): real {
    (if IsLong(h.side) then (price - h.average) * quantity else (h.average - price) * quantity) - fee
  }

  /** Cash after buying back or selling `quantity` units. */
  function ClosedCash(cash: real, h: Holding, quantity: real, price: real, fee: real): real {
    if IsLong(h.side) then cash + (quantity * price - fee) else cash - (quantity * price + fee)
  }

  /** What a partial close leaves. */
  function Reduced(h: Holding, quantity: real, price: real): Holding {
    Marked(h.(quantity := h.quantity - quantity), price)
  }

  predicate ClosesFully(h: Holding, quantity: real) { Abs(h.quantity - quantity) < DUST }

  /** The position value a full close discards: what is left of the quantity, at cost,
      with the sign the position carries in `Book`. */
  function Residue(h: Holding, quantity: real): real { Leftover(h, quantity) * h.average }

  function Leftover(h: Holding, quantity: real): real {
    if IsLong(h.side) then h.quantity - quantity else quantity - h.quantity
  }

  function CloseRefusal(a: Account, symbol: string, quantity: Option<real>): Option<Refusal> {
    if symbol !in a.positions then Some(NoPosition)
    else
      var q := if quantity.None? then a.positions[symbol].quantity else quantity.value;
      if q <= 0.0 || q > a.positions[symbol].quantity + DUST then Some(BadCloseQuantity) else None
  }

  function Close(a: Account, symbol: string, quantity: Option<real>, price: real, fee: real)
    : (Account, Option<Refusal>)
  {
    var refusal := CloseRefusal(a, symbol, quantity);
    if refusal.Some? then (a, refusal)
    else
      var h := a.positions[symbol];
      var q := if quantity.None? then h.quantity else quantity.value;
      var pnl := ClosePnl(h, q, price, fee);
      var full := ClosesFully(h, q);
      (a.(cash := ClosedCash(a.cash, h, q, price, fee),
          realized := a.realized + pnl,
          feesPaid := a.feesPaid + fee,
          positions := if full then a.positions - {symbol} else a.positions[symbol := Reduced(h, q, price)],
          tradesToday := a.tradesToday + 1,
          audit := if full
                   then a.audit.(dropped := a.audit.dropped + Residue(h, q),
                                 dropBound := a.audit.dropBound
                                              + if q == h.quantity then 0.0 else DUST * Abs(h.average))
                   else a.audit.(dusted := a.audit.dusted || q > h.quantity)),
       None)
  }

  /** The position under other protective prices. */
  function Bracketed(a: Account, symbol: string, stop: Option<real>, target: Option<real>): Account
    requires symbol in a.positions
  {
    a.(positions := a.positions[symbol := a.positions[symbol].(stop := stop, target := target)])
  }

  datatype Snapshot = Snapshot(
    cash: real, equity: real, available: real, realized: real,
    unrealized: real, fees: real, dailyPnl: real, drawdown: real, peak: real)

  function MarkPrice(h: Holding, marks: map<string, real>, symbol: string): real {
    if symbol in marks then marks[symbol] else h.price
  }

  function MarkAll(ps: map<string, Holding>, marks: map<string, real>): map<string, Holding> {
    map s | s in ps :: Marked(ps[s], MarkPrice(ps[s], marks, s))
  }

  /** What a portfolio adds up over its positions. */
  datatype Measure = Cost | Value | Profit

  /** A position at cost and at its mark, both with the sign they have on equity, and the
      difference between the two as the position itself records it. */
  function Of(m: Measure, h: Holding): real {
    match m
    case Cost => if IsLong(h.side) then h.quantity * h.average else -(h.quantity * h.average)
    case Value => if IsLong(h.side) then h.marketValue else -h.marketValue
    case Profit => h.unrealized
  }

  ghost function Pick(ps: map<string, Holding>): (k: string)
    requires ps != map[]
    ensures k in ps
  {
    var k :| k in ps;
    k
  }

  ghost function Total(m: Measure, ps: map<string, Holding>): real
    decreases |ps|
  {
    if ps == map[] then 0.0
    else
      var k := Pick(ps);
      Of(m, ps[k]) + Total(m, ps - {k})
  }

  function Drawdown(peak: real, equity: real): real {
    if peak <= 0.0 then 0.0 else Max(0.0, (peak - equity) / peak)
  }

  ghost function Equity(a: Account): real { a.cash + Total(Value, a.positions) }

  /** A snapshot marks every position and raises the equity peak. */
  ghost function Snap(a: Account, marks: map<string, real>): (Account, Snapshot) {
    var m := a.(positions := MarkAll(a.positions, marks));
    var equity := Equity(m);
    var peak := Max(a.peak, equity);
    (m.(peak := peak),
     Snapshot(a.cash, equity, Max(a.cash, 0.0), a.realized,
              Total(Profit, m.positions), a.feesPaid, equity - a.dayStart,
              Drawdown(peak, equity), peak))
  }

  ghost function ResetDay(a: Account): Account {
    var (b, snap) := Snap(a, map[]);
    b.(dayStart := snap.equity, tradesToday := 0)
  }

  // ----- the conservation law -----

  /** Any position may be split off the sum first, not only the one `Total` picks. */
  lemma {:induction false} TotalSplit(m: Measure, ps: map<string, Holding>, k: string)
    requires k in ps
    ensures Total(m, ps) == Of(m, ps[k]) + Total(m, ps - {k})
    decreases |ps|
  {
    var p := Pick(ps);
    if p != k {
      assert (ps - {p}) - {k} == (ps - {k}) - {p};
      TotalSplit(m, ps - {p}, k);
      TotalSplit(m, ps - {k}, p);
    }
  }

  lemma TotalPut(m: Measure, ps: map<string, Holding>, k: string, h: Holding)
    ensures Total(m, ps[k := h]) == Total(m, ps) + Of(m, h) - (if k in ps then Of(m, ps[k]) else 0.0)
  {
    TotalSplit(m, ps[k := h], k);
    assert ps[k := h] - {k} == ps - {k};
    if k in ps {
      TotalSplit(m, ps, k);
    } else {
      assert ps - {k} == ps;
    }
  }

  /** Cash plus positions at cost. */
  ghost function Book(a: Account): real { a.cash + Total(Cost, a.positions) }

  /** What every trade keeps: the book value, corrected for profit taken, fees on
      opens and residues dropped. It starts as the starting cash. */
  ghost function Capital(a: Account): real {
    Book(a) - a.realized + a.audit.openFees + a.audit.dropped
  }

  predicate Sound(a: Account) {
    && (forall s :: s in a.positions ==>
          && a.positions[s].symbol == s
          && (a.positions[s].side == LONG || a.positions[s].side == SHORT)
          && a.positions[s].quantity > 0.0
          && a.positions[s].average > 0.0)
    && Abs(a.audit.dropped) <= a.audit.dropBound
  }

  lemma AbsOfProduct(x: real, y: real)
    ensures Abs(x * y) == Abs(x) * Abs(y)
  {
    if x >= 0.0 && y >= 0.0 { assert x * y >= 0.0; }
    else if x >= 0.0 { assert x * -y >= 0.0; }
    else if y >= 0.0 { assert -x * y >= 0.0; }
    else { assert -x * -y >= 0.0; }
  }

  lemma SmallProduct(d: real, x: real)
    requires Abs(d) < DUST
    ensures Abs(d * x) <= DUST * Abs(x)
  {
    AbsOfProduct(d, x);
    ScaleLeq(Abs(d), DUST, Abs(x));
  }

  lemma AddedCost(h: Holding, quantity: real, price: real)
    requires h.quantity + quantity != 0.0
    ensures Added(h, quantity, price).quantity * Added(h, quantity, price).average
         == h.quantity * h.average + quantity * price
  {
    var total := h.quantity + quantity;
    var spent := h.average * h.quantity + price * quantity;
    assert total * (spent / total) == spent;
  }

  /** The position an opening trade leaves costs the notional more than the one it found. */
  lemma OpenedCost(a: Account, symbol: string, side: SideName, quantity: real, price: real, fee: real,
                   stop: Option<real>, target: Option<real>)
    requires Open(a, symbol, side, quantity, price, fee, stop, target).1.None?
    ensures var b := Open(a, symbol, side, quantity, price, fee, stop, target).0;
            && b.positions == a.positions[symbol := b.positions[symbol]]
            && Of(Cost, b.positions[symbol]) == (if symbol in a.positions then Of(Cost, a.positions[symbol]) else 0.0)
                                              + (if IsLong(side) then quantity * price else -(quantity * price))
  {
    if symbol in a.positions {
      AddedCost(a.positions[symbol], quantity, price);
    }
  }

  /** An opening trade keeps the capital; its fee is the only thing that leaves the book. */
  lemma OpenKeepsCapital(a: Account, symbol: string, side: SideName, quantity: real, price: real, fee: real,
                         stop: Option<real>, target: Option<real>)
    requires Open(a, symbol, side, quantity, price, fee, stop, target).1.None?
    ensures var b := Open(a, symbol, side, quantity, price, fee, stop, target).0;
            Capital(b) == Capital(a) && Book(b) == Book(a) - fee
  {
    var b := Open(a, symbol, side, quantity, price, fee, stop, target).0;
    OpenedCost(a, symbol, side, quantity, price, fee, stop, target);
    TotalPut(Cost, a.positions, symbol, b.positions[symbol]);
  }

  /** A refused open leaves the portfolio alone exactly when the refusal comes before the
      position is looked at: a position held under another side label, or one whose quantity
      the trade cancels to zero, is noticed only after cash and fees have moved. */
  lemma RefusedOpenIsCleanIff(a: Account, symbol: string, side: SideName, quantity: real, price: real, fee: real,
                              stop: Option<real>, target: Option<real>)
    requires Open(a, symbol, side, quantity, price, fee, stop, target).1.Some?
    ensures Open(a, symbol, side, quantity, price, fee, stop, target).0 == a
            <==> OpenRefusal(a, side, quantity, price, fee).Some?
  {
    if OpenRefusal(a, side, quantity, price, fee).None? {
      assert quantity * price > 0.0;
      var b := Charged(a, side, quantity * price, fee);
      assert b.cash != a.cash || b.feesPaid != a.feesPaid;
    }
  }

  /** The cash a close moves is its profit plus the cost of what leaves the position,
      read either as what a partial close takes or as everything less the residue. */
  lemma ClosedCashSplits(cash: real, h: Holding, quantity: real, price: real, fee: real)
    ensures var moved := ClosedCash(cash, h, quantity, price, fee) - cash;
            var pnl := ClosePnl(h, quantity, price, fee);
            && moved == pnl + Of(Cost, h) - Of(Cost, Reduced(h, quantity, price))
            && moved == pnl + Of(Cost, h) - Residue(h, quantity)
  {
    assert (price - h.average) * quantity == price * quantity - h.average * quantity;
    assert (h.quantity - quantity) * h.average == h.quantity * h.average - quantity * h.average;
  }

  /** A close moves the book by exactly its profit, up to the residue a full close drops;
      with that residue accounted for, the capital is kept. */
  lemma CloseKeepsCapital(a: Account, symbol: string, quantity: Option<real>, price: real, fee: real)
    ensures var (b, refusal) := Close(a, symbol, quantity, price, fee);
            && Capital(b) == Capital(a)
            && (refusal.Some? ==> b == a)
            && Book(b) - Book(a) == (b.realized - a.realized) - (b.audit.dropped - a.audit.dropped)
  {
    var (b, refusal) := Close(a, symbol, quantity, price, fee);
    if refusal.None? {
      var h := a.positions[symbol];
      var q := if quantity.None? then h.quantity else quantity.value;
      ClosedCashSplits(a.cash, h, q, price, fee);
      if ClosesFully(h, q) {
        TotalSplit(Cost, a.positions, symbol);
      } else {
        TotalPut(Cost, a.positions, symbol, b.positions[symbol]);
      }
    }
  }

  /** A residue is worth less than `DUST` units at the average entry. */
  lemma ResidueIsSmall(h: Holding, quantity: real)
    requires ClosesFully(h, quantity)
    ensures Abs(Residue(h, quantity)) <= DUST * Abs(h.average)
  {
    SmallProduct(Leftover(h, quantity), h.average);
  }

  /** On a sound portfolio an open in the held direction, or with nothing held, stays sound. */
  lemma OpenKeepsSound(a: Account, symbol: string, side: SideName, quantity: real, price: real, fee: real,
                       stop: Option<real>, target: Option<real>)
    requires Sound(a)
    requires side == LONG || side == SHORT
    requires symbol in a.positions ==> a.positions[symbol].side == side
    ensures var (b, refusal) := Open(a, symbol, side, quantity, price, fee, stop, target);
            Sound(b) && (refusal.Some? ==> b == a)
  {
    var (b, refusal) := Open(a, symbol, side, quantity, price, fee, stop, target);
    if refusal.None? && symbol in a.positions {
      var h := a.positions[symbol];
      var spent := h.average * h.quantity + price * quantity;
      assert h.average * h.quantity > 0.0 && price * quantity > 0.0;
      assert spent / (h.quantity + quantity) > 0.0;
    }
  }

  /** A close keeps every quantity positive in all cases but one: a partial close, of exactly
      the held quantity plus `DUST`, passes the size check yet is not a full close, and leaves
      minus `DUST` behind. */
  lemma CloseKeepsSoundIff(a: Account, symbol: string, quantity: Option<real>, price: real, fee: real)
    requires Sound(a)
    ensures var (b, refusal) := Close(a, symbol, quantity, price, fee);
            Sound(b) <==> !(symbol in a.positions && quantity == Some(a.positions[symbol].quantity + DUST))
    ensures var (b, refusal) := Close(a, symbol, quantity, price, fee);
            !a.audit.dusted && !b.audit.dusted ==> Sound(b)
  {
    var (b, refusal) := Close(a, symbol, quantity, price, fee);
    if refusal.None? {
      var h := a.positions[symbol];
      var q := if quantity.None? then h.quantity else quantity.value;
      if ClosesFully(h, q) {
        ResidueIsSmall(h, q);
        assert Sound(b);
      } else {
        assert b.positions == a.positions[symbol := b.positions[symbol]];
        assert b.positions[symbol].quantity == h.quantity - q;
        assert q > h.quantity <==> q == h.quantity + DUST;
        assert Sound(b) <==> q <= h.quantity;
      }
    }
  }

  /** Marked to any price, a position is worth its cost plus its unrealized profit, and its
      cost has not moved. */
  lemma MarkedValue(h: Holding, price: real)
    requires h.quantity > 0.0
    ensures var k := Marked(h, price);
            Of(Value, k) == Of(Cost, k) + Of(Profit, k) && Of(Cost, k) == Of(Cost, h)
  {
    assert (price - h.average) * h.quantity == price * h.quantity - h.average * h.quantity;
  }

  /** The same for any set of positions marked together. */
  lemma {:induction false} MarkedTotals(ps: map<string, Holding>, marks: map<string, real>)
    requires forall s :: s in ps ==> ps[s].quantity > 0.0
    ensures var marked := MarkAll(ps, marks);
            && Total(Value, marked) == Total(Cost, ps) + Total(Profit, marked)
            && Total(Cost, marked) == Total(Cost, ps)
    decreases |ps|
  {
    var marked := MarkAll(ps, marks);
    if ps == map[] {
      assert marked == map[];
    } else {
      var k := Pick(ps);
      MarkedValue(ps[k], MarkPrice(ps[k], marks, k));
      MarkedTotals(ps - {k}, marks);
      assert MarkAll(ps - {k}, marks) == marked - {k};
      TotalSplit(Value, marked, k);
      TotalSplit(Cost, marked, k);
      TotalSplit(Profit, marked, k);
    }
  }

  /** A snapshot's equity is the conserved book plus the unrealized profit it reports, and
      taking it moves neither the book nor the capital. */
  lemma SnapshotEquity(a: Account, marks: map<string, real>)
    requires Sound(a)
    ensures var (b, snap) := Snap(a, marks);
            && snap.equity == Book(a) + snap.unrealized
            && Book(b) == Book(a) && Capital(b) == Capital(a)
            && Sound(b)
            && snap.peak >= snap.equity && snap.drawdown >= 0.0
  {
    MarkedTotals(a.positions, marks);
  }
}
