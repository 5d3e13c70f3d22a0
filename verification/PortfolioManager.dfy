/** The portfolio as the program keeps it: mutable positions in a mutable manager. */
module PortfolioManagers {
  import opened Prelude
  import opened Portfolio

  class Position {
    const symbol: string
    var side: SideName
    var quantity: real
    var average: real
    var price: real
    var marketValue: real
    var unrealized: real
    var stop: Option<real>
    var target: Option<real>

    constructor (h: Holding)
      ensures Value() == h
    {
      symbol, side, quantity, average := h.symbol, h.side, h.quantity, h.average;
      price, marketValue, unrealized := h.price, h.marketValue, h.unrealized;
      stop, target := h.stop, h.target;
    }

    function Value(): Holding
      reads this
    {
      Holding(symbol, side, quantity, average, price, marketValue, unrealized, stop, target)
    }

    method Mark(newPrice: real)
      modifies this
      ensures Value() == Marked(old(Value()), newPrice)
    {
      price := newPrice;
      marketValue := Abs(quantity) * newPrice;
      if IsLong(side) {
        unrealized := (newPrice - average) * quantity;
      } else {
        unrealized := (average - newPrice) * quantity;
      }
    }

    /** Averages a further trade in the same direction into the position. */
    method Add(more: real, at: real)
      requires quantity + more != 0.0
      modifies this
      ensures Value() == Added(old(Value()), more, at)
    {
      var total := quantity + more;
      average := (average * quantity + at * more) / total;
      quantity := total;
      Mark(at);
    }

    /** Takes a partial close out of the position. */
    method Reduce(less: real, at: real)
      modifies this
      ensures Value() == Reduced(old(Value()), less, at)
    {
      quantity := quantity - less;
      Mark(at);
    }
  }

  class PortfolioManager {
    var cash: real
    var realized: real
    var feesPaid: real
    var peak: real
    var dayStart: real
    var positions: map<string, Position>
    var tradesToday: nat
    ghost var model: Account
    ghost var Repr: set<object>

    /** The fields hold the value `model`; each position knows the symbol it is filed
        under, so no two entries share an object. */
    ghost predicate Valid()
      reads this, Repr
    {
      && this !in Repr
      && model.cash == cash && model.realized == realized && model.feesPaid == feesPaid
      && model.peak == peak && model.dayStart == dayStart && model.tradesToday == tradesToday
      && model.positions.Keys == positions.Keys
      && (forall s {:trigger positions[s]} :: s in positions ==>
            && positions[s] in Repr
            && positions[s].symbol == s
            && positions[s].Value() == model.positions[s])
    }

    constructor (startingCash: real)
      ensures Valid() && model == Fresh(startingCash) && Repr == {}
    {
      cash, realized, feesPaid := startingCash, 0.0, 0.0;
      peak, dayStart := startingCash, startingCash;
      positions, tradesToday, Repr := map[], 0, {};
      model := Fresh(startingCash);
    }

    /** The part of an opening trade that checks the amounts and moves cash and fees. */
    method Charge(side: SideName, quantity: real, price: real, fee: real) returns (refusal: Option<Refusal>)
      requires Valid()
      modifies this
      ensures Valid() && positions == old(positions) && Repr == old(Repr)
      ensures refusal == OpenRefusal(old(model), side, quantity, price, fee)
      ensures model == if refusal.Some? then old(model) else Charged(old(model), side, quantity * price, fee)
    {
      if quantity <= 0.0 || price <= 0.0 {
        return Some(BadAmount);
      }
      var notional := quantity * price;
      if IsLong(side) {
        var cost := notional + fee;
        if cost > cash + CASH_SLACK {
          return Some(InsufficientCash);
        }
        cash := cash - cost;
      } else if IsShort(side) {
        cash := cash + (notional - fee);
      } else {
        return Some(UnsupportedSide);
      }
      feesPaid := feesPaid + fee;
      model := Charged(model, side, notional, fee);
      refusal := None;
    }

    /** Averages a trade into the position held. */
    method Extend(symbol: string, quantity: real, price: real)
      requires Valid() && symbol in positions && positions[symbol].quantity + quantity != 0.0
      modifies `model, Repr
      ensures Valid()
      ensures var ps := old(model).positions;
              model == old(model).(positions := ps[symbol := Added(ps[symbol], quantity, price)])
    {
      positions[symbol].Add(quantity, price);
      model := model.(positions := model.positions[symbol := positions[symbol].Value()]);
    }

    /** Files a new position. */
    method Insert(h: Holding)
      requires Valid() && h.symbol !in positions
      modifies `positions, `model, `Repr
      ensures Valid() && fresh(Repr - old(Repr))
      ensures model == old(model).(positions := old(model).positions[h.symbol := h])
    {
      var position := new Position(h);
      positions := positions[h.symbol := position];
      Repr := Repr + {position};
      model := model.(positions := model.positions[h.symbol := h]);
    }

    /** The position side of an opening trade. */
    method Hold(symbol: string, side: SideName, quantity: real, price: real, stop: Option<real>, target: Option<real>)
      returns (refusal: Option<Refusal>)
      requires Valid()
      modifies `positions, `model, `Repr, Repr
      ensures Valid() && fresh(Repr - old(Repr))
      ensures refusal == LateRefusal(old(model).positions, symbol, side, quantity)
      ensures refusal.Some? ==> model == old(model)
      ensures refusal.None? ==>
        model == old(model).(positions :=
          old(model).positions[symbol := HeldAfter(old(model).positions, symbol, side, quantity, price, stop, target)])
    {
      refusal := None;
      if symbol in positions && positions[symbol].side == side {
        if positions[symbol].quantity + quantity == 0.0 {
          return Some(DivisionByZero);
        }
        Extend(symbol, quantity, price);
      } else {
        if symbol in positions {
          return Some(OppositeSide);
        }
        Insert(NewHolding(symbol, side, quantity, price, stop, target));
      }
    }

    method OpenPosition(symbol: string, side: SideName, quantity: real, price: real, fee: real,
                        stop: Option<real>, target: Option<real>)
      returns (refusal: Option<Refusal>)
      requires Valid()
      modifies this, Repr
      ensures Valid() && fresh(Repr - old(Repr))
      ensures (model, refusal) == Open(old(model), symbol, side, quantity, price, fee, stop, target)
    {
      ghost var spec := Open(model, symbol, side, quantity, price, fee, stop, target);
      refusal := Charge(side, quantity, price, fee);
      if refusal.None? {
        refusal := Hold(symbol, side, quantity, price, stop, target);
        if refusal.None? {
          tradesToday := tradesToday + 1;
          model := model.(tradesToday := tradesToday, audit := spec.0.audit);
        }
      }
    }

    /** The money side of a close. */
    method Settle(newCash: real, pnl: real, fee: real)
      modifies `cash, `realized, `feesPaid, `tradesToday
      ensures cash == newCash && realized == old(realized) + pnl
      ensures feesPaid == old(feesPaid) + fee && tradesToday == old(tradesToday) + 1
    {
      cash := newCash;
      realized := realized + pnl;
      feesPaid := feesPaid + fee;
      tradesToday := tradesToday + 1;
    }

    method ClosePosition(symbol: string, quantity: Option<real>, price: real, fee: real)
      returns (refusal: Option<Refusal>, pnl: real)
      requires Valid()
      modifies this, Repr
      ensures Valid() && Repr == old(Repr)
      ensures (model, refusal) == Close(old(model), symbol, quantity, price, fee)
      ensures refusal.None? ==> pnl == model.realized - old(model).realized
    {
      ghost var spec := Close(model, symbol, quantity, price, fee);
      if symbol !in positions {
        return Some(NoPosition), 0.0;
      }
      var pos := positions[symbol];
      var q := if quantity.None? then pos.quantity else quantity.value;
      if q <= 0.0 || q > pos.quantity + DUST {
        return Some(BadCloseQuantity), 0.0;
      }
      pnl := ClosePnl(pos.Value(), q, price, fee);
      Settle(ClosedCash(cash, pos.Value(), q, price, fee), pnl, fee);
      if ClosesFully(pos.Value(), q) {
        positions := positions - {symbol};
      } else {
        pos.Reduce(q, price);
      }
      model := spec.0;
      refusal := None;
    }

    /** Marks one position in place. */
    method MarkEntry(s: string, price: real) returns (h: Holding)
      requires Valid() && s in positions
      modifies `model, Repr
      ensures Valid()
      ensures h == Marked(old(model).positions[s], price)
      ensures model == old(model).(positions := old(model).positions[s := h])
    {
      positions[s].Mark(price);
      h := positions[s].Value();
      model := model.(positions := model.positions[s := h]);
    }

    /** One round of the marking loop: the next position, and the two sums with what it adds. */
    method MarkNext(s: string, marks: map<string, real>, ghost before: map<string, Holding>, ghost todo: set<string>,
                    profitSoFar: real, equitySoFar: real)
      returns (profit: real, equity: real)
      requires Valid() && s in todo && s in before && model.positions == HalfMarked(before, marks, todo)
      requires profitSoFar == Done(Profit, before, marks, todo)
      requires equitySoFar == cash + Done(Measure.Value, before, marks, todo)
      modifies `model, Repr
      ensures Valid()
      ensures model == old(model).(positions := HalfMarked(before, marks, todo - {s}))
      ensures profit == Done(Profit, before, marks, todo - {s})
      ensures equity == cash + Done(Measure.Value, before, marks, todo - {s})
    {
      var price := if s in marks then marks[s] else positions[s].price;
      assert price == MarkPrice(before[s], marks, s);
      var h := MarkEntry(s, price);
      MarkingStep(before, marks, todo, s, h);
      profit := profitSoFar + h.unrealized;
      equity := equitySoFar + if IsLong(h.side) then h.marketValue else -h.marketValue;
    }

    /** The marking loop of a snapshot: every position marked in place, and the sums. */
    method MarkPositions(marks: map<string, real>) returns (unrealized: real, equity: real)
      requires Valid()
      modifies `model, Repr
      ensures Valid()
      ensures model == old(model).(positions := MarkAll(old(model).positions, marks))
      ensures unrealized == Total(Profit, model.positions)
      ensures equity == cash + Total(Measure.Value, model.positions)
    {
      ghost var start, before := model, model.positions;
      unrealized, equity := 0.0, cash;
      var todo := positions.Keys;
      MarkingStarts(before, marks);
      while todo != {}
        invariant Valid() && todo <= before.Keys
        invariant model == start.(positions := HalfMarked(before, marks, todo))
        invariant unrealized == Done(Profit, before, marks, todo)
        invariant equity == cash + Done(Measure.Value, before, marks, todo)
      {
        var s :| s in todo;
        unrealized, equity := MarkNext(s, marks, before, todo, unrealized, equity);
        todo := todo - {s};
      }
    }

    method TakeSnapshot(marks: map<string, real>) returns (snap: Snapshot)
      requires Valid()
      modifies this, Repr
      ensures Valid() && positions == old(positions) && Repr == old(Repr)
      ensures (model, snap) == Snap(old(model), marks)
    {
      var unrealized, equity := MarkPositions(marks);
      peak := Max(peak, equity);
      snap := Snapshot(cash, equity, Max(cash, 0.0), realized, unrealized, feesPaid,
                       equity - dayStart, if peak <= 0.0 then 0.0 else Max(0.0, (peak - equity) / peak), peak);
      model := model.(peak := peak);
    }

    /** Moves the protective prices of a position. */
    method SetBracket(symbol: string, stop: Option<real>, target: Option<real>)
      requires Valid() && symbol in positions
      modifies `model, Repr
      ensures Valid()
      ensures model == Bracketed(old(model), symbol, stop, target)
    {
      var pos := positions[symbol];
      pos.stop := stop;
      pos.target := target;
      model := Bracketed(model, symbol, stop, target);
    }

    method ResetTradingDay()
      requires Valid()
      modifies this, Repr
      ensures Valid() && positions == old(positions) && Repr == old(Repr)
      ensures model == ResetDay(old(model))
    {
      var snap := TakeSnapshot(map[]);
      dayStart := snap.equity;
      tradesToday := 0;
      model := model.(dayStart := snap.equity, tradesToday := 0);
    }
  }

  // ----- the marking loop, on values -----

  /** The positions when only `todo` are still to be marked. */
  ghost function HalfMarked(ps: map<string, Holding>, marks: map<string, real>, todo: set<string>)
    : map<string, Holding>
  {
    map s | s in ps :: if s in todo then ps[s] else Marked(ps[s], MarkPrice(ps[s], marks, s))
  }

  ghost function Left(ps: map<string, Holding>, todo: set<string>): map<string, Holding> {
    map s | s in ps && s in todo :: ps[s]
  }

  /** The share of a total that marked positions have contributed. */
  ghost function Done(m: Measure, ps: map<string, Holding>, marks: map<string, real>, todo: set<string>): real {
    Total(m, MarkAll(ps, marks)) - Total(m, Left(MarkAll(ps, marks), todo))
  }

  lemma MarkingStarts(ps: map<string, Holding>, marks: map<string, real>)
    ensures HalfMarked(ps, marks, ps.Keys) == ps && HalfMarked(ps, marks, {}) == MarkAll(ps, marks)
    ensures Done(Profit, ps, marks, ps.Keys) == 0.0 == Done(Measure.Value, ps, marks, ps.Keys)
    ensures Done(Profit, ps, marks, {}) == Total(Profit, MarkAll(ps, marks))
    ensures Done(Measure.Value, ps, marks, {}) == Total(Measure.Value, MarkAll(ps, marks))
  {
    assert Left(MarkAll(ps, marks), ps.Keys) == MarkAll(ps, marks);
    assert Left(MarkAll(ps, marks), {}) == map[];
  }

  lemma MarkingStep(ps: map<string, Holding>, marks: map<string, real>, todo: set<string>, s: string,
                    h: Holding)
    requires s in todo && s in ps && h == Marked(ps[s], MarkPrice(ps[s], marks, s))
    ensures HalfMarked(ps, marks, todo)[s := h] == HalfMarked(ps, marks, todo - {s})
    ensures Done(Profit, ps, marks, todo - {s}) == Done(Profit, ps, marks, todo) + h.unrealized
    ensures Done(Measure.Value, ps, marks, todo - {s})
         == Done(Measure.Value, ps, marks, todo) + (if IsLong(h.side) then h.marketValue else -h.marketValue)
  {
    var left := Left(MarkAll(ps, marks), todo);
    assert left - {s} == Left(MarkAll(ps, marks), todo - {s});
    TotalSplit(Profit, left, s);
    TotalSplit(Measure.Value, left, s);
  }
}
