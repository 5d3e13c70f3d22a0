/** How orders and days end: cancelling, expiring and the close of the day. */
module PaperEnds {
  import opened Prelude
  import opened Orders
  import opened Portfolio
  import opened PaperExchange
  import Ledger = PaperLedger

  const OPEN := {CREATED, VALIDATED, SUBMITTED, PARTIALLY_FILLED}

  /** Cancelling ends an open order and nothing else; a finished one stays as it is, and an unknown one
      raises. */
  lemma CancelEnds(s: State, id: OrderId)
    ensures var r := CancelOrder(s, id);
            && (r.raised <==> id !in s.orders)
            && r.state == s.(orders := r.state.orders) && r.state.orders.Keys == s.orders.Keys
            && (forall i :: i in s.orders && i != id ==> r.state.orders[i] == s.orders[i])
            && (id in s.orders ==>
                  r.state.orders[id]
                  == if s.orders[id].status in OPEN then s.orders[id].(status := CANCELLED) else s.orders[id])
  {
  }

  /** Expiring ends an order that has been submitted; it raises for an unknown one and for one that has
      not been submitted yet. */
  lemma ExpireEnds(s: State, id: OrderId)
    ensures var r := ExpireOrder(s, id);
            && (r.raised <==> id !in s.orders || s.orders[id].status in {CREATED, VALIDATED})
            && r.state == s.(orders := r.state.orders) && r.state.orders.Keys == s.orders.Keys
            && (forall i :: i in s.orders && i != id ==> r.state.orders[i] == s.orders[i])
            && (id in s.orders ==>
                  r.state.orders[id]
                  == if s.orders[id].status in {SUBMITTED, PARTIALLY_FILLED} then s.orders[id].(status := EXPIRED)
                     else s.orders[id])
  {
  }

  // ----- listing -----

  /** Open orders are listed in the order of the table. */
  lemma {:induction false} ListedInOrder(orders: map<OrderId, Order>, book: seq<OrderId>, symbol: Option<string>,
                                         j: nat)
    requires j < |OpenIds(orders, book, symbol)|
    ensures exists i ::
      && 0 <= i < |book| && book[i] == OpenIds(orders, book, symbol)[j]
      && OpenIds(orders, book[..i], symbol) == OpenIds(orders, book, symbol)[..j]
  {
    var n := |book| - 1;
    var rest := OpenIds(orders, book[..n], symbol);
    if j < |rest| {
      ListedInOrder(orders, book[..n], symbol, j);
      var i :| 0 <= i < n && book[..n][i] == rest[j] && OpenIds(orders, book[..n][..i], symbol) == rest[..j];
      assert book[..n][..i] == book[..i];
      assert book[i] == OpenIds(orders, book, symbol)[j];
    } else {
      assert book[n] == OpenIds(orders, book, symbol)[j];
    }
  }

  // ----- the day end -----

  lemma {:induction false} CancelAllEnds(s: State, ids: seq<OrderId>)
    requires forall id :: id in ids ==> id in s.orders && s.orders[id].status in OPEN
    ensures var t := CancelAll(s, ids);
            && t == s.(orders := t.orders) && t.orders.Keys == s.orders.Keys
            && forall id :: id in s.orders ==>
                 t.orders[id] == if id in ids then s.orders[id].(status := CANCELLED) else s.orders[id]
  {
    if ids != [] {
      CancelAllEnds(s, ids[..|ids| - 1]);
      assert forall id :: id in ids <==> id in ids[..|ids| - 1] || id == ids[|ids| - 1];
    }
  }

  /** A sound account is flat in every listed symbol after they have been flattened, and none of the
      exits fails. */
  lemma {:induction false} FlattenedIsFlat(v: Venue, s: State, symbols: seq<string>)
    requires Sound(s.account)
    ensures var r := Flattened(v, s, symbols);
            && !r.raised && Sound(r.state.account)
            && (forall x :: x in r.state.account.positions <==> x in s.account.positions && x !in symbols)
  {
    if symbols != [] {
      var init, symbol := symbols[..|symbols| - 1], symbols[|symbols| - 1];
      var t := Flattened(v, s, init).state;
      FlattenedIsFlat(v, s, init);
      if symbol in t.account.positions {
        var price := if symbol in t.feed.prices then t.feed.prices[symbol] else t.account.positions[symbol].price;
        ExitIsFlat(v, t, symbol, price);
      }
      assert forall x :: x in symbols <==> x in init || x == symbol;
    }
  }

  lemma ExitIsFlat(v: Venue, s: State, symbol: string, price: real)
    requires Sound(s.account) && symbol in s.account.positions
    ensures var r := ExitPosition(v, s, symbol, price);
            && !r.raised && Sound(r.state.account)
            && r.state.account.positions == s.account.positions - {symbol}
  {
    var fee := ExitFee(v, symbol, s.account.positions[symbol].quantity, price);
    CloseKeepsSoundIff(s.account, symbol, None, price, fee);
  }

  /** The order, cancelled if it was open. */
  function Ended(o: Order): Order { if o.status in OPEN then o.(status := CANCELLED) else o }

  /** Where every order is filed every open one is listed. */
  lemma AllOpenCancelled(s: State)
    requires forall id :: id in s.orders ==> id in s.book
    ensures var t := CancelAll(s, OpenIds(s.orders, s.book, None));
            && t == s.(orders := t.orders) && t.orders.Keys == s.orders.Keys
            && forall id :: id in s.orders ==> t.orders[id] == Ended(s.orders[id])
  {
    var ids := OpenIds(s.orders, s.book, None);
    assert forall id :: id in s.orders ==> (id in ids <==> s.orders[id].status in OPEN);
    CancelAllEnds(s, ids);
  }

  /** The close of a day completes with every open order cancelled, and no other touched. */
  lemma DayEndCancels(v: Venue, s: State, listing: seq<string>)
    requires Sound(s.account) && Ledger.Orderly(s)
    ensures var r := EndOfDay(v, s, listing);
            && !r.raised && r.state.fills == s.fills && r.state.orders.Keys == s.orders.Keys
            && forall id :: id in s.orders ==> r.state.orders[id] == Ended(s.orders[id])
  {
    var cancelled := CancelAll(s, OpenIds(s.orders, s.book, None));
    AllOpenCancelled(s);
    Ledger.FlattenedSame(v, cancelled, listing);
    FlattenedIsFlat(v, cancelled, listing);
    assert EndOfDay(v, s, listing).state.orders == cancelled.orders;
  }

  /** Where the venue flattens and the listing covers the positions none is left, and where it does not
      all are. The next day starts at the equity it ends with and has no trades. */
  lemma DayEndFlattens(v: Venue, s: State, listing: seq<string>)
    requires Sound(s.account) && Ledger.Orderly(s)
    ensures var t := EndOfDay(v, s, listing).state.account;
            && t.tradesToday == 0 && t.dayStart == Snap(t, map[]).1.equity
            && (v.flattenAtEod && (forall x :: x in s.account.positions ==> x in listing) ==> t.positions == map[])
            && (!v.flattenAtEod ==> t.positions.Keys == s.account.positions.Keys)
  {
    var ids := OpenIds(s.orders, s.book, None);
    CancelAllEnds(s, ids);
    FlattenedIsFlat(v, CancelAll(s, ids), listing);
    var flat := Flatten(v, CancelAll(s, ids), listing);
    DayStarts(flat.state.account, flat.state.feed.prices);
    NoKeysNoPositions(EndOfDay(v, s, listing).state.account.positions);
  }

  lemma NoKeysNoPositions(ps: map<string, Holding>)
    ensures (forall x :: x !in ps) ==> ps == map[]
  {
  }

  /** Marking again where no price is given changes nothing. */
  lemma MarkedTwice(ps: map<string, Holding>, marks: map<string, real>)
    ensures MarkAll(MarkAll(ps, marks), map[]) == MarkAll(ps, marks)
  {
    var marked := MarkAll(ps, marks);
    forall s | s in ps
      ensures Marked(marked[s], MarkPrice(marked[s], map[], s)) == marked[s]
    {
    }
  }

  lemma DayStarts(a: Account, prices: map<string, real>)
    ensures var b := DayClosed(a, prices);
            && b.tradesToday == 0 && b.positions.Keys == a.positions.Keys
            && b.dayStart == Snap(b, map[]).1.equity
  {
    MarkedTwice(a.positions, prices);
    var once := Snap(a, prices).0;
    assert Snap(once, map[]).0.positions == once.positions;
    StartsAtEquity(once);
  }

  lemma StartsAtEquity(a: Account)
    requires MarkAll(a.positions, map[]) == a.positions
    ensures ResetDay(a).positions == a.positions && ResetDay(a).dayStart == Snap(ResetDay(a), map[]).1.equity
  {
  }
}
