/**
 What TPC-E Trade-Result does over every sequence of trades: lots are consumed first in first out
 or last in first out by the dates of the trades that opened them, the history rows are the audit
 trail of the lots, and the holdings are what was traded.
 */
module TradeOrder {
  import opened Basics
  import opened TradeResult

  // ----- what was traded -----

  ghost predicate Repeats(ts: seq<Trade>, t: Trade) {
    exists i :: 0 <= i < |ts| && ts[i].id == t.id
  }

  // Bought minus sold for one account and security; a trade number counts once.
  ghost function Net(ts: seq<Trade>, k: (nat, nat)): int {
    if ts == [] then 0
    else
      var n := |ts| - 1;
      Net(ts[..n], k) + if KeyOf(ts[n]) == k && !Repeats(ts[..n], ts[n]) then Signed(ts[n].sell, ts[n].qty) else 0
  }

  lemma PrefixReaches(ds: seq<Desk>, ts: seq<Trade>, n: nat)
    requires Reaches(ds, ts) && n <= |ts|
    ensures Reaches(ds[..n + 1], ts[..n]) && Valid(ds[n])
  {
    hide Valid, Result;
    AlwaysConsistent(ds[..n + 1], ts[..n]);
  }

  // A trade is settled exactly if its number has occurred.
  lemma {:induction false} SettledOnce(ds: seq<Desk>, ts: seq<Trade>, t: Trade)
    requires Reaches(ds, ts)
    ensures t.id in ds[|ts|].settled <==> Repeats(ts, t)
  {
    if ts != [] {
      var n := |ts| - 1;
      PrefixReaches(ds, ts, n);
      SettledOnce(ds[..n + 1], ts[..n], t);
      SettledNext(ds[n], ts[n], t.id);
      assert ts == ts[..n] + [ts[n]];
      assert Repeats(ts, t) <==> Repeats(ts[..n], t) || ts[n].id == t.id by {
        if ts[n].id == t.id { assert ts[n].id == t.id; }
        if Repeats(ts[..n], t) {
          var i :| 0 <= i < n && ts[..n][i].id == t.id;
          assert ts[i].id == t.id;
        }
        if Repeats(ts, t) && ts[n].id != t.id {
          var i :| 0 <= i < |ts| && ts[i].id == t.id;
          assert ts[..n][i].id == t.id;
        }
      }
    }
  }

  lemma SettledNext(d: Desk, t: Trade, id: nat)
    requires Valid(d)
    ensures id in Result(d, t).settled <==> id in d.settled || id == t.id
  {
    hide Settle, Valid;
  }

  // What one trade does to the holdings of each account and security.
  lemma HoldingsNext(d: Desk, t: Trade, k: (nat, nat))
    requires Valid(d)
    ensures Total(BookOf(Result(d, t), k).lots)
            == Total(BookOf(d, k).lots) + if KeyOf(t) == k && t.id !in d.settled then Signed(t.sell, t.qty) else 0
  {
    if t.id !in d.settled {
      assert BookValid(d, KeyOf(t));
      SettleKeeps(BookOf(d, KeyOf(t)), t);
      hide Settle, Consistent, Total, Change;
    }
  }

  /** The holdings of every account and security are what was bought minus what was sold. */
  lemma {:induction false} HoldingsAreNet(ds: seq<Desk>, ts: seq<Trade>, k: (nat, nat))
    requires Reaches(ds, ts)
    ensures Total(BookOf(ds[|ts|], k).lots) == Net(ts, k)
    ensures HeldQty(BookOf(ds[|ts|], k)) == Net(ts, k)
  {
    PrefixReaches(ds, ts, |ts|);
    assert BookValid(ds[|ts|], k);
    if ts != [] {
      var n := |ts| - 1;
      PrefixReaches(ds, ts, n);
      HoldingsAreNet(ds[..n + 1], ts[..n], k);
      SettledOnce(ds[..n + 1], ts[..n], ts[n]);
      hide Valid, Result, BookValid, Total;
      HoldingsNext(ds[n], ts[n], k);
    }
  }

  // ----- the order of consumption -----

  // The order in which trades are used up.
  predicate Earlier(a: Trade, b: Trade, lifo: bool) {
    if lifo then a.dts > b.dts || (a.dts == b.dts && a.id > b.id)
    else a.dts < b.dts || (a.dts == b.dts && a.id < b.id)
  }

  // Lots of a valid book with the same number are the same lot.
  ghost predicate Unique(lots: seq<Lot>) {
    forall i, j :: 0 <= i < |lots| && 0 <= j < |lots| && lots[i].id == lots[j].id ==> i == j
  }

  lemma ValidIsUnique(d: Desk, k: (nat, nat))
    requires BookValid(d, k)
    ensures Unique(BookOf(d, k).lots)
  {
    hide Total, Change, OneSided;
    var lots := BookOf(d, k).lots;
    forall i, j | 0 <= i < |lots| && 0 <= j < |lots| && lots[i].id == lots[j].id ensures i == j {
      assert lots[i] in lots && lots[j] in lots;
      assert Opened(d, k, lots[i]) && Opened(d, k, lots[j]);
    }
  }

  lemma UniqueInOrder(lots: seq<Lot>, lifo: bool)
    requires Unique(lots)
    ensures Unique(Order(lots, lifo))
  {
    var o := Order(lots, lifo);
    forall i, j | 0 <= i < |o| && 0 <= j < |o| && o[i].id == o[j].id ensures i == j {
      if lifo { assert lots[|lots| - 1 - i].id == lots[|lots| - 1 - j].id; }
    }
  }

  // The rows of a trade: first those of the lots it takes, then the one of the lot it opens.
  lemma SettledRows(b: Book, t: Trade)
    requires Consistent(b)
    ensures var o := Taken(b, t); var order := Order(b.lots, t.lifo);
            && TakenInOrder(order, o, t.sell, t.id)
            && Settle(b, t).1 == o.rows + if o.open > 0 then [Row(t.id, t.id, 0, Signed(t.sell, o.open))] else []
  {
    TakesInOrder(b, t);
    SettleShape(b, t);
    hide Consistent, Taken, Settle, Order, TakenInOrder;
  }

  lemma TakesInOrder(b: Book, t: Trade)
    requires Consistent(b)
    ensures TakenInOrder(Order(b.lots, t.lifo), Taken(b, t), t.sell, t.id)
  {
    hide Consistent, Consume, Order;
    HeldSide(b, t);
    if Against(b, t) { ConsumeInOrder(Order(b.lots, t.lifo), t.qty, t.sell, t.id); }
  }

  lemma PlaceInOrder(lots: seq<Lot>, lifo: bool, l: Lot) returns (i: nat)
    requires l in lots
    ensures i < |Order(lots, lifo)| && Order(lots, lifo)[i] == l
  {
    OrderTotal(lots, lifo);
    i :| 0 <= i < |Order(lots, lifo)| && Order(lots, lifo)[i] == l;
  }

  lemma OrderedByTrade(d: Desk, k: (nat, nat), lifo: bool, i: nat, j: nat)
    requires BookValid(d, k) && i < |BookOf(d, k).lots| && j < |BookOf(d, k).lots|
    requires var o := Order(BookOf(d, k).lots, lifo);
             && o[i].id in d.settled && o[j].id in d.settled
             && Earlier(d.settled[o[i].id], d.settled[o[j].id], lifo)
    ensures i < j
  {
    hide Total, Change, OneSided;
    var lots := BookOf(d, k).lots;
    var o := Order(lots, lifo);
    var p, q := if lifo then |lots| - 1 - i else i, if lifo then |lots| - 1 - j else j;
    assert o[i] == lots[p] && o[j] == lots[q];
    assert Opened(d, k, lots[p]) && Opened(d, k, lots[q]);
    if p < q { assert Before(lots[p], lots[q]); } else if q < p { assert Before(lots[q], lots[p]); }
  }

  // A lot before one that was touched is used up, and named by a row that says so.
  lemma UsedUp(order: seq<Lot>, o: Outcome, sell: bool, trade: nat, i: nat, j: nat)
    requires TakenInOrder(order, o, sell, trade) && Unique(order) && i < j < |o.rows|
    ensures Row(trade, order[i].id, order[i].qty, 0) in o.rows
    ensures forall l :: l in o.left ==> l.id != order[i].id
  {
    assert o.rows[i] == Row(trade, order[i].id, order[i].qty, 0);
    var k := |o.rows|;
    forall l | l in o.left ensures l.id != order[i].id {
      if l in order[k..] {
        var p :| 0 <= p < |order[k..]| && order[k..][p] == l;
        assert order[k + p].id == l.id;
      } else {
        assert l.id == order[k - 1].id;
      }
    }
  }

  // The history rows written from one moment to the next.
  function Added(d: Desk, d': Desk, k: (nat, nat)): seq<Row> {
    if |RowsOf(d, k)| <= |RowsOf(d', k)| then RowsOf(d', k)[|RowsOf(d, k)|..] else []
  }

  /**
   First in first out, or last in first out: over every sequence of trades, when a trade touches a
   lot, every held lot of an earlier trade in that order has been used up by it, with a history row
   that says so.
   */
  lemma ConsumedInTradeOrder(ds: seq<Desk>, ts: seq<Trade>, n: nat, h: Lot, l: Lot)
    requires Reaches(ds, ts) && n < |ts| && ts[n].id !in ds[n].settled
    requires var t := ts[n]; var k := KeyOf(t);
             && h in BookOf(ds[n], k).lots && l in BookOf(ds[n], k).lots
             && h.id in ds[n].settled && l.id in ds[n].settled
             && Earlier(ds[n].settled[h.id], ds[n].settled[l.id], t.lifo)
             && exists row :: row in Added(ds[n], ds[n + 1], k) && row.lot == l.id
    ensures var t := ts[n]; var k := KeyOf(t);
            && Row(t.id, h.id, h.qty, 0) in Added(ds[n], ds[n + 1], k)
            && forall x :: x in BookOf(ds[n + 1], k).lots ==> x.id != h.id
  {
    PrefixReaches(ds, ts, n);
    var d, t := ds[n], ts[n];
    var k := KeyOf(t);
    assert BookValid(d, k);
    assert ds[n + 1] == Result(d, t);
    var b := BookOf(d, k);
    var rows := Settle(b, t).1;
    assert RowsOf(ds[n + 1], k) == RowsOf(d, k) + rows;
    assert Added(d, ds[n + 1], k) == rows;
    hide Reaches, Valid, Result, Settle;
    TouchedInOrder(d, t, h, l);
    assert BookOf(ds[n + 1], k) == Settle(b, t).0 by { ResultBook(d, t); }
  }

  lemma ResultBook(d: Desk, t: Trade)
    requires Valid(d) && t.id !in d.settled
    ensures BookValid(d, KeyOf(t)) && BookOf(Result(d, t), KeyOf(t)) == Settle(BookOf(d, KeyOf(t)), t).0
  {
    assert BookValid(d, KeyOf(t));
    hide Settle;
  }

  lemma TouchedInOrder(d: Desk, t: Trade, h: Lot, l: Lot)
    requires BookValid(d, KeyOf(t)) && t.id !in d.settled
    requires h in BookOf(d, KeyOf(t)).lots && l in BookOf(d, KeyOf(t)).lots
    requires h.id in d.settled && l.id in d.settled && Earlier(d.settled[h.id], d.settled[l.id], t.lifo)
    requires exists row :: row in Settle(BookOf(d, KeyOf(t)), t).1 && row.lot == l.id
    ensures var (b', rows) := Settle(BookOf(d, KeyOf(t)), t);
            Row(t.id, h.id, h.qty, 0) in rows && forall x :: x in b'.lots ==> x.id != h.id
  {
    var k := KeyOf(t);
    var b := BookOf(d, k);
    var order, o := Order(b.lots, t.lifo), Taken(b, t);
    SettledRows(b, t);
    ValidIsUnique(d, k);
    UniqueInOrder(b.lots, t.lifo);
    var i := PlaceInOrder(b.lots, t.lifo, h);
    var j := PlaceInOrder(b.lots, t.lifo, l);
    OrderTotal(b.lots, t.lifo);
    OrderedByTrade(d, k, t.lifo, i, j);
    var row :| row in Settle(b, t).1 && row.lot == l.id;
    hide Settle, Taken, Order, Earlier, BookValid, Consistent;
    TouchedPlace(order, o, t.sell, t.id, row, j);
    UsedUp(order, o, t.sell, t.id, i, j);
    LeftInBook(b, t, h.id);
  }

  lemma TouchedPlace(order: seq<Lot>, o: Outcome, sell: bool, trade: nat, row: Row, j: nat)
    requires TakenInOrder(order, o, sell, trade) && Unique(order) && j < |order| && row in o.rows
    requires row.lot == order[j].id
    ensures j < |o.rows|
  {
    var p :| 0 <= p < |o.rows| && o.rows[p] == row;
    assert order[p].id == order[j].id;
  }

  // The book after a trade holds what is left and what the trade opened.
  lemma BookHolds(b: Book, t: Trade)
    requires Consistent(b) && forall l :: l in b.lots ==> l.id != t.id
    ensures var o := Taken(b, t);
            forall l :: l in Settle(b, t).0.lots <==> l in o.left || (o.open > 0 && l == NewLot(t, o.open))
  {
    hide Taken, Sorted, Consistent, Settle, Order, Total, Change, Opposite, SameKey, Insert, Present;
    TakenFacts(b, t);
    SettleShape(b, t);
    KeyIsNew(b, t);
    var o := Taken(b, t);
    OrderTotal(o.left, t.lifo);
    if o.open > 0 {
      InsertKeeps(Order(o.left, t.lifo), NewLot(t, o.open));
    } else if Closes(b, t) {
      ClosedIsEmpty(b, t);
    }
  }

  // A position that is closed exactly has no lot left.
  lemma ClosedIsEmpty(b: Book, t: Trade)
    requires Consistent(b) && Taken(b, t).open == 0 && Closes(b, t)
    ensures Taken(b, t).left == []
  {
    var lots := Order(Taken(b, t).left, t.lifo);
    assert OneSided(b.lots);
    hide Taken, Sorted, Consistent, Total, Change;
    HeldSide(b, t);
    TakenFacts(b, t);
    TotalSign(lots);
    hide Opposite;
    assert |lots| == |Taken(b, t).left|;
  }

  // ----- the audit trail -----

  // What the last row that names lot `id` leaves of it.
  function Last(rows: seq<Row>, id: nat): int {
    if rows == [] then 0
    else if rows[|rows| - 1].lot == id then rows[|rows| - 1].after
    else Last(rows[..|rows| - 1], id)
  }

  ghost predicate Names(rows: seq<Row>, id: nat) {
    exists i :: 0 <= i < |rows| && rows[i].lot == id
  }

  lemma {:induction false} LastConcat(x: seq<Row>, y: seq<Row>, id: nat)
    ensures Last(x + y, id) == if Names(y, id) then Last(y, id) else Last(x, id)
  {
    if y == [] {
      assert x + y == x;
    } else {
      var n := |y| - 1;
      LastConcat(x, y[..n], id);
      assert (x + y)[..|x + y| - 1] == x + y[..n];
      if y[n].lot != id && Names(y, id) {
        var i :| 0 <= i < |y| && y[i].lot == id;
        assert y[..n][i].lot == id;
      }
    }
  }

  lemma {:induction false} LastOfUnique(rows: seq<Row>, i: nat)
    requires i < |rows| && forall p, q :: 0 <= p < |rows| && 0 <= q < |rows| && rows[p].lot == rows[q].lot ==> p == q
    ensures Last(rows, rows[i].lot) == rows[i].after
  {
    var n := |rows| - 1;
    if i < n {
      assert rows[n].lot != rows[i].lot;
      assert rows[..n][i] == rows[i];
      LastOfUnique(rows[..n], i);
    }
  }

  // The history tells how much of each lot is held.
  ghost predicate Audited(lots: seq<Lot>, rows: seq<Row>) {
    && (forall l :: l in lots ==> Last(rows, l.id) == l.qty)
    && (forall id :: (forall l :: l in lots ==> l.id != id) ==> Last(rows, id) == 0)
  }

  // Every row starts from what the rows before it left.
  ghost predicate Chained(rows: seq<Row>) {
    forall i :: 0 <= i < |rows| ==> rows[i].before == Last(rows[..i], rows[i].lot)
  }

  lemma RowOf(order: seq<Lot>, o: Outcome, sell: bool, trade: nat, i: nat)
    requires TakenInOrder(order, o, sell, trade) && Unique(order) && i < |order|
    ensures Names(o.rows, order[i].id) <==> i < |o.rows|
    ensures i < |o.rows| ==> Last(o.rows, order[i].id) == o.rows[i].after
  {
    if i < |o.rows| {
      forall p, q | 0 <= p < |o.rows| && 0 <= q < |o.rows| && o.rows[p].lot == o.rows[q].lot ensures p == q {
        assert order[p].id == order[q].id;
      }
      LastOfUnique(o.rows, i);
      assert o.rows[i].lot == order[i].id;
    }
  }

  // The rows of the lots taken keep the books audited.
  lemma TakenAudited(order: seq<Lot>, o: Outcome, sell: bool, trade: nat, old_: seq<Row>)
    requires TakenInOrder(order, o, sell, trade) && Unique(order) && Audited(order, old_)
    ensures Audited(o.left, old_ + o.rows)
  {
    forall l | l in o.left ensures Last(old_ + o.rows, l.id) == l.qty { LeftAudited(order, o, sell, trade, old_, l); }
    forall id | forall l :: l in o.left ==> l.id != id ensures Last(old_ + o.rows, id) == 0 {
      GoneAudited(order, o, sell, trade, old_, id);
    }
  }

  lemma LeftAudited(order: seq<Lot>, o: Outcome, sell: bool, trade: nat, old_: seq<Row>, l: Lot)
    requires TakenInOrder(order, o, sell, trade) && Unique(order) && Audited(order, old_) && l in o.left
    ensures Last(old_ + o.rows, l.id) == l.qty
  {
    var k := |o.rows|;
    hide Last, Names;
    LastConcat(old_, o.rows, l.id);
    if l in order[k..] {
      var p :| 0 <= p < |order[k..]| && order[k..][p] == l;
      assert order[k + p] == l && l in order;
      RowOf(order, o, sell, trade, k + p);
    } else {
      RowOf(order, o, sell, trade, k - 1);
    }
  }

  lemma GoneAudited(order: seq<Lot>, o: Outcome, sell: bool, trade: nat, old_: seq<Row>, id: nat)
    requires TakenInOrder(order, o, sell, trade) && Unique(order) && Audited(order, old_)
    requires forall l :: l in o.left ==> l.id != id
    ensures Last(old_ + o.rows, id) == 0
  {
    var k := |o.rows|;
    LastConcat(old_, o.rows, id);
    hide Last;
    if i :| 0 <= i < |order| && order[i].id == id {
      RowOf(order, o, sell, trade, i);
      GoneIsTaken(order, o, sell, trade, i);
    } else {
      forall l | l in order ensures l.id != id { }
    }
  }

  // A lot of the order that is not left was taken in full.
  lemma GoneIsTaken(order: seq<Lot>, o: Outcome, sell: bool, trade: nat, i: nat)
    requires TakenInOrder(order, o, sell, trade) && i < |order|
    requires forall l :: l in o.left ==> l.id != order[i].id
    ensures i < |o.rows| && o.rows[i].after == 0
  {
    var k := |o.rows|;
    assert forall p :: k <= p < |order| ==> order[k..][p - k] == order[p] && order[p] in order[k..];
    assert o.left != [] ==> o.left[0] in o.left;
  }

  lemma SameAudit(a: seq<Lot>, b: seq<Lot>, rows: seq<Row>)
    requires Audited(a, rows) && forall l :: l in a <==> l in b
    ensures Audited(b, rows)
  {
    hide Last;
  }

  lemma NumberIsNew(d: Desk, t: Trade)
    requires BookValid(d, KeyOf(t)) && t.id !in d.settled
    ensures Consistent(BookOf(d, KeyOf(t))) && forall l :: l in BookOf(d, KeyOf(t)).lots ==> l.id != t.id
  {
    hide Consistent, Change, Total;
  }

  lemma LeftNumbers(b: Book, t: Trade)
    requires Consistent(b) && forall l :: l in b.lots ==> l.id != t.id
    ensures forall l :: l in Taken(b, t).left ==> l.id != t.id
  {
    hide Taken, Consistent, Order;
    TakenKeys(b, t);
    OrderTotal(Taken(b, t).left, t.lifo);
  }

  // The rows of the lots taken start from what is held.
  lemma TakenChained(order: seq<Lot>, o: Outcome, sell: bool, trade: nat, old_: seq<Row>)
    requires TakenInOrder(order, o, sell, trade) && Unique(order) && Audited(order, old_) && Chained(old_)
    ensures Chained(old_ + o.rows)
  {
    var rows := old_ + o.rows;
    forall i | 0 <= i < |rows| ensures rows[i].before == Last(rows[..i], rows[i].lot) {
      if i < |old_| {
        assert rows[..i] == old_[..i];
      } else {
        var p := i - |old_|;
        assert rows[..i] == old_ + o.rows[..p];
        LastConcat(old_, o.rows[..p], order[p].id);
        NotNamedYet(order, o, sell, trade, p);
        assert order[p] in order;
      }
    }
  }

  lemma NotNamedYet(order: seq<Lot>, o: Outcome, sell: bool, trade: nat, p: nat)
    requires TakenInOrder(order, o, sell, trade) && Unique(order) && p < |o.rows|
    ensures !Names(o.rows[..p], order[p].id)
  {
    forall i | 0 <= i < p ensures o.rows[..p][i].lot != order[p].id { assert o.rows[i].lot == order[i].id; }
  }

  lemma ChainedOneMore(rows: seq<Row>, row: Row)
    requires Chained(rows) && row.before == Last(rows, row.lot)
    ensures Chained(rows + [row])
  {
    hide Last;
    var all := rows + [row];
    forall i | 0 <= i < |all| ensures all[i].before == Last(all[..i], all[i].lot) {
      assert all[..i] == rows[..i];
      assert rows[..|rows|] == rows;
    }
  }

  lemma NotHeldIsNothing(lots: seq<Lot>, rows: seq<Row>, id: nat)
    requires Audited(lots, rows) && forall l :: l in lots ==> l.id != id
    ensures Last(rows, id) == 0
  {
  }

  // A trade keeps its book audited.
  lemma SettleAudited(d: Desk, t: Trade, old_: seq<Row>)
    requires BookValid(d, KeyOf(t)) && t.id !in d.settled && Audited(BookOf(d, KeyOf(t)).lots, old_) && Chained(old_)
    ensures var (b', rows) := Settle(BookOf(d, KeyOf(t)), t); Audited(b'.lots, old_ + rows) && Chained(old_ + rows)
  {
    hide Settle, Taken, Order, BookValid, Consistent, TakenInOrder, Audited, Unique, NewLot, Chained;
    NumberIsNew(d, t);
    var b := BookOf(d, KeyOf(t));
    var order := Order(b.lots, t.lifo);
    ValidIsUnique(d, KeyOf(t));
    UniqueInOrder(b.lots, t.lifo);
    OrderTotal(b.lots, t.lifo);
    SameAudit(b.lots, order, old_);
    SettledRows(b, t);
    AuditStep(b, t, order, old_);
  }

  lemma AuditStep(b: Book, t: Trade, order: seq<Lot>, old_: seq<Row>)
    requires Consistent(b) && forall l :: l in b.lots ==> l.id != t.id
    requires TakenInOrder(order, Taken(b, t), t.sell, t.id) && Unique(order) && Audited(order, old_) && Chained(old_)
    requires var o := Taken(b, t);
             Settle(b, t).1 == o.rows + if o.open > 0 then [Row(t.id, t.id, 0, Signed(t.sell, o.open))] else []
    ensures Audited(Settle(b, t).0.lots, old_ + Settle(b, t).1) && Chained(old_ + Settle(b, t).1)
  {
    hide Settle, Taken, Consistent, TakenInOrder, Audited, Unique, NewLot, Chained;
    var o := Taken(b, t);
    var b', rows := Settle(b, t).0, Settle(b, t).1;
    BookHolds(b, t);
    TakenAudited(order, o, t.sell, t.id, old_);
    TakenChained(order, o, t.sell, t.id, old_);
    if o.open > 0 {
      LeftNumbers(b, t);
      OpenAudited(o.left, b'.lots, old_ + o.rows, t, o.open);
      var row := Row(t.id, t.id, 0, Signed(t.sell, o.open));
      NotHeldIsNothing(o.left, old_ + o.rows, t.id);
      ChainedOneMore(old_ + o.rows, row);
      assert old_ + rows == old_ + o.rows + [row];
    } else {
      assert rows == o.rows;
      SameAudit(o.left, b'.lots, old_ + o.rows);
    }
  }

  lemma OpenAudited(left: seq<Lot>, lots: seq<Lot>, rows: seq<Row>, t: Trade, open: nat)
    requires Audited(left, rows) && (forall l :: l in lots <==> l in left || l == NewLot(t, open))
    requires forall l :: l in left ==> l.id != t.id
    ensures Audited(lots, rows + [Row(t.id, t.id, 0, Signed(t.sell, open))])
  {
    var row := Row(t.id, t.id, 0, Signed(t.sell, open));
    forall id ensures Last(rows + [row], id) == if id == t.id then row.after else Last(rows, id) {
      assert (rows + [row])[..|rows|] == rows;
    }
    assert NewLot(t, open) in lots;
  }

  /**
   Over every sequence of trades the history rows of every account and security are the audit
   trail of its lots: every row starts from what the rows before it left, and what the last row
   says of a lot is what is held of it.
   */
  lemma {:induction false} HistoryIsAudit(ds: seq<Desk>, ts: seq<Trade>, k: (nat, nat))
    requires Reaches(ds, ts)
    ensures Audited(BookOf(ds[|ts|], k).lots, RowsOf(ds[|ts|], k)) && Chained(RowsOf(ds[|ts|], k))
  {
    if ts != [] {
      var n := |ts| - 1;
      PrefixReaches(ds, ts, n);
      HistoryIsAudit(ds[..n + 1], ts[..n], k);
      assert BookValid(ds[n], KeyOf(ts[n]));
      assert ds[n + 1] == Result(ds[n], ts[n]);
      hide Reaches, Settle, Audited, Chained;
      if ts[n].id !in ds[n].settled && KeyOf(ts[n]) == k {
        SettleAudited(ds[n], ts[n], RowsOf(ds[n], k));
      }
    }
  }

  // What is not left and not new is not in the book.
  lemma LeftInBook(b: Book, t: Trade, id: nat)
    requires Consistent(b) && id != t.id && forall l :: l in b.lots ==> l.id != t.id
    requires forall l :: l in Taken(b, t).left ==> l.id != id
    ensures forall l :: l in Settle(b, t).0.lots ==> l.id != id
  {
    hide Taken, Consistent, Settle;
    BookHolds(b, t);
  }
}
