/**
 TPC-E Trade-Result: the holding lots and the holding summary of one account and security, as
 frame 2 changes them, with integer quantities.  A book is what the tables hold for one account
 and security; its lots are in key order, which is date order with ties broken by trade.
 */
module TradeResult {
  import opened Basics

  datatype Lot = Lot(dts: int, id: nat, qty: int)

  datatype Book = Book(lots: seq<Lot>, summary: Option<int>)

  // A holding-history row: trade `trade` changed the lot of trade `lot` from `before` to `after`.
  datatype Row = Row(trade: nat, lot: nat, before: int, after: int)

  // ----- specification -----

  predicate Before(a: Lot, b: Lot) {
    a.dts < b.dts || (a.dts == b.dts && a.id < b.id)
  }

  ghost predicate Sorted(lots: seq<Lot>) {
    forall i, j :: 0 <= i < j < |lots| ==> Before(lots[i], lots[j])
  }

  function Total(lots: seq<Lot>): int {
    if lots == [] then 0 else lots[0].qty + Total(lots[1..])
  }

  // What the rows of one trade add to the holdings.
  function Change(rows: seq<Row>): int {
    if rows == [] then 0 else rows[0].after - rows[0].before + Change(rows[1..])
  }

  // All lots of one sign; none is empty.
  ghost predicate OneSided(lots: seq<Lot>) {
    (forall l :: l in lots ==> l.qty > 0) || (forall l :: l in lots ==> l.qty < 0)
  }

  // The consistency condition of clause 7.3.1: the summary is the sum of the lots, and there is a
  // summary row exactly when there is something to sum up.
  ghost predicate Consistent(b: Book) {
    && Sorted(b.lots) && OneSided(b.lots)
    && (b.summary.None? <==> Total(b.lots) == 0)
    && (b.summary.Some? ==> b.summary.value == Total(b.lots))
  }

  // ----- sums -----

  lemma {:induction false} TotalConcat(x: seq<Lot>, y: seq<Lot>)
    ensures Total(x + y) == Total(x) + Total(y)
  {
    if x == [] {
      assert x + y == y;
    } else {
      assert (x + y)[1..] == x[1..] + y;
      TotalConcat(x[1..], y);
    }
  }

  lemma {:induction false} ChangeConcat(x: seq<Row>, y: seq<Row>)
    ensures Change(x + y) == Change(x) + Change(y)
  {
    if x == [] {
      assert x + y == y;
    } else {
      assert (x + y)[1..] == x[1..] + y;
      ChangeConcat(x[1..], y);
    }
  }

  lemma {:induction false} TotalSign(lots: seq<Lot>)
    ensures (forall l :: l in lots ==> l.qty > 0) ==> Total(lots) >= |lots|
    ensures (forall l :: l in lots ==> l.qty < 0) ==> Total(lots) <= -|lots|
  {
    if lots != [] {
      TotalSign(lots[1..]);
      assert lots == [lots[0]] + lots[1..];
    }
  }

  function Reverse(lots: seq<Lot>): (r: seq<Lot>)
    ensures |r| == |lots| && forall i :: 0 <= i < |lots| ==> r[i] == lots[|lots| - 1 - i]
  {
    seq(|lots|, i requires 0 <= i < |lots| => lots[|lots| - 1 - i])
  }

  lemma {:induction false} ReverseTotal(lots: seq<Lot>)
    ensures Total(Reverse(lots)) == Total(lots)
  {
    if lots == [] {
    } else {
      var r := Reverse(lots);
      assert r == Reverse(lots[1..]) + [lots[0]];
      TotalConcat(Reverse(lots[1..]), [lots[0]]);
      ReverseTotal(lots[1..]);
      assert [lots[0]][1..] == [];
    }
  }

  // ----- the tables by key -----

  predicate SameKey(a: Lot, b: Lot) { a.dts == b.dts && a.id == b.id }

  function Remove(lots: seq<Lot>, l: Lot): seq<Lot> {
    if lots == [] then []
    else if SameKey(lots[0], l) then lots[1..]
    else [lots[0]] + Remove(lots[1..], l)
  }

  function Update(lots: seq<Lot>, l: Lot, qty: int): seq<Lot> {
    if lots == [] then []
    else if SameKey(lots[0], l) then [lots[0].(qty := qty)] + lots[1..]
    else [lots[0]] + Update(lots[1..], l, qty)
  }

  function Insert(lots: seq<Lot>, l: Lot): seq<Lot> {
    if lots == [] || Before(l, lots[0]) then [l] + lots else [lots[0]] + Insert(lots[1..], l)
  }

  predicate Present(lots: seq<Lot>, l: Lot) {
    exists i :: 0 <= i < |lots| && SameKey(lots[i], l)
  }

  // Removing or updating the lot at position `k` of a sorted table.
  lemma {:induction false} RemoveAt(lots: seq<Lot>, k: nat)
    requires Sorted(lots) && k < |lots|
    ensures Remove(lots, lots[k]) == lots[..k] + lots[k + 1..]
    ensures forall q :: Update(lots, lots[k], q) == lots[..k] + [lots[k].(qty := q)] + lots[k + 1..]
  {
    if k > 0 {
      assert Before(lots[0], lots[k]);
      RemoveAt(lots[1..], k - 1);
      assert lots[1..][k - 1] == lots[k];
      assert lots[..k] == [lots[0]] + lots[1..][..k - 1];
      assert lots[1..][k..] == lots[k + 1..];
    }
  }

  lemma {:induction false} InsertKeeps(lots: seq<Lot>, l: Lot)
    requires Sorted(lots) && !Present(lots, l)
    ensures Sorted(Insert(lots, l)) && Total(Insert(lots, l)) == Total(lots) + l.qty
    ensures forall x :: x in Insert(lots, l) <==> x in lots || x == l
  {
    if lots == [] {
      assert [l][1..] == [];
    } else if Before(l, lots[0]) {
      assert ([l] + lots)[1..] == lots;
      assert Sorted([l] + lots) by {
        forall i | 0 <= i < |lots| ensures Before(l, lots[i]) { if i > 0 { assert Before(lots[0], lots[i]); } }
      }
    } else {
      assert SameKey(lots[0], l) ==> Present(lots, l);
      var r := Insert(lots[1..], l);
      InsertKeeps(lots[1..], l);
      assert ([lots[0]] + r)[1..] == r;
      assert lots == [lots[0]] + lots[1..];
      forall i | 0 <= i < |r| ensures Before(lots[0], r[i]) {
        assert r[i] in r;
        if r[i] != l {
          var j :| 0 <= j < |lots[1..]| && lots[1..][j] == r[i];
          assert Before(lots[0], lots[j + 1]);
        }
      }
    }
  }

  // ----- consuming lots -----

  // What is left of the lots in the order they are taken, the rows written, the quantity still open.
  datatype Outcome = Outcome(left: seq<Lot>, rows: seq<Row>, open: nat)

  // A trade of quantity `n` as a change of holdings: negative for a sell.
  function Signed(sell: bool, n: int): int { if sell then -n else n }

  // All lots can be consumed by the trade: long lots by a sell, short lots by a buy.
  ghost predicate Opposite(lots: seq<Lot>, sell: bool) {
    forall l :: l in lots ==> Signed(sell, l.qty) < 0
  }

  // Take lots one by one until `need` is met; the last one touched may be taken in part.
  ghost function Consume(order: seq<Lot>, need: nat, sell: bool, trade: nat): Outcome
    requires Opposite(order, sell)
  {
    if need == 0 || order == [] then Outcome(order, [], need)
    else
      var l := order[0];
      assert l in order;
      if -Signed(sell, l.qty) > need then
        Outcome([l.(qty := l.qty + Signed(sell, need))] + order[1..],
            [Row(trade, l.id, l.qty, l.qty + Signed(sell, need))], 0)
      else
        var o := Consume(order[1..], need + Signed(sell, l.qty), sell, trade);
        Outcome(o.left, [Row(trade, l.id, l.qty, 0)] + o.rows, o.open)
  }

  // Conservation: lots and rows change by the quantity that was met.
  lemma {:induction false} ConsumeConserves(order: seq<Lot>, need: nat, sell: bool, trade: nat)
    requires Opposite(order, sell)
    ensures var o := Consume(order, need, sell, trade);
            && o.open <= need && Total(o.left) == Total(order) + Signed(sell, need - o.open)
            && Change(o.rows) == Signed(sell, need - o.open)
            && (o.open > 0 ==> o.left == [])
            && Opposite(o.left, sell)
  {
    hide Consume, Total, Change, Opposite;
    if need == 0 || order == [] {
      NothingToTake(order, need, sell, trade);
      NoChange();
    } else {
      var l := order[0];
      ConsumeStep(order, need, sell, trade);
      TotalSplit(order);
      if -Signed(sell, l.qty) > need {
        var l' := l.(qty := l.qty + Signed(sell, need));
        TotalOnTop(l', order[1..]);
        ChangeOfOne(Row(trade, l.id, l.qty, l'.qty));
      } else {
        var o := Consume(order[1..], need + Signed(sell, l.qty), sell, trade);
        ConsumeConserves(order[1..], need + Signed(sell, l.qty), sell, trade);
        ChangeOnTop(Row(trade, l.id, l.qty, 0), o.rows);
      }
    }
  }

  lemma NoChange()
    ensures Change([]) == 0
  {
  }

  lemma TotalSplit(lots: seq<Lot>)
    requires lots != []
    ensures Total(lots) == lots[0].qty + Total(lots[1..])
  {
  }

  lemma TotalOnTop(l: Lot, lots: seq<Lot>)
    ensures Total([l] + lots) == l.qty + Total(lots)
  {
    assert ([l] + lots)[1..] == lots;
  }

  lemma ChangeOfOne(row: Row)
    ensures Change([row]) == row.after - row.before
  {
    assert [row][1..] == [];
  }

  lemma ChangeOnTop(row: Row, rows: seq<Row>)
    ensures Change([row] + rows) == row.after - row.before + Change(rows)
  {
    assert ([row] + rows)[1..] == rows;
  }

  // Which lots the rows name, and what is left.
  ghost predicate TakenInOrder(order: seq<Lot>, o: Outcome, sell: bool, trade: nat) {
    var k := |o.rows|;
    && k <= |order|
    && (forall i :: 0 <= i < k ==>
          o.rows[i].trade == trade && o.rows[i].lot == order[i].id && o.rows[i].before == order[i].qty)
    && (forall i :: 0 <= i < k - 1 ==> o.rows[i].after == 0)
    && (k > 0 ==> Signed(sell, o.rows[k - 1].after) <= 0)
    && o.left == (if k > 0 && o.rows[k - 1].after != 0 then [order[k - 1].(qty := o.rows[k - 1].after)]
        else []) + order[k..]
  }

  /**
   Lots are taken as a prefix of the order; all but possibly the last one touched are consumed
   in full, and everything after them is left as it was.
   */
  lemma {:induction false} ConsumeInOrder(order: seq<Lot>, need: nat, sell: bool, trade: nat)
    requires Opposite(order, sell)
    ensures TakenInOrder(order, Consume(order, need, sell, trade), sell, trade)
  {
    if need != 0 && order != [] {
      var l := order[0];
      assert l in order;
      ConsumeStep(order, need, sell, trade);
      hide Consume;
      if -Signed(sell, l.qty) <= need {
        var o' := Consume(order[1..], need + Signed(sell, l.qty), sell, trade);
        ConsumeInOrder(order[1..], need + Signed(sell, l.qty), sell, trade);
        TakenOneMore(order, o', Row(trade, l.id, l.qty, 0), sell, trade);
      }
    }
  }

  lemma TakenOneMore(order: seq<Lot>, o: Outcome, row: Row, sell: bool, trade: nat)
    requires order != [] && TakenInOrder(order[1..], o, sell, trade)
    requires row.trade == trade && row.lot == order[0].id && row.before == order[0].qty && row.after == 0
    ensures TakenInOrder(order, Outcome(o.left, [row] + o.rows, o.open), sell, trade)
  {
    var rows := [row] + o.rows;
    var k := |o.rows|;
    assert order[1..][k..] == order[k + 1..];
    forall i | 0 <= i < |rows|
      ensures rows[i].trade == trade && rows[i].lot == order[i].id && rows[i].before == order[i].qty
    {
      if i > 0 { assert rows[i] == o.rows[i - 1] && order[i] == order[1..][i - 1]; }
    }
    forall i | 0 <= i < |rows| - 1 ensures rows[i].after == 0 {
      if i > 0 { assert rows[i] == o.rows[i - 1]; }
    }
  }

  // The lots in the order a trade takes them.
  function Order(lots: seq<Lot>, lifo: bool): seq<Lot> { if lifo then Reverse(lots) else lots }

  lemma OrderTwice(lots: seq<Lot>, lifo: bool)
    ensures Order(Order(lots, lifo), lifo) == lots
  {
  }

  lemma OrderTotal(lots: seq<Lot>, lifo: bool)
    ensures Total(Order(lots, lifo)) == Total(lots)
    ensures forall l :: l in Order(lots, lifo) <==> l in lots
  {
    ReverseTotal(lots);
    var r := Reverse(lots);
    forall l | l in lots ensures l in r {
      var i :| 0 <= i < |lots| && lots[i] == l;
      assert r[|lots| - 1 - i] == l;
    }
  }

  // The next lot to be taken is at one end of the table.
  lemma NextInTable(left: seq<Lot>, lifo: bool, l: Lot)
    requires |left| > 0
    ensures var table := Order(left, lifo); var k := |left| - 1;
            && |table| == |left|
            && (lifo ==>
                  && table[k] == left[0] && Order(left[1..], lifo) == table[..k]
                  && Order([l] + left[1..], lifo) == table[..k] + [l])
            && (!lifo ==> table == left)
  {
    var k := |left| - 1;
    if lifo {
      assert Reverse(left[1..]) == Reverse(left)[..k];
      assert Reverse([l] + left[1..]) == Reverse(left)[..k] + [l];
    }
  }

  lemma SortedParts(table: seq<Lot>, k: nat, l: Lot)
    requires Sorted(table) && k < |table| && SameKey(l, table[k])
    ensures Sorted(table[..k]) && Sorted(table[k + 1..]) && Sorted(table[..k] + [l] + table[k + 1..])
  {
    var r := table[..k] + [l] + table[k + 1..];
    forall i, j | 0 <= i < j < |r| ensures Before(r[i], r[j]) { assert Before(table[i], table[j]); }
  }

  // Taking the next lot out of the table, or part of it.
  lemma TableStep(left: seq<Lot>, lifo: bool, qty: int)
    requires |left| > 0 && Sorted(Order(left, lifo))
    ensures Remove(Order(left, lifo), left[0]) == Order(left[1..], lifo)
    ensures Update(Order(left, lifo), left[0], qty) == Order([left[0].(qty := qty)] + left[1..], lifo)
    ensures Sorted(Order(left[1..], lifo)) && Sorted(Order([left[0].(qty := qty)] + left[1..], lifo))
  {
    var table := Order(left, lifo);
    var k := if lifo then |left| - 1 else 0;
    var l := left[0].(qty := qty);
    NextInTable(left, lifo, l);
    RemoveAt(table, k);
    SortedParts(table, k, l);
    assert lifo ==> table[k + 1..] == [];
    assert !lifo ==> table[..k] == [];
    hide Remove, Update, Sorted, Before, Reverse;
  }

  // One round of the loop.
  lemma ConsumeStep(left: seq<Lot>, needed: nat, sell: bool, trade: nat)
    requires Opposite(left, sell) && needed > 0 && left != []
    ensures var l := left[0]; var o := Consume(left, needed, sell, trade);
            && Signed(sell, l.qty) < 0 && Opposite(left[1..], sell)
            && if -Signed(sell, l.qty) > needed then
                 var left' := [l.(qty := l.qty + Signed(sell, needed))] + left[1..];
                 && Opposite(left', sell)
                 && o == Outcome(left', [Row(trade, l.id, l.qty, l.qty + Signed(sell, needed))], 0)
                 && Consume(left', 0, sell, trade) == Outcome(left', [], 0)
               else
                 var o' := Consume(left[1..], needed + Signed(sell, l.qty), sell, trade);
                 o == Outcome(o'.left, [Row(trade, l.id, l.qty, 0)] + o'.rows, o'.open)
  {
    assert left[0] in left;
  }

  // The loop over the scanned lots.
  method ConsumeLots(lots: seq<Lot>, need: nat, sell: bool, lifo: bool, trade: nat)
    returns (table: seq<Lot>, rows: seq<Row>, needed: nat)
    requires Sorted(lots) && Opposite(lots, sell)
    ensures Opposite(Order(lots, lifo), sell)
    ensures var o := Consume(Order(lots, lifo), need, sell, trade);
            table == Order(o.left, lifo) && rows == o.rows && needed == o.open && Sorted(table)
  {
    var order := Order(lots, lifo);
    OrderTotal(lots, lifo);
    OrderTwice(lots, lifo);
    hide Consume, Sorted, Order;
    table, rows, needed := lots, [], need;
    ghost var left := order;
    ghost var o := Consume(order, need, sell, trade);
    for i := 0 to |order|
      invariant Opposite(left, sell) && table == Order(left, lifo) && Sorted(table)
      invariant needed > 0 ==> left == order[i..]
      invariant o == Outcome(Consume(left, needed, sell, trade).left, rows + Consume(left, needed, sell, trade).rows,
                             Consume(left, needed, sell, trade).open)
    {
      if needed == 0 {
        break;
      }
      var l := order[i];
      assert left[0] == l;
      ConsumeStep(left, needed, sell, trade);
      if -Signed(sell, l.qty) > needed {
        TableStep(left, lifo, l.qty + Signed(sell, needed));
        rows := rows + [Row(trade, l.id, l.qty, l.qty + Signed(sell, needed))];
        table := Update(table, l, l.qty + Signed(sell, needed));
        left := [l.(qty := l.qty + Signed(sell, needed))] + left[1..];
        needed := 0;
      } else {
        TableStep(left, lifo, 0);
        rows := rows + [Row(trade, l.id, l.qty, 0)];
        table := Remove(table, l);
        needed := needed + Signed(sell, l.qty);
        left := left[1..];
      }
    }
    NothingToTake(left, needed, sell, trade);
  }

  lemma NothingToTake(left: seq<Lot>, needed: nat, sell: bool, trade: nat)
    requires Opposite(left, sell) && (needed == 0 || left == [])
    ensures Consume(left, needed, sell, trade) == Outcome(left, [], needed)
  {
  }

  // ----- one trade -----

  datatype Trade = Trade(account: nat, security: nat, id: nat, dts: int, qty: nat, sell: bool, lifo: bool)

  // Frame 1: the summary quantity, 0 if there is no row.
  function HeldQty(b: Book): int { if b.summary.Some? then b.summary.value else 0 }

  // The trade reduces what is held.
  predicate Against(b: Book, t: Trade) { Signed(t.sell, HeldQty(b)) < 0 }

  // The trade closes the position exactly.
  predicate Closes(b: Book, t: Trade) { HeldQty(b) == -Signed(t.sell, t.qty) }

  lemma HeldSide(b: Book, t: Trade)
    requires Consistent(b)
    ensures HeldQty(b) == Total(b.lots)
    ensures Against(b, t) ==> Opposite(b.lots, t.sell) && Opposite(Order(b.lots, t.lifo), t.sell)
    ensures !Against(b, t) ==> forall l :: l in b.lots ==> Signed(t.sell, l.qty) > 0
  {
    TotalSign(b.lots);
    OrderTotal(b.lots, t.lifo);
  }

  // The summary after its insert or update; a closed position keeps the row until it is removed.
  function NewSummary(b: Book, t: Trade): Option<int> {
    if HeldQty(b) == 0 then Some(Signed(t.sell, t.qty))
    else if !Closes(b, t) then Some(HeldQty(b) + Signed(t.sell, t.qty))
    else b.summary
  }

  // The lot opened by what the held lots could not meet.
  function NewLot(t: Trade, open: nat): Lot { Lot(t.dts, t.id, Signed(t.sell, open)) }

  // What the trade makes of the lots in the order it takes them.
  ghost function Taken(b: Book, t: Trade): Outcome
    requires Consistent(b)
  {
    HeldSide(b, t);
    if Against(b, t) then Consume(Order(b.lots, t.lifo), t.qty, t.sell, t.id)
         else Outcome(Order(b.lots, t.lifo), [], t.qty)
  }

  ghost function Settle(b: Book, t: Trade): (Book, seq<Row>)
    requires Consistent(b)
  {
    var o := Taken(b, t);
    var lots := Order(o.left, t.lifo);
    if o.open > 0 then
      (Book(Insert(lots, NewLot(t, o.open)), NewSummary(b, t)), o.rows + [Row(t.id, t.id, 0, Signed(t.sell, o.open))])
    else if Closes(b, t) then (Book([], None), o.rows)
    else (Book(lots, NewSummary(b, t)), o.rows)
  }

  // The first half of frame 2 for a sell, as it runs: the summary row, then the lots held.
  method TakeForSell(b: Book, t: Trade) returns (lots: seq<Lot>, summary: Option<int>, rows: seq<Row>, needed: nat)
    requires Consistent(b) && t.sell
    ensures summary == NewSummary(b, t)
    ensures var o := Taken(b, t); lots == Order(o.left, t.lifo) && rows == o.rows && needed == o.open
  {
    hide Consume, Total, Sorted, Order, Opposite, Consistent;
    HeldSide(b, t);
    OrderTwice(b.lots, t.lifo);
    SortedLots(b);
    var hs := HeldQty(b);
    lots, summary, rows, needed := b.lots, b.summary, [], t.qty;
    if hs == 0 {
      summary := Some(0 - t.qty);
    } else if hs != t.qty {
      summary := Some(hs - t.qty);
    }
    if hs > 0 {
      lots, rows, needed := ConsumeLots(lots, t.qty, true, t.lifo, t.id);
    }
  }

  // The same for a buy.
  method TakeForBuy(b: Book, t: Trade) returns (lots: seq<Lot>, summary: Option<int>, rows: seq<Row>, needed: nat)
    requires Consistent(b) && !t.sell
    ensures summary == NewSummary(b, t)
    ensures var o := Taken(b, t); lots == Order(o.left, t.lifo) && rows == o.rows && needed == o.open
  {
    hide Consume, Total, Sorted, Order, Opposite, Consistent;
    HeldSide(b, t);
    OrderTwice(b.lots, t.lifo);
    SortedLots(b);
    var hs := HeldQty(b);
    lots, summary, rows, needed := b.lots, b.summary, [], t.qty;
    if hs == 0 {
      summary := Some(t.qty);
    } else if -hs != t.qty {
      summary := Some(t.qty + hs);
    }
    if hs < 0 {
      lots, rows, needed := ConsumeLots(lots, t.qty, false, t.lifo, t.id);
    }
  }

  lemma SortedLots(b: Book)
    requires Consistent(b)
    ensures Sorted(b.lots)
  {
  }

  // Frame 2 as it runs.
  method SettleTrade(b: Book, t: Trade) returns (b': Book, rows: seq<Row>)
    requires Consistent(b)
    ensures (b', rows) == Settle(b, t)
  {
    hide Consume, Total, Sorted, Order, Opposite, Consistent, NewSummary, Taken;
    var lots, summary, needed;
    if t.sell {
      lots, summary, rows, needed := TakeForSell(b, t);
    } else {
      lots, summary, rows, needed := TakeForBuy(b, t);
    }
    if needed > 0 {
      rows := rows + [Row(t.id, t.id, 0, Signed(t.sell, needed))];
      lots := Insert(lots, Lot(t.dts, t.id, Signed(t.sell, needed)));
    } else if HeldQty(b) == -Signed(t.sell, t.qty) {
      summary := None;
      lots := RemoveAll(lots);
    }
    b' := Book(lots, summary);
  }

  // The cascading delete: remove every scanned lot by its key.
  method RemoveAll(lots: seq<Lot>) returns (table: seq<Lot>)
    ensures table == []
  {
    table := lots;
    for i := 0 to |lots|
      invariant table == lots[i..]
    {
      table := Remove(table, lots[i]);
    }
  }

  lemma TakenFacts(b: Book, t: Trade)
    requires Consistent(b)
    ensures var o := Taken(b, t); var lots := Order(o.left, t.lifo);
            && o.open <= t.qty && Sorted(lots) && Total(lots) == Total(b.lots) + Signed(t.sell, t.qty - o.open)
            && Change(o.rows) == Signed(t.sell, t.qty - o.open)
            && (Against(b, t) ==> Opposite(lots, t.sell) && (o.open > 0 ==> lots == []))
            && (!Against(b, t) ==> lots == b.lots && o.open == t.qty && o.rows == [])
  {
    hide Consume, Total, Sorted, Order, Change;
    HeldSide(b, t);
    OrderTotal(b.lots, t.lifo);
    OrderTwice(b.lots, t.lifo);
    var order := Order(b.lots, t.lifo);
    var o := Taken(b, t);
    OrderTotal(o.left, t.lifo);
    NoChange();
    if Against(b, t) {
      ConsumeConserves(order, t.qty, t.sell, t.id);
      ConsumeKeepsOrder(order, t.qty, t.sell, t.id, t.lifo);
      if o.open > 0 { OrderEmpty(t.lifo); }
    }
  }

  // What is left has the keys of lots that were held.
  lemma TakenKeys(b: Book, t: Trade)
    requires Consistent(b)
    ensures forall l :: l in Order(Taken(b, t).left, t.lifo) ==> exists h :: h in b.lots && SameKey(h, l)
  {
    hide Consume, Total, Sorted, Order, Change, TakenInOrder;
    HeldSide(b, t);
    OrderTotal(b.lots, t.lifo);
    OrderTwice(b.lots, t.lifo);
    var order := Order(b.lots, t.lifo);
    var o := Taken(b, t);
    OrderTotal(o.left, t.lifo);
    if Against(b, t) {
      ConsumeInOrder(order, t.qty, t.sell, t.id);
      forall l | l in o.left ensures exists h :: h in b.lots && SameKey(h, l) { LeftKey(order, o, t.sell, t.id, l); }
    } else {
      forall l | l in b.lots ensures exists h :: h in b.lots && SameKey(h, l) { assert SameKey(l, l); }
    }
  }

  // The key of a new lot is not taken.
  lemma KeyIsNew(b: Book, t: Trade)
    requires Consistent(b) && forall l :: l in b.lots ==> l.id != t.id
    ensures !Present(Order(Taken(b, t).left, t.lifo), NewLot(t, Taken(b, t).open))
  {
    hide Consistent, Taken, Order, Present, SameKey;
    TakenKeys(b, t);
    NotPresent(Order(Taken(b, t).left, t.lifo), b.lots, t);
  }

  lemma OrderEmpty(lifo: bool)
    ensures Order([], lifo) == []
  {
  }

  lemma LeftKey(order: seq<Lot>, o: Outcome, sell: bool, trade: nat, l: Lot)
    requires TakenInOrder(order, o, sell, trade) && l in o.left
    ensures exists h :: h in order && SameKey(h, l)
  {
    var k := |o.rows|;
    if l in order[k..] {
      assert l in order && SameKey(l, l);
    } else {
      assert order[k - 1] in order && SameKey(order[k - 1], l);
    }
  }

  // What is left is in key order again.
  lemma {:induction false} ConsumeKeepsOrder(order: seq<Lot>, need: nat, sell: bool, trade: nat, lifo: bool)
    requires Opposite(order, sell) && Sorted(Order(order, lifo))
    ensures Sorted(Order(Consume(order, need, sell, trade).left, lifo))
  {
    hide Consume, Sorted, Order, Remove, Update;
    if need == 0 || order == [] {
      NothingToTake(order, need, sell, trade);
    } else {
      ConsumeStep(order, need, sell, trade);
      var l := order[0];
      TableStep(order, lifo, l.qty + Signed(sell, need));
      if -Signed(sell, l.qty) <= need {
        ConsumeKeepsOrder(order[1..], need + Signed(sell, l.qty), sell, trade, lifo);
      }
    }
  }

  // What settling makes of the lots that are left.
  lemma SettleShape(b: Book, t: Trade)
    requires Consistent(b)
    ensures var o := Taken(b, t); var lots := Order(o.left, t.lifo);
            && (o.open > 0 ==>
                  Settle(b, t) == (Book(Insert(lots, NewLot(t, o.open)), NewSummary(b, t)),
                                   o.rows + [Row(t.id, t.id, 0, Signed(t.sell, o.open))]))
            && (o.open == 0 ==>
                  Settle(b, t) == (if Closes(b, t) then Book([], None) else Book(lots, NewSummary(b, t)), o.rows))
  {
    hide Consistent, Taken, Order, Insert, NewLot, NewSummary, Closes, Signed;
  }

  // Everything was met by held lots.
  lemma SettleMeets(b: Book, t: Trade)
    requires Consistent(b) && Taken(b, t).open == 0
    ensures Consistent(Settle(b, t).0) && Total(Settle(b, t).0.lots) == Total(b.lots) + Signed(t.sell, t.qty)
  {
    ConsistentIsOneSided(b);
    hide Taken, Sorted, Consistent, Settle, Order, Total, Change, Opposite, OneSided, Signed;
    HeldSide(b, t);
    TakenFacts(b, t);
    SettleShape(b, t);
    MetBook(b, t, Order(Taken(b, t).left, t.lifo));
  }

  lemma ConsistentIsOneSided(b: Book)
    requires Consistent(b)
    ensures OneSided(b.lots)
  {
  }

  lemma MetBook(b: Book, t: Trade, lots: seq<Lot>)
    requires Sorted(lots) && HeldQty(b) == Total(b.lots) && Total(lots) == Total(b.lots) + Signed(t.sell, t.qty)
    requires Against(b, t) ==> Opposite(lots, t.sell)
    requires !Against(b, t) ==> t.qty == 0 && lots == b.lots && OneSided(b.lots)
    ensures var b' := if Closes(b, t) then Book([], None) else Book(lots, NewSummary(b, t));
            Consistent(b') && Total(b'.lots) == Total(b.lots) + Signed(t.sell, t.qty)
  {
    TotalSign(lots);
    hide Sorted;
  }

  lemma OpenedBook(b: Book, t: Trade, lots: seq<Lot>, open: nat)
    requires 0 < open <= t.qty && Sorted(lots) && !Present(lots, NewLot(t, open)) && HeldQty(b) == Total(b.lots)
    requires Total(lots) == Total(b.lots) + Signed(t.sell, t.qty - open)
    requires Against(b, t) ==> lots == []
    requires !Against(b, t) ==> open == t.qty && forall l :: l in lots ==> Signed(t.sell, l.qty) > 0
    ensures var b' := Book(Insert(lots, NewLot(t, open)), NewSummary(b, t));
            Consistent(b') && Total(b'.lots) == Total(b.lots) + Signed(t.sell, t.qty)
  {
    var l := NewLot(t, open);
    InsertKeeps(lots, l);
    TotalSign(lots);
    hide Sorted, Insert, Total;
    forall x | x in Insert(lots, l) ensures Signed(t.sell, x.qty) > 0 { }
    assert OneSided(Insert(lots, l));
  }

  // Something is left open and becomes a lot of its own.
  lemma SettleOpens(b: Book, t: Trade)
    requires Consistent(b) && Taken(b, t).open > 0 && forall l :: l in b.lots ==> l.id != t.id
    ensures Consistent(Settle(b, t).0) && Total(Settle(b, t).0.lots) == Total(b.lots) + Signed(t.sell, t.qty)
  {
    hide Taken, Sorted, Consistent, Settle, Order, Total, Change, Opposite, Signed, Insert, Present, NewLot;
    HeldSide(b, t);
    TakenFacts(b, t);
    SettleShape(b, t);
    KeyIsNew(b, t);
    OpenedBook(b, t, Order(Taken(b, t).left, t.lifo), Taken(b, t).open);
  }

  lemma SettleRows(b: Book, t: Trade)
    requires Consistent(b)
    ensures Change(Settle(b, t).1) == Signed(t.sell, t.qty)
  {
    hide Taken, Sorted, Consistent, Settle, Order, Total, Change, Opposite, SameKey;
    TakenFacts(b, t);
    SettleShape(b, t);
    var o := Taken(b, t);
    var row := Row(t.id, t.id, 0, Signed(t.sell, o.open));
    ChangeConcat(o.rows, [row]);
    ChangeOfOne(row);
  }

  // The lot was opened by the trade.
  predicate OpenedBy(l: Lot, t: Trade) { l.id == t.id && l.dts == t.dts }

  // No lot appears but those that were held and one with the trade's own number and date.
  lemma SettleLots(b: Book, t: Trade)
    requires Consistent(b) && forall l :: l in b.lots ==> l.id != t.id
    ensures forall l :: l in Settle(b, t).0.lots ==> OpenedBy(l, t) || exists h :: h in b.lots && SameKey(h, l)
  {
    hide Taken, Sorted, Consistent, Settle, Order, Total, Change, Opposite, SameKey, Insert, Present;
    TakenFacts(b, t);
    TakenKeys(b, t);
    SettleShape(b, t);
    KeyIsNew(b, t);
    var o := Taken(b, t);
    if o.open > 0 { InsertKeeps(Order(o.left, t.lifo), NewLot(t, o.open)); }
  }

  /**
   A trade keeps the book consistent, changes the holdings by its signed quantity, and writes
   history rows that add up to that quantity.
   */
  lemma SettleKeeps(b: Book, t: Trade)
    requires Consistent(b) && forall l :: l in b.lots ==> l.id != t.id
    ensures var (b', rows) := Settle(b, t);
            && Consistent(b') && Total(b'.lots) == Total(b.lots) + Signed(t.sell, t.qty)
            && Change(rows) == Signed(t.sell, t.qty)
            && forall l :: l in b'.lots ==> OpenedBy(l, t) || exists h :: h in b.lots && SameKey(h, l)
  {
    if Taken(b, t).open > 0 { SettleOpens(b, t); } else { SettleMeets(b, t); }
    SettleRows(b, t);
    SettleLots(b, t);
    hide Settle, Consistent, Total, Change;
  }

  lemma NotPresent(lots: seq<Lot>, old_: seq<Lot>, t: Trade)
    requires forall l :: l in lots ==> exists h :: h in old_ && SameKey(h, l)
    requires forall l :: l in old_ ==> l.id != t.id
    ensures forall q :: !Present(lots, Lot(t.dts, t.id, q))
  {
    forall q ensures !Present(lots, Lot(t.dts, t.id, q)) {
      forall i | 0 <= i < |lots| ensures !SameKey(lots[i], Lot(t.dts, t.id, q)) { assert lots[i] in lots; }
    }
  }

  // ----- every sequence of trades -----

  // All books, the history rows of each, and the trades already settled, by number.
  datatype Desk = Desk(books: map<(nat, nat), Book>, history: map<(nat, nat), seq<Row>>, settled: map<nat, Trade>)

  function BookOf(d: Desk, k: (nat, nat)): Book { if k in d.books then d.books[k] else Book([], None) }

  function RowsOf(d: Desk, k: (nat, nat)): seq<Row> { if k in d.history then d.history[k] else [] }

  function KeyOf(t: Trade): (nat, nat) { (t.account, t.security) }

  // The lot was opened by a settled trade of this account and security.
  ghost predicate Opened(d: Desk, k: (nat, nat), l: Lot) {
    l.id in d.settled && OpenedBy(l, d.settled[l.id]) && KeyOf(d.settled[l.id]) == k
  }

  ghost predicate BookValid(d: Desk, k: (nat, nat)) {
    && Consistent(BookOf(d, k)) && Change(RowsOf(d, k)) == Total(BookOf(d, k).lots)
    && forall l :: l in BookOf(d, k).lots ==> Opened(d, k, l)
  }

  ghost predicate Valid(d: Desk) {
    forall k :: BookValid(d, k)
  }

  // A trade that was settled before is refused by the keys of the tables.
  ghost function Result(d: Desk, t: Trade): Desk
    requires Valid(d)
  {
    if t.id in d.settled then d
    else
      var k := KeyOf(t);
      assert BookValid(d, k);
      var (b, rows) := Settle(BookOf(d, k), t);
      Desk(d.books[k := b], d.history[k := RowsOf(d, k) + rows], d.settled[t.id := t])
  }

  lemma ResultKeeps(d: Desk, t: Trade)
    requires Valid(d)
    ensures Valid(Result(d, t))
  {
    if t.id !in d.settled {
      var k := KeyOf(t);
      assert BookValid(d, k);
      SettleKeeps(BookOf(d, k), t);
      var (b, rows) := Settle(BookOf(d, k), t);
      ChangeConcat(RowsOf(d, k), rows);
      var d' := Result(d, t);
      hide Settle, Consistent, Total, Change;
      forall q ensures BookValid(d', q) {
        assert BookValid(d, q);
        forall l | l in BookOf(d', q).lots ensures Opened(d', q, l) { StillOpened(d, d', t, q, l); }
      }
    }
  }

  lemma StillOpened(d: Desk, d': Desk, t: Trade, q: (nat, nat), l: Lot)
    requires BookValid(d, q) && t.id !in d.settled && d'.settled == d.settled[t.id := t]
    requires (OpenedBy(l, t) && q == KeyOf(t)) || exists h :: h in BookOf(d, q).lots && SameKey(h, l)
    ensures Opened(d', q, l)
  {
    hide Consistent, Change, Total;
  }

  ghost predicate Reaches(ds: seq<Desk>, ts: seq<Trade>) {
    |ds| == |ts| + 1 && ds[0] == Desk(map[], map[], map[])
    && forall i :: 0 <= i < |ts| ==> Valid(ds[i]) ==> ds[i + 1] == Result(ds[i], ts[i])
  }

  /**
   Over every sequence of trades, of every account and security: the summary is the sum of the
   lots, the lots are of one sign, there is a summary row exactly when the sum is not zero, the
   history rows add up to the holdings, and every lot has the number and the date of the settled
   trade that opened it.
   */
  lemma {:induction false} AlwaysConsistent(ds: seq<Desk>, ts: seq<Trade>)
    requires Reaches(ds, ts)
    ensures Valid(ds[|ts|])
  {
    if ts == [] {
      forall k ensures BookValid(ds[0], k) { }
    } else {
      var n := |ts| - 1;
      AlwaysConsistent(ds[..n + 1], ts[..n]);
      hide Valid, Result;
      ResultKeeps(ds[n], ts[n]);
    }
  }
}
