/**
 TPC-C NewOrder, Payment and Delivery as serial transactions over the tables they touch, with
 money in cents.  Rows of a district are grouped under its warehouse and district number.
 */
module Tpcc {
  const DISTRICTS: nat := 10
  const MAX_LINES: nat := 15

  // `delivered` is the delivery date, 0 while undelivered.
  datatype Line = Line(item: nat, supply: nat, qty: nat, amount: int, delivered: nat)

  // `carrier` is 0 while the order is undelivered.
  datatype Order = Order(cust: nat, carrier: nat, lines: seq<Line>)

  datatype Customer = Customer(balance: int, paid: int, payments: nat)

  // `pending` holds the keys of the new-order rows.
  datatype District = District(next: nat, ytd: int, orders: map<nat, Order>, pending: set<nat>, customers: map<nat,
      Customer>)

  datatype World = World(ytd: map<nat, int>, districts: map<(nat, nat), District>, stock: map<(nat, nat), int>)

  datatype Item = Item(item: nat, supply: nat, qty: nat, price: nat)

  // ----- amounts -----

  function Amount(lines: seq<Line>): int {
    if lines == [] then 0 else Amount(lines[..|lines| - 1]) + lines[|lines| - 1].amount
  }

  // What order `o` adds to the delivered amount of customer `c`.
  function Share(orders: map<nat, Order>, c: nat, o: nat): int {
    if o in orders && orders[o].cust == c && orders[o].carrier != 0 then Amount(orders[o].lines) else 0
  }

  // Line amounts of the delivered orders of `c` with numbers below `n`.
  function Delivered(orders: map<nat, Order>, c: nat, n: nat): int {
    if n == 0 then 0 else Delivered(orders, c, n - 1) + Share(orders, c, n - 1)
  }

  lemma {:induction false} SameDelivered(a: map<nat, Order>, b: map<nat, Order>, c: nat, n: nat)
    requires forall o :: 0 <= o < n ==> Share(a, c, o) == Share(b, c, o)
    ensures Delivered(a, c, n) == Delivered(b, c, n)
  {
    if n > 0 { SameDelivered(a, b, c, n - 1); }
  }

  // Only order `k` changed.
  lemma {:induction false} OneDelivered(a: map<nat, Order>, b: map<nat, Order>, c: nat, n: nat, k: nat)
    requires k < n && forall o :: 0 <= o < n && o != k ==> Share(a, c, o) == Share(b, c, o)
    ensures Delivered(b, c, n) == Delivered(a, c, n) + Share(b, c, k) - Share(a, c, k)
  {
    if k == n - 1 {
      SameDelivered(a, b, c, n - 1);
    } else {
      OneDelivered(a, b, c, n - 1, k);
    }
  }

  // ----- consistency -----

  ghost predicate OrderOk(d: District, o: nat)
    requires o in d.orders
  {
    && o < d.next && d.orders[o].cust in d.customers && |d.orders[o].lines| <= MAX_LINES
    && (d.orders[o].carrier == 0 <==> o in d.pending)
  }

  // Clause 3.3.2.12: balance and payments of a customer make up the delivered amounts.
  ghost predicate CustomerOk(d: District, c: nat)
    requires c in d.customers
  {
    d.customers[c].balance + d.customers[c].paid == Delivered(d.orders, c, d.next)
  }

  // With clause 3.3.2.5: an order has no carrier exactly when it has a new-order row.
  ghost predicate DistrictOk(d: District) {
    && (forall o :: o in d.orders ==> OrderOk(d, o))
    && (forall o :: o in d.pending ==> o in d.orders)
    && (forall c :: c in d.customers ==> CustomerOk(d, c))
  }

  // Year-to-date amounts of the first `n` districts of warehouse `w`.
  function DistrictYtd(s: World, w: nat, n: nat): int {
    if n == 0 then 0 else DistrictYtd(s, w, n - 1) + (if (w, n) in s.districts then s.districts[(w, n)].ytd else 0)
  }

  // Clause 3.3.2.1: a warehouse has taken in what its districts have.
  ghost predicate WarehouseOk(s: World, w: nat)
    requires w in s.ytd
  {
    s.ytd[w] == DistrictYtd(s, w, DISTRICTS)
  }

  // A stock level never leaves 10..100.
  ghost predicate StockOk(q: int) { 10 <= q <= 100 }

  ghost predicate Consistent(s: World) {
    && (forall k: (nat, nat) :: k in s.districts ==>
          DistrictOk(s.districts[k]) && k.0 in s.ytd && 1 <= k.1 <= DISTRICTS)
    && (forall w :: w in s.ytd ==> WarehouseOk(s, w))
    && (forall k :: k in s.stock ==> StockOk(s.stock[k]))
  }

  lemma {:induction false} YtdFrame(s: World, s': World, w: nat, n: nat)
    requires forall d :: 1 <= d <= n ==> ((w, d) in s.districts <==> (w, d) in s'.districts)
    requires forall d :: 1 <= d <= n && (w, d) in s.districts ==> s'.districts[(w, d)].ytd == s.districts[(w, d)].ytd
    ensures DistrictYtd(s', w, n) == DistrictYtd(s, w, n)
  {
    if n > 0 { YtdFrame(s, s', w, n - 1); }
  }

  lemma {:induction false} YtdChange(s: World, s': World, w: nat, k: nat, n: nat, x: int)
    requires 1 <= k <= n && (w, k) in s.districts && (w, k) in s'.districts
    requires s'.districts[(w, k)].ytd == s.districts[(w, k)].ytd + x
    requires forall d :: 1 <= d <= n && d != k ==> ((w, d) in s.districts <==> (w, d) in s'.districts)
    requires forall d :: 1 <= d <= n && d != k && (w, d) in s.districts ==>
               s'.districts[(w, d)].ytd == s.districts[(w, d)].ytd
    ensures DistrictYtd(s', w, n) == DistrictYtd(s, w, n) + x
  {
    if n == k { YtdFrame(s, s', w, n - 1); } else { YtdChange(s, s', w, k, n - 1, x); }
  }

  // ----- new order -----

  const TWO32: nat := 0x1_0000_0000

  // The reorder rule; the comparison is made in 32-bit unsigned arithmetic.
  function NewStock(level: int, qty: nat): int {
    if (level - qty) % TWO32 >= 10 then level - qty else level - qty + 91
  }

  function LineOf(i: Item): Line { Line(i.item, i.supply, i.qty, i.qty * i.price, 0) }

  function LinesOf(items: seq<Item>): (ls: seq<Line>)
    ensures |ls| == |items|
  {
    seq(|items|, k requires 0 <= k < |items| => LineOf(items[k]))
  }

  function StockAfter(stock: map<(nat, nat), int>, items: seq<Item>): map<(nat, nat), int> {
    if items == [] then stock
    else
      var i := items[|items| - 1];
      var m := StockAfter(stock, items[..|items| - 1]);
      if (i.supply, i.item) in m then m[(i.supply, i.item) := NewStock(m[(i.supply, i.item)], i.qty)] else m
  }

  function PlaceOrder(d: District, c: nat, items: seq<Item>): District {
    d.(next := d.next + 1, pending := d.pending + {d.next}, orders := d.orders[d.next := Order(c, 0, LinesOf(items))])
  }

  // ----- payment -----

  function PayInto(d: District, c: nat, x: nat): District
    requires c in d.customers
  {
    var r := d.customers[c];
    d.(customers := d.customers[c := Customer(r.balance - x, r.paid + x, r.payments + 1)])
  }

  // ----- delivery -----

  // The new-order row that a scan from `hint` finds first.
  ghost predicate FirstPending(d: District, hint: nat, o: nat) {
    o in d.pending && hint <= o && forall p :: p in d.pending && hint <= p ==> o <= p
  }

  // Order lines with their delivery date set, as far as the scan goes.
  function Stamp(lines: seq<Line>, ts: nat): (r: seq<Line>)
    ensures |r| == |lines|
  {
    seq(|lines|, k requires 0 <= k < |lines| => if k < MAX_LINES then lines[k].(delivered := ts) else lines[k])
  }

  function Scanned(lines: seq<Line>): seq<Line> { if |lines| <= MAX_LINES then lines else lines[..MAX_LINES] }

  function DeliverOrder(d: District, o: nat, carrier: nat, ts: nat): District
    requires o in d.orders && d.orders[o].cust in d.customers
  {
    var r := d.orders[o];
    var c := d.customers[r.cust];
    d.(pending := d.pending - {o},
       orders := d.orders[o := Order(r.cust, carrier, Stamp(r.lines, ts))],
       customers := d.customers[r.cust := c.(balance := c.balance + Amount(Scanned(r.lines)))])
  }

  // ----- each transaction keeps the district consistent -----

  lemma PlaceOrderKeeps(d: District, c: nat, items: seq<Item>)
    requires DistrictOk(d) && c in d.customers && |items| <= MAX_LINES
    ensures DistrictOk(PlaceOrder(d, c, items))
  {
    var d' := PlaceOrder(d, c, items);
    assert d.next !in d.orders;
    forall o | o in d'.orders ensures OrderOk(d', o) { if o != d.next { assert OrderOk(d, o); } }
    forall k | k in d'.customers ensures CustomerOk(d', k) {
      assert CustomerOk(d, k);
      SameDelivered(d.orders, d'.orders, k, d.next);
    }
  }

  lemma PayIntoKeeps(d: District, c: nat, x: nat)
    requires DistrictOk(d) && c in d.customers
    ensures DistrictOk(PayInto(d, c, x))
  {
    var d' := PayInto(d, c, x);
    forall o | o in d'.orders ensures OrderOk(d', o) { assert OrderOk(d, o); }
    forall k | k in d'.customers ensures CustomerOk(d', k) { assert CustomerOk(d, k); }
  }

  lemma {:induction false} StampAmount(lines: seq<Line>, ts: nat)
    ensures Amount(Stamp(lines, ts)) == Amount(lines)
  {
    if lines != [] {
      var k := |lines| - 1;
      assert Stamp(lines, ts)[..k] == Stamp(lines[..k], ts);
      StampAmount(lines[..k], ts);
    }
  }

  lemma DeliverOrderKeeps(d: District, o: nat, carrier: nat, ts: nat)
    requires DistrictOk(d) && o in d.pending && carrier != 0
    ensures o in d.orders && d.orders[o].cust in d.customers && DistrictOk(DeliverOrder(d, o, carrier, ts))
  {
    assert OrderOk(d, o);
    var d' := DeliverOrder(d, o, carrier, ts);
    StampAmount(d.orders[o].lines, ts);
    forall p | p in d'.orders ensures OrderOk(d', p) { assert OrderOk(d, p); }
    forall k | k in d'.customers ensures CustomerOk(d', k) {
      assert CustomerOk(d, k);
      OneDelivered(d.orders, d'.orders, k, d.next, o);
    }
  }

  lemma NewStockStays(level: int, qty: nat)
    requires StockOk(level) && 1 <= qty <= 10
    ensures StockOk(NewStock(level, qty))
  {
  }

  lemma {:induction false} StockStays(stock: map<(nat, nat), int>, items: seq<Item>)
    requires (forall k :: k in stock ==> StockOk(stock[k])) && forall i :: i in items ==> 1 <= i.qty <= 10
    ensures var m := StockAfter(stock, items); m.Keys == stock.Keys && forall k :: k in m ==> StockOk(m[k])
  {
    if items != [] {
      var n := |items| - 1;
      var i := items[n];
      assert items[..n] + [i] == items;
      StockStays(stock, items[..n]);
      var m := StockAfter(stock, items[..n]);
      if (i.supply, i.item) in m { NewStockStays(m[(i.supply, i.item)], i.qty); }
    }
  }

  // ----- the transactions on the whole store -----

  // The rows a new order reads exist.
  predicate OrderReads(s: World, w: nat, d: nat, c: nat, items: seq<Item>) {
    && (w, d) in s.districts && c in s.districts[(w, d)].customers
    && forall i :: i in items ==> (i.supply, i.item) in s.stock
  }

  function NewOrder(s: World, w: nat, d: nat, c: nat, items: seq<Item>): World {
    if !OrderReads(s, w, d, c, items) then s
    else s.(districts := s.districts[(w, d) := PlaceOrder(s.districts[(w, d)], c, items)],
         stock := StockAfter(s.stock, items))
  }

  predicate PaymentReads(s: World, w: nat, d: nat, cw: nat, cd: nat, c: nat) {
    w in s.ytd && (w, d) in s.districts && (cw, cd) in s.districts && c in s.districts[(cw, cd)].customers
  }

  // Warehouse `w` and its district `d` take in `x`.
  function TakenIn(s: World, w: nat, d: nat, x: nat): World
    requires w in s.ytd && (w, d) in s.districts
  {
    var home := s.districts[(w, d)];
    s.(ytd := s.ytd[w := s.ytd[w] + x], districts := s.districts[(w, d) := home.(ytd := home.ytd + x)])
  }

  // District `d` of warehouse `w` takes in `x` from customer `c` of district `cd` of warehouse `cw`.
  function Payment(s: World, w: nat, d: nat, cw: nat, cd: nat, c: nat, x: nat): World {
    if !PaymentReads(s, w, d, cw, cd, c) then s
    else
      var s1 := TakenIn(s, w, d, x);
      s1.(districts := s1.districts[(cw, cd) := PayInto(s1.districts[(cw, cd)], c, x)])
  }

  // The scan finds a new-order row without its order, or an order without its customer.
  ghost predicate DeliveryFails(s: World, k: (nat, nat), hint: nat) {
    && k in s.districts
    && exists o :: FirstPending(s.districts[k], hint, o)
                   && !(o in s.districts[k].orders && s.districts[k].orders[o].cust in s.districts[k].customers)
  }

  // One district of a delivery: nothing if the scan finds no row.
  ghost function DeliverDistrict(s: World, k: (nat, nat), hint: nat, carrier: nat, ts: nat): World {
    if k !in s.districts || !exists o :: FirstPending(s.districts[k], hint, o) then s
    else
      var d := s.districts[k];
      var o :| FirstPending(d, hint, o);
      if o in d.orders && d.orders[o].cust in d.customers then
        s.(districts := s.districts[k := DeliverOrder(d, o, carrier, ts)])
      else s
  }

  // The first `n` districts of warehouse `w`.
  ghost function Deliveries(s: World, w: nat, hints: seq<nat>, carrier: nat, ts: nat, n: nat): World
    requires n <= |hints|
  {
    if n == 0 then s else DeliverDistrict(Deliveries(s, w, hints, carrier, ts, n - 1), (w, n), hints[n - 1], carrier,
         ts)
  }

  // All districts, or nothing if one of them fails.
  ghost function Delivery(s: World, w: nat, hints: seq<nat>, carrier: nat, ts: nat): World
    requires |hints| == DISTRICTS
  {
    if exists d :: 0 <= d < DISTRICTS && DeliveryFails(s, (w, d + 1), hints[d]) then s
    else Deliveries(s, w, hints, carrier, ts, DISTRICTS)
  }

  // Delivering in one district leaves the others alone.
  lemma {:induction false} DeliveriesApart(s: World, w: nat, hints: seq<nat>, carrier: nat, ts: nat, n: nat,
      k: (nat, nat))
    requires n <= |hints| && (k.0 != w || k.1 > n)
    ensures var s' := Deliveries(s, w, hints, carrier, ts, n);
            (k in s'.districts <==> k in s.districts) && (k in s.districts ==> s'.districts[k] == s.districts[k])
  {
    if n > 0 { DeliveriesApart(s, w, hints, carrier, ts, n - 1, k); }
  }

  // A district replaced by a consistent one that has taken in the same.
  lemma ReplaceDistrict(s: World, k: (nat, nat), d: District)
    requires Consistent(s) && k in s.districts && DistrictOk(d) && d.ytd == s.districts[k].ytd
    ensures Consistent(s.(districts := s.districts[k := d]))
  {
    hide DistrictOk;
    var s' := s.(districts := s.districts[k := d]);
    forall v | v in s'.ytd ensures WarehouseOk(s', v) {
      assert WarehouseOk(s, v);
      YtdFrame(s, s', v, DISTRICTS);
    }
  }

  lemma NewOrderKeeps(s: World, w: nat, d: nat, c: nat, items: seq<Item>)
    requires Consistent(s) && |items| <= MAX_LINES && forall i :: i in items ==> 1 <= i.qty <= 10
    ensures Consistent(NewOrder(s, w, d, c, items))
  {
    if OrderReads(s, w, d, c, items) {
      var s' := NewOrder(s, w, d, c, items);
      PlaceOrderKeeps(s.districts[(w, d)], c, items);
      StockStays(s.stock, items);
      var s1 := s.(districts := s'.districts);
      ReplaceDistrict(s, (w, d), PlaceOrder(s.districts[(w, d)], c, items));
      hide PlaceOrder, DistrictOk, StockAfter;
      forall v | v in s'.ytd ensures WarehouseOk(s', v) {
        assert WarehouseOk(s1, v);
        YtdFrame(s1, s', v, DISTRICTS);
      }
    }
  }

  lemma TakenInKeeps(s: World, w: nat, d: nat, x: nat)
    requires Consistent(s) && w in s.ytd && (w, d) in s.districts
    ensures Consistent(TakenIn(s, w, d, x))
  {
    hide DistrictOk, WarehouseOk, StockOk;
    var s' := TakenIn(s, w, d, x);
    TakenInDistricts(s, w, d, x);
    forall v | v in s'.ytd ensures WarehouseOk(s', v) {
      assert WarehouseOk(s, v);
      TakenInYtd(s, w, d, x, v);
    }
  }

  lemma TakenInDistricts(s: World, w: nat, d: nat, x: nat)
    requires Consistent(s) && w in s.ytd && (w, d) in s.districts
    ensures 1 <= d <= DISTRICTS
    ensures forall k: (nat, nat) :: k in TakenIn(s, w, d, x).districts ==>
              DistrictOk(TakenIn(s, w, d, x).districts[k]) && k.0 in s.ytd && 1 <= k.1 <= DISTRICTS
  {
    hide DistrictOk, WarehouseOk, StockOk;
    var home := s.districts[(w, d)];
    YtdOnly(home, home.(ytd := home.ytd + x));
    assert (w, d).1 == d;
  }

  lemma TakenInYtd(s: World, w: nat, d: nat, x: nat, v: nat)
    requires w in s.ytd && v in s.ytd && (w, d) in s.districts && 1 <= d <= DISTRICTS && WarehouseOk(s, v)
    ensures WarehouseOk(TakenIn(s, w, d, x), v)
  {
    var s' := TakenIn(s, w, d, x);
    if v == w { YtdChange(s, s', w, d, DISTRICTS, x); } else { YtdFrame(s, s', v, DISTRICTS); }
  }

  lemma PaidInKeeps(s: World, k: (nat, nat), c: nat, x: nat)
    requires Consistent(s) && k in s.districts && c in s.districts[k].customers
    ensures Consistent(s.(districts := s.districts[k := PayInto(s.districts[k], c, x)]))
  {
    PayIntoKeeps(s.districts[k], c, x);
    ReplaceDistrict(s, k, PayInto(s.districts[k], c, x));
    hide Consistent;
  }

  lemma PaymentKeeps(s: World, w: nat, d: nat, cw: nat, cd: nat, c: nat, x: nat)
    requires Consistent(s)
    ensures Consistent(Payment(s, w, d, cw, cd, c, x))
  {
    hide Consistent;
    if PaymentReads(s, w, d, cw, cd, c) {
      TakenInKeeps(s, w, d, x);
      PaidInKeeps(TakenIn(s, w, d, x), (cw, cd), c, x);
    }
  }

  // The amount taken in does not matter to the rest of the district.
  lemma YtdOnly(d: District, d': District)
    requires DistrictOk(d) && d' == d.(ytd := d'.ytd)
    ensures DistrictOk(d')
  {
    forall o | o in d'.orders ensures OrderOk(d', o) { assert OrderOk(d, o); }
    forall c | c in d'.customers ensures CustomerOk(d', c) { assert CustomerOk(d, c); }
  }

  lemma DeliverDistrictKeeps(s: World, k: (nat, nat), hint: nat, carrier: nat, ts: nat)
    requires Consistent(s) && carrier != 0
    ensures Consistent(DeliverDistrict(s, k, hint, carrier, ts))
  {
    var s' := DeliverDistrict(s, k, hint, carrier, ts);
    if s' != s {
      var d := s.districts[k];
      var o :| FirstPending(d, hint, o) && s'.districts == s.districts[k := DeliverOrder(d, o, carrier, ts)];
      DeliverOrderKeeps(d, o, carrier, ts);
      ReplaceDistrict(s, k, DeliverOrder(d, o, carrier, ts));
      hide Consistent;
    }
  }

  lemma {:induction false} DeliveriesKeep(s: World, w: nat, hints: seq<nat>, carrier: nat, ts: nat, n: nat)
    requires Consistent(s) && carrier != 0 && n <= |hints|
    ensures Consistent(Deliveries(s, w, hints, carrier, ts, n))
  {
    if n > 0 {
      DeliveriesKeep(s, w, hints, carrier, ts, n - 1);
      DeliverDistrictKeeps(Deliveries(s, w, hints, carrier, ts, n - 1), (w, n), hints[n - 1], carrier, ts);
    }
  }

  // A delivery keeps consistent tables consistent, and fails nowhere.
  lemma DeliveryKeeps(s: World, w: nat, hints: seq<nat>, carrier: nat, ts: nat)
    requires Consistent(s) && carrier != 0 && |hints| == DISTRICTS
    ensures Consistent(Delivery(s, w, hints, carrier, ts))
    ensures forall d :: 0 <= d < DISTRICTS ==> !DeliveryFails(s, (w, d + 1), hints[d])
  {
    forall d | 0 <= d < DISTRICTS ensures !DeliveryFails(s, (w, d + 1), hints[d]) {
      if (w, d + 1) in s.districts {
        var row := s.districts[(w, d + 1)];
        forall o | o in row.pending
          ensures o in row.orders
                  && row.orders[o].cust in row.customers { assert OrderOk(row, o); }
      }
    }
    DeliveriesKeep(s, w, hints, carrier, ts, DISTRICTS);
  }

  // ----- the loaded state -----

  ghost predicate LoadedDistrict(d: District) {
    && d.next == 3001 && d.ytd == 3000000
    && (forall c :: c in d.customers <==> 1 <= c <= 3000)
    && (forall c :: c in d.customers ==> d.customers[c] == Customer(-1000, 1000, 1))
    && (forall o :: o in d.orders <==> 1 <= o <= 3000)
    && (forall o :: o in d.orders ==> 1 <= d.orders[o].cust <= 3000 && 5 <= |d.orders[o].lines| <= 15)
    && (forall o :: o in d.orders ==> (d.orders[o].carrier == 0 <==> o >= 2101))
    && (forall o :: o in d.orders && o < 2101 ==> forall l :: l in d.orders[o].lines ==> l.amount == 0)
    && (forall o :: o in d.pending <==> 2101 <= o <= 3000)
  }

  ghost predicate Loaded(s: World) {
    && (forall k: (nat, nat) :: k in s.districts <==> k.0 in s.ytd && 1 <= k.1 <= DISTRICTS)
    && (forall k: (nat, nat) :: k in s.districts ==> LoadedDistrict(s.districts[k]))
    && (forall w :: w in s.ytd ==> s.ytd[w] == 30000000)
    && (forall k: (nat, nat) :: k in s.stock ==> 10 <= s.stock[k] <= 100)
  }

  lemma {:induction false} NoAmount(lines: seq<Line>)
    requires forall l :: l in lines ==> l.amount == 0
    ensures Amount(lines) == 0
  {
    if lines != [] {
      var k := |lines| - 1;
      assert lines[..k] + [lines[k]] == lines;
      NoAmount(lines[..k]);
    }
  }

  lemma {:induction false} NothingDelivered(d: District, c: nat, n: nat)
    requires LoadedDistrict(d) && n <= 3001
    ensures Delivered(d.orders, c, n) == 0
  {
    if n > 0 {
      NothingDelivered(d, c, n - 1);
      if n - 1 in d.orders && n - 1 < 2101 { NoAmount(d.orders[n - 1].lines); }
    }
  }

  lemma {:induction false} LoadedYtd(s: World, w: nat, n: nat)
    requires Loaded(s) && w in s.ytd && n <= DISTRICTS
    ensures DistrictYtd(s, w, n) == 3000000 * n
  {
    if n > 0 {
      LoadedYtd(s, w, n - 1);
      assert (w, n) in s.districts;
    }
  }

  lemma LoadedDistrictOk(d: District)
    requires LoadedDistrict(d)
    ensures DistrictOk(d)
  {
    forall c | c in d.customers ensures CustomerOk(d, c) { NothingDelivered(d, c, 3001); }
  }

  lemma LoadedIsConsistent(s: World)
    requires Loaded(s)
    ensures Consistent(s)
  {
    hide DistrictOk, LoadedDistrict;
    forall k: (nat, nat) | k in s.districts
      ensures DistrictOk(s.districts[k]) && k.0 in s.ytd && 1 <= k.1 <= DISTRICTS
    {
      assert LoadedDistrict(s.districts[k]);
      LoadedDistrictOk(s.districts[k]);
    }
    forall w | w in s.ytd ensures WarehouseOk(s, w) { LoadedYtd(s, w, DISTRICTS); }
  }

  // ----- every run -----

  datatype Txn =
    | NewOrderTxn(w: nat, d: nat, c: nat, items: seq<Item>)
    | PaymentTxn(w: nat, d: nat, cw: nat, cd: nat, c: nat, x: nat)
    | DeliveryTxn(w: nat, hints: seq<nat>, carrier: nat, ts: nat)

  // What the workload generator may ask for.
  predicate Allowed(t: Txn) {
    match t
    case NewOrderTxn(_, _, _, items) => |items| <= MAX_LINES && forall i :: i in items ==> 1 <= i.qty <= 10
    case PaymentTxn(_, _, _, _, _, x) => true
    case DeliveryTxn(_, hints, carrier, _) => |hints| == DISTRICTS && carrier != 0
  }

  ghost function Apply(s: World, t: Txn): World
    requires Allowed(t)
  {
    match t
    case NewOrderTxn(w, d, c, items) => NewOrder(s, w, d, c, items)
    case PaymentTxn(w, d, cw, cd, c, x) => Payment(s, w, d, cw, cd, c, x)
    case DeliveryTxn(w, hints, carrier, ts) => Delivery(s, w, hints, carrier, ts)
  }

  ghost predicate Run(r: seq<World>, ts: seq<Txn>) {
    && |r| == |ts| + 1 && Loaded(r[0])
    && forall i :: 0 <= i < |ts| ==> Allowed(ts[i]) && r[i + 1] == Apply(r[i], ts[i])
  }

  lemma ApplyKeeps(s: World, t: Txn)
    requires Consistent(s) && Allowed(t)
    ensures Consistent(Apply(s, t))
  {
    match t
    case NewOrderTxn(w, d, c, items) => NewOrderKeeps(s, w, d, c, items);
    case PaymentTxn(w, d, cw, cd, c, x) => PaymentKeeps(s, w, d, cw, cd, c, x);
    case DeliveryTxn(w, hints, carrier, ts) => DeliveryKeeps(s, w, hints, carrier, ts);
  }

  /**
   After any run of the three transactions from the loaded state: every customer's balance and
   payments make up the line amounts of that customer's delivered orders, an order has no carrier
   exactly when it has a new-order row, a warehouse has taken in what its districts have, and
   every stock level is within 10..100.
   */
  lemma {:induction false} AlwaysConsistent(r: seq<World>, ts: seq<Txn>)
    requires Run(r, ts)
    ensures Consistent(r[|ts|])
  {
    hide Consistent, Apply;
    if ts == [] {
      LoadedIsConsistent(r[0]);
    } else {
      var n := |ts| - 1;
      AlwaysConsistent(r[..n + 1], ts[..n]);
      ApplyKeeps(r[n], ts[n]);
    }
  }
}
