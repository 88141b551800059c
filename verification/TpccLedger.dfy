/**
 What the TPC-C tables hold after any run, in terms of the transactions of the run alone: money
 paid and taken in, orders placed and delivered, stock.
 */
module TpccLedger {
  import opened Tpcc

  // ----- the rows that exist never change -----

  ghost predicate SameRows(s: World, s': World) {
    && s'.ytd.Keys == s.ytd.Keys && s'.districts.Keys == s.districts.Keys && s'.stock.Keys == s.stock.Keys
    && forall k :: k in s.districts ==> s'.districts[k].customers.Keys == s.districts[k].customers.Keys
  }

  lemma {:induction false} StockRows(stock: map<(nat, nat), int>, items: seq<Item>)
    ensures StockAfter(stock, items).Keys == stock.Keys
  {
    if items != [] { StockRows(stock, items[..|items| - 1]); }
  }

  lemma {:induction false} DeliveriesRows(s: World, w: nat, hints: seq<nat>, carrier: nat, ts: nat, n: nat)
    requires n <= |hints|
    ensures SameRows(s, Deliveries(s, w, hints, carrier, ts, n))
  {
    if n > 0 { DeliveriesRows(s, w, hints, carrier, ts, n - 1); }
  }

  lemma ApplyRows(s: World, t: Txn)
    requires Allowed(t)
    ensures SameRows(s, Apply(s, t))
  {
    match t
    case NewOrderTxn(w, d, c, items) => StockRows(s.stock, items);
    case PaymentTxn(w, d, cw, cd, c, x) =>
    case DeliveryTxn(w, hints, carrier, ts) => DeliveriesRows(s, w, hints, carrier, ts, DISTRICTS);
  }

  lemma {:induction false} RunRows(r: seq<World>, ts: seq<Txn>)
    requires Run(r, ts)
    ensures SameRows(r[0], r[|ts|])
  {
    if ts != [] {
      var n := |ts| - 1;
      hide Apply, Loaded;
      RunRows(r[..n + 1], ts[..n]);
      ApplyRows(r[n], ts[n]);
    }
  }

  // ----- payments -----

  // The transaction is a payment that finds its rows.
  predicate Pays(s: World, t: Txn) { t.PaymentTxn? && PaymentReads(s, t.w, t.d, t.cw, t.cd, t.c) }

  // What the transaction pays for customer `c` of district `k`.
  function PaidFor(s: World, t: Txn, k: (nat, nat), c: nat): nat {
    if Pays(s, t) && (t.cw, t.cd) == k && t.c == c then t.x else 0
  }

  function TimesFor(s: World, t: Txn, k: (nat, nat), c: nat): nat {
    if Pays(s, t) && (t.cw, t.cd) == k && t.c == c then 1 else 0
  }

  // What the transaction brings district `k`.
  function BroughtTo(s: World, t: Txn, k: (nat, nat)): nat {
    if Pays(s, t) && (t.w, t.d) == k then t.x else 0
  }

  // The sums over a run; `s` is the loaded state.
  function SumPaid(s: World, ts: seq<Txn>, k: (nat, nat), c: nat): nat {
    if ts == [] then 0 else SumPaid(s, ts[..|ts| - 1], k, c) + PaidFor(s, ts[|ts| - 1], k, c)
  }

  function CountPaid(s: World, ts: seq<Txn>, k: (nat, nat), c: nat): nat {
    if ts == [] then 0 else CountPaid(s, ts[..|ts| - 1], k, c) + TimesFor(s, ts[|ts| - 1], k, c)
  }

  function SumBrought(s: World, ts: seq<Txn>, k: (nat, nat)): nat {
    if ts == [] then 0 else SumBrought(s, ts[..|ts| - 1], k) + BroughtTo(s, ts[|ts| - 1], k)
  }

  // The same for a whole warehouse.
  function SumTaken(s: World, ts: seq<Txn>, w: nat): nat {
    if ts == [] then 0
    else
      var t := ts[|ts| - 1];
      SumTaken(s, ts[..|ts| - 1], w) + if Pays(s, t) && t.w == w then t.x else 0
  }

  lemma PaysStays(s: World, s': World, t: Txn)
    requires SameRows(s, s')
    ensures Pays(s', t) <==> Pays(s, t)
  {
  }

  // What no delivery touches.
  ghost predicate SameMoney(s: World, s': World) {
    && SameRows(s, s') && s'.ytd == s.ytd
    && forall k :: k in s.districts ==>
         && s'.districts[k].ytd == s.districts[k].ytd
         && forall c :: c in s.districts[k].customers ==>
              && s'.districts[k].customers[c].paid == s.districts[k].customers[c].paid
              && s'.districts[k].customers[c].payments == s.districts[k].customers[c].payments
  }

  lemma {:induction false} DeliveriesMoney(s: World, w: nat, hints: seq<nat>, carrier: nat, ts: nat, n: nat)
    requires n <= |hints|
    ensures SameMoney(s, Deliveries(s, w, hints, carrier, ts, n))
  {
    if n > 0 {
      DeliveriesMoney(s, w, hints, carrier, ts, n - 1);
      DistrictMoney(Deliveries(s, w, hints, carrier, ts, n - 1), (w, n), hints[n - 1], carrier, ts);
    }
  }

  lemma DistrictMoney(s: World, k: (nat, nat), hint: nat, carrier: nat, ts: nat)
    ensures SameMoney(s, DeliverDistrict(s, k, hint, carrier, ts))
  {
  }

  lemma ApplyMoney(s: World, t: Txn, k: (nat, nat), c: nat)
    requires Allowed(t) && k in s.districts && c in s.districts[k].customers
    ensures var s' := Apply(s, t);
            && SameRows(s, s') && k in s'.districts && c in s'.districts[k].customers
            && s'.districts[k].customers[c].paid == s.districts[k].customers[c].paid + PaidFor(s, t, k, c)
            && s'.districts[k].customers[c].payments == s.districts[k].customers[c].payments + TimesFor(s, t, k, c)
  {
    ApplyRows(s, t);
    if t.DeliveryTxn? { DeliveriesMoney(s, t.w, t.hints, t.carrier, t.ts, DISTRICTS); }
    hide Deliveries, DeliveryFails;
  }

  lemma ApplyTakings(s: World, t: Txn, k: (nat, nat), w: nat)
    requires Allowed(t) && k in s.districts && w in s.ytd
    ensures var s' := Apply(s, t);
            && k in s'.districts && w in s'.ytd
            && s'.districts[k].ytd == s.districts[k].ytd + BroughtTo(s, t, k)
            && s'.ytd[w] == s.ytd[w] + if Pays(s, t) && t.w == w then t.x else 0
  {
    ApplyRows(s, t);
    if t.DeliveryTxn? { DeliveriesMoney(s, t.w, t.hints, t.carrier, t.ts, DISTRICTS); }
    hide Deliveries, DeliveryFails;
  }

  /**
   After any run every customer has paid the loaded amount and what the run paid, as often, and
   owes that much less than what was delivered (clause 3.3.2.10).
   */
  lemma {:induction false} CustomerLedger(r: seq<World>, ts: seq<Txn>, k: (nat, nat), c: nat)
    requires Run(r, ts) && k in r[0].districts && c in r[0].districts[k].customers
    ensures k in r[|ts|].districts && c in r[|ts|].districts[k].customers
    ensures var d := r[|ts|].districts[k]; var x := d.customers[c];
            && x.paid == 1000 + SumPaid(r[0], ts, k, c) && x.payments == 1 + CountPaid(r[0], ts, k, c)
            && x.balance == Delivered(d.orders, c, d.next) - 1000 - SumPaid(r[0], ts, k, c)
  {
    PaidLedger(r, ts, k, c);
    AlwaysConsistent(r, ts);
    hide Run;
    assert CustomerOk(r[|ts|].districts[k], c);
  }

  lemma {:induction false} PaidLedger(r: seq<World>, ts: seq<Txn>, k: (nat, nat), c: nat)
    requires Run(r, ts) && k in r[0].districts && c in r[0].districts[k].customers
    ensures k in r[|ts|].districts && c in r[|ts|].districts[k].customers
    ensures var x := r[|ts|].districts[k].customers[c];
            x.paid == 1000 + SumPaid(r[0], ts, k, c) && x.payments == 1 + CountPaid(r[0], ts, k, c)
  {
    if ts == [] {
      assert LoadedDistrict(r[0].districts[k]);
    } else {
      var n := |ts| - 1;
      hide Apply, Loaded;
      PaidLedger(r[..n + 1], ts[..n], k, c);
      RunRows(r[..n + 1], ts[..n]);
      PaysStays(r[0], r[n], ts[n]);
      hide PaymentReads;
      ApplyMoney(r[n], ts[n], k, c);
    }
  }

  /**
   After any run every district and every warehouse has taken in the loaded amount and the payments
   made there (clause 3.3.2.8).
   */
  lemma {:induction false} TakingsLedger(r: seq<World>, ts: seq<Txn>, k: (nat, nat), w: nat)
    requires Run(r, ts) && k in r[0].districts && w in r[0].ytd
    ensures k in r[|ts|].districts && w in r[|ts|].ytd
    ensures r[|ts|].districts[k].ytd == 3000000 + SumBrought(r[0], ts, k)
    ensures r[|ts|].ytd[w] == 30000000 + SumTaken(r[0], ts, w)
  {
    if ts == [] {
      assert LoadedDistrict(r[0].districts[k]);
    } else {
      var n := |ts| - 1;
      hide Apply, Loaded;
      TakingsLedger(r[..n + 1], ts[..n], k, w);
      RunRows(r[..n + 1], ts[..n]);
      PaysStays(r[0], r[n], ts[n]);
      hide PaymentReads;
      ApplyTakings(r[n], ts[n], k, w);
    }
  }

  // ----- orders -----

  // The transaction places an order in district `k`.
  predicate Places(s: World, t: Txn, k: (nat, nat)) {
    t.NewOrderTxn? && (t.w, t.d) == k && OrderReads(s, t.w, t.d, t.c, t.items)
  }

  // The orders placed in district `k` during a run, in order.
  function Placed(s: World, ts: seq<Txn>, k: (nat, nat)): seq<Txn> {
    if ts == [] then []
    else Placed(s, ts[..|ts| - 1], k) + if Places(s, ts[|ts| - 1], k) then [ts[|ts| - 1]] else []
  }

  // The order is what was asked for: its customer, and a line for every item with its price.
  ghost predicate AskedFor(o: Order, t: Txn) {
    && t.NewOrderTxn? && o.cust == t.c && |o.lines| == |t.items|
    && forall j :: 0 <= j < |o.lines| ==>
         && o.lines[j].item == t.items[j].item && o.lines[j].supply == t.items[j].supply
         && o.lines[j].qty == t.items[j].qty && o.lines[j].amount == t.items[j].qty * t.items[j].price
  }

  // Only carrier and delivery dates have changed.
  ghost predicate SameOrder(o: Order, o': Order) {
    && o'.cust == o.cust && |o'.lines| == |o.lines|
    && forall j :: 0 <= j < |o.lines| ==> o'.lines[j] == o.lines[j].(delivered := o'.lines[j].delivered)
  }

  ghost predicate SameOrders(d: District, d': District) {
    d'.next == d.next && d'.orders.Keys == d.orders.Keys && forall o :: o in d.orders ==>
      SameOrder(d.orders[o], d'.orders[o])
  }

  lemma DeliverKeepsOrders(s: World, k: (nat, nat), hint: nat, carrier: nat, ts: nat, q: (nat, nat))
    requires q in s.districts
    ensures var s' := DeliverDistrict(s, k, hint, carrier, ts);
            q in s'.districts && SameOrders(s.districts[q], s'.districts[q])
  {
  }

  lemma OrdersTrans(a: District, b: District, c: District)
    requires SameOrders(a, b) && SameOrders(b, c)
    ensures SameOrders(a, c)
  {
    forall o | o in a.orders ensures SameOrder(a.orders[o], c.orders[o]) {
      assert SameOrder(a.orders[o], b.orders[o]) && SameOrder(b.orders[o], c.orders[o]);
    }
  }

  lemma {:induction false} DeliveriesKeepOrders(s: World, w: nat, hints: seq<nat>, carrier: nat, ts: nat, n: nat,
      q: (nat, nat))
    requires n <= |hints| && q in s.districts
    ensures var s' := Deliveries(s, w, hints, carrier, ts, n);
            q in s'.districts && SameOrders(s.districts[q], s'.districts[q])
  {
    if n > 0 {
      DeliveriesKeepOrders(s, w, hints, carrier, ts, n - 1, q);
      var m := Deliveries(s, w, hints, carrier, ts, n - 1);
      DeliverKeepsOrders(m, (w, n), hints[n - 1], carrier, ts, q);
      hide DeliverDistrict, SameOrders;
      OrdersTrans(s.districts[q], m.districts[q], Deliveries(s, w, hints, carrier, ts, n).districts[q]);
    }
  }

  // What one transaction does to the orders of a district.
  lemma ApplyOrders(s: World, t: Txn, k: (nat, nat))
    requires Allowed(t) && k in s.districts
    ensures var s' := Apply(s, t);
            && k in s'.districts
            && if Places(s, t, k) then
                 var d, d' := s.districts[k], s'.districts[k];
                 && d'.next == d.next + 1 && d.next in d'.orders && AskedFor(d'.orders[d.next], t)
                 && (forall o :: o in d.orders && o != d.next ==> o in d'.orders && d'.orders[o] == d.orders[o])
               else SameOrders(s.districts[k], s'.districts[k])
  {
    if t.DeliveryTxn? { DeliveriesKeepOrders(s, t.w, t.hints, t.carrier, t.ts, DISTRICTS, k); }
    hide Deliveries, DeliveryFails, StockAfter;
  }

  lemma PlacesStays(s: World, s': World, t: Txn, k: (nat, nat))
    requires SameRows(s, s')
    ensures Places(s', t, k) <==> Places(s, t, k)
  {
  }

  ghost predicate HasOrder(d: District, n: nat, t: Txn) { n in d.orders && AskedFor(d.orders[n], t) }

  // The orders of district `d` above the loaded ones are those of `ps`.
  ghost predicate Holds(d: District, ps: seq<Txn>) {
    d.next == 3001 + |ps| && forall i :: 0 <= i < |ps| ==> HasOrder(d, 3001 + i, ps[i])
  }

  lemma HoldsStill(d: District, d': District, ps: seq<Txn>)
    requires Holds(d, ps) && SameOrders(d, d')
    ensures Holds(d', ps)
  {
    forall i | 0 <= i < |ps| ensures HasOrder(d', 3001 + i, ps[i]) {
      assert HasOrder(d, 3001 + i, ps[i]);
      assert SameOrder(d.orders[3001 + i], d'.orders[3001 + i]);
    }
  }

  lemma HoldsMore(d: District, d': District, ps: seq<Txn>, t: Txn)
    requires Holds(d, ps) && d'.next == d.next + 1 && HasOrder(d', d.next, t)
    requires forall o :: o in d.orders && o != d.next ==> o in d'.orders && d'.orders[o] == d.orders[o]
    ensures Holds(d', ps + [t])
  {
    hide AskedFor;
    var qs := ps + [t];
    forall i | 0 <= i < |qs| ensures HasOrder(d', 3001 + i, qs[i]) {
      if i < |ps| { assert HasOrder(d, 3001 + i, ps[i]); }
    }
  }

  lemma OrderStep(s0: World, s: World, t: Txn, k: (nat, nat), ps: seq<Txn>)
    requires Allowed(t) && k in s.districts && SameRows(s0, s) && Holds(s.districts[k], ps)
    ensures var s' := Apply(s, t);
            k in s'.districts && Holds(s'.districts[k], ps + if Places(s0, t, k) then [t] else [])
  {
    PlacesStays(s0, s, t, k);
    hide Apply, Holds, AskedFor, Places, SameOrders;
    ApplyOrders(s, t, k);
    if Places(s, t, k) {
      HoldsMore(s.districts[k], Apply(s, t).districts[k], ps, t);
    } else {
      HoldsStill(s.districts[k], Apply(s, t).districts[k], ps);
      assert ps + [] == ps;
    }
  }

  /**
   After any run a district has one order for every new order of the run, numbered in order from
   3001, with the customer, items, suppliers and quantities asked for, and every line costs its
   quantity times the price of its item.
   */
  lemma {:induction false} OrderLedger(r: seq<World>, ts: seq<Txn>, k: (nat, nat))
    requires Run(r, ts) && k in r[0].districts
    ensures k in r[|ts|].districts && Holds(r[|ts|].districts[k], Placed(r[0], ts, k))
  {
    if ts == [] {
      assert LoadedDistrict(r[0].districts[k]);
    } else {
      var n := |ts| - 1;
      hide Apply, Loaded, Holds, Places;
      OrderLedger(r[..n + 1], ts[..n], k);
      RunRows(r[..n + 1], ts[..n]);
      OrderStep(r[0], r[n], ts[n], k, Placed(r[0], ts[..n], k));
    }
  }

  // ----- deliveries -----

  // What a delivery makes of district `d` whose first new-order row from the hint is `o`.
  ghost predicate Shipped(d: District, d': District, o: nat, carrier: nat, ts: nat) {
    && o in d.orders && o in d'.orders && d'.pending == d.pending - {o}
    && d'.orders[o].carrier == carrier && SameOrder(d.orders[o], d'.orders[o])
    && (forall j :: 0 <= j < |d'.orders[o].lines| ==> d'.orders[o].lines[j].delivered == ts)
    && (forall p :: p in d.orders && p != o ==> p in d'.orders && d'.orders[p] == d.orders[p])
    && (forall c :: c in d.customers ==>
          && c in d'.customers
          && d'.customers[c].balance
             == d.customers[c].balance + if d.orders[o].cust == c then Amount(d.orders[o].lines) else 0)
  }

  // The scan finds no new-order row.
  ghost predicate NoneFrom(d: District, hint: nat) { forall o :: !FirstPending(d, hint, o) }

  lemma ShipDistrict(s: World, k: (nat, nat), hint: nat, carrier: nat, ts: nat)
    requires Consistent(s) && k in s.districts
    ensures var s' := DeliverDistrict(s, k, hint, carrier, ts);
            && k in s'.districts
            && (forall o :: FirstPending(s.districts[k], hint, o) ==>
                  Shipped(s.districts[k], s'.districts[k], o, carrier, ts))
            && (NoneFrom(s.districts[k], hint) ==> s'.districts[k] == s.districts[k])
  {
    var d := s.districts[k];
    forall o | FirstPending(d, hint, o)
      ensures Shipped(d, DeliverDistrict(s, k, hint, carrier, ts).districts[k], o, carrier, ts)
    {
      assert OrderOk(d, o);
      assert Scanned(d.orders[o].lines) == d.orders[o].lines;
    }
  }

  lemma {:induction false} ShipAll(s: World, w: nat, hints: seq<nat>, carrier: nat, ts: nat, n: nat, e: nat)
    requires Consistent(s) && carrier != 0 && n <= |hints| && 1 <= e <= n && (w, e) in s.districts
    ensures var s' := Deliveries(s, w, hints, carrier, ts, n); var d := s.districts[(w, e)];
            && (w, e) in s'.districts
            && (forall o :: FirstPending(d, hints[e - 1], o) ==> Shipped(d, s'.districts[(w, e)], o, carrier, ts))
            && (NoneFrom(d, hints[e - 1]) ==> s'.districts[(w, e)] == d)
  {
    var m := Deliveries(s, w, hints, carrier, ts, n - 1);
    if e < n {
      ShipAll(s, w, hints, carrier, ts, n - 1, e);
      assert (w, e) != (w, n);
      hide Shipped, FirstPending, NoneFrom;
    } else {
      DeliveriesKeep(s, w, hints, carrier, ts, n - 1);
      DeliveriesApart(s, w, hints, carrier, ts, n - 1, (w, e));
      ShipDistrict(m, (w, e), hints[e - 1], carrier, ts);
    }
  }

  // On consistent tables a delivery goes over all districts.
  lemma DeliveryIsAll(s: World, t: Txn)
    requires Consistent(s) && Allowed(t) && t.DeliveryTxn?
    ensures Apply(s, t) == Deliveries(s, t.w, t.hints, t.carrier, t.ts, DISTRICTS)
  {
    hide Consistent, Deliveries, DeliveryFails;
    DeliveryKeeps(s, t.w, t.hints, t.carrier, t.ts);
  }

  /**
   Every delivery of every run ships, in each district of its warehouse, the oldest undelivered
   order from where the scan starts, with its carrier and date on the order and all its lines and
   its amount on the account of its customer, and no other; it leaves other districts alone.
   */
  lemma DeliveryShips(r: seq<World>, ts: seq<Txn>, i: nat, k: (nat, nat))
    requires Run(r, ts) && i < |ts| && ts[i].DeliveryTxn? && k in r[i].districts
    ensures k in r[i + 1].districts
    ensures var t := ts[i]; var d, d' := r[i].districts[k], r[i + 1].districts[k];
            if k.0 == t.w && 1 <= k.1 <= DISTRICTS then
              && (forall o :: FirstPending(d, t.hints[k.1 - 1], o) ==> Shipped(d, d', o, t.carrier, t.ts))
              && (NoneFrom(d, t.hints[k.1 - 1]) ==> d' == d)
            else d' == d
  {
    var t := ts[i];
    hide Apply, Loaded, Shipped, FirstPending, NoneFrom, Deliveries, Consistent;
    AlwaysConsistent(r[..i + 1], ts[..i]);
    DeliveryIsAll(r[i], t);
    hide Run;
    if k.0 == t.w && 1 <= k.1 <= DISTRICTS {
      assert k == (t.w, k.1);
      ShipAll(r[i], t.w, t.hints, t.carrier, t.ts, DISTRICTS, k.1);
    } else {
      DeliveriesApart(r[i], t.w, t.hints, t.carrier, t.ts, DISTRICTS, k);
    }
  }

  // ----- stock -----

  // The quantity of stock row `k` that the items take.
  function OrderedIn(items: seq<Item>, k: (nat, nat)): nat {
    if items == [] then 0
    else
      var i := items[|items| - 1];
      OrderedIn(items[..|items| - 1], k) + if (i.supply, i.item) == k then i.qty else 0
  }

  function Ordered(s: World, ts: seq<Txn>, k: (nat, nat)): nat {
    if ts == [] then 0
    else
      var t := ts[|ts| - 1];
      Ordered(s, ts[..|ts| - 1], k)
      + if t.NewOrderTxn? && Places(s, t, (t.w, t.d)) then OrderedIn(t.items, k) else 0
  }

  // The level `x` after `n` have been taken from `x0` and units of 91 have come in.
  ghost predicate Restocked(x0: int, n: nat, x: int) { (x0 - n - x) % 91 == 0 }

  lemma RestockedMore(x0: int, n: nat, x: int, q: nat)
    requires Restocked(x0, n, x)
    ensures Restocked(x0, n + q, x - q) && Restocked(x0, n + q, x - q + 91)
  {
  }

  lemma {:induction false} ItemsRestock(stock: map<(nat, nat), int>, items: seq<Item>, k: (nat, nat), x0: int, n: nat)
    requires k in stock && Restocked(x0, n, stock[k])
    ensures k in StockAfter(stock, items) && Restocked(x0, n + OrderedIn(items, k), StockAfter(stock, items)[k])
  {
    if items != [] {
      var m := |items| - 1;
      var i := items[m];
      ItemsRestock(stock, items[..m], k, x0, n);
      hide Restocked;
      RestockedMore(x0, n + OrderedIn(items[..m], k), StockAfter(stock, items[..m])[k], i.qty);
    }
  }

  lemma {:induction false} DeliveriesStock(s: World, w: nat, hints: seq<nat>, carrier: nat, ts: nat, n: nat)
    requires n <= |hints|
    ensures Deliveries(s, w, hints, carrier, ts, n).stock == s.stock
  {
    if n > 0 { DeliveriesStock(s, w, hints, carrier, ts, n - 1); }
  }

  lemma ApplyStock(s: World, t: Txn, k: (nat, nat), x0: int, n: nat)
    requires Allowed(t) && k in s.stock && Restocked(x0, n, s.stock[k])
    ensures var s' := Apply(s, t);
            && k in s'.stock
            && Restocked(x0, n + (if t.NewOrderTxn? && Places(s, t, (t.w, t.d)) then OrderedIn(t.items, k) else 0),
                         s'.stock[k])
  {
    match t
    case NewOrderTxn(w, d, c, items) => ItemsRestock(s.stock, items, k, x0, n);
    case PaymentTxn(w, d, cw, cd, c, x) =>
    case DeliveryTxn(w, hints, carrier, ts) => DeliveriesStock(s, w, hints, carrier, ts, DISTRICTS);
  }

  /**
   After any run every stock level is the one number within 10..100 that differs from the loaded
   level less everything ordered by whole units of 91.
   */
  lemma {:induction false} StockLedger(r: seq<World>, ts: seq<Txn>, k: (nat, nat))
    requires Run(r, ts) && k in r[0].stock
    ensures k in r[|ts|].stock && 10 <= r[|ts|].stock[k] <= 100
    ensures Restocked(r[0].stock[k], Ordered(r[0], ts, k), r[|ts|].stock[k])
  {
    hide Apply, Loaded, Consistent, Places;
    AlwaysConsistent(r, ts);
    if ts != [] {
      var n := |ts| - 1;
      hide Restocked;
      StockLedger(r[..n + 1], ts[..n], k);
      RunRows(r[..n + 1], ts[..n]);
      StockStep(r[0], r[n], ts[n], k, r[0].stock[k], Ordered(r[0], ts[..n], k));
    }
    LevelInRange(r[|ts|], k);
  }

  lemma StockStep(s0: World, s: World, t: Txn, k: (nat, nat), x0: int, n: nat)
    requires Allowed(t) && SameRows(s0, s) && k in s.stock && Restocked(x0, n, s.stock[k])
    ensures var s' := Apply(s, t);
            && k in s'.stock
            && Restocked(x0, n + (if t.NewOrderTxn? && Places(s0, t, (t.w, t.d)) then OrderedIn(t.items, k) else 0),
                         s'.stock[k])
  {
    if t.NewOrderTxn? { PlacesStays(s0, s, t, (t.w, t.d)); }
    hide Apply, Places, Restocked, SameRows;
    ApplyStock(s, t, k, x0, n);
  }

  lemma LevelInRange(s: World, k: (nat, nat))
    requires Consistent(s) && k in s.stock
    ensures 10 <= s.stock[k] <= 100
  {
    assert StockOk(s.stock[k]);
  }
}
