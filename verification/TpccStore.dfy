/** The three transactions as they run: loops over order lines and districts, rows written back. */
module TpccStore {
  import opened Tpcc

  // The first new-order row at or after `hint`, as an ascending scan finds it.
  method FindFirst(d: District, hint: nat) returns (found: bool, o: nat)
    ensures found ==> FirstPending(d, hint, o)
    ensures !found ==> forall p :: !FirstPending(d, hint, p)
  {
    found, o := false, 0;
    var rest := d.pending;
    while rest != {}
      invariant rest <= d.pending
      invariant found ==> o in d.pending && hint <= o && forall p :: p in d.pending && p !in rest && hint <= p ==>
                  o <= p
      invariant !found ==> forall p :: p in d.pending && p !in rest ==> p < hint
      decreases rest
    {
      var p :| p in rest;
      rest := rest - {p};
      if hint <= p && (!found || p < o) {
        found, o := true, p;
      }
    }
  }

  class Store {
    var ytd: map<nat, int>
    var districts: map<(nat, nat), District>
    var stock: map<(nat, nat), int>

    function Abs(): World
      reads this
    {
      World(ytd, districts, stock)
    }

    // Insert the order with its lines and reorder stock; a missing row aborts.
    method NewOrderTx(w: nat, d: nat, c: nat, items: seq<Item>) returns (ok: bool)
      modifies this
      ensures ok <==> OrderReads(old(Abs()), w, d, c, items)
      ensures Abs() == NewOrder(old(Abs()), w, d, c, items)
    {
      if (w, d) !in districts || c !in districts[(w, d)].customers {
        return false;
      }
      var row := districts[(w, d)];
      var lines, level := [], stock;
      for i := 0 to |items|
        invariant level == StockAfter(stock, items[..i]) && level.Keys == stock.Keys
        invariant lines == LinesOf(items[..i])
        invariant forall j :: 0 <= j < i ==> (items[j].supply, items[j].item) in stock
      {
        var it := items[i];
        assert items[..i + 1][..i] == items[..i];
        if (it.supply, it.item) !in level {
          assert it in items;
          return false;
        }
        level := level[(it.supply, it.item) := NewStock(level[(it.supply, it.item)], it.qty)];
        lines := lines + [LineOf(it)];
      }
      assert items[..|items|] == items;
      assert row.orders[row.next := Order(c, 0, lines)] == PlaceOrder(row, c, items).orders;
      districts := districts[(w, d) := row.(next := row.next + 1, pending := row.pending + {row.next},
                                            orders := row.orders[row.next := Order(c, 0, lines)])];
      stock := level;
      ok := true;
    }

    // Warehouse, district and customer rows are read, changed and written back one after another.
    method PaymentTx(w: nat, d: nat, cw: nat, cd: nat, c: nat, x: nat) returns (ok: bool)
      modifies this
      ensures ok <==> PaymentReads(old(Abs()), w, d, cw, cd, c)
      ensures Abs() == Payment(old(Abs()), w, d, cw, cd, c, x)
    {
      if w !in ytd || (w, d) !in districts || (cw, cd) !in districts || c !in districts[(cw, cd)].customers {
        return false;
      }
      ytd := ytd[w := ytd[w] + x];
      var home := districts[(w, d)];
      districts := districts[(w, d) := home.(ytd := home.ytd + x)];
      var away := districts[(cw, cd)];
      var r := away.customers[c];
      districts := districts[(cw, cd) := away.(customers := away.customers[c := Customer(r.balance - x, r.paid + x,
          r.payments + 1)])];
      ok := true;
    }

    // Go over the scanned lines: add up the amounts and set the delivery dates.
    static method StampLines(lines: seq<Line>, ts: nat) returns (sum: int, stamped: seq<Line>)
      ensures sum == Amount(Scanned(lines)) && stamped == Stamp(lines, ts)
    {
      sum, stamped := 0, [];
      var n := if |lines| <= MAX_LINES then |lines| else MAX_LINES;
      for i := 0 to n
        invariant sum == Amount(lines[..i]) && stamped == Stamp(lines, ts)[..i]
      {
        assert lines[..i + 1][..i] == lines[..i];
        sum := sum + lines[i].amount;
        stamped := stamped + [lines[i].(delivered := ts)];
      }
      assert lines[..n] == Scanned(lines);
      stamped := stamped + lines[n..];
    }

    // Deliver the first pending order of one district, if any; the next scan starts after it, also
    // if its order or customer is missing.
    method DeliverOne(w: nat, d: nat, hint: nat, carrier: nat, ts: nat) returns (ok: bool, next: nat)
      modifies this`districts
      ensures ok <==> !DeliveryFails(old(Abs()), (w, d), hint)
      ensures Abs() == if ok then DeliverDistrict(old(Abs()), (w, d), hint, carrier, ts) else old(Abs())
      ensures NextScan(old(Abs()), (w, d), hint, next)
    {
      ok, next := true, hint;
      if (w, d) in districts {
        var row := districts[(w, d)];
        var found, o := FindFirst(row, hint);
        if found {
          OnlyFirst(row, hint, o);
          next := o + 1;
          if o !in row.orders || row.orders[o].cust !in row.customers {
            return false, next;
          }
          var order := row.orders[o];
          var sum, stamped := StampLines(order.lines, ts);
          var cust := row.customers[order.cust];
          cust := cust.(balance := cust.balance + sum);
          districts := districts[(w, d) := row.(pending := row.pending - {o},
                                                orders := row.orders[o := Order(order.cust, carrier, stamped)],
                                                customers := row.customers[order.cust := cust])];
        }
      }
    }

    // Deliver in every district of `w`, in order; `hints` is where the scans start.  A district that
    // fails undoes the tables but not the scan starts of the `n` districts visited.
    method DeliveryTx(w: nat, hints: array<nat>, carrier: nat, ts: nat) returns (ok: bool, n: nat)
      requires hints.Length == DISTRICTS
      modifies this`districts, hints
      ensures n <= DISTRICTS && (ok ==> n == DISTRICTS)
      ensures forall d :: 0 <= d < (if ok then n else n - 1) ==> !DeliveryFails(old(Abs()), (w, d + 1), old(hints[d]))
      ensures !ok ==> 0 < n && DeliveryFails(old(Abs()), (w, n), old(hints[n - 1]))
      ensures Abs() == Delivery(old(Abs()), w, old(hints[..]), carrier, ts)
      ensures forall d :: 0 <= d < DISTRICTS ==>
                if d < n then NextScan(old(Abs()), (w, d + 1), old(hints[d]), hints[d]) else hints[d] == old(hints[d])
    {
      hide DeliverDistrict, DeliveryFails, NextScan;
      var saved := districts;
      ghost var s, hs := Abs(), hints[..];
      ok, n := true, 0;
      while n < DISTRICTS
        invariant n <= DISTRICTS && Abs() == Deliveries(s, w, hs, carrier, ts, n)
        invariant forall e :: n <= e < DISTRICTS ==> hints[e] == hs[e]
        invariant forall e :: 0 <= e < n ==>
                   !DeliveryFails(s, (w, e + 1), hs[e]) && NextScan(s, (w, e + 1), hs[e], hints[e])
      {
        DeliveriesApart(s, w, hs, carrier, ts, n, (w, n + 1));
        SameDistrict(s, Abs(), (w, n + 1), hs[n]);
        ok, hints[n] := DeliverOne(w, n + 1, hints[n], carrier, ts);
        n := n + 1;
        if !ok {
          districts := saved;
          return;
        }
      }
    }
  }

  // Where the next scan of a district starts.
  ghost predicate NextScan(s: World, k: (nat, nat), hint: nat, next: nat) {
    if k in s.districts && exists o: nat :: FirstPending(s.districts[k], hint, o) then
      exists o: nat :: FirstPending(s.districts[k], hint, o) && next == o + 1
    else next == hint
  }

  // What a district's delivery depends on.
  lemma SameDistrict(s: World, s': World, k: (nat, nat), hint: nat)
    requires (k in s'.districts <==> k in s.districts) && (k in s.districts ==> s'.districts[k] == s.districts[k])
    ensures DeliveryFails(s', k, hint) <==> DeliveryFails(s, k, hint)
    ensures forall next :: NextScan(s', k, hint, next) <==> NextScan(s, k, hint, next)
  {
  }

  // The scan's first row is unique.
  lemma OnlyFirst(d: District, hint: nat, o: nat)
    requires FirstPending(d, hint, o)
    ensures forall p :: FirstPending(d, hint, p) ==> p == o
  {
  }
}
