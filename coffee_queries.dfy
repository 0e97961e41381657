/** The queries of `Coffee`: each re-scans the ledger for the records of one coffee. */
module CoffeeQueries {
  import opened Entities
  import opened OrderLedger
  import opened Collections

  /** The string `average_price` returns when the coffee has no orders. */
  const NoOrdersMessage := "No orders have been made yet"

  /** What `average_price` returns: a number, or the "no orders" message. */
  datatype AveragePrice = Number(value: real) | Message(text: string)

  /** `coffee.orders()`: the ledger's records for `coffee`, in ledger order. */
  function Orders(ledger: seq<OrderRec>, coffee: Coffee): (r: seq<OrderRec>)
    ensures |r| <= |ledger|
    ensures forall i :: 0 <= i < |r| ==> r[i] in ledger && r[i].coffee == coffee
  {
    if ledger == [] then []
    else
      var init, last := ledger[..|ledger| - 1], ledger[|ledger| - 1];
      Orders(init, coffee) + (if last.coffee == coffee then [last] else [])
  }

  /** A record is among `coffee.orders()` exactly when it is in the ledger and is for `coffee`. */
  lemma {:induction false} OrdersMembership(ledger: seq<OrderRec>, coffee: Coffee, o: OrderRec)
    ensures o in Orders(ledger, coffee) <==> o in ledger && o.coffee == coffee
  {
    if ledger != [] {
      var init := ledger[..|ledger| - 1];
      assert ledger == init + [ledger[|ledger| - 1]];
      OrdersMembership(init, coffee, o);
    }
  }

  /** Scanning a concatenation is scanning each part: the scan keeps ledger order. */
  lemma {:induction false} OrdersAppend(a: seq<OrderRec>, b: seq<OrderRec>, coffee: Coffee)
    ensures Orders(a + b, coffee) == Orders(a, coffee) + Orders(b, coffee)
  {
    if b == [] {
      assert a + b == a;
    } else {
      var init := b[..|b| - 1];
      assert (a + b)[..|a + b| - 1] == a + init;
      OrdersAppend(a, init, coffee);
    }
  }

  /** Every price in the ledger is valid, so every price in the scan is. */
  lemma OrdersPricesValid(ledger: seq<OrderRec>, coffee: Coffee)
    requires AllPricesValid(ledger)
    ensures AllPricesValid(Orders(ledger, coffee))
  {
    var os := Orders(ledger, coffee);
    forall i | 0 <= i < |os| ensures IsPrice(os[i].price) {
      var j :| 0 <= j < |ledger| && ledger[j] == os[i];
    }
  }

  /** `coffee.customers()`: each customer who ordered `coffee`, once. (The source builds a
      Python set, whose iteration order is not specified; this model lists customers in
      the order of their first order.) */
  function Customers(ledger: seq<OrderRec>, coffee: Coffee): (r: seq<Customer>)
    ensures NoDup(r)
    ensures forall i :: 0 <= i < |r| ==> HasOrderBy(Orders(ledger, coffee), r[i])
    ensures forall i :: 0 <= i < |Orders(ledger, coffee)| ==> Orders(ledger, coffee)[i].customer in r
  {
    var os := Orders(ledger, coffee);
    var r := Distinct(CustomersOf(os));
    assert forall i :: 0 <= i < |r| ==> HasOrderBy(os, r[i]) by {
      forall i | 0 <= i < |r| ensures HasOrderBy(os, r[i]) {
        var j :| 0 <= j < |os| && CustomersOf(os)[j] == r[i];
      }
    }
    assert forall i :: 0 <= i < |os| ==> os[i].customer in r by {
      forall i | 0 <= i < |os| ensures os[i].customer in r {
        assert CustomersOf(os)[i] == os[i].customer;
      }
    }
    r
  }

  /** A customer is listed by `coffee.customers()` exactly when they have ordered `coffee`. */
  lemma CustomersMembership(ledger: seq<OrderRec>, coffee: Coffee, c: Customer)
    ensures c in Customers(ledger, coffee) <==> HasOrderBy(Orders(ledger, coffee), c)
  {
    var r, os := Customers(ledger, coffee), Orders(ledger, coffee);
    if c in r {
      var i :| 0 <= i < |r| && r[i] == c;
    }
    if HasOrderBy(os, c) {
      var j :| 0 <= j < |os| && os[j].customer == c;
    }
  }

  /** `coffee.num_orders()`: the length of `coffee.orders()`, at most the ledger's. */
  function NumOrders(ledger: seq<OrderRec>, coffee: Coffee): (r: nat)
    ensures r <= |ledger|
  {
    |Orders(ledger, coffee)|
  }

  /** `num_orders()` is 0 exactly when the coffee has never been ordered. */
  lemma NumOrdersZero(ledger: seq<OrderRec>, coffee: Coffee)
    ensures NumOrders(ledger, coffee) == 0 <==> !HasOrderFor(ledger, coffee)
  {
    var os := Orders(ledger, coffee);
    if HasOrderFor(ledger, coffee) {
      var j :| 0 <= j < |ledger| && ledger[j].coffee == coffee;
      OrdersMembership(ledger, coffee, ledger[j]);
    }
    if os != [] {
      var j :| 0 <= j < |ledger| && ledger[j] == os[0];
    }
  }

  /** `num_orders` counts the ledger records for `coffee`: the number of times `coffee`
      occurs in the ledger's coffee column. */
  lemma {:induction false} NumOrdersIsCount(ledger: seq<OrderRec>, coffee: Coffee)
    ensures NumOrders(ledger, coffee) == multiset(CoffeesOf(ledger))[coffee]
  {
    if ledger != [] {
      var init, last := ledger[..|ledger| - 1], ledger[|ledger| - 1];
      NumOrdersIsCount(init, coffee);
      assert CoffeesOf(ledger) == CoffeesOf(init) + [last.coffee];
    }
  }

  /** `coffee.average_price()`: the mean price of the coffee's orders, or the
      "no orders" message when there are none. */
  function AveragePriceOf(ledger: seq<OrderRec>, coffee: Coffee): (r: AveragePrice)
    ensures r.Message? <==> NumOrders(ledger, coffee) == 0
    ensures r.Message? ==> r.text == NoOrdersMessage
    ensures r.Number? ==> r.value * NumOrders(ledger, coffee) as real == TotalPrice(Orders(ledger, coffee))
  {
    var os := Orders(ledger, coffee);
    if os != [] then Number(TotalPrice(os) / NumOrders(ledger, coffee) as real)
    else Message(NoOrdersMessage)
  }

  /** Since every price lies in [1.0, 10.0], so does every average. */
  lemma AveragePriceInRange(ledger: seq<OrderRec>, coffee: Coffee)
    requires AllPricesValid(ledger)
    ensures AveragePriceOf(ledger, coffee).Number? ==> IsPrice(AveragePriceOf(ledger, coffee).value)
  {
    var os := Orders(ledger, coffee);
    if os != [] {
      OrdersPricesValid(ledger, coffee);
      TotalPriceBounds(os);
      var n := |os| as real;
      var avg := AveragePriceOf(ledger, coffee).value;
      MeanBounds(avg, n, TotalPrice(os));
    }
  }

  /** A mean `a` of `n` values summing to `s` inherits the per-value bounds: from
      n <= s <= 10 n follows 1 <= a <= 10. */
  lemma MeanBounds(a: real, n: real, s: real)
    requires n > 0.0 && a * n == s
    requires MinPrice * n <= s <= MaxPrice * n
    ensures MinPrice <= a <= MaxPrice
  {
  }

  /** Appending an order for another coffee leaves this coffee's orders and their count unchanged. */
  lemma OtherCoffeeUnchanged(ledger: seq<OrderRec>, o: OrderRec, coffee: Coffee)
    requires o.coffee != coffee
    ensures Orders(ledger + [o], coffee) == Orders(ledger, coffee)
    ensures NumOrders(ledger + [o], coffee) == NumOrders(ledger, coffee)
  {
    assert (ledger + [o])[..|ledger|] == ledger;
  }

  /** Appending an order for another coffee leaves this coffee's average unchanged. */
  lemma OtherCoffeeAverageUnchanged(ledger: seq<OrderRec>, o: OrderRec, coffee: Coffee)
    requires o.coffee != coffee
    ensures AveragePriceOf(ledger + [o], coffee) == AveragePriceOf(ledger, coffee)
  {
    OtherCoffeeUnchanged(ledger, o, coffee);
  }

  /** Appending an order for this coffee adds exactly that record, at the end. */
  lemma SameCoffeeAppended(ledger: seq<OrderRec>, o: OrderRec, coffee: Coffee)
    requires o.coffee == coffee
    ensures Orders(ledger + [o], coffee) == Orders(ledger, coffee) + [o]
    ensures NumOrders(ledger + [o], coffee) == NumOrders(ledger, coffee) + 1
  {
    assert (ledger + [o])[..|ledger|] == ledger;
  }
}
