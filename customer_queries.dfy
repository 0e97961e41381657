/** The queries of `Customer`: its orders and coffees, placing an order, and the
    class-level search for a coffee's top spender. */
module CustomerQueries {
  import opened Results
  import opened Entities
  import opened OrderLedger
  import opened Collections
  import CoffeeQueries

  /** `customer.orders()`: the ledger's records placed by `customer`, in ledger order. */
  function Orders(ledger: seq<OrderRec>, customer: Customer): (r: seq<OrderRec>)
    ensures |r| <= |ledger|
    ensures forall i :: 0 <= i < |r| ==> r[i] in ledger && r[i].customer == customer
  {
    if ledger == [] then []
    else
      var init, last := ledger[..|ledger| - 1], ledger[|ledger| - 1];
      Orders(init, customer) + (if last.customer == customer then [last] else [])
  }

  /** A record is among `customer.orders()` exactly when it is in the ledger and was placed by `customer`. */
  lemma {:induction false} OrdersMembership(ledger: seq<OrderRec>, customer: Customer, o: OrderRec)
    ensures o in Orders(ledger, customer) <==> o in ledger && o.customer == customer
  {
    if ledger != [] {
      var init := ledger[..|ledger| - 1];
      assert ledger == init + [ledger[|ledger| - 1]];
      OrdersMembership(init, customer, o);
    }
  }

  /** Scanning a concatenation is scanning each part: the scan keeps ledger order. */
  lemma {:induction false} OrdersAppend(a: seq<OrderRec>, b: seq<OrderRec>, customer: Customer)
    ensures Orders(a + b, customer) == Orders(a, customer) + Orders(b, customer)
  {
    if b == [] {
      assert a + b == a;
    } else {
      var init := b[..|b| - 1];
      assert (a + b)[..|a + b| - 1] == a + init;
      OrdersAppend(a, init, customer);
    }
  }

  /** Appending an order by another customer leaves this customer's orders unchanged. */
  lemma OtherCustomerUnchanged(ledger: seq<OrderRec>, o: OrderRec, customer: Customer)
    requires o.customer != customer
    ensures Orders(ledger + [o], customer) == Orders(ledger, customer)
  {
    assert (ledger + [o])[..|ledger|] == ledger;
  }

  /** Appending an order by this customer adds exactly that record, at the end. */
  lemma SameCustomerAppended(ledger: seq<OrderRec>, o: OrderRec, customer: Customer)
    requires o.customer == customer
    ensures Orders(ledger + [o], customer) == Orders(ledger, customer) + [o]
  {
    assert (ledger + [o])[..|ledger|] == ledger;
  }

  /** Selecting by customer and by coffee commute: a customer's orders of a coffee are
      the same records whichever of the two scans runs first. */
  lemma {:induction false} ScansCommute(ledger: seq<OrderRec>, customer: Customer, coffee: Coffee)
    ensures CoffeeQueries.Orders(Orders(ledger, customer), coffee)
         == Orders(CoffeeQueries.Orders(ledger, coffee), customer)
  {
    if ledger != [] {
      var init, last := ledger[..|ledger| - 1], ledger[|ledger| - 1];
      ScansCommute(init, customer, coffee);
      var mine := if last.customer == customer then [last] else [];
      var its := if last.coffee == coffee then [last] else [];
      CoffeeQueries.OrdersAppend(Orders(init, customer), mine, coffee);
      OrdersAppend(CoffeeQueries.Orders(init, coffee), its, customer);
      // `Orders` and `TotalPrice` recur on `s[..|s| - 1]`; naming the empty prefix lets them unfold on a one-element sequence.
      assert mine == [] || mine[..0] == [];
      assert its == [] || its[..0] == [];
    }
  }

  /** `customer.coffees()`: each coffee `customer` has ordered, once. (The source builds a
      Python set, whose iteration order is not specified; this model lists coffees in
      the order of their first order.) */
  function Coffees(ledger: seq<OrderRec>, customer: Customer): (r: seq<Coffee>)
    ensures NoDup(r)
    ensures forall i :: 0 <= i < |r| ==> HasOrderFor(Orders(ledger, customer), r[i])
    ensures forall i :: 0 <= i < |Orders(ledger, customer)| ==> Orders(ledger, customer)[i].coffee in r
  {
    var os := Orders(ledger, customer);
    var r := Distinct(CoffeesOf(os));
    assert forall i :: 0 <= i < |r| ==> HasOrderFor(os, r[i]) by {
      forall i | 0 <= i < |r| ensures HasOrderFor(os, r[i]) {
        var j :| 0 <= j < |os| && CoffeesOf(os)[j] == r[i];
      }
    }
    assert forall i :: 0 <= i < |os| ==> os[i].coffee in r by {
      forall i | 0 <= i < |os| ensures os[i].coffee in r {
        assert CoffeesOf(os)[i] == os[i].coffee;
      }
    }
    r
  }

  /** A coffee is listed by `customer.coffees()` exactly when `customer` has ordered it. */
  lemma CoffeesMembership(ledger: seq<OrderRec>, customer: Customer, k: Coffee)
    ensures k in Coffees(ledger, customer) <==> HasOrderFor(Orders(ledger, customer), k)
  {
    var r, os := Coffees(ledger, customer), Orders(ledger, customer);
    if k in r {
      var i :| 0 <= i < |r| && r[i] == k;
    }
    if HasOrderFor(os, k) {
      var j :| 0 <= j < |os| && os[j].coffee == k;
    }
  }

  /** A customer who has ordered `coffee` (once or many times) finds it in
      `coffees()` exactly once. */
  lemma CoffeeListedOnce(ledger: seq<OrderRec>, customer: Customer, coffee: Coffee)
    requires HasOrderFor(Orders(ledger, customer), coffee)
    ensures multiset(Coffees(ledger, customer))[coffee] == 1
  {
    CoffeesMembership(ledger, customer, coffee);
    NoDupOccursOnce(Coffees(ledger, customer), coffee);
  }

  /** `customer.create_order(coffee, price)`: exactly `Order(customer, coffee, price)`, so
      the same errors, and on success a record placed by `customer` joins the end of the
      ledger and of `customer.orders()`. */
  method CreateOrder(ledger: Ledger, customer: Customer, coffee: Value, price: Value) returns (r: Result<OrderRec>)
    requires ledger.Valid()
    modifies ledger
    ensures ledger.Valid()
    ensures r == NewOrder(CustomerObj(customer), coffee, price)
    ensures ledger.orders == if r.Ok? then old(ledger.orders) + [r.value] else old(ledger.orders)
    ensures r.Ok? ==> r.value.customer == customer
    ensures Orders(ledger.orders, customer)
         == if r.Ok? then old(Orders(ledger.orders, customer)) + [r.value] else old(Orders(ledger.orders, customer))
  {
    r := ledger.Place(CustomerObj(customer), coffee, price);
    if r.Ok? {
      assert (old(ledger.orders) + [r.value])[..|old(ledger.orders)|] == old(ledger.orders);
    }
  }

  /** What `customer` spent over the records `os`: the sum of the prices of their orders. */
  function Spent(os: seq<OrderRec>, customer: Customer): real {
    TotalPrice(Orders(os, customer))
  }

  /** What `customer` spent on `coffee` over the whole ledger. */
  function SpentOn(ledger: seq<OrderRec>, coffee: Coffee, customer: Customer): real {
    Spent(CoffeeQueries.Orders(ledger, coffee), customer)
  }

  /** What `customer` spent on `coffee`, summed over the coffee's orders as the inner loop
      of `most_aficionado` does, is the sum over the customer's own orders of that coffee. */
  lemma SpentOnOwnOrders(ledger: seq<OrderRec>, coffee: Coffee, customer: Customer)
    ensures SpentOn(ledger, coffee, customer) == TotalPrice(CoffeeQueries.Orders(Orders(ledger, customer), coffee))
  {
    ScansCommute(ledger, customer, coffee);
  }

  /** Extending the scanned records by one adds its price to its own customer's spend only. */
  lemma SpentSnoc(os: seq<OrderRec>, o: OrderRec, customer: Customer)
    ensures Spent(os + [o], customer) == Spent(os, customer) + (if o.customer == customer then o.price else 0.0)
  {
    assert (os + [o])[..|os|] == os;
    var added := if o.customer == customer then [o] else [];
    assert Orders(os + [o], customer) == Orders(os, customer) + added;
    TotalPriceAppend(Orders(os, customer), added);
    // `Orders` and `TotalPrice` recur on `s[..|s| - 1]`; naming the empty prefix lets them unfold on a one-element sequence.
    assert added == [] || added[..0] == [];
  }

  /** A customer with at least one order among records with valid prices has spent at
      least the minimum price, so more than the initial threshold 0. */
  lemma SpentPositive(os: seq<OrderRec>, customer: Customer)
    requires AllPricesValid(os) && HasOrderBy(os, customer)
    ensures Spent(os, customer) >= MinPrice
  {
    var j :| 0 <= j < |os| && os[j].customer == customer;
    OrdersMembership(os, customer, os[j]);
    var mine := Orders(os, customer);
    assert AllPricesValid(mine) by {
      forall i | 0 <= i < |mine| ensures IsPrice(mine[i].price) {
        var k :| 0 <= k < |os| && os[k] == mine[i];
      }
    }
    TotalPriceBounds(mine);
  }

  /** With valid prices, a coffee with an order has an enumerated customer who spent more than 0. */
  lemma SomeoneSpent(ledger: seq<OrderRec>, coffee: Coffee, customers: seq<Customer>)
    requires forall c :: c in customers <==> HasOrderBy(CoffeeQueries.Orders(ledger, coffee), c)
    requires AllPricesValid(ledger) && CoffeeQueries.Orders(ledger, coffee) != []
    ensures exists j :: 0 <= j < |customers| && SpentOn(ledger, coffee, customers[j]) > 0.0
  {
    var spent := CoffeeQueries.Orders(ledger, coffee);
    var c := spent[0].customer;
    assert HasOrderBy(spent, c);
    CoffeeQueries.OrdersPricesValid(ledger, coffee);
    SpentPositive(spent, c);
    var j :| 0 <= j < |customers| && customers[j] == c;
  }

  /** A customer at position `best` whose spend nobody before it matches is, for every
      customer who spent as much, among the customers visited up to that one. */
  lemma FirstMaximumKept(ledger: seq<OrderRec>, coffee: Coffee, customers: seq<Customer>, best: nat)
    requires best < |customers|
    requires forall j :: 0 <= j < best ==>
               SpentOn(ledger, coffee, customers[j]) < SpentOn(ledger, coffee, customers[best])
    ensures forall j :: 0 <= j < |customers| ==>
              SpentOn(ledger, coffee, customers[j]) == SpentOn(ledger, coffee, customers[best]) ==>
                customers[best] in customers[..j + 1]
  {
    forall j | 0 <= j < |customers| && SpentOn(ledger, coffee, customers[j]) == SpentOn(ledger, coffee, customers[best])
      ensures customers[best] in customers[..j + 1]
    {
      assert customers[..j + 1][best] == customers[best];
    }
  }

  /** The inner loop of `most_aficionado`: the running total of `customer`'s orders among `orders`. */
  method TotalSpent(orders: seq<OrderRec>, customer: Customer) returns (totalSpent: real)
    ensures totalSpent == Spent(orders, customer)
  {
    totalSpent := 0.0;
    for k := 0 to |orders|
      invariant totalSpent == Spent(orders[..k], customer)
    {
      assert orders[..k + 1] == orders[..k] + [orders[k]];
      SpentSnoc(orders[..k], orders[k], customer);
      if customer == orders[k].customer {
        totalSpent := totalSpent + orders[k].price;
      }
    }
    assert orders[..|orders|] == orders;
  }

  /** `Customer.most_aficionado(coffee)`. `customers` is the sequence `coffee.customers()`
      iterates over: the customers who ordered `coffee`, in an order the source leaves to
      its set implementation. The result is the first customer whose spend on `coffee`
      exceeds every earlier maximum (and 0), so: it has ordered the coffee, nobody spent
      more, nobody before it in `customers` spent as much, and it is `None` exactly when
      nobody spent more than 0, which with valid prices means the coffee has no orders. */
  method MostAficionado(ledger: seq<OrderRec>, coffee: Coffee, customers: seq<Customer>)
      returns (r: Option<Customer>)
    requires forall c :: c in customers <==> HasOrderBy(CoffeeQueries.Orders(ledger, coffee), c)
    ensures r.Some? ==> r.value in customers && HasOrderBy(CoffeeQueries.Orders(ledger, coffee), r.value)
    ensures r.Some? ==> SpentOn(ledger, coffee, r.value) > 0.0
    ensures r.Some? ==> forall j :: 0 <= j < |customers| ==>
              SpentOn(ledger, coffee, customers[j]) <= SpentOn(ledger, coffee, r.value)
    ensures r.Some? ==> forall j :: 0 <= j < |customers| ==>
              SpentOn(ledger, coffee, customers[j]) == SpentOn(ledger, coffee, r.value) ==>
                r.value in customers[..j + 1]
    ensures r.None? <==> forall j :: 0 <= j < |customers| ==> SpentOn(ledger, coffee, customers[j]) <= 0.0
    ensures AllPricesValid(ledger) ==> (r.None? <==> CoffeeQueries.Orders(ledger, coffee) == [])
  {
    var currentMaxSpent := 0.0;
    r := None;
    ghost var best := 0;
    for i := 0 to |customers|
      invariant r.None? ==> currentMaxSpent == 0.0
      invariant r.None? ==> forall j :: 0 <= j < i ==> SpentOn(ledger, coffee, customers[j]) <= 0.0
      invariant r.Some? ==> best < i && customers[best] == r.value
      invariant r.Some? ==> currentMaxSpent == SpentOn(ledger, coffee, r.value) > 0.0
      invariant r.Some? ==> forall j :: 0 <= j < i ==> SpentOn(ledger, coffee, customers[j]) <= currentMaxSpent
      invariant r.Some? ==> forall j :: 0 <= j < best ==> SpentOn(ledger, coffee, customers[j]) < currentMaxSpent
    {
      var customer := customers[i];
      var totalSpent := TotalSpent(CoffeeQueries.Orders(ledger, coffee), customer);
      if totalSpent > currentMaxSpent {
        currentMaxSpent := totalSpent;
        r := Some(customer);
        best := i;
      }
    }
    ScanOutcome(ledger, coffee, customers, r, best);
  }

  /** What the scan of `most_aficionado` has established when it ends (nobody spent more
      than 0, or the kept customer at position `best` spent more than 0, at least as much
      as anybody, and more than everybody before it) is the method's contract. */
  lemma ScanOutcome(ledger: seq<OrderRec>, coffee: Coffee, customers: seq<Customer>, r: Option<Customer>, best: nat)
    requires forall c :: c in customers <==> HasOrderBy(CoffeeQueries.Orders(ledger, coffee), c)
    requires r.None? ==> forall j :: 0 <= j < |customers| ==> SpentOn(ledger, coffee, customers[j]) <= 0.0
    requires r.Some? ==> best < |customers| && customers[best] == r.value
    requires r.Some? ==> SpentOn(ledger, coffee, r.value) > 0.0
    requires r.Some? ==> forall j :: 0 <= j < |customers| ==>
               SpentOn(ledger, coffee, customers[j]) <= SpentOn(ledger, coffee, r.value)
    requires r.Some? ==> forall j :: 0 <= j < best ==>
               SpentOn(ledger, coffee, customers[j]) < SpentOn(ledger, coffee, r.value)
    ensures r.Some? ==> r.value in customers && HasOrderBy(CoffeeQueries.Orders(ledger, coffee), r.value)
    ensures r.Some? ==> forall j :: 0 <= j < |customers| ==>
              SpentOn(ledger, coffee, customers[j]) == SpentOn(ledger, coffee, r.value) ==>
                r.value in customers[..j + 1]
    ensures r.None? <==> forall j :: 0 <= j < |customers| ==> SpentOn(ledger, coffee, customers[j]) <= 0.0
    ensures AllPricesValid(ledger) ==> (r.None? <==> CoffeeQueries.Orders(ledger, coffee) == [])
  {
    if r.Some? {
      assert customers[best] in customers;
      FirstMaximumKept(ledger, coffee, customers, best);
    }
    if CoffeeQueries.Orders(ledger, coffee) != [] && AllPricesValid(ledger) {
      SomeoneSpent(ledger, coffee, customers);
    }
  }
}
