/** The two demonstration scripts of the repository, replayed against the model with
    their printing left out. The printed prices, counts, averages, first-order coffees
    and aficionados are out-parameters whose values the postconditions fix; the printed
    names are fixed by the postconditions of `InitModuleOrders` and `DebugOrders`. The
    lists that `customers()` and `coffees()` build follow a Python set's iteration order:
    the whole lists that `debug.py` prints are stated as sets of names, and the first
    elements that both scripts print are not stated. */
module Scenarios {
  import opened Results
  import opened Entities
  import opened OrderLedger
  import CoffeeQueries
  import CustomerQueries
  import Collections

  /** The module-level script of `lib/__init__.py`. Two customers order Espresso at 2.0,
      so the top-spender search meets a tie, which either iteration order of the
      customer set decides for the customer it visits first. */
  method InitModuleScenario() returns (orderPrice: real, firstCoffee: string,
                                      espressoCount: nat, espressoAverage: CoffeeQueries.AveragePrice,
                                      jamesOrderCount: nat, jamesCoffees: seq<string>,
                                      winnerJamesFirst: string, winnerJaneFirst: string)
    ensures orderPrice == 2.0 && firstCoffee == "Espresso"
    ensures espressoCount == 2 && espressoAverage == CoffeeQueries.Number(2.0)
    ensures jamesOrderCount == 1 && jamesCoffees == ["Espresso"]
    ensures winnerJamesFirst == "James" && winnerJaneFirst == "Jane"
  {
    var ledger, james, jane, espresso, americano := InitModuleOrders();
    var ledger0 := ledger.orders;
    orderPrice := ledger0[0].price;
    firstCoffee := ledger0[0].coffee.name;
    TwoEqualOrders(ledger0, james, jane, espresso);
    espressoCount := CoffeeQueries.NumOrders(ledger0, espresso);
    espressoAverage := CoffeeQueries.AveragePriceOf(ledger0, espresso);
    jamesOrderCount := |CustomerQueries.Orders(ledger0, james)|;
    var coffees := CustomerQueries.Coffees(ledger0, james);
    jamesCoffees := [coffees[0].name];

    var w1, w2 := InitModuleAficionado(ledger, james, jane, espresso, americano);
    winnerJamesFirst := w1.value.name;
    winnerJaneFirst := w2.value.name;
  }

  /** The last part of that script: James orders an Americano through `create_order`,
      which leaves the Espresso tie in place; the search over either iteration order. */
  method InitModuleAficionado(ledger: Ledger, james: Customer, jane: Customer, espresso: Coffee, americano: Coffee)
      returns (w1: Option<Customer>, w2: Option<Customer>)
    requires ledger.Valid() && james != jane && espresso != americano
    requires ledger.orders == [OrderRec(james, espresso, 2.0), OrderRec(jane, espresso, 2.0)]
    modifies ledger
    ensures w1 == Some(james) && w2 == Some(jane)
  {
    ghost var ledger0 := ledger.orders;
    var created := CustomerQueries.CreateOrder(ledger, james, CoffeeObj(americano), Float(4.0));
    assert created == Ok(OrderRec(james, americano, 4.0));
    w1, w2 := EspressoTie(ledger.orders, ledger0, james, jane, espresso, created.value);
  }

  /** The Espresso tie survives an order for another coffee, and is decided by the
      iteration order. */
  method EspressoTie(ledger: seq<OrderRec>, ghost ledger0: seq<OrderRec>, james: Customer, jane: Customer,
                     espresso: Coffee, ghost extra: OrderRec)
      returns (w1: Option<Customer>, w2: Option<Customer>)
    requires james != jane && extra.coffee != espresso
    requires ledger0 == [OrderRec(james, espresso, 2.0), OrderRec(jane, espresso, 2.0)]
    requires ledger == ledger0 + [extra]
    ensures w1 == Some(james) && w2 == Some(jane)
  {
    TwoEqualOrders(ledger0, james, jane, espresso);
    CoffeeQueries.OtherCoffeeUnchanged(ledger0, extra, espresso);
    assert CoffeeQueries.Orders(ledger, espresso) == ledger0;
    assert CustomerQueries.SpentOn(ledger, espresso, james) == 2.0;
    assert CustomerQueries.SpentOn(ledger, espresso, jane) == 2.0;
    w1 := TieGoesToFirst(ledger, espresso, james, jane);
    assert forall c :: c in [jane, james] <==> c in [james, jane];
    w2 := TieGoesToFirst(ledger, espresso, jane, james);
  }

  /** The first part of that script: two customers, two coffees, and the two Espresso
      orders placed with `Order(...)` directly. */
  method InitModuleOrders() returns (ledger: Ledger, james: Customer, jane: Customer, espresso: Coffee, americano: Coffee)
    ensures fresh(ledger) && ledger.Valid()
    ensures james.name == "James" && jane.name == "Jane" && james != jane
    ensures espresso.name == "Espresso" && americano.name == "Americano" && espresso != americano
    ensures ledger.orders == [OrderRec(james, espresso, 2.0), OrderRec(jane, espresso, 2.0)]
  {
    ledger := new Ledger();
    var c1 := NewCustomer(Str("James"));
    var c2 := NewCustomer(Str("Jane"));
    var k1 := NewCoffee(Str("Espresso"));
    var k2 := NewCoffee(Str("Americano"));
    james, jane, espresso, americano := c1.value, c2.value, k1.value, k2.value;
    var order := ledger.Place(CustomerObj(james), CoffeeObj(espresso), Float(2.0));
    var order2 := ledger.Place(CustomerObj(jane), CoffeeObj(espresso), Float(2.0));
  }

  /** Two customers, the only ones who ordered `k`, who spent the same positive amount
      on it: the search returns whichever of them the iteration visits first. */
  method TieGoesToFirst(ledger: seq<OrderRec>, k: Coffee, a: Customer, b: Customer) returns (w: Option<Customer>)
    requires forall c :: c in [a, b] <==> HasOrderBy(CoffeeQueries.Orders(ledger, k), c)
    requires CustomerQueries.SpentOn(ledger, k, a) == CustomerQueries.SpentOn(ledger, k, b) > 0.0
    ensures w == Some(a)
  {
    w := CustomerQueries.MostAficionado(ledger, k, [a, b]);
    assert CustomerQueries.SpentOn(ledger, k, [a, b][0]) > 0.0;
    assert [a, b][..1] == [a];
  }

  /** The Espresso ledger of `lib/__init__.py`: two customers, one order each at 2.0. */
  lemma TwoEqualOrders(ledger: seq<OrderRec>, a: Customer, b: Customer, k: Coffee)
    requires a != b && ledger == [OrderRec(a, k, 2.0), OrderRec(b, k, 2.0)]
    ensures CoffeeQueries.Orders(ledger, k) == ledger
    ensures TotalPrice(ledger) == 4.0
    ensures CustomerQueries.Orders(ledger, a) == [ledger[0]]
    ensures CustomerQueries.Coffees(ledger, a) == [k]
    ensures CustomerQueries.Spent(ledger, a) == 2.0 && CustomerQueries.Spent(ledger, b) == 2.0
    ensures forall c :: c in [a, b] <==> HasOrderBy(ledger, c)
  {
    var first, second := [ledger[0]], [ledger[1]];
    assert ledger == first + second;
    // `Orders` and `TotalPrice` recur on `s[..|s| - 1]`; naming the empty prefix lets them unfold on a one-element sequence.
    assert first[..0] == [] && second[..0] == [];
    CoffeeQueries.OrdersAppend(first, second, k);
    CustomerQueries.OrdersAppend(first, second, a);
    CustomerQueries.OrdersAppend(first, second, b);
    TotalPriceAppend(first, second);
    TotalPriceAppend([], first);
    assert CoffeesOf(CustomerQueries.Orders(ledger, a)) == [k];
    forall c ensures c in [a, b] <==> HasOrderBy(ledger, c) {
      if c == a {
        assert ledger[0].customer == c;
      } else if c == b {
        assert ledger[1].customer == c;
      }
    }
  }

  /** `debug.py`: Jane orders Latte at 4.5 and Espresso at 3.0, Elli orders Latte at 5.0
      and 5.5; then two direct orders at 2.0 (Jane an Espresso, Elli a Latte); then Jane
      orders one more Espresso. Elli is the Latte aficionado whatever the iteration order
      (10.5 > 4.5); after the direct orders the Latte average is (4.5 + 5.0 + 5.5 + 2.0) / 4;
      Jane, the only Espresso customer, is its aficionado. */
  method DebugScenario() returns (janeCoffeeCount: nat, janeCoffeeNames: set<string>, latteCustomerNames: set<string>,
                                 latteCount: nat, latteAverage: CoffeeQueries.AveragePrice,
                                 latteAficionado: string, directPrice: real, firstCoffee: string,
                                 latteCountAfter: nat, latteAverageAfter: CoffeeQueries.AveragePrice,
                                 janeOrderCount: nat, espressoAficionado: string)
    ensures janeCoffeeCount == 2 && latteCount == 3 && latteAverage == CoffeeQueries.Number(5.0)
    ensures janeCoffeeNames == {"Latte", "Espresso"} && latteCustomerNames == {"Jane", "Elli"}
    ensures latteAficionado == "Elli" && directPrice == 2.0 && firstCoffee == "Latte"
    ensures latteCountAfter == 4 && latteAverageAfter == CoffeeQueries.Number(4.25)
    ensures janeOrderCount == 3 && espressoAficionado == "Jane"
  {
    var ledger, jane, elli, latte, espresso := DebugOrders();
    var first := ledger.orders;
    var second, third := DebugLaterOrders(ledger, jane, elli, latte, espresso);
    var janeCoffees, latteCustomers, winner1, winner2;
    janeCoffeeCount, janeCoffees, latteCustomers, latteCount, latteAverage, winner1,
      latteCountAfter, latteAverageAfter, janeOrderCount, winner2 :=
      DebugQueries(first, second, third, jane, elli, latte, espresso);
    janeCoffeeNames := CoffeeNames(janeCoffees, latte, espresso);
    latteCustomerNames := CustomerNames(latteCustomers, jane, elli);
    latteAficionado := winner1.value.name;
    directPrice := second[4].price;
    firstCoffee := second[0].coffee.name;
    espressoAficionado := winner2.value.name;
  }

  /** The queries of `debug.py` over the ledger after its first four orders (`first`),
      after the two direct orders (`second`) and at the end (`third`). */
  method DebugQueries(first: seq<OrderRec>, second: seq<OrderRec>, third: seq<OrderRec>,
                      jane: Customer, elli: Customer, latte: Coffee, espresso: Coffee)
      returns (janeCoffeeCount: nat, janeCoffees: seq<Coffee>, latteCustomers: seq<Customer>,
               latteCount: nat, latteAverage: CoffeeQueries.AveragePrice,
               latteWinner: Option<Customer>, latteCountAfter: nat, latteAverageAfter: CoffeeQueries.AveragePrice,
               janeOrderCount: nat, espressoWinner: Option<Customer>)
    requires jane != elli && latte != espresso
    requires first == [OrderRec(jane, latte, 4.5), OrderRec(jane, espresso, 3.0),
                       OrderRec(elli, latte, 5.0), OrderRec(elli, latte, 5.5)]
    requires second == first + [OrderRec(jane, espresso, 2.0), OrderRec(elli, latte, 2.0)]
    requires third == second + [OrderRec(jane, espresso, 4.0)]
    ensures janeCoffeeCount == 2 && latteCount == 3 && latteAverage == CoffeeQueries.Number(5.0)
    ensures forall k :: k in janeCoffees <==> k == latte || k == espresso
    ensures forall c :: c in latteCustomers <==> c == jane || c == elli
    ensures latteWinner == Some(elli)
    ensures latteCountAfter == 4 && latteAverageAfter == CoffeeQueries.Number(4.25) && janeOrderCount == 3
    ensures espressoWinner == Some(jane)
  {
    LatteFacts(first, jane, elli, latte, espresso);
    janeCoffeeCount, janeCoffees, latteCustomers, latteCount, latteAverage, latteWinner :=
      DebugLatteQueries(first, jane, elli, latte, espresso);
    latteCountAfter, latteAverageAfter, janeOrderCount := DebugDirectQueries(first, second, jane, elli, latte, espresso);
    assert third == first + [OrderRec(jane, espresso, 2.0), OrderRec(elli, latte, 2.0), OrderRec(jane, espresso, 4.0)];
    espressoWinner := DebugEspressoAficionado(first, third, jane, elli, latte, espresso);
  }

  /** The first part of `debug.py`: the two customers, the two coffees and the four
      orders placed through `create_order`. */
  method DebugOrders() returns (ledger: Ledger, jane: Customer, elli: Customer, latte: Coffee, espresso: Coffee)
    ensures fresh(ledger) && ledger.Valid()
    ensures jane.name == "Jane" && elli.name == "Elli" && jane != elli
    ensures latte.name == "Latte" && espresso.name == "Espresso" && latte != espresso
    ensures ledger.orders == [OrderRec(jane, latte, 4.5), OrderRec(jane, espresso, 3.0),
                              OrderRec(elli, latte, 5.0), OrderRec(elli, latte, 5.5)]
  {
    ledger := new Ledger();
    var c1 := NewCustomer(Str("Jane"));
    var c2 := NewCustomer(Str("Elli"));
    var k1 := NewCoffee(Str("Latte"));
    var k2 := NewCoffee(Str("Espresso"));
    jane, elli, latte, espresso := c1.value, c2.value, k1.value, k2.value;
    OrderTwice(ledger, jane, latte, 4.5, espresso, 3.0);
    OrderTwice(ledger, elli, latte, 5.0, latte, 5.5);
  }

  /** One customer orders two coffees at two valid prices through `create_order`. */
  method OrderTwice(ledger: Ledger, customer: Customer, k1: Coffee, p1: real, k2: Coffee, p2: real)
    requires ledger.Valid() && IsPrice(p1) && IsPrice(p2)
    modifies ledger
    ensures ledger.Valid()
    ensures ledger.orders == old(ledger.orders) + [OrderRec(customer, k1, p1), OrderRec(customer, k2, p2)]
  {
    OrderOnce(ledger, customer, k1, p1);
    OrderOnce(ledger, customer, k2, p2);
  }

  /** `customer.create_order(coffee, price)` with a valid price: one record appended. */
  method OrderOnce(ledger: Ledger, customer: Customer, coffee: Coffee, price: real)
    requires ledger.Valid() && IsPrice(price)
    modifies ledger
    ensures ledger.Valid()
    ensures ledger.orders == old(ledger.orders) + [OrderRec(customer, coffee, price)]
  {
    var o := CustomerQueries.CreateOrder(ledger, customer, CoffeeObj(coffee), Float(price));
  }

  /** `Order(customer, coffee, price)` with a valid price: one record appended. */
  method PlaceOnce(ledger: Ledger, customer: Customer, coffee: Coffee, price: real)
    requires ledger.Valid() && IsPrice(price)
    modifies ledger
    ensures ledger.Valid()
    ensures ledger.orders == old(ledger.orders) + [OrderRec(customer, coffee, price)]
  {
    var o := ledger.Place(CustomerObj(customer), CoffeeObj(coffee), Float(price));
  }

  /** The later orders of `debug.py`: two direct orders at 2.0, then Jane's Espresso at
      4.0 through `create_order`; the ledger after the direct orders and at the end. */
  method DebugLaterOrders(ledger: Ledger, jane: Customer, elli: Customer, latte: Coffee, espresso: Coffee)
      returns (second: seq<OrderRec>, third: seq<OrderRec>)
    requires ledger.Valid()
    modifies ledger
    ensures second == old(ledger.orders) + [OrderRec(jane, espresso, 2.0), OrderRec(elli, latte, 2.0)]
    ensures third == second + [OrderRec(jane, espresso, 4.0)]
  {
    PlaceOnce(ledger, jane, espresso, 2.0);
    PlaceOnce(ledger, elli, latte, 2.0);
    second := ledger.orders;
    OrderOnce(ledger, jane, espresso, 4.0);
    third := ledger.orders;
  }

  /** The queries `debug.py` prints after its first four orders. */
  method DebugLatteQueries(ledger: seq<OrderRec>, jane: Customer, elli: Customer, latte: Coffee, espresso: Coffee)
      returns (janeCoffeeCount: nat, janeCoffees: seq<Coffee>, latteCustomers: seq<Customer>,
               latteCount: nat, latteAverage: CoffeeQueries.AveragePrice, winner: Option<Customer>)
    requires jane != elli
    requires CustomerQueries.Coffees(ledger, jane) == [latte, espresso]
    requires |CoffeeQueries.Orders(ledger, latte)| == 3 && TotalPrice(CoffeeQueries.Orders(ledger, latte)) == 15.0
    requires CustomerQueries.SpentOn(ledger, latte, jane) == 4.5
    requires CustomerQueries.SpentOn(ledger, latte, elli) == 10.5
    requires forall c :: HasOrderBy(CoffeeQueries.Orders(ledger, latte), c) <==> c == jane || c == elli
    ensures janeCoffeeCount == 2 && latteCount == 3 && latteAverage == CoffeeQueries.Number(5.0)
    ensures forall k :: k in janeCoffees <==> k == latte || k == espresso
    ensures forall c :: c in latteCustomers <==> c == jane || c == elli
    ensures winner == Some(elli)
  {
    janeCoffees := CustomerQueries.Coffees(ledger, jane);
    janeCoffeeCount := |janeCoffees|;
    latteCount := CoffeeQueries.NumOrders(ledger, latte);
    latteAverage := CoffeeQueries.AveragePriceOf(ledger, latte);
    var customers := CoffeeQueries.Customers(ledger, latte);
    forall c ensures c in customers <==> HasOrderBy(CoffeeQueries.Orders(ledger, latte), c) {
      CoffeeQueries.CustomersMembership(ledger, latte, c);
    }
    latteCustomers := customers;
    winner := ClearWinner(ledger, latte, customers, elli);
  }

  /** The names printed for a list of customers that holds exactly `a` and `b`, as a set,
      since the list's order comes from a Python set. */
  method CustomerNames(cs: seq<Customer>, a: Customer, b: Customer) returns (names: set<string>)
    requires forall c :: c in cs <==> c == a || c == b
    ensures names == {a.name, b.name}
  {
    names := set c | c in cs :: c.name;
  }

  /** The names printed for a list of coffees that holds exactly `a` and `b`, as a set. */
  method CoffeeNames(ks: seq<Coffee>, a: Coffee, b: Coffee) returns (names: set<string>)
    requires forall k :: k in ks <==> k == a || k == b
    ensures names == {a.name, b.name}
  {
    names := set k | k in ks :: k.name;
  }

  /** The Latte records of the first four orders of `debug.py`, and what they add up to. */
  lemma LatteFacts(ledger: seq<OrderRec>, jane: Customer, elli: Customer, latte: Coffee, espresso: Coffee)
    requires jane != elli && latte != espresso
    requires ledger == [OrderRec(jane, latte, 4.5), OrderRec(jane, espresso, 3.0),
                        OrderRec(elli, latte, 5.0), OrderRec(elli, latte, 5.5)]
    ensures CoffeeQueries.Orders(ledger, latte) == [ledger[0], ledger[2], ledger[3]]
    ensures TotalPrice(CoffeeQueries.Orders(ledger, latte)) == 15.0
    ensures CustomerQueries.SpentOn(ledger, latte, jane) == 4.5
    ensures CustomerQueries.SpentOn(ledger, latte, elli) == 10.5
    ensures forall c :: HasOrderBy(CoffeeQueries.Orders(ledger, latte), c) <==> c == jane || c == elli
    ensures CustomerQueries.Orders(ledger, jane) == [ledger[0], ledger[1]]
    ensures CustomerQueries.Coffees(ledger, jane) == [latte, espresso]
    ensures CoffeeQueries.Orders(ledger, espresso) == [ledger[1]]
  {
    var o1, o2, o3, o4 := ledger[0], ledger[1], ledger[2], ledger[3];
    FourByCoffee(o1, o2, o3, o4, latte, espresso);
    FourByCustomer(o1, o2, o3, o4, jane, elli);
    LatteSpend(o1, o3, o4, jane, elli);
    JaneCoffees(o1, o2, latte, espresso);
  }

  /** Picking the orders of each coffee out of four records, first two coffees apart. */
  lemma FourByCoffee(o1: OrderRec, o2: OrderRec, o3: OrderRec, o4: OrderRec, latte: Coffee, espresso: Coffee)
    requires latte != espresso
    requires o1.coffee == latte && o2.coffee == espresso && o3.coffee == latte && o4.coffee == latte
    ensures CoffeeQueries.Orders([o1, o2, o3, o4], latte) == [o1, o3, o4]
    ensures CoffeeQueries.Orders([o1, o2, o3, o4], espresso) == [o2]
  {
    var l1 := [o1];
    var l2 := l1 + [o2];
    var l3 := l2 + [o3];
    var l4 := l3 + [o4];
    assert [o1, o2, o3, o4] == l4;
    LatteSteps(l1, l2, l3, l4, o1, o2, o3, o4, latte);
    EspressoSteps(l1, l2, l3, l4, o1, o2, o3, o4, espresso);
  }

  /** Four appends, the second of another coffee: the scan keeps the other three. */
  lemma LatteSteps(l1: seq<OrderRec>, l2: seq<OrderRec>, l3: seq<OrderRec>, l4: seq<OrderRec>,
                   o1: OrderRec, o2: OrderRec, o3: OrderRec, o4: OrderRec, k: Coffee)
    requires l1 == [] + [o1] && l2 == l1 + [o2] && l3 == l2 + [o3] && l4 == l3 + [o4]
    requires o1.coffee == k && o2.coffee != k && o3.coffee == k && o4.coffee == k
    ensures CoffeeQueries.Orders(l4, k) == [o1, o3, o4]
  {
    CoffeeQueries.SameCoffeeAppended([], o1, k);
    assert CoffeeQueries.Orders(l1, k) == [o1];
    CoffeeQueries.OtherCoffeeUnchanged(l1, o2, k);
    CoffeeQueries.SameCoffeeAppended(l2, o3, k);
    assert CoffeeQueries.Orders(l3, k) == [o1] + [o3] == [o1, o3];
    CoffeeQueries.SameCoffeeAppended(l3, o4, k);
    assert [o1, o3] + [o4] == [o1, o3, o4];
  }

  /** Four appends, only the second of this coffee: the scan keeps that one. */
  lemma EspressoSteps(l1: seq<OrderRec>, l2: seq<OrderRec>, l3: seq<OrderRec>, l4: seq<OrderRec>,
                      o1: OrderRec, o2: OrderRec, o3: OrderRec, o4: OrderRec, k: Coffee)
    requires l1 == [] + [o1] && l2 == l1 + [o2] && l3 == l2 + [o3] && l4 == l3 + [o4]
    requires o1.coffee != k && o2.coffee == k && o3.coffee != k && o4.coffee != k
    ensures CoffeeQueries.Orders(l4, k) == [o2]
  {
    CoffeeQueries.OtherCoffeeUnchanged([], o1, k);
    CoffeeQueries.SameCoffeeAppended(l1, o2, k);
    CoffeeQueries.OtherCoffeeUnchanged(l2, o3, k);
    CoffeeQueries.OtherCoffeeUnchanged(l3, o4, k);
  }

  /** Picking the first customer's orders out of four records. */
  lemma FourByCustomer(o1: OrderRec, o2: OrderRec, o3: OrderRec, o4: OrderRec, jane: Customer, elli: Customer)
    requires jane != elli
    requires o1.customer == jane && o2.customer == jane && o3.customer == elli && o4.customer == elli
    ensures CustomerQueries.Orders([o1, o2, o3, o4], jane) == [o1, o2]
  {
    assert [o1, o2, o3, o4] == [o1, o2, o3] + [o4];
    assert [o1, o2, o3] == [o1, o2] + [o3];
    assert [o1, o2] == [o1] + [o2];
    assert [o1] == [] + [o1];
    CustomerQueries.SameCustomerAppended([], o1, jane);
    CustomerQueries.SameCustomerAppended([o1], o2, jane);
    CustomerQueries.OtherCustomerUnchanged([o1, o2], o3, jane);
    CustomerQueries.OtherCustomerUnchanged([o1, o2, o3], o4, jane);
  }

  /** The three Latte records: their total, and what each of the two customers spent. */
  lemma LatteSpend(o1: OrderRec, o3: OrderRec, o4: OrderRec, jane: Customer, elli: Customer)
    requires jane != elli
    requires o1 == OrderRec(jane, o1.coffee, 4.5)
    requires o3 == OrderRec(elli, o3.coffee, 5.0) && o4 == OrderRec(elli, o4.coffee, 5.5)
    ensures TotalPrice([o1, o3, o4]) == 15.0
    ensures CustomerQueries.Spent([o1, o3, o4], jane) == 4.5
    ensures CustomerQueries.Spent([o1, o3, o4], elli) == 10.5
    ensures forall c :: HasOrderBy([o1, o3, o4], c) <==> c == jane || c == elli
  {
    var lo := [o1, o3, o4];
    TotalOfThree(o1, o3, o4);
    SpentOfThree(o1, o3, o4, jane);
    SpentOfThree(o1, o3, o4, elli);
    forall c ensures HasOrderBy(lo, c) <==> c == jane || c == elli {
      if c == jane {
        assert lo[0].customer == c;
      } else if c == elli {
        assert lo[1].customer == c;
      }
    }
  }

  /** The `TotalPrice` of three records is the sum of their prices. */
  lemma TotalOfThree(o1: OrderRec, o2: OrderRec, o3: OrderRec)
    ensures TotalPrice([o1, o2, o3]) == o1.price + o2.price + o3.price
  {
    assert [o1, o2, o3] == [o1, o2] + [o3] && [o1, o2] == [o1] + [o2];
    TotalPriceAppend([o1, o2], [o3]);
    TotalPriceAppend([o1], [o2]);
    TotalPriceAppend([], [o1]);
    // `Orders` and `TotalPrice` recur on `s[..|s| - 1]`; naming the empty prefix lets them unfold on a one-element sequence.
    assert [o1][..0] == [] && [o2][..0] == [] && [o3][..0] == [];
  }

  /** What a customer spent over three records: the prices of those that are theirs. */
  lemma SpentOfThree(o1: OrderRec, o2: OrderRec, o3: OrderRec, c: Customer)
    ensures CustomerQueries.Spent([o1, o2, o3], c)
         == (if o1.customer == c then o1.price else 0.0)
          + (if o2.customer == c then o2.price else 0.0)
          + (if o3.customer == c then o3.price else 0.0)
  {
    assert [o1, o2, o3] == [o1, o2] + [o3] && [o1, o2] == [o1] + [o2] && [o1] == [] + [o1];
    CustomerQueries.SpentSnoc([o1, o2], o3, c);
    CustomerQueries.SpentSnoc([o1], o2, c);
    CustomerQueries.SpentSnoc([], o1, c);
  }

  /** Jane's two orders are for two different coffees, listed in the order they were made. */
  lemma JaneCoffees(o1: OrderRec, o2: OrderRec, latte: Coffee, espresso: Coffee)
    requires latte != espresso && o1.coffee == latte && o2.coffee == espresso
    ensures Collections.Distinct(CoffeesOf([o1, o2])) == [latte, espresso]
  {
    assert CoffeesOf([o1, o2]) == [latte, espresso];
    Collections.DistinctOfNoDup([latte, espresso]);
  }

  /** `a` ordered `k` and every other customer who did spent less on it: `a` is the
      aficionado whatever the iteration order. */
  method ClearWinner(ledger: seq<OrderRec>, k: Coffee, customers: seq<Customer>, a: Customer)
      returns (w: Option<Customer>)
    requires forall c :: c in customers <==> HasOrderBy(CoffeeQueries.Orders(ledger, k), c)
    requires HasOrderBy(CoffeeQueries.Orders(ledger, k), a) && CustomerQueries.SpentOn(ledger, k, a) > 0.0
    requires forall c :: HasOrderBy(CoffeeQueries.Orders(ledger, k), c) && c != a ==>
               CustomerQueries.SpentOn(ledger, k, c) < CustomerQueries.SpentOn(ledger, k, a)
    ensures w == Some(a)
  {
    w := CustomerQueries.MostAficionado(ledger, k, customers);
    assert a in customers;
    var j :| 0 <= j < |customers| && customers[j] == a;
    assert CustomerQueries.SpentOn(ledger, k, customers[j]) > 0.0;
    var i :| 0 <= i < |customers| && customers[i] == w.value;
  }

  /** The queries `debug.py` prints after the two direct orders. */
  method DebugDirectQueries(first: seq<OrderRec>, second: seq<OrderRec>, jane: Customer, elli: Customer,
                            latte: Coffee, espresso: Coffee)
      returns (latteCount: nat, latteAverage: CoffeeQueries.AveragePrice, janeOrderCount: nat)
    requires jane != elli && latte != espresso
    requires second == first + [OrderRec(jane, espresso, 2.0), OrderRec(elli, latte, 2.0)]
    requires |CoffeeQueries.Orders(first, latte)| == 3 && TotalPrice(CoffeeQueries.Orders(first, latte)) == 15.0
    requires |CustomerQueries.Orders(first, jane)| == 2
    ensures latteCount == 4 && latteAverage == CoffeeQueries.Number(4.25) && janeOrderCount == 3
  {
    var o5, o6 := OrderRec(jane, espresso, 2.0), OrderRec(elli, latte, 2.0);
    assert second == first + [o5] + [o6];
    CoffeeQueries.OtherCoffeeUnchanged(first, o5, latte);
    CoffeeQueries.SameCoffeeAppended(first + [o5], o6, latte);
    TotalPriceAppend(CoffeeQueries.Orders(first, latte), [o6]);
    // `Orders` and `TotalPrice` recur on `s[..|s| - 1]`; naming the empty prefix lets them unfold on a one-element sequence.
    assert [o6][..0] == [];
    CustomerQueries.SameCustomerAppended(first, o5, jane);
    CustomerQueries.OtherCustomerUnchanged(first + [o5], o6, jane);
    latteCount := CoffeeQueries.NumOrders(second, latte);
    latteAverage := CoffeeQueries.AveragePriceOf(second, latte);
    janeOrderCount := |CustomerQueries.Orders(second, jane)|;
  }

  /** The last query of `debug.py`: after Jane's third Espresso, the Espresso aficionado. */
  method DebugEspressoAficionado(first: seq<OrderRec>, third: seq<OrderRec>, jane: Customer, elli: Customer,
                                 latte: Coffee, espresso: Coffee)
      returns (w: Option<Customer>)
    requires jane != elli && latte != espresso
    requires CoffeeQueries.Orders(first, espresso) == [OrderRec(jane, espresso, 3.0)]
    requires third == first + [OrderRec(jane, espresso, 2.0), OrderRec(elli, latte, 2.0), OrderRec(jane, espresso, 4.0)]
    ensures w == Some(jane)
  {
    EspressoFacts(first, third, jane, elli, latte, espresso);
    var customers := CoffeeQueries.Customers(third, espresso);
    forall c ensures c in customers <==> HasOrderBy(CoffeeQueries.Orders(third, espresso), c) {
      CoffeeQueries.CustomersMembership(third, espresso, c);
    }
    w := ClearWinner(third, espresso, customers, jane);
  }

  /** After the last three orders, Jane is the only Espresso customer, and she spent
      something on it. */
  lemma EspressoFacts(first: seq<OrderRec>, third: seq<OrderRec>, jane: Customer, elli: Customer,
                      latte: Coffee, espresso: Coffee)
    requires jane != elli && latte != espresso
    requires CoffeeQueries.Orders(first, espresso) == [OrderRec(jane, espresso, 3.0)]
    requires third == first + [OrderRec(jane, espresso, 2.0), OrderRec(elli, latte, 2.0), OrderRec(jane, espresso, 4.0)]
    ensures forall c :: HasOrderBy(CoffeeQueries.Orders(third, espresso), c) <==> c == jane
    ensures CustomerQueries.SpentOn(third, espresso, jane) > 0.0
  {
    var o5, o6, o7 := OrderRec(jane, espresso, 2.0), OrderRec(elli, latte, 2.0), OrderRec(jane, espresso, 4.0);
    assert third == first + [o5] + [o6] + [o7];
    CoffeeQueries.SameCoffeeAppended(first, o5, espresso);
    CoffeeQueries.OtherCoffeeUnchanged(first + [o5], o6, espresso);
    CoffeeQueries.SameCoffeeAppended(first + [o5] + [o6], o7, espresso);
    var eo := CoffeeQueries.Orders(third, espresso);
    assert eo == [OrderRec(jane, espresso, 3.0), o5, o7];
    forall c ensures HasOrderBy(eo, c) <==> c == jane {
      if c == jane {
        assert eo[0].customer == c;
      }
    }
    assert AllPricesValid(eo);
    CustomerQueries.SpentPositive(eo, jane);
  }
}
