# Coffee shop association layer, in Dafny

This project models the small in-memory association layer of the coffee shop code
challenge. It has three entities:

- a `Customer` and a `Coffee`, each holding a validated `name`;
- an `Order`, the join record between them, holding a validated `customer`, `coffee`
  and `price`.

Every order that is constructed joins one append-only list, `Order.orders`, called the
ledger here. The relationship queries of `Customer` and `Coffee` re-scan the ledger:

- `orders`;
- `coffees` and `customers`;
- `num_orders` and `average_price`;
- the class method `most_aficionado`, which finds a coffee's top spender.

The model is split into modules that follow the program:

- `Entities` (`entities.dfy`) holds the `Customer` and `Coffee` classes.
  - Their `name` fields are updated in place by `SetName`, which models the `name` setter.
  - `NewCustomer` and `NewCoffee` model the constructors.
  - `Value` is the dynamically typed argument those setters receive. It is tagged by the
    runtime type that `isinstance` tests.
- `OrderLedger` (`order_ledger.dfy`) holds the checks of the three `Order` setters and
  `NewOrder`, the outcome of `Order(customer, coffee, price)`.
  - The class `Ledger` stands for `Order.orders`.
  - `Place` runs the three checks and appends. `SetCustomer`, `SetCoffee` and `SetPrice`
    re-assign a field of an existing order, which is named by its position in the ledger.
- `CoffeeQueries` (`coffee_queries.dfy`) holds the queries of `Coffee` as functions over
  the ledger's records.
- `CustomerQueries` (`customer_queries.dfy`) holds the queries of `Customer`:
  - `create_order`, as a method on the ledger;
  - `most_aficionado`, as a method with the source's nested loops, proved against the
    spend function `SpentOn`.
- `Collections` (`collections.dfy`) holds `Distinct`, the duplicate-free list that
  `list({...})` produces.
- `Results` (`results.dfy`) holds the `Result`/`Option` wrappers. Python's raised
  `TypeError` and `ValueError` become `Err` values carrying the source's message. So does
  the `OverflowError` that `float(value)` raises for an int beyond the double range.
- `Scenarios` (`scenarios.dfy`) replays two demo scripts with their printing left out:
  - the script at the end of `lib/__init__.py`;
  - `debug.py`.

  The printed prices, counts, averages, first-order coffees and aficionados become
  out-parameters, and the postconditions fix their values. The two whole lists of names
  that `debug.py` prints at lines 34 and 37 become out-parameters holding sets of names,
  because the order of those lists comes from a Python set. The printed names of the
  customers and coffees are fixed by the postconditions of the helpers `InitModuleOrders`
  and `DebugOrders`, which create them.

`lib/__init__.py` repeats the three classes of `lib/customer.py`, `lib/coffee.py` and
`lib/order.py` with the same logic:

- `Customer` at lines 5-50;
- `Coffee` at lines 61-91;
- `Order` at lines 103-142.

One model covers both copies. The table below cites the separate files.

Three points about the scripts, where the model differs from their comments or states less than they print:

- In the `lib/__init__.py` script, two customers tie on Espresso at 2.0. `most_aficionado`
  keeps whichever of them the iteration over `coffee.customers()` visits first.
  - That order comes from a Python set.
  - The `Jane` expected after line 185 holds only when Jane is visited first.
  - `InitModuleScenario` proves both outcomes, one for each iteration order.
- In `debug.py`, after the two direct orders the Latte orders are 4.5, 5.0, 5.5 and 2.0.
  - Their mean is 4.25; the comment at line 74 expects 4.5.
  - `DebugScenario` proves 4.25.
- Five printed values come from the lists that `customers()` and `coffees()` build out of
  a Python set, so they depend on its iteration order:
  - `debug.py` lines 34 and 37 print whole lists; `DebugScenario` states the set of
    printed names (and, for line 34, how many there are), not their order;
  - `lib/__init__.py` line 171, `debug.py` line 72 and `debug.py` line 79 print the first
    element only, and the scenarios do not state it.

## Model

| member | source | states |
|---|---|---|
| Entities.CheckCustomerName | lib/customer.py:11-17 | a customer name is accepted exactly when it is a string of 1 to 15 characters, and then it is stored unchanged; a non-string gives TypeError with the source's message; a string of the wrong length gives ValueError with the source's message |
| Entities.Customer.SetName | lib/customer.py:11-17 | the `name` setter returns that check's outcome; on success `name` is the given string and the customer is valid; on an error the previous `name` is kept |
| Entities.Customer.constructor | lib/customer.py:4-5 | the allocated customer before `__init__` assigns a name |
| Entities.NewCustomer | lib/customer.py:4-5 | `Customer(name)` succeeds exactly when the name check passes, and raises that check's error otherwise; on success the customer is a new object, valid, holding the given name |
| Entities.CheckCoffeeName | lib/coffee.py:14-20 | a coffee name is accepted exactly when it is a string of at least 3 characters, with no upper bound, and is stored unchanged; a non-string gives TypeError; a shorter string gives ValueError; each carries the source's message |
| Entities.Coffee.SetName | lib/coffee.py:14-20 | the `name` setter returns that check's outcome; on success `name` is the given string and the coffee is valid; on an error the previous `name` is kept |
| Entities.Coffee.constructor | lib/coffee.py:7-8 | the allocated coffee before `__init__` assigns a name |
| Entities.NewCoffee | lib/coffee.py:7-8 | `Coffee(name)` succeeds exactly when the name check passes, and raises that check's error otherwise; on success the coffee is a new object, valid, holding the given name |
| OrderLedger.CheckCustomer | lib/order.py:18-22 | only a `Customer` object is accepted, and it is stored as given; anything else gives TypeError "customer must be an instance of Customer class" |
| OrderLedger.CheckCoffee | lib/order.py:28-32 | only a `Coffee` object is accepted, and it is stored as given; anything else gives TypeError "coffee must be an instance of Coffee class" |
| OrderLedger.NumericValue | lib/order.py:42-44 | `float(value)` of a number it can convert: a bool is 1.0 or 0.0, an int the integral real of the same value, a float itself |
| OrderLedger.CheckPrice | lib/order.py:38-44 | a price is accepted exactly when it is a number (an int, a float, or a bool) that `float` converts and whose value lies in [1.0, 10.0]; the stored price is that value; a non-number gives TypeError "Price must be a float/number"; an int of magnitude at least 2^1024 - 2^970 gives the OverflowError "int too large to convert to float" that `float(value)` raises; any other out-of-range number gives ValueError "Price should fall between 1.0 and 10.0" |
| OrderLedger.AcceptedPrices | lib/order.py:40-44 | the accepted prices, named without `float`: `True`, an int from 1 to 10, or a float in [1.0, 10.0]; every other argument, `False` among them, is refused |
| OrderLedger.NewOrder | lib/order.py:8-11 | an order exists exactly when all three checks pass; the fields are checked customer, then coffee, then price, and the first failure is the error; the record holds the checked customer, coffee and numeric price, and its price lies in [1.0, 10.0] |
| OrderLedger.TotalPriceAppend | lib/coffee.py:34 | `TotalPrice`, the model of `sum(order.price for ...)`, is additive: the sum of a concatenation is the sum of the two parts' sums |
| OrderLedger.TotalPriceBounds | lib/order.py:42-44 | when every price lies in [1.0, 10.0], the `TotalPrice` of n records lies in [n, 10 n] |
| OrderLedger.Ledger.constructor | lib/order.py:6 | the ledger starts empty (and valid) |
| OrderLedger.Ledger.Place | lib/order.py:8-12 | `Order(...)` yields `NewOrder`'s outcome; on success exactly that record is appended at the end and every earlier record is unchanged; on an error the ledger is unchanged; every price in the ledger stays in [1.0, 10.0] |
| OrderLedger.Ledger.SetCustomer | lib/order.py:18-22 | re-assigning an order's customer returns the check's outcome; on success only that order's customer changes; on an error the ledger is unchanged |
| OrderLedger.Ledger.SetCoffee | lib/order.py:28-32 | re-assigning an order's coffee returns the check's outcome; on success only that order's coffee changes; on an error the ledger is unchanged |
| OrderLedger.Ledger.SetPrice | lib/order.py:38-44 | re-assigning an order's price returns the check's outcome; on success only that order's price changes, to a value in [1.0, 10.0]; on an error the ledger is unchanged |
| CoffeeQueries.Orders | lib/coffee.py:22-24 | `coffee.orders()` holds only ledger records for that coffee, and no more records than the ledger |
| CoffeeQueries.OrdersMembership | lib/coffee.py:22-24 | a record is in `coffee.orders()` if and only if it is in the ledger and is for that coffee |
| CoffeeQueries.OrdersAppend | lib/coffee.py:22-24 | the scan of a concatenation is the concatenation of the scans, so ledger order is preserved |
| CoffeeQueries.OrdersPricesValid | lib/coffee.py:22-24 | a scan of a ledger whose prices are valid has valid prices |
| CoffeeQueries.Customers | lib/coffee.py:26-27 | `coffee.customers()` has no duplicates; each listed customer has ordered the coffee; and the customer of each of the coffee's orders is listed |
| CoffeeQueries.CustomersMembership | lib/coffee.py:26-27 | a customer is listed by `coffee.customers()` if and only if they have an order for the coffee |
| CoffeeQueries.NumOrders | lib/coffee.py:29-30 | `num_orders()` is at most the number of records in the ledger |
| CoffeeQueries.NumOrdersZero | lib/coffee.py:29-30 | `num_orders()` is 0 if and only if no ledger record is for the coffee |
| CoffeeQueries.NumOrdersIsCount | lib/coffee.py:29-30 | `num_orders()` is the number of times the coffee occurs in the ledger's coffee column |
| CoffeeQueries.AveragePriceOf | lib/coffee.py:32-35 | `average_price()` is the "No orders have been made yet" message exactly when there are no orders; otherwise it is a number that, times `num_orders()`, gives the sum of the orders' prices |
| CoffeeQueries.AveragePriceInRange | lib/coffee.py:32-34 | with valid ledger prices, a numeric average lies in [1.0, 10.0] |
| CoffeeQueries.OtherCoffeeUnchanged | lib/order.py:12 | appending an order for another coffee leaves this coffee's `orders()` and `num_orders()` unchanged |
| CoffeeQueries.OtherCoffeeAverageUnchanged | lib/order.py:12 | appending an order for another coffee leaves this coffee's `average_price()` unchanged |
| CoffeeQueries.SameCoffeeAppended | lib/order.py:12 | appending an order for this coffee adds exactly that record at the end of `orders()`, and one to `num_orders()` |
| CustomerQueries.Orders | lib/customer.py:19-21 | `customer.orders()` holds only ledger records placed by that customer, and no more records than the ledger |
| CustomerQueries.OrdersMembership | lib/customer.py:19-21 | a record is in `customer.orders()` if and only if it is in the ledger and was placed by that customer |
| CustomerQueries.OrdersAppend | lib/customer.py:19-21 | the scan of a concatenation is the concatenation of the scans, so ledger order is preserved |
| CustomerQueries.OtherCustomerUnchanged | lib/order.py:12 | appending another customer's order leaves this customer's `orders()` unchanged |
| CustomerQueries.SameCustomerAppended | lib/order.py:12 | appending this customer's order adds exactly that record at the end of `orders()` |
| CustomerQueries.ScansCommute | lib/customer.py:41-43 | a customer's orders of a coffee are the same records whether the ledger is first scanned by coffee (as the inner loop of `most_aficionado` does) or by customer |
| CustomerQueries.Coffees | lib/customer.py:23-25 | `customer.coffees()` has no duplicates; each listed coffee was ordered by the customer; and the coffee of each of the customer's orders is listed |
| CustomerQueries.CoffeesMembership | lib/customer.py:23-25 | a coffee is listed by `customer.coffees()` if and only if the customer has an order for it |
| CustomerQueries.CoffeeListedOnce | lib/customer.py:23-25 | a coffee the customer ordered, however often, occurs exactly once in `coffees()` |
| CustomerQueries.CreateOrder | lib/customer.py:27-29 | `create_order(coffee, price)` yields exactly the outcome of `Order(self, coffee, price)`; on success the record's customer is `self`, and the record joins the end of both the ledger and `self.orders()`; on an error both are unchanged |
| CustomerQueries.SpentOnOwnOrders | lib/customer.py:39-43 | the spend `total_spent` reaches, summed over `coffee.orders()`, equals the sum over the customer's own `orders()` of that coffee |
| CustomerQueries.SpentSnoc | lib/customer.py:41-43 | one more record adds its price to its own customer's spend and to nobody else's |
| CustomerQueries.SpentPositive | lib/customer.py:45 | a customer with an order among valid-priced records has spent at least 1.0, so more than the initial threshold 0 |
| CustomerQueries.SomeoneSpent | lib/customer.py:33-45 | with valid prices, a coffee that has orders has a listed customer whose spend on it exceeds 0 |
| CustomerQueries.TotalSpent | lib/customer.py:39-43 | the inner loop's total is the sum of the prices of the customer's orders among the coffee's orders |
| CustomerQueries.MostAficionado | lib/customer.py:31-49 | the result has ordered the coffee and spent more than 0 on it; nobody listed spent more; nobody listed earlier spent as much (a tie goes to the first customer visited); the result is None exactly when no listed customer spent more than 0; with valid prices, that is exactly when the coffee has no orders |
| Collections.Distinct | lib/customer.py:25 | `list({...})` of a sequence has no duplicates and holds exactly the sequence's elements |
| Collections.DistinctOfNoDup | lib/customer.py:25 | deduplicating a duplicate-free sequence gives it back unchanged |
| Collections.NoDupOccursOnce | lib/coffee.py:27 | in a duplicate-free sequence every element that occurs occurs exactly once |
| Scenarios.InitModuleScenario | lib/__init__.py:146-186 | after the script's two Espresso orders at 2.0, the results are fixed: the first order's price is 2.0 and its coffee is Espresso; Espresso has 2 orders averaging 2.0; James has 1 order and his coffees are [Espresso]; after his Americano, the Espresso aficionado is James when the iteration visits him first and Jane when it visits her first |
| Scenarios.TieGoesToFirst | lib/customer.py:45-47 | when the only two customers of a coffee spent the same positive amount, `most_aficionado` returns the one visited first |
| Scenarios.ClearWinner | lib/customer.py:45-47 | a customer of the coffee who spent more than 0, and more than every other customer, is the aficionado whatever the iteration order |
| Scenarios.DebugScenario | debug.py:17-81 | the script's results are fixed: Jane has 2 coffees, named Latte and Espresso; the customers of Latte are named Jane and Elli; Latte has 3 orders averaging 5.0, and its aficionado is Elli; the fifth order's price is 2.0; the first order's coffee is Latte; after the direct orders Latte has 4 orders averaging 4.25, and Jane has 3 orders; after Jane's last Espresso, the Espresso aficionado is Jane |

## Left out

- Floating point: prices, sums and averages are exact reals. IEEE rounding is not modelled in `float(value)`, in `sum(...)`, in the division of `average_price`, or in the running spend `total_spent += order.price` of `most_aficionado` (lib/customer.py:43). Rounding can change results the model states:
  - An exact sum can turn a floating-point near-tie into a tie, and a floating-point tie into a non-tie. For example, one customer orders 3.3 and is visited first, and another orders 1.1 and 2.2. In floating point the second customer's total, 3.3000000000000003, exceeds 3.3, so the source returns them. In the model the spends are equal, so `MostAficionado` returns the first customer.
  - An average can differ in its last digits: (1.1 + 2.2) / 2 is 1.6500000000000001 in floating point and 1.65 in the model.

  The demo scripts use only prices that are exact binary fractions, so their stated results are unaffected. NaN and the infinities are not modelled either; the price range check would refuse them. For the Ok/Err outcome of `CheckPrice`, one floating-point limit does matter, and it is modelled: an int too large for `float(value)` to convert gives `OverflowError`.
- Set iteration order: `list({...})` in `coffees()` and `customers()` iterates a Python set, whose order depends on object hashes. `Collections.Distinct` lists elements in first-occurrence order. The contracts of `Coffees` and `Customers` state duplicate-freeness and the element set. `MostAficionado` takes the iteration order as a parameter that must list exactly the coffee's customers.
- Object identity: customers and coffees are compared by reference, as Python `==` does for classes without `__eq__`. An `Order` object is named by its position in the ledger. Two orders with equal fields are two equal entries at two positions.
- The hidden global: the class attribute `Order.orders` (lib/order.py:6) is an explicit `Ledger` object that the operations take as a parameter.
- Import mechanics: the method-local `from order import Order` that breaks the import cycle (lib/customer.py:20, lib/coffee.py:23) has no behaviour of its own.
- The property getters return the stored field. They appear as field reads, not as members.
- Printing and object reprs of the demo scripts: `debug.py` at lines 7-14 adjusts `sys.path` and imports. Its prints, and those of `lib/__init__.py`, are left out. The scenarios keep only the printed values.
- Python runtime typing beyond `Value`'s cases: subclasses of `Customer`, `Coffee` and `str` are not modelled. Neither are subclasses of `int` and `float` other than `bool`, such as an `IntEnum` member or a `numpy.float64`, which pass `isinstance(value, (int, float))` at lib/order.py:40. All of these would pass the `isinstance` checks, but the model has only `Value.Other` for them and refuses them with a TypeError. Every other kind of argument is `Value.Other` too.
- Exceptions are not raised. A raised `TypeError`, `ValueError` or `OverflowError` is the `Err` outcome of the operation that raises it. The caller's state is unchanged, as it is when Python unwinds before the assignment or the append.
