/** `Order`: the join record between a customer and a coffee, the checks of its three
    setters, and the append-only ledger (`Order.orders`) every constructed order joins. */
module OrderLedger {
  import opened Results
  import opened Entities

  const CustomerTypeMessage := "customer must be an instance of Customer class"
  const CoffeeTypeMessage := "coffee must be an instance of Coffee class"
  const PriceTypeMessage := "Price must be a float/number"
  const PriceRangeMessage := "Price should fall between 1.0 and 10.0"
  const MinPrice: real := 1.0
  const MaxPrice: real := 10.0

  /** One ledger entry: the values of an `Order`'s `_customer`, `_coffee` and `_price`. */
  datatype OrderRec = OrderRec(customer: Customer, coffee: Coffee, price: real)

  /** A price the `price` setter accepts: inside [1.0, 10.0], both ends included. */
  predicate IsPrice(p: real) {
    MinPrice <= p <= MaxPrice
  }

  /** The message of the `OverflowError` that `float(i)` raises for a huge int `i`. */
  const FloatOverflowMessage := "int too large to convert to float"

  /** 2^1024 - 2^970, the least magnitude of an int that `float(...)` cannot convert: it
      lies halfway between the largest double, 2^1024 - 2^971, and 2^1024, and rounding
      half to even takes it (and everything above it) to 2^1024, beyond the double range. */
  const FloatOverflowBound: int := 0xfffffffffffffc00000000000000000000000000000000000000000000000000000000000000000000000000000000000000000000000000000000000000000000000000000000000000000000000000000000000000000000000000000000000000000000000000000000000000000000000000000000000000000000000000

  /** `isinstance(value, (int, float))`, which a `bool` passes as well. */
  predicate IsNumber(v: Value) {
    v.Bool? || v.Int? || v.Float?
  }

  /** `float(value)` returns rather than raising: only an int can be out of reach. */
  predicate FitsFloat(v: Value) {
    !v.Int? || -FloatOverflowBound < v.i < FloatOverflowBound
  }

  /** `float(value)` for a number it can convert: `True` is 1.0 and `False` 0.0, an int
      becomes the integral real of the same value, a float is itself. */
  function NumericValue(v: Value): (r: real)
    requires IsNumber(v) && FitsFloat(v)
    ensures v.Bool? ==> (r == 1.0 <==> v.b) && (r == 0.0 <==> !v.b)
    ensures v.Int? ==> r == v.i as real
    ensures v.Float? ==> r == v.f
  {
    match v
    case Bool(b) => if b then 1.0 else 0.0
    case Int(i) => i as real
    case Float(f) => f
  }

  /** Every record in `os` carries a price the `price` setter accepts. */
  predicate AllPricesValid(os: seq<OrderRec>) {
    forall i :: 0 <= i < |os| ==> IsPrice(os[i].price)
  }

  /** The customers of the records of `os`, one per record, in order. */
  function CustomersOf(os: seq<OrderRec>): (r: seq<Customer>)
    ensures |r| == |os|
  {
    seq(|os|, i requires 0 <= i < |os| => os[i].customer)
  }

  /** The coffees of the records of `os`, one per record, in order. */
  function CoffeesOf(os: seq<OrderRec>): (r: seq<Coffee>)
    ensures |r| == |os|
  {
    seq(|os|, i requires 0 <= i < |os| => os[i].coffee)
  }

  /** Some record of `os` was placed by `customer`. */
  predicate HasOrderBy(os: seq<OrderRec>, customer: Customer) {
    exists i :: 0 <= i < |os| && os[i].customer == customer
  }

  /** Some record of `os` is for `coffee`. */
  predicate HasOrderFor(os: seq<OrderRec>, coffee: Coffee) {
    exists i :: 0 <= i < |os| && os[i].coffee == coffee
  }

  /** The check of the `customer` setter: only a `Customer` object is accepted. */
  function CheckCustomer(v: Value): (r: Result<Customer>)
    ensures r.Ok? <==> v.CustomerObj?
    ensures r.Ok? ==> r.value == v.customer
    ensures r.Err? ==> r.error == TypeError(CustomerTypeMessage)
  {
    if v.CustomerObj? then Ok(v.customer) else Err(TypeError(CustomerTypeMessage))
  }

  /** The check of the `coffee` setter: only a `Coffee` object is accepted. */
  function CheckCoffee(v: Value): (r: Result<Coffee>)
    ensures r.Ok? <==> v.CoffeeObj?
    ensures r.Ok? ==> r.value == v.coffee
    ensures r.Err? ==> r.error == TypeError(CoffeeTypeMessage)
  {
    if v.CoffeeObj? then Ok(v.coffee) else Err(TypeError(CoffeeTypeMessage))
  }

  /** The checks of the `price` setter: a non-number is a type error; an int too large
      for `float(value)` raises that conversion's overflow error; a number outside
      [1.0, 10.0] is a value error; otherwise its numeric value is stored. */
  function CheckPrice(v: Value): (r: Result<real>)
    ensures r.Ok? <==> IsNumber(v) && FitsFloat(v) && IsPrice(NumericValue(v))
    ensures r.Ok? ==> r.value == NumericValue(v) && IsPrice(r.value)
    ensures !IsNumber(v) ==> r == Err(TypeError(PriceTypeMessage))
    ensures IsNumber(v) && !FitsFloat(v) ==> r == Err(OverflowError(FloatOverflowMessage))
    ensures IsNumber(v) && FitsFloat(v) && !IsPrice(NumericValue(v)) ==> r == Err(ValueError(PriceRangeMessage))
  {
    if !IsNumber(v) then Err(TypeError(PriceTypeMessage))
    else if !FitsFloat(v) then Err(OverflowError(FloatOverflowMessage))
    else
      var p := NumericValue(v);
      if MinPrice <= p <= MaxPrice then Ok(p) else Err(ValueError(PriceRangeMessage))
  }

  /** The arguments the `price` setter accepts, named without `float`: `True` (which
      converts to 1.0), an int from 1 to 10, or a float in [1.0, 10.0]. `False`, being
      0.0, is out of range. */
  lemma AcceptedPrices(v: Value)
    ensures CheckPrice(v).Ok? <==>
              v == Bool(true) || (v.Int? && 1 <= v.i <= 10) || (v.Float? && 1.0 <= v.f <= 10.0)
  {
  }

  /** What `Order(customer, coffee, price)` yields: the fields are checked in the order
      customer, coffee, price and the first failing check decides the error; only when all
      three pass is there a record, holding the checked values. */
  function NewOrder(customer: Value, coffee: Value, price: Value): (r: Result<OrderRec>)
    ensures r.Ok? <==> CheckCustomer(customer).Ok? && CheckCoffee(coffee).Ok? && CheckPrice(price).Ok?
    ensures CheckCustomer(customer).Err? ==> r == Err(CheckCustomer(customer).error)
    ensures CheckCustomer(customer).Ok? && CheckCoffee(coffee).Err? ==> r == Err(CheckCoffee(coffee).error)
    ensures CheckCustomer(customer).Ok? && CheckCoffee(coffee).Ok? && CheckPrice(price).Err? ==>
              r == Err(CheckPrice(price).error)
    ensures r.Ok? ==> r.value == OrderRec(customer.customer, coffee.coffee, NumericValue(price))
    ensures r.Ok? ==> IsPrice(r.value.price)
  {
    match CheckCustomer(customer)
    case Err(e) => Err(e)
    case Ok(c) =>
      match CheckCoffee(coffee)
      case Err(e) => Err(e)
      case Ok(k) =>
        match CheckPrice(price)
        case Err(e) => Err(e)
        case Ok(p) => Ok(OrderRec(c, k, p))
  }

  /** The sum of the prices of `os` (Python's `sum(order.price for order in os)`). */
  function TotalPrice(os: seq<OrderRec>): real {
    if os == [] then 0.0 else TotalPrice(os[..|os| - 1]) + os[|os| - 1].price
  }

  /** The sum of a concatenation is the sum of the parts. */
  lemma {:induction false} TotalPriceAppend(a: seq<OrderRec>, b: seq<OrderRec>)
    ensures TotalPrice(a + b) == TotalPrice(a) + TotalPrice(b)
  {
    if b == [] {
      assert a + b == a;
    } else {
      var init := b[..|b| - 1];
      assert (a + b)[..|a + b| - 1] == a + init;
      TotalPriceAppend(a, init);
    }
  }

  /** When every price lies in [1.0, 10.0], the sum of n prices lies in [n, 10 n]. */
  lemma {:induction false} TotalPriceBounds(os: seq<OrderRec>)
    requires AllPricesValid(os)
    ensures MinPrice * |os| as real <= TotalPrice(os) <= MaxPrice * |os| as real
  {
    if os != [] {
      var init := os[..|os| - 1];
      assert AllPricesValid(init) by {
        forall i | 0 <= i < |init| ensures IsPrice(init[i].price) {
          assert init[i] == os[i];
        }
      }
      TotalPriceBounds(init);
      assert IsPrice(os[|os| - 1].price);
    }
  }

  /** The process-wide list `Order.orders`, made an explicit object. Records are only
      ever appended; the setters of an existing order replace that order's entry. An
      order object is named by its position in the ledger. */
  class Ledger {
    var orders: seq<OrderRec>

    /** Every entry went through the `price` setter. */
    ghost predicate Valid()
      reads this
    {
      AllPricesValid(orders)
    }

    /** The empty ledger the program starts with. */
    constructor ()
      ensures orders == [] && Valid()
    {
      orders := [];
    }

    /** `Order(customer, coffee, price)`: run the three setters in turn, then append the
        new order. A failing setter raises before the append, leaving the ledger as it was. */
    method Place(customer: Value, coffee: Value, price: Value) returns (r: Result<OrderRec>)
      requires Valid()
      modifies this
      ensures Valid()
      ensures r == NewOrder(customer, coffee, price)
      ensures orders == if r.Ok? then old(orders) + [r.value] else old(orders)
    {
      var c := CheckCustomer(customer);
      if c.Err? {
        return Err(c.error);
      }
      var k := CheckCoffee(coffee);
      if k.Err? {
        return Err(k.error);
      }
      var p := CheckPrice(price);
      if p.Err? {
        return Err(p.error);
      }
      var order := OrderRec(c.value, k.value, p.value);
      orders := orders + [order];
      r := Ok(order);
    }

    /** `order.customer = v` on the order at position `i`. */
    method SetCustomer(i: nat, v: Value) returns (r: Result<Customer>)
      requires Valid() && i < |orders|
      modifies this
      ensures Valid()
      ensures r == CheckCustomer(v)
      ensures orders == if r.Ok? then old(orders)[i := old(orders)[i].(customer := r.value)] else old(orders)
    {
      r := CheckCustomer(v);
      if r.Ok? {
        orders := orders[i := orders[i].(customer := r.value)];
      }
    }

    /** `order.coffee = v` on the order at position `i`. */
    method SetCoffee(i: nat, v: Value) returns (r: Result<Coffee>)
      requires Valid() && i < |orders|
      modifies this
      ensures Valid()
      ensures r == CheckCoffee(v)
      ensures orders == if r.Ok? then old(orders)[i := old(orders)[i].(coffee := r.value)] else old(orders)
    {
      r := CheckCoffee(v);
      if r.Ok? {
        orders := orders[i := orders[i].(coffee := r.value)];
      }
    }

    /** `order.price = v` on the order at position `i`. */
    method SetPrice(i: nat, v: Value) returns (r: Result<real>)
      requires Valid() && i < |orders|
      modifies this
      ensures Valid()
      ensures r == CheckPrice(v)
      ensures orders == if r.Ok? then old(orders)[i := old(orders)[i].(price := r.value)] else old(orders)
    {
      r := CheckPrice(v);
      if r.Ok? {
        orders := orders[i := orders[i].(price := r.value)];
      }
    }
  }
}
