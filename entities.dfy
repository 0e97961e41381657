/** The two named entities, `Customer` and `Coffee`, with the validation their `name`
    setters perform, and the dynamically typed values those setters (and the `Order`
    setters) receive. */
module Entities {
  import opened Results

  /** A Python argument, tagged by the runtime type that `isinstance` tests.
      `Bool` is kept apart from `Int` although Python's `bool` is a subclass of `int`.
      `Other` stands for every other kind of object (None, lists, Order objects, ...). */
  datatype Value =
    | Str(s: string)
    | Bool(b: bool)
    | Int(i: int)
    | Float(f: real)
    | CustomerObj(customer: Customer)
    | CoffeeObj(coffee: Coffee)
    | Other

  const CustomerNameTypeMessage := "Name of the customer must be a string"
  const CustomerNameLengthMessage := "Name of the customer should be between 1 to 15 characters long"
  const CoffeeNameTypeMessage := "Name of coffee must be a string"
  const CoffeeNameLengthMessage := "Name of coffee should be at least 3 characters long"

  /** A customer name is 1 to 15 characters long. */
  predicate IsCustomerName(name: string) {
    1 <= |name| <= 15
  }

  /** A coffee name is at least 3 characters long; there is no upper bound. */
  predicate IsCoffeeName(name: string) {
    3 <= |name|
  }

  /** The checks of the `Customer.name` setter: a non-string is a type error, a string
      of the wrong length a value error, anything else is stored as given. */
  function CheckCustomerName(v: Value): (r: Result<string>)
    ensures r.Ok? <==> v.Str? && IsCustomerName(v.s)
    ensures r.Ok? ==> r.value == v.s
    ensures !v.Str? ==> r == Err(TypeError(CustomerNameTypeMessage))
    ensures v.Str? && !IsCustomerName(v.s) ==> r == Err(ValueError(CustomerNameLengthMessage))
  {
    match v
    case Str(s) =>
      if 1 <= |s| <= 15 then Ok(s) else Err(ValueError(CustomerNameLengthMessage))
    case _ => Err(TypeError(CustomerNameTypeMessage))
  }

  /** The checks of the `Coffee.name` setter: a non-string is a type error, a string
      shorter than 3 characters a value error, anything else is stored as given. */
  function CheckCoffeeName(v: Value): (r: Result<string>)
    ensures r.Ok? <==> v.Str? && IsCoffeeName(v.s)
    ensures r.Ok? ==> r.value == v.s
    ensures !v.Str? ==> r == Err(TypeError(CoffeeNameTypeMessage))
    ensures v.Str? && !IsCoffeeName(v.s) ==> r == Err(ValueError(CoffeeNameLengthMessage))
  {
    match v
    case Str(s) =>
      if 3 <= |s| then Ok(s) else Err(ValueError(CoffeeNameLengthMessage))
    case _ => Err(TypeError(CoffeeNameTypeMessage))
  }

  /** A customer. Its identity is the object itself; `name` is the `_name` field. */
  class Customer {
    var name: string

    /** The customer's invariant once `__init__` has returned: `NewCustomer` and a
        successful `SetName` establish it for callers. No operation of the model requires
        it, because the `Order` setters test only the object's class, never its name. */
    ghost predicate Valid()
      reads this
    {
      IsCustomerName(name)
    }

    /** The freshly allocated object, before `__init__` has run the `name` setter. */
    constructor ()
      ensures name == ""
    {
      name := "";
    }

    /** The `name` setter: validates, then stores; on an error `_name` keeps its old value. */
    method SetName(v: Value) returns (r: Result<string>)
      modifies this
      ensures r == CheckCustomerName(v)
      ensures name == if r.Ok? then v.s else old(name)
      ensures r.Ok? ==> Valid()
    {
      r := CheckCustomerName(v);
      if r.Ok? {
        name := r.value;
      }
    }
  }

  /** `Customer(name)`: allocate, then run the `name` setter; raise what it raises. */
  method NewCustomer(name: Value) returns (r: Result<Customer>)
    ensures r.Ok? <==> CheckCustomerName(name).Ok?
    ensures r.Err? ==> r.error == CheckCustomerName(name).error
    ensures r.Ok? ==> fresh(r.value) && r.value.Valid() && r.value.name == name.s
  {
    var c := new Customer();
    var named := c.SetName(name);
    if named.Err? {
      return Err(named.error);
    }
    r := Ok(c);
  }

  /** A coffee. Its identity is the object itself; `name` is the `_name` field. */
  class Coffee {
    var name: string

    /** The coffee's invariant once `__init__` has returned: `NewCoffee` and a
        successful `SetName` establish it for callers. No operation of the model requires
        it, because the `Order` setters test only the object's class, never its name. */
    ghost predicate Valid()
      reads this
    {
      IsCoffeeName(name)
    }

    /** The freshly allocated object, before `__init__` has run the `name` setter. */
    constructor ()
      ensures name == ""
    {
      name := "";
    }

    /** The `name` setter: validates, then stores; on an error `_name` keeps its old value. */
    method SetName(v: Value) returns (r: Result<string>)
      modifies this
      ensures r == CheckCoffeeName(v)
      ensures name == if r.Ok? then v.s else old(name)
      ensures r.Ok? ==> Valid()
    {
      r := CheckCoffeeName(v);
      if r.Ok? {
        name := r.value;
      }
    }
  }

  /** `Coffee(name)`: allocate, then run the `name` setter; raise what it raises. */
  method NewCoffee(name: Value) returns (r: Result<Coffee>)
    ensures r.Ok? <==> CheckCoffeeName(name).Ok?
    ensures r.Err? ==> r.error == CheckCoffeeName(name).error
    ensures r.Ok? ==> fresh(r.value) && r.value.Valid() && r.value.name == name.s
  {
    var c := new Coffee();
    var named := c.SetName(name);
    if named.Err? {
      return Err(named.error);
    }
    r := Ok(c);
  }
}
