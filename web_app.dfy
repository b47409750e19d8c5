/** The calculator's request handler: it picks a library operation by name,
    applies it to the two operands and turns what the library does into the
    JSON reply. Routing, reading the request body and converting the operands
    with `float()` are not part of this model. */
module WebApp {
  import opened Calculator

  datatype Option<T> = None | Some(value: T)

  /** The reply body: `{'result': …}`, sent with status 200, or
      `{'error': …}`, sent with status 400. Every reply is exactly one. */
  datatype Reply = Result(result: real) | Error(error: string)

  /** The error reported for an operation name the handler does not know. */
  const InvalidOperationMessage: string := "Invalid operation"

  /** The names the handler recognises; matching is exact string equality. */
  const RecognisedNames: set<string> := {"add", "subtract", "multiply", "divide", "power"}

  /** The library's `power`, which the handler imports but the library does
      not define. Its behaviour is unknown, so it is a parameter: any function
      that returns a number or raises a `ValueError`. */
  type PowerFunction = (real, real) -> Outcome

  /** The kinds of operation, in the order in which the handler tests their
      names. */
  datatype Kind = Addition | Subtraction | Multiplication | Division | Exponentiation

  /** The operation name under which each kind is requested. */
  function Name(k: Kind): string
  {
    match k
    case Addition => "add"
    case Subtraction => "subtract"
    case Multiplication => "multiply"
    case Division => "divide"
    case Exponentiation => "power"
  }

  /** Every kind, in the handler's testing order. */
  const Kinds: seq<Kind> := [Addition, Subtraction, Multiplication, Division, Exponentiation]

  /** No kind in `ks` is named `name`. */
  predicate NoneNamed(ks: seq<Kind>, name: string)
  {
    forall k :: k in ks ==> Name(k) != name
  }

  /** The first kind in `ks` whose name is `name`, if any. */
  function Lookup(ks: seq<Kind>, name: string): (r: Option<Kind>)
    ensures r.Some? ==> r.value in ks && Name(r.value) == name
    ensures r.Some? ==> exists i :: 0 <= i < |ks| && ks[i] == r.value && NoneNamed(ks[..i], name)
    ensures r.None? <==> NoneNamed(ks, name)
  {
    if ks == [] then None
    else if Name(ks[0]) == name then
      assert ks[..0] == [];
      Some(ks[0])
    else
      var r := Lookup(ks[1..], name);
      if r.Some? then
        var i :| 0 <= i < |ks[1..]| && ks[1..][i] == r.value && NoneNamed(ks[1..][..i], name);
        assert ks[..i + 1] == [ks[0]] + ks[1..][..i];
        r
      else
        r
  }

  /** Different kinds have different names. */
  lemma NameInjective(k: Kind, l: Kind)
    ensures Name(k) == Name(l) ==> k == l
  {
  }

  /** The kind requested by an operation name: present exactly for the
      recognised names, and then the kind of that name. */
  function KindOf(name: string): (r: Option<Kind>)
    ensures r.Some? <==> name in RecognisedNames
    ensures r.Some? ==> Name(r.value) == name
  {
    Lookup(Kinds, name)
  }

  /** Each kind is found under its own name. */
  lemma KindFoundByName(k: Kind)
    ensures KindOf(Name(k)) == Some(k)
  {
    NameInjective(KindOf(Name(k)).value, k);
  }

  /** The library call that a kind stands for. The contract covers only
      which library kinds can fail; the values of the other kinds, and the
      `power` case, come from the body and are stated by `CalculateIsLookup`
      and `LibraryNamesCallLibrary`. */
  function Perform(k: Kind, a: real, b: real, power: PowerFunction): (r: Outcome)
    ensures k != Exponentiation ==> (r.Raised? <==> k == Division && b == 0.0)
    ensures k == Division && r.Raised? ==> r.message == DivideByZeroMessage
    ensures k == Division && r.Returned? ==> Multiply(r.value, b) == a
  {
    match k
    case Addition => Returned(Add(a, b))
    case Subtraction => Returned(Subtract(a, b))
    case Multiplication => Returned(Multiply(a, b))
    case Division => Divide(a, b)
    case Exponentiation => power(a, b)
  }

  /** A returned number becomes a result; a raised `ValueError` becomes an
      error carrying its message. */
  function ToReply(o: Outcome): (r: Reply)
    ensures r.Result? <==> o.Returned?
    ensures r.Result? ==> r.result == o.value
    ensures r.Error? ==> r.error == o.message
  {
    match o
    case Returned(v) => Result(v)
    case Raised(m) => Error(m)
  }

  /** The handler's dispatch: the operation named `operation` applied to
      `num1` and `num2`. An unknown name is refused; a `ValueError` from the
      library is reported with its message. */
  function Calculate(operation: string, num1: real, num2: real, power: PowerFunction): (r: Reply)
    ensures operation !in RecognisedNames ==> r == Error(InvalidOperationMessage)
    ensures r.Error? <==>
      operation !in RecognisedNames
      || (operation == "divide" && num2 == 0.0)
      || (operation == "power" && power(num1, num2).Raised?)
    ensures operation == "divide" && num2 == 0.0 ==> r == Error(DivideByZeroMessage)
    ensures operation == "divide" && r.Result? ==> Multiply(r.result, num2) == num1
  {
    if operation == "add" then Result(Add(num1, num2))
    else if operation == "subtract" then Result(Subtract(num1, num2))
    else if operation == "multiply" then Result(Multiply(num1, num2))
    else if operation == "divide" then ToReply(Divide(num1, num2))
    else if operation == "power" then ToReply(power(num1, num2))
    else Error(InvalidOperationMessage)
  }

  /** The chain of name tests is a first-match lookup in the table of kinds:
      an unknown name is refused, a known one performs its kind's call. */
  lemma CalculateIsLookup(operation: string, num1: real, num2: real, power: PowerFunction)
    ensures Calculate(operation, num1, num2, power) ==
      match KindOf(operation)
      case None => Error(InvalidOperationMessage)
      case Some(k) => ToReply(Perform(k, num1, num2, power))
  {
  }

  /** The four library names reply with exactly what the library function
      of that name does, whatever `power` is. */
  lemma LibraryNamesCallLibrary(num1: real, num2: real, power: PowerFunction)
    ensures Calculate("add", num1, num2, power) == Result(Add(num1, num2))
    ensures Calculate("subtract", num1, num2, power) == Result(Subtract(num1, num2))
    ensures Calculate("multiply", num1, num2, power) == Result(Multiply(num1, num2))
    ensures Calculate("divide", num1, num2, power) == ToReply(Divide(num1, num2))
  {
  }

  /** The unknown `power` can change only the reply to the name "power". */
  lemma OnlyPowerDependsOnPower(operation: string, num1: real, num2: real, p: PowerFunction, q: PowerFunction)
    requires operation != "power"
    ensures Calculate(operation, num1, num2, p) == Calculate(operation, num1, num2, q)
  {
  }

  /** Names are matched exactly. Every recognised name is spelt with the
      lower-case letters a to z only, so an empty name, or one with any other
      character (a capital in any script, as in "Add", a digit or a space), is
      refused as an invalid operation. */
  lemma NamesMatchExactly(operation: string, num1: real, num2: real, power: PowerFunction)
    requires operation == "" || exists i :: 0 <= i < |operation| && !('a' <= operation[i] <= 'z')
    ensures Calculate(operation, num1, num2, power) == Error(InvalidOperationMessage)
  {
  }

  /** Apart from "power", whose unknown errors could say anything, the error
      "Invalid operation" is given exactly for an unknown name. */
  lemma InvalidOperationMeansUnknownName(operation: string, num1: real, num2: real, power: PowerFunction)
    requires operation != "power"
    ensures Calculate(operation, num1, num2, power) == Error(InvalidOperationMessage)
      <==> operation !in RecognisedNames
  {
  }

  /** A quotient the handler replies with, multiplied back by the divisor
      through the handler, gives the dividend. */
  lemma DivideThenMultiplyRecovers(num1: real, num2: real, q: real, power: PowerFunction)
    requires Calculate("divide", num1, num2, power) == Result(q)
    ensures Calculate("multiply", q, num2, power) == Result(num1)
  {
  }
}
