# Calculator: arithmetic library and request dispatch

This project models a small calculator in Dafny. It has two parts:

- **The arithmetic library** (`calculator.py`, module `Calculator` in `calculator.dfy`). It has four operations. `add`, `subtract` and `multiply` always return a number. `divide` raises a `ValueError` with the message "Cannot divide by zero" when the divisor is zero; otherwise it returns the true quotient. Operands are exact `real`s. A library call's result is an `Outcome`: `Returned(value)`, or `Raised(message)` for a raised `ValueError`.
- **The request handler's dispatch** (`web_app/app.py`, the body of `calculate`, module `WebApp` in `web_app.dfy`). It takes an operation name and two operands and produces a `Reply`. The reply is `Result(result)`, which the handler sends as `{'result': …}` with status 200, or `Error(error)`, which it sends as `{'error': …}` with status 400. The handler tests the name against "add", "subtract", "multiply", "divide" and "power", in that order, using exact string equality. Any other name gives "Invalid operation". A `ValueError` from the library becomes an error that carries the library's message.

`calculate` also calls `power`, imported at `web_app/app.py:4`. `calculator.py` does not define `power`, so as written the import fails. The test module has the same problem: `test_calculator.py:2` imports `power` too. This model does not invent a `power`. The handler takes it as a parameter (`WebApp.PowerFunction`): any function that returns a number or raises a `ValueError`. Every property below holds whatever that function does. `OnlyPowerDependsOnPower` shows that the unknown function affects only the reply to the name "power".

The handler's chain of name tests has a reference definition. `Kinds` is the ordered table of operation kinds. `Lookup` is a first-match search of that table. `CalculateIsLookup` proves that the chain and the table lookup agree on every input.

## Model

| member | source | states |
|---|---|---|
| `Calculator.Add` | calculator.py:1-3 | Never raises. The result is the sum: taking either operand away from it leaves the other. Its properties are stated by `AddCommutes` and `SubtractUndoesAdd`. |
| `Calculator.Subtract` | calculator.py:5-7 | Never raises. The result is what must be added to `b` to reach `a`. Its properties are stated by `SubtractAntisymmetric` and `SubtractUndoesAdd`. |
| `Calculator.Multiply` | calculator.py:9-11 | Never raises. The product is zero exactly when an operand is zero, and dividing it by a non-zero operand gives the other operand back. `DivideUndoesMultiply` ties it to `Divide`. |
| `Calculator.Divide` | calculator.py:13-17 | Fails exactly when the divisor is zero, with the message "Cannot divide by zero". Otherwise it returns the number that, multiplied by the divisor, gives back the dividend. |
| `Calculator.AddCommutes` | calculator.py:1-3 | `add(a, b) == add(b, a)` for all reals. |
| `Calculator.SubtractAntisymmetric` | calculator.py:5-7 | `subtract(a, b) == -subtract(b, a)` for all reals. |
| `Calculator.SubtractUndoesAdd` | calculator.py:1-7 | Subtracting `b` undoes adding `b`, and adding `b` undoes subtracting `b`. |
| `Calculator.QuotientCharacterised` | calculator.py:13-17 | `divide(a, b)` returns `q` if and only if `b != 0` and `q * b == a`. So the quotient is unique, and there is none for a zero divisor. |
| `Calculator.DivideUndoesMultiply` | calculator.py:9-17 | Dividing by a non-zero `b` gives back what was multiplied by `b`. |
| `Calculator.UnitTestCases` | test_calculator.py:5-20 | The concrete add, subtract, multiply and divide cases the unit tests assert, including that `divide(5, 0)` raises. |
| `WebApp.Lookup` | web_app/app.py:22-33 | First-match search by name. The kind it finds is in the table and carries that name. Every earlier entry has a different name. It finds nothing exactly when no entry has the name. |
| `WebApp.KindOf` | web_app/app.py:22-33 | A name selects a kind exactly when it is one of the five recognised names, and the selected kind carries that name. |
| `WebApp.NameInjective` | web_app/app.py:22-31 | Two different kinds never share a name. |
| `WebApp.KindFoundByName` | web_app/app.py:22-31 | Each kind's own name selects that kind. |
| `WebApp.Perform` | web_app/app.py:22-31 | Of the four library kinds, only division can fail, and only on a zero divisor, with "Cannot divide by zero". A quotient times the divisor gives the dividend. The values of the other kinds come from the body and are stated by `CalculateIsLookup` and `LibraryNamesCallLibrary`. |
| `WebApp.ToReply` | web_app/app.py:35-37 | A returned number becomes the result reply carrying that number. A raised `ValueError` becomes an error reply carrying its message, as `str(e)` gives it. |
| `WebApp.Calculate` | web_app/app.py:21-37 | An unknown name gives "Invalid operation". The reply is an error exactly when the name is unknown, or the name is "divide" with a zero divisor, or the name is "power" and `power` raises. "divide" by zero gives "Cannot divide by zero". A "divide" result times the divisor gives the dividend. There is no precondition, so every input gets exactly one reply. |
| `WebApp.CalculateIsLookup` | web_app/app.py:21-37 | For every input, the chain of name tests equals the table definition: an unknown name is refused, and a known name replies with its kind's library call. |
| `WebApp.LibraryNamesCallLibrary` | web_app/app.py:22-29 | "add", "subtract", "multiply" and "divide" reply with exactly what the library function of that name does, for every `power`. |
| `WebApp.OnlyPowerDependsOnPower` | web_app/app.py:30-31 | For any name other than "power", the reply is the same whichever `power` function is supplied. |
| `WebApp.NamesMatchExactly` | web_app/app.py:22-33 | The empty name is refused with "Invalid operation". So is any name that contains a character other than the lower-case letters a to z, which are all the recognised names use: a capital in any script, as in "Add", a digit or a space. |
| `WebApp.InvalidOperationMeansUnknownName` | web_app/app.py:32-37 | For names other than "power", the reply is "Invalid operation" if and only if the name is not recognised. |
| `WebApp.DivideThenMultiplyRecovers` | web_app/app.py:26-29 | Send a quotient from "divide" back through "multiply" with the same divisor, and the reply is the original dividend. |

## Left out

- `power`: `calculator.py` does not define it, so it is a parameter and no behaviour is specified for it. The `power` test cases (`test_calculator.py:22-26`) are not modelled.
- The module-load failure caused by the missing `power` import is not modelled. The model assumes the handler can be loaded with some `power`.
- Exceptions other than `ValueError` that `power` might raise: the handler does not catch them, so they would escape as a server error. `Outcome` carries only returned values and `ValueError`s.
- Floating-point behaviour: operands are exact reals. Rounding, overflow to infinity, NaN and signed zero are not modelled. Nor is the `float()` conversion of the request's operands.
- Flask plumbing: the `/` route and template rendering, reading `request.json` and its keys, building JSON responses, `app.run`, and the `sys.path` change. These are I/O glue. The HTTP status is implied by the reply's constructor: 200 for `Result`, 400 for `Error`.
- The `__main__` demo in `calculator.py`, which only prints example results.
- The unittest harness. Its assertions appear only as `Calculator.UnitTestCases`.
