# Kotlin study snippets: joiner, user validation, range predicates

A Dafny model of the three pieces of pure logic in this Kotlin study repository:

- `joinToString` (`src/main/kotlin/function/function.kt`). It writes a prefix into a
  StringBuilder, then writes the elements in collection order, putting the separator
  before every element except the first. Last it writes the postfix. The separator
  defaults to `", "`, the prefix to `"["` and the postfix to `"]"`. The Kotlin default
  and named parameters become Dafny default parameter values and named arguments. A
  positional call such as `JoinToString(c, "{", "}")` binds its arguments the same way
  Kotlin does. Elements are modelled as their already-converted text (`seq<string>`).
  Module `Joiner`, file `joiner.dfy`.
- The user validation (`src/main/kotlin/function/localFunction.kt`). Three entry points
  do the same check: `saveUser` with its local `validate`, the extension function
  `User.validateBeforeSave`, and `saveUser2`, which delegates to the extension. The
  check tests `name` and then `address` for emptiness. It throws on the first empty
  field, and the exception names the user id and the field. Here the exception is a
  `Fail(ValidationError(userId, fieldName))` outcome and normal completion is `Pass`.
  The local functions become lambdas that capture the user, and the extension
  function becomes a member function of the `User` datatype. Module `Validation`, file
  `validation.dfy`.
- `isLetter`, `isNumber` and `isNotDigit` (`src/main/kotlin/Main.kt`). Each is an
  inclusive range check. Each is related to a reference alphabet that is spelled out
  character by character, or to its boundary values. Module `Predicates`, file
  `predicates.dfy`.

Kotlin's `Long` and `Int` are the newtypes `Validation.Long` (64-bit) and
`Predicates.Int32` (32-bit). Neither model does arithmetic on them, so wrap-around
never arises.

The reference for `joinToString` is `Joiner.Joined`. It is right-recursive: the first
element, then a separator, then the rest joined. The model of the source's loop,
`Joiner.BuilderAfter`, is left-recursive: the builder after the earlier elements, then
the element at `index`, preceded by a separator when `index > 0`. Relating the two
takes the append law `Joiner.JoinedAppend`.

## Model

| member | source | states |
|---|---|---|
| Joiner.JoinToString | src/main/kotlin/function/function.kt:16-31 | The result is the prefix, then the elements joined by the separator, then the postfix. An empty collection gives exactly prefix + postfix, and a single element x gives prefix + x + postfix with no separator. The result starts with the prefix and ends with the postfix. Its length is the prefix, postfix and element lengths plus (n-1) separator lengths for n > 0 elements. |
| Joiner.BuilderAfter | src/main/kotlin/function/function.kt:22-27 | After the loop has visited a run of elements, the StringBuilder holds the prefix followed by those elements joined by the separator. The separator is added only when index > 0. |
| Joiner.JoinedAppend | src/main/kotlin/function/function.kt:24-27 | Append law: for a non-empty collection s, the joined text of s + [x] is the joined text of s, then one separator, then x. |
| Joiner.JoinedLength | src/main/kotlin/function/function.kt:24-27 | The joined body is as long as the sum of the element lengths plus one separator length per element after the first. |
| Joiner.JoinedPlacement | src/main/kotlin/function/function.kt:24-27 | Element i of the joined body starts at the offset formed by the earlier elements and their separators, and it is preceded by exactly one separator when i > 0. |
| Joiner.ElementsInOrder | src/main/kotlin/function/function.kt:22-29 | In the full result, each element i sits right after the prefix and the earlier elements and separators. So the elements appear in collection order, and each one after the first follows a separator. |
| Joiner.DefaultsExample | src/main/kotlin/function/function.kt:10 | With every default, the collection 1, 2, 3 gives `[1, 2, 3]`. |
| Joiner.SeparatorExample | src/main/kotlin/function/function.kt:11 | With separator `" - "`, the collection gives `[1 - 2 - 3]`. |
| Joiner.NamedArgumentsExample | src/main/kotlin/function/function.kt:12 | With named prefix `{` and postfix `}`, the collection gives `{1, 2, 3}`. |
| Joiner.PositionalArgumentsExample | src/main/kotlin/function/function.kt:13 | The positional arguments `"{"` and `"}"` bind the separator and the prefix, so the collection gives `}1{2{3]`. |
| Validation.SaveUser | src/main/kotlin/function/localFunction.kt:5-17 | Validation passes exactly when both name and address are non-empty, whatever the id. An empty name fails on field "name" even when the address is also empty. A non-empty name with an empty address fails on field "address". Every failure carries the user's id. |
| Validation.User.ValidateBeforeSave | src/main/kotlin/function/localFunction.kt:19-29 | The extension function gives the same outcome as `saveUser` for every user. |
| Validation.SaveUser2 | src/main/kotlin/function/localFunction.kt:31-33 | `saveUser2` gives the same outcome as `saveUser` for every user. |
| Validation.FirstEmpty | src/main/kotlin/function/localFunction.kt:13-14 | Reference for an ordered validator: it returns the index of the first field whose value is empty, or the field count when none is. Every field before that index is non-empty. |
| Validation.SaveUserReportsFirstEmpty | src/main/kotlin/function/localFunction.kt:6-14 | `saveUser` fails exactly on the first empty field in check order (name, then address), reporting the user's id with it. It passes when no checked field is empty. |
| Predicates.IsLetterIsAlphabet | src/main/kotlin/Main.kt:21 | `isLetter` holds exactly for the 26 lower-case and 26 upper-case ASCII letters, with both bounds included. |
| Predicates.IsNumberBounds | src/main/kotlin/Main.kt:22 | The range of `isNumber` is inclusive at both ends: 1 and 100 pass, and 0 and 101 do not. |
| Predicates.IsNotDigitIsNotInDigits | src/main/kotlin/Main.kt:23 | `isNotDigit` fails exactly for the ten ASCII decimal digits '0'..'9'. |
| Predicates.LetterIsNotDigit | src/main/kotlin/Main.kt:21-23 | Every character accepted by `isLetter` is also accepted by `isNotDigit`. |

## Left out

- The `main` functions and their `println` calls (`Main.kt:8-9`, `function.kt:5-14`) only print to the console. Their four `joinToString` calls appear as the example lemmas.
- `readNumber` (`Main.kt:11-19`) reads a line, calls the library `Integer.parseInt` and prints in a `finally` block. It is I/O only, and its result is discarded.
- Converting an element of type `T` to text (`StringBuilder.append(Any?)`, `toString`) is library code. Elements are taken as their text, so a conversion failure is not modelled.
- The input collection is a Dafny `seq`, an immutable value. That it is only read, and that two calls on the same arguments give the same string, hold by construction, so no separate lemma states them.
- The exception type and the Korean message text, including the decimal rendering of the id, are not modelled. The outcome carries the id and the field name the message reports.
- The database save in `saveUser` (`localFunction.kt:16`) is only a comment in the source.
- `printCollection` (`function.kt:33-35`) has an empty body. The unused `map` (`function.kt:8`) and the unused `Test` data class (`Main.kt:25`) have no behaviour.
- Predicates.IsLetterIsAlphabet: Kotlin's `Char` is a UTF-16 code unit, while Dafny's `char` is a Unicode scalar value. Lone surrogate code units therefore cannot be represented. The source's comparisons would treat them as non-letters and non-digits.
