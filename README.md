# Two-stack infix calculator

A Dafny model of the class `Calculator` from
`src/main/java/org/example/Calculator.java`. It is an evaluator of infix arithmetic
expressions over `+ - * /` and parentheses. It uses two stacks that live in the
object:

- the value stack, whose methods `push`, `pop` and `peek` are public;
- the operator stack.

`evaluateExpression` scans the expression from left to right:

- A space is skipped.
- A digit starts a number. The number is the maximal run of digits and dots that follows.
- `(` is pushed.
- `)` applies pending operators down to the matching `(`.
- An operator first applies the pending operators that take precedence over it, then is pushed.
- Any other character fails.

At the end every pending operator is applied, and the top of the value stack is
popped as the result. `isValidExpression` evaluates on a fresh calculator and reports
whether that completed without an exception.

Modules:

- `Wrappers`: `Option` and `Result`.
- `Errors`: one constructor per way an evaluation can fail.
- `Numbers`: the digit/dot runs and their conversion to a number (`ParseDecimal`).
- `Operators`: `isOperator`, `hasPrecedence` and `applyOperator` as pure functions.
- `Semantics`: the whole behaviour as functions on a `Stacks` value (the two stacks, top last). Every step returns the stacks it leaves behind, also when it fails. An exception in the program leaves the stacks as far as the pops and pushes before it went, and the object may be used again afterwards.
- `Calc`: the class `Calculator`. Its fields are the two stacks, as sequences its methods replace. Each method, loop by loop, is proved equal to the function of `Semantics` that specifies it.
- `Scenarios`: The expressions of `src/test/java/CalculatorTest.java` evaluated step by step. It also has the code's edge cases, and the evaluation of an expression that is a single run of digits and dots.

### Where the code and its documentation differ

The model follows the code.

- The comment on `hasPrecedence` (Calculator.java:114-120) says it is true when its first argument has a precedence higher than or equal to its second. The first argument is the incoming operator (line 54), so the comment describes the opposite direction: an incoming operator at least as strong as the top. The code (121-126) instead reduces only when the top is `*` or `/` and the incoming operator is `+` or `-`, that is when the top is strictly stronger. Operators of one level therefore never reduce each other: `8 - 3 - 2` evaluates to `8 - (3 - 2) = 7` (`Scenarios.SameLevelDrainsRightToLeft`). In the same way `1/2*0` fails with division by zero, although `(1 / 2) * 0` is 0: the `*` is applied first and the `/` then divides by its product (`Scenarios.ProductDivisorFails`).
- Unbalanced parentheses are not detected as such.
  - An unclosed `(` reaches the final loop. That loop pops it and two values, and passes them to `applyOperator`, which yields 0. So `"(8 + 7"` fails only because the value stack runs out, and `"1 (2"` evaluates to 0.
  - A `)` with no `(` pending fails when the code looks at the top of the now empty operator stack, unless a reduction before that fails first: `"+ )"` runs out of values and `"1 / 0 )"` divides by zero. Either way an extra `)` makes the evaluation fail (`Semantics.ExtraCloseFails`), but on a calculator that still holds a `(` from an earlier failed call, that `(` is its partner.
- A leading `.` does not start a number; it is an invalid character.
- Nothing checks that exactly one value is left at the end: `"1 2"` returns 2 and 1 stays on the stack.
- The stacks are never cleared. Whatever a failed or unbalanced evaluation leaves takes part in the next one (`Scenarios.LeftoverValueIsUsed`).

## Model

| member | source | states |
|---|---|---|
| Numbers.ParseDecimal | src/main/java/org/example/Calculator.java:44 | a digit/dot run parses iff it has at most one dot and at least one digit; a run of digits alone denotes its decimal value; the value is never negative |
| Numbers.ParseNatRoundTrip | src/main/java/org/example/Calculator.java:44 | parsing the decimal numeral of any natural number gives back that number |
| Numbers.DecimalValueScaled | src/main/java/org/example/Calculator.java:44 | a literal with a dot denotes its digits without the dot, divided by ten to the number of digits after the dot |
| Operators.IsOperator | src/main/java/org/example/Calculator.java:110-112 | true exactly for `+ - * /`, the characters `Level` gives a positive level; none of them is a space, a parenthesis, a digit or a dot, so the scan's operator branch competes with no other |
| Operators.HasPrecedence | src/main/java/org/example/Calculator.java:121-126 | a parenthesis on top never takes precedence; only two operators can; between operators the top takes precedence exactly when its level is strictly higher than the incoming one's |
| Operators.ApplyOperator | src/main/java/org/example/Calculator.java:137-152 | fails exactly for `/` with a zero first operand, with a division-by-zero error; otherwise gives `a op b` with `b` the first popped operand (each case stated through its inverse); any other character gives 0 |
| Semantics.Pop | src/main/java/org/example/Calculator.java:98-103 | fails exactly on an empty value stack, with the stacks unchanged; otherwise the result put back on top restores the value stack, and the operators are untouched |
| Semantics.Peek | src/main/java/org/example/Calculator.java:76-81 | fails exactly on an empty value stack; returns the top otherwise; never changes the stacks |
| Semantics.ReduceTop | src/main/java/org/example/Calculator.java:50 | always removes the top operator; fails exactly when fewer than two values are left or the step is a division by a zero top value; an underflow leaves no values, a division by zero leaves the values below both operands; on success the two operands are replaced by `ApplyOperator(op, top, second)`; keeps the operator stack well-formed |
| Semantics.CloseParen | src/main/java/org/example/Calculator.java:48-52 | fails when no `(` is pending; on success the operator stack is cut just below the nearest `(`, and no `(` lay above it |
| Semantics.ReduceWhilePrecedence | src/main/java/org/example/Calculator.java:54-56 | on success the new top does not take precedence over the incoming operator, the operator stack is a prefix of the old one with only `*` and `/` removed, and anything changed only for an incoming `+` or `-` |
| Semantics.RunEnd | src/main/java/org/example/Calculator.java:41-43 | the end of the maximal run of digits and dots from the start position |
| Semantics.Scan | src/main/java/org/example/Calculator.java:34-61 | the scan only ever leaves `(` and operators on the operator stack |
| Semantics.Drain | src/main/java/org/example/Calculator.java:63-65 | on success no operator is pending and each applied operator consumed one value, so a non-empty operator stack leaves at least one value |
| Semantics.PopResult | src/main/java/org/example/Calculator.java:67 | the evaluation returns a value exactly when the drain succeeded and left a value; that value is the top, and a failure keeps the drained stacks |
| Semantics.Evaluate | src/main/java/org/example/Calculator.java:31-68 | a normal return leaves no operator pending; the operator stack stays well-formed |
| Semantics.StrayStopsScan | src/main/java/org/example/Calculator.java:34-61 | the scan from any earlier position stops at a character no branch accepts |
| Semantics.StrayCharacterFails | src/main/java/org/example/Calculator.java:58-59 | a character that is not a space, digit, parenthesis or operator, or a dot that does not continue a number, makes every evaluation fail, whatever the stacks held |
| Semantics.UnmatchedCloseFails | src/main/java/org/example/Calculator.java:49 | a `)` met with no `(` pending stops the scan |
| Semantics.CloseParenRemovesOne | src/main/java/org/example/Calculator.java:48-52 | a successful `)` takes exactly one `(` off the operator stack |
| Semantics.ReduceKeepsOpens | src/main/java/org/example/Calculator.java:54-56 | the reductions before an operator take no `(` off the operator stack |
| Semantics.ExtraCloseStopsScan | src/main/java/org/example/Calculator.java:34-61 | from any position, the scan stops at or before a `)` whose `(` count (pending ones plus those read) is at most the `)` read before it |
| Semantics.ExtraCloseFails | src/main/java/org/example/Calculator.java:48-52 | an expression with a `)` that closes no `(`, counting the `(` left pending by earlier calls, fails on any stacks |
| Semantics.PendingOpenYieldsZero | src/main/java/org/example/Calculator.java:151 | on stacks the scan can leave, the only pending entry that is not an operator is `(`, and applying it replaces the top two values with 0 |
| Semantics.PeekAfterPush | src/main/java/org/example/Calculator.java:76-90 | after `Semantics.Push`, `Peek` returns the pushed value and changes nothing |
| Semantics.PopAfterPush | src/main/java/org/example/Calculator.java:88-103 | after `Semantics.Push`, `Pop` returns the pushed value and restores the previous stacks |
| Calc.Calculator.constructor | src/main/java/org/example/Calculator.java:16-19 | a new calculator has both stacks empty |
| Calc.Calculator.Push | src/main/java/org/example/Calculator.java:88-90 | the new stacks are those of `Semantics.Push`: the value on top of the value stack, everything else unchanged |
| Calc.Calculator.Pop | src/main/java/org/example/Calculator.java:98-103 | result and new stacks are those of `Semantics.Pop` |
| Calc.Calculator.Peek | src/main/java/org/example/Calculator.java:76-81 | returns what `Semantics.Peek` returns: fails exactly on an empty value stack with the empty-stack error, else returns the top; changes nothing |
| Calc.Calculator.ApplyTopOperator | src/main/java/org/example/Calculator.java:50 | the pops and the push of one reduction leave the stacks and the error of `ReduceTop` |
| Calc.Calculator.ReadNumber | src/main/java/org/example/Calculator.java:40-43 | the loop stops at the end of the maximal digit/dot run and has collected exactly that run |
| Calc.Calculator.CloseParenthesis | src/main/java/org/example/Calculator.java:48-52 | the `)` loop has the outcome and the stacks of `CloseParen` |
| Calc.Calculator.ReduceBefore | src/main/java/org/example/Calculator.java:54-56 | the precedence loop has the outcome and the stacks of `ReduceWhilePrecedence` |
| Calc.Calculator.ApplyRemaining | src/main/java/org/example/Calculator.java:63-65 | the final loop has the outcome and the stacks of `Drain` |
| Calc.Calculator.EvaluateExpression | src/main/java/org/example/Calculator.java:31-68 | returns the result or the error of `Evaluate` on the stacks it started from, and leaves the stacks `Evaluate` leaves, failures included |
| Calc.Calculator.IsValidExpression | src/main/java/org/example/Calculator.java:160-168 | true exactly when `Semantics.IsValid` holds, that is when evaluation on a fresh calculator returns normally |
| Scenarios.NumberEvaluates | src/main/java/org/example/Calculator.java:39-45 | with no operator pending, an expression that is one run of digits and dots starting with a digit evaluates to the run's value when it is a decimal literal and leaves the stacks as they were; otherwise it fails on the malformed number with the stacks unchanged |
| Scenarios.NumeralEvaluates | src/main/java/org/example/Calculator.java:39-45 | with no operator pending, the numeral of any natural number evaluates to that number and leaves the stacks as they were |
| Scenarios.SevenPlusFour | src/test/java/CalculatorTest.java:25 | `"7 + 4"` gives 11 and leaves both stacks empty |
| Scenarios.FiveTimesSum | src/test/java/CalculatorTest.java:26 | `"5 * (3 + 2)"` gives 25 and leaves both stacks empty |
| Scenarios.DifferenceOverTwo | src/test/java/CalculatorTest.java:27 | `"(10 - 4) / 2"` gives 3 and leaves both stacks empty |
| Scenarios.TestEvaluateExpression | src/test/java/CalculatorTest.java:22-28 | the three evaluations on one calculator in turn, each starting from the empty stacks the previous one leaves |
| Scenarios.MixedPrecedence | src/test/java/CalculatorTest.java:9 | `"7 + 4 * (2 - 5)"` gives -5 |
| Scenarios.QuotientPlusThree | src/test/java/CalculatorTest.java:10 | `"(4 - 1) / 3 + 3"` gives 4 |
| Scenarios.MultiplicativeChain | src/test/java/CalculatorTest.java:11 | `"8 - 3 * (10 - 5) / 4"` gives 4.25 |
| Scenarios.TestValidExpression | src/test/java/CalculatorTest.java:8-12 | the three expressions are valid |
| Scenarios.DivisionByZeroFails | src/test/java/CalculatorTest.java:16 | `"5 / 0"` fails with division by zero, both stacks left empty |
| Scenarios.MissingOperandFails | src/test/java/CalculatorTest.java:17 | `"4 - * 5"` fails because the value stack runs out in the final loop |
| Scenarios.UnclosedParenthesisFails | src/test/java/CalculatorTest.java:18 | `"(8 + 7"` fails because the value stack runs out when the `(` is applied |
| Scenarios.TestInvalidExpression | src/test/java/CalculatorTest.java:15-19 | the three expressions are invalid |
| Scenarios.SameLevelDrainsRightToLeft | src/main/java/org/example/Calculator.java:121-126 | `"8 - 3 - 2"` gives 7 |
| Scenarios.LeftoverParenthesisYieldsZero | src/main/java/org/example/Calculator.java:151 | `"1 (2"` gives 0 |
| Scenarios.ExtraValueIsKept | src/main/java/org/example/Calculator.java:67 | `"1 2"` gives 2 and leaves 1 on the value stack |
| Scenarios.ProductDivisorFails | src/main/java/org/example/Calculator.java:121-126 | `"1/2*0"` fails with division by zero and leaves both stacks empty |
| Scenarios.DivisorZeroNotAlwaysApplied | src/main/java/org/example/Calculator.java:146-148 | `"1 / 0 2"` gives 0, leaving 1 on the value stack: the division takes 0 and 2 |
| Scenarios.UnmatchedCloseKeepsValue | src/main/java/org/example/Calculator.java:49 | `"1 )"` fails on the empty operator stack and leaves 1 on the value stack |
| Scenarios.LeftoverValueIsUsed | src/main/java/org/example/Calculator.java:10-11 | a value left on the stack is the first operand of the next evaluation: `"+ 2"` after a leftover 1 gives 3 |
| Scenarios.PushedValueIsOperand | src/main/java/org/example/Calculator.java:88-90 | a pushed 2 followed by `"* 3"` gives 6 |
| Scenarios.FractionLiteral | src/main/java/org/example/Calculator.java:44 | `"4.25"` converts to 4.25 |
| Scenarios.LeadingDotIsInvalid | src/main/java/org/example/Calculator.java:39 | `".5"` fails on the character `.` and leaves the stacks unchanged |
| Scenarios.EmptyExpressionFails | src/main/java/org/example/Calculator.java:67 | an empty expression on fresh stacks fails with the empty-stack error |

## Left out

- `Main.java` (console input and output) is not part of this model; it only calls `isValidExpression` and then `evaluateExpression`.
- Numbers are exact reals, not IEEE-754 doubles, so there is no rounding, overflow to infinity, NaN, and no distinction of `-0.0`. The division check is an exact comparison with 0.
- Numbers.ParseDecimal: `Double.parseDouble` is modelled only on the runs the scanner passes to it (digits and dots, starting with a digit). There it succeeds iff there is at most one dot. The rest of Java's floating-point grammar cannot reach it.
- Numbers.IsDigit: `Character.isDigit` also accepts non-ASCII Unicode digits, and the model does not. In the program such a digit joins the run being read, and `Double.parseDouble` then rejects the run before anything is pushed. The model ends the run before it, pushes the ASCII part and then fails on the invalid character. On `"1٣"` (U+0663) the program leaves the value stack as it was, while the model leaves 1 on it. Both fail, but with different errors and different stacks, and so a later `peek`, `pop` or evaluation on the same calculator can differ.
- The Java exception classes are collapsed into the `Errors.Error` datatype. The one empty-stack error stands for both the calculator's `IllegalStateException` and the `EmptyStackException` of `java.util.Stack`. Messages are not modelled.
- The copy of the expression into a `char[]` (Calculator.java:32) is a plain sequence binding, and the for loop's index adjustments (`i++` inside the digit loop, `i--` after it) are written as setting the index to the end of the run.
