/** The stateless helpers of the calculator: operator test, precedence test and operator application. */
module Operators {
  import opened Wrappers
  import opened Errors
  import opened Numbers

  /**
   * The four arithmetic operators. None of them is a space, a parenthesis or
   * part of a number, so the scan's operator branch never competes with another.
   */
  predicate IsOperator(c: char)
    ensures IsOperator(c) ==> c != ' ' && c != '(' && c != ')' && !IsNumberChar(c)
  {
    c == '+' || c == '-' || c == '*' || c == '/'
  }

  /** Binding strength of an arithmetic operator; 0 for any other character. */
  function Level(c: char): (n: nat)
    ensures IsOperator(c) <==> n > 0
  {
    if c == '*' || c == '/' then 2 else if c == '+' || c == '-' then 1 else 0
  }

  /**
   * Whether the operator on top of the operator stack is applied before
   * `incoming` is pushed. Only a strictly stronger top forces this, so two
   * operators of the same level never reduce each other, and a parenthesis
   * on top never does.
   */
  function HasPrecedence(incoming: char, top: char): (r: bool)
    ensures top == '(' || top == ')' ==> !r
    ensures r ==> IsOperator(incoming) && IsOperator(top)
    ensures IsOperator(incoming) && IsOperator(top) ==> (r <==> Level(top) > Level(incoming))
  {
    if top == '(' || top == ')' then false
    else (top == '*' || top == '/') && (incoming == '+' || incoming == '-')
  }

  /**
   * Applies `operator` to the second operand `a` and the first (top) operand
   * `b`, in the argument order of the program: the first value popped is `b`.
   * Any character that is not an arithmetic operator yields 0.
   */
  function ApplyOperator(operator: char, b: real, a: real): (r: Result<real, Error>)
    ensures r.Failure? <==> operator == '/' && b == 0.0
    ensures r.Failure? ==> r.error == DivisionByZero
    ensures r.Success? && operator == '+' ==> r.value - b == a
    ensures r.Success? && operator == '-' ==> r.value + b == a
    ensures r.Success? && operator == '*' ==> r.value == a * b
    ensures r.Success? && operator == '/' ==> r.value * b == a
    ensures !IsOperator(operator) ==> r == Success(0.0)
  {
    match operator
    case '+' => Success(a + b)
    case '-' => Success(a - b)
    case '*' => Success(a * b)
    case '/' => if b == 0.0 then Failure(DivisionByZero) else Success(a / b)
    case _ => Success(0.0)
  }
}
