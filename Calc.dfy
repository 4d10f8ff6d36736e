/**
 * The calculator object: a value stack and an operator stack that its methods
 * update in place, and that persist from one call to the next, failed calls
 * included.
 */
module Calc {
  import opened Wrappers
  import opened Errors
  import opened Numbers
  import opened Operators
  import opened Semantics

  class Calculator {
    var values: seq<real>
    var operators: seq<char>

    function State(): Stacks
      reads this
    {
      Stacks(values, operators)
    }

    constructor ()
      ensures State() == Empty
    {
      values := [];
      operators := [];
    }

    method Push(value: real)
      modifies this
      ensures State() == Semantics.Push(old(State()), value)
    {
      values := values + [value];
    }

    method Pop() returns (r: Result<real, Error>)
      modifies this
      ensures r == Semantics.Pop(old(State())).ToResult()
      ensures State() == Semantics.Pop(old(State())).state
    {
      if values == [] {
        return Failure(EmptyStack);
      }
      r := Success(values[|values| - 1]);
      values := values[..|values| - 1];
    }

    method Peek() returns (r: Result<real, Error>)
      ensures r == Semantics.Peek(State()).ToResult()
      ensures r.Failure? <==> values == []
      ensures r.Failure? ==> r.error == EmptyStack
      ensures r.Success? ==> r.value == values[|values| - 1]
    {
      if values == [] {
        return Failure(EmptyStack);
      }
      r := Success(values[|values| - 1]);
    }

    /** The reduction the evaluation performs on '(', on an incoming operator and at the end. */
    method ApplyTopOperator() returns (failure: Option<Error>)
      requires operators != []
      modifies this
      ensures failure.None? <==> ReduceTop(old(State())).Next?
      ensures failure.Some? ==> failure.value == ReduceTop(old(State())).error
      ensures State() == ReduceTop(old(State())).state
    {
      var op := operators[|operators| - 1];
      operators := operators[..|operators| - 1];
      if values == [] {
        return Some(EmptyStack);
      }
      var b := values[|values| - 1];
      values := values[..|values| - 1];
      if values == [] {
        return Some(EmptyStack);
      }
      var a := values[|values| - 1];
      values := values[..|values| - 1];
      var applied := ApplyOperator(op, b, a);
      if applied.Failure? {
        return Some(applied.error);
      }
      values := values + [applied.value];
      failure := None;
    }

    /** The digit loop of the scan: collects the maximal run of digits and dots from `start`. */
    static method ReadNumber(tokens: string, start: nat) returns (i: nat, sb: string)
      requires start <= |tokens|
      ensures i == RunEnd(tokens, start) && sb == tokens[start..i]
    {
      i, sb := start, "";
      while i < |tokens| && IsNumberChar(tokens[i])
        invariant start <= i <= |tokens|
        invariant sb == tokens[start..i]
        invariant RunEnd(tokens, i) == RunEnd(tokens, start)
        decreases |tokens| - i
      {
        sb := sb + [tokens[i]];
        i := i + 1;
      }
    }

    /** The ')' branch of the scan: reduce down to the pending '(' and discard it. */
    method CloseParenthesis() returns (failure: Option<Error>)
      modifies this
      ensures failure.None? <==> CloseParen(old(State())).Next?
      ensures failure.Some? ==> failure.value == CloseParen(old(State())).error
      ensures State() == CloseParen(old(State())).state
    {
      while true
        invariant CloseParen(State()) == CloseParen(old(State()))
        decreases |operators|
      {
        if operators == [] {
          return Some(EmptyStack);
        }
        if operators[|operators| - 1] == '(' {
          break;
        }
        failure := ApplyTopOperator();
        if failure.Some? {
          return;
        }
      }
      operators := operators[..|operators| - 1];
      failure := None;
    }

    /** The operator branch of the scan, before `incoming` is pushed. */
    method ReduceBefore(incoming: char) returns (failure: Option<Error>)
      modifies this
      ensures failure.None? <==> ReduceWhilePrecedence(incoming, old(State())).Next?
      ensures failure.Some? ==> failure.value == ReduceWhilePrecedence(incoming, old(State())).error
      ensures State() == ReduceWhilePrecedence(incoming, old(State())).state
    {
      while operators != [] && HasPrecedence(incoming, operators[|operators| - 1])
        invariant ReduceWhilePrecedence(incoming, State()) == ReduceWhilePrecedence(incoming, old(State()))
        decreases |operators|
      {
        failure := ApplyTopOperator();
        if failure.Some? {
          return;
        }
      }
      failure := None;
    }

    /** The loop after the scan: apply every operator still pending. */
    method ApplyRemaining() returns (failure: Option<Error>)
      modifies this
      ensures failure.None? <==> Drain(old(State())).Next?
      ensures failure.Some? ==> failure.value == Drain(old(State())).error
      ensures State() == Drain(old(State())).state
    {
      while operators != []
        invariant Drain(State()) == Drain(old(State()))
        decreases |operators|
      {
        failure := ApplyTopOperator();
        if failure.Some? {
          return;
        }
      }
      failure := None;
    }

    method EvaluateExpression(expression: string) returns (r: Result<real, Error>)
      modifies this
      ensures r == Evaluate(expression, old(State())).ToResult()
      ensures State() == Evaluate(expression, old(State())).state
    {
      var tokens := expression;
      var i := 0;
      while i < |tokens|
        invariant i <= |tokens|
        invariant Scan(tokens, i, State()) == Scan(tokens, 0, old(State()))
        decreases |tokens| - i
      {
        if tokens[i] == ' ' {
          i := i + 1;
          continue;
        }
        ghost var before := State();
        if IsDigit(tokens[i]) {
          var sb;
          ghost var start := i;
          i, sb := ReadNumber(tokens, i);
          var number := ParseDecimal(sb);
          if number.None? {
            assert Scan(tokens, start, before) == Stuck(MalformedNumber(sb), before);
            return Failure(MalformedNumber(sb));
          }
          values := values + [number.value];
          assert Scan(tokens, start, before) == Scan(tokens, i, State());
        } else if tokens[i] == '(' {
          operators := operators + ['('];
          i := i + 1;
        } else if tokens[i] == ')' {
          var failure := CloseParenthesis();
          if failure.Some? {
            return Failure(failure.value);
          }
          i := i + 1;
        } else if IsOperator(tokens[i]) {
          var failure := ReduceBefore(tokens[i]);
          if failure.Some? {
            return Failure(failure.value);
          }
          operators := operators + [tokens[i]];
          i := i + 1;
        } else {
          return Failure(InvalidCharacter(tokens[i]));
        }
      }
      var failure := ApplyRemaining();
      if failure.Some? {
        return Failure(failure.value);
      }
      if values == [] {
        return Failure(EmptyStack);
      }
      r := Success(values[|values| - 1]);
      values := values[..|values| - 1];
    }

    /** Whether evaluating `expression` on a fresh calculator completes without failure. */
    static method IsValidExpression(expression: string) returns (valid: bool)
      ensures valid <==> IsValid(expression)
    {
      var calculator := new Calculator();
      var r := calculator.EvaluateExpression(expression);
      valid := r.Success?;
    }
  }
}
