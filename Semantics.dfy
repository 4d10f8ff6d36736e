/**
 * The calculator's behaviour as functions on its two stacks. Every step
 * returns the stacks it leaves behind, also when it fails: the program
 * signals failure by an exception thrown half-way through, and the stacks keep
 * whatever was popped or pushed before it.
 */
module Semantics {
  import opened Wrappers
  import opened Errors
  import opened Numbers
  import opened Operators

  /** The value stack and the operator stack of one calculator; the top of each is its last element. */
  datatype Stacks = Stacks(values: seq<real>, operators: seq<char>)

  /** The stacks of a freshly constructed calculator. */
  const Empty: Stacks := Stacks([], [])

  /** The result of a step of the scan: go on from `state`, or stop with `error`. */
  datatype Step = Next(state: Stacks) | Stuck(error: Error, state: Stacks)

  /** The result of a public operation that returns a number. */
  datatype Outcome = Done(value: real, state: Stacks) | Failed(error: Error, state: Stacks)
  {
    function ToResult(): Result<real, Error> {
      if Done? then Success(value) else Failure(error)
    }
  }

  function Last<T>(s: seq<T>): T
    requires s != []
  {
    s[|s| - 1]
  }

  function AllButLast<T>(s: seq<T>): seq<T>
    requires s != []
  {
    s[..|s| - 1]
  }

  /** A character the scan may leave on the operator stack. */
  predicate IsPending(c: char) {
    c == '(' || IsOperator(c)
  }

  /** What the scan guarantees about the operator stack: it only ever pushes '(' and the four operators. */
  predicate WellFormed(s: Stacks) {
    forall j :: 0 <= j < |s.operators| ==> IsPending(s.operators[j])
  }

  // ---------------------------------------------------------------------------
  // The public value-stack operations

  function Push(s: Stacks, v: real): Stacks {
    Stacks(s.values + [v], s.operators)
  }

  function Pop(s: Stacks): (r: Outcome)
    ensures r.Failed? <==> s.values == []
    ensures r.Failed? ==> r.error == EmptyStack && r.state == s
    ensures r.Done? ==> r.state.values + [r.value] == s.values && r.state.operators == s.operators
  {
    if s.values == [] then Failed(EmptyStack, s)
    else Done(Last(s.values), Stacks(AllButLast(s.values), s.operators))
  }

  function Peek(s: Stacks): (r: Outcome)
    ensures r.Failed? <==> s.values == []
    ensures r.Failed? ==> r.error == EmptyStack
    ensures r.state == s
    ensures r.Done? ==> r.value == s.values[|s.values| - 1]
  {
    if s.values == [] then Failed(EmptyStack, s) else Done(Last(s.values), s)
  }

  // ---------------------------------------------------------------------------
  // Evaluation

  /**
   * One reduction: pop the operator, pop the first operand `b` (the top) and
   * then the second operand `a`, and push `a op b`. A failed pop or a division
   * by zero ends the step with the pops made so far.
   */
  function ReduceTop(s: Stacks): (r: Step)
    requires s.operators != []
    ensures r.state.operators == AllButLast(s.operators)
    ensures r.Stuck? <==> |s.values| < 2 || (Last(s.operators) == '/' && Last(s.values) == 0.0)
    ensures r.Stuck? && |s.values| < 2 ==> r.error == EmptyStack && r.state.values == []
    ensures r.Stuck? && |s.values| >= 2 ==> r.error == DivisionByZero && r.state.values == s.values[..|s.values| - 2]
    ensures r.Next? ==> |r.state.values| + 1 == |s.values| && AllButLast(r.state.values) == s.values[..|s.values| - 2]
    ensures r.Next? ==> Success(Last(r.state.values)) == ApplyOperator(Last(s.operators), Last(s.values), s.values[|s.values| - 2])
    ensures WellFormed(s) ==> WellFormed(r.state)
  {
    var op := Last(s.operators);
    var operators := AllButLast(s.operators);
    if s.values == [] then Stuck(EmptyStack, Stacks([], operators))
    else
      var b := Last(s.values);
      var rest := AllButLast(s.values);
      if rest == [] then Stuck(EmptyStack, Stacks([], operators))
      else
        var a := Last(rest);
        var values := AllButLast(rest);
        var applied := ApplyOperator(op, b, a);
        if applied.Failure? then Stuck(applied.error, Stacks(values, operators))
        else Next(Stacks(values + [applied.value], operators))
  }

  /**
   * The handling of ')': reduce until the top of the operator stack is '(',
   * then discard it. Looking at the top of an empty operator stack fails.
   */
  function CloseParen(s: Stacks): (r: Step)
    decreases |s.operators|
    ensures '(' !in s.operators ==> r.Stuck?
    ensures r.Next? ==> var k := |r.state.operators|;
                          k < |s.operators| && s.operators[k] == '(' && r.state.operators == s.operators[..k]
                          && forall j :: k < j < |s.operators| ==> s.operators[j] != '('
    ensures WellFormed(s) ==> WellFormed(r.state)
  {
    if s.operators == [] then Stuck(EmptyStack, s)
    else if Last(s.operators) == '(' then Next(Stacks(s.values, AllButLast(s.operators)))
    else
      var st := ReduceTop(s);
      if st.Stuck? then st else CloseParen(st.state)
  }

  /**
   * The handling of an incoming operator before it is pushed: reduce while
   * the top of the operator stack takes precedence over it.
   */
  function ReduceWhilePrecedence(incoming: char, s: Stacks): (r: Step)
    decreases |s.operators|
    ensures r.Next? ==> r.state.operators == [] || !HasPrecedence(incoming, Last(r.state.operators))
    ensures r.Next? ==> var k := |r.state.operators|;
                          k <= |s.operators| && r.state.operators == s.operators[..k]
                          && forall j :: k <= j < |s.operators| ==> s.operators[j] == '*' || s.operators[j] == '/'
    ensures r.Next? && r.state != s ==> incoming == '+' || incoming == '-'
    ensures WellFormed(s) ==> WellFormed(r.state)
  {
    if s.operators != [] && HasPrecedence(incoming, Last(s.operators)) then
      var st := ReduceTop(s);
      if st.Stuck? then st else ReduceWhilePrecedence(incoming, st.state)
    else
      Next(s)
  }

  /** The end of the maximal run of digits and dots that starts at `i`. */
  function RunEnd(t: string, i: nat): (r: nat)
    requires i <= |t|
    decreases |t| - i
    ensures i <= r <= |t|
    ensures forall k :: i <= k < r ==> IsNumberChar(t[k])
    ensures r == |t| || !IsNumberChar(t[r])
  {
    if i < |t| && IsNumberChar(t[i]) then RunEnd(t, i + 1) else i
  }

  /** The left-to-right scan of `t` from position `i`. */
  function Scan(t: string, i: nat, s: Stacks): (r: Step)
    requires i <= |t|
    decreases |t| - i
    ensures WellFormed(s) ==> WellFormed(r.state)
  {
    if i == |t| then Next(s)
    else if t[i] == ' ' then Scan(t, i + 1, s)
    else if IsDigit(t[i]) then
      var j := RunEnd(t, i);
      var text := t[i..j];
      var number := ParseDecimal(text);
      if number.None? then Stuck(MalformedNumber(text), s)
      else Scan(t, j, Push(s, number.value))
    else if t[i] == '(' then
      Scan(t, i + 1, Stacks(s.values, s.operators + ['(']))
    else if t[i] == ')' then
      var st := CloseParen(s);
      if st.Stuck? then st else Scan(t, i + 1, st.state)
    else if IsOperator(t[i]) then
      var st := ReduceWhilePrecedence(t[i], s);
      if st.Stuck? then st else Scan(t, i + 1, Stacks(st.state.values, st.state.operators + [t[i]]))
    else
      Stuck(InvalidCharacter(t[i]), s)
  }

  /** After the scan: reduce until the operator stack is empty, whatever is on it. */
  function Drain(s: Stacks): (r: Step)
    decreases |s.operators|
    ensures r.Next? ==> r.state.operators == []
    ensures r.Next? ==> |r.state.values| + |s.operators| == |s.values|
    ensures r.Next? && s.operators != [] ==> r.state.values != []
    ensures WellFormed(s) ==> WellFormed(r.state)
  {
    if s.operators == [] then Next(s)
    else
      var st := ReduceTop(s);
      if st.Stuck? then st else Drain(st.state)
  }

  /** The end of an evaluation: after the drain, pop the top of the value stack as the result. */
  function PopResult(drained: Step): (r: Outcome)
    ensures drained.Next? && drained.state.values != [] <==> r.Done?
    ensures r.Done? ==> r.state.values + [r.value] == drained.state.values && r.state.operators == drained.state.operators
    ensures r.Failed? ==> r.state == drained.state
  {
    if drained.Stuck? then Failed(drained.error, drained.state)
    else if drained.state.values == [] then Failed(EmptyStack, drained.state)
    else Done(Last(drained.state.values), Stacks(AllButLast(drained.state.values), drained.state.operators))
  }

  /**
   * Evaluation of `t` on a calculator whose stacks are `s`: scan, drain,
   * and pop the top of the value stack as the result.
   */
  function Evaluate(t: string, s: Stacks): (r: Outcome)
    ensures r.Done? ==> r.state.operators == []
    ensures WellFormed(s) ==> WellFormed(r.state)
  {
    var scanned := Scan(t, 0, s);
    if scanned.Stuck? then Failed(scanned.error, scanned.state)
    else PopResult(Drain(scanned.state))
  }

  /** Validity by attempted evaluation on a fresh calculator. */
  predicate IsValid(t: string) {
    Evaluate(t, Empty).Done?
  }

  // ---------------------------------------------------------------------------
  // Properties

  /**
   * A character at `k` that no branch of the scan accepts there: one that is
   * not a space, digit, dot, parenthesis or operator, or a dot that does not
   * continue a run of digits and dots.
   */
  predicate Stray(t: string, k: nat)
    requires k < |t|
  {
    var c := t[k];
    (c != ' ' && !IsNumberChar(c) && c != '(' && c != ')' && !IsOperator(c))
    || (c == '.' && (k == 0 || !IsNumberChar(t[k - 1])))
  }

  lemma {:induction false} StrayStopsScan(t: string, i: nat, s: Stacks, k: nat)
    requires i <= k < |t| && Stray(t, k)
    decreases |t| - i
    ensures Scan(t, i, s).Stuck?
  {
    if i < k {
      if t[i] == ' ' {
        StrayStopsScan(t, i + 1, s, k);
      } else if IsDigit(t[i]) {
        var j := RunEnd(t, i);
        assert j <= k;
        var number := ParseDecimal(t[i..j]);
        if number.Some? {
          StrayStopsScan(t, j, Push(s, number.value), k);
        }
      } else if t[i] == '(' {
        StrayStopsScan(t, i + 1, Stacks(s.values, s.operators + ['(']), k);
      } else if t[i] == ')' {
        var st := CloseParen(s);
        if st.Next? {
          StrayStopsScan(t, i + 1, st.state, k);
        }
      } else if IsOperator(t[i]) {
        var st := ReduceWhilePrecedence(t[i], s);
        if st.Next? {
          StrayStopsScan(t, i + 1, Stacks(st.state.values, st.state.operators + [t[i]]), k);
        }
      }
    }
  }

  /** A stray character anywhere in the expression makes evaluation fail, whatever the stacks held. */
  lemma StrayCharacterFails(t: string, s: Stacks, k: nat)
    requires k < |t| && Stray(t, k)
    ensures Evaluate(t, s).Failed?
  {
    StrayStopsScan(t, 0, s, k);
  }

  /** A ')' met while no '(' is pending fails. */
  lemma UnmatchedCloseFails(t: string, i: nat, s: Stacks)
    requires i < |t| && t[i] == ')' && '(' !in s.operators
    ensures Scan(t, i, s).Stuck?
  {
  }

  /** Appending characters other than '(' adds no '('. */
  lemma AppendWithoutOpen(a: seq<char>, b: seq<char>)
    requires forall j :: 0 <= j < |b| ==> b[j] != '('
    ensures multiset(a + b)['('] == multiset(a)['(']
  {
    assert multiset(a + b) == multiset(a) + multiset(b);
    assert '(' !in b;
  }

  /** Cutting a stack just below a '(' with no other '(' above it removes one '('. */
  lemma CutAtOpen(ops: seq<char>, k: nat)
    requires k < |ops| && ops[k] == '('
    requires forall j :: k < j < |ops| ==> ops[j] != '('
    ensures multiset(ops[..k])['('] + 1 == multiset(ops)['(']
  {
    var above := ops[k + 1..];
    assert ops == (ops[..k] + ['(']) + above;
    forall j | 0 <= j < |above| ensures above[j] != '(' {
      assert above[j] == ops[k + 1 + j];
    }
    AppendWithoutOpen(ops[..k] + ['('], above);
    assert multiset(ops[..k] + ['(']) == multiset(ops[..k]) + multiset{'('};
  }

  /** Cutting off only '*' and '/' removes no '('. */
  lemma CutMultiplicative(ops: seq<char>, k: nat)
    requires k <= |ops|
    requires forall j :: k <= j < |ops| ==> ops[j] == '*' || ops[j] == '/'
    ensures multiset(ops[..k])['('] == multiset(ops)['(']
  {
    var removed := ops[k..];
    assert ops == ops[..k] + removed;
    forall j | 0 <= j < |removed| ensures removed[j] != '(' {
      assert removed[j] == ops[k + j];
    }
    AppendWithoutOpen(ops[..k], removed);
  }

  /** Closing a parenthesis takes exactly one '(' off the operator stack. */
  lemma CloseParenRemovesOne(s: Stacks)
    requires CloseParen(s).Next?
    ensures multiset(CloseParen(s).state.operators)['('] + 1 == multiset(s.operators)['(']
  {
    var ops := CloseParen(s).state.operators;
    CutAtOpen(s.operators, |ops|);
  }

  /** Reducing before an operator never takes a '(' off the operator stack. */
  lemma ReduceKeepsOpens(incoming: char, s: Stacks)
    requires ReduceWhilePrecedence(incoming, s).Next?
    ensures multiset(ReduceWhilePrecedence(incoming, s).state.operators)['('] == multiset(s.operators)['(']
  {
    var ops := ReduceWhilePrecedence(incoming, s).state.operators;
    CutMultiplicative(s.operators, |ops|);
  }

  /**
   * The scan from `i` stops at or before the ')' at `k` when that ')' has no
   * partner: the '(' pending on the operator stack and the '(' read before
   * `k` are at most as many as the ')' read before `k`.
   */
  lemma {:induction false} ExtraCloseStopsScan(t: string, i: nat, s: Stacks, k: nat)
    requires i <= k < |t| && t[k] == ')'
    requires multiset(s.operators)['('] + multiset(t[i..k])['('] <= multiset(t[i..k])[')']
    decreases k - i
    ensures Scan(t, i, s).Stuck?
  {
    if i == k {
      assert t[i..k] == [];
      assert '(' !in s.operators;
    } else if t[i] == ' ' {
      SliceFirst(t, i, k);
      ExtraCloseStopsScan(t, i + 1, s, k);
    } else if IsDigit(t[i]) {
      var j := RunEnd(t, i);
      assert j <= k;
      var number := ParseDecimal(t[i..j]);
      if number.Some? {
        RunHasNoParentheses(t, i, j, k);
        ExtraCloseStopsScan(t, j, Push(s, number.value), k);
      }
    } else if t[i] == '(' {
      SliceFirst(t, i, k);
      var next := Stacks(s.values, s.operators + ['(']);
      assert multiset(next.operators) == multiset(s.operators) + multiset{'('};
      ExtraCloseStopsScan(t, i + 1, next, k);
    } else if t[i] == ')' {
      var st := CloseParen(s);
      if st.Next? {
        SliceFirst(t, i, k);
        CloseParenRemovesOne(s);
        ExtraCloseStopsScan(t, i + 1, st.state, k);
      }
    } else if IsOperator(t[i]) {
      var st := ReduceWhilePrecedence(t[i], s);
      if st.Next? {
        SliceFirst(t, i, k);
        ReduceKeepsOpens(t[i], s);
        var next := Stacks(st.state.values, st.state.operators + [t[i]]);
        assert multiset(next.operators) == multiset(st.state.operators) + multiset{t[i]};
        ExtraCloseStopsScan(t, i + 1, next, k);
      }
    }
  }

  lemma SliceFirst(t: string, i: nat, k: nat)
    requires i < k <= |t|
    ensures multiset(t[i..k]) == multiset{t[i]} + multiset(t[i + 1..k])
  {
    assert t[i..k] == [t[i]] + t[i + 1..k];
  }

  /** A run of digits and dots holds no parenthesis, so skipping it leaves both counts as they were. */
  lemma RunHasNoParentheses(t: string, i: nat, j: nat, k: nat)
    requires i <= j <= k <= |t|
    requires forall m :: i <= m < j ==> IsNumberChar(t[m])
    ensures multiset(t[i..k])['('] == multiset(t[j..k])['(']
    ensures multiset(t[i..k])[')'] == multiset(t[j..k])[')']
  {
    var run := t[i..j];
    assert t[i..k] == run + t[j..k];
    assert forall m :: 0 <= m < |run| ==> run[m] == t[i + m];
    assert '(' !in run && ')' !in run;
  }

  /**
   * An expression with a ')' that closes no '(' fails: fewer '(' before it,
   * counting those a previous evaluation left pending, than ')'.
   */
  lemma ExtraCloseFails(t: string, s: Stacks, k: nat)
    requires k < |t| && t[k] == ')'
    requires multiset(s.operators)['('] + multiset(t[..k])['('] <= multiset(t[..k])[')']
    ensures Evaluate(t, s).Failed?
  {
    assert t[0..k] == t[..k];
    ExtraCloseStopsScan(t, 0, s, k);
  }

  /**
   * On stacks the scan can leave, the one pending entry that is not an
   * operator is '(', and applying it replaces the top two values with 0.
   */
  lemma PendingOpenYieldsZero(s: Stacks)
    requires WellFormed(s) && s.operators != [] && !IsOperator(Last(s.operators)) && |s.values| >= 2
    ensures Last(s.operators) == '('
    ensures ReduceTop(s) == Next(Stacks(s.values[..|s.values| - 2] + [0.0], AllButLast(s.operators)))
  {
    assert IsPending(s.operators[|s.operators| - 1]);
  }

  lemma PeekAfterPush(s: Stacks, v: real)
    ensures Peek(Push(s, v)) == Done(v, Push(s, v))
  {
  }

  lemma PopAfterPush(s: Stacks, v: real)
    ensures Pop(Push(s, v)) == Done(v, s)
  {
  }
}
