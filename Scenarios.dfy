/** Concrete evaluations: the program's own test cases and the edge cases of the code as written. */
module Scenarios {
  import opened Wrappers
  import opened Errors
  import opened Numbers
  import opened Operators
  import opened Semantics

  // ---------------------------------------------------------------------------
  // One step of the scan at a time

  lemma {:induction false} RunEndOver(t: string, i: nat, j: nat)
    requires i <= j <= |t|
    requires forall k :: i <= k < j ==> IsNumberChar(t[k])
    requires j == |t| || !IsNumberChar(t[j])
    decreases j - i
    ensures RunEnd(t, i) == j
  {
    if i < j {
      RunEndOver(t, i + 1, j);
    }
  }

  /** The scan reads the decimal numeral of `n` from `i` to `j` and pushes `n`. */
  lemma ScanNumber(t: string, i: nat, j: nat, s: Stacks, n: nat, next: Stacks)
    requires j == i + |NatToDigits(n)| <= |t| && t[i..j] == NatToDigits(n)
    requires j == |t| || !IsNumberChar(t[j])
    requires next == Push(s, n as real)
    ensures Scan(t, i, s) == Scan(t, j, next)
  {
    var digits := NatToDigits(n);
    DigitsOfNat(n);
    ParseNatRoundTrip(n);
    assert forall k :: i <= k < j ==> t[k] == digits[k - i];
    RunEndOver(t, i, j);
    assert IsDigit(t[i]);
  }

  lemma ScanSpace(t: string, i: nat, s: Stacks)
    requires i < |t| && t[i] == ' '
    ensures Scan(t, i, s) == Scan(t, i + 1, s)
  {
  }

  lemma ScanOpen(t: string, i: nat, s: Stacks, next: Stacks)
    requires i < |t| && t[i] == '('
    requires next == Stacks(s.values, s.operators + ['('])
    ensures Scan(t, i, s) == Scan(t, i + 1, next)
  {
  }

  lemma ScanClose(t: string, i: nat, s: Stacks, next: Stacks)
    requires i < |t| && t[i] == ')' && CloseParen(s) == Next(next)
    ensures Scan(t, i, s) == Scan(t, i + 1, next)
  {
  }

  /** A ')' right after one pending operator above the '(': one reduction, then the '(' goes. */
  lemma ScanCloseAfterOne(t: string, i: nat, s: Stacks, reduced: Stacks, next: Stacks)
    requires i < |t| && t[i] == ')'
    requires s.operators != [] && Last(s.operators) != '(' && ReduceTop(s) == Next(reduced)
    requires reduced.operators != [] && Last(reduced.operators) == '('
    requires next == Stacks(reduced.values, AllButLast(reduced.operators))
    ensures Scan(t, i, s) == Scan(t, i + 1, next)
  {
    assert CloseParen(reduced) == Next(next);
  }

  lemma ScanOperator(t: string, i: nat, s: Stacks, next: Stacks)
    requires i < |t| && IsOperator(t[i]) && ReduceWhilePrecedence(t[i], s).Next?
    requires var reduced := ReduceWhilePrecedence(t[i], s).state;
             next == Stacks(reduced.values, reduced.operators + [t[i]])
    ensures Scan(t, i, s) == Scan(t, i + 1, next)
  {
  }

  /** An operator that takes precedence over the top pending one: one reduction, then the push. */
  lemma ScanOperatorAfterOne(t: string, i: nat, s: Stacks, reduced: Stacks, next: Stacks)
    requires i < |t| && IsOperator(t[i])
    requires s.operators != [] && HasPrecedence(t[i], Last(s.operators)) && ReduceTop(s) == Next(reduced)
    requires reduced.operators == [] || !HasPrecedence(t[i], Last(reduced.operators))
    requires next == Stacks(reduced.values, reduced.operators + [t[i]])
    ensures Scan(t, i, s) == Scan(t, i + 1, next)
  {
    assert ReduceWhilePrecedence(t[i], reduced) == Next(reduced);
  }

  lemma DrainStep(s: Stacks, reduced: Stacks)
    requires s.operators != [] && ReduceTop(s) == Next(reduced)
    ensures Drain(s) == Drain(reduced)
  {
  }

  lemma ScanEnd(t: string, s: Stacks)
    ensures Scan(t, |t|, s) == Next(s)
  {
  }


  /**
   * An expression that is one run of digits and dots, starting with a digit:
   * with no operator pending it evaluates to the run's value when the run is
   * a decimal literal, and otherwise fails on the malformed number with the
   * stacks unchanged.
   */
  lemma NumberEvaluates(t: string, s: Stacks)
    requires 0 < |t| && IsDigit(t[0]) && AllNumberChars(t) && s.operators == []
    ensures IsDecimalLiteral(t) ==> Evaluate(t, s) == Done(ParseDecimal(t).value, s)
    ensures !IsDecimalLiteral(t) ==> Evaluate(t, s) == Failed(MalformedNumber(t), s)
  {
    RunEndOver(t, 0, |t|);
    assert t[0..|t|] == t;
    if IsDecimalLiteral(t) {
      var next := Push(s, ParseDecimal(t).value);
      assert Scan(t, 0, s) == Scan(t, |t|, next);
      assert Scan(t, |t|, next) == Next(next);
      assert Drain(next) == Next(next);
      assert AllButLast(next.values) == s.values;
    }
  }

  /**
   * With no operator pending, the decimal numeral of any natural number
   * evaluates to that number and leaves the stacks as they were.
   */
  lemma NumeralEvaluates(n: nat, s: Stacks)
    requires s.operators == []
    ensures Evaluate(NatToDigits(n), s) == Done(n as real, s)
  {
    var t := NatToDigits(n);
    ScanNumber(t, 0, |t|, s, n, Push(s, n as real));
    ScanEnd(t, Push(s, n as real));
  }
  // ---------------------------------------------------------------------------
  // Whole evaluations. The expression is a parameter equal to its text. A short
  // scan is followed in one calculation; a long one one step per lemma, so that
  // each proof stays small.
  lemma SevenPlusFourScan(t: string)
    requires t == "7 + 4"
    ensures Scan(t, 0, Empty) == Next(Stacks([7.0, 4.0], ['+']))
  {
    calc {
      Scan(t, 0, Empty);
    == { ScanNumber(t, 0, 1, Empty, 7, Stacks([7.0], [])); }
      Scan(t, 1, Stacks([7.0], []));
    == { ScanSpace(t, 1, Stacks([7.0], [])); }
      Scan(t, 2, Stacks([7.0], []));
    == { ScanOperator(t, 2, Stacks([7.0], []), Stacks([7.0], ['+'])); }
      Scan(t, 3, Stacks([7.0], ['+']));
    == { ScanSpace(t, 3, Stacks([7.0], ['+'])); }
      Scan(t, 4, Stacks([7.0], ['+']));
    == { ScanNumber(t, 4, 5, Stacks([7.0], ['+']), 4, Stacks([7.0, 4.0], ['+'])); }
      Scan(t, 5, Stacks([7.0, 4.0], ['+']));
    == { ScanEnd(t, Stacks([7.0, 4.0], ['+'])); }
      Next(Stacks([7.0, 4.0], ['+']));
    }
  }

  lemma SevenPlusFourDrain()
    ensures Drain(Stacks([7.0, 4.0], ['+'])) == Next(Stacks([11.0], []))
  {
    calc {
      Drain(Stacks([7.0, 4.0], ['+']));
    == { assert ReduceTop(Stacks([7.0, 4.0], ['+'])) == Next(Stacks([11.0], [])); DrainStep(Stacks([7.0, 4.0], ['+']), Stacks([11.0], [])); }
      Drain(Stacks([11.0], []));
    ==
      Next(Stacks([11.0], []));
    }
  }

  /** The first evaluation of the reused calculator in CalculatorTest. */
  lemma SevenPlusFour(t: string)
    requires t == "7 + 4"
    ensures Evaluate(t, Empty) == Done(11.0, Empty)
  {
    SevenPlusFourScan(t);
    SevenPlusFourDrain();
  }

  lemma FiveTimesSumScan1(t: string)
    requires t == "5 * (3 + 2)"
    ensures Scan(t, 0, Empty) == Scan(t, 1, Stacks([5.0], []))
  {
    ScanNumber(t, 0, 1, Empty, 5, Stacks([5.0], []));
  }

  lemma FiveTimesSumScan2(t: string)
    requires t == "5 * (3 + 2)"
    ensures Scan(t, 1, Stacks([5.0], [])) == Scan(t, 2, Stacks([5.0], []))
  {
    ScanSpace(t, 1, Stacks([5.0], []));
  }

  lemma FiveTimesSumScan3(t: string)
    requires t == "5 * (3 + 2)"
    ensures Scan(t, 2, Stacks([5.0], [])) == Scan(t, 3, Stacks([5.0], ['*']))
  {
    ScanOperator(t, 2, Stacks([5.0], []), Stacks([5.0], ['*']));
  }

  lemma FiveTimesSumScan4(t: string)
    requires t == "5 * (3 + 2)"
    ensures Scan(t, 3, Stacks([5.0], ['*'])) == Scan(t, 4, Stacks([5.0], ['*']))
  {
    ScanSpace(t, 3, Stacks([5.0], ['*']));
  }

  lemma FiveTimesSumScan5(t: string)
    requires t == "5 * (3 + 2)"
    ensures Scan(t, 4, Stacks([5.0], ['*'])) == Scan(t, 5, Stacks([5.0], ['*', '(']))
  {
    ScanOpen(t, 4, Stacks([5.0], ['*']), Stacks([5.0], ['*', '(']));
  }

  lemma FiveTimesSumScan6(t: string)
    requires t == "5 * (3 + 2)"
    ensures Scan(t, 5, Stacks([5.0], ['*', '('])) == Scan(t, 6, Stacks([5.0, 3.0], ['*', '(']))
  {
    ScanNumber(t, 5, 6, Stacks([5.0], ['*', '(']), 3, Stacks([5.0, 3.0], ['*', '(']));
  }

  lemma FiveTimesSumScan7(t: string)
    requires t == "5 * (3 + 2)"
    ensures Scan(t, 6, Stacks([5.0, 3.0], ['*', '('])) == Scan(t, 7, Stacks([5.0, 3.0], ['*', '(']))
  {
    ScanSpace(t, 6, Stacks([5.0, 3.0], ['*', '(']));
  }

  lemma FiveTimesSumScan8(t: string)
    requires t == "5 * (3 + 2)"
    ensures Scan(t, 7, Stacks([5.0, 3.0], ['*', '('])) == Scan(t, 8, Stacks([5.0, 3.0], ['*', '(', '+']))
  {
    ScanOperator(t, 7, Stacks([5.0, 3.0], ['*', '(']), Stacks([5.0, 3.0], ['*', '(', '+']));
  }

  lemma FiveTimesSumScan9(t: string)
    requires t == "5 * (3 + 2)"
    ensures Scan(t, 8, Stacks([5.0, 3.0], ['*', '(', '+'])) == Scan(t, 9, Stacks([5.0, 3.0], ['*', '(', '+']))
  {
    ScanSpace(t, 8, Stacks([5.0, 3.0], ['*', '(', '+']));
  }

  lemma FiveTimesSumScan10(t: string)
    requires t == "5 * (3 + 2)"
    ensures Scan(t, 9, Stacks([5.0, 3.0], ['*', '(', '+'])) == Scan(t, 10, Stacks([5.0, 3.0, 2.0], ['*', '(', '+']))
  {
    ScanNumber(t, 9, 10, Stacks([5.0, 3.0], ['*', '(', '+']), 2, Stacks([5.0, 3.0, 2.0], ['*', '(', '+']));
  }

  lemma FiveTimesSumScan11(t: string)
    requires t == "5 * (3 + 2)"
    ensures Scan(t, 10, Stacks([5.0, 3.0, 2.0], ['*', '(', '+'])) == Scan(t, 11, Stacks([5.0, 5.0], ['*']))
  {
    assert t[10] == ')';
    assert ReduceTop(Stacks([5.0, 3.0, 2.0], ['*', '(', '+'])) == Next(Stacks([5.0, 5.0], ['*', '(']));
    ScanCloseAfterOne(t, 10, Stacks([5.0, 3.0, 2.0], ['*', '(', '+']), Stacks([5.0, 5.0], ['*', '(']), Stacks([5.0, 5.0], ['*']));
  }

  lemma FiveTimesSumScan12(t: string)
    requires t == "5 * (3 + 2)"
    ensures Scan(t, 11, Stacks([5.0, 5.0], ['*'])) == Next(Stacks([5.0, 5.0], ['*']))
  {
    ScanEnd(t, Stacks([5.0, 5.0], ['*']));
  }

  lemma FiveTimesSumScan(t: string)
    requires t == "5 * (3 + 2)"
    ensures Scan(t, 0, Empty) == Next(Stacks([5.0, 5.0], ['*']))
  {
    FiveTimesSumScan1(t);
    FiveTimesSumScan2(t);
    FiveTimesSumScan3(t);
    FiveTimesSumScan4(t);
    FiveTimesSumScan5(t);
    FiveTimesSumScan6(t);
    FiveTimesSumScan7(t);
    FiveTimesSumScan8(t);
    FiveTimesSumScan9(t);
    FiveTimesSumScan10(t);
    FiveTimesSumScan11(t);
    FiveTimesSumScan12(t);
  }

  lemma FiveTimesSumDrain()
    ensures Drain(Stacks([5.0, 5.0], ['*'])) == Next(Stacks([25.0], []))
  {
    calc {
      Drain(Stacks([5.0, 5.0], ['*']));
    == { assert ReduceTop(Stacks([5.0, 5.0], ['*'])) == Next(Stacks([25.0], [])); DrainStep(Stacks([5.0, 5.0], ['*']), Stacks([25.0], [])); }
      Drain(Stacks([25.0], []));
    ==
      Next(Stacks([25.0], []));
    }
  }

  /** The second evaluation of the reused calculator in CalculatorTest. */
  lemma FiveTimesSum(t: string)
    requires t == "5 * (3 + 2)"
    ensures Evaluate(t, Empty) == Done(25.0, Empty)
  {
    FiveTimesSumScan(t);
    FiveTimesSumDrain();
  }

  lemma DifferenceOverTwoScan1(t: string)
    requires t == "(10 - 4) / 2"
    ensures Scan(t, 0, Empty) == Scan(t, 1, Stacks([], ['(']))
  {
    ScanOpen(t, 0, Empty, Stacks([], ['(']));
  }

  lemma DifferenceOverTwoScan2(t: string)
    requires t == "(10 - 4) / 2"
    ensures Scan(t, 1, Stacks([], ['('])) == Scan(t, 3, Stacks([10.0], ['(']))
  {
    ScanNumber(t, 1, 3, Stacks([], ['(']), 10, Stacks([10.0], ['(']));
  }

  lemma DifferenceOverTwoScan3(t: string)
    requires t == "(10 - 4) / 2"
    ensures Scan(t, 3, Stacks([10.0], ['('])) == Scan(t, 4, Stacks([10.0], ['(']))
  {
    ScanSpace(t, 3, Stacks([10.0], ['(']));
  }

  lemma DifferenceOverTwoScan4(t: string)
    requires t == "(10 - 4) / 2"
    ensures Scan(t, 4, Stacks([10.0], ['('])) == Scan(t, 5, Stacks([10.0], ['(', '-']))
  {
    ScanOperator(t, 4, Stacks([10.0], ['(']), Stacks([10.0], ['(', '-']));
  }

  lemma DifferenceOverTwoScan5(t: string)
    requires t == "(10 - 4) / 2"
    ensures Scan(t, 5, Stacks([10.0], ['(', '-'])) == Scan(t, 6, Stacks([10.0], ['(', '-']))
  {
    ScanSpace(t, 5, Stacks([10.0], ['(', '-']));
  }

  lemma DifferenceOverTwoScan6(t: string)
    requires t == "(10 - 4) / 2"
    ensures Scan(t, 6, Stacks([10.0], ['(', '-'])) == Scan(t, 7, Stacks([10.0, 4.0], ['(', '-']))
  {
    ScanNumber(t, 6, 7, Stacks([10.0], ['(', '-']), 4, Stacks([10.0, 4.0], ['(', '-']));
  }

  lemma DifferenceOverTwoScan7(t: string)
    requires t == "(10 - 4) / 2"
    ensures Scan(t, 7, Stacks([10.0, 4.0], ['(', '-'])) == Scan(t, 8, Stacks([6.0], []))
  {
    assert t[7] == ')';
    assert ReduceTop(Stacks([10.0, 4.0], ['(', '-'])) == Next(Stacks([6.0], ['(']));
    ScanCloseAfterOne(t, 7, Stacks([10.0, 4.0], ['(', '-']), Stacks([6.0], ['(']), Stacks([6.0], []));
  }

  lemma DifferenceOverTwoScan8(t: string)
    requires t == "(10 - 4) / 2"
    ensures Scan(t, 8, Stacks([6.0], [])) == Scan(t, 9, Stacks([6.0], []))
  {
    ScanSpace(t, 8, Stacks([6.0], []));
  }

  lemma DifferenceOverTwoScan9(t: string)
    requires t == "(10 - 4) / 2"
    ensures Scan(t, 9, Stacks([6.0], [])) == Scan(t, 10, Stacks([6.0], ['/']))
  {
    ScanOperator(t, 9, Stacks([6.0], []), Stacks([6.0], ['/']));
  }

  lemma DifferenceOverTwoScan10(t: string)
    requires t == "(10 - 4) / 2"
    ensures Scan(t, 10, Stacks([6.0], ['/'])) == Scan(t, 11, Stacks([6.0], ['/']))
  {
    ScanSpace(t, 10, Stacks([6.0], ['/']));
  }

  lemma DifferenceOverTwoScan11(t: string)
    requires t == "(10 - 4) / 2"
    ensures Scan(t, 11, Stacks([6.0], ['/'])) == Scan(t, 12, Stacks([6.0, 2.0], ['/']))
  {
    ScanNumber(t, 11, 12, Stacks([6.0], ['/']), 2, Stacks([6.0, 2.0], ['/']));
  }

  lemma DifferenceOverTwoScan12(t: string)
    requires t == "(10 - 4) / 2"
    ensures Scan(t, 12, Stacks([6.0, 2.0], ['/'])) == Next(Stacks([6.0, 2.0], ['/']))
  {
    ScanEnd(t, Stacks([6.0, 2.0], ['/']));
  }

  lemma DifferenceOverTwoScan(t: string)
    requires t == "(10 - 4) / 2"
    ensures Scan(t, 0, Empty) == Next(Stacks([6.0, 2.0], ['/']))
  {
    DifferenceOverTwoScan1(t);
    DifferenceOverTwoScan2(t);
    DifferenceOverTwoScan3(t);
    DifferenceOverTwoScan4(t);
    DifferenceOverTwoScan5(t);
    DifferenceOverTwoScan6(t);
    DifferenceOverTwoScan7(t);
    DifferenceOverTwoScan8(t);
    DifferenceOverTwoScan9(t);
    DifferenceOverTwoScan10(t);
    DifferenceOverTwoScan11(t);
    DifferenceOverTwoScan12(t);
  }

  lemma DifferenceOverTwoDrain()
    ensures Drain(Stacks([6.0, 2.0], ['/'])) == Next(Stacks([3.0], []))
  {
    calc {
      Drain(Stacks([6.0, 2.0], ['/']));
    == { assert ReduceTop(Stacks([6.0, 2.0], ['/'])) == Next(Stacks([3.0], [])); DrainStep(Stacks([6.0, 2.0], ['/']), Stacks([3.0], [])); }
      Drain(Stacks([3.0], []));
    ==
      Next(Stacks([3.0], []));
    }
  }

  /** The third evaluation of the reused calculator in CalculatorTest. */
  lemma DifferenceOverTwo(t: string)
    requires t == "(10 - 4) / 2"
    ensures Evaluate(t, Empty) == Done(3.0, Empty)
  {
    DifferenceOverTwoScan(t);
    DifferenceOverTwoDrain();
  }

  lemma MixedPrecedenceScan1(t: string)
    requires t == "7 + 4 * (2 - 5)"
    ensures Scan(t, 0, Empty) == Scan(t, 1, Stacks([7.0], []))
  {
    ScanNumber(t, 0, 1, Empty, 7, Stacks([7.0], []));
  }

  lemma MixedPrecedenceScan2(t: string)
    requires t == "7 + 4 * (2 - 5)"
    ensures Scan(t, 1, Stacks([7.0], [])) == Scan(t, 2, Stacks([7.0], []))
  {
    ScanSpace(t, 1, Stacks([7.0], []));
  }

  lemma MixedPrecedenceScan3(t: string)
    requires t == "7 + 4 * (2 - 5)"
    ensures Scan(t, 2, Stacks([7.0], [])) == Scan(t, 3, Stacks([7.0], ['+']))
  {
    ScanOperator(t, 2, Stacks([7.0], []), Stacks([7.0], ['+']));
  }

  lemma MixedPrecedenceScan4(t: string)
    requires t == "7 + 4 * (2 - 5)"
    ensures Scan(t, 3, Stacks([7.0], ['+'])) == Scan(t, 4, Stacks([7.0], ['+']))
  {
    ScanSpace(t, 3, Stacks([7.0], ['+']));
  }

  lemma MixedPrecedenceScan5(t: string)
    requires t == "7 + 4 * (2 - 5)"
    ensures Scan(t, 4, Stacks([7.0], ['+'])) == Scan(t, 5, Stacks([7.0, 4.0], ['+']))
  {
    ScanNumber(t, 4, 5, Stacks([7.0], ['+']), 4, Stacks([7.0, 4.0], ['+']));
  }

  lemma MixedPrecedenceScan6(t: string)
    requires t == "7 + 4 * (2 - 5)"
    ensures Scan(t, 5, Stacks([7.0, 4.0], ['+'])) == Scan(t, 6, Stacks([7.0, 4.0], ['+']))
  {
    ScanSpace(t, 5, Stacks([7.0, 4.0], ['+']));
  }

  lemma MixedPrecedenceScan7(t: string)
    requires t == "7 + 4 * (2 - 5)"
    ensures Scan(t, 6, Stacks([7.0, 4.0], ['+'])) == Scan(t, 7, Stacks([7.0, 4.0], ['+', '*']))
  {
    ScanOperator(t, 6, Stacks([7.0, 4.0], ['+']), Stacks([7.0, 4.0], ['+', '*']));
  }

  lemma MixedPrecedenceScan8(t: string)
    requires t == "7 + 4 * (2 - 5)"
    ensures Scan(t, 7, Stacks([7.0, 4.0], ['+', '*'])) == Scan(t, 8, Stacks([7.0, 4.0], ['+', '*']))
  {
    ScanSpace(t, 7, Stacks([7.0, 4.0], ['+', '*']));
  }

  lemma MixedPrecedenceScan9(t: string)
    requires t == "7 + 4 * (2 - 5)"
    ensures Scan(t, 8, Stacks([7.0, 4.0], ['+', '*'])) == Scan(t, 9, Stacks([7.0, 4.0], ['+', '*', '(']))
  {
    ScanOpen(t, 8, Stacks([7.0, 4.0], ['+', '*']), Stacks([7.0, 4.0], ['+', '*', '(']));
  }

  lemma MixedPrecedenceScan10(t: string)
    requires t == "7 + 4 * (2 - 5)"
    ensures Scan(t, 9, Stacks([7.0, 4.0], ['+', '*', '('])) == Scan(t, 10, Stacks([7.0, 4.0, 2.0], ['+', '*', '(']))
  {
    ScanNumber(t, 9, 10, Stacks([7.0, 4.0], ['+', '*', '(']), 2, Stacks([7.0, 4.0, 2.0], ['+', '*', '(']));
  }

  lemma MixedPrecedenceScan11(t: string)
    requires t == "7 + 4 * (2 - 5)"
    ensures Scan(t, 10, Stacks([7.0, 4.0, 2.0], ['+', '*', '('])) == Scan(t, 11, Stacks([7.0, 4.0, 2.0], ['+', '*', '(']))
  {
    ScanSpace(t, 10, Stacks([7.0, 4.0, 2.0], ['+', '*', '(']));
  }

  lemma MixedPrecedenceScan12(t: string)
    requires t == "7 + 4 * (2 - 5)"
    ensures Scan(t, 11, Stacks([7.0, 4.0, 2.0], ['+', '*', '('])) == Scan(t, 12, Stacks([7.0, 4.0, 2.0], ['+', '*', '(', '-']))
  {
    ScanOperator(t, 11, Stacks([7.0, 4.0, 2.0], ['+', '*', '(']), Stacks([7.0, 4.0, 2.0], ['+', '*', '(', '-']));
  }

  lemma MixedPrecedenceScan13(t: string)
    requires t == "7 + 4 * (2 - 5)"
    ensures Scan(t, 12, Stacks([7.0, 4.0, 2.0], ['+', '*', '(', '-'])) == Scan(t, 13, Stacks([7.0, 4.0, 2.0], ['+', '*', '(', '-']))
  {
    ScanSpace(t, 12, Stacks([7.0, 4.0, 2.0], ['+', '*', '(', '-']));
  }

  lemma MixedPrecedenceScan14(t: string)
    requires t == "7 + 4 * (2 - 5)"
    ensures Scan(t, 13, Stacks([7.0, 4.0, 2.0], ['+', '*', '(', '-'])) == Scan(t, 14, Stacks([7.0, 4.0, 2.0, 5.0], ['+', '*', '(', '-']))
  {
    ScanNumber(t, 13, 14, Stacks([7.0, 4.0, 2.0], ['+', '*', '(', '-']), 5, Stacks([7.0, 4.0, 2.0, 5.0], ['+', '*', '(', '-']));
  }

  lemma MixedPrecedenceScan15(t: string)
    requires t == "7 + 4 * (2 - 5)"
    ensures Scan(t, 14, Stacks([7.0, 4.0, 2.0, 5.0], ['+', '*', '(', '-'])) == Scan(t, 15, Stacks([7.0, 4.0, -3.0], ['+', '*']))
  {
    assert t[14] == ')';
    assert ReduceTop(Stacks([7.0, 4.0, 2.0, 5.0], ['+', '*', '(', '-'])) == Next(Stacks([7.0, 4.0, -3.0], ['+', '*', '(']));
    ScanCloseAfterOne(t, 14, Stacks([7.0, 4.0, 2.0, 5.0], ['+', '*', '(', '-']), Stacks([7.0, 4.0, -3.0], ['+', '*', '(']), Stacks([7.0, 4.0, -3.0], ['+', '*']));
  }

  lemma MixedPrecedenceScan16(t: string)
    requires t == "7 + 4 * (2 - 5)"
    ensures Scan(t, 15, Stacks([7.0, 4.0, -3.0], ['+', '*'])) == Next(Stacks([7.0, 4.0, -3.0], ['+', '*']))
  {
    ScanEnd(t, Stacks([7.0, 4.0, -3.0], ['+', '*']));
  }

  lemma MixedPrecedenceScan(t: string)
    requires t == "7 + 4 * (2 - 5)"
    ensures Scan(t, 0, Empty) == Next(Stacks([7.0, 4.0, -3.0], ['+', '*']))
  {
    MixedPrecedenceScan1(t);
    MixedPrecedenceScan2(t);
    MixedPrecedenceScan3(t);
    MixedPrecedenceScan4(t);
    MixedPrecedenceScan5(t);
    MixedPrecedenceScan6(t);
    MixedPrecedenceScan7(t);
    MixedPrecedenceScan8(t);
    MixedPrecedenceScan9(t);
    MixedPrecedenceScan10(t);
    MixedPrecedenceScan11(t);
    MixedPrecedenceScan12(t);
    MixedPrecedenceScan13(t);
    MixedPrecedenceScan14(t);
    MixedPrecedenceScan15(t);
    MixedPrecedenceScan16(t);
  }

  lemma MixedPrecedenceDrain()
    ensures Drain(Stacks([7.0, 4.0, -3.0], ['+', '*'])) == Next(Stacks([-5.0], []))
  {
    calc {
      Drain(Stacks([7.0, 4.0, -3.0], ['+', '*']));
    == { assert ReduceTop(Stacks([7.0, 4.0, -3.0], ['+', '*'])) == Next(Stacks([7.0, -12.0], ['+'])); DrainStep(Stacks([7.0, 4.0, -3.0], ['+', '*']), Stacks([7.0, -12.0], ['+'])); }
      Drain(Stacks([7.0, -12.0], ['+']));
    == { assert ReduceTop(Stacks([7.0, -12.0], ['+'])) == Next(Stacks([-5.0], [])); DrainStep(Stacks([7.0, -12.0], ['+']), Stacks([-5.0], [])); }
      Drain(Stacks([-5.0], []));
    ==
      Next(Stacks([-5.0], []));
    }
  }

  /** A valid expression of CalculatorTest mixing both levels and parentheses. */
  lemma MixedPrecedence(t: string)
    requires t == "7 + 4 * (2 - 5)"
    ensures Evaluate(t, Empty) == Done(-5.0, Empty)
  {
    MixedPrecedenceScan(t);
    MixedPrecedenceDrain();
  }

  lemma QuotientPlusThreeScan1(t: string)
    requires t == "(4 - 1) / 3 + 3"
    ensures Scan(t, 0, Empty) == Scan(t, 1, Stacks([], ['(']))
  {
    ScanOpen(t, 0, Empty, Stacks([], ['(']));
  }

  lemma QuotientPlusThreeScan2(t: string)
    requires t == "(4 - 1) / 3 + 3"
    ensures Scan(t, 1, Stacks([], ['('])) == Scan(t, 2, Stacks([4.0], ['(']))
  {
    ScanNumber(t, 1, 2, Stacks([], ['(']), 4, Stacks([4.0], ['(']));
  }

  lemma QuotientPlusThreeScan3(t: string)
    requires t == "(4 - 1) / 3 + 3"
    ensures Scan(t, 2, Stacks([4.0], ['('])) == Scan(t, 3, Stacks([4.0], ['(']))
  {
    ScanSpace(t, 2, Stacks([4.0], ['(']));
  }

  lemma QuotientPlusThreeScan4(t: string)
    requires t == "(4 - 1) / 3 + 3"
    ensures Scan(t, 3, Stacks([4.0], ['('])) == Scan(t, 4, Stacks([4.0], ['(', '-']))
  {
    ScanOperator(t, 3, Stacks([4.0], ['(']), Stacks([4.0], ['(', '-']));
  }

  lemma QuotientPlusThreeScan5(t: string)
    requires t == "(4 - 1) / 3 + 3"
    ensures Scan(t, 4, Stacks([4.0], ['(', '-'])) == Scan(t, 5, Stacks([4.0], ['(', '-']))
  {
    ScanSpace(t, 4, Stacks([4.0], ['(', '-']));
  }

  lemma QuotientPlusThreeScan6(t: string)
    requires t == "(4 - 1) / 3 + 3"
    ensures Scan(t, 5, Stacks([4.0], ['(', '-'])) == Scan(t, 6, Stacks([4.0, 1.0], ['(', '-']))
  {
    ScanNumber(t, 5, 6, Stacks([4.0], ['(', '-']), 1, Stacks([4.0, 1.0], ['(', '-']));
  }

  lemma QuotientPlusThreeScan7(t: string)
    requires t == "(4 - 1) / 3 + 3"
    ensures Scan(t, 6, Stacks([4.0, 1.0], ['(', '-'])) == Scan(t, 7, Stacks([3.0], []))
  {
    assert t[6] == ')';
    assert ReduceTop(Stacks([4.0, 1.0], ['(', '-'])) == Next(Stacks([3.0], ['(']));
    ScanCloseAfterOne(t, 6, Stacks([4.0, 1.0], ['(', '-']), Stacks([3.0], ['(']), Stacks([3.0], []));
  }

  lemma QuotientPlusThreeScan8(t: string)
    requires t == "(4 - 1) / 3 + 3"
    ensures Scan(t, 7, Stacks([3.0], [])) == Scan(t, 8, Stacks([3.0], []))
  {
    ScanSpace(t, 7, Stacks([3.0], []));
  }

  lemma QuotientPlusThreeScan9(t: string)
    requires t == "(4 - 1) / 3 + 3"
    ensures Scan(t, 8, Stacks([3.0], [])) == Scan(t, 9, Stacks([3.0], ['/']))
  {
    ScanOperator(t, 8, Stacks([3.0], []), Stacks([3.0], ['/']));
  }

  lemma QuotientPlusThreeScan10(t: string)
    requires t == "(4 - 1) / 3 + 3"
    ensures Scan(t, 9, Stacks([3.0], ['/'])) == Scan(t, 10, Stacks([3.0], ['/']))
  {
    ScanSpace(t, 9, Stacks([3.0], ['/']));
  }

  lemma QuotientPlusThreeScan11(t: string)
    requires t == "(4 - 1) / 3 + 3"
    ensures Scan(t, 10, Stacks([3.0], ['/'])) == Scan(t, 11, Stacks([3.0, 3.0], ['/']))
  {
    ScanNumber(t, 10, 11, Stacks([3.0], ['/']), 3, Stacks([3.0, 3.0], ['/']));
  }

  lemma QuotientPlusThreeScan12(t: string)
    requires t == "(4 - 1) / 3 + 3"
    ensures Scan(t, 11, Stacks([3.0, 3.0], ['/'])) == Scan(t, 12, Stacks([3.0, 3.0], ['/']))
  {
    ScanSpace(t, 11, Stacks([3.0, 3.0], ['/']));
  }

  lemma QuotientPlusThreeScan13(t: string)
    requires t == "(4 - 1) / 3 + 3"
    ensures Scan(t, 12, Stacks([3.0, 3.0], ['/'])) == Scan(t, 13, Stacks([1.0], ['+']))
  {
    assert t[12] == '+';
    assert ReduceTop(Stacks([3.0, 3.0], ['/'])) == Next(Stacks([1.0], []));
    ScanOperatorAfterOne(t, 12, Stacks([3.0, 3.0], ['/']), Stacks([1.0], []), Stacks([1.0], ['+']));
  }

  lemma QuotientPlusThreeScan14(t: string)
    requires t == "(4 - 1) / 3 + 3"
    ensures Scan(t, 13, Stacks([1.0], ['+'])) == Scan(t, 14, Stacks([1.0], ['+']))
  {
    ScanSpace(t, 13, Stacks([1.0], ['+']));
  }

  lemma QuotientPlusThreeScan15(t: string)
    requires t == "(4 - 1) / 3 + 3"
    ensures Scan(t, 14, Stacks([1.0], ['+'])) == Scan(t, 15, Stacks([1.0, 3.0], ['+']))
  {
    ScanNumber(t, 14, 15, Stacks([1.0], ['+']), 3, Stacks([1.0, 3.0], ['+']));
  }

  lemma QuotientPlusThreeScan16(t: string)
    requires t == "(4 - 1) / 3 + 3"
    ensures Scan(t, 15, Stacks([1.0, 3.0], ['+'])) == Next(Stacks([1.0, 3.0], ['+']))
  {
    ScanEnd(t, Stacks([1.0, 3.0], ['+']));
  }

  lemma QuotientPlusThreeScan(t: string)
    requires t == "(4 - 1) / 3 + 3"
    ensures Scan(t, 0, Empty) == Next(Stacks([1.0, 3.0], ['+']))
  {
    QuotientPlusThreeScan1(t);
    QuotientPlusThreeScan2(t);
    QuotientPlusThreeScan3(t);
    QuotientPlusThreeScan4(t);
    QuotientPlusThreeScan5(t);
    QuotientPlusThreeScan6(t);
    QuotientPlusThreeScan7(t);
    QuotientPlusThreeScan8(t);
    QuotientPlusThreeScan9(t);
    QuotientPlusThreeScan10(t);
    QuotientPlusThreeScan11(t);
    QuotientPlusThreeScan12(t);
    QuotientPlusThreeScan13(t);
    QuotientPlusThreeScan14(t);
    QuotientPlusThreeScan15(t);
    QuotientPlusThreeScan16(t);
  }

  lemma QuotientPlusThreeDrain()
    ensures Drain(Stacks([1.0, 3.0], ['+'])) == Next(Stacks([4.0], []))
  {
    calc {
      Drain(Stacks([1.0, 3.0], ['+']));
    == { assert ReduceTop(Stacks([1.0, 3.0], ['+'])) == Next(Stacks([4.0], [])); DrainStep(Stacks([1.0, 3.0], ['+']), Stacks([4.0], [])); }
      Drain(Stacks([4.0], []));
    ==
      Next(Stacks([4.0], []));
    }
  }

  /** A valid expression of CalculatorTest: the '+' arriving over '/' reduces the quotient first. */
  lemma QuotientPlusThree(t: string)
    requires t == "(4 - 1) / 3 + 3"
    ensures Evaluate(t, Empty) == Done(4.0, Empty)
  {
    QuotientPlusThreeScan(t);
    QuotientPlusThreeDrain();
  }

  lemma MultiplicativeChainScan1(t: string)
    requires t == "8 - 3 * (10 - 5) / 4"
    ensures Scan(t, 0, Empty) == Scan(t, 1, Stacks([8.0], []))
  {
    ScanNumber(t, 0, 1, Empty, 8, Stacks([8.0], []));
  }

  lemma MultiplicativeChainScan2(t: string)
    requires t == "8 - 3 * (10 - 5) / 4"
    ensures Scan(t, 1, Stacks([8.0], [])) == Scan(t, 2, Stacks([8.0], []))
  {
    ScanSpace(t, 1, Stacks([8.0], []));
  }

  lemma MultiplicativeChainScan3(t: string)
    requires t == "8 - 3 * (10 - 5) / 4"
    ensures Scan(t, 2, Stacks([8.0], [])) == Scan(t, 3, Stacks([8.0], ['-']))
  {
    ScanOperator(t, 2, Stacks([8.0], []), Stacks([8.0], ['-']));
  }

  lemma MultiplicativeChainScan4(t: string)
    requires t == "8 - 3 * (10 - 5) / 4"
    ensures Scan(t, 3, Stacks([8.0], ['-'])) == Scan(t, 4, Stacks([8.0], ['-']))
  {
    ScanSpace(t, 3, Stacks([8.0], ['-']));
  }

  lemma MultiplicativeChainScan5(t: string)
    requires t == "8 - 3 * (10 - 5) / 4"
    ensures Scan(t, 4, Stacks([8.0], ['-'])) == Scan(t, 5, Stacks([8.0, 3.0], ['-']))
  {
    ScanNumber(t, 4, 5, Stacks([8.0], ['-']), 3, Stacks([8.0, 3.0], ['-']));
  }

  lemma MultiplicativeChainScan6(t: string)
    requires t == "8 - 3 * (10 - 5) / 4"
    ensures Scan(t, 5, Stacks([8.0, 3.0], ['-'])) == Scan(t, 6, Stacks([8.0, 3.0], ['-']))
  {
    ScanSpace(t, 5, Stacks([8.0, 3.0], ['-']));
  }

  lemma MultiplicativeChainScan7(t: string)
    requires t == "8 - 3 * (10 - 5) / 4"
    ensures Scan(t, 6, Stacks([8.0, 3.0], ['-'])) == Scan(t, 7, Stacks([8.0, 3.0], ['-', '*']))
  {
    ScanOperator(t, 6, Stacks([8.0, 3.0], ['-']), Stacks([8.0, 3.0], ['-', '*']));
  }

  lemma MultiplicativeChainScan8(t: string)
    requires t == "8 - 3 * (10 - 5) / 4"
    ensures Scan(t, 7, Stacks([8.0, 3.0], ['-', '*'])) == Scan(t, 8, Stacks([8.0, 3.0], ['-', '*']))
  {
    ScanSpace(t, 7, Stacks([8.0, 3.0], ['-', '*']));
  }

  lemma MultiplicativeChainScan9(t: string)
    requires t == "8 - 3 * (10 - 5) / 4"
    ensures Scan(t, 8, Stacks([8.0, 3.0], ['-', '*'])) == Scan(t, 9, Stacks([8.0, 3.0], ['-', '*', '(']))
  {
    ScanOpen(t, 8, Stacks([8.0, 3.0], ['-', '*']), Stacks([8.0, 3.0], ['-', '*', '(']));
  }

  lemma MultiplicativeChainScan10(t: string)
    requires t == "8 - 3 * (10 - 5) / 4"
    ensures Scan(t, 9, Stacks([8.0, 3.0], ['-', '*', '('])) == Scan(t, 11, Stacks([8.0, 3.0, 10.0], ['-', '*', '(']))
  {
    ScanNumber(t, 9, 11, Stacks([8.0, 3.0], ['-', '*', '(']), 10, Stacks([8.0, 3.0, 10.0], ['-', '*', '(']));
  }

  lemma MultiplicativeChainScan11(t: string)
    requires t == "8 - 3 * (10 - 5) / 4"
    ensures Scan(t, 11, Stacks([8.0, 3.0, 10.0], ['-', '*', '('])) == Scan(t, 12, Stacks([8.0, 3.0, 10.0], ['-', '*', '(']))
  {
    ScanSpace(t, 11, Stacks([8.0, 3.0, 10.0], ['-', '*', '(']));
  }

  lemma MultiplicativeChainScan12(t: string)
    requires t == "8 - 3 * (10 - 5) / 4"
    ensures Scan(t, 12, Stacks([8.0, 3.0, 10.0], ['-', '*', '('])) == Scan(t, 13, Stacks([8.0, 3.0, 10.0], ['-', '*', '(', '-']))
  {
    ScanOperator(t, 12, Stacks([8.0, 3.0, 10.0], ['-', '*', '(']), Stacks([8.0, 3.0, 10.0], ['-', '*', '(', '-']));
  }

  lemma MultiplicativeChainScan13(t: string)
    requires t == "8 - 3 * (10 - 5) / 4"
    ensures Scan(t, 13, Stacks([8.0, 3.0, 10.0], ['-', '*', '(', '-'])) == Scan(t, 14, Stacks([8.0, 3.0, 10.0], ['-', '*', '(', '-']))
  {
    ScanSpace(t, 13, Stacks([8.0, 3.0, 10.0], ['-', '*', '(', '-']));
  }

  lemma MultiplicativeChainScan14(t: string)
    requires t == "8 - 3 * (10 - 5) / 4"
    ensures Scan(t, 14, Stacks([8.0, 3.0, 10.0], ['-', '*', '(', '-'])) == Scan(t, 15, Stacks([8.0, 3.0, 10.0, 5.0], ['-', '*', '(', '-']))
  {
    ScanNumber(t, 14, 15, Stacks([8.0, 3.0, 10.0], ['-', '*', '(', '-']), 5, Stacks([8.0, 3.0, 10.0, 5.0], ['-', '*', '(', '-']));
  }

  lemma MultiplicativeChainScan15(t: string)
    requires t == "8 - 3 * (10 - 5) / 4"
    ensures Scan(t, 15, Stacks([8.0, 3.0, 10.0, 5.0], ['-', '*', '(', '-'])) == Scan(t, 16, Stacks([8.0, 3.0, 5.0], ['-', '*']))
  {
    assert t[15] == ')';
    assert ReduceTop(Stacks([8.0, 3.0, 10.0, 5.0], ['-', '*', '(', '-'])) == Next(Stacks([8.0, 3.0, 5.0], ['-', '*', '(']));
    ScanCloseAfterOne(t, 15, Stacks([8.0, 3.0, 10.0, 5.0], ['-', '*', '(', '-']), Stacks([8.0, 3.0, 5.0], ['-', '*', '(']), Stacks([8.0, 3.0, 5.0], ['-', '*']));
  }

  lemma MultiplicativeChainScan16(t: string)
    requires t == "8 - 3 * (10 - 5) / 4"
    ensures Scan(t, 16, Stacks([8.0, 3.0, 5.0], ['-', '*'])) == Scan(t, 17, Stacks([8.0, 3.0, 5.0], ['-', '*']))
  {
    ScanSpace(t, 16, Stacks([8.0, 3.0, 5.0], ['-', '*']));
  }

  lemma MultiplicativeChainScan17(t: string)
    requires t == "8 - 3 * (10 - 5) / 4"
    ensures Scan(t, 17, Stacks([8.0, 3.0, 5.0], ['-', '*'])) == Scan(t, 18, Stacks([8.0, 3.0, 5.0], ['-', '*', '/']))
  {
    ScanOperator(t, 17, Stacks([8.0, 3.0, 5.0], ['-', '*']), Stacks([8.0, 3.0, 5.0], ['-', '*', '/']));
  }

  lemma MultiplicativeChainScan18(t: string)
    requires t == "8 - 3 * (10 - 5) / 4"
    ensures Scan(t, 18, Stacks([8.0, 3.0, 5.0], ['-', '*', '/'])) == Scan(t, 19, Stacks([8.0, 3.0, 5.0], ['-', '*', '/']))
  {
    ScanSpace(t, 18, Stacks([8.0, 3.0, 5.0], ['-', '*', '/']));
  }

  lemma MultiplicativeChainScan19(t: string)
    requires t == "8 - 3 * (10 - 5) / 4"
    ensures Scan(t, 19, Stacks([8.0, 3.0, 5.0], ['-', '*', '/'])) == Scan(t, 20, Stacks([8.0, 3.0, 5.0, 4.0], ['-', '*', '/']))
  {
    ScanNumber(t, 19, 20, Stacks([8.0, 3.0, 5.0], ['-', '*', '/']), 4, Stacks([8.0, 3.0, 5.0, 4.0], ['-', '*', '/']));
  }

  lemma MultiplicativeChainScan20(t: string)
    requires t == "8 - 3 * (10 - 5) / 4"
    ensures Scan(t, 20, Stacks([8.0, 3.0, 5.0, 4.0], ['-', '*', '/'])) == Next(Stacks([8.0, 3.0, 5.0, 4.0], ['-', '*', '/']))
  {
    ScanEnd(t, Stacks([8.0, 3.0, 5.0, 4.0], ['-', '*', '/']));
  }

  lemma MultiplicativeChainScan(t: string)
    requires t == "8 - 3 * (10 - 5) / 4"
    ensures Scan(t, 0, Empty) == Next(Stacks([8.0, 3.0, 5.0, 4.0], ['-', '*', '/']))
  {
    MultiplicativeChainScan1(t);
    MultiplicativeChainScan2(t);
    MultiplicativeChainScan3(t);
    MultiplicativeChainScan4(t);
    MultiplicativeChainScan5(t);
    MultiplicativeChainScan6(t);
    MultiplicativeChainScan7(t);
    MultiplicativeChainScan8(t);
    MultiplicativeChainScan9(t);
    MultiplicativeChainScan10(t);
    MultiplicativeChainScan11(t);
    MultiplicativeChainScan12(t);
    MultiplicativeChainScan13(t);
    MultiplicativeChainScan14(t);
    MultiplicativeChainScan15(t);
    MultiplicativeChainScan16(t);
    MultiplicativeChainScan17(t);
    MultiplicativeChainScan18(t);
    MultiplicativeChainScan19(t);
    MultiplicativeChainScan20(t);
  }

  lemma MultiplicativeChainDrain()
    ensures Drain(Stacks([8.0, 3.0, 5.0, 4.0], ['-', '*', '/'])) == Next(Stacks([4.25], []))
  {
    calc {
      Drain(Stacks([8.0, 3.0, 5.0, 4.0], ['-', '*', '/']));
    == { assert ReduceTop(Stacks([8.0, 3.0, 5.0, 4.0], ['-', '*', '/'])) == Next(Stacks([8.0, 3.0, 1.25], ['-', '*'])); DrainStep(Stacks([8.0, 3.0, 5.0, 4.0], ['-', '*', '/']), Stacks([8.0, 3.0, 1.25], ['-', '*'])); }
      Drain(Stacks([8.0, 3.0, 1.25], ['-', '*']));
    == { assert ReduceTop(Stacks([8.0, 3.0, 1.25], ['-', '*'])) == Next(Stacks([8.0, 3.75], ['-'])); DrainStep(Stacks([8.0, 3.0, 1.25], ['-', '*']), Stacks([8.0, 3.75], ['-'])); }
      Drain(Stacks([8.0, 3.75], ['-']));
    == { assert ReduceTop(Stacks([8.0, 3.75], ['-'])) == Next(Stacks([4.25], [])); DrainStep(Stacks([8.0, 3.75], ['-']), Stacks([4.25], [])); }
      Drain(Stacks([4.25], []));
    ==
      Next(Stacks([4.25], []));
    }
  }

  /** A valid expression of CalculatorTest: '*' and then '/' are pushed without reduction and drained right to left. */
  lemma MultiplicativeChain(t: string)
    requires t == "8 - 3 * (10 - 5) / 4"
    ensures Evaluate(t, Empty) == Done(4.25, Empty)
  {
    MultiplicativeChainScan(t);
    MultiplicativeChainDrain();
  }

  lemma DivisionByZeroFailsScan(t: string)
    requires t == "5 / 0"
    ensures Scan(t, 0, Empty) == Next(Stacks([5.0, 0.0], ['/']))
  {
    calc {
      Scan(t, 0, Empty);
    == { ScanNumber(t, 0, 1, Empty, 5, Stacks([5.0], [])); }
      Scan(t, 1, Stacks([5.0], []));
    == { ScanSpace(t, 1, Stacks([5.0], [])); }
      Scan(t, 2, Stacks([5.0], []));
    == { ScanOperator(t, 2, Stacks([5.0], []), Stacks([5.0], ['/'])); }
      Scan(t, 3, Stacks([5.0], ['/']));
    == { ScanSpace(t, 3, Stacks([5.0], ['/'])); }
      Scan(t, 4, Stacks([5.0], ['/']));
    == { ScanNumber(t, 4, 5, Stacks([5.0], ['/']), 0, Stacks([5.0, 0.0], ['/'])); }
      Scan(t, 5, Stacks([5.0, 0.0], ['/']));
    == { ScanEnd(t, Stacks([5.0, 0.0], ['/'])); }
      Next(Stacks([5.0, 0.0], ['/']));
    }
  }

  lemma DivisionByZeroFailsDrain()
    ensures Drain(Stacks([5.0, 0.0], ['/'])) == Stuck(DivisionByZero, Empty)
  {
    calc {
      Drain(Stacks([5.0, 0.0], ['/']));
    == { assert ReduceTop(Stacks([5.0, 0.0], ['/'])) == Stuck(DivisionByZero, Empty); }
      Stuck(DivisionByZero, Empty);
    }
  }

  /** An invalid expression of CalculatorTest: division by an exact zero. */
  lemma DivisionByZeroFails(t: string)
    requires t == "5 / 0"
    ensures Evaluate(t, Empty) == Failed(DivisionByZero, Empty)
  {
    DivisionByZeroFailsScan(t);
    DivisionByZeroFailsDrain();
  }

  lemma MissingOperandFailsScan(t: string)
    requires t == "4 - * 5"
    ensures Scan(t, 0, Empty) == Next(Stacks([4.0, 5.0], ['-', '*']))
  {
    calc {
      Scan(t, 0, Empty);
    == { ScanNumber(t, 0, 1, Empty, 4, Stacks([4.0], [])); }
      Scan(t, 1, Stacks([4.0], []));
    == { ScanSpace(t, 1, Stacks([4.0], [])); }
      Scan(t, 2, Stacks([4.0], []));
    == { ScanOperator(t, 2, Stacks([4.0], []), Stacks([4.0], ['-'])); }
      Scan(t, 3, Stacks([4.0], ['-']));
    == { ScanSpace(t, 3, Stacks([4.0], ['-'])); }
      Scan(t, 4, Stacks([4.0], ['-']));
    == { ScanOperator(t, 4, Stacks([4.0], ['-']), Stacks([4.0], ['-', '*'])); }
      Scan(t, 5, Stacks([4.0], ['-', '*']));
    == { ScanSpace(t, 5, Stacks([4.0], ['-', '*'])); }
      Scan(t, 6, Stacks([4.0], ['-', '*']));
    == { ScanNumber(t, 6, 7, Stacks([4.0], ['-', '*']), 5, Stacks([4.0, 5.0], ['-', '*'])); }
      Scan(t, 7, Stacks([4.0, 5.0], ['-', '*']));
    == { ScanEnd(t, Stacks([4.0, 5.0], ['-', '*'])); }
      Next(Stacks([4.0, 5.0], ['-', '*']));
    }
  }

  lemma MissingOperandFailsDrain()
    ensures Drain(Stacks([4.0, 5.0], ['-', '*'])) == Stuck(EmptyStack, Empty)
  {
    calc {
      Drain(Stacks([4.0, 5.0], ['-', '*']));
    == { assert ReduceTop(Stacks([4.0, 5.0], ['-', '*'])) == Next(Stacks([20.0], ['-'])); DrainStep(Stacks([4.0, 5.0], ['-', '*']), Stacks([20.0], ['-'])); }
      Drain(Stacks([20.0], ['-']));
    == { assert ReduceTop(Stacks([20.0], ['-'])) == Stuck(EmptyStack, Empty); }
      Stuck(EmptyStack, Empty);
    }
  }

  /** An invalid expression of CalculatorTest: the value stack runs out while draining. */
  lemma MissingOperandFails(t: string)
    requires t == "4 - * 5"
    ensures Evaluate(t, Empty) == Failed(EmptyStack, Empty)
  {
    MissingOperandFailsScan(t);
    MissingOperandFailsDrain();
  }

  lemma UnclosedParenthesisFailsScan(t: string)
    requires t == "(8 + 7"
    ensures Scan(t, 0, Empty) == Next(Stacks([8.0, 7.0], ['(', '+']))
  {
    calc {
      Scan(t, 0, Empty);
    == { ScanOpen(t, 0, Empty, Stacks([], ['('])); }
      Scan(t, 1, Stacks([], ['(']));
    == { ScanNumber(t, 1, 2, Stacks([], ['(']), 8, Stacks([8.0], ['('])); }
      Scan(t, 2, Stacks([8.0], ['(']));
    == { ScanSpace(t, 2, Stacks([8.0], ['('])); }
      Scan(t, 3, Stacks([8.0], ['(']));
    == { ScanOperator(t, 3, Stacks([8.0], ['(']), Stacks([8.0], ['(', '+'])); }
      Scan(t, 4, Stacks([8.0], ['(', '+']));
    == { ScanSpace(t, 4, Stacks([8.0], ['(', '+'])); }
      Scan(t, 5, Stacks([8.0], ['(', '+']));
    == { ScanNumber(t, 5, 6, Stacks([8.0], ['(', '+']), 7, Stacks([8.0, 7.0], ['(', '+'])); }
      Scan(t, 6, Stacks([8.0, 7.0], ['(', '+']));
    == { ScanEnd(t, Stacks([8.0, 7.0], ['(', '+'])); }
      Next(Stacks([8.0, 7.0], ['(', '+']));
    }
  }

  lemma UnclosedParenthesisFailsDrain()
    ensures Drain(Stacks([8.0, 7.0], ['(', '+'])) == Stuck(EmptyStack, Empty)
  {
    calc {
      Drain(Stacks([8.0, 7.0], ['(', '+']));
    == { assert ReduceTop(Stacks([8.0, 7.0], ['(', '+'])) == Next(Stacks([15.0], ['('])); DrainStep(Stacks([8.0, 7.0], ['(', '+']), Stacks([15.0], ['('])); }
      Drain(Stacks([15.0], ['(']));
    == { assert ReduceTop(Stacks([15.0], ['('])) == Stuck(EmptyStack, Empty); }
      Stuck(EmptyStack, Empty);
    }
  }

  /** An invalid expression of CalculatorTest: the unclosed '(' reaches the final drain with one value left. */
  lemma UnclosedParenthesisFails(t: string)
    requires t == "(8 + 7"
    ensures Evaluate(t, Empty) == Failed(EmptyStack, Empty)
  {
    UnclosedParenthesisFailsScan(t);
    UnclosedParenthesisFailsDrain();
  }

  lemma SameLevelDrainsRightToLeftScan1(t: string)
    requires t == "8 - 3 - 2"
    ensures Scan(t, 0, Empty) == Scan(t, 1, Stacks([8.0], []))
  {
    ScanNumber(t, 0, 1, Empty, 8, Stacks([8.0], []));
  }

  lemma SameLevelDrainsRightToLeftScan2(t: string)
    requires t == "8 - 3 - 2"
    ensures Scan(t, 1, Stacks([8.0], [])) == Scan(t, 2, Stacks([8.0], []))
  {
    ScanSpace(t, 1, Stacks([8.0], []));
  }

  lemma SameLevelDrainsRightToLeftScan3(t: string)
    requires t == "8 - 3 - 2"
    ensures Scan(t, 2, Stacks([8.0], [])) == Scan(t, 3, Stacks([8.0], ['-']))
  {
    ScanOperator(t, 2, Stacks([8.0], []), Stacks([8.0], ['-']));
  }

  lemma SameLevelDrainsRightToLeftScan4(t: string)
    requires t == "8 - 3 - 2"
    ensures Scan(t, 3, Stacks([8.0], ['-'])) == Scan(t, 4, Stacks([8.0], ['-']))
  {
    ScanSpace(t, 3, Stacks([8.0], ['-']));
  }

  lemma SameLevelDrainsRightToLeftScan5(t: string)
    requires t == "8 - 3 - 2"
    ensures Scan(t, 4, Stacks([8.0], ['-'])) == Scan(t, 5, Stacks([8.0, 3.0], ['-']))
  {
    ScanNumber(t, 4, 5, Stacks([8.0], ['-']), 3, Stacks([8.0, 3.0], ['-']));
  }

  lemma SameLevelDrainsRightToLeftScan6(t: string)
    requires t == "8 - 3 - 2"
    ensures Scan(t, 5, Stacks([8.0, 3.0], ['-'])) == Scan(t, 6, Stacks([8.0, 3.0], ['-']))
  {
    ScanSpace(t, 5, Stacks([8.0, 3.0], ['-']));
  }

  lemma SameLevelDrainsRightToLeftScan7(t: string)
    requires t == "8 - 3 - 2"
    ensures Scan(t, 6, Stacks([8.0, 3.0], ['-'])) == Scan(t, 7, Stacks([8.0, 3.0], ['-', '-']))
  {
    ScanOperator(t, 6, Stacks([8.0, 3.0], ['-']), Stacks([8.0, 3.0], ['-', '-']));
  }

  lemma SameLevelDrainsRightToLeftScan8(t: string)
    requires t == "8 - 3 - 2"
    ensures Scan(t, 7, Stacks([8.0, 3.0], ['-', '-'])) == Scan(t, 8, Stacks([8.0, 3.0], ['-', '-']))
  {
    ScanSpace(t, 7, Stacks([8.0, 3.0], ['-', '-']));
  }

  lemma SameLevelDrainsRightToLeftScan9(t: string)
    requires t == "8 - 3 - 2"
    ensures Scan(t, 8, Stacks([8.0, 3.0], ['-', '-'])) == Scan(t, 9, Stacks([8.0, 3.0, 2.0], ['-', '-']))
  {
    ScanNumber(t, 8, 9, Stacks([8.0, 3.0], ['-', '-']), 2, Stacks([8.0, 3.0, 2.0], ['-', '-']));
  }

  lemma SameLevelDrainsRightToLeftScan10(t: string)
    requires t == "8 - 3 - 2"
    ensures Scan(t, 9, Stacks([8.0, 3.0, 2.0], ['-', '-'])) == Next(Stacks([8.0, 3.0, 2.0], ['-', '-']))
  {
    ScanEnd(t, Stacks([8.0, 3.0, 2.0], ['-', '-']));
  }

  lemma SameLevelDrainsRightToLeftScan(t: string)
    requires t == "8 - 3 - 2"
    ensures Scan(t, 0, Empty) == Next(Stacks([8.0, 3.0, 2.0], ['-', '-']))
  {
    SameLevelDrainsRightToLeftScan1(t);
    SameLevelDrainsRightToLeftScan2(t);
    SameLevelDrainsRightToLeftScan3(t);
    SameLevelDrainsRightToLeftScan4(t);
    SameLevelDrainsRightToLeftScan5(t);
    SameLevelDrainsRightToLeftScan6(t);
    SameLevelDrainsRightToLeftScan7(t);
    SameLevelDrainsRightToLeftScan8(t);
    SameLevelDrainsRightToLeftScan9(t);
    SameLevelDrainsRightToLeftScan10(t);
  }

  lemma SameLevelDrainsRightToLeftDrain()
    ensures Drain(Stacks([8.0, 3.0, 2.0], ['-', '-'])) == Next(Stacks([7.0], []))
  {
    calc {
      Drain(Stacks([8.0, 3.0, 2.0], ['-', '-']));
    == { assert ReduceTop(Stacks([8.0, 3.0, 2.0], ['-', '-'])) == Next(Stacks([8.0, 1.0], ['-'])); DrainStep(Stacks([8.0, 3.0, 2.0], ['-', '-']), Stacks([8.0, 1.0], ['-'])); }
      Drain(Stacks([8.0, 1.0], ['-']));
    == { assert ReduceTop(Stacks([8.0, 1.0], ['-'])) == Next(Stacks([7.0], [])); DrainStep(Stacks([8.0, 1.0], ['-']), Stacks([7.0], [])); }
      Drain(Stacks([7.0], []));
    ==
      Next(Stacks([7.0], []));
    }
  }

  /** Operators of one level never reduce each other, so this computes 8 - (3 - 2). */
  lemma SameLevelDrainsRightToLeft(t: string)
    requires t == "8 - 3 - 2"
    ensures Evaluate(t, Empty) == Done(7.0, Empty)
  {
    SameLevelDrainsRightToLeftScan(t);
    SameLevelDrainsRightToLeftDrain();
  }

  lemma LeftoverParenthesisYieldsZeroScan(t: string)
    requires t == "1 (2"
    ensures Scan(t, 0, Empty) == Next(Stacks([1.0, 2.0], ['(']))
  {
    calc {
      Scan(t, 0, Empty);
    == { ScanNumber(t, 0, 1, Empty, 1, Stacks([1.0], [])); }
      Scan(t, 1, Stacks([1.0], []));
    == { ScanSpace(t, 1, Stacks([1.0], [])); }
      Scan(t, 2, Stacks([1.0], []));
    == { ScanOpen(t, 2, Stacks([1.0], []), Stacks([1.0], ['('])); }
      Scan(t, 3, Stacks([1.0], ['(']));
    == { ScanNumber(t, 3, 4, Stacks([1.0], ['(']), 2, Stacks([1.0, 2.0], ['('])); }
      Scan(t, 4, Stacks([1.0, 2.0], ['(']));
    == { ScanEnd(t, Stacks([1.0, 2.0], ['('])); }
      Next(Stacks([1.0, 2.0], ['(']));
    }
  }

  lemma LeftoverParenthesisYieldsZeroDrain()
    ensures Drain(Stacks([1.0, 2.0], ['('])) == Next(Stacks([0.0], []))
  {
    calc {
      Drain(Stacks([1.0, 2.0], ['(']));
    == { assert ReduceTop(Stacks([1.0, 2.0], ['('])) == Next(Stacks([0.0], [])); DrainStep(Stacks([1.0, 2.0], ['(']), Stacks([0.0], [])); }
      Drain(Stacks([0.0], []));
    ==
      Next(Stacks([0.0], []));
    }
  }

  /** A pending '(' applied in the final drain pops two values and pushes 0. */
  lemma LeftoverParenthesisYieldsZero(t: string)
    requires t == "1 (2"
    ensures Evaluate(t, Empty) == Done(0.0, Empty)
  {
    LeftoverParenthesisYieldsZeroScan(t);
    LeftoverParenthesisYieldsZeroDrain();
  }

  lemma ExtraValueIsKeptScan(t: string)
    requires t == "1 2"
    ensures Scan(t, 0, Empty) == Next(Stacks([1.0, 2.0], []))
  {
    calc {
      Scan(t, 0, Empty);
    == { ScanNumber(t, 0, 1, Empty, 1, Stacks([1.0], [])); }
      Scan(t, 1, Stacks([1.0], []));
    == { ScanSpace(t, 1, Stacks([1.0], [])); }
      Scan(t, 2, Stacks([1.0], []));
    == { ScanNumber(t, 2, 3, Stacks([1.0], []), 2, Stacks([1.0, 2.0], [])); }
      Scan(t, 3, Stacks([1.0, 2.0], []));
    == { ScanEnd(t, Stacks([1.0, 2.0], [])); }
      Next(Stacks([1.0, 2.0], []));
    }
  }

  lemma ExtraValueIsKeptDrain()
    ensures Drain(Stacks([1.0, 2.0], [])) == Next(Stacks([1.0, 2.0], []))
  {
    calc {
      Drain(Stacks([1.0, 2.0], []));
    ==
      Next(Stacks([1.0, 2.0], []));
    }
  }

  /** Nothing checks that one value remains: the top is returned and the rest stays on the stack. */
  lemma ExtraValueIsKept(t: string)
    requires t == "1 2"
    ensures Evaluate(t, Empty) == Done(2.0, Stacks([1.0], []))
  {
    ExtraValueIsKeptScan(t);
    ExtraValueIsKeptDrain();
  }

  lemma DivisorZeroNotAlwaysAppliedScan(t: string)
    requires t == "1 / 0 2"
    ensures Scan(t, 0, Empty) == Next(Stacks([1.0, 0.0, 2.0], ['/']))
  {
    calc {
      Scan(t, 0, Empty);
    == { ScanNumber(t, 0, 1, Empty, 1, Stacks([1.0], [])); }
      Scan(t, 1, Stacks([1.0], []));
    == { ScanSpace(t, 1, Stacks([1.0], [])); }
      Scan(t, 2, Stacks([1.0], []));
    == { ScanOperator(t, 2, Stacks([1.0], []), Stacks([1.0], ['/'])); }
      Scan(t, 3, Stacks([1.0], ['/']));
    == { ScanSpace(t, 3, Stacks([1.0], ['/'])); }
      Scan(t, 4, Stacks([1.0], ['/']));
    == { ScanNumber(t, 4, 5, Stacks([1.0], ['/']), 0, Stacks([1.0, 0.0], ['/'])); }
      Scan(t, 5, Stacks([1.0, 0.0], ['/']));
    == { ScanSpace(t, 5, Stacks([1.0, 0.0], ['/'])); }
      Scan(t, 6, Stacks([1.0, 0.0], ['/']));
    == { ScanNumber(t, 6, 7, Stacks([1.0, 0.0], ['/']), 2, Stacks([1.0, 0.0, 2.0], ['/'])); }
      Scan(t, 7, Stacks([1.0, 0.0, 2.0], ['/']));
    == { ScanEnd(t, Stacks([1.0, 0.0, 2.0], ['/'])); }
      Next(Stacks([1.0, 0.0, 2.0], ['/']));
    }
  }

  lemma DivisorZeroNotAlwaysAppliedDrain()
    ensures Drain(Stacks([1.0, 0.0, 2.0], ['/'])) == Next(Stacks([1.0, 0.0], []))
  {
    calc {
      Drain(Stacks([1.0, 0.0, 2.0], ['/']));
    == { assert ReduceTop(Stacks([1.0, 0.0, 2.0], ['/'])) == Next(Stacks([1.0, 0.0], [])); DrainStep(Stacks([1.0, 0.0, 2.0], ['/']), Stacks([1.0, 0.0], [])); }
      Drain(Stacks([1.0, 0.0], []));
    ==
      Next(Stacks([1.0, 0.0], []));
    }
  }

  /** A zero after '/' fails only if that division is applied: here '/' takes 0 and 2. */
  lemma DivisorZeroNotAlwaysApplied(t: string)
    requires t == "1 / 0 2"
    ensures Evaluate(t, Empty) == Done(0.0, Stacks([1.0], []))
  {
    DivisorZeroNotAlwaysAppliedScan(t);
    DivisorZeroNotAlwaysAppliedDrain();
  }

  lemma ProductDivisorFailsScan(t: string)
    requires t == "1/2*0"
    ensures Scan(t, 0, Empty) == Next(Stacks([1.0, 2.0, 0.0], ['/', '*']))
  {
    calc {
      Scan(t, 0, Empty);
    == { ScanNumber(t, 0, 1, Empty, 1, Stacks([1.0], [])); }
      Scan(t, 1, Stacks([1.0], []));
    == { ScanOperator(t, 1, Stacks([1.0], []), Stacks([1.0], ['/'])); }
      Scan(t, 2, Stacks([1.0], ['/']));
    == { ScanNumber(t, 2, 3, Stacks([1.0], ['/']), 2, Stacks([1.0, 2.0], ['/'])); }
      Scan(t, 3, Stacks([1.0, 2.0], ['/']));
    == { ScanOperator(t, 3, Stacks([1.0, 2.0], ['/']), Stacks([1.0, 2.0], ['/', '*'])); }
      Scan(t, 4, Stacks([1.0, 2.0], ['/', '*']));
    == { ScanNumber(t, 4, 5, Stacks([1.0, 2.0], ['/', '*']), 0, Stacks([1.0, 2.0, 0.0], ['/', '*'])); }
      Scan(t, 5, Stacks([1.0, 2.0, 0.0], ['/', '*']));
    == { ScanEnd(t, Stacks([1.0, 2.0, 0.0], ['/', '*'])); }
      Next(Stacks([1.0, 2.0, 0.0], ['/', '*']));
    }
  }

  lemma ProductDivisorFailsDrain()
    ensures Drain(Stacks([1.0, 2.0, 0.0], ['/', '*'])) == Stuck(DivisionByZero, Empty)
  {
    calc {
      Drain(Stacks([1.0, 2.0, 0.0], ['/', '*']));
    == { assert ReduceTop(Stacks([1.0, 2.0, 0.0], ['/', '*'])) == Next(Stacks([1.0, 0.0], ['/'])); DrainStep(Stacks([1.0, 2.0, 0.0], ['/', '*']), Stacks([1.0, 0.0], ['/'])); }
      Drain(Stacks([1.0, 0.0], ['/']));
    == { assert ReduceTop(Stacks([1.0, 0.0], ['/'])) == Stuck(DivisionByZero, Empty); }
      Stuck(DivisionByZero, Empty);
    }
  }

  /** The mirror image: '*' is drained first, so '/' takes the product 0 although (1 / 2) * 0 is 0. */
  lemma ProductDivisorFails(t: string)
    requires t == "1/2*0"
    ensures Evaluate(t, Empty) == Failed(DivisionByZero, Empty)
  {
    ProductDivisorFailsScan(t);
    ProductDivisorFailsDrain();
  }

  /** A ')' with no '(' pending fails after the number before it was pushed; the number stays. */
  lemma UnmatchedCloseKeepsValue(t: string)
    requires t == "1 )"
    ensures Evaluate(t, Empty) == Failed(EmptyStack, Stacks([1.0], []))
  {
    calc {
      Scan(t, 0, Empty);
    == { ScanNumber(t, 0, 1, Empty, 1, Stacks([1.0], [])); }
      Scan(t, 1, Stacks([1.0], []));
    == { ScanSpace(t, 1, Stacks([1.0], [])); }
      Scan(t, 2, Stacks([1.0], []));
    ==
      Stuck(EmptyStack, Stacks([1.0], []));
    }
  }

  /** The stacks a failed evaluation leaves behind are the start of the next one. */
  lemma LeftoverValueIsUsed(t: string)
    requires t == "+ 2"
    ensures Evaluate(t, Stacks([1.0], [])) == Done(3.0, Empty)
  {
    calc {
      Scan(t, 0, Stacks([1.0], []));
    == { ScanOperator(t, 0, Stacks([1.0], []), Stacks([1.0], ['+'])); }
      Scan(t, 1, Stacks([1.0], ['+']));
    == { ScanSpace(t, 1, Stacks([1.0], ['+'])); }
      Scan(t, 2, Stacks([1.0], ['+']));
    == { ScanNumber(t, 2, 3, Stacks([1.0], ['+']), 2, Stacks([1.0, 2.0], ['+'])); }
      Scan(t, 3, Stacks([1.0, 2.0], ['+']));
    == { ScanEnd(t, Stacks([1.0, 2.0], ['+'])); }
      Next(Stacks([1.0, 2.0], ['+']));
    }
    assert Drain(Stacks([1.0, 2.0], ['+'])) == Next(Stacks([3.0], []));
  }

  /** A value pushed by hand is an operand of the next evaluation. */
  lemma PushedValueIsOperand(t: string)
    requires t == "* 3"
    ensures Evaluate(t, Push(Empty, 2.0)) == Done(6.0, Empty)
  {
    assert Push(Empty, 2.0) == Stacks([2.0], []);
    calc {
      Scan(t, 0, Stacks([2.0], []));
    == { ScanOperator(t, 0, Stacks([2.0], []), Stacks([2.0], ['*'])); }
      Scan(t, 1, Stacks([2.0], ['*']));
    == { ScanSpace(t, 1, Stacks([2.0], ['*'])); }
      Scan(t, 2, Stacks([2.0], ['*']));
    == { ScanNumber(t, 2, 3, Stacks([2.0], ['*']), 3, Stacks([2.0, 3.0], ['*'])); }
      Scan(t, 3, Stacks([2.0, 3.0], ['*']));
    == { ScanEnd(t, Stacks([2.0, 3.0], ['*'])); }
      Next(Stacks([2.0, 3.0], ['*']));
    }
    assert Drain(Stacks([2.0, 3.0], ['*'])) == Next(Stacks([6.0], []));
  }

  /** A literal with a fraction: the digits after the dot count in hundredths here. */
  lemma FractionLiteral(t: string)
    requires t == "4.25"
    ensures ParseDecimal(t) == Some(4.25)
  {
    assert DotIndex(t) == 1;
    assert IsDecimalLiteral(t) by {
      assert t[1..][1..][1..] == "5" && DotCount("5") == 0;
      assert t[1..][1..] == "25" && DotCount("25") == 0;
      assert t[1..] == ".25" && DotCount(".25") == 1;
    }
    DecimalValueScaled(t);
    assert Undotted(t) == "425";
    assert "425"[..2] == "42" && "42"[..1] == "4";
    assert DigitsValue("4") == 4 && DigitsValue("42") == 42 && DigitsValue("425") == 425;
    assert Pow10(2) == 100;
  }

  /** A number cannot begin with '.': the dot is an invalid character. */
  lemma LeadingDotIsInvalid(t: string, s: Stacks)
    requires t == ".5"
    ensures Evaluate(t, s) == Failed(InvalidCharacter('.'), s)
  {
  }

  /** An empty expression leaves nothing to pop. */
  lemma EmptyExpressionFails()
    ensures Evaluate("", Empty) == Failed(EmptyStack, Empty)
  {
  }

  // ---------------------------------------------------------------------------
  // The test methods of CalculatorTest

  lemma TestValidExpression()
    ensures IsValid("7 + 4 * (2 - 5)") && IsValid("(4 - 1) / 3 + 3") && IsValid("8 - 3 * (10 - 5) / 4")
  {
    MixedPrecedence("7 + 4 * (2 - 5)");
    QuotientPlusThree("(4 - 1) / 3 + 3");
    MultiplicativeChain("8 - 3 * (10 - 5) / 4");
  }

  lemma TestInvalidExpression()
    ensures !IsValid("5 / 0") && !IsValid("4 - * 5") && !IsValid("(8 + 7")
  {
    DivisionByZeroFails("5 / 0");
    MissingOperandFails("4 - * 5");
    UnclosedParenthesisFails("(8 + 7");
  }

  /** One calculator evaluates the three expressions in turn; each leaves the stacks empty for the next. */
  lemma TestEvaluateExpression()
    ensures Evaluate("7 + 4", Empty) == Done(11.0, Empty)
    ensures Evaluate("5 * (3 + 2)", Empty) == Done(25.0, Empty)
    ensures Evaluate("(10 - 4) / 2", Empty) == Done(3.0, Empty)
  {
    SevenPlusFour("7 + 4");
    FiveTimesSum("5 * (3 + 2)");
    DifferenceOverTwo("(10 - 4) / 2");
  }
}
