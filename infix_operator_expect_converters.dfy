/**
 * Comparison assertions become `#expect(lhs op rhs, ...)`: the operands are the first two
 * arguments (`XCTAssertEqual` and its relatives) or the first argument and `nil`
 * (`XCTAssertNil`, `XCTAssertNotNil`); the arguments that follow are kept.
 */
module InfixOperatorExpectConverters {
  import opened Wrappers
  import opened Syntax
  import AssertionConverter

  /**
   * One row of the operator table: assertion name, operator, and whether the right operand is
   * the `nil` literal rather than the second argument.
   */
  datatype InfixConverter = InfixConverter(legacyName: string, binaryOperator: string, comparesWithNil: bool) {
    /** How many leading arguments the comparison consumes. */
    function AssertionArgumentsCount(): nat {
      if comparesWithNil then 1 else 2
    }
  }

  const EqualConverter := InfixConverter("XCTAssertEqual", "==", false)
  const NotEqualConverter := InfixConverter("XCTAssertNotEqual", "!=", false)
  const IdenticalConverter := InfixConverter("XCTAssertIdentical", "===", false)
  const NotIdenticalConverter := InfixConverter("XCTAssertNotIdentical", "!==", false)
  const GreaterThanConverter := InfixConverter("XCTAssertGreaterThan", ">", false)
  const GreaterThanOrEqualConverter := InfixConverter("XCTAssertGreaterThanOrEqual", ">=", false)
  const LessThanConverter := InfixConverter("XCTAssertLessThan", "<", false)
  const LessThanOrEqualConverter := InfixConverter("XCTAssertLessThanOrEqual", "<=", false)
  const BinaryConverters := [EqualConverter, NotEqualConverter, IdenticalConverter, NotIdenticalConverter,
                              GreaterThanConverter, GreaterThanOrEqualConverter, LessThanConverter,
                              LessThanOrEqualConverter]
  const NilConverter := InfixConverter("XCTAssertNil", "==", true)
  const NotNilConverter := InfixConverter("XCTAssertNotNil", "!=", true)

  /** `lhs(from:)` and `rhs(from:)` index the list unchecked: short lists trap. */
  predicate Traps(c: InfixConverter, args: seq<Arg>) {
    |args| < c.AssertionArgumentsCount()
  }

  /** The left operand: the first argument, by position. */
  function Lhs(args: seq<Arg>): (r: Expr)
    requires |args| >= 1
    ensures r == args[0].expr
  {
    args[0].expr
  }

  /** The right operand: `nil` for the nil checks, otherwise the last argument the comparison consumes. */
  function Rhs(c: InfixConverter, args: seq<Arg>): (r: Expr)
    requires !Traps(c, args)
    ensures c.comparesWithNil ==> r == NilLiteral("", "")
    ensures !c.comparesWithNil ==> r == args[c.AssertionArgumentsCount() - 1].expr
  {
    if c.comparesWithNil then NilLiteral("", "") else args[1].expr
  }

  /**
   * `convertAssertionArguments`: one unlabelled argument `lhs op rhs` (the operands lose the
   * trivia facing the operator, the operator is spaced), with a comma exactly when arguments
   * follow, then the arguments after the consumed ones.
   */
  function InfixArguments(c: InfixConverter, args: seq<Arg>): (r: seq<Arg>)
    requires !Traps(c, args)
    ensures |r| + c.AssertionArgumentsCount() == |args| + 1
    ensures r[0].argLabel.None?
    ensures r[0].hasComma <==> |args| > c.AssertionArgumentsCount()
    ensures r[0].expr.Infix? && r[0].expr.op == c.binaryOperator
    ensures r[0].expr.lhs == Lhs(args).(trail := "") && r[0].expr.rhs == Rhs(c, args).(lead := "")
    ensures forall i :: 1 <= i < |r| ==> r[i] == args[c.AssertionArgumentsCount() - 1 + i]
  {
    var comparison := Infix("", Lhs(args).(trail := ""), c.binaryOperator, Rhs(c, args).(lead := ""), "");
    [Arg(None, comparison, |args| > c.AssertionArgumentsCount())] + args[c.AssertionArgumentsCount()..]
  }

  /** The operator table: eight binary comparisons consuming two arguments, and the two nil checks consuming one. */
  lemma OperatorTable()
    ensures forall c <- BinaryConverters :: c.AssertionArgumentsCount() == 2
    ensures NilConverter.AssertionArgumentsCount() == 1 && NotNilConverter.AssertionArgumentsCount() == 1
    ensures [EqualConverter.binaryOperator, NotEqualConverter.binaryOperator, IdenticalConverter.binaryOperator,
             NotIdenticalConverter.binaryOperator, GreaterThanConverter.binaryOperator,
             GreaterThanOrEqualConverter.binaryOperator, LessThanConverter.binaryOperator,
             LessThanOrEqualConverter.binaryOperator, NilConverter.binaryOperator, NotNilConverter.binaryOperator]
            == ["==", "!=", "===", "!==", ">", ">=", "<", "<=", "==", "!="]
  {
  }

  /** A well-formed comma layout stays well formed. */
  lemma InfixKeepsCommas(c: InfixConverter, args: seq<Arg>)
    requires !Traps(c, args)
    requires AssertionConverter.CommaSeparated(args)
    ensures AssertionConverter.CommaSeparated(InfixArguments(c, args))
  {
    var r := InfixArguments(c, args);
    forall i | 0 <= i < |r| ensures r[i].hasComma == (i < |r| - 1) {
      if i > 0 {
        assert r[i] == args[c.AssertionArgumentsCount() - 1 + i];
      }
    }
  }
}
