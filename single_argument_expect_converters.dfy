/**
 * `XCTAssert`, `XCTAssertTrue` and `XCTAssertFalse` become `#expect(...)`. The first two keep
 * their arguments; `XCTAssertFalse` negates the expression of its first argument.
 */
module SingleArgumentExpectConverters {
  import opened Syntax

  const XCTAssertName := "XCTAssert"
  const XCTAssertTrueName := "XCTAssertTrue"
  const XCTAssertFalseName := "XCTAssertFalse"

  /** `!expression`: the operator carries no trivia of its own. */
  function Negation(e: Expr): Expr {
    Not("", e, "")
  }

  /**
   * `XCTAssertFalse.convertAssertionArguments`: the first argument's expression is negated,
   * keeping its label and comma; an empty list is returned as it is.
   */
  function NegateFirstArgument(args: seq<Arg>): (r: seq<Arg>)
    ensures |r| == |args|
    ensures |args| > 0 ==> r[0].expr == Negation(args[0].expr)
    ensures |args| > 0 ==> r[0].argLabel == args[0].argLabel && r[0].hasComma == args[0].hasComma
    ensures forall i :: 1 <= i < |args| ==> r[i] == args[i]
  {
    if args == [] then args else args[0 := args[0].(expr := Negation(args[0].expr))]
  }

  /** Undoes the negation of the first argument, when there is one. */
  function RemoveFirstNegation(args: seq<Arg>): (r: seq<Arg>)
    ensures |r| == |args|
  {
    if args != [] && args[0].expr.Not? then args[0 := args[0].(expr := args[0].expr.operand)] else args
  }

  /** Negating the first argument loses nothing: removing the negation gives the arguments back. */
  lemma NegationRoundTrip(args: seq<Arg>)
    ensures RemoveFirstNegation(NegateFirstArgument(args)) == args
  {
    if args != [] {
      assert args[0].(expr := args[0].expr) == args[0];
    }
  }
}
