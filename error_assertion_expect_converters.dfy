/**
 * `XCTAssertThrowsError` and `XCTAssertNoThrow` become `#expect { body } throws: ...`: the first
 * argument becomes the body of the performing closure, and the expected error is given either
 * as a `throws:` argument (a type) or as a `throws:` trailing closure (a condition).
 */
module ErrorAssertionExpectConverters {
  import opened Wrappers
  import opened Syntax

  const XCTAssertThrowsErrorName := "XCTAssertThrowsError"
  const XCTAssertNoThrowName := "XCTAssertNoThrow"
  const ThrowsLabel := "throws"

  /**
   * The two `#expect` macros for errors: one checks the error's type, the other runs a
   * condition closure on the error. A call with a trailing closure asks for the second.
   */
  datatype ExpectMacroType = TypeChecking | ConditionChecking

  function ExpectMacroTypeOf(call: Expr): (r: ExpectMacroType)
    requires call.Call?
    ensures r == ConditionChecking <==> call.trailingClosure.Some?
  {
    if call.trailingClosure.Some? then ConditionChecking else TypeChecking
  }

  /** `(any Error).self` */
  const AnyErrorSelf: Expr := Member("", Tuple("", [Arg(None, AnyType("", "Error", ""), false)], ""), "self", "")

  /** `Never.self` */
  const NeverSelf: Expr := Member("", Ref("", "Never", ""), "self", "")

  /** `throws: <error type>`, with a comma when arguments follow. */
  function ThrowsArgument(errorType: Expr, hasRemainingArguments: bool): Arg {
    Arg(Some(ThrowsLabel), errorType, hasRemainingArguments)
  }

  /** The first argument gives way to `throws: <error type>`; a list without arguments traps. */
  function ReplaceFirstWithThrows(errorType: Expr, args: seq<Arg>): (r: seq<Arg>)
    requires |args| >= 1
    ensures |r| == |args|
    ensures r[0] == ThrowsArgument(errorType, |args| > 1)
    ensures forall i :: 1 <= i < |args| ==> r[i] == args[i]
  {
    args[0 := ThrowsArgument(errorType, |args| > 1)]
  }

  /** Whether converting the arguments indexes an empty list. */
  predicate ThrowsErrorTraps(shape: ExpectMacroType, args: seq<Arg>) {
    shape == TypeChecking && |args| == 0
  }

  /**
   * `XCTAssertThrowsError.convertAssertionArguments`: for a type check, the first argument
   * becomes `throws: (any Error).self`; for a condition check, the first argument is dropped
   * (it becomes the performing closure, the condition becomes a trailing closure).
   */
  function ThrowsErrorArguments(shape: ExpectMacroType, args: seq<Arg>): (r: seq<Arg>)
    requires !ThrowsErrorTraps(shape, args)
    ensures shape == TypeChecking ==> r == ReplaceFirstWithThrows(AnyErrorSelf, args)
    ensures shape == ConditionChecking ==> r == (if args == [] then [] else args[1..])
  {
    match shape
    case TypeChecking => ReplaceFirstWithThrows(AnyErrorSelf, args)
    case ConditionChecking => if args == [] then [] else args[1..]
  }

  /** `XCTAssertNoThrow.convertAssertionArguments`: the first argument becomes `throws: Never.self`. */
  function NoThrowArguments(args: seq<Arg>): (r: seq<Arg>)
    requires |args| >= 1
    ensures r == ReplaceFirstWithThrows(NeverSelf, args)
  {
    ReplaceFirstWithThrows(NeverSelf, args)
  }

  /**
   * `trailingClosure(from:)`: `{ <first argument's expression> }`, with single spaces around the
   * statement; none when the call has no arguments.
   */
  function PerformingClosure(args: seq<Arg>): (r: Option<Expr>)
    ensures r.Some? <==> |args| > 0
    ensures r.Some? ==> r.value.Closure? && r.value.signature.None? &&
                        r.value.statements == [ExprItem(args[0].expr.(lead := " ", trail := " "))]
  {
    if args == [] then None
    else Some(Closure(" ", None, [ExprItem(args[0].expr.(lead := " ", trail := " "))], ""))
  }

  /**
   * `XCTAssertThrowsError.additionalTrailingClosures(from:)`: for a condition check, the call's
   * own additional closures followed by `throws: <the call's trailing closure>`; none otherwise.
   * `shape` is the decision `convertAssertionArguments` made for the same call.
   */
  function ThrowsErrorClosures(shape: ExpectMacroType, call: Expr): (r: Option<seq<LabeledClosure>>)
    requires call.Call? && shape == ExpectMacroTypeOf(call)
    ensures r.Some? <==> shape == ConditionChecking
    ensures r.Some? ==> r.value == call.additionalClosures + [LabeledClosure(ThrowsLabel, call.trailingClosure.value)]
  {
    match shape
    case TypeChecking => None
    case ConditionChecking => Some(call.additionalClosures + [LabeledClosure(ThrowsLabel, call.trailingClosure.value)])
  }

  /**
   * `buildExpr(from:)` of an error converter: `#expect` with parentheses only around a non-empty
   * argument list, the performing closure (space before it, and after it when more closures
   * follow), then the additional closures. The macro carries no trivia of the call.
   */
  function ErrorExpectMacro(args: seq<Arg>, performing: Expr, additional: Option<seq<LabeledClosure>>): (r: Expr)
    ensures r.Macro? && r.macroName == "expect" && r.args == args
    ensures r.parens <==> |args| > 0
    ensures r.trailingClosure == Some(performing.(lead := " ", trail := if additional.Some? then " " else performing.trail))
    ensures r.additionalClosures == additional.GetOr([])
    ensures r.lead == "" && r.trail == ""
  {
    var closure := performing.(lead := " ");
    var closure := if additional.Some? then closure.(trail := " ") else closure;
    Macro("", "expect", |args| > 0, args, Some(closure), additional.GetOr([]), "")
  }
}
