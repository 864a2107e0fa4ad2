/**
 * The assertion converters as one closed family: each turns a legacy XCTest assertion call into
 * its swift-testing form, or gives up (no result), or would trap on an argument list too short
 * for the positions it reads. Converting the arguments is two steps, the converter's own
 * conversion and then the packing of the location arguments.
 */
module ConverterFamily {
  import opened Wrappers
  import opened Syntax
  import opened AssertionConverter
  import SingleArgumentExpectConverters
  import InfixOperatorExpectConverters
  import opened ErrorAssertionExpectConverters
  import Fail = XCTFailConverter
  import Unwrap = XCTUnwrapConverter

  type InfixConverter = InfixOperatorExpectConverters.InfixConverter

  const ExpectMacroName := "expect"

  datatype Converter =
    | SingleArgument(legacyName: string, macroName: string)
    | NegatedSingleArgument(legacyName: string)
    | Comparison(infix: InfixConverter)
    | FailureReport(legacyName: string)
    | ThrowsError(legacyName: string)
    | NoThrow(legacyName: string)
  {
    /** `xcTestAssertionName`: the XCTest function the converter handles. */
    function Name(): string {
      if Comparison? then infix.legacyName else legacyName
    }

    /** The macro a macro-producing converter expands to. */
    function MacroName(): string {
      if SingleArgument? then macroName else ExpectMacroName
    }
  }

  const XCTAssertConverter := SingleArgument(SingleArgumentExpectConverters.XCTAssertName, ExpectMacroName)
  const XCTAssertTrueConverter := SingleArgument(SingleArgumentExpectConverters.XCTAssertTrueName, ExpectMacroName)
  const XCTAssertFalseConverter := NegatedSingleArgument(SingleArgumentExpectConverters.XCTAssertFalseName)
  const XCTAssertEqualConverter := Comparison(InfixOperatorExpectConverters.EqualConverter)
  const XCTAssertNotEqualConverter := Comparison(InfixOperatorExpectConverters.NotEqualConverter)
  const XCTAssertIdenticalConverter := Comparison(InfixOperatorExpectConverters.IdenticalConverter)
  const XCTAssertNotIdenticalConverter := Comparison(InfixOperatorExpectConverters.NotIdenticalConverter)
  const XCTAssertGreaterThanConverter := Comparison(InfixOperatorExpectConverters.GreaterThanConverter)
  const XCTAssertGreaterThanOrEqualConverter := Comparison(InfixOperatorExpectConverters.GreaterThanOrEqualConverter)
  const XCTAssertLessThanConverter := Comparison(InfixOperatorExpectConverters.LessThanConverter)
  const XCTAssertLessThanOrEqualConverter := Comparison(InfixOperatorExpectConverters.LessThanOrEqualConverter)
  const XCTAssertNilConverter := Comparison(InfixOperatorExpectConverters.NilConverter)
  const XCTAssertNotNilConverter := Comparison(InfixOperatorExpectConverters.NotNilConverter)
  const XCTUnwrapConverter := SingleArgument(Unwrap.XCTUnwrapName, Unwrap.RequireMacroName)
  const XCTFailConverter := FailureReport(Fail.XCTFailName)
  const XCTAssertThrowsErrorConverter := ThrowsError(XCTAssertThrowsErrorName)
  const XCTAssertNoThrowConverter := NoThrow(XCTAssertNoThrowName)

  /** Every converter defined, one per XCTest assertion function. */
  const AllConverters: seq<Converter> := [
    XCTAssertConverter, XCTAssertTrueConverter, XCTAssertFalseConverter,
    XCTAssertEqualConverter, XCTAssertNotEqualConverter, XCTAssertIdenticalConverter, XCTAssertNotIdenticalConverter,
    XCTAssertGreaterThanConverter, XCTAssertGreaterThanOrEqualConverter,
    XCTAssertLessThanConverter, XCTAssertLessThanOrEqualConverter,
    XCTAssertNilConverter, XCTAssertNotNilConverter,
    XCTUnwrapConverter, XCTFailConverter, XCTAssertThrowsErrorConverter, XCTAssertNoThrowConverter]

  /** Whether converting the arguments of a call with `shape` and `args` indexes past the end of the list. */
  predicate TrapsOn(c: Converter, shape: ExpectMacroType, args: seq<Arg>) {
    match c
    case Comparison(infix) => InfixOperatorExpectConverters.Traps(infix, args)
    case ThrowsError(_) => ThrowsErrorTraps(shape, args)
    case NoThrow(_) => |args| == 0
    case _ => false
  }

  predicate Traps(c: Converter, call: Expr)
    requires call.Call?
  {
    TrapsOn(c, ExpectMacroTypeOf(call), call.args)
  }

  /** `convertAssertionArguments(of:)`, with the error-macro shape decided once for the call. */
  function ConvertAssertionArguments(c: Converter, shape: ExpectMacroType, args: seq<Arg>): (r: seq<Arg>)
    requires !TrapsOn(c, shape, args)
    ensures |args| - 1 <= |r| <= |args|
    ensures |args| >= 2 ==> r[|r| - (|args| - 2)..] == args[2..]
  {
    match c
    case SingleArgument(_, _) => args
    case NegatedSingleArgument(_) => SingleArgumentExpectConverters.NegateFirstArgument(args)
    case Comparison(infix) => InfixOperatorExpectConverters.InfixArguments(infix, args)
    case FailureReport(_) => args
    case ThrowsError(_) => ThrowsErrorArguments(shape, args)
    case NoThrow(_) => NoThrowArguments(args)
  }

  /** `convertRemainingArguments(of:)`: macro converters pack the location; `XCTFail` keeps it. */
  function ConvertRemainingArguments(c: Converter, args: seq<Arg>): (r: seq<Arg>)
    ensures |r| <= |args|
    ensures c.FailureReport? || !HasLocation(args) ==> r == args
    ensures !c.FailureReport? && HasLocation(args) ==> |r| > 0 && r[|r| - 1].argLabel == Some(SourceLocationLabel)
  {
    if c.FailureReport? then args else Pack(args)
  }

  /** `arguments(from:)`: the converter's own conversion, then the remaining-arguments step. */
  function Arguments(c: Converter, call: Expr): (r: seq<Arg>)
    requires call.Call? && !Traps(c, call)
    ensures |r| <= |call.args|
  {
    ConvertRemainingArguments(c, ConvertAssertionArguments(c, ExpectMacroTypeOf(call), call.args))
  }

  /** `additionalTrailingClosures(from:)` of the error converters. */
  function AdditionalTrailingClosures(c: Converter, call: Expr): Option<seq<LabeledClosure>>
    requires call.Call?
  {
    if c.ThrowsError? then ThrowsErrorClosures(ExpectMacroTypeOf(call), call) else None
  }

  /**
   * `buildExpr(from:)`: the replacement for the call. Only an error converter can give up, and
   * only when the call has no argument to turn into the performing closure.
   */
  function BuildExpr(c: Converter, call: Expr): (r: Option<Expr>)
    requires call.Call? && !Traps(c, call)
    ensures r.None? <==> (c.ThrowsError? || c.NoThrow?) && call.args == []
    ensures r.Some? && !c.FailureReport? ==>
      r.value.Macro? && r.value.macroName == c.MacroName() && r.value.args == Arguments(c, call)
    ensures c.FailureReport? ==> r.Some? && r.value.Call? && r.value.args == call.args
  {
    match c
    case FailureReport(_) => Some(Fail.ReplaceCallee(call))
    case ThrowsError(_) =>
      (match PerformingClosure(call.args)
       case None => None
       case Some(performing) => Some(ErrorExpectMacro(Arguments(c, call), performing, AdditionalTrailingClosures(c, call))))
    case NoThrow(_) =>
      (match PerformingClosure(call.args)
       case None => None
       case Some(performing) => Some(ErrorExpectMacro(Arguments(c, call), performing, AdditionalTrailingClosures(c, call))))
    case _ => Some(MacroExpansion(call, c.MacroName(), Arguments(c, call)))
  }

  /** Each converter's name and macro, and the distinctness of the names. */
  lemma ConverterNames()
    ensures |AllConverters| == 17
    ensures forall i, j :: 0 <= i < j < |AllConverters| ==> AllConverters[i].Name() != AllConverters[j].Name()
    ensures forall c <- AllConverters :: c.MacroName() == (if c == XCTUnwrapConverter then "require" else "expect")
  {
  }

  /**
   * The macro converters keep the call's trivia and parentheses and take the converted
   * arguments with the location packed; `XCTUnwrap` becomes `#require`, every other one `#expect`.
   */
  lemma MacroConverterOutput(c: Converter, call: Expr)
    requires call.Call? && !Traps(c, call)
    requires c.SingleArgument? || c.NegatedSingleArgument? || c.Comparison?
    ensures BuildExpr(c, call) ==
      Some(Macro(call.lead, c.MacroName(), call.parens,
                 Pack(ConvertAssertionArguments(c, ExpectMacroTypeOf(call), call.args)), None, [], call.trail))
  {
  }

  /** The call with its argument list replaced. */
  function WithArguments(call: Expr, args: seq<Arg>): (r: Expr)
    requires call.Call?
    ensures r.Call? && r.args == args && ExpectMacroTypeOf(r) == ExpectMacroTypeOf(call)
  {
    Call(call.lead, call.callee, call.parens, args, call.trailingClosure, call.additionalClosures, call.trail)
  }

  /** `XCTAssertFalse(x, ...)` converts exactly as `XCTAssert(!x, ...)` does. */
  lemma FalseIsAssertOfNegation(call: Expr)
    requires call.Call?
    ensures BuildExpr(XCTAssertFalseConverter, call) ==
            BuildExpr(XCTAssertConverter, WithArguments(call, SingleArgumentExpectConverters.NegateFirstArgument(call.args)))
  {
  }

  /**
   * A comparison consumes its operands and packs what follows: a message stays after the
   * comparison and `file:`/`line:` after the operands become `sourceLocation:`.
   */
  lemma ComparisonPacksTheRest(infix: InfixConverter, call: Expr)
    requires call.Call? && !InfixOperatorExpectConverters.Traps(infix, call.args)
    ensures Arguments(Comparison(infix), call) ==
      [InfixOperatorExpectConverters.InfixArguments(infix, call.args)[0]]
      + Pack(call.args[infix.AssertionArgumentsCount()..])
  {
    var converted := InfixOperatorExpectConverters.InfixArguments(infix, call.args);
    assert converted == [converted[0]] + converted[1..];
    PackCons(converted[0], converted[1..]);
  }

  /**
   * `XCTAssertThrowsError` without a trailing closure becomes the type-checking macro:
   * `throws: (any Error).self` first, the rest packed, the first argument as the performing
   * closure, and no additional closures.
   */
  lemma ThrowsErrorTypeChecking(call: Expr)
    requires call.Call? && call.trailingClosure.None? && |call.args| >= 1
    ensures BuildExpr(XCTAssertThrowsErrorConverter, call) ==
      Some(ErrorExpectMacro([ThrowsArgument(AnyErrorSelf, |call.args| > 1)] + Pack(call.args[1..]),
                            PerformingClosure(call.args).value, None))
    ensures BuildExpr(XCTAssertThrowsErrorConverter, call).value.additionalClosures == []
  {
    var converted := ThrowsErrorArguments(TypeChecking, call.args);
    assert converted == [converted[0]] + call.args[1..];
    PackCons(converted[0], call.args[1..]);
  }

  /**
   * `XCTAssertThrowsError` with a trailing closure becomes the condition-checking macro: the
   * first argument is the performing closure and leaves the argument list, and the call's
   * trailing closure becomes the last additional closure, labelled `throws:`. The one shape
   * decision drives both, so no `throws:` argument is added.
   */
  lemma ThrowsErrorConditionChecking(call: Expr)
    requires call.Call? && call.trailingClosure.Some? && |call.args| >= 1
    ensures BuildExpr(XCTAssertThrowsErrorConverter, call) ==
      Some(ErrorExpectMacro(Pack(call.args[1..]), PerformingClosure(call.args).value,
                            Some(call.additionalClosures + [LabeledClosure(ThrowsLabel, call.trailingClosure.value)])))
  {
  }

  /** `XCTAssertNoThrow(x, ...)` becomes `#expect(throws: Never.self, ...) { x }`. */
  lemma NoThrowOutput(call: Expr)
    requires call.Call? && |call.args| >= 1
    ensures BuildExpr(XCTAssertNoThrowConverter, call) ==
      Some(ErrorExpectMacro([ThrowsArgument(NeverSelf, |call.args| > 1)] + Pack(call.args[1..]),
                            PerformingClosure(call.args).value, None))
  {
    var converted := NoThrowArguments(call.args);
    assert converted == [converted[0]] + call.args[1..];
    PackCons(converted[0], call.args[1..]);
  }

  /** `XCTFail(...)` keeps its arguments as they are, `file:` and `line:` included. */
  lemma FailureReportKeepsArguments(call: Expr)
    requires call.Call?
    ensures Arguments(XCTFailConverter, call) == call.args
    ensures BuildExpr(XCTFailConverter, call) == Some(Fail.ReplaceCallee(call))
  {
  }
}
