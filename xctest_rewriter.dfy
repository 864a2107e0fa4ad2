/**
 * The whole-file rewriter: a pre-order walk of the syntax tree that routes every import,
 * class, method and function call to its visitor, and descends into the children of whatever
 * the visitor returns. A converted call is not descended into. The walk fails (`None`) when a
 * converter traps on a call with too few arguments.
 */
module Rewriter {
  import opened Wrappers
  import opened Collection
  import opened Syntax
  import opened ConverterFamily
  import opened AssertionRewriter
  import MethodVisitor
  import ClassVisitor
  import ImportStatementVisitor
  import AssertionConverter
  import TestMethodNameConverter
  import opened Strings

  /** The rewriter, with its options fixed when it is made. */
  datatype XCTestRewriter = XCTestRewriter(globalOptions: GlobalOptions)
  {
    /** Rewriting a source file: its top-level items, walked with every converter. */
    function Rewrite(file: seq<Item>): (r: Option<seq<Item>>)
      ensures r.Some? ==> |r.value| == |file|
      ensures SettledItems(globalOptions, AllConverters, file) ==> r == Some(file)
    {
      WalkSettledItems(globalOptions, AllConverters, file);
      WalkItems(globalOptions, AllConverters, file)
    }
  }

  /**
   * What the walk keeps of a node it does not replace: its kind, its trivia, its own tokens
   * (name, operator, member, macro name, closure signature) and the number of its children.
   */
  predicate SameNode(a: Expr, b: Expr) {
    a.lead == b.lead && a.trail == b.trail &&
    match a
    case Call(_, _, parens, args, tc, more, _) =>
      b.Call? && b.parens == parens && |b.args| == |args| &&
      (b.trailingClosure.Some? <==> tc.Some?) && |b.additionalClosures| == |more|
    case Macro(_, name, parens, args, tc, more, _) =>
      b.Macro? && b.macroName == name && b.parens == parens && |b.args| == |args| &&
      (b.trailingClosure.Some? <==> tc.Some?) && |b.additionalClosures| == |more|
    case Infix(_, _, op, _, _) => b.Infix? && b.op == op
    case Not(_, _, _) => b.Not?
    case Try(_, _, _) => b.Try?
    case Member(_, _, member, _) => b.Member? && b.member == member
    case Tuple(_, elements, _) => b.Tuple? && |b.elements| == |elements|
    case Closure(_, signature, statements, _) =>
      b.Closure? && b.signature == signature && |b.statements| == |statements|
    case Ref(_, _, _) => b == a
    case NilLiteral(_, _) => b == a
    case AnyType(_, _, _) => b == a
  }

  /** A declaration with the statements of its body replaced (when it has a body). */
  function WithStatements(d: Decl, statements: seq<Item>): Decl {
    match d
    case FunctionDecl(lead, attributes, modifiers, name, parameters, effects, body) =>
      if body.None? then d
      else FunctionDecl(lead, attributes, modifiers, name, parameters, effects, Some(CodeBlock(body.value.lead, statements)))
    case InitializerDecl(lead, attributes, modifiers, parameters, effects, body) =>
      if body.None? then d
      else InitializerDecl(lead, attributes, modifiers, parameters, effects, Some(CodeBlock(body.value.lead, statements)))
    case DeinitializerDecl(lead, attributes, modifiers, body) =>
      if body.None? then d
      else DeinitializerDecl(lead, attributes, modifiers, Some(CodeBlock(body.value.lead, statements)))
    case _ => d
  }

  /** A class declaration with its members replaced. */
  function WithMembers(d: Decl, members: seq<Item>): Decl {
    match d
    case ClassDecl(lead, attributes, modifiers, introducer, name, inheritance, _) =>
      ClassDecl(lead, attributes, modifiers, introducer, name, inheritance, members)
    case _ => d
  }

  /**
   * An expression: a call goes to the call visitor first and is either replaced (and not walked
   * further), trapped on, or walked child by child like every other expression.
   */
  function WalkExpr(o: GlobalOptions, cs: seq<Converter>, e: Expr): (r: Option<Expr>)
    ensures r.Some? && e.Call? && VisitCall(cs, e).Replaced? ==> r.value.Call? || r.value.Macro?
    ensures r.Some? && !(e.Call? && VisitCall(cs, e).Replaced?) ==> SameNode(e, r.value)
    decreases e
  {
    match e
    case Call(lead, callee, parens, args, tc, more, trail) =>
      (match VisitCall(cs, e)
       case Replaced(replacement) => Some(replacement)
       case Trapped => None
       case Descend =>
         var callee' :- WalkExpr(o, cs, callee);
         var args' :- WalkArgs(o, cs, args);
         var tc' :- WalkOptionalExpr(o, cs, tc);
         var more' :- WalkLabeledClosures(o, cs, more);
         Some(Call(lead, callee', parens, args', tc', more', trail)))
    case Macro(lead, name, parens, args, tc, more, trail) =>
      var args' :- WalkArgs(o, cs, args);
      var tc' :- WalkOptionalExpr(o, cs, tc);
      var more' :- WalkLabeledClosures(o, cs, more);
      Some(Macro(lead, name, parens, args', tc', more', trail))
    case Infix(lead, lhs, op, rhs, trail) =>
      var lhs' :- WalkExpr(o, cs, lhs);
      var rhs' :- WalkExpr(o, cs, rhs);
      Some(Infix(lead, lhs', op, rhs', trail))
    case Not(lead, operand, trail) =>
      var operand' :- WalkExpr(o, cs, operand);
      Some(Not(lead, operand', trail))
    case Try(lead, operand, trail) =>
      var operand' :- WalkExpr(o, cs, operand);
      Some(Try(lead, operand', trail))
    case Member(lead, base, member, trail) =>
      var base' :- WalkExpr(o, cs, base);
      Some(Member(lead, base', member, trail))
    case Tuple(lead, elements, trail) =>
      var elements' :- WalkArgs(o, cs, elements);
      Some(Tuple(lead, elements', trail))
    case Closure(lead, signature, statements, trail) =>
      var statements' :- WalkItems(o, cs, statements);
      Some(Closure(lead, signature, statements', trail))
    case Ref(_, _, _) => Some(e)
    case NilLiteral(_, _) => Some(e)
    case AnyType(_, _, _) => Some(e)
  }

  function WalkArg(o: GlobalOptions, cs: seq<Converter>, a: Arg): (r: Option<Arg>)
    ensures r.Some? ==> r.value.argLabel == a.argLabel && r.value.hasComma == a.hasComma
    decreases a
  {
    var e :- WalkExpr(o, cs, a.expr);
    Some(Arg(a.argLabel, e, a.hasComma))
  }

  /** A list of arguments, walked in order; one trap fails the list. */
  function WalkArgs(o: GlobalOptions, cs: seq<Converter>, args: seq<Arg>): (r: Option<seq<Arg>>)
    ensures r.Some? ==> |r.value| == |args|
    ensures r.Some? ==> forall i :: 0 <= i < |args| ==>
      r.value[i].argLabel == args[i].argLabel && r.value[i].hasComma == args[i].hasComma
    decreases args
  {
    AllSome(seq(|args|, i requires 0 <= i < |args| => WalkArg(o, cs, args[i])))
  }

  function WalkLabeledClosures(o: GlobalOptions, cs: seq<Converter>, more: seq<LabeledClosure>): (r: Option<seq<LabeledClosure>>)
    ensures r.Some? ==> |r.value| == |more|
    ensures r.Some? ==> forall i :: 0 <= i < |more| ==> r.value[i].closureLabel == more[i].closureLabel
    decreases more
  {
    AllSome(seq(|more|, i requires 0 <= i < |more| => WalkLabeledClosure(o, cs, more[i])))
  }

  /** Statements or members, walked in order; one trap fails the list. */
  function WalkItems(o: GlobalOptions, cs: seq<Converter>, items: seq<Item>): (r: Option<seq<Item>>)
    ensures r.Some? ==> |r.value| == |items|
    ensures r.Some? ==> forall i :: 0 <= i < |items| ==> (r.value[i].ExprItem? <==> items[i].ExprItem?)
    decreases items
  {
    AllSome(seq(|items|, i requires 0 <= i < |items| => WalkItem(o, cs, items[i])))
  }

  /** An optional trailing closure or initializer: absent stays absent, present is walked. */
  function WalkOptionalExpr(o: GlobalOptions, cs: seq<Converter>, tc: Option<Expr>): (r: Option<Option<Expr>>)
    ensures r.Some? ==> (r.value.Some? <==> tc.Some?)
    decreases tc
  {
    match tc
    case None => Some(None)
    case Some(c) =>
      var c' :- WalkExpr(o, cs, c);
      Some(Some(c'))
  }

  function WalkLabeledClosure(o: GlobalOptions, cs: seq<Converter>, c: LabeledClosure): (r: Option<LabeledClosure>)
    ensures r.Some? ==> r.value.closureLabel == c.closureLabel
    decreases c
  {
    var closure :- WalkExpr(o, cs, c.closure);
    Some(LabeledClosure(c.closureLabel, closure))
  }

  function WalkItem(o: GlobalOptions, cs: seq<Converter>, it: Item): (r: Option<Item>)
    ensures r.Some? ==> (r.value.ExprItem? <==> it.ExprItem?)
    decreases it
  {
    match it
    case ExprItem(e) =>
      var e' :- WalkExpr(o, cs, e);
      Some(ExprItem(e'))
    case DeclItem(d) =>
      var d' :- WalkDecl(o, cs, d);
      Some(DeclItem(d'))
  }

  function WalkBlock(o: GlobalOptions, cs: seq<Converter>, b: CodeBlock): Option<CodeBlock>
    decreases b
  {
    var statements :- WalkItems(o, cs, b.statements);
    Some(CodeBlock(b.lead, statements))
  }

  /**
   * A declaration: imports, classes and methods go to their visitors, whose results keep the
   * declaration's members or body statements; those are then walked. Initializers and
   * deinitializers have no visitor of their own and only their bodies are walked.
   */
  function WalkDecl(o: GlobalOptions, cs: seq<Converter>, d: Decl): (r: Option<Decl>)
    ensures d.ImportDecl? ==> r.Some? && r.value.ImportDecl?
    ensures r.Some? && d.ClassDecl? ==>
      r.value.ClassDecl? && r.value.lead == d.lead && r.value.name == d.name && |r.value.members| == |d.members|
    ensures r.Some? && d.FunctionDecl? ==>
      r.value.FunctionDecl? || r.value.InitializerDecl? || r.value.DeinitializerDecl?
    ensures r.Some? && d.VariableDecl? ==>
      r.value.VariableDecl? && r.value.name == d.name && (r.value.initializer.Some? <==> d.initializer.Some?)
    ensures r.Some? && d.ContainerDecl? ==>
      r.value.ContainerDecl? && r.value.introducer == d.introducer && r.value.name == d.name &&
      |r.value.members| == |d.members|
    ensures d.OtherDecl? ==> r == Some(d)
    decreases d
  {
    match d
    case ImportDecl(_, _) => Some(ImportStatementVisitor.VisitForImportDecl(d))
    case ClassDecl(_, _, _, _, _, _, members) =>
      var members' :- WalkItems(o, cs, members);
      Some(WithMembers(ClassVisitor.VisitForTestClass(o, d), members'))
    case FunctionDecl(_, _, _, _, _, _, body) =>
      if body.None? then Some(MethodVisitor.VisitForTestFunctionDecl(o, d))
      else
        var body' :- WalkBlock(o, cs, body.value);
        Some(WithStatements(MethodVisitor.VisitForTestFunctionDecl(o, d), body'.statements))
    case InitializerDecl(_, _, _, _, _, body) =>
      if body.None? then Some(d)
      else
        var body' :- WalkBlock(o, cs, body.value);
        Some(WithStatements(d, body'.statements))
    case DeinitializerDecl(_, _, _, body) =>
      if body.None? then Some(d)
      else
        var body' :- WalkBlock(o, cs, body.value);
        Some(WithStatements(d, body'.statements))
    case VariableDecl(lead, bindingSpecifier, name, initializer) =>
      var initializer' :- WalkOptionalExpr(o, cs, initializer);
      Some(VariableDecl(lead, bindingSpecifier, name, initializer'))
    case ContainerDecl(lead, introducer, name, members) =>
      var members' :- WalkItems(o, cs, members);
      Some(ContainerDecl(lead, introducer, name, members'))
    case OtherDecl(_, _) => Some(d)
  }


  /*
   * Settled trees: no call names a converter, no class is guessed to be a test case, no method
   * is of a kind the method visitor rewrites (unless it already carries `@Test`), and no import
   * names `XCTest` first. These are the trees the rewriter leaves as they are.
   */

  predicate SettledExpr(o: GlobalOptions, cs: seq<Converter>, e: Expr)
    decreases e
  {
    match e
    case Call(_, callee, _, args, tc, more, _) =>
      FirstMatch(cs, Tokens(callee)).None? && SettledExpr(o, cs, callee) &&
      (forall i :: 0 <= i < |args| ==> SettledArg(o, cs, args[i])) &&
      SettledOptionalExpr(o, cs, tc) &&
      (forall i :: 0 <= i < |more| ==> SettledExpr(o, cs, more[i].closure))
    case Macro(_, _, _, args, tc, more, _) =>
      (forall i :: 0 <= i < |args| ==> SettledArg(o, cs, args[i])) &&
      SettledOptionalExpr(o, cs, tc) &&
      (forall i :: 0 <= i < |more| ==> SettledExpr(o, cs, more[i].closure))
    case Infix(_, lhs, _, rhs, _) => SettledExpr(o, cs, lhs) && SettledExpr(o, cs, rhs)
    case Not(_, operand, _) => SettledExpr(o, cs, operand)
    case Try(_, operand, _) => SettledExpr(o, cs, operand)
    case Member(_, base, _, _) => SettledExpr(o, cs, base)
    case Tuple(_, elements, _) => forall i :: 0 <= i < |elements| ==> SettledArg(o, cs, elements[i])
    case Closure(_, _, statements, _) => forall i :: 0 <= i < |statements| ==> SettledItem(o, cs, statements[i])
    case Ref(_, _, _) => true
    case NilLiteral(_, _) => true
    case AnyType(_, _, _) => true
  }

  predicate SettledArg(o: GlobalOptions, cs: seq<Converter>, a: Arg)
    decreases a
  {
    SettledExpr(o, cs, a.expr)
  }

  predicate SettledOptionalExpr(o: GlobalOptions, cs: seq<Converter>, tc: Option<Expr>)
    decreases tc
  {
    match tc
    case None => true
    case Some(c) => SettledExpr(o, cs, c)
  }

  predicate SettledItem(o: GlobalOptions, cs: seq<Converter>, it: Item)
    decreases it
  {
    match it
    case ExprItem(e) => SettledExpr(o, cs, e)
    case DeclItem(d) => SettledDecl(o, cs, d)
  }

  predicate SettledBlock(o: GlobalOptions, cs: seq<Converter>, b: CodeBlock)
    decreases b
  {
    forall i :: 0 <= i < |b.statements| ==> SettledItem(o, cs, b.statements[i])
  }

  predicate SettledDecl(o: GlobalOptions, cs: seq<Converter>, d: Decl)
    decreases d
  {
    match d
    case ImportDecl(_, path) => !(|path| > 0 && path[0] == "XCTest")
    case ClassDecl(_, _, _, _, _, _, members) =>
      !ClassVisitor.GuessWhetherTestCaseClass(d) &&
      forall i :: 0 <= i < |members| ==> SettledItem(o, cs, members[i])
    case FunctionDecl(_, attributes, _, _, _, _, body) =>
      (MethodVisitor.HasTestMacroAttribute(attributes) || MethodVisitor.DetectMethodKind(d).None?) &&
      (body.Some? ==> SettledBlock(o, cs, body.value))
    case InitializerDecl(_, _, _, _, _, body) => body.Some? ==> SettledBlock(o, cs, body.value)
    case DeinitializerDecl(_, _, _, body) => body.Some? ==> SettledBlock(o, cs, body.value)
    case VariableDecl(_, _, _, initializer) => SettledOptionalExpr(o, cs, initializer)
    case ContainerDecl(_, _, _, members) => forall i :: 0 <= i < |members| ==> SettledItem(o, cs, members[i])
    case OtherDecl(_, _) => true
  }

  predicate SettledItems(o: GlobalOptions, cs: seq<Converter>, items: seq<Item>) {
    forall i :: 0 <= i < |items| ==> SettledItem(o, cs, items[i])
  }

  /** The rewriter leaves a settled expression as it is. */
  lemma {:induction false} WalkSettledExpr(o: GlobalOptions, cs: seq<Converter>, e: Expr)
    requires SettledExpr(o, cs, e)
    ensures WalkExpr(o, cs, e) == Some(e)
    decreases e
  {
    match e
    case Call(_, callee, _, args, tc, more, _) =>
      assert VisitCall(cs, e) == Descend;
      WalkSettledExpr(o, cs, callee);
      WalkSettledArgs(o, cs, args);
      WalkSettledOptionalExpr(o, cs, tc);
      WalkSettledLabeledClosures(o, cs, more);
    case Macro(_, _, _, args, tc, more, _) =>
      WalkSettledArgs(o, cs, args);
      WalkSettledOptionalExpr(o, cs, tc);
      WalkSettledLabeledClosures(o, cs, more);
    case Infix(_, lhs, _, rhs, _) =>
      WalkSettledExpr(o, cs, lhs);
      WalkSettledExpr(o, cs, rhs);
    case Not(_, operand, _) => WalkSettledExpr(o, cs, operand);
    case Try(_, operand, _) => WalkSettledExpr(o, cs, operand);
    case Member(_, base, _, _) => WalkSettledExpr(o, cs, base);
    case Tuple(_, elements, _) => WalkSettledArgs(o, cs, elements);
    case Closure(_, _, statements, _) => WalkSettledItemsBelow(o, cs, statements);
    case Ref(_, _, _) =>
    case NilLiteral(_, _) =>
    case AnyType(_, _, _) =>
  }

  /** The arguments of a settled node, walked one by one, come back unchanged. */
  lemma {:induction false} WalkSettledArgs(o: GlobalOptions, cs: seq<Converter>, args: seq<Arg>)
    requires forall i :: 0 <= i < |args| ==> SettledArg(o, cs, args[i])
    ensures WalkArgs(o, cs, args) == Some(args)
    decreases args
  {
    var s := seq(|args|, i requires 0 <= i < |args| => WalkArg(o, cs, args[i]));
    forall i | 0 <= i < |args| ensures s[i] == Some(args[i]) {
      WalkSettledArg(o, cs, args[i]);
    }
    AllSomeOfIdentity(args, s);
  }

  lemma {:induction false} WalkSettledArg(o: GlobalOptions, cs: seq<Converter>, a: Arg)
    requires SettledArg(o, cs, a)
    ensures WalkArg(o, cs, a) == Some(a)
    decreases a
  {
    WalkSettledExpr(o, cs, a.expr);
  }

  lemma {:induction false} WalkSettledLabeledClosure(o: GlobalOptions, cs: seq<Converter>, c: LabeledClosure)
    requires SettledExpr(o, cs, c.closure)
    ensures WalkLabeledClosure(o, cs, c) == Some(c)
    decreases c
  {
    WalkSettledExpr(o, cs, c.closure);
  }

  lemma {:induction false} WalkSettledLabeledClosures(o: GlobalOptions, cs: seq<Converter>, more: seq<LabeledClosure>)
    requires forall i :: 0 <= i < |more| ==> SettledExpr(o, cs, more[i].closure)
    ensures WalkLabeledClosures(o, cs, more) == Some(more)
    decreases more
  {
    var s := seq(|more|, i requires 0 <= i < |more| => WalkLabeledClosure(o, cs, more[i]));
    forall i | 0 <= i < |more| ensures s[i] == Some(more[i]) {
      WalkSettledLabeledClosure(o, cs, more[i]);
    }
    AllSomeOfIdentity(more, s);
  }

  lemma {:induction false} WalkSettledOptionalExpr(o: GlobalOptions, cs: seq<Converter>, tc: Option<Expr>)
    requires SettledOptionalExpr(o, cs, tc)
    ensures WalkOptionalExpr(o, cs, tc) == Some(tc)
    decreases tc
  {
    if tc.Some? {
      WalkSettledExpr(o, cs, tc.value);
    }
  }

  /** The items under a settled node (closure statements, members, body statements) come back unchanged. */
  lemma {:induction false} WalkSettledItemsBelow(o: GlobalOptions, cs: seq<Converter>, items: seq<Item>)
    requires forall i :: 0 <= i < |items| ==> SettledItem(o, cs, items[i])
    ensures WalkItems(o, cs, items) == Some(items)
    decreases items
  {
    var s := seq(|items|, i requires 0 <= i < |items| => WalkItem(o, cs, items[i]));
    forall i | 0 <= i < |items| ensures s[i] == Some(items[i]) {
      WalkSettledItem(o, cs, items[i]);
    }
    AllSomeOfIdentity(items, s);
  }

  lemma {:induction false} WalkSettledItem(o: GlobalOptions, cs: seq<Converter>, it: Item)
    requires SettledItem(o, cs, it)
    ensures WalkItem(o, cs, it) == Some(it)
    decreases it
  {
    match it
    case ExprItem(e) => WalkSettledExpr(o, cs, e);
    case DeclItem(d) => WalkSettledDecl(o, cs, d);
  }

  lemma {:induction false} WalkSettledDecl(o: GlobalOptions, cs: seq<Converter>, d: Decl)
    requires SettledDecl(o, cs, d)
    ensures WalkDecl(o, cs, d) == Some(d)
    decreases d
  {
    match d
    case ImportDecl(_, _) =>
      ImportStatementVisitor.VisitReference(d);
    case ClassDecl(_, _, _, _, _, _, members) =>
      WalkSettledItemsBelow(o, cs, members);
    case FunctionDecl(_, _, _, _, _, _, body) =>
      assert MethodVisitor.VisitForTestFunctionDecl(o, d) == d;
      if body.Some? {
        WalkSettledItemsBelow(o, cs, body.value.statements);
        assert WalkBlock(o, cs, body.value) == Some(body.value);
      }
    case InitializerDecl(_, _, _, _, _, body) =>
      if body.Some? {
        WalkSettledItemsBelow(o, cs, body.value.statements);
      }
    case DeinitializerDecl(_, _, _, body) =>
      if body.Some? {
        WalkSettledItemsBelow(o, cs, body.value.statements);
      }
    case VariableDecl(_, _, _, initializer) =>
      WalkSettledOptionalExpr(o, cs, initializer);
    case ContainerDecl(_, _, _, members) =>
      WalkSettledItemsBelow(o, cs, members);
    case OtherDecl(_, _) =>
  }

  /** A settled file is left as it is; a walked file has as many top-level items as before. */
  lemma WalkSettledItems(o: GlobalOptions, cs: seq<Converter>, items: seq<Item>)
    ensures SettledItems(o, cs, items) ==> WalkItems(o, cs, items) == Some(items)
    ensures WalkItems(o, cs, items).Some? ==> |WalkItems(o, cs, items).value| == |items|
  {
    if SettledItems(o, cs, items) {
      WalkSettledItemsBelow(o, cs, items);
    }
  }

  /** `name(arg)` and `#macroName(arg)`, without trivia. */
  function LegacyCall(name: string, arg: Expr): Expr {
    Call("", Ref("", name, ""), true, [Arg(None, arg, false)], None, [], "")
  }

  function MacroCall(macroName: string, arg: Expr): Expr {
    Macro("", macroName, true, [Arg(None, arg, false)], None, [], "")
  }

  function AssertTrueCall(arg: Expr): Expr {
    LegacyCall("XCTAssertTrue", arg)
  }

  function ExpectMacro(arg: Expr): Expr {
    MacroCall("expect", arg)
  }

  lemma BuildSingleArgument(c: Converter, arg: Expr)
    requires c.SingleArgument?
    ensures !Traps(c, LegacyCall(c.Name(), arg))
    ensures BuildExpr(c, LegacyCall(c.Name(), arg)) == Some(MacroCall(c.MacroName(), arg))
  {
    var call := LegacyCall(c.Name(), arg);
    AssertionConverter.PackIdentity(call.args);
    assert !AssertionConverter.HasLocation(call.args);
    MacroConverterOutput(c, call);
  }

  /**
   * A call to a single-argument converter (`XCTAssert`, `XCTAssertTrue`, `XCTUnwrap`) becomes its
   * macro with the same argument, which is not walked.
   */
  lemma WalkSingleArgument(o: GlobalOptions, c: Converter, arg: Expr)
    requires c in AllConverters && c.SingleArgument?
    ensures WalkExpr(o, AllConverters, LegacyCall(c.Name(), arg)) == Some(MacroCall(c.MacroName(), arg))
  {
    VisitSingleArgument(c, arg);
  }

  /** The call's only token names `c`, which converts it. */
  lemma VisitSingleArgument(c: Converter, arg: Expr)
    requires c in AllConverters && c.SingleArgument?
    ensures VisitCall(AllConverters, LegacyCall(c.Name(), arg)) == Replaced(MacroCall(c.MacroName(), arg))
  {
    var call := LegacyCall(c.Name(), arg);
    assert Tokens(call.callee) == [c.Name()];
    FindInAllConverters(c);
    assert FirstMatch(AllConverters, [c.Name()]) == Some(c);
    BuildSingleArgument(c, arg);
  }

  /** Looking up a converter's own name in the list of all converters finds it. */
  lemma FindInAllConverters(c: Converter)
    requires c in AllConverters
    ensures Find(AllConverters, c.Name()) == Some(c)
  {
    ConverterNames();
    FindUnique(AllConverters, c);
  }

  lemma WalkAssertTrue(o: GlobalOptions, arg: Expr)
    ensures WalkExpr(o, AllConverters, AssertTrueCall(arg)) == Some(ExpectMacro(arg))
  {
    assert AllConverters[1] == XCTAssertTrueConverter;
    WalkSingleArgument(o, XCTAssertTrueConverter, arg);
  }

  /** `try XCTUnwrap(value)` becomes `try #require(value)`: the `try` is walked through and kept. */
  lemma WalkTryUnwrap(o: GlobalOptions, lead: Trivia, value: Expr, trail: Trivia)
    ensures WalkExpr(o, AllConverters, Try(lead, LegacyCall("XCTUnwrap", value), trail)) ==
            Some(Try(lead, MacroCall("require", value), trail))
  {
    assert AllConverters[13] == XCTUnwrapConverter;
    assert XCTUnwrapConverter.Name() == "XCTUnwrap" && XCTUnwrapConverter.MacroName() == "require";
    WalkSingleArgument(o, XCTUnwrapConverter, value);
    WalkTry(o, AllConverters, lead, LegacyCall("XCTUnwrap", value), MacroCall("require", value), trail);
  }

  /** `let v = try XCTUnwrap(x)` becomes `let v = try #require(x)`: initializers are walked too. */
  lemma WalkUnwrapBinding(o: GlobalOptions, value: Expr)
    ensures WalkDecl(o, AllConverters, VariableDecl("", "let", "v", Some(Try(" ", LegacyCall("XCTUnwrap", value), "")))) ==
            Some(VariableDecl("", "let", "v", Some(Try(" ", MacroCall("require", value), ""))))
  {
    WalkTryUnwrap(o, " ", value, "");
  }

  lemma WalkTry(o: GlobalOptions, cs: seq<Converter>, lead: Trivia, e: Expr, e': Expr, trail: Trivia)
    requires WalkExpr(o, cs, e) == Some(e')
    ensures WalkExpr(o, cs, Try(lead, e, trail)) == Some(Try(lead, e', trail))
  {
  }

  /** Walking a one-argument `#expect` walks its argument and nothing else. */
  lemma WalkExpectMacro(o: GlobalOptions, cs: seq<Converter>, arg: Expr, arg': Expr)
    requires WalkExpr(o, cs, arg) == Some(arg')
    ensures WalkExpr(o, cs, ExpectMacro(arg)) == Some(ExpectMacro(arg'))
  {
    var args := [Arg(None, arg, false)];
    assert WalkArg(o, cs, args[0]) == Some(Arg(None, arg', false));
    var s := seq(|args|, i requires 0 <= i < |args| => WalkArg(o, cs, args[i]));
    AllSomeOfIdentity([Arg(None, arg', false)], s);
    assert WalkOptionalExpr(o, cs, None) == Some(None);
    assert WalkLabeledClosures(o, cs, []) == Some([]);
  }

  /**
   * A converted call is not walked again: an assertion nested in the argument of another
   * survives the first pass and is converted only by a second one.
   */
  lemma ReplacedCallNotRevisited(o: GlobalOptions)
    ensures var x := Ref("", "x", "");
      WalkExpr(o, AllConverters, AssertTrueCall(AssertTrueCall(x))) == Some(ExpectMacro(AssertTrueCall(x))) &&
      WalkExpr(o, AllConverters, ExpectMacro(AssertTrueCall(x))) == Some(ExpectMacro(ExpectMacro(x)))
  {
    var x := Ref("", "x", "");
    WalkAssertTrue(o, AssertTrueCall(x));
    WalkAssertTrue(o, x);
    WalkExpectMacro(o, AllConverters, AssertTrueCall(x), ExpectMacro(x));
  }

  /** A test method `testDoSomething` whose body asserts `x`. */
  const LegacyTestMethod :=
    FunctionDecl(" ", [], [], "testDoSomething", [], None, Some(CodeBlock(" ", [ExprItem(AssertTrueCall(Ref("", "x", "")))])))

  /** `final class HogeTests: XCTestCase` holding the test method. */
  const LegacyClass :=
    ClassDecl("", [], [Modifier("final")], "class", "HogeTests", Some([InheritedType(["XCTestCase"])]), [DeclItem(LegacyTestMethod)])

  /** `import XCTest` and the test class. */
  const LegacyFile := [DeclItem(ImportDecl("", ["XCTest"])), DeclItem(LegacyClass)]

  /** `@Test func doSomething` with `#expect(x)`. */
  const ConvertedTestMethod :=
    FunctionDecl(" ", [MethodVisitor.TestAttribute], [], "doSomething", [], None,
                 Some(CodeBlock(" ", [ExprItem(ExpectMacro(Ref("", "x", "")))])))

  /** `@Suite struct HogeTests` holding the converted method. */
  const ConvertedClass :=
    ClassDecl("", [ClassVisitor.SuiteAttribute], [], "struct", "HogeTests", Some([]), [DeclItem(ConvertedTestMethod)])

  /** `import Testing` and the converted class. */
  const ConvertedFile := [DeclItem(ImportDecl("", ["Testing"])), DeclItem(ConvertedClass)]

  /** A one-item list walks as its item does. */
  lemma WalkSingleItem(o: GlobalOptions, cs: seq<Converter>, it: Item, it': Item)
    requires WalkItem(o, cs, it) == Some(it')
    ensures WalkItems(o, cs, [it]) == Some([it'])
  {
    var items := [it];
    var s := seq(|items|, i requires 0 <= i < |items| => WalkItem(o, cs, items[i]));
    AllSomeOfIdentity([it'], s);
  }

  lemma VisitLegacyTestMethod()
    ensures MethodVisitor.VisitForTestFunctionDecl(DefaultOptions, LegacyTestMethod) ==
      FunctionDecl(" ", [MethodVisitor.TestAttribute], [], "doSomething", [], None, LegacyTestMethod.body)
  {
    var d := LegacyTestMethod;
    assert StartsWith(d.name, TestMethodNameConverter.TestPrefix);
    assert !MethodVisitor.HasTestMacroAttribute(d.attributes);
    assert MethodVisitor.DetectMethodKind(d) == Some(MethodVisitor.TestCase(d.name));
    TestMethodNameConverter.ConvertFixtures();
  }

  lemma WalkLegacyTestMethod()
    ensures WalkDecl(DefaultOptions, AllConverters, LegacyTestMethod) == Some(ConvertedTestMethod)
  {
    var x := Ref("", "x", "");
    WalkAssertTrueStatement(x);
    WalkFunctionBody(DefaultOptions, AllConverters, LegacyTestMethod, [ExprItem(ExpectMacro(x))]);
    VisitLegacyTestMethod();
  }

  /** The body `XCTAssertTrue(x)` walks to `#expect(x)`. */
  lemma WalkAssertTrueStatement(x: Expr)
    ensures WalkItems(DefaultOptions, AllConverters, [ExprItem(AssertTrueCall(x))]) == Some([ExprItem(ExpectMacro(x))])
  {
    WalkAssertTrue(DefaultOptions, x);
    WalkExprItem(DefaultOptions, AllConverters, AssertTrueCall(x), ExpectMacro(x));
    WalkSingleItem(DefaultOptions, AllConverters, ExprItem(AssertTrueCall(x)), ExprItem(ExpectMacro(x)));
  }

  lemma WalkExprItem(o: GlobalOptions, cs: seq<Converter>, e: Expr, e': Expr)
    requires WalkExpr(o, cs, e) == Some(e')
    ensures WalkItem(o, cs, ExprItem(e)) == Some(ExprItem(e'))
  {
  }

  /** A method with a body: the visited header, holding the walked statements. */
  lemma WalkFunctionBody(o: GlobalOptions, cs: seq<Converter>, d: Decl, statements': seq<Item>)
    requires d.FunctionDecl? && d.body.Some?
    requires WalkItems(o, cs, d.body.value.statements) == Some(statements')
    ensures WalkDecl(o, cs, d) == Some(WithStatements(MethodVisitor.VisitForTestFunctionDecl(o, d), statements'))
  {
  }

  /** A class: the visited header, holding the walked members. */
  lemma WalkClassMembers(o: GlobalOptions, cs: seq<Converter>, d: Decl, members': seq<Item>)
    requires d.ClassDecl?
    requires WalkItems(o, cs, d.members) == Some(members')
    ensures WalkDecl(o, cs, d) == Some(WithMembers(ClassVisitor.VisitForTestClass(o, d), members'))
  {
  }

  lemma VisitLegacyClass()
    ensures ClassVisitor.VisitForTestClass(DefaultOptions, LegacyClass) ==
      ClassDecl("", [ClassVisitor.SuiteAttribute], [], "struct", "HogeTests", Some([]), LegacyClass.members)
  {
    ClassVisitor.GuessReference(LegacyClass);
    ClassVisitor.TestClassConversion(DefaultOptions, LegacyClass);
  }

  lemma WalkLegacyClass()
    ensures WalkDecl(DefaultOptions, AllConverters, LegacyClass) == Some(ConvertedClass)
  {
    var o := DefaultOptions;
    WalkLegacyTestMethod();
    WalkDeclItem(o, AllConverters, LegacyTestMethod, ConvertedTestMethod);
    WalkSingleItem(o, AllConverters, DeclItem(LegacyTestMethod), DeclItem(ConvertedTestMethod));
    WalkClassMembers(o, AllConverters, LegacyClass, [DeclItem(ConvertedTestMethod)]);
    VisitLegacyClass();
  }

  /**
   * `extension HogeTests { func testDoSomething() { XCTAssertTrue(x) } }`: methods in an
   * extension are rewritten as in a class, without the class visitor.
   */
  lemma WalkExtension()
    ensures WalkDecl(DefaultOptions, AllConverters, ContainerDecl("", "extension", "HogeTests", [DeclItem(LegacyTestMethod)])) ==
            Some(ContainerDecl("", "extension", "HogeTests", [DeclItem(ConvertedTestMethod)]))
  {
    WalkLegacyTestMethod();
    WalkDeclItem(DefaultOptions, AllConverters, LegacyTestMethod, ConvertedTestMethod);
    WalkSingleItem(DefaultOptions, AllConverters, DeclItem(LegacyTestMethod), DeclItem(ConvertedTestMethod));
    WalkContainerMembers(DefaultOptions, AllConverters,
                         ContainerDecl("", "extension", "HogeTests", [DeclItem(LegacyTestMethod)]),
                         [DeclItem(ConvertedTestMethod)]);
  }

  /** An extension, struct, enum, actor or protocol: the same header, holding the walked members. */
  lemma WalkContainerMembers(o: GlobalOptions, cs: seq<Converter>, d: Decl, members': seq<Item>)
    requires d.ContainerDecl?
    requires WalkItems(o, cs, d.members) == Some(members')
    ensures WalkDecl(o, cs, d) == Some(d.(members := members'))
  {
  }

  lemma WalkDeclItem(o: GlobalOptions, cs: seq<Converter>, d: Decl, d': Decl)
    requires WalkDecl(o, cs, d) == Some(d')
    ensures WalkItem(o, cs, DeclItem(d)) == Some(DeclItem(d'))
  {
  }

  /** A two-item list walks as its items do. */
  lemma WalkTwoItems(o: GlobalOptions, cs: seq<Converter>, a: Item, b: Item, a': Item, b': Item)
    requires WalkItem(o, cs, a) == Some(a') && WalkItem(o, cs, b) == Some(b')
    ensures WalkItems(o, cs, [a, b]) == Some([a', b'])
  {
    var items := [a, b];
    var s := seq(|items|, i requires 0 <= i < |items| => WalkItem(o, cs, items[i]));
    AllSomeOfIdentity([a', b'], s);
  }

  lemma WalkLegacyFile()
    ensures WalkItems(DefaultOptions, AllConverters, LegacyFile) == Some(ConvertedFile)
  {
    var o := DefaultOptions;
    var importDecl, importDecl' := ImportDecl("", ["XCTest"]), ImportDecl("", ["Testing"]);
    ImportStatementVisitor.VisitFixtures();
    WalkDeclItem(o, AllConverters, importDecl, importDecl');
    WalkLegacyClass();
    WalkDeclItem(o, AllConverters, LegacyClass, ConvertedClass);
    WalkTwoItems(o, AllConverters, DeclItem(importDecl), DeclItem(LegacyClass), DeclItem(importDecl'), DeclItem(ConvertedClass));
  }

  /** The whole-file fixture: import, class and method are converted together with the default options. */
  lemma RewriteFixture()
    ensures XCTestRewriter(DefaultOptions).Rewrite(LegacyFile) == Some(ConvertedFile)
  {
    WalkLegacyFile();
  }
}
