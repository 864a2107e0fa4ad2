/**
 * The method visitor: inside a test class, `testXxx` methods become `@Test` functions,
 * `setUp`/`setUpWithError` become initializers and `tearDown` becomes a deinitializer.
 * Static methods and methods already marked `@Test` are left alone.
 */
module MethodVisitor {
  import opened Wrappers
  import opened Collection
  import opened Strings
  import opened Syntax
  import TestMethodNameConverter

  datatype MethodKind = TestCase(name: string) | SetUp | TearDown

  /** `@Test` */
  const TestAttribute := Attribute(IdentifierType("Test"))

  /** `hasTestMacroAttribute`: an attribute whose name is the identifier type `Test`; `#if` blocks do not count. */
  predicate HasTestMacroAttribute(attributes: seq<AttributeElement>)
    ensures HasTestMacroAttribute(attributes) <==> TestAttribute in attributes
  {
    exists a :: a in attributes && a.Attribute? && a.attributeName == IdentifierType("Test")
  }

  /** `isStaticMethod(node:)`: some modifier is the keyword `static`. */
  predicate IsStaticMethod(modifiers: seq<Modifier>)
    ensures IsStaticMethod(modifiers) <==> FirstWhere(modifiers, IsStatic()).Some?
  {
    exists m :: m in modifiers && m.keyword == "static"
  }

  function IsStatic(): Modifier -> bool {
    (m: Modifier) => m.keyword == "static"
  }

  /**
   * `detectMethodKind(of:)`: static methods are none of the kinds; otherwise a `test` prefix
   * makes a test case, `setUp` or `setUpWithError` a set-up, and exactly `tearDown` a tear-down
   * (`tearDownWithError` is not one: a deinitializer cannot throw).
   */
  function DetectMethodKind(d: Decl): (r: Option<MethodKind>)
    requires d.FunctionDecl?
    ensures r.Some? ==> !IsStaticMethod(d.modifiers)
    ensures r.Some? && r.value.TestCase? ==> r.value.name == d.name && StartsWith(d.name, TestMethodNameConverter.TestPrefix)
    ensures r == Some(TearDown) ==> d.name == "tearDown"
    ensures r == Some(SetUp) ==> d.name == "setUp" || d.name == "setUpWithError"
    ensures IsStaticMethod(d.modifiers) ==> r.None?
    ensures !IsStaticMethod(d.modifiers) && StartsWith(d.name, TestMethodNameConverter.TestPrefix) ==>
      r == Some(TestCase(d.name))
    ensures !IsStaticMethod(d.modifiers) && d.name in ["setUp", "setUpWithError"] ==> r == Some(SetUp)
    ensures !IsStaticMethod(d.modifiers) && d.name == "tearDown" ==> r == Some(TearDown)
    ensures !StartsWith(d.name, TestMethodNameConverter.TestPrefix) && d.name !in ["setUp", "setUpWithError", "tearDown"] ==>
      r.None?
  {
    assert !StartsWith("setUp", TestMethodNameConverter.TestPrefix) by { assert "setUp"[0] != 't'; }
    assert !StartsWith("setUpWithError", TestMethodNameConverter.TestPrefix) by { assert "setUpWithError"[0] != 't'; }
    assert !StartsWith("tearDown", TestMethodNameConverter.TestPrefix) by { assert "tearDown"[2] != 's'; }
    if IsStaticMethod(d.modifiers) then None
    else if StartsWith(d.name, TestMethodNameConverter.TestPrefix) then Some(TestCase(d.name))
    else if d.name in ["setUp", "setUpWithError"] then Some(SetUp)
    else if d.name in ["tearDown"] then Some(TearDown)
    else None
  }

  function IsOverride(): Modifier -> bool {
    (m: Modifier) => m.keyword == "override"
  }

  function IsNotOverride(): Modifier -> bool {
    (m: Modifier) => m.keyword != "override"
  }

  /**
   * The modifiers of an initializer or deinitializer made from a method: the first `override`
   * is dropped, everything else stays in order.
   */
  function WithoutFirstOverride(modifiers: seq<Modifier>): (r: seq<Modifier>)
    ensures IndexWhere(modifiers, IsOverride()).None? ==> r == modifiers
    ensures IndexWhere(modifiers, IsOverride()).Some? ==>
      |r| + 1 == |modifiers| &&
      |Filter(r, IsOverride())| + 1 == |Filter(modifiers, IsOverride())| &&
      Filter(r, IsNotOverride()) == Filter(modifiers, IsNotOverride())
  {
    match IndexWhere(modifiers, IsOverride())
    case None => modifiers
    case Some(i) =>
      FilterRemoveAt(modifiers, i, IsOverride());
      FilterRemoveAt(modifiers, i, IsNotOverride());
      RemoveAt(modifiers, i)
  }

  /**
   * Which `override` goes: the first one, the one after a prefix holding none. Any later
   * `override` stays where it is.
   */
  lemma {:induction false} WithoutFirstOverrideAfterPrefix(prefix: seq<Modifier>, rest: seq<Modifier>)
    requires forall m :: m in prefix ==> m.keyword != "override"
    requires |rest| > 0 && rest[0].keyword == "override"
    ensures WithoutFirstOverride(prefix + rest) == prefix + rest[1..]
  {
    var modifiers := prefix + rest;
    forall j | 0 <= j < |prefix| ensures !IsOverride()(modifiers[j]) {
      assert modifiers[j] == prefix[j] && prefix[j] in prefix;
    }
    IndexWhereAt(modifiers, IsOverride(), |prefix|);
    assert RemoveAt(modifiers, |prefix|) == prefix + rest[1..];
  }

  /** `removeInvalidModifiers(from:)`: `findIndex(where:)` then `remove(at:)` on a copy. */
  method RemoveInvalidModifiers(modifiers: seq<Modifier>) returns (newModifiers: seq<Modifier>)
    ensures newModifiers == WithoutFirstOverride(modifiers)
  {
    newModifiers := modifiers;
    var index := FindIndex(modifiers, IsOverride());
    if index.None? {
      return modifiers;
    }
    newModifiers := RemoveAt(newModifiers, index.value);
  }

  /**
   * `strippingTestPrefix(of:)` as written: drops four characters and lower-cases the next one,
   * or keeps the name when nothing follows `test`. It has no case for `test_`.
   */
  function StrippingTestPrefix(testCaseName: string): (r: string)
    requires StartsWith(testCaseName, TestMethodNameConverter.TestPrefix)
    ensures |testCaseName| == 4 ==> r == testCaseName
    ensures |testCaseName| > 4 ==>
      |r| == |testCaseName| - 4 && r[0] == LowerAscii(testCaseName[4]) && r[1..] == testCaseName[5..]
  {
    var convertedName := testCaseName[4..];
    if convertedName == [] then testCaseName
    else [LowerAscii(convertedName[0])] + convertedName[1..]
  }

  /**
   * `rewriteTestCase(node:)`: `@Test` goes in front of the attributes and the name loses its
   * `test` prefix when stripping is on. The name is converted by `TestMethodNameConverter`, so
   * `test_snake_case` becomes `snake_case`.
   */
  function RewriteTestCase(options: GlobalOptions, d: Decl): (r: Decl)
    requires d.FunctionDecl?
    ensures r.FunctionDecl? && r.attributes == [TestAttribute] + d.attributes
    ensures r.name == TestMethodNameConverter.Convert(options.enableStrippingTestPrefix, d.name)
    ensures r.lead == d.lead && r.modifiers == d.modifiers && r.parameters == d.parameters
    ensures r.effects == d.effects && r.body == d.body
  {
    FunctionDecl(d.lead, [TestAttribute] + d.attributes, d.modifiers,
                 TestMethodNameConverter.Convert(options.enableStrippingTestPrefix, d.name),
                 d.parameters, d.effects, d.body)
  }

  /**
   * `rewriteSetUp(node:)`: an initializer with the method's trivia, attributes, effect
   * specifiers and body, no parameters, and without its first `override`.
   */
  function RewriteSetUp(d: Decl): (r: Decl)
    requires d.FunctionDecl?
    ensures r.InitializerDecl? && r.parameters == []
    ensures r.lead == d.lead && r.attributes == d.attributes && r.effects == d.effects && r.body == d.body
    ensures r.modifiers == WithoutFirstOverride(d.modifiers)
  {
    InitializerDecl(d.lead, d.attributes, WithoutFirstOverride(d.modifiers), [], d.effects, d.body)
  }

  /**
   * `rewriteTearDown(node:)`: a deinitializer with the method's trivia, attributes and body
   * (a space in front of it), without its first `override`. The method's effect specifiers are
   * dropped: a deinitializer has none.
   */
  function RewriteTearDown(d: Decl): (r: Decl)
    requires d.FunctionDecl? && d.name == "tearDown"
    ensures r.DeinitializerDecl? && r.lead == d.lead && r.attributes == d.attributes
    ensures r.modifiers == WithoutFirstOverride(d.modifiers)
    ensures d.body.None? <==> r.body.None?
    ensures d.body.Some? ==> r.body.value.statements == d.body.value.statements && r.body.value.lead == " "
  {
    DeinitializerDecl(d.lead, d.attributes, WithoutFirstOverride(d.modifiers),
                      if d.body.Some? then Some(d.body.value.(lead := " ")) else None)
  }

  /** `visitForTestFunctionDecl(_:)` before the default traversal of the result's children. */
  function VisitForTestFunctionDecl(options: GlobalOptions, d: Decl): (r: Decl)
    requires d.FunctionDecl?
    ensures r.FunctionDecl? || r.InitializerDecl? || r.DeinitializerDecl?
    ensures r.body.Some? <==> d.body.Some?
    ensures r.body.Some? ==> r.body.value.statements == d.body.value.statements
  {
    if HasTestMacroAttribute(d.attributes) then d
    else match DetectMethodKind(d)
      case None => d
      case Some(TestCase(_)) => RewriteTestCase(options, d)
      case Some(SetUp) => RewriteSetUp(d)
      case Some(TearDown) => RewriteTearDown(d)
  }

  /** Methods marked `@Test`, static methods and methods of no kind are left as they are. */
  lemma UnmatchedMethodUnchanged(options: GlobalOptions, d: Decl)
    requires d.FunctionDecl?
    requires HasTestMacroAttribute(d.attributes) || IsStaticMethod(d.modifiers) ||
             (!StartsWith(d.name, "test") && d.name !in ["setUp", "setUpWithError", "tearDown"])
    ensures VisitForTestFunctionDecl(options, d) == d
  {
  }

  /** A rewritten test case carries `@Test`, so visiting it again changes nothing. */
  lemma VisitIdempotent(options: GlobalOptions, d: Decl)
    requires d.FunctionDecl?
    requires VisitForTestFunctionDecl(options, d).FunctionDecl?
    ensures VisitForTestFunctionDecl(options, VisitForTestFunctionDecl(options, d)) == VisitForTestFunctionDecl(options, d)
  {
    var r := VisitForTestFunctionDecl(options, d);
    if r != d {
      assert r.attributes[0] == TestAttribute;
      assert HasTestMacroAttribute(r.attributes);
    }
  }

  /** Only the prefix-stripping switch affects methods. */
  lemma OnlyStrippingSwitchMatters(o1: GlobalOptions, o2: GlobalOptions, d: Decl)
    requires d.FunctionDecl? && o1.enableStrippingTestPrefix == o2.enableStrippingTestPrefix
    ensures VisitForTestFunctionDecl(o1, d) == VisitForTestFunctionDecl(o2, d)
  {
  }

  /**
   * The inline `strippingTestPrefix` agrees with `TestMethodNameConverter` exactly on the names
   * that do not start with `test_`.
   */
  lemma StrippingTestPrefixDiverges(name: string)
    requires StartsWith(name, TestMethodNameConverter.TestPrefix)
    ensures StrippingTestPrefix(name) == TestMethodNameConverter.Convert(true, name)
            <==> !StartsWith(name, TestMethodNameConverter.SnakeCasePrefix)
  {
    if StartsWith(name, TestMethodNameConverter.SnakeCasePrefix) {
      assert name[4] == name[..5][4] == '_';
      assert |StrippingTestPrefix(name)| == |name| - 4;
    } else if |name| > 4 {
      assert name[4] != '_';
    } else {
      assert name == name[..4] == "test";
    }
  }

  /** The input that shows the divergence: `test_do_something` keeps its underscore. */
  lemma StrippingTestPrefixKeepsUnderscore()
    ensures StrippingTestPrefix("test_do_something") == "_do_something"
    ensures TestMethodNameConverter.Convert(true, "test_do_something") == "do_something"
  {
    TestMethodNameConverter.ConvertFixtures();
  }
}
