/**
 * The class visitor: a class guessed to be an XCTest test case loses its inheritance clause,
 * may gain `@Suite`, and becomes a `struct` (without modifiers) or stays a class.
 */
module ClassVisitor {
  import opened Wrappers
  import opened Collection
  import opened Strings
  import opened Syntax
  import opened SyntaxExtensions

  /** `@Suite` */
  const SuiteAttribute := Attribute(IdentifierType("Suite"))

  /** The node of one inherited type: its tokens in order. */
  function InheritedTypeTree(t: InheritedType): Tree {
    Tree(InheritedTypeKind, "", seq(|t.tokens|, i requires 0 <= i < |t.tokens| => Token(t.tokens[i])))
  }

  function InheritedTypeListTree(types: seq<InheritedType>): Tree {
    Tree(InheritedTypeListKind, "", seq(|types|, i requires 0 <= i < |types| => InheritedTypeTree(types[i])))
  }

  function InheritanceClauseTree(types: seq<InheritedType>): Tree {
    Tree(InheritanceClauseKind, "", [Token(":"), InheritedTypeListTree(types)])
  }

  /**
   * The class declaration's children in source order: attribute list, modifier list, keyword,
   * name, the inheritance clause when there is one, and the member block. The lists' contents
   * are not searched by the visitor and are left out of this view.
   */
  function ClassTree(d: Decl): Tree
    requires d.ClassDecl?
  {
    Tree(ClassDeclKind, "",
         [Tree(AttributeListKind, "", []), Tree(DeclModifierListKind, "", []), Token(d.introducer), Token(d.name)]
         + (if d.inheritance.Some? then [InheritanceClauseTree(d.inheritance.value)] else [])
         + [Tree(MemberBlockKind, "", [])])
  }

  const InheritedTypePath := [InheritanceClauseKind, InheritedTypeListKind, InheritedTypeKind]

  /**
   * `guessWhetherTestCaseClass(_:)`: the first inherited type is found by following the path
   * inheritance clause / inherited type list / inherited type; without one the class is not a
   * test case. With one, it is a test case when that type's first token is `XCTestCase` or the
   * class name ends in `Tests` or `Test`.
   */
  predicate GuessWhetherTestCaseClass(d: Decl)
    requires d.ClassDecl?
    ensures GuessWhetherTestCaseClass(d) ==>
      d.inheritance.Some? && |d.inheritance.value| > 0 && |d.inheritance.value[0].tokens| > 0
  {
    TraverseToFirstInheritedType(d);
    match TraverseAs(ClassTree(d), InheritedTypePath, InheritedTypeKind)
    case None => false
    case Some(inheritedType) =>
      match FirstToken(inheritedType)
      case None => false
      case Some(superClassName) =>
        superClassName == "XCTestCase" || EndsWith(d.name, "Tests") || EndsWith(d.name, "Test")
  }

  /** The first inheritance clause of a class is its own, when it has one. */
  lemma FirstInheritanceClause(d: Decl)
    requires d.ClassDecl?
    ensures FirstOf(ClassTree(d), InheritanceClauseKind) ==
      if d.inheritance.Some? then Some(InheritanceClauseTree(d.inheritance.value)) else None
  {
    var t := ClassTree(d);
    if d.inheritance.Some? {
      IndexWhereAt(t.children, HasKind(InheritanceClauseKind), 4);
    } else {
      assert t.children == [Tree(AttributeListKind, "", []), Tree(DeclModifierListKind, "", []),
                            Token(d.introducer), Token(d.name), Tree(MemberBlockKind, "", [])];
      assert IndexWhere(t.children, HasKind(InheritanceClauseKind)).None?;
    }
  }

  /** Below the clause: its inherited type list, then that list's first entry, if any. */
  lemma FirstInheritedType(types: seq<InheritedType>)
    ensures FirstOf(InheritanceClauseTree(types), InheritedTypeListKind) == Some(InheritedTypeListTree(types))
    ensures FirstOf(InheritedTypeListTree(types), InheritedTypeKind) ==
      if |types| > 0 then Some(InheritedTypeTree(types[0])) else None
  {
    IndexWhereAt(InheritanceClauseTree(types).children, HasKind(InheritedTypeListKind), 1);
    if |types| > 0 {
      IndexWhereAt(InheritedTypeListTree(types).children, HasKind(InheritedTypeKind), 0);
    }
  }

  /** The path from a class to its first inherited type reaches exactly that type's node. */
  lemma TraverseToFirstInheritedType(d: Decl)
    requires d.ClassDecl?
    ensures TraverseAs(ClassTree(d), InheritedTypePath, InheritedTypeKind) ==
      if d.inheritance.Some? && |d.inheritance.value| > 0
      then Some(InheritedTypeTree(d.inheritance.value[0])) else None
  {
    var t := ClassTree(d);
    assert InheritedTypePath == [InheritanceClauseKind] + [InheritedTypeListKind, InheritedTypeKind];
    TraverseCons(t, InheritanceClauseKind, [InheritedTypeListKind, InheritedTypeKind]);
    FirstInheritanceClause(d);
    if d.inheritance.Some? {
      var types := d.inheritance.value;
      TraverseCons(InheritanceClauseTree(types), InheritedTypeListKind, [InheritedTypeKind]);
      FirstInheritedType(types);
      TraverseBase(InheritedTypeListTree(types), InheritedTypeKind);
    }
  }

  /**
   * The guess, stated on the declaration itself: there is a first inherited type with at least
   * one token, and that token is `XCTestCase` or the name ends in `Tests` or `Test`. A class
   * without an inheritance clause is never a test case, whatever its name.
   */
  lemma GuessReference(d: Decl)
    requires d.ClassDecl?
    ensures GuessWhetherTestCaseClass(d) <==>
      d.inheritance.Some? && |d.inheritance.value| > 0 && |d.inheritance.value[0].tokens| > 0 &&
      (d.inheritance.value[0].tokens[0] == "XCTestCase" || EndsWith(d.name, "Tests") || EndsWith(d.name, "Test"))
  {
    TraverseToFirstInheritedType(d);
    if d.inheritance.Some? && |d.inheritance.value| > 0 {
      var n := InheritedTypeTree(d.inheritance.value[0]);
      if |n.children| > 0 {
        FirstTokenOfLeadingToken(n);
      }
    }
  }

  /** `@Suite` in front of the existing attributes. */
  function AddingSuite(d: Decl): (r: Decl)
    requires d.ClassDecl?
    ensures r.ClassDecl? && r.attributes == [SuiteAttribute] + d.attributes
  {
    ClassDecl(d.lead, [SuiteAttribute] + d.attributes, d.modifiers, d.introducer, d.name, d.inheritance, d.members)
  }

  /** `buildSwiftTestingClass(from:)`: the inheritance clause is emptied. */
  function BuildSwiftTestingClass(d: Decl): (r: Decl)
    requires d.ClassDecl?
    ensures r.ClassDecl? && r.inheritance == Some([])
  {
    ClassDecl(d.lead, d.attributes, d.modifiers, d.introducer, d.name, Some([]), d.members)
  }

  /** `buildStruct(from:)`: keyword `struct`, no modifiers (`final` goes), inheritance clause emptied. */
  function BuildStruct(d: Decl): (r: Decl)
    requires d.ClassDecl?
    ensures r.ClassDecl? && r.introducer == "struct" && r.modifiers == [] && r.inheritance == Some([])
  {
    ClassDecl(d.lead, d.attributes, [], "struct", d.name, Some([]), d.members)
  }

  /** `visitForTestClass(_:)` before the default traversal of the result's members. */
  function VisitForTestClass(options: GlobalOptions, d: Decl): (r: Decl)
    requires d.ClassDecl?
    ensures r.ClassDecl? && r.lead == d.lead && r.name == d.name && r.members == d.members
  {
    if !GuessWhetherTestCaseClass(d) then d
    else
      var newNode := if options.enableAddingSuite then AddingSuite(d) else d;
      if options.enableStructConversion then BuildStruct(newNode) else BuildSwiftTestingClass(newNode)
  }

  /**
   * What happens to a test class: `@Suite` first when adding suites, keyword `struct` and no
   * modifiers when converting to structs, and in every case an emptied inheritance clause; the
   * trivia, name and members are kept.
   */
  lemma TestClassConversion(options: GlobalOptions, d: Decl)
    requires d.ClassDecl? && GuessWhetherTestCaseClass(d)
    ensures var r := VisitForTestClass(options, d);
      r.ClassDecl? && r.lead == d.lead && r.name == d.name && r.members == d.members &&
      r.attributes == (if options.enableAddingSuite then [SuiteAttribute] else []) + d.attributes &&
      r.introducer == (if options.enableStructConversion then "struct" else d.introducer) &&
      r.modifiers == (if options.enableStructConversion then [] else d.modifiers) &&
      r.inheritance == Some([])
  {
  }

  /** A class that is not guessed to be a test case is left as it is. */
  lemma NonTestClassUnchanged(options: GlobalOptions, d: Decl)
    requires d.ClassDecl? && !GuessWhetherTestCaseClass(d)
    ensures VisitForTestClass(options, d) == d
  {
  }

  /** A converted class has no inherited type left, so visiting it again changes nothing. */
  lemma VisitIdempotent(options: GlobalOptions, d: Decl)
    requires d.ClassDecl?
    ensures VisitForTestClass(options, d).ClassDecl?
    ensures VisitForTestClass(options, VisitForTestClass(options, d)) == VisitForTestClass(options, d)
  {
    var r := VisitForTestClass(options, d);
    GuessReference(r);
  }

  /** The fixture classes: `HogeTests: XCTestCase` and `HogeTests: NoTest` are test cases, `NotATestClass` is not. */
  lemma GuessFixtures()
    ensures GuessWhetherTestCaseClass(ClassDecl("", [], [Modifier("final")], "class", "HogeTests",
                                                Some([InheritedType(["XCTestCase"])]), []))
    ensures GuessWhetherTestCaseClass(ClassDecl("", [], [Modifier("final")], "class", "HogeTests",
                                                Some([InheritedType(["NoTest"])]), []))
    ensures !GuessWhetherTestCaseClass(ClassDecl("", [], [Modifier("final")], "class", "NotATestClass", None, []))
  {
    GuessReference(ClassDecl("", [], [Modifier("final")], "class", "HogeTests", Some([InheritedType(["XCTestCase"])]), []));
    var noTest := ClassDecl("", [], [Modifier("final")], "class", "HogeTests", Some([InheritedType(["NoTest"])]), []);
    GuessReference(noTest);
    assert EndsWith(noTest.name, "Tests");
    GuessReference(ClassDecl("", [], [Modifier("final")], "class", "NotATestClass", None, []));
  }
}
