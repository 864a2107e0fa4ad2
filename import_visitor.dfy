/** The import visitor: `import XCTest` becomes `import Testing`, other imports are left alone. */
module ImportStatementVisitor {
  import opened Wrappers
  import opened Collection
  import opened Syntax
  import opened SyntaxExtensions

  /** One path component: its name token, followed by a `.` token unless it is the last. */
  function PathComponentTree(path: seq<string>, i: nat): Tree
    requires i < |path|
  {
    Tree(ImportPathComponentKind, "", [Token(path[i])] + (if i + 1 < |path| then [Token(".")] else []))
  }

  function PathComponentListTree(path: seq<string>): Tree {
    Tree(ImportPathComponentListKind, "", seq(|path|, i requires 0 <= i < |path| => PathComponentTree(path, i)))
  }

  /** The import declaration's children in source order: attributes, modifiers, keyword, path. */
  function ImportTree(d: Decl): Tree
    requires d.ImportDecl?
  {
    Tree(ImportDeclKind, "",
         [Tree(AttributeListKind, "", []), Tree(DeclModifierListKind, "", []), Token("import"), PathComponentListTree(d.path)])
  }

  /** The path list of an import, and that list's first component when the path is not empty. */
  lemma ImportTreeShape(d: Decl)
    requires d.ImportDecl?
    ensures FirstOfAs(ImportTree(d), ImportPathComponentListKind, ImportPathComponentListKind) == Some(PathComponentListTree(d.path))
    ensures FirstOfAs(PathComponentListTree(d.path), ImportPathComponentKind, ImportPathComponentKind) ==
      if |d.path| > 0 then Some(PathComponentTree(d.path, 0)) else None
  {
    IndexWhereAt(ImportTree(d).children, HasKind(ImportPathComponentListKind), 3);
    if |d.path| > 0 {
      IndexWhereAt(PathComponentListTree(d.path).children, HasKind(ImportPathComponentKind), 0);
    }
  }

  /** The first token of the first path component is that component's name. */
  lemma FirstComponentName(d: Decl)
    requires d.ImportDecl? && |d.path| > 0
    ensures FirstToken(PathComponentTree(d.path, 0)) == Some(d.path[0])
  {
    FirstTokenOfLeadingToken(PathComponentTree(d.path, 0));
  }

  /**
   * `visitForImportDecl(_:)` before the default traversal: when the first component of the
   * path is named `XCTest`, that component is renamed `Testing` and the rest of the path kept.
   */
  function VisitForImportDecl(d: Decl): (r: Decl)
    requires d.ImportDecl?
    ensures r.ImportDecl? && r.lead == d.lead && |r.path| == |d.path|
    ensures forall i :: 1 <= i < |d.path| ==> r.path[i] == d.path[i]
    ensures r != d ==> d.path[0] == "XCTest" && r.path[0] == "Testing"
  {
    match FirstOfAs(ImportTree(d), ImportPathComponentListKind, ImportPathComponentListKind)
    case None => d
    case Some(importPathComponentList) =>
      match FirstOfAs(importPathComponentList, ImportPathComponentKind, ImportPathComponentKind)
      case None => d
      case Some(importPathComponent) =>
        if FirstToken(importPathComponent) == Some("XCTest") then
          ImportTreeShape(d);
          FirstComponentName(d);
          ImportDecl(d.lead, d.path[0 := "Testing"])
        else d
  }

  /** The visit stated on the path: only a path starting with `XCTest` changes, and only there. */
  lemma VisitReference(d: Decl)
    requires d.ImportDecl?
    ensures VisitForImportDecl(d) ==
      if |d.path| > 0 && d.path[0] == "XCTest" then ImportDecl(d.lead, ["Testing"] + d.path[1..]) else d
  {
    if |d.path| > 0 && d.path[0] == "XCTest" {
      VisitRenames(d);
      RenameFirst(d.path);
    } else {
      VisitKeeps(d);
    }
  }

  lemma RenameFirst(path: seq<string>)
    requires |path| > 0
    ensures path[0 := "Testing"] == ["Testing"] + path[1..]
  {
  }

  lemma VisitRenames(d: Decl)
    requires d.ImportDecl? && |d.path| > 0 && d.path[0] == "XCTest"
    ensures VisitForImportDecl(d) == ImportDecl(d.lead, d.path[0 := "Testing"])
  {
    ImportTreeShape(d);
    FirstComponentName(d);
  }

  lemma VisitKeeps(d: Decl)
    requires d.ImportDecl? && !(|d.path| > 0 && d.path[0] == "XCTest")
    ensures VisitForImportDecl(d) == d
  {
    ImportTreeShape(d);
    if |d.path| > 0 {
      FirstComponentName(d);
    }
  }

  /** A rewritten import no longer names `XCTest`, so a second visit changes nothing. */
  lemma VisitIdempotent(d: Decl)
    requires d.ImportDecl?
    ensures VisitForImportDecl(d).ImportDecl?
    ensures VisitForImportDecl(VisitForImportDecl(d)) == VisitForImportDecl(d)
  {
    VisitReference(d);
    VisitReference(VisitForImportDecl(d));
  }

  /** The fixtures: `import XCTest` becomes `import Testing`, `import Foundation` stays. */
  lemma VisitFixtures()
    ensures VisitForImportDecl(ImportDecl("", ["XCTest"])) == ImportDecl("", ["Testing"])
    ensures VisitForImportDecl(ImportDecl("", ["Foundation"])) == ImportDecl("", ["Foundation"])
  {
    var xctest := ImportDecl("", ["XCTest"]);
    VisitReference(xctest);
    assert ["Testing"] + xctest.path[1..] == ["Testing"];
    var foundation := ImportDecl("", ["Foundation"]);
    VisitReference(foundation);
    assert |foundation.path[0]| != |"XCTest"|;
  }
}
