/**
 * A generic view of a syntax node as a kind, a token text and ordered children, with the
 * navigation helpers the visitors use to look below a node: the first child of a kind, a path of
 * such steps that fails as soon as one step finds nothing, and the first token under a node.
 */
module SyntaxExtensions {
  import opened Wrappers
  import opened Collection

  datatype Kind =
    | ClassDeclKind
    | AttributeListKind
    | DeclModifierListKind
    | InheritanceClauseKind
    | InheritedTypeListKind
    | InheritedTypeKind
    | MemberBlockKind
    | ImportDeclKind
    | ImportPathComponentListKind
    | ImportPathComponentKind
    | TokenKind

  /** A node: its kind, its text (meaningful for tokens only), and its children in source order. */
  datatype Tree = Tree(kind: Kind, text: string, children: seq<Tree>)

  function Token(text: string): Tree {
    Tree(TokenKind, text, [])
  }

  function HasKind(k: Kind): Tree -> bool {
    (t: Tree) => t.kind == k
  }

  /** `first(of:)`: the first child of kind `k`. */
  function FirstOf(t: Tree, k: Kind): (r: Option<Tree>)
    ensures r.Some? ==> r.value.kind == k
    ensures r.Some? ==> exists i :: 0 <= i < |t.children| && t.children[i] == r.value &&
                                    forall j :: 0 <= j < i ==> t.children[j].kind != k
    ensures r.None? ==> forall i :: 0 <= i < |t.children| ==> t.children[i].kind != k
  {
    match IndexWhere(t.children, HasKind(k))
    case None => None
    case Some(i) => Some(t.children[i])
  }

  /** The typed `first(of:as:)`: the first child of kind `k`, kept only if it is a node of kind `asKind`. */
  function FirstOfAs(t: Tree, k: Kind, asKind: Kind): (r: Option<Tree>)
    ensures r.Some? <==> FirstOf(t, k).Some? && k == asKind
    ensures r.Some? ==> r == FirstOf(t, k)
  {
    match FirstOf(t, k)
    case None => None
    case Some(c) => if c.kind == asKind then Some(c) else None
  }

  /**
   * `traverse(kinds:)`: a left fold over `kinds` that steps to the first child of each kind in
   * turn and gives up (nil) at the first step that finds no such child.
   */
  function Traverse(t: Tree, kinds: seq<Kind>): (r: Option<Tree>)
    ensures kinds == [] ==> r == Some(t)
    ensures r.Some? && kinds != [] ==> r.value.kind == kinds[|kinds| - 1]
  {
    if kinds == [] then Some(t)
    else match Traverse(t, kinds[..|kinds| - 1])
      case None => None
      case Some(n) => FirstOf(n, kinds[|kinds| - 1])
  }

  /** The typed `traverse(kinds:as:)`. */
  function TraverseAs(t: Tree, kinds: seq<Kind>, asKind: Kind): (r: Option<Tree>)
    ensures r.Some? ==> r.value.kind == asKind && r == Traverse(t, kinds)
    ensures Traverse(t, kinds).Some? && Traverse(t, kinds).value.kind == asKind ==> r.Some?
  {
    match Traverse(t, kinds)
    case None => None
    case Some(n) => if n.kind == asKind then Some(n) else None
  }

  /** The empty path leads to the node itself, and a path of one kind is one `first(of:)` step. */
  lemma TraverseBase(t: Tree, k: Kind)
    ensures Traverse(t, []) == Some(t)
    ensures Traverse(t, [k]) == FirstOf(t, k)
  {
    assert [k][..0] == [];
  }

  /** Following a path `a + b` is following `a`, then `b` from where `a` ended; a failure in `a` is final. */
  lemma {:induction false} TraverseAppend(t: Tree, a: seq<Kind>, b: seq<Kind>)
    ensures Traverse(t, a + b) == (match Traverse(t, a) case None => None case Some(n) => Traverse(n, b))
    decreases |b|
  {
    if b == [] {
      assert a + b == a;
    } else {
      var b' := b[..|b| - 1];
      assert (a + b)[..|a + b| - 1] == a + b';
      assert (a + b)[|a + b| - 1] == b[|b| - 1];
      TraverseAppend(t, a, b');
    }
  }

  /** Stepping through a path from the front: one `first(of:)` step, then the rest of the path. */
  lemma TraverseCons(t: Tree, k: Kind, rest: seq<Kind>)
    ensures Traverse(t, [k] + rest) == (match FirstOf(t, k) case None => None case Some(c) => Traverse(c, rest))
  {
    TraverseAppend(t, [k], rest);
    TraverseBase(t, k);
  }

  /** The first token under a node, in source order (the node itself when it is a token). */
  function FirstToken(t: Tree): (r: Option<string>)
    ensures t.kind == TokenKind ==> r == Some(t.text)
    ensures t.kind != TokenKind ==> (r.None? <==> forall k :: 0 <= k < |t.children| ==> FirstToken(t.children[k]).None?)
    ensures t.kind != TokenKind && r.Some? ==>
      exists k :: 0 <= k < |t.children| && FirstToken(t.children[k]) == r &&
                  forall j :: 0 <= j < k ==> FirstToken(t.children[j]).None?
    decreases t, |t.children| + 1
  {
    if t.kind == TokenKind then Some(t.text) else FirstTokenFrom(t, 0)
  }

  /** The first token under the children of `t` from index `i` on. */
  function FirstTokenFrom(t: Tree, i: nat): (r: Option<string>)
    requires i <= |t.children|
    ensures r.None? <==> forall k :: i <= k < |t.children| ==> FirstToken(t.children[k]).None?
    ensures r.Some? ==>
      exists k :: i <= k < |t.children| && FirstToken(t.children[k]) == r &&
                  forall j :: i <= j < k ==> FirstToken(t.children[j]).None?
    decreases t, |t.children| - i
  {
    if i == |t.children| then None
    else match FirstToken(t.children[i])
      case Some(s) => Some(s)
      case None => FirstTokenFrom(t, i + 1)
  }

  /** A node whose first child is a token starts with that token. */
  lemma FirstTokenOfLeadingToken(t: Tree)
    requires t.kind != TokenKind && |t.children| > 0 && t.children[0].kind == TokenKind
    ensures FirstToken(t) == Some(t.children[0].text)
  {
  }
}
