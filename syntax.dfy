/**
 * The part of a Swift syntax tree the rewriters read and build. Every node keeps the trivia
 * (whitespace and comments) in front of it (`lead`) and, for expressions, behind it (`trail`):
 * the rewriters move or clear exactly these.
 */
module Syntax {
  import opened Wrappers

  type Trivia = string

  /** Expressions. `Call` is a function call, `Macro` a freestanding macro expansion (`#expect(...)`). */
  datatype Expr =
    | Ref(lead: Trivia, name: string, trail: Trivia)
    | Call(lead: Trivia, callee: Expr, parens: bool, args: seq<Arg>,
           trailingClosure: Option<Expr>, additionalClosures: seq<LabeledClosure>, trail: Trivia)
    | Macro(lead: Trivia, macroName: string, parens: bool, args: seq<Arg>,
            trailingClosure: Option<Expr>, additionalClosures: seq<LabeledClosure>, trail: Trivia)
    | Infix(lead: Trivia, lhs: Expr, op: string, rhs: Expr, trail: Trivia)
    | Not(lead: Trivia, operand: Expr, trail: Trivia)
    | Try(lead: Trivia, operand: Expr, trail: Trivia)
    | NilLiteral(lead: Trivia, trail: Trivia)
    | Member(lead: Trivia, base: Expr, member: string, trail: Trivia)
    | AnyType(lead: Trivia, constraint: string, trail: Trivia)
    | Tuple(lead: Trivia, elements: seq<Arg>, trail: Trivia)
    | Closure(lead: Trivia, signature: Option<string>, statements: seq<Item>, trail: Trivia)

  /** One element of an argument list: optional label, expression, and whether a comma follows it. */
  datatype Arg = Arg(argLabel: Option<string>, expr: Expr, hasComma: bool)

  /** An additional trailing closure such as `throws: { error in ... }`. */
  datatype LabeledClosure = LabeledClosure(closureLabel: string, closure: Expr)

  /** A statement or a member: an expression or a declaration. */
  datatype Item = ExprItem(expr: Expr) | DeclItem(decl: Decl)

  datatype AttributeName = IdentifierType(identifier: string) | OtherType(text: string)

  /** An element of an attribute list: an attribute, or an `#if` block of attributes. */
  datatype AttributeElement = Attribute(attributeName: AttributeName) | IfConfig(condition: string)

  datatype Modifier = Modifier(keyword: string)

  datatype Effects = Effects(isAsync: bool, isThrowing: bool)

  /** One entry of an inheritance clause, as its tokens (`XCTestCase`, `Foundation`, `.`, `NSObject`). */
  datatype InheritedType = InheritedType(tokens: seq<string>)

  /** The braces-delimited body of a function, initializer or deinitializer. */
  datatype CodeBlock = CodeBlock(lead: Trivia, statements: seq<Item>)

  datatype Decl =
    | ImportDecl(lead: Trivia, path: seq<string>)
    | ClassDecl(lead: Trivia, attributes: seq<AttributeElement>, modifiers: seq<Modifier>,
                introducer: string, name: string, inheritance: Option<seq<InheritedType>>, members: seq<Item>)
    | FunctionDecl(lead: Trivia, attributes: seq<AttributeElement>, modifiers: seq<Modifier>,
                   name: string, parameters: seq<string>, effects: Option<Effects>, body: Option<CodeBlock>)
    | InitializerDecl(lead: Trivia, attributes: seq<AttributeElement>, modifiers: seq<Modifier>,
                      parameters: seq<string>, effects: Option<Effects>, body: Option<CodeBlock>)
    | DeinitializerDecl(lead: Trivia, attributes: seq<AttributeElement>, modifiers: seq<Modifier>,
                        body: Option<CodeBlock>)
    | VariableDecl(lead: Trivia, bindingSpecifier: string, name: string, initializer: Option<Expr>)
      /** `extension`, `struct`, `enum`, `actor` or `protocol`: no visitor of its own, but members. */
    | ContainerDecl(lead: Trivia, introducer: string, name: string, members: seq<Item>)
    | OtherDecl(lead: Trivia, text: string)

  /** The process-wide switches the rewriters read; set once and never changed. */
  datatype GlobalOptions = GlobalOptions(
    isDryRunMode: bool,
    enableStructConversion: bool,
    enableStrippingTestPrefix: bool,
    enableAddingSuite: bool)

  const DefaultOptions := GlobalOptions(false, true, true, true)

  function Flatten(ss: seq<seq<string>>): (r: seq<string>)
    ensures ss == [] ==> r == []
  {
    if ss == [] then [] else ss[0] + Flatten(ss[1..])
  }

  /** The source tokens of an expression, in order; trivia is not part of a token. */
  function Tokens(e: Expr): seq<string>
    decreases e
  {
    match e
    case Ref(_, name, _) => [name]
    case Call(_, callee, parens, args, tc, more, _) =>
      Tokens(callee)
      + (if parens then ["("] else [])
      + Flatten(seq(|args|, i requires 0 <= i < |args| => ArgTokens(args[i])))
      + (if parens then [")"] else [])
      + (if tc.Some? then Tokens(tc.value) else [])
      + Flatten(seq(|more|, i requires 0 <= i < |more| => LabeledClosureTokens(more[i])))
    case Macro(_, name, parens, args, tc, more, _) =>
      ["#", name]
      + (if parens then ["("] else [])
      + Flatten(seq(|args|, i requires 0 <= i < |args| => ArgTokens(args[i])))
      + (if parens then [")"] else [])
      + (if tc.Some? then Tokens(tc.value) else [])
      + Flatten(seq(|more|, i requires 0 <= i < |more| => LabeledClosureTokens(more[i])))
    case Infix(_, lhs, op, rhs, _) => Tokens(lhs) + [op] + Tokens(rhs)
    case Not(_, operand, _) => ["!"] + Tokens(operand)
    case Try(_, operand, _) => ["try"] + Tokens(operand)
    case NilLiteral(_, _) => ["nil"]
    case Member(_, base, member, _) => Tokens(base) + [".", member]
    case AnyType(_, constraint, _) => ["any", constraint]
    case Tuple(_, elements, _) =>
      ["("] + Flatten(seq(|elements|, i requires 0 <= i < |elements| => ArgTokens(elements[i]))) + [")"]
    case Closure(_, signature, statements, _) =>
      ["{"]
      + (if signature.Some? then [signature.value, "in"] else [])
      + Flatten(seq(|statements|, i requires 0 <= i < |statements| => ItemTokens(statements[i])))
      + ["}"]
  }

  function ArgTokens(a: Arg): seq<string>
    decreases a
  {
    (if a.argLabel.Some? then [a.argLabel.value, ":"] else []) + Tokens(a.expr) + (if a.hasComma then [","] else [])
  }

  function LabeledClosureTokens(c: LabeledClosure): seq<string>
    decreases c
  {
    [c.closureLabel, ":"] + Tokens(c.closure)
  }

  function ItemTokens(it: Item): seq<string>
    decreases it
  {
    match it
    case ExprItem(e) => Tokens(e)
    case DeclItem(d) => DeclTokens(d)
  }

  function AttributeTokens(attributes: seq<AttributeElement>): seq<string> {
    if attributes == [] then []
    else
      (match attributes[0]
       case Attribute(IdentifierType(n)) => ["@", n]
       case Attribute(OtherType(t)) => ["@", t]
       case IfConfig(c) => ["#if", c, "#endif"])
      + AttributeTokens(attributes[1..])
  }

  function ModifierTokens(modifiers: seq<Modifier>): seq<string> {
    if modifiers == [] then [] else [modifiers[0].keyword] + ModifierTokens(modifiers[1..])
  }

  function EffectTokens(effects: Option<Effects>): seq<string> {
    match effects
    case None => []
    case Some(Effects(a, t)) => (if a then ["async"] else []) + (if t then ["throws"] else [])
  }

  function DeclTokens(d: Decl): seq<string>
    decreases d
  {
    match d
    case ImportDecl(_, path) => ["import"] + path
    case ClassDecl(_, attributes, modifiers, introducer, name, inheritance, members) =>
      AttributeTokens(attributes) + ModifierTokens(modifiers) + [introducer, name]
      + (if inheritance.Some? && |inheritance.value| > 0 then
           [":"] + Flatten(seq(|inheritance.value|, i requires 0 <= i < |inheritance.value| => inheritance.value[i].tokens))
         else [])
      + ["{"]
      + Flatten(seq(|members|, i requires 0 <= i < |members| => ItemTokens(members[i])))
      + ["}"]
    case FunctionDecl(_, attributes, modifiers, name, parameters, effects, body) =>
      AttributeTokens(attributes) + ModifierTokens(modifiers) + ["func", name, "("] + parameters + [")"]
      + EffectTokens(effects) + (if body.Some? then
           BlockTokens(body.value)
         else [])
    case InitializerDecl(_, attributes, modifiers, parameters, effects, body) =>
      AttributeTokens(attributes) + ModifierTokens(modifiers) + ["init", "("] + parameters + [")"]
      + EffectTokens(effects) + (if body.Some? then
           BlockTokens(body.value)
         else [])
    case DeinitializerDecl(_, attributes, modifiers, body) =>
      AttributeTokens(attributes) + ModifierTokens(modifiers) + ["deinit"] + (if body.Some? then
           BlockTokens(body.value)
         else [])
    case VariableDecl(_, bindingSpecifier, name, initializer) =>
      [bindingSpecifier, name] + (if initializer.Some? then ["="] + Tokens(initializer.value) else [])
    case ContainerDecl(_, introducer, name, members) =>
      [introducer, name, "{"]
      + Flatten(seq(|members|, i requires 0 <= i < |members| => ItemTokens(members[i])))
      + ["}"]
    case OtherDecl(_, text) => [text]
  }

  function BlockTokens(b: CodeBlock): seq<string>
    decreases b
  {
    ["{"] + Flatten(seq(|b.statements|, i requires 0 <= i < |b.statements| => ItemTokens(b.statements[i]))) + ["}"]
  }
}
