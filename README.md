# swift-testing-revolutionary: the rewrite engine, modelled in Dafny

swift-testing-revolutionary migrates Swift test files from XCTest to swift-testing. It parses a
file and walks the syntax tree with a rewriter that dispatches on the kind of node:

- `import XCTest` becomes `import Testing`;
- a class that looks like an `XCTestCase` subclass becomes a `@Suite` struct (or a class
  without the superclass);
- `testXxx` methods become `@Test func xxx`, `setUp` becomes `init` and `tearDown` becomes
  `deinit`;
- every XCTest assertion call (`XCTAssertEqual(a, b, "msg", file: f, line: l)`) is replaced by a
  macro such as `#expect(a == b, "msg", sourceLocation: SourceLocation(file: f, line: l))`.

This project models that engine as total Dafny functions over a small syntax datatype and proves
what each step promises:

- **Syntax** (`syntax.dfy`): expressions, arguments, declarations and options. Trivia is kept
  per node as a leading and a trailing string.
- **Tree navigation** (`syntax_extensions.dfy`): the generic node view with `first(of:)`,
  `traverse(kinds:)` as a left fold, and the first token under a node.
- **Argument pipeline** (`assertion_converter.dfy`): `arguments = convertRemaining ∘
  convertAssertion`, with the in-place `trimArgument`/`packToSourceLocation` proved equal to
  their specification functions.
- **Converters**: one file per converter family, and a closed sum type over all of them
  (`converter_family.dfy`). Traps (indexing past the end of the argument list) are modelled as
  explicit preconditions, not hidden.
- **Call dispatch** (`assertion_rewriter.dfy`): the ordered registry and its lookup.
- **Declaration visitors**: methods, classes and imports (`method_visitor.dfy`,
  `class_visitor.dfy`, `import_visitor.dfy`), plus the test-name converter.
- **The whole-file rewriter** (`xctest_rewriter.dfy`): a pre-order walk that stops with `None`
  where a converter would trap.

Where the code and its description disagree, the model follows the code:

- `setUpWithError` keeps whatever effect specifiers the method had. It is not forced to `throws`.
- `tearDown`'s effect specifiers are dropped without notice.
- A call that was converted is returned without visiting its children
  (`AssertionRewriter.swift:36`). An assertion nested inside another's argument therefore
  survives one pass (`Rewriter.ReplacedCallNotRevisited`).
- The error-assertion macro is built without the call's leading and trailing trivia.
- The registry in `AssertionRewriter.swift` lists 12 converters. It omits `XCTAssertFalse`,
  `XCTUnwrap`, `XCTFail`, `XCTAssertThrowsError` and `XCTAssertNoThrow`.
- A class with no inheritance clause is never a test class, even when its name ends in
  `Tests`.
- `XCTAssertThrowsError` decides between its two macro shapes by looking at the call's trailing
  closure. The code re-derives this from `arguments.parent`; the model computes the decision
  once per call and passes it to both places that need it.

In one place the whole-file model follows the evidently intended behaviour rather than the
code. `rewriteTestCase` strips the name with its own inline `strippingTestPrefix`, which has no
`test_` case. `MethodVisitor.RewriteTestCase`, and so the file rewriter, names the method with
`TestMethodNameConverter.convert` instead. The inline strip is modelled as written
(`MethodVisitor.StrippingTestPrefix`), and the difference is listed under Findings.

## Model

| member | source | states |
|---|---|---|
| Collection.IndexWhere | Sources/RevolutionKit/Rewriter/AssertionConverters/AssertionConverter.swift:106 | the index found is the first whose element satisfies the predicate; none means no element does |
| Collection.IndexWhereAt | Sources/RevolutionKit/Rewriter/XCTestRewriter+MethodVisitor.swift:141 | an index whose element matches, with no match before it, is the one `findIndex(where:)` returns |
| Collection.FindIndex | Sources/RevolutionKit/Rewriter/XCTestRewriter+MethodVisitor.swift:141 | the scanning loop returns exactly the first matching index (or none) |
| Collection.RemoveAt | Sources/RevolutionKit/Rewriter/AssertionConverters/AssertionConverter.swift:109 | `remove(at:)` shortens the list by one, keeps the elements before the index and shifts the ones after it |
| Collection.FirstWhere | Sources/RevolutionKit/Rewriter/AssertionConverters/AssertionConverter.swift:106-109 | the element found is the first in list order that satisfies the predicate; none means no element does |
| Collection.FilterRemoveAt | Sources/RevolutionKit/Rewriter/XCTestRewriter+MethodVisitor.swift:144 | removing one element leaves the elements of every other kind untouched and removes one of its own kind |
| Collection.AllSome | Sources/RevolutionKit/Rewriter/AssertionRewriter.swift:28-37 | a list of partial results succeeds exactly when every element does, with the elements' values in order |
| SyntaxExtensions.FirstOf | Sources/RevolutionKit/Utility/SwiftSyntax+Extensions.swift:5-7 | the child found has the kind asked for and no earlier child has it; none means no child has it |
| SyntaxExtensions.FirstOfAs | Sources/RevolutionKit/Utility/SwiftSyntax+Extensions.swift:20-23 | the typed lookup succeeds exactly when the untyped one does and the kinds agree |
| SyntaxExtensions.Traverse | Sources/RevolutionKit/Utility/SwiftSyntax+Extensions.swift:25-36 | the empty path leads to the node itself; a node reached by a non-empty path has the path's last kind |
| SyntaxExtensions.TraverseAs | Sources/RevolutionKit/Utility/SwiftSyntax+Extensions.swift:38-41 | the typed traversal returns the node the path leads to, exactly when that node has the requested kind |
| SyntaxExtensions.TraverseAppend | Sources/RevolutionKit/Utility/SwiftSyntax+Extensions.swift:25-36 | following `a + b` is following `a` then `b` from where `a` ended, and a failed step is final |
| SyntaxExtensions.TraverseCons | Sources/RevolutionKit/Utility/SwiftSyntax+Extensions.swift:25-36 | a path walks front to back: one `first(of:)` step, then the rest of the path |
| SyntaxExtensions.FirstToken | Sources/RevolutionKit/Rewriter/XCTestRewriter+ClassVisitor.swift:81 | a token is its own first token; any other node's first token is that of its first child that has one, and it has none exactly when no child has one |
| SyntaxExtensions.FirstTokenFrom | Sources/RevolutionKit/Rewriter/XCTestRewriter+ClassVisitor.swift:81 | the first token among the children from index i on: the one of the first such child that has one; none exactly when none of them has one |
| SyntaxExtensions.FirstTokenOfLeadingToken | Sources/RevolutionKit/Rewriter/XCTestRewriter+ClassVisitor.swift:81 | a node whose first child is a token starts with that token |
| AssertionConverter.Trim | Sources/RevolutionKit/Rewriter/AssertionConverters/AssertionConverter.swift:105-110 | the trimmed argument is the first one carrying the label; without one the list is unchanged, otherwise one shorter |
| AssertionConverter.Pack | Sources/RevolutionKit/Rewriter/AssertionConverters/AssertionConverter.swift:65-100 | the packed list is never longer; without `file:`/`line:` it is the list itself, with one it ends in the `sourceLocation:` argument |
| AssertionConverter.TrimArgument | Sources/RevolutionKit/Rewriter/AssertionConverters/AssertionConverter.swift:105-110 | the in-place trim (find the index, remove it) computes exactly `Trim` |
| AssertionConverter.PackToSourceLocation | Sources/RevolutionKit/Rewriter/AssertionConverters/AssertionConverter.swift:65-100 | the in-place packing (trim `file:`, trim `line:`, append) computes exactly `Pack` |
| AssertionConverter.PackIdentity | Sources/RevolutionKit/Rewriter/AssertionConverters/AssertionConverter.swift:66-71 | packing leaves the list unchanged if and only if no argument is labelled `file` or `line` |
| AssertionConverter.PackCounts | Sources/RevolutionKit/Rewriter/AssertionConverters/AssertionConverter.swift:93-99 | the arguments other than `file:`/`line:` keep their order; with a location argument present, the only other argument left is the last one |
| AssertionConverter.PackAppendsSourceLocation | Sources/RevolutionKit/Rewriter/AssertionConverters/AssertionConverter.swift:73-99 | the last argument is `sourceLocation: SourceLocation(...)` holding the first `file:` and the first `line:` argument, file first, each only if present; the list never grows |
| AssertionConverter.PackTrimsFirstOnly | Sources/RevolutionKit/Rewriter/AssertionConverters/AssertionConverter.swift:105-110 | only the first `file:` (or `line:`) is trimmed; a second one stays in the list |
| AssertionConverter.TrimCount | Sources/RevolutionKit/Rewriter/AssertionConverters/AssertionConverter.swift:105-110 | trimming one label removes one argument of that label and none of any other |
| AssertionConverter.LineFoundIndependently | Sources/RevolutionKit/Rewriter/AssertionConverters/AssertionConverter.swift:66-67 | trimming `file:` first does not change which `line:` argument is found |
| AssertionConverter.PackTrailingLocation | Sources/RevolutionKit/Rewriter/AssertionConverters/AssertionConverter.swift:93-99 | trailing `file:`/`line:` arguments are replaced in place by one `sourceLocation:` argument |
| AssertionConverter.PackKeepsCommas | Sources/RevolutionKit/Rewriter/AssertionConverters/AssertionConverter.swift:93-99 | a comma-separated list stays comma-separated after packing, and so do the arguments inside `SourceLocation(...)` |
| AssertionConverter.PackCons | Sources/RevolutionKit/Rewriter/AssertionConverters/AssertionConverter.swift:65-100 | an argument in front that is not a location argument passes through packing untouched |
| AssertionConverter.TrimAfterPrefix | Sources/RevolutionKit/Rewriter/AssertionConverters/AssertionConverter.swift:105-110 | the first labelled argument after a prefix without it is the one removed, the prefix is kept |
| AssertionConverter.TrimAbsent | Sources/RevolutionKit/Rewriter/AssertionConverters/AssertionConverter.swift:105-108 | without the label nothing is trimmed |
| AssertionConverter.TrimCons | Sources/RevolutionKit/Rewriter/AssertionConverters/AssertionConverter.swift:105-110 | an argument in front without the label stays in front |
| AssertionConverter.MacroExpansion | Sources/RevolutionKit/Rewriter/AssertionConverters/AssertionConverter.swift:35-48 | the macro carries the given name and arguments and the call's trivia and parentheses |
| SingleArgumentExpectConverters.NegateFirstArgument | Sources/RevolutionKit/Rewriter/AssertionConverters/SingleArgumentExpectConverters.swift:14-30 | only the first argument's expression becomes `!expr`, keeping its label and comma; length and the later arguments are unchanged; an empty list stays empty |
| SingleArgumentExpectConverters.NegationRoundTrip | Sources/RevolutionKit/Rewriter/AssertionConverters/SingleArgumentExpectConverters.swift:21-29 | removing the added `!` gives back the original arguments |
| InfixOperatorExpectConverters.InfixArguments | Sources/RevolutionKit/Rewriter/AssertionConverters/InfixOperatorExpectConverters.swift:19-51 | the result is one unlabelled `lhs op rhs` argument followed by the arguments after the first k; the comparison has a comma exactly when arguments remain; lhs and rhs are taken by position with their inner trivia cleared |
| InfixOperatorExpectConverters.Lhs | Sources/RevolutionKit/Rewriter/AssertionConverters/InfixOperatorExpectConverters.swift:45-47 | the left operand is the first argument's expression, taken by position; callers guarantee one exists |
| InfixOperatorExpectConverters.Rhs | Sources/RevolutionKit/Rewriter/AssertionConverters/InfixOperatorExpectConverters.swift:49-51 | the right operand is `nil` for the nil checks and otherwise the expression of the last argument the comparison consumes (the second), taken by position |
| InfixOperatorExpectConverters.OperatorTable | Sources/RevolutionKit/Rewriter/AssertionConverters/InfixOperatorExpectConverters.swift:54-122 | the eight binary converters read two arguments and the nil checks one; the operators are `== != === !== > >= < <=`, then `==`/`!=` against `nil` |
| InfixOperatorExpectConverters.InfixKeepsCommas | Sources/RevolutionKit/Rewriter/AssertionConverters/InfixOperatorExpectConverters.swift:34-42 | a comma-separated argument list stays comma-separated |
| ErrorAssertionExpectConverters.ExpectMacroTypeOf | Sources/RevolutionKit/Rewriter/AssertionConverters/ErrorAssertionExpectConverters.swift:74-80 | condition checking if and only if the call has a trailing closure |
| ErrorAssertionExpectConverters.ReplaceFirstWithThrows | Sources/RevolutionKit/Rewriter/AssertionConverters/ErrorAssertionExpectConverters.swift:98-124 | argument 0 becomes `throws: <type>`, with a comma exactly when more arguments follow; the rest is unchanged |
| ErrorAssertionExpectConverters.ThrowsErrorArguments | Sources/RevolutionKit/Rewriter/AssertionConverters/ErrorAssertionExpectConverters.swift:82-94 | type checking puts `throws: (any Error).self` in place of argument 0; condition checking drops argument 0 |
| ErrorAssertionExpectConverters.NoThrowArguments | Sources/RevolutionKit/Rewriter/AssertionConverters/ErrorAssertionExpectConverters.swift:145-165 | argument 0 becomes `throws: Never.self` under the same comma rule |
| ErrorAssertionExpectConverters.PerformingClosure | Sources/RevolutionKit/Rewriter/AssertionConverters/ErrorAssertionExpectConverters.swift:34-51 | there is a performing closure exactly when there is an argument, and its body is that argument's expression |
| ErrorAssertionExpectConverters.ThrowsErrorClosures | Sources/RevolutionKit/Rewriter/AssertionConverters/ErrorAssertionExpectConverters.swift:128-142 | only condition checking adds closures: the existing additional ones, then the trailing closure labelled `throws` |
| ErrorAssertionExpectConverters.ErrorExpectMacro | Sources/RevolutionKit/Rewriter/AssertionConverters/ErrorAssertionExpectConverters.swift:10-32 | an `#expect` with the given arguments, parentheses exactly when there are arguments, the performing closure trailing, and the additional closures after it |
| XCTFailConverter.IssueRecord | Sources/RevolutionKit/Rewriter/AssertionConverters/XCTFailConverter.swift:8-14 | the new callee is `Issue.record`, carrying the old callee's trivia |
| XCTFailConverter.ReplaceCallee | Sources/RevolutionKit/Rewriter/AssertionConverters/XCTFailConverter.swift:7-17 | only the callee changes: putting the old callee back gives the original call |
| ConverterFamily.BuildExpr | Sources/RevolutionKit/Rewriter/AssertionConverters/AssertionConverter.swift:35-48 | gives up exactly for an error converter on a call without arguments; a macro converter yields its macro over `arguments(from:)`; `XCTFail` keeps the arguments |
| ConverterFamily.ConvertAssertionArguments | Sources/RevolutionKit/Rewriter/AssertionConverters/AssertionConverter.swift:50-53 | every family's conversion removes at most one argument and adds none, and the arguments after the first two end the converted list unchanged |
| ConverterFamily.ConvertRemainingArguments | Sources/RevolutionKit/Rewriter/AssertionConverters/AssertionConverter.swift:55-61 | never lengthens; `XCTFail` and lists without `file:`/`line:` are kept; otherwise the list ends in `sourceLocation:` |
| ConverterFamily.Arguments | Sources/RevolutionKit/Rewriter/AssertionConverters/AssertionConverter.swift:22-27 | the macro's argument list is never longer than the call's |
| ConverterFamily.ConverterNames | Sources/RevolutionKit/Rewriter/AssertionConverters/XCTUnwrapConverter.swift:4-12 | seventeen converters with distinct names; `XCTUnwrap` expands to `#require`, every other macro converter to `#expect` |
| ConverterFamily.MacroConverterOutput | Sources/RevolutionKit/Rewriter/AssertionConverters/AssertionConverter.swift:22-27 | for macro converters, the output is the macro over `convertRemaining(convertAssertion(args))`, with the call's trivia and parentheses |
| ConverterFamily.WithArguments | Sources/RevolutionKit/Rewriter/AssertionConverters/SingleArgumentExpectConverters.swift:28-29 | replacing a call's arguments keeps its error-macro shape |
| ConverterFamily.FalseIsAssertOfNegation | Sources/RevolutionKit/Rewriter/AssertionConverters/SingleArgumentExpectConverters.swift:14-30 | `XCTAssertFalse(x, ...)` converts exactly as `XCTAssert(!x, ...)` |
| ConverterFamily.ComparisonPacksTheRest | Sources/RevolutionKit/Rewriter/AssertionConverters/InfixOperatorExpectConverters.swift:19-43 | a comparison's output arguments are the comparison followed by the packed remaining arguments |
| ConverterFamily.ThrowsErrorTypeChecking | Sources/RevolutionKit/Rewriter/AssertionConverters/ErrorAssertionExpectConverters.swift:98-124 | without a trailing closure: `#expect(throws: (any Error).self, <packed rest>) { <arg 0> }`, no extra closures |
| ConverterFamily.ThrowsErrorConditionChecking | Sources/RevolutionKit/Rewriter/AssertionConverters/ErrorAssertionExpectConverters.swift:74-95 | with a trailing closure: `#expect(<packed rest>) { <arg 0> } throws: <closure>` |
| ConverterFamily.NoThrowOutput | Sources/RevolutionKit/Rewriter/AssertionConverters/ErrorAssertionExpectConverters.swift:145-165 | `#expect(throws: Never.self, <packed rest>) { <arg 0> }` |
| ConverterFamily.FailureReportKeepsArguments | Sources/RevolutionKit/Rewriter/AssertionConverters/XCTFailConverter.swift:19-25 | both argument hooks of `XCTFail` are the identity, so `file:`/`line:` are not packed |
| AssertionRewriter.Find | Sources/RevolutionKit/Rewriter/AssertionRewriter.swift:40-45 | the converter found has the name and is the first in list order that does; none means no converter has it |
| AssertionRewriter.FirstMatch | Sources/RevolutionKit/Rewriter/AssertionRewriter.swift:29-31 | the converter of the first callee token that names one; none exactly when no token does |
| AssertionRewriter.VisitCall | Sources/RevolutionKit/Rewriter/AssertionRewriter.swift:28-37 | the call is left to the default traversal exactly when no token names a converter or the converter gives up; it traps exactly when the first matching converter's argument indexing would fail; a replacement is the output of that first matching converter |
| AssertionRewriter.FindUnique | Sources/RevolutionKit/Rewriter/AssertionRewriter.swift:40-45 | with distinct names, the lookup returns the one converter of that name |
| AssertionRewriter.RegistryIsSelection | Sources/RevolutionKit/Rewriter/AssertionRewriter.swift:4-17 | the registry holds exactly twelve converters, in the listed order |
| AssertionRewriter.RegistryNamesDistinct | Sources/RevolutionKit/Rewriter/AssertionRewriter.swift:4-17 | the registered names are distinct |
| AssertionRewriter.RegistryExcludes | Sources/RevolutionKit/Rewriter/AssertionRewriter.swift:4-17 | none of the five unregistered converters shares a name with a registered one |
| AssertionRewriter.UnregisteredNotConverted | Sources/RevolutionKit/Rewriter/AssertionRewriter.swift:29-32 | a call to an unregistered converter's name goes to the default traversal unchanged |
| AssertionRewriter.RegisteredNameConverts | Sources/RevolutionKit/Rewriter/AssertionRewriter.swift:28-37 | a call to a registered name is replaced by that converter's output |
| AssertionRewriter.FirstTokenWins | Sources/RevolutionKit/Rewriter/AssertionRewriter.swift:29-31 | the first matching token decides, whatever later tokens name |
| TestMethodNameConverter.StrippedFirst | Sources/RevolutionKit/Rewriter/TestMethodNameConverter.swift:30-34 | the prefix of length k followed by the result is the input |
| TestMethodNameConverter.LowercasedFirstLetter | Sources/RevolutionKit/Rewriter/TestMethodNameConverter.swift:36-39 | only the first character is lowercased; the empty string stays empty |
| TestMethodNameConverter.Convert | Sources/RevolutionKit/Rewriter/TestMethodNameConverter.swift:12-27 | a conversion never lengthens a name, and changes it only when stripping is on and the name starts with `test` |
| TestMethodNameConverter.ConvertDisabled | Sources/RevolutionKit/Rewriter/TestMethodNameConverter.swift:13 | with stripping disabled, every name is kept |
| TestMethodNameConverter.SnakeCaseRoundTrip | Sources/RevolutionKit/Rewriter/TestMethodNameConverter.swift:15-16 | a `test_` name is `test_` followed by its conversion: exactly five characters dropped |
| TestMethodNameConverter.CamelCaseRoundTrip | Sources/RevolutionKit/Rewriter/TestMethodNameConverter.swift:19-22 | a `testX...` name is `test` followed by its conversion with the first letter uppercased again |
| TestMethodNameConverter.ConvertCamelCase | Sources/RevolutionKit/Rewriter/TestMethodNameConverter.swift:19-22 | with stripping on, a `test` name that goes on with something other than `_` loses `test`, and the first remaining letter is lowercased |
| TestMethodNameConverter.ConvertShortens | Sources/RevolutionKit/Rewriter/TestMethodNameConverter.swift:12-26 | a conversion never lengthens a name, and a `test`-prefixed name other than `test_` never converts to the empty name |
| TestMethodNameConverter.ConvertFixtures | Tests/RevolutionKitTests/TestMethodNameConverterTests.swift:5-12 | `testDoSomething` → `doSomething`, `test_do_something` → `do_something`, `test` → `test`, identity when disabled |
| MethodVisitor.DetectMethodKind | Sources/RevolutionKit/Rewriter/XCTestRewriter+MethodVisitor.swift:114-128 | the classification in its order, both ways: a static method has no kind; otherwise a `test` prefix gives a test case of that name, `setUp` or `setUpWithError` a set-up, exactly `tearDown` a tear-down, and every other name no kind |
| MethodVisitor.HasTestMacroAttribute | Sources/RevolutionKit/Rewriter/XCTestRewriter+MethodVisitor.swift:157-167 | true exactly when `@Test` is among the attributes |
| MethodVisitor.IsStaticMethod | Sources/RevolutionKit/Rewriter/XCTestRewriter+MethodVisitor.swift:131-135 | true exactly when a search for a `static` modifier finds one |
| MethodVisitor.StrippingTestPrefix | Sources/RevolutionKit/Rewriter/XCTestRewriter+MethodVisitor.swift:98-111 | `test` alone is kept; a longer name loses four characters and its fifth is lowercased, the rest kept (so `test_x` keeps the underscore) |
| MethodVisitor.WithoutFirstOverride | Sources/RevolutionKit/Rewriter/XCTestRewriter+MethodVisitor.swift:139-146 | the first `override` goes, every other modifier stays in order; without `override` the list is unchanged |
| MethodVisitor.WithoutFirstOverrideAfterPrefix | Sources/RevolutionKit/Rewriter/XCTestRewriter+MethodVisitor.swift:139-146 | the `override` removed is the first one: after a prefix without `override`, the result is the prefix followed by the rest minus its head, so a later `override` stays |
| MethodVisitor.RemoveInvalidModifiers | Sources/RevolutionKit/Rewriter/XCTestRewriter+MethodVisitor.swift:139-146 | the in-place removal computes exactly `WithoutFirstOverride` |
| MethodVisitor.RewriteTestCase | Sources/RevolutionKit/Rewriter/XCTestRewriter+MethodVisitor.swift:24-53 | `@Test` goes in front of the attributes; the name goes through `TestMethodNameConverter.convert` when stripping is on (the intended naming, not the inline strip the code calls); everything else is kept |
| MethodVisitor.RewriteSetUp | Sources/RevolutionKit/Rewriter/XCTestRewriter+MethodVisitor.swift:58-76 | an initializer with no parameters keeping trivia, attributes, effect specifiers and body, without the first `override` |
| MethodVisitor.RewriteTearDown | Sources/RevolutionKit/Rewriter/XCTestRewriter+MethodVisitor.swift:79-93 | a deinitializer keeping trivia, attributes and body statements, without the first `override`; a deinitializer has no effect specifiers, so they are dropped |
| MethodVisitor.VisitForTestFunctionDecl | Sources/RevolutionKit/Rewriter/XCTestRewriter+MethodVisitor.swift:6-20 | the result is a function, initializer or deinitializer with the same body statements, so the default traversal walks the original body |
| MethodVisitor.UnmatchedMethodUnchanged | Sources/RevolutionKit/Rewriter/XCTestRewriter+MethodVisitor.swift:7-9 | methods already marked `@Test`, static methods and methods of no kind are left alone |
| MethodVisitor.VisitIdempotent | Sources/RevolutionKit/Rewriter/XCTestRewriter+MethodVisitor.swift:157-167 | when the visit yields a method (a test case carrying `@Test`, or a method left alone), a second visit changes nothing |
| MethodVisitor.OnlyStrippingSwitchMatters | Sources/RevolutionKit/Rewriter/XCTestRewriter+MethodVisitor.swift:26-30 | of the options, only `enableStrippingTestPrefix` affects methods |
| MethodVisitor.StrippingTestPrefixDiverges | Sources/RevolutionKit/Rewriter/XCTestRewriter+MethodVisitor.swift:98-111 | the inline strip agrees with `TestMethodNameConverter` exactly on names that do not start with `test_` |
| MethodVisitor.StrippingTestPrefixKeepsUnderscore | Tests/RevolutionKitTests/TestMethodsTests.swift:16-25 | the inline strip turns `test_do_something` into `_do_something`, while the converter gives the expected `do_something` |
| ClassVisitor.FirstInheritanceClause | Sources/RevolutionKit/Rewriter/XCTestRewriter+ClassVisitor.swift:78 | the first inheritance-clause child of a class is its own clause, when it has one |
| ClassVisitor.FirstInheritedType | Sources/RevolutionKit/Rewriter/XCTestRewriter+ClassVisitor.swift:78 | below the clause, the list is found and its first entry, if any |
| ClassVisitor.TraverseToFirstInheritedType | Sources/RevolutionKit/Rewriter/XCTestRewriter+ClassVisitor.swift:78 | the three-step path reaches exactly the first inherited type, and fails without one |
| ClassVisitor.GuessWhetherTestCaseClass | Sources/RevolutionKit/Rewriter/XCTestRewriter+ClassVisitor.swift:77-93 | a class guessed to be a test case has a first inherited type with at least one token |
| ClassVisitor.GuessReference | Sources/RevolutionKit/Rewriter/XCTestRewriter+ClassVisitor.swift:77-93 | a test case class if and only if there is a first inherited type and either its first token is `XCTestCase` or the name ends in `Tests` or `Test` |
| ClassVisitor.AddingSuite | Sources/RevolutionKit/Rewriter/XCTestRewriter+ClassVisitor.swift:12-30 | `@Suite` is inserted before the existing attributes |
| ClassVisitor.BuildSwiftTestingClass | Sources/RevolutionKit/Rewriter/XCTestRewriter+ClassVisitor.swift:43-51 | the inheritance clause is emptied |
| ClassVisitor.BuildStruct | Sources/RevolutionKit/Rewriter/XCTestRewriter+ClassVisitor.swift:55-70 | keyword `struct`, no modifiers, inheritance clause emptied |
| ClassVisitor.VisitForTestClass | Sources/RevolutionKit/Rewriter/XCTestRewriter+ClassVisitor.swift:6-40 | the result is a class with the same trivia, name and members, so the default traversal walks the original members |
| ClassVisitor.TestClassConversion | Sources/RevolutionKit/Rewriter/XCTestRewriter+ClassVisitor.swift:6-74 | a test class gets `@Suite` first when adding suites, `struct` without modifiers when converting to structs, and always an emptied inheritance clause |
| ClassVisitor.NonTestClassUnchanged | Sources/RevolutionKit/Rewriter/XCTestRewriter+ClassVisitor.swift:7-9 | a class not guessed to be a test case is left as it is |
| ClassVisitor.VisitIdempotent | Sources/RevolutionKit/Rewriter/XCTestRewriter+ClassVisitor.swift:6-40 | a converted class has no inherited type left, so a second visit changes nothing |
| ClassVisitor.GuessFixtures | Tests/RevolutionKitTests/TestSuiteClassTests.swift:6-45 | `HogeTests: XCTestCase` and `HogeTests: NoTest` are test classes, `NotATestClass` is not |
| ImportStatementVisitor.ImportTreeShape | Sources/RevolutionKit/Rewriter/XCTestRewriter+ImportStatementVisitor.swift:7-8 | the typed lookups find the path list and, for a non-empty path, its first component |
| ImportStatementVisitor.VisitForImportDecl | Sources/RevolutionKit/Rewriter/XCTestRewriter+ImportStatementVisitor.swift:6-24 | the result is an import with the same trivia and path length and the same components after the first; if it differs, the first component was `XCTest` and is now `Testing` |
| ImportStatementVisitor.VisitReference | Sources/RevolutionKit/Rewriter/XCTestRewriter+ImportStatementVisitor.swift:6-24 | only a path whose first component is `XCTest` changes, and only that component, to `Testing` |
| ImportStatementVisitor.VisitIdempotent | Sources/RevolutionKit/Rewriter/XCTestRewriter+ImportStatementVisitor.swift:6-24 | a rewritten import is not rewritten again |
| ImportStatementVisitor.VisitFixtures | Tests/RevolutionKitTests/ImportStatementTests.swift:5-8 | `import XCTest` → `import Testing`, `import Foundation` unchanged |
| Rewriter.XCTestRewriter.Rewrite | Sources/RevolutionKit/Rewriter/XCTestRewriter.swift:5-31 | a rewritten file keeps its number of top-level items, and a file with nothing to rewrite is returned as it is |
| Rewriter.WalkExpr | Sources/RevolutionKit/Rewriter/XCTestRewriter.swift:28-30 | a replaced call becomes a call (`Issue.record`) or a macro; every other expression keeps its constructor, trivia, operator, labels and number of children, with the children walked |
| Rewriter.WalkDecl | Sources/RevolutionKit/Rewriter/XCTestRewriter.swift:12-22 | an import stays an import; a class keeps its trivia, name and number of members; a method becomes a method, initializer or deinitializer; a binding keeps its name and whether it has an initializer; an extension, struct, enum, actor or protocol keeps its keyword, name and number of members, which are walked; other declarations are returned as they are |
| Rewriter.WalkItems | Sources/RevolutionKit/Rewriter/XCTestRewriter.swift:5-31 | a walked list keeps its length, and an expression item stays an expression item |
| Rewriter.WalkSettledExpr | Sources/RevolutionKit/Rewriter/XCTestRewriter.swift:12-30 | an expression with no converter call, test class, test method or XCTest import anywhere in it is left unchanged (by induction over the tree) |
| Rewriter.WalkSettledDecl | Sources/RevolutionKit/Rewriter/XCTestRewriter.swift:12-22 | the same for a declaration and everything under it |
| Rewriter.WalkSettledItems | Sources/RevolutionKit/Rewriter/XCTestRewriter.swift:5-31 | the same for a list of top-level items; a walked list keeps its length |
| Rewriter.WalkSingleArgument | Sources/RevolutionKit/Rewriter/AssertionRewriter.swift:28-37 | a call to `XCTAssert`, `XCTAssertTrue` or `XCTUnwrap` with one argument becomes its macro over the same argument |
| Rewriter.WalkTryUnwrap | Tests/RevolutionKitTests/AssertionsTests.swift:123-130 | `try XCTUnwrap(value)` becomes `try #require(value)` |
| Rewriter.WalkUnwrapBinding | Tests/RevolutionKitTests/AssertionsTests.swift:123-130 | `let v = try XCTUnwrap(value)` becomes `let v = try #require(value)`: binding initializers are walked |
| Rewriter.WalkExtension | Sources/RevolutionKit/Rewriter/XCTestRewriter.swift:20-22 | `extension HogeTests { func testDoSomething() { XCTAssertTrue(x) } }` becomes `extension HogeTests { @Test func doSomething() { #expect(x) } }`: methods and calls inside an extension are rewritten, with no class visitor involved |
| Rewriter.ReplacedCallNotRevisited | Sources/RevolutionKit/Rewriter/AssertionRewriter.swift:36 | `XCTAssertTrue(XCTAssertTrue(x))` becomes `#expect(XCTAssertTrue(x))`; only a second pass gives `#expect(#expect(x))` |
| Rewriter.RewriteFixture | Tests/RevolutionKitTests/TestSuiteClassTests.swift:6-14 | a composite of three fixtures: this class fixture, `import XCTest` → `import Testing` (Tests/RevolutionKitTests/ImportStatementTests.swift:6) and the `testXxx` renaming (Tests/RevolutionKitTests/TestMethodsTests.swift:6-15); `import XCTest` with `final class HogeTests: XCTestCase { func testDoSomething() { XCTAssertTrue(x) } }` becomes `import Testing` with `@Suite struct HogeTests { @Test func doSomething() { #expect(x) } }` under the default options |

## Left out

- Parsing, printing, file discovery, the command-line runner and the emitters are left out. The
  model starts from a syntax tree and ends with one. Whitespace is kept as per-node trivia
  strings. Which token carries which trivia after printing is not modelled.
- Declaration attribute and modifier lists are opaque to the tree navigation (`ClassTree`,
  `ImportTree`): the visitors never look inside them.
- A class or import tree has only the children the visitors step through. Generic parameter and
  where clauses are not modelled.
- An import's kind specifier (`import class ...`) and its attributes (`@testable`) are not
  modelled. The visitor only reads the path.
- `Rewriter.XCTestRewriter.Rewrite`: `visitForTestFunctionCall` is not part of this model. The
  file rewriter is assumed to consult all seventeen converters in `AllConverters`. The
  twelve-entry registry of `AssertionRewriter.swift` is modelled and proved separately
  (`AssertionRewriter.Registry`). `Rewriter.WalkExpr` takes the converter list as a parameter,
  so it covers both.
- Trapping is not a runtime crash here. A converter whose preconditions fail makes the whole walk
  return `None`. These converters are `XCTAssertEqual` and the other binary comparisons with fewer
  than two arguments, `XCTAssertNil`/`XCTAssertNotNil`/`XCTAssertNoThrow` with none, and a
  type-checking `XCTAssertThrowsError` with none.
- `rewriteTearDown`'s `precondition(name == "tearDown")` is a `requires` on
  `MethodVisitor.RewriteTearDown`. Method classification guarantees it.
- `MethodVisitor.RewriteTestCase`: the name is converted with `TestMethodNameConverter.convert`,
  not with the inline `strippingTestPrefix` that `rewriteTestCase` calls. A `test_x` method is
  therefore named `x`, not `_x` as the code names it (see Findings).
- `Rewriter.WalkDecl`: imports, classes, methods, initializers, deinitializers, `let`/`var`
  bindings and the member-carrying `extension`/`struct`/`enum`/`actor`/`protocol` declarations
  are walked. Everything else is the opaque `OtherDecl` and is returned unchanged: statements
  such as `if`, `guard`, `return` and loops, and declarations such as computed properties,
  subscripts, type aliases and `#if` blocks. Methods and assertion calls inside an `OtherDecl`
  are not rewritten by the model, though the code's traversal reaches them. The attributes,
  modifiers, generic clauses and inheritance clauses of the member-carrying declarations are
  not modelled.
- `TestMethodNameConverter.Convert`: a name without the `test` prefix violates an
  `assertionFailure`. In release builds that name is returned unchanged, and that is the case
  modelled.
- Lowercasing the first letter is ASCII-only (`Strings.LowerAscii`). Swift's
  `lowercased()` applies full Unicode case mapping.
- `isDryRunMode` is part of the options. It only affects the runner, which is left out.
  The other runner-only options, `backupMode` and `shouldSkipIfUnsupportedAPI`, are not in `Syntax.GlobalOptions`: no rewriter reads them.
- `GlobalOptions.swift` declares no `enableAddingSuite` field, but the class visitor reads one.
  The model includes it in `Syntax.GlobalOptions`.
- The older rewriters (`ImportStatementRewriter.swift`, `TestClassRewriter.swift`,
  `TestMethodsRewriter.swift`, `TestSourceFileRewriter.swift`, `Rules.swift`) are not part of
  this model. The `XCTestRewriter` extensions are.

## Findings

| source | as written | input that shows it | evidently intended | confidence | as-written member | corrected member |
|---|---|---|---|---|---|---|
| Sources/RevolutionKit/Rewriter/XCTestRewriter+MethodVisitor.swift:98-111 | the inline `strippingTestPrefix` drops `test` and lowercases the next character; it has no `test_` case | `test_do_something` gives `_do_something` | `do_something`, as `TestMethodNameConverter.convert` gives and Tests/RevolutionKitTests/TestMethodsTests.swift:16-25 expects | not executed | MethodVisitor.StrippingTestPrefixKeepsUnderscore | MethodVisitor.RewriteTestCase |
