/**
 * Dispatch of a function call to an assertion converter: the tokens of the called expression
 * are looked up in order in a converter list, and the first token naming a converter decides.
 * The call is replaced by the converter's result, or left to the default traversal when no
 * converter matches or the converter gives up.
 */
module AssertionRewriter {
  import opened Wrappers
  import opened Syntax
  import opened ConverterFamily

  /** The converters `AssertionRewriter` consults, in order. */
  const Registry: seq<Converter> := [
    XCTAssertConverter, XCTAssertTrueConverter,
    XCTAssertEqualConverter, XCTAssertNotEqualConverter, XCTAssertIdenticalConverter, XCTAssertNotIdenticalConverter,
    XCTAssertGreaterThanConverter, XCTAssertGreaterThanOrEqualConverter,
    XCTAssertLessThanOrEqualConverter, XCTAssertLessThanConverter,
    XCTAssertNilConverter, XCTAssertNotNilConverter]

  /** `find(by:)`: the first converter in the list with the given name. */
  function Find(converters: seq<Converter>, name: string): (r: Option<Converter>)
    ensures r.Some? ==> r.value in converters && r.value.Name() == name
    ensures r.Some? ==> exists i :: 0 <= i < |converters| && converters[i] == r.value &&
                                    forall j :: 0 <= j < i ==> converters[j].Name() != name
    ensures r.None? <==> forall c :: c in converters ==> c.Name() != name
  {
    if converters == [] then None
    else if converters[0].Name() == name then Some(converters[0])
    else Find(converters[1..], name)
  }

  /** The `compactMap { find(by:) }.first` over the callee's tokens: the converter of the first token that names one. */
  function FirstMatch(converters: seq<Converter>, tokens: seq<string>): (r: Option<Converter>)
    ensures r.Some? ==> exists i :: 0 <= i < |tokens| && Find(converters, tokens[i]) == r &&
                                    forall j :: 0 <= j < i ==> Find(converters, tokens[j]).None?
    ensures r.None? <==> forall i :: 0 <= i < |tokens| ==> Find(converters, tokens[i]).None?
  {
    if tokens == [] then None
    else match Find(converters, tokens[0])
      case Some(c) => Some(c)
      case None => FirstMatch(converters, tokens[1..])
  }

  /** What visiting a call does: replace it, hand it to the default traversal, or trap. */
  datatype CallVisit = Replaced(replacement: Expr) | Descend | Trapped

  /** `visit(_: FunctionCallExprSyntax)` over a converter list. */
  function VisitCall(converters: seq<Converter>, call: Expr): (r: CallVisit)
    requires call.Call?
    ensures r.Descend? <==>
      match FirstMatch(converters, Tokens(call.callee))
      case None => true
      case Some(c) => !Traps(c, call) && BuildExpr(c, call).None?
    ensures r.Replaced? ==>
      FirstMatch(converters, Tokens(call.callee)).Some? &&
      !Traps(FirstMatch(converters, Tokens(call.callee)).value, call) &&
      BuildExpr(FirstMatch(converters, Tokens(call.callee)).value, call) == Some(r.replacement)
    ensures r.Trapped? <==>
      FirstMatch(converters, Tokens(call.callee)).Some? && Traps(FirstMatch(converters, Tokens(call.callee)).value, call)
  {
    match FirstMatch(converters, Tokens(call.callee))
    case None => Descend
    case Some(c) =>
      if Traps(c, call) then Trapped
      else match BuildExpr(c, call)
        case None => Descend
        case Some(e) => Replaced(e)
  }

  /** With distinct names, `find(by:)` returns the one converter of that name, wherever it sits in the list. */
  lemma FindUnique(converters: seq<Converter>, c: Converter)
    requires forall i, j :: 0 <= i < j < |converters| ==> converters[i].Name() != converters[j].Name()
    requires c in converters
    ensures Find(converters, c.Name()) == Some(c)
  {
    var r := Find(converters, c.Name());
    var k :| 0 <= k < |converters| && converters[k] == c;
    var i :| 0 <= i < |converters| && converters[i] == r.value &&
             forall j :: 0 <= j < i ==> converters[j].Name() != c.Name();
    assert i == k;
  }

  /** Where each registry entry sits in the list of all converters. */
  const RegistryPositions: seq<nat> := [0, 1, 3, 4, 5, 6, 7, 8, 10, 9, 11, 12]

  lemma RegistryIsSelection()
    ensures |Registry| == |RegistryPositions| == 12
    ensures forall i :: 0 <= i < 12 ==> RegistryPositions[i] < |AllConverters| &&
                                        Registry[i] == AllConverters[RegistryPositions[i]]
  {
  }

  /** The twelve registered converters have distinct names. */
  lemma RegistryNamesDistinct()
    ensures forall i, j :: 0 <= i < j < |Registry| ==> Registry[i].Name() != Registry[j].Name()
  {
    RegistryIsSelection();
    RegistryPositionsDistinct();
    forall i, j | 0 <= i < j < |Registry| ensures Registry[i].Name() != Registry[j].Name() {
      NamesDiffer(RegistryPositions[i], RegistryPositions[j]);
    }
  }

  lemma RegistryPositionsDistinct()
    ensures forall i, j :: 0 <= i < j < |RegistryPositions| ==> RegistryPositions[i] != RegistryPositions[j]
  {
  }

  /** The converters `AssertionRewriter` does not consult, and where they sit in the list of all converters. */
  const Unregistered: seq<Converter> := [
    XCTAssertFalseConverter, XCTUnwrapConverter, XCTFailConverter, XCTAssertThrowsErrorConverter, XCTAssertNoThrowConverter]
  const UnregisteredPositions: seq<nat> := [2, 13, 14, 15, 16]

  /**
   * `XCTAssertFalse`, `XCTUnwrap`, `XCTFail`, `XCTAssertThrowsError` and `XCTAssertNoThrow` name
   * no registered converter.
   */
  lemma RegistryExcludes()
    ensures forall i, k :: 0 <= i < |Registry| && 0 <= k < |Unregistered| ==> Registry[i].Name() != Unregistered[k].Name()
  {
    RegistryIsSelection();
    UnregisteredIsSelection();
    forall i, k | 0 <= i < |Registry| && 0 <= k < |Unregistered| ensures Registry[i].Name() != Unregistered[k].Name() {
      NamesDiffer(RegistryPositions[i], UnregisteredPositions[k]);
    }
  }

  lemma UnregisteredIsSelection()
    ensures |Unregistered| == |UnregisteredPositions| == 5
    ensures forall k :: 0 <= k < 5 ==> UnregisteredPositions[k] < |AllConverters| &&
                                       Unregistered[k] == AllConverters[UnregisteredPositions[k]]
    ensures forall i, k :: 0 <= i < |RegistryPositions| && 0 <= k < 5 ==> RegistryPositions[i] != UnregisteredPositions[k]
  {
  }

  /** Converters at different positions of the list of all converters have different names. */
  lemma NamesDiffer(p: nat, q: nat)
    requires p < |AllConverters| && q < |AllConverters| && p != q
    ensures AllConverters[p].Name() != AllConverters[q].Name()
  {
    ConverterNames();
    if q < p {
      assert AllConverters[q].Name() != AllConverters[p].Name();
    }
  }

  /** A call whose callee is just the name of an unregistered converter is left to the default traversal. */
  lemma UnregisteredNotConverted(e: Converter, call: Expr)
    requires e in Unregistered
    requires call.Call? && Tokens(call.callee) == [e.Name()]
    ensures VisitCall(Registry, call) == Descend
  {
    RegistryExcludes();
    var k :| 0 <= k < |Unregistered| && Unregistered[k] == e;
    forall c | c in Registry ensures c.Name() != e.Name() {
      var i :| 0 <= i < |Registry| && Registry[i] == c;
    }
    assert Find(Registry, e.Name()).None?;
  }

  /**
   * Every registered name converts a call whose callee is just that name, unless the call is too
   * short for the positions the converter reads.
   */
  lemma RegisteredNameConverts(c: Converter, call: Expr)
    requires c in Registry
    requires call.Call? && Tokens(call.callee) == [c.Name()] && !Traps(c, call)
    ensures VisitCall(Registry, call) == Replaced(BuildExpr(c, call).value)
  {
    RegistryNamesDistinct();
    FindUnique(Registry, c);
    var tokens := Tokens(call.callee);
    assert FirstMatch(Registry, tokens) == Some(c) by {
      assert tokens[0] == c.Name();
    }
    RegistryMacroConverters();
    assert BuildExpr(c, call).Some?;
  }

  /** Every registered converter expands to a macro and never gives up. */
  lemma RegistryMacroConverters()
    ensures forall c <- Registry :: c.SingleArgument? || c.Comparison?
  {
  }

  /** The first matching token decides, even when a later token names another converter. */
  lemma FirstTokenWins(converters: seq<Converter>, t: string, rest: seq<string>)
    requires Find(converters, t).Some?
    ensures FirstMatch(converters, [t] + rest) == Find(converters, t)
  {
  }
}
