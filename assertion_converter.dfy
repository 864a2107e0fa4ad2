/**
 * What every macro-producing assertion converter shares: building the `#macro(...)` expansion
 * from the call, and moving the XCTest `file:` and `line:` arguments into one
 * `sourceLocation: SourceLocation(file: ..., line: ...)` argument at the end of the list.
 */
module AssertionConverter {
  import opened Wrappers
  import opened Collection
  import opened Syntax

  const FileLabel := "file"
  const LineLabel := "line"
  const SourceLocationLabel := "sourceLocation"

  function LabelIs(name: string): Arg -> bool {
    (a: Arg) => a.argLabel == Some(name)
  }

  /** Arguments that are neither `file:` nor `line:`. */
  function NotLocation(): Arg -> bool {
    (a: Arg) => a.argLabel != Some(FileLabel) && a.argLabel != Some(LineLabel)
  }

  predicate HasLocation(args: seq<Arg>) {
    exists a :: a in args && !NotLocation()(a)
  }

  /** `trimArgument(of:from:)`: the first argument labelled `label`, and the list without it. */
  function Trim(name: string, args: seq<Arg>): (r: (Option<Arg>, seq<Arg>))
    ensures r.0 == FirstWhere(args, LabelIs(name))
    ensures r.0.None? ==> r.1 == args
    ensures r.0.Some? ==> |r.1| + 1 == |args|
  {
    match IndexWhere(args, LabelIs(name))
    case None => (None, args)
    case Some(i) => (Some(args[i]), RemoveAt(args, i))
  }

  /** The `sourceLocation: SourceLocation(...)` argument holding the trimmed location arguments. */
  function SourceLocationArgument(locationArgs: seq<Arg>): Arg {
    Arg(Some(SourceLocationLabel), Call("", Ref("", "SourceLocation", ""), true, locationArgs, None, [], ""), false)
  }

  /** The packed list, given what the two trims found and what they left. */
  function Packed(file: Option<Arg>, line: Option<Arg>, rest: seq<Arg>): seq<Arg> {
    if file.None? && line.None? then rest
    else rest + [SourceLocationArgument(ToSeq(file) + ToSeq(line))]
  }

  /**
   * `packToSourceLocation(in:)`: trims the first `file:` argument, then the first `line:`
   * argument; when either was there, appends one `sourceLocation:` argument holding them, in
   * that order and with their own commas. No separator is added in front of it.
   */
  function Pack(args: seq<Arg>): (r: seq<Arg>)
    ensures |r| <= |args|
    ensures !HasLocation(args) ==> r == args
    ensures HasLocation(args) ==> |r| > 0 && r[|r| - 1].argLabel == Some(SourceLocationLabel)
  {
    var (file, afterFile) := Trim(FileLabel, args);
    var (line, rest) := Trim(LineLabel, afterFile);
    Packed(file, line, rest)
  }

  /** The in-place trim: `findIndex(where:)`, then `remove(at:)` on the caller's list. */
  method TrimArgument(name: string, arguments: seq<Arg>) returns (trimmed: Option<Arg>, remaining: seq<Arg>)
    ensures (trimmed, remaining) == Trim(name, arguments)
  {
    var index := FindIndex(arguments, LabelIs(name));
    if index.None? {
      return None, arguments;
    }
    trimmed := Some(arguments[index.value]);
    remaining := RemoveAt(arguments, index.value);
  }

  /** The in-place packing on a mutable copy of the argument list. */
  method PackToSourceLocation(arguments: seq<Arg>) returns (packed: seq<Arg>)
    ensures packed == Pack(arguments)
  {
    var mutableArguments := arguments;
    var fileArgument, lineArgument;
    fileArgument, mutableArguments := TrimArgument(FileLabel, mutableArguments);
    lineArgument, mutableArguments := TrimArgument(LineLabel, mutableArguments);
    if fileArgument.None? && lineArgument.None? {
      return mutableArguments;
    }
    var sourceLocationArguments := [];
    if fileArgument.Some? {
      sourceLocationArguments := sourceLocationArguments + [fileArgument.value];
    }
    if lineArgument.Some? {
      sourceLocationArguments := sourceLocationArguments + [lineArgument.value];
    }
    assert sourceLocationArguments == ToSeq(fileArgument) + ToSeq(lineArgument);
    packed := mutableArguments + [SourceLocationArgument(sourceLocationArguments)];
  }

  /**
   * `buildExpr(from:)` of a macro converter: the macro keeps the call's trivia and parentheses
   * and takes the converted arguments; it has no trailing closure.
   */
  function MacroExpansion(call: Expr, macroName: string, args: seq<Arg>): (r: Expr)
    requires call.Call?
    ensures r.Macro? && r.macroName == macroName && r.args == args
    ensures r.lead == call.lead && r.trail == call.trail && r.parens == call.parens
    ensures r.trailingClosure.None? && r.additionalClosures == []
  {
    Macro(call.lead, macroName, call.parens, args, None, [], call.trail)
  }

  /** Trimming `line:` after `file:` finds the same argument as looking for `line:` in the original list. */
  lemma LineFoundIndependently(args: seq<Arg>)
    ensures Trim(LineLabel, Trim(FileLabel, args).1).0 == FirstWhere(args, LabelIs(LineLabel))
  {
    match IndexWhere(args, LabelIs(FileLabel))
    case None =>
    case Some(i) =>
      FirstWhereRemoveAt(args, i, LabelIs(LineLabel));
  }

  /** The packed list is the list itself exactly when there is no `file:` or `line:` argument. */
  lemma PackIdentity(args: seq<Arg>)
    ensures Pack(args) == args <==> !HasLocation(args)
  {
    var (file, afterFile) := Trim(FileLabel, args);
    var (line, rest) := Trim(LineLabel, afterFile);
    if !HasLocation(args) {
      assert file.None?;
      assert line.None?;
    } else {
      PackCounts(args);
    }
  }

  /** Trimming a location label leaves every argument that is neither `file:` nor `line:` in place. */
  lemma TrimKeepsOthers(name: string, args: seq<Arg>)
    requires name == FileLabel || name == LineLabel
    ensures Filter(Trim(name, args).1, NotLocation()) == Filter(args, NotLocation())
  {
    match IndexWhere(args, LabelIs(name))
    case None =>
    case Some(i) => FilterRemoveAt(args, i, NotLocation());
  }

  /**
   * Packing keeps every argument that is neither `file:` nor `line:`, unchanged and in order,
   * and adds the `sourceLocation:` argument exactly when a location argument was there.
   */
  lemma {:induction false} PackCounts(args: seq<Arg>)
    ensures !HasLocation(args) ==> Filter(Pack(args), NotLocation()) == Filter(args, NotLocation())
    ensures HasLocation(args) ==>
      |Pack(args)| > 0 &&
      Filter(Pack(args), NotLocation()) == Filter(args, NotLocation()) + [Pack(args)[|Pack(args)| - 1]]
  {
    var (file, afterFile) := Trim(FileLabel, args);
    var (line, rest) := Trim(LineLabel, afterFile);
    TrimKeepsOthers(FileLabel, args);
    TrimKeepsOthers(LineLabel, afterFile);
    if HasLocation(args) {
      LocationTrimmed(args);
      var location := SourceLocationArgument(ToSeq(file) + ToSeq(line));
      FilterAppend(rest, [location], NotLocation());
      SourceLocationKept(ToSeq(file) + ToSeq(line));
    }
  }

  /** When a location argument is there, `file:` or `line:` is trimmed. */
  lemma LocationTrimmed(args: seq<Arg>)
    requires HasLocation(args)
    ensures Trim(FileLabel, args).0.Some? || Trim(LineLabel, Trim(FileLabel, args).1).0.Some?
  {
    var a :| a in args && !NotLocation()(a);
    if Trim(FileLabel, args).0.None? {
      assert a.argLabel == Some(LineLabel);
      assert a in Trim(FileLabel, args).1;
    }
  }

  /** The `sourceLocation:` argument is itself neither `file:` nor `line:`. */
  lemma SourceLocationKept(locationArgs: seq<Arg>)
    ensures Filter([SourceLocationArgument(locationArgs)], NotLocation()) == [SourceLocationArgument(locationArgs)]
  {
    assert [SourceLocationArgument(locationArgs)][1..] == [];
  }

  /** Removing the first argument with one label changes the count of another label only by what it removed. */
  lemma TrimCount(name: string, other: string, args: seq<Arg>)
    ensures |Filter(Trim(name, args).1, LabelIs(other))| +
            (if Trim(name, args).0.Some? && name == other then 1 else 0) == |Filter(args, LabelIs(other))|
  {
    match IndexWhere(args, LabelIs(name))
    case None =>
    case Some(i) => FilterRemoveAt(args, i, LabelIs(other));
  }

  /**
   * Only the first `file:` and the first `line:` argument move: every further one stays in
   * the list, so the count of each drops by one exactly when one was there.
   */
  lemma PackTrimsFirstOnly(name: string, args: seq<Arg>)
    requires name == FileLabel || name == LineLabel
    ensures |Filter(Pack(args), LabelIs(name))| + (if FirstWhere(args, LabelIs(name)).Some? then 1 else 0)
            == |Filter(args, LabelIs(name))|
  {
    var afterFile := Trim(FileLabel, args).1;
    LineFoundIndependently(args);
    TrimCount(FileLabel, name, args);
    TrimCount(LineLabel, name, afterFile);
    PackLabelCount(name, args);
  }

  /** The appended `sourceLocation:` argument is not counted as `file:` or `line:`. */
  lemma PackLabelCount(name: string, args: seq<Arg>)
    requires name == FileLabel || name == LineLabel
    ensures |Filter(Pack(args), LabelIs(name))| == |Filter(Trim(LineLabel, Trim(FileLabel, args).1).1, LabelIs(name))|
  {
    var (file, afterFile) := Trim(FileLabel, args);
    var (line, rest) := Trim(LineLabel, afterFile);
    if file.Some? || line.Some? {
      var location := SourceLocationArgument(ToSeq(file) + ToSeq(line));
      assert [location][1..] == [];
      FilterAppend(rest, [location], LabelIs(name));
    }
  }

  /**
   * When a location argument is there, the packed list ends in `sourceLocation:`, without a
   * trailing comma, whose `SourceLocation(...)` call holds the first `file:` argument and then the
   * first `line:` argument of the original list.
   */
  lemma PackAppendsSourceLocation(args: seq<Arg>)
    requires HasLocation(args)
    ensures Pack(args) == Pack(args)[..|Pack(args)| - 1] +
      [SourceLocationArgument(ToSeq(FirstWhere(args, LabelIs(FileLabel))) + ToSeq(FirstWhere(args, LabelIs(LineLabel))))]
    ensures |Pack(args)| <= |args|
  {
    LineFoundIndependently(args);
    var (file, afterFile) := Trim(FileLabel, args);
    var (line, rest) := Trim(LineLabel, afterFile);
    var a :| a in args && !NotLocation()(a);
    if file.None? {
      assert a in afterFile;
      assert line.Some?;
    }
  }

  /** Arguments separated by commas, the last one without. */
  predicate CommaSeparated(args: seq<Arg>) {
    forall i :: 0 <= i < |args| ==> args[i].hasComma == (i < |args| - 1)
  }

  /** Trimming a label whose first occurrence directly follows a prefix that does not hold it. */
  lemma TrimAfterPrefix(name: string, prefix: seq<Arg>, rest: seq<Arg>)
    requires forall a :: a in prefix ==> !LabelIs(name)(a)
    requires |rest| > 0 && LabelIs(name)(rest[0])
    ensures Trim(name, prefix + rest) == (Some(rest[0]), prefix + rest[1..])
  {
    var args := prefix + rest;
    forall j | 0 <= j < |prefix| ensures !LabelIs(name)(args[j]) {
      assert args[j] == prefix[j] && prefix[j] in prefix;
    }
    IndexWhereAt(args, LabelIs(name), |prefix|);
    assert RemoveAt(args, |prefix|) == prefix + rest[1..];
  }

  /** Trimming a label that is not there leaves the list as it is. */
  lemma TrimAbsent(name: string, args: seq<Arg>)
    requires forall a :: a in args ==> !LabelIs(name)(a)
    ensures Trim(name, args) == (None, args)
  {
  }

  /** Arguments that are neither `file:` nor `line:` carry neither label. */
  lemma NotLocationLabels(prefix: seq<Arg>)
    requires forall a :: a in prefix ==> NotLocation()(a)
    ensures forall a :: a in prefix ==> !LabelIs(FileLabel)(a) && !LabelIs(LineLabel)(a)
  {
  }

  /** `file:` then `line:` after the other arguments move into one `sourceLocation:` argument. */
  lemma PackFileAndLine(prefix: seq<Arg>, file: Arg, line: Arg)
    requires forall a :: a in prefix ==> NotLocation()(a)
    requires LabelIs(FileLabel)(file) && LabelIs(LineLabel)(line)
    ensures Pack(prefix + [file, line]) == prefix + [SourceLocationArgument([file, line])]
  {
    NotLocationLabels(prefix);
    TrimAfterPrefix(FileLabel, prefix, [file, line]);
    assert [file, line][1..] == [line];
    assert Trim(FileLabel, prefix + [file, line]) == (Some(file), prefix + [line]);
    TrimAfterPrefix(LineLabel, prefix, [line]);
    assert prefix + [line][1..] == prefix;
    assert Trim(LineLabel, prefix + [line]) == (Some(line), prefix);
    assert ToSeq(Some(file)) + ToSeq(Some(line)) == [file, line];
  }

  /** A lone trailing `file:` moves into a `sourceLocation:` argument. */
  lemma PackFileOnly(prefix: seq<Arg>, file: Arg)
    requires forall a :: a in prefix ==> NotLocation()(a)
    requires LabelIs(FileLabel)(file)
    ensures Pack(prefix + [file]) == prefix + [SourceLocationArgument([file])]
  {
    NotLocationLabels(prefix);
    TrimAfterPrefix(FileLabel, prefix, [file]);
    assert prefix + [file][1..] == prefix;
    assert Trim(FileLabel, prefix + [file]) == (Some(file), prefix);
    TrimAbsent(LineLabel, prefix);
    assert ToSeq(Some(file)) + ToSeq<Arg>(None) == [file];
  }

  /** A lone trailing `line:` moves into a `sourceLocation:` argument. */
  lemma PackLineOnly(prefix: seq<Arg>, line: Arg)
    requires forall a :: a in prefix ==> NotLocation()(a)
    requires LabelIs(LineLabel)(line)
    ensures Pack(prefix + [line]) == prefix + [SourceLocationArgument([line])]
  {
    NotLocationLabels(prefix);
    assert forall a :: a in prefix + [line] ==> !LabelIs(FileLabel)(a);
    TrimAbsent(FileLabel, prefix + [line]);
    TrimAfterPrefix(LineLabel, prefix, [line]);
    assert prefix + [line][1..] == prefix;
    assert Trim(LineLabel, prefix + [line]) == (Some(line), prefix);
    assert ToSeq<Arg>(None) + ToSeq(Some(line)) == [line];
  }

  /**
   * With the XCTest layout (location arguments last: `file:` then `line:`, either optional),
   * the location arguments move, as they are, into one trailing `sourceLocation:` argument.
   */
  lemma PackTrailingLocation(prefix: seq<Arg>, location: seq<Arg>)
    requires forall a :: a in prefix ==> NotLocation()(a)
    requires 1 <= |location| <= 2
    requires |location| == 2 ==> LabelIs(FileLabel)(location[0]) && LabelIs(LineLabel)(location[1])
    requires |location| == 1 ==> !NotLocation()(location[0])
    ensures Pack(prefix + location) == prefix + [SourceLocationArgument(location)]
  {
    if |location| == 2 {
      assert location == [location[0], location[1]];
      PackFileAndLine(prefix, location[0], location[1]);
    } else if LabelIs(FileLabel)(location[0]) {
      assert location == [location[0]];
      PackFileOnly(prefix, location[0]);
    } else {
      assert location == [location[0]];
      PackLineOnly(prefix, location[0]);
    }
  }

  /**
   * With the same layout, packing keeps the comma layout well formed, both in the assertion's
   * list and inside `SourceLocation(...)`.
   */
  lemma PackKeepsCommas(prefix: seq<Arg>, location: seq<Arg>)
    requires CommaSeparated(prefix + location)
    requires forall a :: a in prefix ==> NotLocation()(a)
    requires 1 <= |location| <= 2
    requires |location| == 2 ==> LabelIs(FileLabel)(location[0]) && LabelIs(LineLabel)(location[1])
    requires |location| == 1 ==> !NotLocation()(location[0])
    ensures CommaSeparated(Pack(prefix + location))
    ensures CommaSeparated(location)
  {
    PackTrailingLocation(prefix, location);
    var args := prefix + location;
    var packed := prefix + [SourceLocationArgument(location)];
    forall i | 0 <= i < |packed| ensures packed[i].hasComma == (i < |packed| - 1) {
      if i < |prefix| {
        assert packed[i] == args[i];
      }
    }
    forall i | 0 <= i < |location| ensures location[i].hasComma == (i < |location| - 1) {
      assert location[i] == args[|prefix| + i];
    }
  }

  /** Trimming looks past a leading argument that does not carry the label. */
  lemma TrimCons(name: string, x: Arg, rest: seq<Arg>)
    requires !LabelIs(name)(x)
    ensures Trim(name, [x] + rest) == (Trim(name, rest).0, [x] + Trim(name, rest).1)
  {
    var args := [x] + rest;
    assert args[1..] == rest;
    match IndexWhere(rest, LabelIs(name))
    case None =>
    case Some(i) =>
      assert IndexWhere(args, LabelIs(name)) == Some(i + 1);
      assert RemoveAt(args, i + 1) == [x] + RemoveAt(rest, i);
  }

  /**
   * Packing commutes with a leading argument that is neither `file:` nor `line:`: the
   * converters that put a new first argument in front (a comparison, `throws:`) leave the
   * packing of the arguments behind it as it was.
   */
  lemma PackCons(x: Arg, rest: seq<Arg>)
    requires NotLocation()(x)
    ensures Pack([x] + rest) == [x] + Pack(rest)
  {
    var (file, afterFile) := Trim(FileLabel, rest);
    var (line, remaining) := Trim(LineLabel, afterFile);
    TrimCons(FileLabel, x, rest);
    assert Trim(FileLabel, [x] + rest) == (file, [x] + afterFile);
    TrimCons(LineLabel, x, afterFile);
    assert Trim(LineLabel, [x] + afterFile) == (line, [x] + remaining);
    PackOfTrims([x] + rest);
    PackOfTrims(rest);
    Appended(x, remaining, file, line);
  }

  lemma PackOfTrims(args: seq<Arg>)
    ensures Pack(args) == Packed(Trim(FileLabel, args).0, Trim(LineLabel, Trim(FileLabel, args).1).0,
                                 Trim(LineLabel, Trim(FileLabel, args).1).1)
  {
  }

  lemma Appended(x: Arg, rest: seq<Arg>, file: Option<Arg>, line: Option<Arg>)
    ensures Packed(file, line, [x] + rest) == [x] + Packed(file, line, rest)
  {
    if file.Some? || line.Some? {
      var location := SourceLocationArgument(ToSeq(file) + ToSeq(line));
      assert ([x] + rest) + [location] == [x] + (rest + [location]);
    }
  }
}
