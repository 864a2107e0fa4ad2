/**
 * The list operations the rewriters perform on argument, attribute and modifier lists:
 * `findIndex(where:)`, `remove(at:)`, and the element-wise combination of optional results.
 */
module Collection {
  import opened Wrappers

  /** The index of the first element satisfying `p`, if any. */
  function IndexWhere<T>(s: seq<T>, p: T -> bool): (r: Option<nat>)
    ensures r.Some? ==> r.value < |s| && p(s[r.value]) && forall j :: 0 <= j < r.value ==> !p(s[j])
    ensures r.None? ==> forall j :: 0 <= j < |s| ==> !p(s[j])
  {
    if s == [] then None
    else if p(s[0]) then Some(0)
    else match IndexWhere(s[1..], p)
      case None => None
      case Some(i) => Some(i + 1)
  }

  /** The first index satisfying `p` is the one before which nothing satisfies `p`. */
  lemma IndexWhereAt<T>(s: seq<T>, p: T -> bool, i: nat)
    requires i < |s| && p(s[i])
    requires forall j :: 0 <= j < i ==> !p(s[j])
    ensures IndexWhere(s, p) == Some(i)
  {
    var r := IndexWhere(s, p);
    assert r.Some?;
    assert !(r.value < i);
  }

  /** `findIndex(where:)`: scans the list from the front and stops at the first element satisfying `p`. */
  method FindIndex<T>(s: seq<T>, p: T -> bool) returns (r: Option<nat>)
    ensures r == IndexWhere(s, p)
  {
    var i := 0;
    while i < |s|
      invariant 0 <= i <= |s|
      invariant forall j :: 0 <= j < i ==> !p(s[j])
    {
      if p(s[i]) {
        return Some(i);
      }
      i := i + 1;
    }
    return None;
  }

  /** `remove(at:)`: the list without its element at index `i`, the others in their order. */
  function RemoveAt<T>(s: seq<T>, i: nat): (r: seq<T>)
    requires i < |s|
    ensures |r| == |s| - 1
    ensures forall j :: 0 <= j < i ==> r[j] == s[j]
    ensures forall j :: i <= j < |r| ==> r[j] == s[j + 1]
  {
    s[..i] + s[i + 1..]
  }

  /** The elements satisfying `p`, in their order. */
  function Filter<T>(s: seq<T>, p: T -> bool): (r: seq<T>)
    ensures |r| <= |s|
    ensures forall x :: x in r ==> x in s && p(x)
  {
    if s == [] then [] else (if p(s[0]) then [s[0]] else []) + Filter(s[1..], p)
  }

  lemma {:induction false} FilterAppend<T>(a: seq<T>, b: seq<T>, p: T -> bool)
    ensures Filter(a + b, p) == Filter(a, p) + Filter(b, p)
  {
    if a == [] {
      assert a + b == b;
    } else {
      assert (a + b)[1..] == a[1..] + b;
      FilterAppend(a[1..], b, p);
    }
  }

  /**
   * Removing one element removes it from the filtered list exactly when it satisfies `p`:
   * removing an element that fails `p` leaves the filtered list as it was, and removing one
   * that satisfies `p` makes the filtered list one shorter.
   */
  lemma {:induction false} FilterRemoveAt<T>(s: seq<T>, i: nat, p: T -> bool)
    requires i < |s|
    ensures !p(s[i]) ==> Filter(RemoveAt(s, i), p) == Filter(s, p)
    ensures p(s[i]) ==> |Filter(RemoveAt(s, i), p)| + 1 == |Filter(s, p)|
  {
    assert s == s[..i] + ([s[i]] + s[i + 1..]);
    FilterAppend(s[..i], [s[i]] + s[i + 1..], p);
    FilterAppend([s[i]], s[i + 1..], p);
    FilterAppend(s[..i], s[i + 1..], p);
    assert [s[i]][1..] == [];
  }

  /** Combines optional results element-wise: every one present, or nothing. */
  function AllSome<T>(s: seq<Option<T>>): (r: Option<seq<T>>)
    ensures r.Some? <==> forall i :: 0 <= i < |s| ==> s[i].Some?
    ensures r.Some? ==> |r.value| == |s| && forall i :: 0 <= i < |s| ==> r.value[i] == s[i].value
  {
    if s == [] then Some([])
    else if s[0].None? then None
    else match AllSome(s[1..])
      case None => None
      case Some(rest) => Some([s[0].value] + rest)
  }

  /** Element-wise results that all return their input combine to the input list. */
  lemma AllSomeOfIdentity<T>(xs: seq<T>, s: seq<Option<T>>)
    requires |s| == |xs|
    requires forall i :: 0 <= i < |s| ==> s[i] == Some(xs[i])
    ensures AllSome(s) == Some(xs)
  {
    var r := AllSome(s);
    assert r.Some?;
    assert r.value == xs;
  }

  /** The first element satisfying `p`, if any. */
  function FirstWhere<T>(s: seq<T>, p: T -> bool): (r: Option<T>)
    ensures r.Some? ==> r.value in s && p(r.value)
    ensures r.Some? ==> exists i :: 0 <= i < |s| && s[i] == r.value && forall j :: 0 <= j < i ==> !p(s[j])
    ensures r.None? <==> forall x :: x in s ==> !p(x)
  {
    match IndexWhere(s, p)
    case None => None
    case Some(i) => Some(s[i])
  }

  /** Removing an element that fails `p` does not change which element satisfies `p` first. */
  lemma FirstWhereRemoveAt<T>(s: seq<T>, i: nat, p: T -> bool)
    requires i < |s| && !p(s[i])
    ensures FirstWhere(RemoveAt(s, i), p) == FirstWhere(s, p)
  {
    var r := RemoveAt(s, i);
    match IndexWhere(s, p)
    case None =>
      assert forall j :: 0 <= j < |r| ==> !p(r[j]) by {
        forall j | 0 <= j < |r| ensures !p(r[j]) {
          if j < i { assert r[j] == s[j]; } else { assert r[j] == s[j + 1]; }
        }
      }
    case Some(k) =>
      var k' := if k < i then k else k - 1;
      assert r[k'] == s[k];
      assert forall j :: 0 <= j < k' ==> !p(r[j]) by {
        forall j | 0 <= j < k' ensures !p(r[j]) {
          if j < i { assert r[j] == s[j]; } else { assert r[j] == s[j + 1]; }
        }
      }
      assert IndexWhere(r, p) == Some(k');
  }
}
