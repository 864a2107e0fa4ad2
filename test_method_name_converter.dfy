/**
 * Test method names lose their `test` prefix: `testCamelCase` becomes `camelCase`,
 * `test_snake_case` becomes `snake_case`, and a method named just `test` keeps its name.
 */
module TestMethodNameConverter {
  import opened Strings

  const TestPrefix := "test"
  const SnakeCasePrefix := "test_"

  /** `strippedFirst(_:)`: the name without its first `k` characters. */
  function StrippedFirst(s: string, k: nat): (r: string)
    requires k <= |s|
    ensures s == s[..k] + r
  {
    s[k..]
  }

  /** `lowercasedFirstLetter()`: the first character lower-cased (ASCII), the rest unchanged; empty stays empty. */
  function LowercasedFirstLetter(s: string): (r: string)
    ensures |r| == |s|
    ensures |s| > 0 ==> r[0] == LowerAscii(s[0]) && r[1..] == s[1..]
  {
    if s == [] then s else [LowerAscii(s[0])] + s[1..]
  }

  /**
   * `convert(_:)`. With stripping off, the name is kept. A name that has neither prefix reaches
   * an `assertionFailure`; release builds return it unchanged, which is what this returns.
   */
  function Convert(shouldStripPrefix: bool, testMethodName: string): (r: string)
    ensures |r| <= |testMethodName|
    ensures r != testMethodName ==> shouldStripPrefix && StartsWith(testMethodName, TestPrefix)
  {
    if !shouldStripPrefix then testMethodName
    else if StartsWith(testMethodName, SnakeCasePrefix) then StrippedFirst(testMethodName, |SnakeCasePrefix|)
    else if testMethodName == TestPrefix then testMethodName
    else if StartsWith(testMethodName, TestPrefix) then LowercasedFirstLetter(StrippedFirst(testMethodName, |TestPrefix|))
    else testMethodName
  }

  /** With stripping off, every name is kept. */
  lemma ConvertDisabled(name: string)
    ensures Convert(false, name) == name
  {
  }

  /** A snake-case test name loses exactly `test_`: putting it back gives the name. */
  lemma SnakeCaseRoundTrip(name: string)
    requires StartsWith(name, SnakeCasePrefix)
    ensures SnakeCasePrefix + Convert(true, name) == name
  {
  }

  /**
   * A camel-case test name (`test` then an ASCII capital) loses `test` and the capital is
   * lower-cased: putting `test` back and upper-casing gives the name.
   */
  lemma CamelCaseRoundTrip(name: string)
    requires StartsWith(name, TestPrefix) && |name| > 4 && IsUpperAscii(name[4])
    ensures |Convert(true, name)| == |name| - 4
    ensures TestPrefix + [UpperAscii(Convert(true, name)[0])] + Convert(true, name)[1..] == name
  {
    var rest := name[4..];
    assert !StartsWith(name, SnakeCasePrefix) by {
      assert name[4] != '_';
    }
    assert name == TestPrefix + [name[4]] + rest[1..];
    UpperLowerInverse(name[4]);
  }

  /** Stripping never lengthens a name, and a stripped test name is never empty. */
  lemma ConvertShortens(strip: bool, name: string)
    ensures |Convert(strip, name)| <= |name|
    ensures StartsWith(name, TestPrefix) && name != SnakeCasePrefix ==> |Convert(strip, name)| > 0
  {
  }

  /** A `test` name whose fifth character is not `_` is stripped of `test` and lower-cased. */
  lemma ConvertCamelCase(name: string)
    requires StartsWith(name, TestPrefix) && |name| > 4 && name[4] != '_'
    ensures Convert(true, name) == LowercasedFirstLetter(name[4..])
  {
    assert !StartsWith(name, SnakeCasePrefix) by {
      assert name[..5][4] == name[4];
    }
  }

  /** `testDoSomething` loses `test` and its first letter is lower-cased. */
  lemma CamelCaseFixture()
    ensures Convert(true, "testDoSomething") == "doSomething"
  {
    CamelCaseFixtureShape();
    ConvertCamelCase("testDoSomething");
    DoSomethingLowered();
  }

  lemma CamelCaseFixtureShape()
    ensures StartsWith("testDoSomething", TestPrefix) && "testDoSomething"[4] == 'D'
    ensures "testDoSomething"[4..] == "DoSomething"
  {
    assert "testDoSomething"[..4] == TestPrefix;
  }

  lemma DoSomethingLowered()
    ensures LowercasedFirstLetter("DoSomething") == "doSomething"
  {
    assert LowerAscii('D') == 'd';
  }

  /** `test_do_something` loses `test_`. */
  lemma SnakeCaseFixture()
    ensures Convert(true, "test_do_something") == "do_something"
  {
    var name := "test_do_something";
    assert StartsWith(name, SnakeCasePrefix) by {
      assert name[..5] == SnakeCasePrefix;
    }
    assert StrippedFirst(name, 5) == "do_something";
  }

  /** The fixtures of the converter's own tests. */
  lemma ConvertFixtures()
    ensures Convert(true, "testDoSomething") == "doSomething"
    ensures Convert(false, "testDoSomething") == "testDoSomething"
    ensures Convert(true, "test_do_something") == "do_something"
    ensures Convert(false, "test_do_something") == "test_do_something"
    ensures Convert(true, "test") == "test"
    ensures Convert(false, "test") == "test"
  {
    CamelCaseFixture();
    SnakeCaseFixture();
    ConvertDisabled("testDoSomething");
    ConvertDisabled("test_do_something");
    ConvertDisabled("test");
    assert !StartsWith("test", SnakeCasePrefix);
  }
}
