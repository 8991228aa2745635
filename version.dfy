/**
  The SDK's version strings (internal/version/version.go): three numeric
  components, a product prefix, the dotted version and the full
  "prefix/version" string, with lemmas that say how they are composed and
  that the dotted version splits back into its components.
 */
module Version {

  const Major: string := "3"
  const Minor: string := "53"
  const Patch: string := "3"

  const Prefix: string := "ydb-go-sdk"

  const Version: string := Major + "." + Minor + "." + Patch
  const FullVersion: string := Prefix + "/" + Version

  /** Splits `s` at every occurrence of `sep`; there is always at least one part. */
  function Split(s: string, sep: char): (parts: seq<string>)
    ensures |parts| >= 1
    ensures forall i :: 0 <= i < |parts| ==> sep !in parts[i]
    decreases |s|
  {
    if s == [] then [[]]
    else
      var rest := Split(s[1..], sep);
      if s[0] == sep then [[]] + rest
      else [[s[0]] + rest[0]] + rest[1..]
  }

  /** Joins `parts` with `sep` between consecutive parts. */
  function Join(parts: seq<string>, sep: char): (s: string)
    requires |parts| >= 1
    decreases |parts|
  {
    if |parts| == 1 then parts[0]
    else parts[0] + [sep] + Join(parts[1..], sep)
  }

  /** Joining the parts of a split gives back the original string. */
  lemma {:induction false} JoinSplit(s: string, sep: char)
    ensures Join(Split(s, sep), sep) == s
    decreases |s|
  {
    if s != [] {
      var rest := Split(s[1..], sep);
      JoinSplit(s[1..], sep);
      if s[0] == sep {
        assert Split(s, sep) == [[]] + rest;
        assert Join([[]] + rest, sep) == [] + [sep] + Join(rest, sep);
      } else if |rest| == 1 {
        assert Split(s, sep) == [[s[0]] + rest[0]];
      } else {
        var parts := [[s[0]] + rest[0]] + rest[1..];
        assert Split(s, sep) == parts;
        assert parts[1..] == rest[1..];
        assert Join(rest, sep) == rest[0] + [sep] + Join(rest[1..], sep);
        assert Join(parts, sep) == [s[0]] + rest[0] + [sep] + Join(rest[1..], sep);
      }
    }
  }

  /** A string without the separator is a single part. */
  lemma {:induction false} SplitWithoutSeparator(a: string, sep: char)
    requires sep !in a
    ensures Split(a, sep) == [a]
    decreases |a|
  {
    if a != [] {
      SplitWithoutSeparator(a[1..], sep);
      assert [a[0]] + a[1..] == a;
    }
  }

  /** A separator-free prefix followed by the separator becomes the first part. */
  lemma {:induction false} SplitAtFirstSeparator(a: string, sep: char, t: string)
    requires sep !in a
    ensures Split(a + [sep] + t, sep) == [a] + Split(t, sep)
    decreases |a|
  {
    if a == [] {
      assert a + [sep] + t == [sep] + t;
      assert ([sep] + t)[1..] == t;
    } else {
      var s := a + [sep] + t;
      assert s[0] == a[0];
      assert s[1..] == a[1..] + [sep] + t;
      SplitAtFirstSeparator(a[1..], sep, t);
      assert [a[0]] + a[1..] == a;
    }
  }

  /** Splitting a join of separator-free parts gives back exactly those parts. */
  lemma {:induction false} SplitJoin(parts: seq<string>, sep: char)
    requires |parts| >= 1
    requires forall i :: 0 <= i < |parts| ==> sep !in parts[i]
    ensures Split(Join(parts, sep), sep) == parts
    decreases |parts|
  {
    if |parts| == 1 {
      SplitWithoutSeparator(parts[0], sep);
    } else {
      SplitJoin(parts[1..], sep);
      SplitAtFirstSeparator(parts[0], sep, Join(parts[1..], sep));
      assert [parts[0]] + parts[1..] == parts;
    }
  }

  /** `Version` is the three components joined by dots, i.e. "3.53.3". */
  lemma VersionIsDottedComponents()
    ensures Version == Join([Major, Minor, Patch], '.')
    ensures Version == "3.53.3"
  {
    var parts := [Major, Minor, Patch];
    assert parts[1..][1..] == [Patch];
    assert Join(parts[1..], '.') == Minor + "." + Patch;
    assert Join(parts, '.') == Major + "." + (Minor + "." + Patch);
  }

  /** `FullVersion` is the prefix, a slash and the version, i.e. "ydb-go-sdk/3.53.3". */
  lemma FullVersionIsPrefixSlashVersion()
    ensures FullVersion == Prefix + "/" + Version
    ensures FullVersion == "ydb-go-sdk/3.53.3"
  {
  }

  /** `FullVersion` begins with `Prefix` and a slash, and ends with `Version`. */
  lemma FullVersionShape()
    ensures |FullVersion| == |Prefix| + 1 + |Version|
    ensures FullVersion[..|Prefix|] == Prefix
    ensures FullVersion[|Prefix|] == '/'
    ensures FullVersion[|Prefix| + 1..] == Version
  {
  }

  /** No component holds a dot, so splitting `Version` on dots gives the components back. */
  lemma VersionSplitsIntoComponents()
    ensures '.' !in Major && '.' !in Minor && '.' !in Patch
    ensures Split(Version, '.') == [Major, Minor, Patch]
  {
    VersionIsDottedComponents();
    SplitJoin([Major, Minor, Patch], '.');
  }
}
