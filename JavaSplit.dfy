/** `String.split` with a one-character separator and no limit, as the engine
    uses it to take "app:version" keys and "system:app:version" identifiers apart:
    a string without the separator comes back whole; otherwise it is cut at every
    separator and the empty strings at the end are dropped. */
module JavaSplit {

  const Sep: char := ':'

  /** Every field between separators, empty ones included. */
  function Fields(s: string): (r: seq<string>)
    ensures |r| >= 1
  {
    if |s| == 0 then [""]
    else if s[0] == Sep then [""] + Fields(s[1..])
    else var rest := Fields(s[1..]); [[s[0]] + rest[0]] + rest[1..]
  }

  function DropTrailingEmpty(parts: seq<string>): (r: seq<string>)
    ensures |r| <= |parts| && r == parts[..|r|]
    ensures |r| > 0 ==> r[|r| - 1] != ""
    ensures forall i :: |r| <= i < |parts| ==> parts[i] == ""
  {
    if |parts| > 0 && parts[|parts| - 1] == "" then DropTrailingEmpty(parts[..|parts| - 1])
    else parts
  }

  function Split(s: string): seq<string>
  {
    if Sep !in s then [s] else DropTrailingEmpty(Fields(s))
  }

  /** Two parts joined by the separator, as the engine builds its keys. */
  function Join2(a: string, b: string): string
  {
    a + [Sep] + b
  }

  lemma {:induction false} FieldsNoSep(s: string)
    requires Sep !in s
    ensures Fields(s) == [s]
  {
    if |s| > 0 {
      FieldsNoSep(s[1..]);
      assert [s[0]] + s[1..] == s;
    }
  }

  lemma {:induction false} FieldsAfterPart(a: string, rest: string)
    requires Sep !in a
    ensures Fields(a + [Sep] + rest) == [a] + Fields(rest)
  {
    if |a| == 0 {
      assert a + [Sep] + rest == [Sep] + rest;
      assert ([Sep] + rest)[1..] == rest;
    } else {
      var s := a + [Sep] + rest;
      FieldsAfterPart(a[1..], rest);
      assert s[0] == a[0];
      assert s[1..] == a[1..] + [Sep] + rest;
      assert [a[0]] + a[1..] == a;
    }
  }

  /** A key "app:version" splits back into its two parts when neither holds the
      separator and the version is not empty. */
  lemma SplitJoin2(a: string, b: string)
    requires Sep !in a && Sep !in b && b != ""
    ensures Split(Join2(a, b)) == [a, b]
  {
    FieldsAfterPart(a, b);
    FieldsNoSep(b);
    assert Join2(a, b)[|a|] == Sep;
  }

  /** An identifier "system:app:version" splits back into its three parts under
      the same conditions. */
  lemma SplitJoin3(a: string, b: string, c: string)
    requires Sep !in a && Sep !in b && Sep !in c && c != ""
    ensures Split(Join2(Join2(a, b), c)) == [a, b, c]
  {
    var s := Join2(Join2(a, b), c);
    assert s == a + [Sep] + (b + [Sep] + c);
    FieldsAfterPart(a, b + [Sep] + c);
    FieldsAfterPart(b, c);
    FieldsNoSep(c);
    assert s[|a|] == Sep;
  }

  /** With an empty version the trailing empty field is dropped, so the key
      "app:" splits into fewer than two parts. */
  lemma SplitEmptyVersion(a: string)
    requires Sep !in a
    ensures |Split(Join2(a, ""))| < 2
  {
    FieldsAfterPart(a, "");
    assert Join2(a, "")[|a|] == Sep;
  }
}
