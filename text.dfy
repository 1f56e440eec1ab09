/** String helpers shared by the importer, the coordinator queries and the
    device-info builder: Python's ordering of `str` values, `str.join`,
    `str.split(",")[0]`, and the handful of Python string methods the integration
    calls, which this model leaves uninterpreted. */
module Text {

  datatype Option<+T> = None | Some(value: T)

  /** Python's `str.title`, `str.upper` and `str.strip`, given from outside:
      the model never looks inside them. */
  datatype TextOps = TextOps(title: string -> string, upper: string -> string, strip: string -> string)

  /** Python's `a < b` on strings: code point by code point, a proper prefix
      comes first. */
  predicate StrLt(a: string, b: string)
    decreases |a|
  {
    if a == [] then b != []
    else if b == [] then false
    else if a[0] != b[0] then a[0] < b[0]
    else StrLt(a[1..], b[1..])
  }

  /** Python's `a <= b` on strings. */
  predicate StrLe(a: string, b: string)
  {
    a == b || StrLt(a, b)
  }

  lemma {:induction false} StrLtIrreflexive(a: string)
    ensures !StrLt(a, a)
    decreases |a|
  {
    if a != [] {
      StrLtIrreflexive(a[1..]);
    }
  }

  lemma {:induction false} StrLtTotal(a: string, b: string)
    ensures StrLt(a, b) || a == b || StrLt(b, a)
    decreases |a|
  {
    if a != [] && b != [] && a[0] == b[0] {
      StrLtTotal(a[1..], b[1..]);
      if a[1..] == b[1..] {
        assert a == [a[0]] + a[1..] && b == [b[0]] + b[1..];
      }
    }
  }

  lemma {:induction false} StrLtTransitive(a: string, b: string, c: string)
    requires StrLt(a, b) && StrLt(b, c)
    ensures StrLt(a, c)
    decreases |a|
  {
    if a != [] && a[0] == b[0] && b[0] == c[0] {
      StrLtTransitive(a[1..], b[1..], c[1..]);
    }
  }

  lemma StrLtAsymmetric(a: string, b: string)
    requires StrLt(a, b)
    ensures !StrLt(b, a)
  {
    if StrLt(b, a) {
      StrLtTransitive(a, b, a);
      StrLtIrreflexive(a);
    }
  }

  lemma StrLeTotal(a: string, b: string)
    ensures StrLe(a, b) || StrLe(b, a)
  {
    StrLtTotal(a, b);
  }

  lemma StrLeTransitive(a: string, b: string, c: string)
    requires StrLe(a, b) && StrLe(b, c)
    ensures StrLe(a, c)
  {
    if a != b && b != c {
      StrLtTransitive(a, b, c);
    }
  }

  /** Python's `sep.join(parts)`. */
  function Join(parts: seq<string>, sep: string): string
    decreases |parts|
  {
    if parts == [] then ""
    else if |parts| == 1 then parts[0]
    else parts[0] + sep + Join(parts[1..], sep)
  }

  /** A joined string always begins with its first part, and a single part is
      joined to itself. */
  lemma JoinStartsWithFirst(parts: seq<string>, sep: string)
    requires parts != []
    ensures |parts[0]| <= |Join(parts, sep)|
    ensures Join(parts, sep)[..|parts[0]|] == parts[0]
    ensures |parts| == 1 ==> Join(parts, sep) == parts[0]
  {
    if |parts| > 1 {
      var rest := sep + Join(parts[1..], sep);
      assert Join(parts, sep) == parts[0] + rest;
      assert (parts[0] + rest)[..|parts[0]|] == parts[0];
    }
  }

  /** Three parts are joined in their order, with the separator between
      neighbours. */
  lemma JoinThree(a: string, b: string, c: string, sep: string)
    ensures Join([a, b, c], sep) == a + sep + b + sep + c
  {
    assert [a, b, c][1..] == [b, c] && [b, c][1..] == [c];
    assert Join([b, c], sep) == b + sep + c;
  }

  /** Whether `s.split(",")` has at least two parts. */
  predicate HasComma(s: string)
  {
    exists i :: 0 <= i < |s| && s[i] == ','
  }

  /** `s.split(",")[0]`: everything before the first comma, or all of `s`. */
  function BeforeFirstComma(s: string): (r: string)
    ensures |r| <= |s| && r == s[..|r|]
    ensures forall i :: 0 <= i < |r| ==> r[i] != ','
    ensures |r| < |s| <==> HasComma(s)
    ensures |r| < |s| ==> s[|r|] == ','
    decreases |s|
  {
    if s == [] then ""
    else if s[0] == ',' then ""
    else
      var rest := BeforeFirstComma(s[1..]);
      assert HasComma(s[1..]) ==> HasComma(s) by {
        if HasComma(s[1..]) {
          var i :| 0 <= i < |s[1..]| && s[1..][i] == ',';
          assert s[i + 1] == ',';
        }
      }
      assert HasComma(s) ==> HasComma(s[1..]) by {
        if HasComma(s) {
          var i :| 0 <= i < |s| && s[i] == ',';
          assert i > 0 && s[1..][i - 1] == ',';
        }
      }
      [s[0]] + rest
  }
}
