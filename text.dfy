/** The Python string built-ins the fact-checker relies on, as Dafny functions on
    `string` (a sequence of code points, like a Python `str`): `str.strip`,
    `str.split` with a one-character separator, `sep.join`, `str.startswith`,
    `str.endswith`, `str.lower` and the `in` substring test, plus the character
    classes `\s` and `\w` of Python's `re` module. */
module Text {

  /** Python's whitespace (`str.isspace`, and `\s` in a `str` pattern):
      tab to carriage return, the four information separators, space, NEL,
      no-break space, and the Unicode space separators and line/paragraph separators. */
  predicate IsSpace(c: char) {
    var n := c as int;
    (9 <= n <= 13) || (28 <= n <= 32) || n == 0x85 || n == 0xA0 || n == 0x1680
    || (0x2000 <= n <= 0x200A) || n == 0x2028 || n == 0x2029 || n == 0x202F
    || n == 0x205F || n == 0x3000
  }

  /** `\w` restricted to ASCII: letters, digits and the underscore. */
  predicate IsWordChar(c: char) {
    ('a' <= c <= 'z') || ('A' <= c <= 'Z') || ('0' <= c <= '9') || c == '_'
  }

  lemma WordCharIsNotSpace(c: char)
    ensures IsWordChar(c) ==> !IsSpace(c)
  {
  }

  /** `s.startswith(p)` */
  predicate StartsWith(s: string, p: string) {
    |p| <= |s| && s[..|p|] == p
  }

  /** `s.endswith(p)` */
  predicate EndsWith(s: string, p: string) {
    |p| <= |s| && s[|s| - |p|..] == p
  }

  /** `p` occurs in `s` starting at index `i`. */
  predicate OccursAt(s: string, p: string, i: int) {
    0 <= i <= |s| - |p| && s[i..i + |p|] == p
  }

  /** `s.lstrip()`: drops the leading whitespace and nothing else. */
  function StripLeading(s: string): (r: string)
    ensures |r| <= |s| && r == s[|s| - |r|..]
    ensures r == [] || !IsSpace(r[0])
    ensures forall i :: 0 <= i < |s| - |r| ==> IsSpace(s[i])
  {
    if |s| > 0 && IsSpace(s[0]) then StripLeading(s[1..]) else s
  }

  /** `s.rstrip()`: drops the trailing whitespace and nothing else. */
  function StripTrailing(s: string): (r: string)
    ensures |r| <= |s| && r == s[..|r|]
    ensures r == [] || !IsSpace(r[|r| - 1])
    ensures forall i :: |r| <= i < |s| ==> IsSpace(s[i])
  {
    if |s| > 0 && IsSpace(s[|s| - 1]) then StripTrailing(s[..|s| - 1]) else s
  }

  /** `s.strip()`: drops the leading and the trailing whitespace. */
  function Strip(s: string): (r: string)
    ensures |r| <= |s|
    ensures r == [] || (!IsSpace(r[0]) && !IsSpace(r[|r| - 1]))
    ensures (|s| == 0 || (!IsSpace(s[0]) && !IsSpace(s[|s| - 1]))) ==> r == s
  {
    StripTrailing(StripLeading(s))
  }

  /** `r` is the slice of `s` starting at `a`, with only whitespace before and after it. */
  predicate IsTrimmedAt(s: string, r: string, a: int) {
    0 <= a && a + |r| <= |s| && r == s[a..a + |r|]
    && (forall i :: 0 <= i < a ==> IsSpace(s[i]))
    && (forall i :: a + |r| <= i < |s| ==> IsSpace(s[i]))
  }

  /** `strip()` cuts off exactly the whitespace at both ends: the result is a slice
      of the text with only whitespace before and after it, and it is empty exactly
      when the text is all whitespace. */
  lemma StripRemovesExactlyTheEnds(s: string)
    ensures exists a :: IsTrimmedAt(s, Strip(s), a)
    ensures Strip(s) == [] <==> forall i :: 0 <= i < |s| ==> IsSpace(s[i])
  {
    var l := StripLeading(s);
    var r := Strip(s);
    var a := |s| - |l|;
    assert r == l[..|r|];
    assert r == s[a..a + |r|];
    forall i | a + |r| <= i < |s| ensures IsSpace(s[i]) {
      assert s[i] == l[i - a];
    }
    assert IsTrimmedAt(s, r, a);
    if r != [] {
      assert s[a] == r[0];
    }
  }

  /** ASCII lower-casing of one character, as `str.lower` does for ASCII letters. */
  function LowerChar(c: char): (d: char)
    ensures 'A' <= c <= 'Z' ==> 'a' <= d <= 'z' && d as int == c as int + 32
    ensures !('A' <= c <= 'Z') ==> d == c
  {
    if 'A' <= c <= 'Z' then (c as int + 32) as char else c
  }

  /** `s.lower()`, character by character. */
  function Lower(s: string): (r: string)
    ensures |r| == |s|
    ensures forall i :: 0 <= i < |s| ==> r[i] == LowerChar(s[i])
  {
    seq(|s|, i requires 0 <= i < |s| => LowerChar(s[i]))
  }

  /** Python's substring test `p in s`, scanning `s` from the left. */
  predicate Contains(s: string, p: string)
    decreases |s|
  {
    StartsWith(s, p) || (|s| > 0 && Contains(s[1..], p))
  }

  /** The scan agrees with the definition "p occurs somewhere in s". */
  lemma {:induction false} ContainsIff(s: string, p: string)
    ensures Contains(s, p) <==> exists i :: OccursAt(s, p, i)
    decreases |s|
  {
    if StartsWith(s, p) {
      assert OccursAt(s, p, 0);
    } else if |s| == 0 {
      assert forall i :: !OccursAt(s, p, i);
    } else {
      ContainsIff(s[1..], p);
      if Contains(s[1..], p) {
        var i :| OccursAt(s[1..], p, i);
        assert s[1..][i..i + |p|] == s[i + 1..i + 1 + |p|];
        assert OccursAt(s, p, i + 1);
      } else {
        forall i | OccursAt(s, p, i)
          ensures false
        {
          assert i != 0;
          assert s[1..][i - 1..i - 1 + |p|] == s[i..i + |p|];
          assert OccursAt(s[1..], p, i - 1);
        }
      }
    }
  }

  /** `s.split(sep)` for a one-character separator: the pieces between the separators. */
  function Split(s: string, sep: char): (parts: seq<string>)
    ensures |parts| >= 1
    ensures forall i :: 0 <= i < |parts| ==> sep !in parts[i]
    decreases |s|
  {
    if |s| == 0 then [""]
    else
      var rest := Split(s[1..], sep);
      if s[0] == sep then [""] + rest
      else [[s[0]] + rest[0]] + rest[1..]
  }

  /** `sep.join(parts)` */
  function Join(parts: seq<string>, sep: string): string
  {
    if |parts| == 0 then ""
    else if |parts| == 1 then parts[0]
    else parts[0] + sep + Join(parts[1..], sep)
  }

  /** Joining one more piece adds the separator and that piece at the end, so the
      pieces appear in order. */
  lemma {:induction false} JoinSnoc(parts: seq<string>, last: string, sep: string)
    requires |parts| >= 1
    ensures Join(parts + [last], sep) == Join(parts, sep) + sep + last
    decreases |parts|
  {
    if |parts| == 1 {
      assert parts + [last] == [parts[0], last];
      assert [parts[0], last][1..] == [last];
    } else {
      assert (parts + [last])[1..] == parts[1..] + [last];
      JoinSnoc(parts[1..], last, sep);
    }
  }

  lemma JoinConsHead(c: char, parts: seq<string>, sep: string)
    requires |parts| >= 1
    ensures Join([[c] + parts[0]] + parts[1..], sep) == [c] + Join(parts, sep)
  {
    var q := [[c] + parts[0]] + parts[1..];
    assert q[1..] == parts[1..];
  }

  /** Splitting and joining again gives back the text: `sep.join(s.split(sep)) == s`. */
  lemma {:induction false} JoinSplit(s: string, sep: char)
    ensures Join(Split(s, sep), [sep]) == s
    decreases |s|
  {
    if |s| > 0 {
      var rest := Split(s[1..], sep);
      JoinSplit(s[1..], sep);
      if s[0] == sep {
        assert ([""] + rest)[1..] == rest;
        assert Join([""] + rest, [sep]) == "" + [sep] + Join(rest, [sep]);
        assert s == [s[0]] + s[1..];
      } else {
        JoinConsHead(s[0], rest, [sep]);
        assert s == [s[0]] + s[1..];
      }
    }
  }

  lemma {:induction false} SplitNoSeparator(a: string, sep: char)
    requires sep !in a
    ensures Split(a, sep) == [a]
    decreases |a|
  {
    if |a| > 0 {
      assert a[0] != sep;
      assert sep !in a[1..];
      SplitNoSeparator(a[1..], sep);
      assert [a[0]] + a[1..] == a;
    }
  }

  lemma {:induction false} SplitAfterPiece(a: string, b: string, sep: char)
    requires sep !in a
    ensures Split(a + [sep] + b, sep) == [a] + Split(b, sep)
    decreases |a|
  {
    var s := a + [sep] + b;
    if |a| == 0 {
      assert s[0] == sep && s[1..] == b;
    } else {
      assert s[0] == a[0] && a[0] != sep;
      assert s[1..] == a[1..] + [sep] + b;
      assert sep !in a[1..];
      SplitAfterPiece(a[1..], b, sep);
      assert [a[0]] + a[1..] == a;
    }
  }

  /** Joining pieces free of the separator and splitting again gives back the pieces:
      `sep.join(parts).split(sep) == parts` for a non-empty list. */
  lemma {:induction false} SplitJoin(parts: seq<string>, sep: char)
    requires |parts| >= 1
    requires forall i :: 0 <= i < |parts| ==> sep !in parts[i]
    ensures Split(Join(parts, [sep]), sep) == parts
    decreases |parts|
  {
    if |parts| == 1 {
      SplitNoSeparator(parts[0], sep);
    } else {
      SplitJoin(parts[1..], sep);
      assert Join(parts, [sep]) == parts[0] + [sep] + Join(parts[1..], [sep]);
      SplitAfterPiece(parts[0], Join(parts[1..], [sep]), sep);
      assert [parts[0]] + parts[1..] == parts;
    }
  }
}
