/** The string primitives the pages rely on: `trim`, `toLowerCase`,
    `includes`, `replace` with a string pattern, `split` on a one-character
    separator, `join`, and the decimal rendering of `Number.prototype.toString`.
    Strings are sequences of characters. */
module Text {
  import opened Wrappers

  // ----- trim -----

  /** The white-space characters `String.prototype.trim` removes, restricted
      to the ASCII controls, the space, the no-break space, the byte-order
      mark and the line/paragraph separators. */
  predicate IsSpace(c: char)
  {
    c == ' ' || c == '\t' || c == '\n' || c == '\r' || c == '\U{000B}' || c == '\U{000C}'
    || c == '\U{00A0}' || c == '\U{FEFF}' || c == '\U{2028}' || c == '\U{2029}'
  }

  /** Neither end of `s` is white space. */
  predicate Trimmed(s: string)
  {
    |s| == 0 || (!IsSpace(s[0]) && !IsSpace(s[|s| - 1]))
  }

  function TrimStart(s: string): (r: string)
    ensures |r| <= |s| && r == s[|s| - |r|..]
    ensures |r| == 0 || !IsSpace(r[0])
    ensures forall i :: 0 <= i < |s| - |r| ==> IsSpace(s[i])
    ensures (|s| == 0 || !IsSpace(s[0])) ==> r == s
  {
    if |s| > 0 && IsSpace(s[0]) then
      var rest := s[1..];
      var r := TrimStart(rest);
      assert s[|s| - |r|..] == rest[|rest| - |r|..];
      assert forall i :: 1 <= i < |s| - |r| ==> s[i] == rest[i - 1];
      r
    else s
  }

  function TrimEnd(s: string): (r: string)
    ensures |r| <= |s| && r == s[..|r|]
    ensures |r| == 0 || !IsSpace(r[|r| - 1])
    ensures forall i :: |r| <= i < |s| ==> IsSpace(s[i])
    ensures (|s| == 0 || !IsSpace(s[|s| - 1])) ==> r == s
  {
    if |s| > 0 && IsSpace(s[|s| - 1]) then TrimEnd(s[..|s| - 1]) else s
  }

  /** `String.prototype.trim`: `s` with the white space at both ends removed.
      The result has none left at either end, and a string without any there
      is returned as it is. */
  function Trim(s: string): (r: string)
    ensures |r| <= |s|
    ensures Trimmed(r)
    ensures Trimmed(s) ==> r == s
  {
    var t := TrimStart(s);
    var r := TrimEnd(t);
    assert |r| > 0 ==> r[0] == t[0] by {
      if |r| > 0 {
        assert r[0] == t[..|r|][0];
      }
    }
    r
  }

  /** `s.trim() === ""`. */
  predicate IsBlank(s: string)
  {
    Trim(s) == ""
  }

  /** A string is blank exactly when every character of it is white space. */
  lemma BlankIffAllSpace(s: string)
    ensures IsBlank(s) <==> forall i :: 0 <= i < |s| ==> IsSpace(s[i])
  {
    var t := TrimStart(s);
    if forall i :: 0 <= i < |s| ==> IsSpace(s[i]) {
      assert |t| == 0;
    }
  }

  /** Trimming twice is trimming once. */
  lemma TrimIdempotent(s: string)
    ensures Trim(Trim(s)) == Trim(s)
  {
  }

  /** A space put in front of a string is removed again by `trim`. */
  lemma TrimLeadingSpace(s: string)
    ensures Trim([' '] + s) == Trim(s)
  {
    assert ([' '] + s)[1..] == s;
  }

  // ----- toLowerCase -----

  /** `toLowerCase` on one character, for the Latin and Cyrillic capitals. */
  function LowerChar(c: char): char
  {
    if 'A' <= c <= 'Z' then (c as int + 32) as char
    else if 'А' <= c <= 'Я' then (c as int + 32) as char
    else if c == 'Ё' then 'ё'
    else c
  }

  /** `String.prototype.toLowerCase`, character by character. */
  function Lower(s: string): (r: string)
    ensures |r| == |s|
    ensures forall i :: 0 <= i < |s| ==> r[i] == LowerChar(s[i])
  {
    seq(|s|, i requires 0 <= i < |s| => LowerChar(s[i]))
  }

  // ----- includes, indexOf, replace -----

  predicate IsPrefix(p: string, s: string)
  {
    |p| <= |s| && s[..|p|] == p
  }

  /** `s.includes(q)`: `q` occurs in `s` as a contiguous slice. */
  predicate Contains(s: string, q: string)
  {
    exists i :: 0 <= i <= |s| && IsPrefix(q, s[i..])
  }

  /** The empty string occurs in every string, so `s.includes("")` holds. */
  lemma ContainsEmpty(s: string)
    ensures Contains(s, "")
  {
    assert IsPrefix("", s[0..]);
  }

  /** A one-character string occurs exactly where that character does. */
  lemma ContainsChar(s: string, c: char)
    ensures Contains(s, [c]) <==> c in s
  {
    if c in s {
      var i :| 0 <= i < |s| && s[i] == c;
      assert IsPrefix([c], s[i..]);
    }
    if Contains(s, [c]) {
      var i :| 0 <= i <= |s| && IsPrefix([c], s[i..]);
      assert s[i] == s[i..][0];
    }
  }

  /** Every character of an occurring string is a character of `s`. */
  lemma ContainsChars(s: string, q: string, c: char)
    requires Contains(s, q) && c in q
    ensures c in s
  {
    var i :| 0 <= i <= |s| && IsPrefix(q, s[i..]);
    var k :| 0 <= k < |q| && q[k] == c;
    assert s[i + k] == s[i..][..|q|][k];
  }

  /** `s.indexOf(q)`, with `None` for -1. */
  function IndexOf(s: string, q: string): (r: Option<nat>)
    ensures r.Some? ==> r.value <= |s| && IsPrefix(q, s[r.value..])
    ensures r.Some? ==> forall j :: 0 <= j < r.value ==> !IsPrefix(q, s[j..])
    ensures r.None? <==> !Contains(s, q)
    decreases |s|
  {
    if IsPrefix(q, s) then
      assert s[0..] == s;
      Some(0)
    else if |s| == 0 then
      assert s[0..] == s;
      None
    else match IndexOf(s[1..], q)
      case None =>
        assert !Contains(s, q) by {
          forall i | 0 <= i <= |s| ensures !IsPrefix(q, s[i..]) {
            if i > 0 {
              assert s[i..] == s[1..][i - 1..];
            } else {
              assert s[0..] == s;
            }
          }
        }
        None
      case Some(k) =>
        assert s[k + 1..] == s[1..][k..];
        forall j | 0 <= j < k + 1 ensures !IsPrefix(q, s[j..]) {
          if j > 0 {
            assert s[j..] == s[1..][j - 1..];
          } else {
            assert s[0..] == s;
          }
        }
        Some(k + 1)
  }

  /** `pattern` occurs in `s` at `i`, and nowhere before. */
  predicate FirstAt(s: string, pattern: string, i: int)
  {
    0 <= i <= |s| && IsPrefix(pattern, s[i..]) && forall j :: 0 <= j < i ==> !IsPrefix(pattern, s[j..])
  }

  /** `r` is `s` with the first occurrence of `pattern` cut out. */
  predicate CutAtFirst(s: string, pattern: string, r: string)
  {
    exists i :: 0 <= i <= |s| && FirstAt(s, pattern, i) && r == s[..i] + s[i + |pattern|..]
  }

  /** `s.replace(pattern, "")` with a string pattern: the first occurrence of
      `pattern` is cut out; a string without one is returned as it is. */
  function RemoveFirst(s: string, pattern: string): (r: string)
    ensures !Contains(s, pattern) ==> r == s
    ensures Contains(s, pattern) ==> CutAtFirst(s, pattern, r)
    ensures Contains(s, pattern) ==> |r| == |s| - |pattern|
    ensures IsPrefix(pattern, s) ==> r == s[|pattern|..]
  {
    match IndexOf(s, pattern)
    case None => s
    case Some(i) =>
      assert s[0..] == s;
      s[..i] + s[i + |pattern|..]
  }

  // ----- split and join -----

  /** `xs.join(delim)`. */
  function Join(xs: seq<string>, delim: string): string
  {
    if |xs| == 0 then ""
    else if |xs| == 1 then xs[0]
    else xs[0] + delim + Join(xs[1..], delim)
  }

  /** `s.split(sep)` for a one-character separator: the maximal separator-free
      segments, including the empty ones, which joined back give `s`. */
  function Split(s: string, sep: char): (r: seq<string>)
    ensures |r| >= 1
    ensures forall i :: 0 <= i < |r| ==> sep !in r[i]
    ensures Join(r, [sep]) == s
    decreases |s|
  {
    if |s| == 0 then [""]
    else
      var rest := Split(s[1..], sep);
      if s[0] == sep then
        assert [sep] + s[1..] == s;
        [""] + rest
      else
        var r := [[s[0]] + rest[0]] + rest[1..];
        assert r[1..] == rest[1..];
        assert Join(r, [sep]) == s by {
          if |rest| > 1 {
            assert Join(rest, [sep]) == rest[0] + [sep] + Join(rest[1..], [sep]);
          }
        }
        r
  }

  /** A separator-free string is a single segment. */
  lemma {:induction false} SplitNoSeparator(s: string, sep: char)
    requires sep !in s
    ensures Split(s, sep) == [s]
    decreases |s|
  {
    if |s| > 0 {
      SplitNoSeparator(s[1..], sep);
      assert [s[0]] + s[1..] == s;
    }
  }

  /** A separator ends the segment in front of it. */
  lemma {:induction false} SplitAfterSegment(a: string, sep: char, rest: string)
    requires sep !in a
    ensures Split(a + [sep] + rest, sep) == [a] + Split(rest, sep)
    decreases |a|
  {
    if |a| == 0 {
      assert a + [sep] + rest == [sep] + rest;
      assert ([sep] + rest)[1..] == rest;
    } else {
      SplitAfterSegment(a[1..], sep, rest);
      assert (a + [sep] + rest)[1..] == a[1..] + [sep] + rest;
      assert [a[0]] + a[1..] == a;
    }
  }

  /** Split undoes Join when no part holds the separator. */
  lemma {:induction false} SplitJoin(xs: seq<string>, sep: char)
    requires |xs| >= 1
    requires forall i :: 0 <= i < |xs| ==> sep !in xs[i]
    ensures Split(Join(xs, [sep]), sep) == xs
    decreases |xs|
  {
    if |xs| == 1 {
      SplitNoSeparator(xs[0], sep);
    } else {
      SplitJoin(xs[1..], sep);
      SplitAfterSegment(xs[0], sep, Join(xs[1..], [sep]));
      assert [xs[0]] + xs[1..] == xs;
    }
  }

  // ----- decimal numbers -----

  predicate IsDigit(c: char)
  {
    '0' <= c <= '9'
  }

  /** The value of a string of decimal digits, read most significant first. */
  function ParseDecimal(s: string): nat
    requires forall i :: 0 <= i < |s| ==> IsDigit(s[i])
  {
    if |s| == 0 then 0
    else
      assert IsDigit(s[|s| - 1]);
      ParseDecimal(s[..|s| - 1]) * 10 + (s[|s| - 1] as int - '0' as int)
  }

  /** `n.toString()` for a natural number: its canonical decimal rendering,
      which `ParseDecimal` reads back as `n`. */
  function NatToString(n: nat): (r: string)
    ensures |r| >= 1
    ensures forall i :: 0 <= i < |r| ==> IsDigit(r[i])
    ensures ParseDecimal(r) == n
    ensures r[0] == '0' ==> n == 0
  {
    if n < 10 then ["0123456789"[n]]
    else
      var r := NatToString(n / 10) + ["0123456789"[n % 10]];
      assert r[..|r| - 1] == NatToString(n / 10);
      r
  }

  /** Different numbers render differently. */
  lemma NatToStringInjective(a: nat, b: nat)
    requires a != b
    ensures NatToString(a) != NatToString(b)
  {
    assert ParseDecimal(NatToString(a)) == a;
  }
}
