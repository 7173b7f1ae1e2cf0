/**
 * Text: the small slice of Python's `str` and list behaviour that the report
 * code relies on (strip, lower, split, join, replace, slicing, int <-> str),
 * stated over `seq<char>`.  Character classes are ASCII only.
 */
module Text {

  datatype Option<T> = None | Some(value: T)

  datatype Result<T, E> = Ok(value: T) | Err(error: E)

  /**
   * Python `str.isspace` over ASCII: space, \t, \n, \v, \f, \r and the
   * four information separators \x1c..\x1f.
   */
  predicate IsSpace(c: char) {
    c == ' ' || c == '\t' || c == '\n' || c == '\r' || c == '\U{000B}' || c == '\U{000C}'
    || '\U{001C}' <= c <= '\U{001F}'
  }

  predicate IsDigit(c: char) {
    '0' <= c <= '9'
  }

  /** `\w` over ASCII. */
  predicate IsWordChar(c: char) {
    IsDigit(c) || 'a' <= c <= 'z' || 'A' <= c <= 'Z' || c == '_'
  }

  /** `d.get(key, fallback)` on a dictionary of strings. */
  function GetOr(d: map<string, string>, key: string, fallback: string): (r: string)
    ensures key in d ==> r == d[key]
    ensures key !in d ==> r == fallback
  {
    if key in d then d[key] else fallback
  }

  function LowerChar(c: char): (r: char)
  {
    if 'A' <= c <= 'Z' then (c as int + 32) as char else c
  }

  function UpperChar(c: char): (r: char)
  {
    if 'a' <= c <= 'z' then (c as int - 32) as char else c
  }

  /** Python `str.lower()`. */
  function Lower(s: string): (r: string)
    ensures |r| == |s|
    ensures forall i :: 0 <= i < |s| ==> r[i] == LowerChar(s[i])
  {
    seq(|s|, i requires 0 <= i < |s| => LowerChar(s[i]))
  }

  lemma LowerIdempotent(s: string)
    ensures Lower(Lower(s)) == Lower(s)
  {
  }

  predicate StartsWith(s: string, p: string) {
    |p| <= |s| && s[..|p|] == p
  }

  predicate EndsWith(s: string, p: string) {
    |p| <= |s| && s[|s| - |p|..] == p
  }

  /** A prefix of a text stays a prefix when more is appended. */
  lemma StartsWithAppend(s: string, t: string, p: string)
    requires StartsWith(s, p)
    ensures StartsWith(s + t, p)
  {
    assert (s + t)[..|p|] == s[..|p|];
  }

  /** Python `p in s`: some position of `s` starts an occurrence of `p`. */
  predicate Contains(s: string, p: string)
    decreases |s|
  {
    StartsWith(s, p) || (|s| > 0 && Contains(s[1..], p))
  }

  /** The number of whitespace characters at the front of `s`. */
  function LeadingSpaces(s: string): (n: nat)
    ensures n <= |s|
    ensures n < |s| ==> !IsSpace(s[n])
    decreases |s|
  {
    if |s| > 0 && IsSpace(s[0]) then 1 + LeadingSpaces(s[1..]) else 0
  }

  /** The number of whitespace characters at the end of `s`. */
  function TrailingSpaces(s: string): (n: nat)
    ensures n <= |s|
    ensures n < |s| ==> !IsSpace(s[|s| - 1 - n])
    decreases |s|
  {
    if |s| > 0 && IsSpace(s[|s| - 1]) then 1 + TrailingSpaces(s[..|s| - 1]) else 0
  }

  /** Python `s.strip()`: leading and trailing ASCII whitespace removed. */
  function Strip(s: string): (r: string)
    ensures |r| <= |s|
    ensures r == [] || (!IsSpace(r[0]) && !IsSpace(r[|r| - 1]))
  {
    var rest := s[LeadingSpaces(s)..];
    rest[..|rest| - TrailingSpaces(rest)]
  }

  /** Python `s.lstrip(chars)`. */
  function LStripChars(s: string, chars: set<char>): (r: string)
    ensures |r| <= |s| && r == s[|s| - |r|..]
    ensures r == [] || r[0] !in chars
    decreases |s|
  {
    if |s| > 0 && s[0] in chars then LStripChars(s[1..], chars) else s
  }

  /** Python `s[:n]` on a list, for n >= 0. */
  function Take<T>(xs: seq<T>, n: nat): (r: seq<T>)
    ensures |r| == if |xs| <= n then |xs| else n
    ensures r == xs[..|r|]
  {
    if |xs| <= n then xs else xs[..n]
  }

  /** Python `sep.join(xs)`. */
  function Join(sep: string, xs: seq<string>): string
    decreases |xs|
  {
    if |xs| == 0 then ""
    else if |xs| == 1 then xs[0]
    else xs[0] + sep + Join(sep, xs[1..])
  }

  /**
   * Python `s.split(sep)` for a non-empty separator: the pieces between the
   * leftmost non-overlapping occurrences of `sep`.
   */
  function Split(s: string, sep: string): (r: seq<string>)
    requires |sep| > 0
    ensures |r| >= 1
    decreases |s|
  {
    if StartsWith(s, sep) then [""] + Split(s[|sep|..], sep)
    else if |s| == 0 then [""]
    else
      var rest := Split(s[1..], sep);
      [[s[0]] + rest[0]] + rest[1..]
  }

  /** Joining the pieces of a split with the same separator gives back the text. */
  lemma {:induction false} SplitJoin(s: string, sep: string)
    requires |sep| > 0
    ensures Join(sep, Split(s, sep)) == s
    decreases |s|, 1
  {
    if StartsWith(s, sep) {
      SplitJoinAtSeparator(s, sep);
    } else if |s| > 0 {
      SplitJoinAtChar(s, sep);
    }
  }

  lemma {:induction false} SplitJoinAtSeparator(s: string, sep: string)
    requires |sep| > 0 && StartsWith(s, sep)
    ensures Join(sep, Split(s, sep)) == s
    decreases |s|, 0
  {
    var rest := Split(s[|sep|..], sep);
    assert Split(s, sep) == [""] + rest;
    SplitJoin(s[|sep|..], sep);
    JoinEmptyFirst(rest, sep);
    assert s == sep + s[|sep|..];
  }

  lemma {:induction false} SplitJoinAtChar(s: string, sep: string)
    requires |sep| > 0 && !StartsWith(s, sep) && |s| > 0
    ensures Join(sep, Split(s, sep)) == s
    decreases |s|, 0
  {
    var tail := s[1..];
    var rest := Split(tail, sep);
    SplitJoin(tail, sep);
    JoinPrepend(s[0], rest, sep);
    calc {
      Join(sep, Split(s, sep));
      Join(sep, [[s[0]] + rest[0]] + rest[1..]);
      [s[0]] + Join(sep, rest);
      [s[0]] + tail;
      s;
    }
  }

  /** An empty first piece leaves the separator in front of the rest. */
  lemma JoinEmptyFirst(xs: seq<string>, sep: string)
    requires |xs| >= 1
    ensures Join(sep, [""] + xs) == sep + Join(sep, xs)
  {
    assert ([""] + xs)[1..] == xs;
  }

  /** Putting a character in front of the first piece puts it in front of the joined text. */
  lemma JoinPrepend(c: char, xs: seq<string>, sep: string)
    requires |xs| >= 1
    ensures Join(sep, [[c] + xs[0]] + xs[1..]) == [c] + Join(sep, xs)
  {
    var ys := [[c] + xs[0]] + xs[1..];
    if |xs| > 1 {
      assert ys[1..] == xs[1..];
      assert Join(sep, ys) == ([c] + xs[0]) + sep + Join(sep, xs[1..]);
    }
  }

  /** No character of `s` is `c`. */
  predicate Free(s: string, c: char) {
    forall j :: 0 <= j < |s| ==> s[j] != c
  }

  /** Splitting on one character leaves that character in none of the pieces. */
  lemma {:induction false} SplitCharFree(s: string, c: char)
    ensures forall p :: p in Split(s, [c]) ==> Free(p, c)
    decreases |s|
  {
    if StartsWith(s, [c]) {
      SplitCharFree(s[1..], c);
    } else if |s| > 0 {
      SplitCharFree(s[1..], c);
      var rest := Split(s[1..], [c]);
      assert s[0] != c;
      assert rest[0] in rest;
      assert Free([s[0]] + rest[0], c);
      forall p | p in Split(s, [c])
        ensures Free(p, c)
      {
        if p != [s[0]] + rest[0] {
          assert p in rest[1..];
        }
      }
    }
  }

  /** A split has a second piece exactly when the separator occurs. */
  lemma {:induction false} SplitCount(s: string, sep: string)
    requires |sep| > 0
    ensures |Split(s, sep)| >= 2 <==> Contains(s, sep)
    decreases |s|
  {
    if !StartsWith(s, sep) && |s| > 0 {
      SplitCount(s[1..], sep);
    }
  }

  /** Splitting text without the separator gives the text back as the only piece. */
  lemma {:induction false} SplitAbsent(s: string, sep: string)
    requires |sep| > 0 && !Contains(s, sep)
    ensures Split(s, sep) == [s]
    decreases |s|
  {
    if |s| > 0 {
      SplitAbsent(s[1..], sep);
      assert [s[0]] + s[1..] == s;
    }
  }

  /** No occurrence of `sep` starts among the first `n` positions of `s`. */
  predicate NoneStartsBefore(s: string, sep: string, n: nat)
    requires n <= |s|
  {
    forall k :: 0 <= k < n ==> !StartsWith(s[k..], sep)
  }

  /** The first occurrence of the separator ends the first piece. */
  lemma {:induction false} SplitAt(pre: string, sep: string, rest: string)
    requires |sep| > 0
    requires NoneStartsBefore(pre + sep + rest, sep, |pre|)
    ensures Split(pre + sep + rest, sep) == [pre] + Split(rest, sep)
    decreases |pre|
  {
    var s := pre + sep + rest;
    if |pre| == 0 {
      assert s == sep + rest;
      assert s[|sep|..] == rest;
    } else {
      assert s[0..] == s;
      var t := pre[1..] + sep + rest;
      assert s[1..] == t;
      forall k | 0 <= k < |pre| - 1
        ensures !StartsWith(t[k..], sep)
      {
        assert t[k..] == s[k + 1..];
      }
      SplitAt(pre[1..], sep, rest);
      assert [pre[0]] + pre[1..] == pre;
    }
  }

  /** A text without the character holds no one-character occurrence of it. */
  lemma {:induction false} FreeNotContains(s: string, c: char)
    requires Free(s, c)
    ensures !Contains(s, [c])
    decreases |s|
  {
    if |s| > 0 {
      assert s[..1] == [s[0]];
      FreeNotContains(s[1..], c);
    }
  }

  /** Splitting a join of pieces that lack the one-character separator gives the pieces back. */
  lemma {:induction false} SplitJoinFree(xs: seq<string>, c: char)
    requires |xs| >= 1
    requires forall i :: 0 <= i < |xs| ==> Free(xs[i], c)
    ensures Split(Join([c], xs), [c]) == xs
    decreases |xs|
  {
    if |xs| == 1 {
      FreeNotContains(xs[0], c);
      SplitAbsent(xs[0], [c]);
    } else {
      var rest := Join([c], xs[1..]);
      forall k | 0 <= k < |xs[0]|
        ensures !StartsWith((xs[0] + [c] + rest)[k..], [c])
      {
        assert (xs[0] + [c] + rest)[k] == xs[0][k];
      }
      SplitAt(xs[0], [c], rest);
      SplitJoinFree(xs[1..], c);
      assert [xs[0]] + xs[1..] == xs;
    }
  }

  /** Stripping keeps a piece free of a character it was free of. */
  lemma StripFree(s: string, c: char)
    requires Free(s, c)
    ensures Free(Strip(s), c)
  {
    var rest := s[LeadingSpaces(s)..];
    assert Free(rest, c);
  }

  /** Stripping text that has no surrounding whitespace changes nothing. */
  lemma StripUnchanged(s: string)
    requires s == [] || (!IsSpace(s[0]) && !IsSpace(s[|s| - 1]))
    ensures Strip(s) == s
  {
  }

  /** Python `s.replace(pat, rep)` for a non-empty pattern, left to right. */
  function Replace(s: string, pat: string, rep: string): string
    requires |pat| > 0
    decreases |s|
  {
    if StartsWith(s, pat) then rep + Replace(s[|pat|..], pat, rep)
    else if |s| == 0 then ""
    else [s[0]] + Replace(s[1..], pat, rep)
  }

  /** Replacing a pattern that does not occur changes nothing. */
  lemma {:induction false} ReplaceAbsent(s: string, pat: string, rep: string)
    requires |pat| > 0 && !Contains(s, pat)
    ensures Replace(s, pat, rep) == s
    decreases |s|
  {
    if |s| > 0 {
      ReplaceAbsent(s[1..], pat, rep);
    }
  }

  /** An occurrence of a prefix of `p` is implied by an occurrence of `p`. */
  lemma {:induction false} ContainsPrefix(s: string, p: string, q: string)
    requires Contains(s, p + q)
    ensures Contains(s, p)
    decreases |s|
  {
    if StartsWith(s, p + q) {
      assert s[..|p|] == (p + q)[..|p|];
    } else {
      ContainsPrefix(s[1..], p, q);
    }
  }

  function DigitChar(d: nat): (c: char)
    requires d < 10
    ensures IsDigit(c)
  {
    ('0' as int + d) as char
  }

  function DigitValue(c: char): (d: nat)
    requires IsDigit(c)
    ensures d < 10
  {
    c as int - '0' as int
  }

  /** Python `str(n)` for a natural number. */
  function NatToString(n: nat): (r: string)
    ensures |r| >= 1
    ensures forall i :: 0 <= i < |r| ==> IsDigit(r[i])
    decreases n
  {
    if n < 10 then [DigitChar(n)] else NatToString(n / 10) + [DigitChar(n % 10)]
  }

  /** Python `str(i)` for any integer. */
  function IntToString(i: int): (r: string)
    ensures |r| >= 1
  {
    if i < 0 then "-" + NatToString(-i) else NatToString(i)
  }

  /** Python `s.isdigit()` over ASCII: non-empty and all digits. */
  predicate IsDigitString(s: string) {
    |s| > 0 && forall i :: 0 <= i < |s| ==> IsDigit(s[i])
  }

  /** Python `int(s)` for a string of decimal digits. */
  function DigitsValue(s: string): nat
    requires forall i :: 0 <= i < |s| ==> IsDigit(s[i])
    decreases |s|
  {
    if |s| == 0 then 0 else DigitsValue(s[..|s| - 1]) * 10 + DigitValue(s[|s| - 1])
  }

  /** `int(str(n)) == n`: the decimal rendering reads back as the same number. */
  lemma {:induction false} NatToStringRoundTrip(n: nat)
    ensures DigitsValue(NatToString(n)) == n
    decreases n
  {
    if n >= 10 {
      NatToStringRoundTrip(n / 10);
      var r := NatToString(n);
      assert r[..|r| - 1] == NatToString(n / 10);
    }
  }
}
