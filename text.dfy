/** The handful of Python `str` operations the core relies on: `lower()`,
    `upper()`, `split(sep)`, `sep.join(...)`, `startswith`, `str(int)` and
    `int(str)`. Case mapping is modelled for ASCII letters only. */
module Text {
  import opened Wrappers

  // ---------------------------------------------------------------------
  // Case mapping

  predicate IsUpperAscii(c: char) { 'A' <= c <= 'Z' }

  predicate IsLowerAscii(c: char) { 'a' <= c <= 'z' }

  function LowerChar(c: char): char
  {
    if IsUpperAscii(c) then (c as int + 32) as char else c
  }

  function UpperChar(c: char): char
  {
    if IsLowerAscii(c) then (c as int - 32) as char else c
  }

  /** `s.lower()` on ASCII letters: same length, every capital becomes the
      small letter whose capital it is, no capital is left, and every
      other character is unchanged. */
  function Lower(s: string): (r: string)
    ensures |r| == |s|
    ensures forall i :: 0 <= i < |r| ==> !IsUpperAscii(r[i])
    ensures forall i :: 0 <= i < |s| && IsUpperAscii(s[i]) ==> IsLowerAscii(r[i]) && UpperChar(r[i]) == s[i]
    ensures forall i :: 0 <= i < |s| && !IsUpperAscii(s[i]) ==> r[i] == s[i]
  {
    seq(|s|, i requires 0 <= i < |s| => LowerChar(s[i]))
  }

  /** `s.upper()` on ASCII letters: same length, every small letter
      becomes the capital whose small letter it is, no small letter is
      left, and every other character is unchanged. */
  function Upper(s: string): (r: string)
    ensures |r| == |s|
    ensures forall i :: 0 <= i < |r| ==> !IsLowerAscii(r[i])
    ensures forall i :: 0 <= i < |s| && IsLowerAscii(s[i]) ==> IsUpperAscii(r[i]) && LowerChar(r[i]) == s[i]
    ensures forall i :: 0 <= i < |s| && !IsLowerAscii(s[i]) ==> r[i] == s[i]
  {
    seq(|s|, i requires 0 <= i < |s| => UpperChar(s[i]))
  }

  lemma LowerIdempotent(s: string)
    ensures Lower(Lower(s)) == Lower(s)
  {
  }

  // ---------------------------------------------------------------------
  // Searching, prefixes, concatenation

  predicate StartsWith(s: string, prefix: string)
  {
    |prefix| <= |s| && s[..|prefix|] == prefix
  }

  /** Index of the first occurrence of `c` in `s`. */
  function IndexOf(s: string, c: char): (k: nat)
    requires c in s
    ensures k < |s| && s[k] == c && c !in s[..k]
  {
    if s[0] == c then 0 else 1 + IndexOf(s[1..], c)
  }

  /** The first occurrence is the one with none before it. */
  lemma {:induction false} IndexOfAt(s: string, c: char, k: nat)
    requires k < |s| && s[k] == c && c !in s[..k]
    ensures IndexOf(s, c) == k
  {
    if k > 0 {
      assert s[0] == s[..k][0];
      assert s[1..][..k - 1] == s[..k][1..];
      IndexOfAt(s[1..], c, k - 1);
    }
  }

  /** `''.join(xs)` */
  function Concat(xs: seq<string>): string
  {
    if xs == [] then "" else xs[0] + Concat(xs[1..])
  }

  lemma ConcatAppend(xs: seq<string>, x: string)
    ensures Concat(xs + [x]) == Concat(xs) + x
  {
    if xs != [] {
      assert (xs + [x])[1..] == xs[1..] + [x];
      ConcatAppend(xs[1..], x);
    }
  }

  // ---------------------------------------------------------------------
  // str.split(sep) / sep.join(xs) with a one-character separator

  /** `s.split(sep)`: the pieces between separators, always at least one
      (Python's `''.split(',') == ['']`). */
  function Split(s: string, sep: char): (r: seq<string>)
    ensures |r| >= 1
    ensures forall i :: 0 <= i < |r| ==> sep !in r[i]
    decreases |s|
  {
    if sep !in s then [s]
    else
      var k := IndexOf(s, sep);
      [s[..k]] + Split(s[k + 1..], sep)
  }

  /** `sep.join(xs)` */
  function Join(xs: seq<string>, sep: char): string
  {
    if xs == [] then ""
    else if |xs| == 1 then xs[0]
    else xs[0] + [sep] + Join(xs[1..], sep)
  }

  /** Joining the pieces of a split gives the original string back. */
  lemma {:induction false} JoinSplit(s: string, sep: char)
    ensures Join(Split(s, sep), sep) == s
    decreases |s|
  {
    if sep in s {
      var k := IndexOf(s, sep);
      var rest := s[k + 1..];
      var pieces := Split(rest, sep);
      JoinSplit(rest, sep);
      assert Split(s, sep) == [s[..k]] + pieces;
      assert ([s[..k]] + pieces)[1..] == pieces;
      assert Join(Split(s, sep), sep) == s[..k] + [sep] + Join(pieces, sep);
      assert s == s[..k] + [sep] + rest;
    } else {
      assert Split(s, sep) == [s];
    }
  }

  /** Every character of a piece of a split occurs in the string. */
  lemma SplitPiecesFrom(s: string, sep: char)
    ensures forall i, j :: 0 <= i < |Split(s, sep)| && 0 <= j < |Split(s, sep)[i]| ==> Split(s, sep)[i][j] in s
  {
    forall i, j | 0 <= i < |Split(s, sep)| && 0 <= j < |Split(s, sep)[i]| ensures Split(s, sep)[i][j] in s {
      SplitCharFrom(s, sep, i, j);
    }
  }

  lemma {:induction false} SplitCharFrom(s: string, sep: char, i: nat, j: nat)
    requires i < |Split(s, sep)| && j < |Split(s, sep)[i]|
    ensures Split(s, sep)[i][j] in s
    decreases |s|
  {
    if sep !in s {
      assert Split(s, sep)[i] == s;
    } else {
      var k := IndexOf(s, sep);
      var t := s[k + 1..];
      var pieces, rest := Split(s, sep), Split(t, sep);
      assert pieces == [s[..k]] + rest;
      if i == 0 {
        assert pieces[0][j] == s[j];
      } else {
        assert pieces[i] == rest[i - 1];
        SplitCharFrom(t, sep, i - 1, j);
        var m :| 0 <= m < |t| && t[m] == rest[i - 1][j];
        assert s[k + 1 + m] == t[m];
      }
    }
  }

  /** Splitting a join of separator-free pieces gives the pieces back. */
  lemma {:induction false} SplitJoin(xs: seq<string>, sep: char)
    requires |xs| >= 1
    requires forall i :: 0 <= i < |xs| ==> sep !in xs[i]
    ensures Split(Join(xs, sep), sep) == xs
    decreases |xs|
  {
    if |xs| > 1 {
      var j := Join(xs, sep);
      var rest := Join(xs[1..], sep);
      assert j == xs[0] + [sep] + rest;
      assert j[|xs[0]|] == sep;
      assert j[..|xs[0]|] == xs[0];
      assert sep in j;
      assert IndexOf(j, sep) == |xs[0]|;
      assert j[|xs[0]| + 1..] == rest;
      SplitJoin(xs[1..], sep);
    }
  }

  /** Splitting a separator-free word followed by the separator peels off
      exactly that word. */
  lemma SplitCons(w: string, sep: char, rest: string)
    requires sep !in w
    ensures Split(w + [sep] + rest, sep) == [w] + Split(rest, sep)
  {
    var j := w + [sep] + rest;
    assert j[|w|] == sep;
    assert j[..|w|] == w;
    assert IndexOf(j, sep) == |w|;
    assert j[|w| + 1..] == rest;
  }

  /** `s.ljust(width)`: `s` padded on the right with spaces up to `width`
      characters; a longer `s` is returned whole. */
  function LJust(s: string, width: int): (r: string)
    ensures |r| == if width > |s| then width else |s|
    ensures r[..|s|] == s
    ensures forall i :: |s| <= i < |r| ==> r[i] == ' '
  {
    if width > |s| then s + seq(width - |s|, _ => ' ') else s
  }

  // ---------------------------------------------------------------------
  // str(int) and int(str)

  predicate IsDigit(c: char) { '0' <= c <= '9' }

  predicate AllDigits(s: string)
  {
    forall i :: 0 <= i < |s| ==> IsDigit(s[i])
  }

  /** Python's `str.isspace()` restricted to ASCII. */
  predicate IsSpace(c: char)
  {
    c == ' ' || c == '\t' || c == '\n' || c == '\r' || c == 11 as char || c == 12 as char
  }

  function DigitValue(c: char): nat
    requires IsDigit(c)
  {
    c as int - '0' as int
  }

  function DigitChar(d: nat): (c: char)
    requires d < 10
    ensures IsDigit(c) && DigitValue(c) == d
  {
    ('0' as int + d) as char
  }

  /** The number a string of decimal digits denotes. */
  function DigitsValue(s: string): nat
    requires AllDigits(s)
  {
    if s == [] then 0
    else DigitsValue(s[..|s| - 1]) * 10 + DigitValue(s[|s| - 1])
  }

  /** `str(n)` for a natural number: decimal, no leading zeros. */
  function NatToString(n: nat): (r: string)
    ensures |r| >= 1 && AllDigits(r)
    ensures |r| > 1 ==> r[0] != '0'
  {
    if n < 10 then [DigitChar(n)]
    else NatToString(n / 10) + [DigitChar(n % 10)]
  }

  /** `str(i)` */
  function IntToString(i: int): (r: string)
    ensures |r| >= 1
  {
    if i < 0 then "-" + NatToString(-i) else NatToString(i)
  }

  lemma {:induction false} NatToStringValue(n: nat)
    ensures DigitsValue(NatToString(n)) == n
  {
    if n >= 10 {
      var s := NatToString(n);
      NatToStringValue(n / 10);
      assert s[..|s| - 1] == NatToString(n / 10);
    }
  }

  function StripLeft(s: string): (r: string)
    ensures |r| <= |s| && r == s[|s| - |r|..]
    ensures r != [] ==> !IsSpace(r[0])
  {
    if s != [] && IsSpace(s[0]) then StripLeft(s[1..]) else s
  }

  function StripRight(s: string): (r: string)
    ensures |r| <= |s| && r == s[..|r|]
    ensures r != [] ==> !IsSpace(r[|r| - 1])
  {
    if s != [] && IsSpace(s[|s| - 1]) then StripRight(s[..|s| - 1]) else s
  }

  /** `s.strip()` */
  function Strip(s: string): string
  {
    StripRight(StripLeft(s))
  }

  predicate AllSpace(s: string)
  {
    forall i :: 0 <= i < |s| ==> IsSpace(s[i])
  }

  /** `int(s)` for decimal text: surrounding white space is ignored, one
      optional sign, at least one digit; anything else is Python's
      `ValueError`, here `None`. */
  function ParseInt(s: string): Option<int>
  {
    var t := Strip(s);
    if t != [] && (t[0] == '-' || t[0] == '+') then
      var body := t[1..];
      if body != [] && AllDigits(body) then
        var v: int := DigitsValue(body);
        Some(if t[0] == '-' then -v else v)
      else None
    else if t != [] && AllDigits(t) then Some(DigitsValue(t))
    else None
  }

  lemma {:induction false} StripLeftSpaces(w: string, t: string)
    requires AllSpace(w)
    requires t != [] && !IsSpace(t[0])
    ensures StripLeft(w + t) == t
    decreases |w|
  {
    var s := w + t;
    if w != [] {
      assert s[0] == w[0] && IsSpace(w[0]);
      assert s[1..] == w[1..] + t;
      assert AllSpace(w[1..]) by {
        forall i | 0 <= i < |w[1..]| ensures IsSpace(w[1..][i]) {
          assert w[1..][i] == w[i + 1];
        }
      }
      StripLeftSpaces(w[1..], t);
      assert StripLeft(s) == StripLeft(s[1..]);
    } else {
      assert s == t;
      assert StripLeft(t) == t;
    }
  }

  lemma {:induction false} StripRightSpaces(t: string, w: string)
    requires AllSpace(w)
    requires t != [] && !IsSpace(t[|t| - 1])
    ensures StripRight(t + w) == t
    decreases |w|
  {
    if w != [] {
      assert (t + w)[..|t + w| - 1] == t + w[..|w| - 1];
      StripRightSpaces(t, w[..|w| - 1]);
    } else {
      assert t + w == t;
    }
  }

  lemma StripAround(lead: string, t: string, trail: string)
    requires AllSpace(lead) && AllSpace(trail)
    requires t != [] && !IsSpace(t[0]) && !IsSpace(t[|t| - 1])
    ensures Strip(lead + t + trail) == t
  {
    assert lead + t + trail == lead + (t + trail);
    StripLeftSpaces(lead, t + trail);
    StripRightSpaces(t, trail);
  }

  lemma ParseIntOfDigits(s: string, d: string)
    requires Strip(s) == d && d != [] && AllDigits(d)
    ensures ParseInt(s) == Some(DigitsValue(d))
  {
  }

  lemma ParseIntOfNegative(s: string, d: string)
    requires Strip(s) == "-" + d && d != [] && AllDigits(d)
    ensures ParseInt(s) == Some(-(DigitsValue(d) as int))
  {
    assert ("-" + d)[1..] == d;
  }

  /** `int(str(i))` is `i`, also with white space around the digits (a
      line read from a file still carries its `'\n'`). */
  lemma ParseIntToString(s: string, lead: string, i: int, trail: string)
    requires AllSpace(lead) && AllSpace(trail) && s == lead + IntToString(i) + trail
    ensures ParseInt(s) == Some(i)
  {
    var t := IntToString(i);
    if i < 0 {
      var d := NatToString(-i);
      assert t == "-" + d;
      assert !IsSpace(t[|t| - 1]) by { assert t[|t| - 1] == d[|d| - 1]; }
      StripAround(lead, t, trail);
      NatToStringValue(-i);
      ParseIntOfNegative(s, d);
    } else {
      StripAround(lead, t, trail);
      NatToStringValue(i);
      ParseIntOfDigits(s, t);
    }
  }

  /** `int(str(i)) == i` */
  lemma ParseIntOfIntToString(i: int)
    ensures ParseInt(IntToString(i)) == Some(i)
  {
    ParseIntToString(IntToString(i), "", i, "");
  }
}
