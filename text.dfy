/**
 * The handful of Python string operations the pipeline relies on, written out on
 * `seq<char>`: `str.strip`, ASCII `str.upper` / `str.lower`, `str.startswith` /
 * `str.endswith`, `str.split(sep)` with a one-character separator, `sep.join(parts)`
 * and `str(n)` for an integer.
 */
module Text {

  // ---------------------------------------------------------------------------
  // Whitespace and strip
  // ---------------------------------------------------------------------------

  /** The characters Python's `str.isspace` accepts, which are the ones `str.strip()` removes. */
  predicate IsSpace(c: char)
  {
    || c == ' '
    || ('\t' <= c <= '\r')
    || ('\U{1c}' <= c <= '\U{1f}')
    || c == '\U{85}' || c == '\U{a0}' || c == '\U{1680}'
    || ('\U{2000}' <= c <= '\U{200a}')
    || c == '\U{2028}' || c == '\U{2029}' || c == '\U{202f}' || c == '\U{205f}' || c == '\U{3000}'
  }

  predicate AllSpace(s: string)
  {
    forall i :: 0 <= i < |s| ==> IsSpace(s[i])
  }

  /** Neither end of `s` is whitespace: what `strip` leaves behind. */
  predicate Unpadded(s: string)
  {
    s == [] || (!IsSpace(s[0]) && !IsSpace(s[|s| - 1]))
  }

  /** `s.lstrip()`: drops the leading whitespace, and only that. */
  function TrimStart(s: string): (r: string)
    ensures |r| <= |s| && r == s[|s| - |r|..]
    ensures AllSpace(s[..|s| - |r|])
    ensures r == [] || !IsSpace(r[0])
    decreases |s|
  {
    if |s| > 0 && IsSpace(s[0]) then
      var r := TrimStart(s[1..]);
      assert s[..|s| - |r|] == [s[0]] + s[1..][..|s[1..]| - |r|];
      r
    else
      s
  }

  /** `s.rstrip()`: drops the trailing whitespace, and only that. */
  function TrimEnd(s: string): (r: string)
    ensures |r| <= |s| && r == s[..|r|]
    ensures AllSpace(s[|r|..])
    ensures r == [] || !IsSpace(r[|r| - 1])
    decreases |s|
  {
    if |s| > 0 && IsSpace(s[|s| - 1]) then
      var r := TrimEnd(s[..|s| - 1]);
      assert s[|r|..] == s[..|s| - 1][|r|..] + [s[|s| - 1]];
      r
    else
      s
  }

  /** `s.strip()`. */
  function Strip(s: string): (r: string)
    ensures |r| <= |s|
    ensures Unpadded(r)
    ensures r == [] <==> AllSpace(s)
  {
    var t := TrimStart(s);
    if t == [] then
      assert s[..|s|] == s;
      []
    else
      var r := TrimEnd(t);
      assert r != [] by { assert !IsSpace(t[0]); }
      assert !AllSpace(s) by { assert s[|s| - |t|] == t[0]; }
      r
  }

  lemma {:induction false} TrimStartAllSpace(s: string)
    requires AllSpace(s)
    ensures TrimStart(s) == []
    decreases |s|
  {
    if |s| > 0 {
      TrimStartAllSpace(s[1..]);
    }
  }

  lemma {:induction false} TrimStartPadded(ws: string, s: string)
    requires AllSpace(ws)
    ensures TrimStart(ws + s) == TrimStart(s)
    decreases |ws|
  {
    if ws != [] {
      assert (ws + s)[1..] == ws[1..] + s;
      TrimStartPadded(ws[1..], s);
    } else {
      assert ws + s == s;
    }
  }

  lemma {:induction false} TrimEndPadded(s: string, ws: string)
    requires AllSpace(ws)
    ensures TrimEnd(s + ws) == TrimEnd(s)
    decreases |ws|
  {
    if ws != [] {
      assert (s + ws)[..|s + ws| - 1] == s + ws[..|ws| - 1];
      TrimEndPadded(s, ws[..|ws| - 1]);
    } else {
      assert s + ws == s;
    }
  }

  lemma AllSpaceCons(s: string)
    requires s != []
    ensures AllSpace(s) <==> IsSpace(s[0]) && AllSpace(s[1..])
  {
    if IsSpace(s[0]) && AllSpace(s[1..]) {
      forall i | 0 <= i < |s| ensures IsSpace(s[i]) {
        if i > 0 { assert s[i] == s[1..][i - 1]; }
      }
    }
  }

  /** Trimming the front of `s + t` passes through to `t` only when all of `s` is whitespace. */
  lemma {:induction false} TrimStartAppend(s: string, t: string)
    ensures TrimStart(s + t) == if AllSpace(s) then TrimStart(t) else TrimStart(s) + t
    decreases |s|
  {
    if s == [] {
      assert s + t == t;
    } else {
      AllSpaceCons(s);
      assert (s + t)[0] == s[0];
      if IsSpace(s[0]) {
        assert (s + t)[1..] == s[1..] + t;
        TrimStartAppend(s[1..], t);
      }
    }
  }

  /** Surrounding whitespace never changes what `strip` returns. */
  lemma StripPadded(ws: string, s: string, ws': string)
    requires AllSpace(ws) && AllSpace(ws')
    ensures Strip(ws + s + ws') == Strip(s)
  {
    assert ws + s + ws' == ws + (s + ws');
    TrimStartPadded(ws, s + ws');
    TrimStartAppend(s, ws');
    if AllSpace(s) {
      TrimStartAllSpace(ws');
      TrimStartAllSpace(s);
    } else {
      TrimEndPadded(TrimStart(s), ws');
    }
  }

  /** A string with no whitespace at either end is its own `strip`. */
  lemma StripUnpadded(s: string)
    requires Unpadded(s)
    ensures Strip(s) == s
  {
  }

  /** `strip` is idempotent. */
  lemma StripIdempotent(s: string)
    ensures Strip(Strip(s)) == Strip(s)
  {
    StripUnpadded(Strip(s));
  }

  // ---------------------------------------------------------------------------
  // ASCII case mapping
  // ---------------------------------------------------------------------------

  predicate IsUpperAscii(c: char) { 'A' <= c <= 'Z' }

  predicate IsLowerAscii(c: char) { 'a' <= c <= 'z' }

  function UpperChar(c: char): (u: char)
    ensures !IsLowerAscii(u)
    ensures !IsLowerAscii(c) ==> u == c
    ensures IsSpace(c) ==> u == c
  {
    if IsLowerAscii(c) then (c as int - 32) as char else c
  }

  function LowerChar(c: char): (l: char)
    ensures !IsUpperAscii(l)
    ensures !IsUpperAscii(c) ==> l == c
    ensures IsSpace(c) ==> l == c
  {
    if IsUpperAscii(c) then (c as int + 32) as char else c
  }

  /** `s.upper()` on ASCII letters: same length, every small letter raised, all else kept. */
  function Upper(s: string): (r: string)
    ensures |r| == |s|
    ensures forall i :: 0 <= i < |s| ==> r[i] == UpperChar(s[i])
  {
    seq(|s|, i requires 0 <= i < |s| => UpperChar(s[i]))
  }

  /** `s.lower()` on ASCII letters: same length, every capital lowered, all else kept. */
  function Lower(s: string): (r: string)
    ensures |r| == |s|
    ensures forall i :: 0 <= i < |s| ==> r[i] == LowerChar(s[i])
  {
    seq(|s|, i requires 0 <= i < |s| => LowerChar(s[i]))
  }

  lemma UpperCharOfLower(c: char)
    ensures UpperChar(LowerChar(c)) == UpperChar(c)
  {
  }

  /** Lower-casing first does not change the upper-cased string. */
  lemma UpperOfLower(s: string)
    ensures Upper(Lower(s)) == Upper(s)
  {
    forall i | 0 <= i < |s| ensures Upper(Lower(s))[i] == Upper(s)[i] {
      UpperCharOfLower(s[i]);
    }
  }

  lemma UpperAppend(a: string, b: string)
    ensures Upper(a + b) == Upper(a) + Upper(b)
  {
  }

  lemma UpperKeepsSpace(ws: string)
    requires AllSpace(ws)
    ensures Upper(ws) == ws
  {
  }

  lemma LowerIdempotent(s: string)
    ensures Lower(Lower(s)) == Lower(s)
  {
  }

  // ---------------------------------------------------------------------------
  // Prefix and suffix tests
  // ---------------------------------------------------------------------------

  predicate StartsWith(s: string, prefix: string)
  {
    |prefix| <= |s| && s[..|prefix|] == prefix
  }

  predicate EndsWith(s: string, suffix: string)
  {
    |suffix| <= |s| && s[|s| - |suffix|..] == suffix
  }

  // ---------------------------------------------------------------------------
  // split and join
  // ---------------------------------------------------------------------------

  /** `sep.join(parts)`. */
  function Join(parts: seq<string>, sep: string): string
    decreases |parts|
  {
    if |parts| == 0 then ""
    else if |parts| == 1 then parts[0]
    else parts[0] + sep + Join(parts[1..], sep)
  }

  /** `s.split(sep)` for a one-character separator: never empty, no piece holds `sep`. */
  function Split(s: string, sep: char): (parts: seq<string>)
    ensures |parts| >= 1
    ensures forall i :: 0 <= i < |parts| ==> sep !in parts[i]
    decreases |s|
  {
    if s == [] then [""]
    else
      var rest := Split(s[1..], sep);
      if s[0] == sep then [""] + rest
      else [[s[0]] + rest[0]] + rest[1..]
  }

  /** Joining the pieces of a split with the separator gives the string back. */
  lemma {:induction false} JoinSplit(s: string, sep: char)
    ensures Join(Split(s, sep), [sep]) == s
    decreases |s|
  {
    if s != [] {
      var rest := Split(s[1..], sep);
      JoinSplit(s[1..], sep);
      if s[0] == sep {
        assert Split(s, sep) == [""] + rest;
        assert ([""] + rest)[1..] == rest;
      } else {
        var parts := [[s[0]] + rest[0]] + rest[1..];
        assert Split(s, sep) == parts;
        if |rest| == 1 {
          assert Join(rest, [sep]) == rest[0];
        } else {
          assert parts[1..] == rest[1..];
          assert Join(rest, [sep]) == rest[0] + [sep] + Join(rest[1..], [sep]);
        }
        assert s == [s[0]] + s[1..];
      }
    }
  }

  lemma {:induction false} SplitPrefix(a: string, sep: char, b: string)
    requires sep !in a
    ensures Split(a + [sep] + b, sep) == [a] + Split(b, sep)
    decreases |a|
  {
    if a == [] {
      assert (a + [sep] + b)[1..] == b;
    } else {
      assert (a + [sep] + b)[1..] == a[1..] + [sep] + b;
      SplitPrefix(a[1..], sep, b);
      assert [a[0]] + a[1..] == a;
    }
  }

  lemma {:induction false} SplitSingle(a: string, sep: char)
    requires sep !in a
    ensures Split(a, sep) == [a]
    decreases |a|
  {
    if a != [] {
      SplitSingle(a[1..], sep);
      assert [a[0]] + a[1..] == a;
    }
  }

  /** Splitting a join of separator-free pieces gives the pieces back. */
  lemma {:induction false} SplitJoin(parts: seq<string>, sep: char)
    requires |parts| >= 1
    requires forall i :: 0 <= i < |parts| ==> sep !in parts[i]
    ensures Split(Join(parts, [sep]), sep) == parts
    decreases |parts|
  {
    if |parts| == 1 {
      SplitSingle(parts[0], sep);
    } else {
      SplitJoin(parts[1..], sep);
      SplitPrefix(parts[0], sep, Join(parts[1..], [sep]));
      assert [parts[0]] + parts[1..] == parts;
    }
  }

  // ---------------------------------------------------------------------------
  // str(n) for an integer, and its inverse
  // ---------------------------------------------------------------------------

  predicate IsDigit(c: char) { '0' <= c <= '9' }

  function DigitChar(d: nat): (c: char)
    requires d < 10
    ensures IsDigit(c)
  {
    ('0' as int + d) as char
  }

  function DigitValue(c: char): (d: nat)
    requires IsDigit(c)
    ensures d < 10
  {
    c as int - '0' as int
  }

  /** The decimal numeral of `n`: digits only, no leading zero. */
  function NatToString(n: nat): (s: string)
    ensures |s| >= 1
    ensures forall i :: 0 <= i < |s| ==> IsDigit(s[i])
    ensures |s| > 1 ==> s[0] != '0'
    decreases n
  {
    if n < 10 then [DigitChar(n)] else NatToString(n / 10) + [DigitChar(n % 10)]
  }

  /** `str(n)`: a minus sign before the numeral of a negative number. */
  function IntToString(n: int): (s: string)
    ensures |s| >= 1
    ensures (s[0] == '-') <==> n < 0
    ensures var d := if n < 0 then 1 else 0;
      && |s| > d
      && (forall i :: d <= i < |s| ==> IsDigit(s[i]))
      && (|s| > d + 1 ==> s[d] != '0')
  {
    if n < 0 then "-" + NatToString(-n) else NatToString(n)
  }

  function ParseNat(s: string): nat
    requires forall i :: 0 <= i < |s| ==> IsDigit(s[i])
    decreases |s|
  {
    if s == [] then 0 else ParseNat(s[..|s| - 1]) * 10 + DigitValue(s[|s| - 1])
  }

  function ParseInt(s: string): int
  {
    if |s| >= 1 && s[0] == '-' && forall i :: 1 <= i < |s| ==> IsDigit(s[i]) then
      -(ParseNat(s[1..]) as int)
    else if forall i :: 0 <= i < |s| ==> IsDigit(s[i]) then
      ParseNat(s)
    else
      0
  }

  lemma {:induction false} ParseNatToString(n: nat)
    ensures ParseNat(NatToString(n)) == n
    decreases n
  {
    if n >= 10 {
      ParseNatToString(n / 10);
      var s := NatToString(n);
      assert s[..|s| - 1] == NatToString(n / 10);
    }
  }

  /** Reading back the decimal text of any integer gives that integer. */
  lemma ParseIntToString(n: int)
    ensures ParseInt(IntToString(n)) == n
  {
    var s := IntToString(n);
    if n < 0 {
      var t := NatToString(-n);
      assert s == "-" + t && s[1..] == t;
      assert forall i :: 1 <= i < |s| ==> IsDigit(s[i]) by {
        forall i | 1 <= i < |s| ensures IsDigit(s[i]) { assert s[i] == t[i - 1]; }
      }
      ParseNatToString(-n);
      assert ParseInt(s) == -(ParseNat(t) as int);
    } else {
      assert s == NatToString(n) && s[0] != '-';
      ParseNatToString(n);
      assert ParseInt(s) == ParseNat(s);
    }
  }
}
