/**
 * The string operations the pipeline relies on, restricted to ASCII: prefix and
 * substring tests, `toUpperCase`, `trim`, `join`/`split` on one separator
 * character, and decimal `parseInt`.
 */
module Text {
  import opened JsValues

  /** `s.startsWith(p)`. */
  predicate StartsWith(s: string, p: string)
  {
    |p| <= |s| && s[..|p|] == p
  }

  /** A string does not start with `p` when it differs from `p` at some position of `p`. */
  lemma Mismatch(s: string, p: string, k: nat)
    requires k < |p| && k < |s| && s[k] != p[k]
    ensures !StartsWith(s, p)
  {
  }

  /** `s.includes(t)`: some suffix of `s` starts with `t`. */
  predicate Contains(s: string, t: string)
    decreases |s|
  {
    StartsWith(s, t) || (|s| > 0 && Contains(s[1..], t))
  }

  /** `t` occurs in `s` at position `i`. */
  predicate OccursAt(s: string, t: string, i: int)
  {
    0 <= i <= |s| - |t| && s[i..i + |t|] == t
  }

  /** `Contains` agrees with the positional definition of a substring. */
  lemma {:induction false} ContainsIffOccurs(s: string, t: string)
    ensures Contains(s, t) <==> exists i :: OccursAt(s, t, i)
    decreases |s|
  {
    if |s| > 0 {
      ContainsIffOccurs(s[1..], t);
      if Contains(s[1..], t) && !StartsWith(s, t) {
        var i :| OccursAt(s[1..], t, i);
        assert OccursAt(s, t, i + 1) by { assert s[i + 1..i + 1 + |t|] == s[1..][i..i + |t|]; }
      }
      if StartsWith(s, t) {
        assert OccursAt(s, t, 0);
      }
      if exists i :: OccursAt(s, t, i) {
        var i :| OccursAt(s, t, i);
        if i > 0 {
          assert OccursAt(s[1..], t, i - 1) by { assert s[1..][i - 1..i - 1 + |t|] == s[i..i + |t|]; }
        } else {
          assert StartsWith(s, t);
        }
      }
    } else {
      if StartsWith(s, t) {
        assert OccursAt(s, t, 0);
      }
      if exists i :: OccursAt(s, t, i) {
        var i :| OccursAt(s, t, i);
        assert |t| == 0 && StartsWith(s, t);
      }
    }
  }

  predicate IsLowerAscii(c: char)
  {
    'a' <= c <= 'z'
  }

  /** Upper-cases one character: ASCII letters only, everything else unchanged. */
  function UpperChar(c: char): (u: char)
    ensures !IsLowerAscii(u)
    ensures !IsLowerAscii(c) ==> u == c
  {
    if IsLowerAscii(c) then (c as int - 32) as char else c
  }

  /** A string with no lower-case ASCII letter. */
  predicate IsUpper(s: string)
  {
    forall i :: 0 <= i < |s| ==> !IsLowerAscii(s[i])
  }

  /** `s.toUpperCase()` on ASCII letters. */
  function ToUpper(s: string): (r: string)
    ensures |r| == |s| && IsUpper(r)
    ensures forall i :: 0 <= i < |s| && !IsLowerAscii(s[i]) ==> r[i] == s[i]
    ensures forall i :: 0 <= i < |s| && IsLowerAscii(s[i]) ==> r[i] as int == s[i] as int - 32
    ensures IsUpper(s) ==> r == s
  {
    seq(|s|, i requires 0 <= i < |s| => UpperChar(s[i]))
  }

  lemma ToUpperIdempotent(s: string)
    ensures ToUpper(ToUpper(s)) == ToUpper(s)
  {
  }

  /** The whitespace `trim` removes, restricted to ASCII. */
  predicate IsSpace(c: char)
  {
    c == ' ' || c == '\t' || c == '\n' || c == '\r' || c == '\U{000B}' || c == '\U{000C}'
  }

  function TrimStart(s: string): (r: string)
    ensures |r| <= |s| && r == s[|s| - |r|..]
    ensures forall i :: 0 <= i < |s| - |r| ==> IsSpace(s[i])
    ensures r == [] || !IsSpace(r[0])
    decreases |s|
  {
    if |s| > 0 && IsSpace(s[0]) then TrimStart(s[1..]) else s
  }

  function TrimEnd(s: string): (r: string)
    ensures |r| <= |s| && r == s[..|r|]
    ensures forall i :: |r| <= i < |s| ==> IsSpace(s[i])
    ensures r == [] || !IsSpace(r[|r| - 1])
    decreases |s|
  {
    if |s| > 0 && IsSpace(s[|s| - 1]) then TrimEnd(s[..|s| - 1]) else s
  }

  /** A string made only of whitespace. */
  predicate Blank(s: string)
  {
    forall i :: 0 <= i < |s| ==> IsSpace(s[i])
  }

  /** `r` is what lies in `s` from position `i` on, with only whitespace before and after it. */
  predicate BetweenBlanks(s: string, r: string, i: int)
  {
    0 <= i <= |s| - |r| && r == s[i..i + |r|] && Blank(s[..i]) && Blank(s[i + |r|..])
  }

  /** `s.trim()`: `s` without its leading and trailing whitespace (see `TrimBetweenBlanks`). */
  function Trim(s: string): (r: string)
    ensures |r| <= |s|
    ensures r == [] || (!IsSpace(r[0]) && !IsSpace(r[|r| - 1]))
  {
    TrimEnd(TrimStart(s))
  }

  /**
   * The trimmed string is the part of `s` between a whitespace prefix and a
   * whitespace suffix, starting where the leading whitespace ends.
   */
  lemma TrimBetweenBlanks(s: string)
    ensures BetweenBlanks(s, Trim(s), |s| - |TrimStart(s)|)
  {
    var t := TrimStart(s);
    var r := TrimEnd(t);
    SuffixThenPrefix(s, t, r);
  }

  /** `r`, a prefix of the suffix `t` of `s`, lies between blanks when the parts cut off are blank. */
  lemma SuffixThenPrefix(s: string, t: string, r: string)
    requires |t| <= |s| && t == s[|s| - |t|..] && forall k :: 0 <= k < |s| - |t| ==> IsSpace(s[k])
    requires |r| <= |t| && r == t[..|r|] && forall k :: |r| <= k < |t| ==> IsSpace(t[k])
    ensures BetweenBlanks(s, r, |s| - |t|)
  {
    var i := |s| - |t|;
    assert r == s[i..i + |r|];
    var prefix := s[..i];
    assert Blank(prefix) by {
      forall k | 0 <= k < |prefix|
        ensures IsSpace(prefix[k])
      {
        assert prefix[k] == s[k];
      }
    }
    var suffix := s[i + |r|..];
    assert Blank(suffix) by {
      forall k | 0 <= k < |suffix|
        ensures IsSpace(suffix[k])
      {
        assert suffix[k] == t[|r| + k];
      }
    }
  }

  lemma TrimStartStable(s: string)
    requires s == [] || !IsSpace(s[0])
    ensures TrimStart(s) == s
  {
  }

  lemma TrimEndStable(s: string)
    requires s == [] || !IsSpace(s[|s| - 1])
    ensures TrimEnd(s) == s
  {
  }

  /** Trimming twice changes nothing more than trimming once. */
  lemma TrimIdempotent(s: string)
    ensures Trim(Trim(s)) == Trim(s)
  {
    var r := Trim(s);
    TrimStartStable(r);
    TrimEndStable(r);
  }

  lemma {:induction false} TrimStartBlankPrefix(b: string, x: string)
    requires Blank(b)
    ensures TrimStart(b + x) == TrimStart(x)
    decreases |b|
  {
    if |b| > 0 {
      assert (b + x)[1..] == b[1..] + x;
      TrimStartBlankPrefix(b[1..], x);
    } else {
      assert b + x == x;
    }
  }

  lemma {:induction false} TrimEndBlankSuffix(x: string, a: string)
    requires Blank(a)
    ensures TrimEnd(x + a) == TrimEnd(x)
    decreases |a|
  {
    if |a| > 0 {
      assert (x + a)[..|x + a| - 1] == x + a[..|a| - 1];
      TrimEndBlankSuffix(x, a[..|a| - 1]);
    } else {
      assert x + a == x;
    }
  }

  lemma {:induction false} TrimStartAppend(x: string, a: string)
    requires TrimStart(x) != []
    ensures TrimStart(x + a) == TrimStart(x) + a
    decreases |x|
  {
    if IsSpace(x[0]) {
      assert (x + a)[1..] == x[1..] + a;
      TrimStartAppend(x[1..], a);
    }
  }

  /** Whitespace added around a string is trimmed away with the rest. */
  lemma TrimAround(before: string, s: string, after: string)
    requires Blank(before) && Blank(after)
    ensures Trim(before + s + after) == Trim(s)
  {
    assert before + s + after == before + (s + after);
    TrimStartBlankPrefix(before, s + after);
    if TrimStart(s) != [] {
      TrimStartAppend(s, after);
      TrimEndBlankSuffix(TrimStart(s), after);
    } else {
      assert Blank(s + after);
      TrimStartBlankPrefix(s + after, []);
      assert s + after + [] == s + after;
    }
  }

  lemma UpperCharSpace(c: char)
    ensures IsSpace(UpperChar(c)) <==> IsSpace(c)
  {
  }

  lemma {:induction false} UpperTrimStart(s: string)
    ensures ToUpper(TrimStart(s)) == TrimStart(ToUpper(s))
    decreases |s|
  {
    var u := ToUpper(s);
    if |s| > 0 {
      UpperCharSpace(s[0]);
      assert u[0] == UpperChar(s[0]);
      if IsSpace(s[0]) {
        UpperTrimStart(s[1..]);
        assert u[1..] == ToUpper(s[1..]);
        assert TrimStart(u) == TrimStart(u[1..]);
      } else {
        assert TrimStart(u) == u;
      }
    }
  }

  lemma {:induction false} UpperTrimEnd(s: string)
    ensures ToUpper(TrimEnd(s)) == TrimEnd(ToUpper(s))
    decreases |s|
  {
    var u := ToUpper(s);
    if |s| > 0 {
      UpperCharSpace(s[|s| - 1]);
      assert u[|u| - 1] == UpperChar(s[|s| - 1]);
      if IsSpace(s[|s| - 1]) {
        UpperTrimEnd(s[..|s| - 1]);
        assert u[..|u| - 1] == ToUpper(s[..|s| - 1]);
        assert TrimEnd(u) == TrimEnd(u[..|u| - 1]);
      } else {
        assert TrimEnd(u) == u;
      }
    }
  }

  /** Upper-casing and trimming commute, so the order of the two schema setters does not matter. */
  lemma UpperTrimCommute(s: string)
    ensures ToUpper(Trim(s)) == Trim(ToUpper(s))
  {
    UpperTrimEnd(TrimStart(s));
    UpperTrimStart(s);
  }

  /** `xs.join(sep)` for a one-character separator. */
  function Join(xs: seq<string>, sep: char): string
    decreases |xs|
  {
    if |xs| == 0 then "" else if |xs| == 1 then xs[0] else xs[0] + [sep] + Join(xs[1..], sep)
  }

  /** `s.split(sep)` for a one-character separator: always at least one piece. */
  function Split(s: string, sep: char): (r: seq<string>)
    ensures |r| >= 1
    decreases |s|
  {
    if |s| == 0 then [""]
    else
      var rest := Split(s[1..], sep);
      if s[0] == sep then [""] + rest else [[s[0]] + rest[0]] + rest[1..]
  }

  lemma {:induction false} SplitAfterPlainPrefix(a: string, b: string, sep: char)
    requires sep !in a
    ensures Split(a + b, sep) == [a + Split(b, sep)[0]] + Split(b, sep)[1..]
    decreases |a|
  {
    if |a| > 0 {
      assert (a + b)[1..] == a[1..] + b;
      SplitAfterPlainPrefix(a[1..], b, sep);
      assert [a[0]] + (a[1..] + Split(b, sep)[0]) == a + Split(b, sep)[0];
    } else {
      assert a + b == b;
      assert a + Split(b, sep)[0] == Split(b, sep)[0];
      assert Split(b, sep) == [Split(b, sep)[0]] + Split(b, sep)[1..];
    }
  }

  /** A string holding the separator splits into at least two pieces. */
  lemma {:induction false} SplitAtSeparator(s: string, sep: char)
    requires sep in s
    ensures |Split(s, sep)| >= 2
    decreases |s|
  {
    if s[0] != sep {
      assert sep in s[1..];
      SplitAtSeparator(s[1..], sep);
    }
  }

  /** Splitting a joined list gives the list back when no piece contains the separator. */
  lemma {:induction false} SplitJoin(xs: seq<string>, sep: char)
    requires |xs| >= 1
    requires forall i :: 0 <= i < |xs| ==> sep !in xs[i]
    ensures Split(Join(xs, sep), sep) == xs
    decreases |xs|
  {
    if |xs| == 1 {
      SplitAfterPlainPrefix(xs[0], "", sep);
      assert xs[0] + "" == xs[0];
    } else {
      var tail := Join(xs[1..], sep);
      SplitJoin(xs[1..], sep);
      assert Join(xs, sep) == xs[0] + ([sep] + tail);
      SplitAfterPlainPrefix(xs[0], [sep] + tail, sep);
      assert ([sep] + tail)[1..] == tail;
      assert xs[0] + "" == xs[0];
    }
  }

  predicate IsDigit(c: char)
  {
    '0' <= c <= '9'
  }

  predicate AllDigits(s: string)
  {
    forall i :: 0 <= i < |s| ==> IsDigit(s[i])
  }

  /** The longest prefix of `s` made of decimal digits. */
  function DigitPrefix(s: string): (d: string)
    ensures |d| <= |s| && d == s[..|d|] && AllDigits(d)
    ensures |d| < |s| ==> !IsDigit(s[|d|])
    decreases |s|
  {
    if |s| > 0 && IsDigit(s[0]) then [s[0]] + DigitPrefix(s[1..]) else ""
  }

  lemma {:induction false} DigitPrefixOfDigits(s: string)
    requires AllDigits(s)
    ensures DigitPrefix(s) == s
    decreases |s|
  {
    if |s| > 0 {
      DigitPrefixOfDigits(s[1..]);
    }
  }

  /** The value of a string of decimal digits, read left to right. */
  function DigitsValue(d: string): nat
    requires AllDigits(d)
    decreases |d|
  {
    if |d| == 0 then 0 else 10 * DigitsValue(d[..|d| - 1]) + (d[|d| - 1] as int - '0' as int)
  }

  /** `t` without its sign character, when it starts with one. */
  function Unsigned(t: string): (u: string)
    ensures |u| <= |t| && u == t[|t| - |u|..]
  {
    if |t| > 0 && (t[0] == '-' || t[0] == '+') then t[1..] else t
  }

  /**
   * `parseInt(s, 10)`: skip leading whitespace, take an optional sign, then the
   * longest run of digits. `None` is NaN (no digit at all).
   */
  function ParseInt(s: string): (r: Option<int>)
    ensures r.Some? ==> exists i :: 0 <= i < |s| && IsDigit(s[i])
    ensures var t := TrimStart(s); var d := DigitPrefix(Unsigned(t));
            (r.None? <==> d == []) &&
            (r.Some? ==> |t| > 0 && r.value == if t[0] == '-' then -(DigitsValue(d) as int) else DigitsValue(d))
  {
    var t := TrimStart(s);
    var negative := |t| > 0 && t[0] == '-';
    var body := Unsigned(t);
    var d := DigitPrefix(body);
    if d == [] then None
    else
      assert IsDigit(s[|s| - |body|]) by { assert body[0] == d[0]; }
      var v: int := DigitsValue(d);
      Some(if negative then -v else v)
  }

  function DigitChar(k: nat): (c: char)
    requires k < 10
    ensures IsDigit(c) && c as int - '0' as int == k
  {
    ('0' as int + k) as char
  }

  /** The decimal spelling of a natural number, without leading zeros. */
  function NatToString(n: nat): (s: string)
    ensures |s| >= 1 && AllDigits(s)
    decreases n
  {
    if n < 10 then [DigitChar(n)] else NatToString(n / 10) + [DigitChar(n % 10)]
  }

  lemma {:induction false} DigitsValueOfNat(n: nat)
    ensures DigitsValue(NatToString(n)) == n
    decreases n
  {
    var s := NatToString(n);
    if n >= 10 {
      DigitsValueOfNat(n / 10);
      assert s[..|s| - 1] == NatToString(n / 10);
    } else {
      assert s[..0] == "";
    }
  }

  /** The decimal spelling of an integer. */
  function IntToString(i: int): string
  {
    if i < 0 then "-" + NatToString(-i) else NatToString(i)
  }

  /** `parseInt` reads back the decimal spelling of every integer. */
  lemma ParseIntRoundTrip(i: int)
    ensures ParseInt(IntToString(i)) == Some(i)
  {
    var s := IntToString(i);
    var n: nat := if i < 0 then -i else i;
    var digits := NatToString(n);
    assert !IsSpace(s[0]);
    TrimStartStable(s);
    DigitPrefixOfDigits(digits);
    DigitsValueOfNat(n);
    if i < 0 {
      assert s[1..] == digits;
    } else {
      assert s[0] != '-' && s[0] != '+';
    }
  }
}
