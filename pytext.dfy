/** The few pieces of Python's string and number text handling the tide code relies on:
    `str.replace`, `float()` applied to a string (with the white space it skips), `str()` of an int,
    `"%.2f"`-style fixed-point text, `str.join` and `xml.sax.saxutils.escape`. */
module PyText {
  import opened Wrappers

  /** Truthiness of an optional string: None and "" are false. */
  predicate TruthyText(s: Option<string>) { s.Some? && s.value != "" }

  predicate IsDigit(c: char) { '0' <= c <= '9' }

  function DigitValue(c: char): (d: nat)
    requires IsDigit(c)
    ensures d < 10
  {
    (c as int) - ('0' as int)
  }

  function DigitChar(d: nat): (c: char)
    requires d < 10
    ensures IsDigit(c) && DigitValue(c) == d
  {
    (('0' as int) + d) as char
  }

  predicate AllDigits(s: string) { forall i :: 0 <= i < |s| ==> IsDigit(s[i]) }

  /** Value of a string of decimal digits, most significant digit first. */
  function DigitsValue(s: string): nat
    requires AllDigits(s)
    decreases |s|
  {
    if s == [] then 0 else DigitsValue(s[..|s| - 1]) * 10 + DigitValue(s[|s| - 1])
  }

  function Pow10(n: nat): (p: nat)
    ensures p > 0
  {
    if n == 0 then 1 else 10 * Pow10(n - 1)
  }

  /** `str(n)` for a non-negative Python int: decimal digits without leading zeros. */
  function NatToString(n: nat): (r: string)
    ensures |r| > 0 && AllDigits(r) && DigitsValue(r) == n
    ensures |r| > 1 ==> r[0] != '0'
    decreases n
  {
    if n < 10 then [DigitChar(n)]
    else
      var prefix := NatToString(n / 10);
      var r := prefix + [DigitChar(n % 10)];
      assert r[..|r| - 1] == prefix;
      r
  }

  /** `str(i)` for any Python int. */
  function IntToString(i: int): (r: string)
    ensures i >= 0 ==> r == NatToString(i)
    ensures i < 0 ==> |r| > 1 && r[0] == '-' && r[1..] == NatToString(-i)
  {
    if i < 0 then "-" + NatToString(-i) else NatToString(i)
  }

  /** `pat` occurs in `s` starting at index `k`. */
  predicate OccursAt(s: string, pat: string, k: int)
  {
    0 <= k && k + |pat| <= |s| && s[k..k + |pat|] == pat
  }

  /** Python's substring test `pat in s`. */
  predicate Occurs(s: string, pat: string)
  {
    exists k | 0 <= k <= |s| :: OccursAt(s, pat, k)
  }

  /** Python's `s.replace(pat, rep)` for a non-empty `pat`: every non-overlapping occurrence,
      scanning left to right, is replaced. `ReplaceWithoutOccurrence` and
      `ReplaceAtFirstOccurrence` state this rule. */
  function Replace(s: string, pat: string, rep: string): string
    requires |pat| > 0
    decreases |s|
  {
    if |s| < |pat| then s
    else if s[..|pat|] == pat then rep + Replace(s[|pat|..], pat, rep)
    else [s[0]] + Replace(s[1..], pat, rep)
  }

  /** `Replace` at a text that starts with `pat`. */
  lemma ReplaceHit(s: string, pat: string, rep: string)
    requires |pat| > 0 && |pat| <= |s| && s[..|pat|] == pat
    ensures Replace(s, pat, rep) == rep + Replace(s[|pat|..], pat, rep)
  {
  }

  /** `Replace` at a text that does not start with `pat`. */
  lemma ReplaceMiss(s: string, pat: string, rep: string)
    requires |pat| > 0 && |pat| <= |s| && s[..|pat|] != pat
    ensures Replace(s, pat, rep) == [s[0]] + Replace(s[1..], pat, rep)
  {
  }

  /** An occurrence in `s[1..]` is an occurrence in `s`, one position further on. */
  lemma OccursAtTail(s: string, pat: string, j: nat)
    requires |s| > 0
    ensures OccursAt(s[1..], pat, j) <==> OccursAt(s, pat, j + 1)
  {
    if j + |pat| <= |s| - 1 {
      assert s[1..][j..j + |pat|] == s[j + 1..j + 1 + |pat|];
    }
  }

  /** A text in which `pat` does not occur comes back unchanged. */
  lemma {:induction false} ReplaceWithoutOccurrence(s: string, pat: string, rep: string)
    requires |pat| > 0
    requires !Occurs(s, pat)
    ensures Replace(s, pat, rep) == s
    decreases |s|
  {
    if |pat| <= |s| {
      assert !OccursAt(s, pat, 0);
      assert s[0..|pat|] == s[..|pat|];
      ReplaceMiss(s, pat, rep);
      forall j | 0 <= j <= |s[1..]| ensures !OccursAt(s[1..], pat, j) {
        OccursAtTail(s, pat, j);
      }
      ReplaceWithoutOccurrence(s[1..], pat, rep);
      assert s == [s[0]] + s[1..];
    }
  }

  /** At the leftmost occurrence of `pat`, `Replace` writes `rep` and carries on after the
      occurrence: with the no-occurrence case, this is Python's rule of replacing every
      occurrence, leftmost first, without overlap. */
  lemma {:induction false} ReplaceAtFirstOccurrence(s: string, pat: string, rep: string, k: nat)
    requires |pat| > 0
    requires OccursAt(s, pat, k)
    requires forall j :: 0 <= j < k ==> !OccursAt(s, pat, j)
    ensures Replace(s, pat, rep) == s[..k] + rep + Replace(s[k + |pat|..], pat, rep)
    decreases k
  {
    if k == 0 {
      ReplaceHit(s, pat, rep);
    } else {
      var t := s[1..];
      FirstOccurrenceInTail(s, pat, k);
      ReplaceAtFirstOccurrence(t, pat, rep, k - 1);
      var rest := Replace(s[k + |pat|..], pat, rep);
      assert Replace(t, pat, rep) == t[..k - 1] + rep + rest by {
        assert t[k - 1 + |pat|..] == s[k + |pat|..];
      }
      ReplaceMissBefore(s, pat, rep, k, rest);
    }
  }

  /** When `s` does not start with `pat`, what `Replace` writes for `s[1..]` follows `s[0]`. */
  lemma ReplaceMissBefore(s: string, pat: string, rep: string, k: nat, rest: string)
    requires |pat| > 0 && |pat| <= |s| && s[..|pat|] != pat && 0 < k <= |s|
    requires Replace(s[1..], pat, rep) == s[1..][..k - 1] + rep + rest
    ensures Replace(s, pat, rep) == s[..k] + rep + rest
  {
    ReplaceMiss(s, pat, rep);
    var a := s[1..][..k - 1];
    assert s[..k] == [s[0]] + a;
    ConsAssociates(s[0], a, rep, rest);
  }

  lemma ConsAssociates(c: char, a: string, b: string, d: string)
    ensures [c] + (a + b + d) == [c] + a + b + d
  {
  }

  /** A leftmost occurrence at `k > 0` is a leftmost occurrence at `k - 1` of `s[1..]`, and
      `s` does not start with `pat`. */
  lemma FirstOccurrenceInTail(s: string, pat: string, k: nat)
    requires |pat| > 0 && k > 0
    requires OccursAt(s, pat, k)
    requires forall j :: 0 <= j < k ==> !OccursAt(s, pat, j)
    ensures |pat| <= |s| && s[..|pat|] != pat && k <= |s|
    ensures OccursAt(s[1..], pat, k - 1)
    ensures forall j :: 0 <= j < k - 1 ==> !OccursAt(s[1..], pat, j)
  {
    assert !OccursAt(s, pat, 0);
    assert s[0..|pat|] == s[..|pat|];
    OccursAtTail(s, pat, k - 1);
    forall j | 0 <= j < k - 1 ensures !OccursAt(s[1..], pat, j) {
      OccursAtTail(s, pat, j);
    }
  }

  /** The ASCII white space `float()` skips around a number: blank, tab, line feed,
      vertical tab, form feed and carriage return. */
  predicate IsSpace(c: char)
  {
    c == ' ' || (9 <= c as int <= 13)
  }

  function TrimLeft(s: string): (r: string)
    ensures |r| <= |s| && r == s[|s| - |r|..]
    ensures r == [] || !IsSpace(r[0])
    ensures (s == [] || !IsSpace(s[0])) ==> r == s
  {
    if s != [] && IsSpace(s[0]) then TrimLeft(s[1..]) else s
  }

  function TrimRight(s: string): (r: string)
    ensures |r| <= |s| && r == s[..|r|]
    ensures r == [] || !IsSpace(r[|r| - 1])
    ensures (s == [] || !IsSpace(s[|s| - 1])) ==> r == s
  {
    if s != [] && IsSpace(s[|s| - 1]) then TrimRight(s[..|s| - 1]) else s
  }

  /** The text `float()` parses: `s` without its leading and trailing white space. */
  function Strip(s: string): string
  {
    TrimRight(TrimLeft(s))
  }

  /** First index of `c` in `s`. */
  function IndexOf(s: string, c: char): (r: Option<nat>)
    ensures r.Some? ==> r.value < |s| && s[r.value] == c && c !in s[..r.value]
    ensures r.None? ==> c !in s
  {
    if s == [] then None
    else if s[0] == c then Some(0)
    else
      match IndexOf(s[1..], c)
      case None => None
      case Some(i) =>
        assert s[..i + 1] == [s[0]] + s[1..][..i];
        Some(i + 1)
  }

  /** An unsigned decimal `digits`, `digits.digits`, `digits.` or `.digits`. */
  function ParseUnsigned(t: string): Option<real>
  {
    match IndexOf(t, '.')
    case None =>
      if |t| > 0 && AllDigits(t) then Some(DigitsValue(t) as real) else None
    case Some(i) =>
      var whole, frac := t[..i], t[i + 1..];
      if |whole| + |frac| > 0 && AllDigits(whole) && AllDigits(frac) then
        Some(PointValue(whole, frac))
      else None
  }

  /** The value of decimal text with digits `whole` before the point and `frac` after it. */
  function PointValue(whole: string, frac: string): real
    requires AllDigits(whole) && AllDigits(frac)
  {
    DigitsValue(whole) as real + DigitsValue(frac) as real / Pow10(|frac|) as real
  }

  /** An optionally signed decimal number. */
  function ParseDecimal(t: string): Option<real>
  {
    if |t| > 0 && (t[0] == '-' || t[0] == '+') then
      match ParseUnsigned(t[1..])
      case None => None
      case Some(v) => Some(if t[0] == '-' then -v else v)
    else ParseUnsigned(t)
  }

  /** Python's `float(s)` for a string `s`, with the exception it raises on bad text as None.
      Accepted: white space, an optional sign, digits with at most one point and at least
      one digit (`5`, `5.`, `.5`, `5.25`), white space. */
  function ParseFloat(s: string): Option<real>
  {
    ParseDecimal(Strip(s))
  }

  /** `s` holds at least one decimal digit. */
  predicate HasDigit(s: string)
  {
    exists i :: 0 <= i < |s| && IsDigit(s[i])
  }

  lemma ParseUnsignedNeedsDigit(t: string)
    requires ParseUnsigned(t).Some?
    ensures HasDigit(t)
  {
    match IndexOf(t, '.')
    case None =>
      assert IsDigit(t[0]);
    case Some(i) =>
      if i > 0 {
        assert IsDigit(t[..i][0]);
      } else {
        assert IsDigit(t[i + 1..][0]);
      }
  }

  lemma ParseDecimalNeedsDigit(t: string)
    requires ParseDecimal(t).Some?
    ensures HasDigit(t)
  {
    if |t| > 0 && (t[0] == '-' || t[0] == '+') {
      ParseUnsignedNeedsDigit(t[1..]);
      var j :| 0 <= j < |t[1..]| && IsDigit(t[1..][j]);
      assert IsDigit(t[j + 1]);
    } else {
      ParseUnsignedNeedsDigit(t);
    }
  }

  lemma StripKeepsDigits(s: string)
    requires HasDigit(Strip(s))
    ensures HasDigit(s)
  {
    var left := TrimLeft(s);
    var t := Strip(s);
    assert t == left[..|t|];
    var i :| 0 <= i < |t| && IsDigit(t[i]);
    assert IsDigit(s[|s| - |left| + i]);
  }

  /** `float()` raises on text without a digit, such as `"abc"`, `"."` or `" m"`. */
  lemma ParseFloatNeedsDigit(s: string)
    ensures ParseFloat(s).Some? ==> HasDigit(s)
  {
    if ParseFloat(s).Some? {
      ParseDecimalNeedsDigit(Strip(s));
      StripKeepsDigits(s);
    }
  }

  /** Unsigned fixed-point text with exactly two fractional digits for `cents` hundredths. */
  function Fixed2Digits(cents: nat): (r: string)
    ensures |r| >= 4 && r[|r| - 3] == '.'
    ensures IsDigit(r[0]) && IsDigit(r[|r| - 2]) && IsDigit(r[|r| - 1])
  {
    NatToString(cents / 100) + "." + [DigitChar(cents % 100 / 10), DigitChar(cents % 10)]
  }

  /** `Fixed2Digits`, preceded by `-` when `negative`. */
  function Fixed2(negative: bool, cents: nat): (r: string)
    ensures |r| >= 4 && IsDigit(r[|r| - 1])
    ensures r[0] == '-' || IsDigit(r[0])
  {
    (if negative then "-" else "") + Fixed2Digits(cents)
  }

  /** The integer nearest to `y`, ties going to the even neighbour (the rounding of
      Python's `round`). */
  function RoundHalfEven(y: real): (n: int)
    ensures -0.5 <= n as real - y <= 0.5
    ensures (n as real - y == 0.5 || y - n as real == 0.5) ==> n % 2 == 0
  {
    var f := y.Floor;
    var d := y - f as real;
    if d < 0.5 then f
    else if d > 0.5 then f + 1
    else if f % 2 == 0 then f
    else f + 1
  }

  /** Python's `sep.join(parts)`. */
  function Join(sep: string, parts: seq<string>): string
    decreases |parts|
  {
    if |parts| == 0 then ""
    else if |parts| == 1 then parts[0]
    else parts[0] + sep + Join(sep, parts[1..])
  }

  /** Joining one more part adds the separator and that part at the end. */
  lemma {:induction false} JoinSnoc(sep: string, parts: seq<string>, p: string)
    requires |parts| > 0
    ensures Join(sep, parts + [p]) == Join(sep, parts) + sep + p
    decreases |parts|
  {
    var all := parts + [p];
    if |parts| == 1 {
      assert all[1..] == [p];
    } else {
      assert all[1..] == parts[1..] + [p];
      JoinSnoc(sep, parts[1..], p);
    }
  }

  /** Number of occurrences of `c` in `s`. */
  function CountChar(c: char, s: string): (n: nat)
    ensures n <= |s|
    ensures n == 0 <==> c !in s
  {
    if s == [] then 0 else (if s[0] == c then 1 else 0) + CountChar(c, s[1..])
  }

  lemma {:induction false} CountCharAppend(c: char, a: string, b: string)
    ensures CountChar(c, a + b) == CountChar(c, a) + CountChar(c, b)
  {
    if a == [] {
      assert a + b == b;
    } else {
      assert (a + b)[0] == a[0];
      assert (a + b)[1..] == a[1..] + b;
      CountCharAppend(c, a[1..], b);
    }
  }

  /** `xml.sax.saxutils.escape(s)`: `&`, `<` and `>` become entity references. */
  function Escape(s: string): (r: string)
    ensures |r| >= |s|
    ensures ('&' !in s && '<' !in s && '>' !in s) ==> r == s
    ensures '<' !in r && '>' !in r
  {
    if s == [] then ""
    else
      (if s[0] == '&' then "&amp;" else if s[0] == '<' then "&lt;" else if s[0] == '>' then "&gt;" else [s[0]])
      + Escape(s[1..])
  }

  lemma {:induction false} IndexOfAfterDigits(w: string, t: string)
    requires AllDigits(w)
    ensures IndexOf(w + "." + t, '.') == Some(|w|)
  {
    if w != [] {
      assert (w + "." + t)[1..] == w[1..] + "." + t;
      IndexOfAfterDigits(w[1..], t);
    }
  }

  lemma CentsSplit(cents: nat)
    ensures (cents / 100) as real + (cents % 100) as real / 100.0 == cents as real / 100.0
  {
    assert cents == 100 * (cents / 100) + cents % 100;
  }

  lemma TwoDigitsValue(a: nat, b: nat)
    requires a < 10 && b < 10
    ensures DigitsValue([DigitChar(a), DigitChar(b)]) == 10 * a + b
  {
    var t := [DigitChar(a), DigitChar(b)];
    var t1 := [DigitChar(a)];
    assert t[..|t| - 1] == t1;
    assert t1[..|t1| - 1] == [];
    assert DigitsValue(t1) == a;
    assert DigitsValue(t) == DigitsValue(t1) * 10 + DigitValue(t[1]);
  }

  lemma LastTwoDigits(cents: nat)
    ensures 10 * (cents % 100 / 10) + cents % 10 == cents % 100
  {
    var q, m := cents / 100, cents % 100;
    assert cents == 100 * q + m;
    assert cents == 10 * (10 * q + m / 10) + m % 10;
    assert cents % 10 == m % 10;
  }

  /** Digits, a point and digits read as the whole part plus the scaled fraction. */
  lemma ParsePointed(body: string, w: string, frac: string)
    requires body == w + "." + frac
    requires |w| > 0 && AllDigits(w) && AllDigits(frac)
    ensures ParseUnsigned(body) == Some(PointValue(w, frac))
  {
    IndexOfAfterDigits(w, frac);
    assert IndexOf(body, '.') == Some(|w|);
    assert body[..|w|] == w;
    assert body[|w| + 1..] == frac;
  }

  lemma ParseFixed2Digits(cents: nat)
    ensures ParseUnsigned(Fixed2Digits(cents)) == Some(cents as real / 100.0)
  {
    var w := NatToString(cents / 100);
    var frac := [DigitChar(cents % 100 / 10), DigitChar(cents % 10)];
    ParsePointed(Fixed2Digits(cents), w, frac);
    TwoDigitsValue(cents % 100 / 10, cents % 10);
    LastTwoDigits(cents);
    assert DigitsValue(frac) == cents % 100;
    assert Pow10(|frac|) == 100;
    CentsSplit(cents);
    assert PointValue(w, frac) == (cents / 100) as real + (cents % 100) as real / 100.0;
  }

  lemma StripUnpadded(s: string)
    requires s != [] && !IsSpace(s[0]) && !IsSpace(s[|s| - 1])
    ensures Strip(s) == s
  {
  }

  /** A minus sign before unsigned text negates its value. */
  lemma ParseDecimalNegative(body: string, v: real)
    requires |body| > 0 && IsDigit(body[0])
    requires ParseUnsigned(body) == Some(v)
    ensures ParseDecimal("-" + body) == Some(-v)
  {
    var t := "-" + body;
    assert t[0] == '-' && t[1..] == body;
  }

  /** Text that starts with a digit carries no sign. */
  lemma ParseDecimalUnsigned(body: string)
    requires |body| > 0 && IsDigit(body[0])
    ensures ParseDecimal(body) == ParseUnsigned(body)
  {
  }

  /** `v`, negated when `negative`. */
  function Signed(negative: bool, v: real): real
  {
    if negative then -v else v
  }

  /** `float()` of unsigned text that starts and ends with a digit, optionally preceded
      by a minus sign, is its value, negated when the sign is there. */
  lemma ParseSigned(s: string, body: string, negative: bool, v: real)
    requires s == (if negative then "-" else "") + body
    requires |body| > 0 && IsDigit(body[0]) && IsDigit(body[|body| - 1])
    requires ParseUnsigned(body) == Some(v)
    ensures ParseFloat(s) == Some(Signed(negative, v))
  {
    if negative {
      assert s == "-" + body;
      assert s[0] == '-' && s[|s| - 1] == body[|body| - 1];
      StripUnpadded(s);
      ParseDecimalNegative(body, v);
    } else {
      assert s == body;
      StripUnpadded(s);
      ParseDecimalUnsigned(body);
    }
  }

  /** `float()` reads back the text `Fixed2` writes: the value of `cents` hundredths,
      negated when the text carries a minus sign. */
  lemma ParseFixed2(negative: bool, cents: nat)
    ensures ParseFloat(Fixed2(negative, cents)) == Some(Signed(negative, cents as real / 100.0))
  {
    ParseFixed2Digits(cents);
    ParseSigned(Fixed2(negative, cents), Fixed2Digits(cents), negative, cents as real / 100.0);
  }

  /** Removing `" m"` from a text that has no blank, followed by `" m"`, gives the text back. */
  lemma {:induction false} ReplaceUnitSuffix(s: string)
    requires ' ' !in s
    ensures Replace(s + " m", " m", "") == s
  {
    var t := s + " m";
    if s == [] {
      assert t[..2] == " m";
      assert t[2..] == [];
    } else {
      assert t[0] == s[0];
      assert t[..2] != " m";
      assert t[1..] == s[1..] + " m";
      ReplaceUnitSuffix(s[1..]);
      assert s == [s[0]] + s[1..];
    }
  }

  /** Replacing a one-character `pat` that occurs only at the end of the text rewrites
      just that last character. */
  lemma {:induction false} ReplaceLastChar(s: string, c: char, rep: string)
    requires c !in s
    ensures Replace(s + [c], [c], rep) == s + rep
  {
    var t := s + [c];
    if s == [] {
      assert t[..1] == [c];
      assert t[1..] == [];
    } else {
      assert s[0] in s;
      assert t[..1] == [s[0]] != [c];
      assert t[1..] == s[1..] + [c];
      ReplaceLastChar(s[1..], c, rep);
      assert s == [s[0]] + s[1..];
    }
  }

  /** A one-character `pat` that does not occur leaves the text unchanged. */
  lemma ReplaceAbsentChar(s: string, c: char, rep: string)
    requires c !in s
    ensures Replace(s, [c], rep) == s
  {
    forall k | 0 <= k <= |s| ensures !OccursAt(s, [c], k) {
      if k < |s| {
        assert s[k] in s;
        assert s[k..k + 1] == [s[k]];
      }
    }
    ReplaceWithoutOccurrence(s, [c], rep);
  }

  lemma {:induction false} NoBlankInFixed2(negative: bool, cents: nat)
    ensures ' ' !in Fixed2(negative, cents)
  {
    var w := NatToString(cents / 100);
    assert forall i :: 0 <= i < |w| ==> IsDigit(w[i]);
    assert Fixed2(negative, cents)
        == (if negative then "-" else "") + w + "." + [DigitChar(cents % 100 / 10), DigitChar(cents % 10)];
  }
}
