/** The JavaScript string built-ins the validators rely on: the whitespace class shared by
    `\s` and `String.prototype.trim`, `trim`, `split(/\s+/)`, and the global `parseInt`. */
module JsText {
  import opened Wrappers

  /** WhiteSpace and LineTerminator code points, the set that `\s` matches and `trim` strips. */
  predicate IsWhitespace(c: char) {
    var n := c as int;
    (0x09 <= n <= 0x0D) || n == 0x20 || n == 0xA0 || n == 0x1680 ||
    (0x2000 <= n <= 0x200A) || n == 0x2028 || n == 0x2029 || n == 0x202F ||
    n == 0x205F || n == 0x3000 || n == 0xFEFF
  }

  /** Every character of `s` from index `lo` up to `hi` is whitespace. */
  predicate WhitespaceIn(s: string, lo: nat, hi: nat)
    requires lo <= hi <= |s|
  {
    forall i :: lo <= i < hi ==> IsWhitespace(s[i])
  }

  /** No character of `s` from index `lo` up to `hi` is whitespace. */
  predicate NoWhitespaceIn(s: string, lo: nat, hi: nat)
    requires lo <= hi <= |s|
  {
    forall i :: lo <= i < hi ==> !IsWhitespace(s[i])
  }

  predicate AllWhitespace(s: string) {
    WhitespaceIn(s, 0, |s|)
  }

  predicate NoWhitespace(s: string) {
    NoWhitespaceIn(s, 0, |s|)
  }

  /** Length of the whitespace run that starts `s`. */
  function LeadingWhitespace(s: string): (k: nat)
    ensures k <= |s| && WhitespaceIn(s, 0, k)
    ensures k < |s| ==> !IsWhitespace(s[k])
  {
    if s == [] || !IsWhitespace(s[0]) then 0
    else 1 + LeadingWhitespace(s[1..])
  }

  /** The whitespace run that starts `s` is determined by where it stops. */
  lemma {:induction false} LeadingWhitespaceIs(s: string, k: nat)
    requires k <= |s| && WhitespaceIn(s, 0, k)
    requires k < |s| ==> !IsWhitespace(s[k])
    ensures LeadingWhitespace(s) == k
  {
    if k > 0 {
      LeadingWhitespaceIs(s[1..], k - 1);
    }
  }

  /** Length of the whitespace run that ends `s`. */
  function TrailingWhitespace(s: string): (k: nat)
    ensures k <= |s| && WhitespaceIn(s, |s| - k, |s|)
    ensures k < |s| ==> !IsWhitespace(s[|s| - 1 - k])
  {
    if s == [] || !IsWhitespace(s[|s| - 1]) then 0
    else 1 + TrailingWhitespace(s[..|s| - 1])
  }

  /** Length of the run of non-whitespace characters that starts `s`, which is also the
      index of the first whitespace character (or |s| when there is none). */
  function NonWhitespacePrefix(s: string): (w: nat)
    ensures w <= |s| && NoWhitespaceIn(s, 0, w)
    ensures w < |s| ==> IsWhitespace(s[w])
  {
    if s == [] || IsWhitespace(s[0]) then 0
    else 1 + NonWhitespacePrefix(s[1..])
  }

  /** The non-whitespace run that starts `s` is determined by where it stops. */
  lemma {:induction false} NonWhitespacePrefixIs(s: string, w: nat)
    requires w <= |s| && NoWhitespaceIn(s, 0, w)
    requires w < |s| ==> IsWhitespace(s[w])
    ensures NonWhitespacePrefix(s) == w
  {
    if w > 0 {
      NonWhitespacePrefixIs(s[1..], w - 1);
    }
  }

  function TrimStart(s: string): string {
    s[LeadingWhitespace(s)..]
  }

  function TrimEnd(s: string): string {
    s[..|s| - TrailingWhitespace(s)]
  }

  /** `s.trim()`: the result is `s` without its leading and trailing whitespace. It is empty
      exactly when `s` is all whitespace, and otherwise starts and ends with a
      non-whitespace character. */
  function Trim(s: string): (r: string)
    ensures exists i, j :: 0 <= i <= j <= |s| && r == s[i..j] && WhitespaceIn(s, 0, i) && WhitespaceIn(s, j, |s|)
    ensures |r| == 0 <==> AllWhitespace(s)
    ensures |r| > 0 ==> !IsWhitespace(r[0]) && !IsWhitespace(r[|r| - 1])
  {
    var t := TrimStart(s);
    var k := LeadingWhitespace(s);
    assert k < |s| ==> t[0] == s[k];
    var j := k + |t| - TrailingWhitespace(t);
    assert TrimEnd(t) == s[k..j];
    assert WhitespaceIn(s, j, |s|) by {
      forall m | j <= m < |s| ensures IsWhitespace(s[m]) {
        assert s[m] == t[m - k];
      }
    }
    TrimEnd(t)
  }

  /** `s.indexOf(c)`: the index of the first `c` in `s`, or |s| when there is none. */
  function IndexOf(s: string, c: char): (i: nat)
    ensures i <= |s| && (i < |s| ==> s[i] == c)
    ensures forall k :: 0 <= k < i ==> s[k] != c
  {
    if s == [] then 0
    else if s[0] == c then 0
    else 1 + IndexOf(s[1..], c)
  }

  // ---------------------------------------------------------------------------
  // text.split(/\s+/) and the words it yields
  // ---------------------------------------------------------------------------

  /** `s.split(/\s+/)`: the pieces between maximal runs of whitespace, including the empty
      piece before a leading run and after a trailing run. */
  function SplitOnWhitespace(s: string): (parts: seq<string>)
    decreases |s|
  {
    var i := NonWhitespacePrefix(s);
    if i == |s| then [s]
    else
      var j := i + LeadingWhitespace(s[i..]);
      [s[..i]] + SplitOnWhitespace(s[j..])
  }

  /** `parts.filter(word => word.length > 0)`: every non-empty piece is kept, as often as it
      occurs, and only those. */
  function NonEmpty(parts: seq<string>): (r: seq<string>)
    ensures forall p :: p in r ==> p in parts && p != []
    ensures forall p :: p in parts && p != [] ==> p in r
    ensures multiset(r) == multiset(parts)[[] := 0]
  {
    if parts == [] then []
    else
      assert parts == [parts[0]] + parts[1..];
      if parts[0] == [] then NonEmpty(parts[1..])
      else [parts[0]] + NonEmpty(parts[1..])
  }

  /** The words of `s` read left to right: each maximal run of non-whitespace characters.
      This is the reference the word count is checked against. */
  function Words(s: string): seq<string>
    decreases |s|
  {
    if s == [] then []
    else if IsWhitespace(s[0]) then Words(s[1..])
    else
      var w := NonWhitespacePrefix(s);
      [s[..w]] + Words(s[w..])
  }

  /** Dropping a whitespace run from the front does not change the words. */
  lemma {:induction false} WordsSkipLeading(s: string, k: nat)
    requires k <= |s| && WhitespaceIn(s, 0, k)
    ensures Words(s[k..]) == Words(s)
  {
    if k > 0 {
      WordsSkipLeading(s[1..], k - 1);
      assert s[1..][k - 1..] == s[k..];
    }
  }

  /** A string with no whitespace is read as exactly one word, or none when empty. */
  lemma WordsOfToken(w: string)
    requires NoWhitespace(w)
    ensures Words(w) == if w == [] then [] else [w]
  {
    if w != [] {
      NonWhitespacePrefixIs(w, |w|);
      assert w[..|w|] == w && w[|w|..] == [];
    }
  }

  /** `filter(nonEmpty)` applied to `split(/\s+/)` yields exactly the words. */
  lemma {:induction false} SplitYieldsWords(s: string)
    ensures NonEmpty(SplitOnWhitespace(s)) == Words(s)
    decreases |s|
  {
    var i := NonWhitespacePrefix(s);
    var parts := SplitOnWhitespace(s);
    if i == |s| {
      WordsOfToken(s);
      assert parts == [s] && parts[1..] == [];
    } else {
      var j := i + LeadingWhitespace(s[i..]);
      var rest := s[j..];
      SplitYieldsWords(rest);
      assert parts == [s[..i]] + SplitOnWhitespace(rest);
      assert parts[0] == s[..i] && parts[1..] == SplitOnWhitespace(rest);
      assert s[i..][j - i..] == rest;
      WordsSkipLeading(s[i..], j - i);
      if i == 0 {
        assert s[i..] == s;
        assert NonEmpty(parts) == NonEmpty(parts[1..]);
      } else {
        assert Words(s) == [s[..i]] + Words(s[i..]);
        assert NonEmpty(parts) == [s[..i]] + NonEmpty(parts[1..]);
      }
    }
  }

  /** A word of `r` ends where it ends in `r` when what follows `r` starts with
      whitespace. */
  lemma WordEndsAtWhitespace(r: string, t: string)
    requires t == [] || IsWhitespace(t[0])
    ensures NonWhitespacePrefix(r + t) == NonWhitespacePrefix(r)
    ensures (r + t)[..NonWhitespacePrefix(r)] == r[..NonWhitespacePrefix(r)]
    ensures (r + t)[NonWhitespacePrefix(r)..] == r[NonWhitespacePrefix(r)..] + t
  {
    var w := NonWhitespacePrefix(r);
    var s := r + t;
    assert NoWhitespaceIn(s, 0, w) by {
      assert forall i :: 0 <= i < w ==> s[i] == r[i];
    }
    assert w < |s| ==> IsWhitespace(s[w]) by {
      if w < |r| {
        assert s[w] == r[w];
      } else if w < |s| {
        assert s[w] == t[0];
      }
    }
    NonWhitespacePrefixIs(s, w);
    assert s[..w] == r[..w];
    assert s[w..] == r[w..] + t;
  }

  /** Splitting a text just before a whitespace character splits its words. */
  lemma {:induction false} WordsOfConcat(a: string, t: string)
    requires t == [] || IsWhitespace(t[0])
    ensures Words(a + t) == Words(a) + Words(t)
    decreases |a|
  {
    if a == [] {
      assert a + t == t;
    } else if IsWhitespace(a[0]) {
      WordsOfConcat(a[1..], t);
      assert (a + t)[1..] == a[1..] + t;
    } else {
      var w := NonWhitespacePrefix(a);
      var s := a + t;
      WordEndsAtWhitespace(a, t);
      assert s[0] == a[0];
      assert Words(s) == [s[..w]] + Words(s[w..]);
      WordsOfConcat(a[w..], t);
      assert Words(s[w..]) == Words(a[w..]) + Words(t);
    }
  }

  /** Text that is only whitespace has no words. */
  lemma WordsOfBlank(s: string)
    requires AllWhitespace(s)
    ensures Words(s) == []
  {
    WordsSkipLeading(s, |s|);
    assert s[|s|..] == [];
  }

  /** Appending whitespace after the last word does not change the words. */
  lemma WordsIgnoreTrailing(a: string, tail: string)
    requires AllWhitespace(tail)
    ensures Words(a + tail) == Words(a)
  {
    WordsOfConcat(a, tail);
    WordsOfBlank(tail);
  }

  /** Trimming does not change the words. */
  lemma WordsOfTrim(s: string)
    ensures Words(Trim(s)) == Words(s)
  {
    var i, j :| 0 <= i <= j <= |s| && Trim(s) == s[i..j] && WhitespaceIn(s, 0, i) && WhitespaceIn(s, j, |s|);
    assert WhitespaceIn(s, j, |s|);
    WordsSkipLeading(s, i);
    var tail := s[j..];
    assert s[i..] == s[i..j] + tail;
    assert AllWhitespace(tail) by {
      forall m | 0 <= m < |tail| ensures IsWhitespace(tail[m]) {
        assert tail[m] == s[j + m];
      }
    }
    WordsIgnoreTrailing(s[i..j], tail);
  }


  // ---------------------------------------------------------------------------
  // parseInt
  // ---------------------------------------------------------------------------

  predicate IsDecimalDigit(c: char) {
    '0' <= c <= '9'
  }

  /** A digit of the radix `parseInt` settled on: 10, or 16 after a `0x`/`0X` prefix. */
  predicate IsRadixDigit(c: char, hex: bool) {
    IsDecimalDigit(c) || (hex && (('a' <= c <= 'f') || ('A' <= c <= 'F')))
  }

  function DigitValue(c: char): (d: nat)
    ensures IsDecimalDigit(c) ==> d < 10
    ensures d < 16
  {
    if IsDecimalDigit(c) then c as int - '0' as int
    else if 'a' <= c <= 'f' then c as int - 'a' as int + 10
    else if 'A' <= c <= 'F' then c as int - 'A' as int + 10
    else 0
  }

  /** Length of the run of radix digits that starts `s`. */
  function DigitPrefix(s: string, hex: bool): (n: nat)
    ensures n <= |s|
    ensures forall i :: 0 <= i < n ==> IsRadixDigit(s[i], hex)
    ensures n < |s| ==> !IsRadixDigit(s[n], hex)
  {
    if s == [] || !IsRadixDigit(s[0], hex) then 0
    else 1 + DigitPrefix(s[1..], hex)
  }

  /** The digit run that starts `s` is determined by where it stops. */
  lemma {:induction false} DigitPrefixIs(s: string, hex: bool, n: nat)
    requires n <= |s| && forall i :: 0 <= i < n ==> IsRadixDigit(s[i], hex)
    requires n < |s| ==> !IsRadixDigit(s[n], hex)
    ensures DigitPrefix(s, hex) == n
  {
    if n > 0 {
      DigitPrefixIs(s[1..], hex, n - 1);
    }
  }

  /** The value of a digit string read most significant digit first. */
  function DigitsValue(ds: string, hex: bool): nat {
    if ds == [] then 0
    else DigitsValue(ds[..|ds| - 1], hex) * (if hex then 16 else 10) + DigitValue(ds[|ds| - 1])
  }

  /** The unsigned part of `parseInt`: a `0x`/`0X` prefix selects radix 16, then the longest
      run of digits is read; no digit at all gives `None`. */
  function ParseMagnitude(u: string): Option<nat> {
    var hex := |u| >= 2 && u[0] == '0' && (u[1] == 'x' || u[1] == 'X');
    var body := if hex then u[2..] else u;
    var n := DigitPrefix(body, hex);
    if n == 0 then None else Some(DigitsValue(body[..n], hex))
  }

  /** `parseInt(s)` with no radix: skip leading whitespace, take an optional sign, then read
      the magnitude. A number is read only where the first non-whitespace character is a
      decimal digit, or a sign followed by one; anything else gives `NaN` (here `None`). */
  function ParseInt(s: string): (r: Option<int>)
    ensures r.Some? ==> StartsNumber(TrimStart(s))
  {
    SignedNeedsDigit(TrimStart(s));
    ParseSigned(TrimStart(s))
  }

  /** `t` opens with a decimal digit, or with a sign and then a decimal digit. */
  predicate StartsNumber(t: string) {
    || (|t| > 0 && IsDecimalDigit(t[0]))
    || (|t| > 1 && (t[0] == '-' || t[0] == '+') && IsDecimalDigit(t[1]))
  }

  /** A magnitude is read only from text that starts with a decimal digit: the hexadecimal
      prefix itself starts with `0`. */
  lemma MagnitudeNeedsDigit(u: string)
    ensures ParseMagnitude(u).Some? ==> |u| > 0 && IsDecimalDigit(u[0])
  {
    var hex := |u| >= 2 && u[0] == '0' && (u[1] == 'x' || u[1] == 'X');
    var body := if hex then u[2..] else u;
    if !hex && DigitPrefix(body, hex) > 0 {
      assert IsRadixDigit(body[0], false);
    }
  }

  lemma SignedNeedsDigit(t: string)
    ensures ParseSigned(t).Some? ==> StartsNumber(t)
  {
    if |t| > 0 && (t[0] == '-' || t[0] == '+') {
      MagnitudeNeedsDigit(t[1..]);
    } else {
      MagnitudeNeedsDigit(t);
    }
  }

  /** An optional sign followed by a magnitude. */
  function ParseSigned(t: string): Option<int> {
    if |t| > 0 && t[0] == '-' then
      match ParseMagnitude(t[1..])
      case Some(m) => Some(-(m as int))
      case None => None
    else if |t| > 0 && t[0] == '+' then
      match ParseMagnitude(t[1..])
      case Some(m) => Some(m)
      case None => None
    else
      match ParseMagnitude(t)
      case Some(m) => Some(m)
      case None => None
  }


  /** The decimal numeral of a natural number, without leading zeros. */
  function NatToDecimal(n: nat): (s: string)
    ensures |s| > 0 && forall i :: 0 <= i < |s| ==> IsDecimalDigit(s[i])
  {
    var d := ['0' + ((n % 10) as char)];
    if n < 10 then d else NatToDecimal(n / 10) + d
  }

  /** The decimal numeral of an integer, as `String(n)` writes it. */
  function IntToDecimal(n: int): string {
    if n < 0 then "-" + NatToDecimal(-n) else NatToDecimal(n)
  }

  lemma {:induction false} NatToDecimalValue(n: nat)
    ensures DigitsValue(NatToDecimal(n), false) == n
  {
    var s := NatToDecimal(n);
    if n >= 10 {
      NatToDecimalValue(n / 10);
      assert s[..|s| - 1] == NatToDecimal(n / 10);
    }
  }

  lemma {:induction false} NatToDecimalLeadingZero(n: nat)
    ensures NatToDecimal(n)[0] == '0' ==> n == 0
  {
    if n >= 10 {
      NatToDecimalLeadingZero(n / 10);
      assert NatToDecimal(n)[0] == NatToDecimal(n / 10)[0];
    }
  }

  /** A character that cannot continue a numeral: not a digit, and not the `x`/`X` that
      turns a leading `0` into the hexadecimal prefix. */
  predicate EndsNumeral(c: char) {
    !IsDecimalDigit(c) && c != 'x' && c != 'X'
  }

  /** `parseInt` reads back every decimal numeral `String(n)` writes, also when the numeral is
      preceded by whitespace and followed by text that cannot continue it (a fraction, an
      exponent, a unit): `parseInt(" 12.5")` is 12. */
  lemma ParseIntReadsDecimal(ws: string, n: int, rest: string)
    requires AllWhitespace(ws)
    requires rest == [] || EndsNumeral(rest[0])
    ensures ParseInt(ws + IntToDecimal(n) + rest) == Some(n)
  {
    if n < 0 {
      ParseIntReadsNegative(ws, -n, rest);
    } else {
      ParseIntReadsNatural(ws, n, rest);
    }
  }

  lemma ParseIntReadsNatural(ws: string, m: nat, rest: string)
    requires AllWhitespace(ws)
    requires rest == [] || EndsNumeral(rest[0])
    ensures ParseInt(ws + NatToDecimal(m) + rest) == Some(m)
  {
    var t := NatToDecimal(m) + rest;
    assert ws + NatToDecimal(m) + rest == ws + t;
    assert IsDecimalDigit(t[0]);
    TrimStartSkips(ws, t);
    MagnitudeReadsDecimal(m, rest);
  }

  lemma ParseIntReadsNegative(ws: string, m: int, rest: string)
    requires AllWhitespace(ws)
    requires m > 0
    requires rest == [] || EndsNumeral(rest[0])
    ensures ParseInt(ws + IntToDecimal(-m) + rest) == Some(-m)
  {
    var u := NatToDecimal(m) + rest;
    var t := ['-'] + u;
    assert IntToDecimal(-m) == "-" + NatToDecimal(m);
    assert ws + IntToDecimal(-m) + rest == ws + t;
    TrimStartSkips(ws, t);
    MagnitudeReadsDecimal(m, rest);
    assert t[0] == '-' && t[1..] == u;
    assert ParseSigned(t) == Some(-m);
  }


  /** `trim`'s left half removes exactly a whitespace prefix that ends at a non-whitespace
      character. */
  lemma TrimStartSkips(ws: string, t: string)
    requires AllWhitespace(ws)
    requires t != [] ==> !IsWhitespace(t[0])
    ensures TrimStart(ws + t) == t
  {
    var s := ws + t;
    assert t != [] ==> s[|ws|] == t[0];
    LeadingWhitespaceIs(s, |ws|);
    assert s[|ws|..] == t;
  }

  lemma MagnitudeReadsDecimal(m: nat, rest: string)
    requires rest == [] || EndsNumeral(rest[0])
    ensures ParseMagnitude(NatToDecimal(m) + rest) == Some(m)
  {
    var digits := NatToDecimal(m);
    var u := digits + rest;
    NatToDecimalLeadingZero(m);
    assert |u| >= 2 ==> u[1] == if |digits| >= 2 then digits[1] else rest[0];
    DigitPrefixIs(u, false, |digits|);
    assert u[..|digits|] == digits;
    NatToDecimalValue(m);
  }

  /** With nothing but whitespace there is no digit to read, so the result is `NaN`. */
  lemma ParseIntOfBlank(s: string)
    requires AllWhitespace(s)
    ensures ParseInt(s) == None
  {
    LeadingWhitespaceIs(s, |s|);
  }
}
