/**
 * The parts of Python's `str` that the bot relies on, over `string`
 * (a sequence of Unicode scalar values): `strip`, `split` on one
 * character, `replace` of one character, `startswith`, `isdigit`,
 * `int(...)` of a decimal numeral, `str(n)` of a natural number, and
 * `sep.join`, the inverse of `split` on `sep`.
 */
module Text {
  import opened Wrappers

  /** The characters for which Python's `str.isspace()` holds. */
  predicate IsWhitespace(c: char)
    ensures c == ' ' || c == '\t' || c == '\n' || c == '\r' ==> IsWhitespace(c)
    ensures IsWhitespace(c) ==> !IsDigit(c)
  {
    || c == ' '
    || ('\t' <= c && c <= '\r')
    || ('\U{1C}' <= c && c <= '\U{1F}')
    || c == '\U{85}' || c == '\U{A0}' || c == '\U{1680}'
    || ('\U{2000}' <= c && c <= '\U{200A}')
    || c == '\U{2028}' || c == '\U{2029}' || c == '\U{202F}' || c == '\U{205F}' || c == '\U{3000}'
  }

  /** `s.lstrip()`: what is left after dropping the leading whitespace. */
  function StripLeft(s: string): (r: string)
    ensures |r| <= |s|
    ensures r == [] || !IsWhitespace(r[0])
  {
    if s != [] && IsWhitespace(s[0]) then StripLeft(s[1..]) else s
  }

  /** `s.rstrip()`: what is left after dropping the trailing whitespace. */
  function StripRight(s: string): (r: string)
    ensures |r| <= |s|
    ensures r == [] || !IsWhitespace(r[|r| - 1])
  {
    if s != [] && IsWhitespace(s[|s| - 1]) then StripRight(s[..|s| - 1]) else s
  }

  /** `lstrip` keeps a suffix and drops only whitespace. */
  lemma {:induction false} StripLeftDropsWhitespace(s: string)
    ensures StripLeft(s) == s[|s| - |StripLeft(s)|..]
    ensures forall k :: 0 <= k < |s| - |StripLeft(s)| ==> IsWhitespace(s[k])
  {
    if s != [] && IsWhitespace(s[0]) {
      StripLeftDropsWhitespace(s[1..]);
      assert forall k :: 1 <= k < |s| ==> s[k] == s[1..][k - 1];
    }
  }

  /** `rstrip` keeps a prefix and drops only whitespace. */
  lemma {:induction false} StripRightDropsWhitespace(s: string)
    ensures StripRight(s) == s[..|StripRight(s)|]
    ensures forall k :: |StripRight(s)| <= k < |s| ==> IsWhitespace(s[k])
  {
    if s != [] && IsWhitespace(s[|s| - 1]) {
      StripRightDropsWhitespace(s[..|s| - 1]);
    }
  }

  /** No leading and no trailing whitespace. */
  predicate IsStripped(s: string) {
    s == [] || (!IsWhitespace(s[0]) && !IsWhitespace(s[|s| - 1]))
  }

  /** `s.strip()`: the middle of `s` once whitespace is dropped at both ends. */
  function Strip(s: string): (r: string)
    ensures IsStripped(r) && |r| <= |s|
  {
    var l := StripLeft(s);
    StripRightDropsWhitespace(l);
    StripRight(l)
  }

  /**
   * `strip` keeps a contiguous middle part: every character it keeps is
   * from `s`, and it keeps nothing exactly when `s` is all whitespace.
   */
  lemma StripKeepsMiddle(s: string)
    ensures forall c :: c in Strip(s) ==> c in s
    ensures Strip(s) == [] <==> forall k :: 0 <= k < |s| ==> IsWhitespace(s[k])
  {
    var l := StripLeft(s);
    var r := StripRight(l);
    var n := |s| - |l|;
    StripLeftDropsWhitespace(s);
    StripRightDropsWhitespace(l);
    assert Strip(s) == r;
    assert forall k :: n <= k < |s| ==> s[k] == l[k - n];
    assert forall c :: c in r ==> c in l;
    assert forall c :: c in l ==> c in s;
    if r == [] {
      assert l == [];
    } else {
      assert !IsWhitespace(l[0]);
      assert s[n] == l[0];
    }
  }

  /** A string that already has no whitespace at its ends is left alone by `strip`. */
  lemma {:induction false} StripOfStripped(s: string)
    requires IsStripped(s)
    ensures Strip(s) == s
  {
    assert StripLeft(s) == s;
    assert StripRight(s) == s;
  }

  /** `strip` is idempotent. */
  lemma StripIdempotent(s: string)
    ensures Strip(Strip(s)) == Strip(s)
  {
    StripOfStripped(Strip(s));
  }

  /** `s.startswith(prefix)`. */
  predicate StartsWith(s: string, prefix: string)
    ensures StartsWith(s, prefix) ==> |prefix| <= |s|
    ensures prefix == [] || prefix == s ==> StartsWith(s, prefix)
  {
    |prefix| <= |s| && s[..|prefix|] == prefix
  }

  /** `s.replace(from, to)` for single characters. */
  function ReplaceChar(s: string, from: char, to: char): (r: string)
    ensures |r| == |s|
    ensures from != to ==> from !in r
  {
    seq(|s|, i requires 0 <= i < |s| => if s[i] == from then to else s[i])
  }

  /** Replacing a character that does not occur changes nothing. */
  lemma ReplaceAbsent(s: string, from: char, to: char)
    requires from !in s
    ensures ReplaceChar(s, from, to) == s
  {
  }

  /** `replace` works piecewise on a concatenation. */
  lemma ReplaceConcat(a: string, b: string, from: char, to: char)
    ensures ReplaceChar(a + b, from, to) == ReplaceChar(a, from, to) + ReplaceChar(b, from, to)
  {
  }

  /**
   * `s.split(sep)` for a one-character separator: the pieces between
   * separators, in order; an empty string gives one empty piece.
   */
  function Split(s: string, sep: char): (r: seq<string>)
    ensures |r| >= 1
  {
    if s == [] then [[]]
    else
      var rest := Split(s[1..], sep);
      if s[0] == sep then [[]] + rest
      else [[s[0]] + rest[0]] + rest[1..]
  }

  /** No piece holds the separator, and every character of a piece comes from `s`. */
  lemma {:induction false} SplitPieces(s: string, sep: char)
    ensures forall i :: 0 <= i < |Split(s, sep)| ==> sep !in Split(s, sep)[i]
    ensures forall i, c :: 0 <= i < |Split(s, sep)| && c in Split(s, sep)[i] ==> c in s
  {
    if s != [] {
      SplitPieces(s[1..], sep);
      var rest := Split(s[1..], sep);
      var r := Split(s, sep);
      forall i, c | 0 <= i < |r| && c in r[i] ensures c in s {
        if s[0] == sep {
          if i > 0 { assert r[i] == rest[i - 1]; assert c in s[1..]; }
        } else if i == 0 {
          if c != s[0] { assert c in rest[0]; assert c in s[1..]; }
        } else {
          assert r[i] == rest[i];
          assert c in s[1..];
        }
      }
      forall i | 0 <= i < |r| ensures sep !in r[i] {
        if s[0] != sep && i > 0 { assert r[i] == rest[i]; }
        if s[0] == sep && i > 0 { assert r[i] == rest[i - 1]; }
      }
    }
  }

  /** Joining the pieces with the separator gives the string back. */
  lemma {:induction false} JoinSplit(s: string, sep: char)
    ensures Join(Split(s, sep), sep) == s
  {
    if s != [] {
      JoinSplit(s[1..], sep);
      var rest := Split(s[1..], sep);
      var r := Split(s, sep);
      if s[0] == sep {
        assert r[1..] == rest;
      } else if |rest| > 1 {
        assert r[1..] == rest[1..];
      }
    }
  }

  /** The inverse of `split`: the pieces with `sep` between consecutive ones (`sep.join(parts)`). */
  function Join(parts: seq<string>, sep: char): (r: string)
    ensures |parts| >= 1 ==> parts[0] <= r
    ensures |r| >= |parts| - 1
  {
    if |parts| == 0 then []
    else if |parts| == 1 then parts[0]
    else parts[0] + [sep] + Join(parts[1..], sep)
  }

  /** A string without the separator is one piece. */
  lemma {:induction false} SplitNoSep(s: string, sep: char)
    requires sep !in s
    ensures Split(s, sep) == [s]
  {
    if s != [] {
      assert s[0] != sep;
      assert sep !in s[1..];
      SplitNoSep(s[1..], sep);
      assert [s[0]] + s[1..] == s;
    }
  }

  /** Splitting at a separator splits the two sides independently. */
  lemma {:induction false} SplitAtSep(a: string, b: string, sep: char)
    ensures Split(a + [sep] + b, sep) == Split(a, sep) + Split(b, sep)
  {
    var s := a + [sep] + b;
    if a == [] {
      assert s[1..] == b;
    } else {
      assert s[1..] == a[1..] + [sep] + b;
      SplitAtSep(a[1..], b, sep);
    }
  }

  /** `split` undoes `join` when no piece contains the separator. */
  lemma {:induction false} SplitJoin(parts: seq<string>, sep: char)
    requires |parts| >= 1
    requires forall i :: 0 <= i < |parts| ==> sep !in parts[i]
    ensures Split(Join(parts, sep), sep) == parts
  {
    if |parts| == 1 {
      SplitNoSep(parts[0], sep);
    } else {
      SplitJoin(parts[1..], sep);
      SplitAtSep(parts[0], Join(parts[1..], sep), sep);
      SplitNoSep(parts[0], sep);
    }
  }

  /** `s.split(sep)[-1]`: the last piece. */
  function LastSegment(s: string, sep: char): (r: string)
    ensures sep !in r
    ensures sep !in s ==> r == s
  {
    var parts := Split(s, sep);
    SplitPieces(s, sep);
    if sep !in s then SplitNoSep(s, sep); parts[|parts| - 1]
    else parts[|parts| - 1]
  }

  /** The last piece after a separator is whatever follows the last separator. */
  lemma LastSegmentAfterSep(a: string, b: string, sep: char)
    requires sep !in b
    ensures LastSegment(a + [sep] + b, sep) == b
  {
    SplitAtSep(a, b, sep);
    SplitNoSep(b, sep);
  }

  predicate IsDigit(c: char) {
    '0' <= c <= '9'
  }

  predicate AllDigits(s: string) {
    forall i :: 0 <= i < |s| ==> IsDigit(s[i])
  }

  /** `s.isdigit()` restricted to the ASCII digits: non-empty and only digits. */
  predicate IsDigits(s: string)
    ensures IsDigits(s) ==> |s| > 0 && IsDigit(s[0]) && !IsWhitespace(s[0])
  {
    |s| > 0 && AllDigits(s)
  }

  /** The value of a decimal numeral (`int(s)` for a string of digits; leading zeros allowed). */
  function DigitsValue(s: string): (n: nat)
    requires AllDigits(s)
    ensures n < Pow10(|s|)
  {
    if s == [] then 0 else DigitsValue(s[..|s| - 1]) * 10 + (s[|s| - 1] as int - '0' as int)
  }

  /** Leading zeros do not change the value of a numeral: `int("05") == 5`. */
  lemma {:induction false} DigitsValueLeadingZero(s: string)
    requires AllDigits(s)
    ensures AllDigits(['0'] + s) && DigitsValue(['0'] + s) == DigitsValue(s)
  {
    var z := ['0'] + s;
    if s != [] {
      assert z[..|z| - 1] == ['0'] + s[..|s| - 1];
      DigitsValueLeadingZero(s[..|s| - 1]);
    }
  }

  /** `10 ** k` */
  function Pow10(k: nat): (p: nat)
    ensures p >= 1
  {
    if k == 0 then 1 else 10 * Pow10(k - 1)
  }

  function DigitChar(d: nat): (c: char)
    requires d < 10
    ensures IsDigit(c) && c as int - '0' as int == d
  {
    ('0' as int + d) as char
  }

  /** `str(n)` for a natural number: its decimal numeral without leading zeros. */
  function ShowNat(n: nat): (s: string)
    ensures IsDigits(s)
    ensures s[0] != '0' || n == 0
    decreases n
  {
    if n < 10 then [DigitChar(n)] else ShowNat(n / 10) + [DigitChar(n % 10)]
  }

  /** Reading back a numeral written by `ShowNat` gives the number. */
  lemma {:induction false} DigitsValueShowNat(n: nat)
    ensures DigitsValue(ShowNat(n)) == n
    decreases n
  {
    if n >= 10 {
      DigitsValueShowNat(n / 10);
      var s := ShowNat(n);
      assert s[..|s| - 1] == ShowNat(n / 10);
    }
  }

  /** A numeral does not split at a character that is not a digit. */
  lemma NumeralIsOnePiece(s: string, sep: char)
    requires !IsDigit(sep)
    ensures AllDigits(s) ==> Split(s, sep) == [s]
  {
    if AllDigits(s) {
      assert forall i :: 0 <= i < |s| ==> s[i] != sep;
      SplitNoSep(s, sep);
    }
  }

  /** A numeral written by `ShowNat` holds no separator or whitespace. */
  lemma ShowNatPlain(n: nat)
    ensures forall c :: c in ShowNat(n) ==> IsDigit(c) && !IsWhitespace(c)
    ensures '_' !in ShowNat(n) && ',' !in ShowNat(n) && '\n' !in ShowNat(n)
  {
    var s := ShowNat(n);
    forall c | c in s ensures IsDigit(c) && !IsWhitespace(c) {
      var i :| 0 <= i < |s| && s[i] == c;
    }
  }

  /**
   * Python's `int(s)` on an optional sign followed by ASCII digits;
   * anything else is a `ValueError`, here `None`.
   */
  function ParseInt(s: string): (r: Option<int>)
    ensures r.Some? ==> IsDigits(s) || (|s| > 1 && (s[0] == '-' || s[0] == '+'))
    ensures IsDigits(s) ==> r == Some(DigitsValue(s))
    ensures |s| > 1 && s[0] == '-' && IsDigits(s[1..]) ==> r == Some(0 - DigitsValue(s[1..]))
    ensures |s| > 1 && s[0] == '+' && IsDigits(s[1..]) ==> r == Some(DigitsValue(s[1..]))
    ensures r.None? <==> !IsDigits(s) && !(|s| > 1 && (s[0] == '-' || s[0] == '+') && IsDigits(s[1..]))
  {
    if IsDigits(s) then Some(DigitsValue(s))
    else if |s| > 1 && (s[0] == '-' || s[0] == '+') && IsDigits(s[1..]) then
      var v: int := DigitsValue(s[1..]);
      Some(if s[0] == '-' then -v else v)
    else None
  }

  /** `int(str(n)) == n`, and `int(str(-n)) == -n`. */
  lemma ParseIntShowNat(n: nat)
    ensures ParseInt(ShowNat(n)) == Some(n)
    ensures ParseInt(['-'] + ShowNat(n)) == Some(0 - n)
  {
    DigitsValueShowNat(n);
    var neg := ['-'] + ShowNat(n);
    assert neg[1..] == ShowNat(n);
    assert !IsDigit(neg[0]);
  }

  /**
   * Python's `float(s)` for an amount of money, in hundredths (paise):
   * an optional sign, digits, and an optional '.' with at most two
   * fraction digits. Other spellings `float` accepts are `None` here.
   */
  function ParseAmount(s: string): (r: Option<int>)
    ensures r.Some? ==> s != []
    ensures r.Some? && r.value < 0 ==> s[0] == '-'
    ensures IsDigits(s) ==> r == Some(DigitsValue(s) * 100)
  {
    if |s| > 0 && (s[0] == '-' || s[0] == '+') then
      match ParseUnsignedAmount(s[1..])
      case None => None
      case Some(v) => var w: int := v; Some(if s[0] == '-' then -w else w)
    else ParseUnsignedAmount(s)
  }

  function ParseUnsignedAmount(s: string): (r: Option<nat>)
    ensures r.Some? ==> s != []
    ensures IsDigits(s) ==> r == Some(DigitsValue(s) * 100)
  {
    NumeralIsOnePiece(s, '.');
    var parts := Split(s, '.');
    if |parts| == 1 then
      if IsDigits(s) then Some(DigitsValue(s) * 100) else None
    else if |parts| == 2 && AllDigits(parts[0]) && AllDigits(parts[1])
      && |parts[1]| <= 2 && |parts[0]| + |parts[1]| > 0 then
      var frac := DigitsValue(parts[1]);
      Some(DigitsValue(parts[0]) * 100 + (if |parts[1]| == 1 then frac * 10 else frac))
    else None
  }

  /** A whole amount written as a plain numeral is read as that many hundreds of paise. */
  lemma ParseAmountWhole(n: nat)
    ensures ParseAmount(ShowNat(n)) == Some(n * 100)
  {
    ShowNatPlain(n);
    SplitNoSep(ShowNat(n), '.');
    DigitsValueShowNat(n);
  }

  /** An amount with two fraction digits, `str(n) + "." + d1 d2`, is read as `100 n + 10 d1 + d2` paise. */
  lemma ParseAmountCents(n: nat, cents: nat)
    requires cents < 100
    ensures ParseAmount(ShowNat(n) + "." + [DigitChar(cents / 10), DigitChar(cents % 10)]) == Some(n * 100 + cents)
  {
    var whole, frac := ShowNat(n), [DigitChar(cents / 10), DigitChar(cents % 10)];
    ShowNatPlain(n);
    SplitAtSep(whole, frac, '.');
    SplitNoSep(whole, '.');
    SplitNoSep(frac, '.');
    DigitsValueShowNat(n);
    assert whole + "." + frac == whole + ['.'] + frac;
    assert frac[..1] == [DigitChar(cents / 10)];
    assert frac[..1][..0] == [];
    assert DigitsValue(frac[..1]) == cents / 10;
    assert DigitsValue(frac) == cents;
  }
}
