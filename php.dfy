/**
 * The few pieces of the PHP runtime that the controllers lean on for
 * shaping data: `explode(',', …)` / `implode(',', …)`, the `(int)` cast of
 * a request string, string interpolation of an integer, and PHP
 * truthiness of an optional request string.
 */
module Php {
  import opened Wrappers

  // ---------------------------------------------------------------------
  // explode(',', $s) and implode(',', $pieces)
  // ---------------------------------------------------------------------

  /** `explode(',', s)`: the pieces between commas, never an empty list. */
  function Explode(s: string): (pieces: seq<string>)
    ensures |pieces| >= 1
    decreases |s|
  {
    if |s| == 0 then [""]
    else
      var rest := Explode(s[1..]);
      if s[0] == ',' then [""] + rest
      else [[s[0]] + rest[0]] + rest[1..]
  }

  /** `implode(',', pieces)`: the text starts with the first piece. */
  function Implode(pieces: seq<string>): (s: string)
    ensures |pieces| >= 1 ==> pieces[0] <= s
  {
    if |pieces| == 0 then ""
    else if |pieces| == 1 then pieces[0]
    else pieces[0] + "," + Implode(pieces[1..])
  }

  /** Comma-free pieces are separated by exactly one comma each. */
  lemma {:induction false} ImplodeSeparators(pieces: seq<string>)
    requires NoComma(pieces)
    ensures multiset(Implode(pieces))[','] == if |pieces| == 0 then 0 else |pieces| - 1
    decreases |pieces|
  {
    if |pieces| > 1 {
      assert ',' !in pieces[0];
      ImplodeSeparators(pieces[1..]);
    }
  }

  ghost predicate NoComma(pieces: seq<string>)
  {
    forall i :: 0 <= i < |pieces| ==> ',' !in pieces[i]
  }

  /** No piece of an explode result contains the separator. */
  lemma {:induction false} ExplodeHasNoComma(s: string)
    ensures NoComma(Explode(s))
    decreases |s|
  {
    if |s| > 0 {
      ExplodeHasNoComma(s[1..]);
      var rest := Explode(s[1..]);
      if s[0] != ',' {
        assert ',' !in rest[0];
        assert ',' !in [s[0]] + rest[0];
      }
    }
  }

  /** Gluing the pieces back together gives the exploded string. */
  lemma {:induction false} ImplodeExplode(s: string)
    ensures Implode(Explode(s)) == s
    decreases |s|
  {
    if |s| > 0 {
      ImplodeExplode(s[1..]);
      var rest := Explode(s[1..]);
      if s[0] == ',' {
        assert Explode(s) == [""] + rest;
        assert s == "," + s[1..];
      } else if |rest| == 1 {
        assert s == [s[0]] + s[1..];
      } else {
        assert Implode(rest) == rest[0] + "," + Implode(rest[1..]);
        var tail := rest[1..];
        assert Explode(s) == [[s[0]] + rest[0]] + tail;
        assert Explode(s)[1..] == tail;
        assert s == [s[0]] + s[1..];
      }
    }
  }

  lemma {:induction false} ExplodeWithoutComma(a: string)
    requires ',' !in a
    ensures Explode(a) == [a]
    decreases |a|
  {
    if |a| > 0 {
      assert ',' !in a[1..];
      ExplodeWithoutComma(a[1..]);
      assert [a[0]] + a[1..] == a;
    }
  }

  lemma {:induction false} ExplodeFirstComma(a: string, b: string)
    requires ',' !in a
    ensures Explode(a + "," + b) == [a] + Explode(b)
    decreases |a|
  {
    if |a| == 0 {
      assert a + "," + b == "," + b;
      assert ("," + b)[1..] == b;
    } else {
      var s := a + "," + b;
      assert s[0] == a[0];
      assert s[1..] == a[1..] + "," + b;
      assert ',' !in a[1..];
      ExplodeFirstComma(a[1..], b);
      assert [a[0]] + a[1..] == a;
    }
  }

  /** Exploding an implode of comma-free pieces gives the pieces back. */
  lemma {:induction false} ExplodeImplode(pieces: seq<string>)
    requires |pieces| >= 1
    requires NoComma(pieces)
    ensures Explode(Implode(pieces)) == pieces
    decreases |pieces|
  {
    assert ',' !in pieces[0];
    if |pieces| == 1 {
      ExplodeWithoutComma(pieces[0]);
    } else {
      ExplodeImplode(pieces[1..]);
      ExplodeFirstComma(pieces[0], Implode(pieces[1..]));
      assert [pieces[0]] + pieces[1..] == pieces;
    }
  }

  // ---------------------------------------------------------------------
  // Integers as decimal text, and the (int) cast of a string
  // ---------------------------------------------------------------------

  predicate IsDigit(c: char) { '0' <= c <= '9' }

  ghost predicate AllDigits(s: string)
  {
    forall i :: 0 <= i < |s| ==> IsDigit(s[i])
  }

  function DigitChar(d: nat): (c: char)
    requires d < 10
    ensures IsDigit(c) && c as int - '0' as int == d
  {
    ('0' as int + d) as char
  }

  /** Decimal digits of a natural number, most significant first. */
  function NatToDecimal(n: nat): (s: string)
    ensures |s| >= 1 && AllDigits(s)
  {
    if n < 10 then [DigitChar(n)]
    else NatToDecimal(n / 10) + [DigitChar(n % 10)]
  }

  /** What `'…' . $n . '…'` puts in the string for an integer `$n`. */
  function IntToDecimal(i: int): (s: string)
    ensures |s| >= 1 && ',' !in s
  {
    if i < 0 then "-" + NatToDecimal(-i) else NatToDecimal(i)
  }

  /** Value of a run of decimal digits (an empty run is 0). */
  function DigitsValue(ds: string): nat
    requires AllDigits(ds)
  {
    if |ds| == 0 then 0
    else DigitsValue(ds[..|ds| - 1]) * 10 + (ds[|ds| - 1] as int - '0' as int)
  }

  /** The longest prefix of `s` made of decimal digits. */
  function LeadingDigits(s: string): (p: string)
    ensures AllDigits(p) && p <= s
  {
    if |s| > 0 && IsDigit(s[0]) then [s[0]] + LeadingDigits(s[1..]) else []
  }

  predicate IsSpace(c: char)
  {
    c == ' ' || c == '\t' || c == '\n' || c == '\r' || c == '\U{000B}' || c == '\U{000C}'
  }

  function TrimLeadingSpace(s: string): (t: string)
    ensures |t| <= |s| && (|t| > 0 ==> !IsSpace(t[0]))
  {
    if |s| > 0 && IsSpace(s[0]) then TrimLeadingSpace(s[1..]) else s
  }

  /** Skipping white space drops a prefix and keeps the rest of the text as it was. */
  lemma {:induction false} TrimmedIsSuffix(s: string)
    ensures TrimLeadingSpace(s) == s[|s| - |TrimLeadingSpace(s)|..]
    decreases |s|
  {
    if |s| > 0 && IsSpace(s[0]) {
      TrimmedIsSuffix(s[1..]);
    }
  }

  /**
   * `(int) $s` for a decimal string: leading white space is skipped, one
   * sign is read, then the digits up to the first non-digit; a string
   * without leading digits is 0.
   */
  function IntCast(s: string): (v: int)
    ensures (forall i :: 0 <= i < |s| ==> !IsDigit(s[i])) ==> v == 0
  {
    var t := TrimLeadingSpace(s);
    TrimmedIsSuffix(s);
    if |t| > 0 && t[0] == '-' then -(DigitsValue(LeadingDigits(t[1..])) as int)
    else if |t| > 0 && t[0] == '+' then DigitsValue(LeadingDigits(t[1..]))
    else DigitsValue(LeadingDigits(t))
  }

  lemma {:induction false} DecimalValue(n: nat)
    ensures DigitsValue(NatToDecimal(n)) == n
  {
    if n >= 10 {
      DecimalValue(n / 10);
      var s := NatToDecimal(n);
      assert s[..|s| - 1] == NatToDecimal(n / 10);
    }
  }

  lemma {:induction false} LeadingDigitsStop(digits: string, rest: string)
    requires AllDigits(digits)
    requires |rest| == 0 || !IsDigit(rest[0])
    ensures LeadingDigits(digits + rest) == digits
    decreases |digits|
  {
    if |digits| == 0 {
      assert digits + rest == rest;
    } else {
      var s := digits + rest;
      assert IsDigit(digits[0]);
      assert s[0] == digits[0];
      assert s[1..] == digits[1..] + rest;
      LeadingDigitsStop(digits[1..], rest);
      assert [digits[0]] + digits[1..] == digits;
    }
  }

  /** The cast of a run of digits followed by non-digit text is the digits' value. */
  lemma CastOfDigitsThen(digits: string, rest: string)
    requires |digits| >= 1 && AllDigits(digits)
    requires |rest| == 0 || !IsDigit(rest[0])
    ensures IntCast(digits + rest) == DigitsValue(digits)
  {
    var s := digits + rest;
    assert s[0] == digits[0] && IsDigit(s[0]);
    assert TrimLeadingSpace(s) == s;
    LeadingDigitsStop(digits, rest);
  }

  /** The same after a minus sign: the negated value. */
  lemma CastOfNegativeDigitsThen(digits: string, rest: string)
    requires |digits| >= 1 && AllDigits(digits)
    requires |rest| == 0 || !IsDigit(rest[0])
    ensures IntCast("-" + (digits + rest)) == -(DigitsValue(digits) as int)
  {
    var s := "-" + (digits + rest);
    assert s[0] == '-';
    assert TrimLeadingSpace(s) == s;
    assert s[1..] == digits + rest;
    assert (digits + rest)[0] == digits[0];
    LeadingDigitsStop(digits, rest);
  }

  /**
   * The cast reads back an integer written as decimal text, whatever
   * non-digit text follows it.
   */
  lemma CastOfDecimalThen(i: int, rest: string)
    requires |rest| == 0 || !IsDigit(rest[0])
    ensures IntCast(IntToDecimal(i) + rest) == i
  {
    if i < 0 {
      var digits := NatToDecimal(-i);
      DecimalValue(-i);
      CastOfNegativeDigitsThen(digits, rest);
      assert IntToDecimal(i) + rest == "-" + (digits + rest);
    } else {
      DecimalValue(i);
      CastOfDigitsThen(NatToDecimal(i), rest);
    }
  }

  /** The cast reads back every integer written as decimal text. */
  lemma CastOfDecimal(i: int)
    ensures IntCast(IntToDecimal(i)) == i
  {
    CastOfDecimalThen(i, "");
    assert IntToDecimal(i) + "" == IntToDecimal(i);
  }

  /**
   * A non-empty list of integers survives `implode(',', …)` followed by
   * `explode(',', …)` and `(int)` on each piece. The empty list does not:
   * `explode(',', '')` is `['']`.
   */
  lemma DecimalListRoundTrip(ids: seq<int>)
    requires |ids| >= 1
    ensures |Explode(Implode(Decimals(ids)))| == |ids|
    ensures forall k :: 0 <= k < |ids| ==> IntCast(Explode(Implode(Decimals(ids)))[k]) == ids[k]
  {
    ExplodeImplode(Decimals(ids));
    forall k | 0 <= k < |ids|
      ensures IntCast(Decimals(ids)[k]) == ids[k]
    {
      CastOfDecimal(ids[k]);
    }
  }

  function Decimals(ids: seq<int>): (texts: seq<string>)
    ensures |texts| == |ids|
    ensures forall k :: 0 <= k < |ids| ==> texts[k] == IntToDecimal(ids[k])
  {
    seq(|ids|, k requires 0 <= k < |ids| => IntToDecimal(ids[k]))
  }

  // ---------------------------------------------------------------------
  // Truthiness
  // ---------------------------------------------------------------------

  /** `!$s` for an optional request string: null, "" and "0" are falsy. */
  predicate FalsyString(s: Option<string>)
  {
    s.None? || s.value == "" || s.value == "0"
  }

  /** `!$x` for an optional integer: null and 0 are falsy. */
  predicate FalsyInt(x: Option<int>)
  {
    x.None? || x.value == 0
  }
}
