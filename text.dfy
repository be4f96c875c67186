/**
 * The parts of Go's `strconv` and `strings` packages that the load-balancer
 * resource relies on, over `string = seq<char>`: decimal formatting and
 * parsing of integers, single-character replacement, ASCII upper-casing,
 * prefix tests, and splitting/joining on a separator.
 */
module Text {
  import opened Outcomes

  predicate IsDigit(c: char) {
    '0' <= c <= '9'
  }

  predicate AllDigits(s: string) {
    forall i :: 0 <= i < |s| ==> IsDigit(s[i])
  }

  function DigitChar(d: nat): (c: char)
    requires d < 10
    ensures IsDigit(c)
  {
    ('0' as int + d) as char
  }

  function DigitValue(c: char): (d: nat)
    requires IsDigit(c)
    ensures d < 10 && DigitChar(d) == c
  {
    c as int - '0' as int
  }

  /** Decimal digits of `n`, most significant first, with no leading zero. */
  function NatToDecimal(n: nat): (s: string)
    ensures |s| >= 1 && AllDigits(s)
    ensures |s| > 1 ==> s[0] != '0'
    ensures n < 10 <==> |s| == 1
    decreases n
  {
    if n < 10 then [DigitChar(n)] else NatToDecimal(n / 10) + [DigitChar(n % 10)]
  }

  /** `strconv.Itoa`: a leading '-' for negative numbers, then the digits of |n|. */
  function Itoa(n: int): (s: string)
    ensures |s| >= 1
    ensures (s[0] == '-') <==> n < 0
    ensures forall i :: 0 <= i < |s| ==> IsDigit(s[i]) || (i == 0 && s[i] == '-')
    ensures n >= 0 && |s| > 1 ==> s[0] != '0'
    ensures n < 0 ==> |s| > 1 && s[1] != '0'
  {
    if n < 0 then "-" + NatToDecimal(-n) else NatToDecimal(n)
  }

  /** The value of a run of decimal digits (the empty run is 0). */
  function DecimalValue(s: string): nat
    requires AllDigits(s)
  {
    if s == [] then 0 else DecimalValue(s[..|s| - 1]) * 10 + DigitValue(s[|s| - 1])
  }

  /** `s` without its leading sign, if it has one. */
  function Unsigned(s: string): string {
    if |s| > 0 && (s[0] == '-' || s[0] == '+') then s[1..] else s
  }

  /** Whether `strconv.Atoi` accepts `s`: an optional sign followed by at least one digit. */
  predicate AtoiSyntax(s: string) {
    |Unsigned(s)| > 0 && AllDigits(Unsigned(s))
  }

  /** A run of digits without its leading zeros, keeping at least one digit. */
  function StripZeros(d: string): (t: string)
    requires |d| > 0 && AllDigits(d)
    ensures |t| > 0 && AllDigits(t) && (|t| > 1 ==> t[0] != '0')
  {
    if |d| > 1 && d[0] == '0' then StripZeros(d[1..]) else d
  }

  /**
   * The spelling `strconv.Itoa` gives the number an accepted string denotes:
   * no '+', no leading zeros, and no sign on zero.
   */
  function CanonicalInt(s: string): string
    requires AtoiSyntax(s)
  {
    var digits := StripZeros(Unsigned(s));
    if s[0] == '-' && digits != "0" then "-" + digits else digits
  }

  /**
   * `strconv.Atoi`: `None` stands for its syntax error. Values are unbounded,
   * so the 64-bit range error is not modelled. The value is the one whose
   * decimal spelling is the canonical form of `s`.
   */
  function Atoi(s: string): (r: Option<int>)
    ensures r.Some? <==> AtoiSyntax(s)
    ensures r.Some? ==> Itoa(r.value) == CanonicalInt(s)
  {
    if !AtoiSyntax(s) then None
    else
      var magnitude: int := DecimalValue(Unsigned(s));
      ItoaOfDigits(Unsigned(s));
      Some(if s[0] == '-' then -magnitude else magnitude)
  }

  /** A leading zero does not change the value of a run of digits. */
  lemma {:induction false} LeadingZeroValue(t: string)
    requires AllDigits(t)
    ensures AllDigits(['0'] + t) && DecimalValue(['0'] + t) == DecimalValue(t)
    decreases |t|
  {
    var z := ['0'] + t;
    if t == [] {
      assert z[..|z| - 1] == [];
    } else {
      LeadingZeroValue(t[..|t| - 1]);
      assert z[..|z| - 1] == ['0'] + t[..|t| - 1];
    }
  }

  lemma {:induction false} StripZerosValue(d: string)
    requires |d| > 0 && AllDigits(d)
    ensures DecimalValue(StripZeros(d)) == DecimalValue(d)
    decreases |d|
  {
    if |d| > 1 && d[0] == '0' {
      StripZerosValue(d[1..]);
      LeadingZeroValue(d[1..]);
      assert ['0'] + d[1..] == d;
    }
  }

  /** A run of digits with no leading zero is worth at least 1, unless it is "0". */
  lemma {:induction false} CanonicalDigitsPositive(t: string)
    requires |t| > 0 && AllDigits(t) && (|t| > 1 ==> t[0] != '0')
    ensures |t| > 1 ==> DecimalValue(t) >= 10
    ensures t != "0" ==> DecimalValue(t) >= 1
    decreases |t|
  {
    if |t| > 1 {
      var u := t[..|t| - 1];
      CanonicalDigitsPositive(u);
      assert u[0] == t[0];
      if |u| == 1 {
        assert u != "0";
      }
    } else if t != "0" {
      assert t == [t[0]];
      assert t[0] != '0';
    }
  }

  /** NatToDecimal spells a run of digits without leading zeros back exactly. */
  lemma {:induction false} NatToDecimalOfValue(t: string)
    requires |t| > 0 && AllDigits(t) && (|t| > 1 ==> t[0] != '0')
    ensures NatToDecimal(DecimalValue(t)) == t
    decreases |t|
  {
    var u := t[..|t| - 1];
    if |t| == 1 {
      assert u == [];
      assert t == [t[0]];
    } else {
      assert u[0] == t[0];
      CanonicalDigitsPositive(t);
      NatToDecimalOfValue(u);
      assert t == u + [t[|t| - 1]];
    }
  }

  /** The digits of an accepted string, read and spelled again, are its canonical digits. */
  lemma ItoaOfDigits(d: string)
    requires |d| > 0 && AllDigits(d)
    ensures NatToDecimal(DecimalValue(d)) == StripZeros(d)
    ensures DecimalValue(d) == 0 <==> StripZeros(d) == "0"
  {
    StripZerosValue(d);
    NatToDecimalOfValue(StripZeros(d));
    CanonicalDigitsPositive(StripZeros(d));
  }

  /** The message `strconv.Atoi` puts in its syntax error (quoting without escapes). */
  function AtoiSyntaxError(s: string): string {
    "strconv.Atoi: parsing \"" + s + "\": invalid syntax"
  }

  lemma {:induction false} DecimalValueOfNatToDecimal(n: nat)
    ensures DecimalValue(NatToDecimal(n)) == n
    decreases n
  {
    var s := NatToDecimal(n);
    if n < 10 {
      assert s[..|s| - 1] == [];
    } else {
      DecimalValueOfNatToDecimal(n / 10);
      assert s[..|s| - 1] == NatToDecimal(n / 10);
    }
  }

  /** Formatting with Itoa and parsing back with Atoi gives the number back. */
  lemma AtoiItoa(n: int)
    ensures Atoi(Itoa(n)) == Some(n)
  {
    if n < 0 {
      DecimalValueOfNatToDecimal(-n);
      assert Itoa(n)[1..] == NatToDecimal(-n);
    } else {
      DecimalValueOfNatToDecimal(n);
    }
  }

  lemma ItoaInjective(a: int, b: int)
    ensures Itoa(a) == Itoa(b) <==> a == b
  {
    AtoiItoa(a);
    AtoiItoa(b);
  }

  /** `strings.Replace(s, from, to, -1)` for one-character `from` and `to`. */
  function Replace(s: string, from: char, to: char): (r: string)
    ensures |r| == |s|
    ensures from != to ==> forall i :: 0 <= i < |r| ==> r[i] != from
    ensures forall i :: 0 <= i < |s| && s[i] != from ==> r[i] == s[i]
    ensures forall i :: 0 <= i < |s| && s[i] == from ==> r[i] == to
  {
    if s == [] then [] else [if s[0] == from then to else s[0]] + Replace(s[1..], from, to)
  }

  function UpperChar(c: char): char {
    if 'a' <= c <= 'z' then (c as int - 'a' as int + 'A' as int) as char else c
  }

  /** `strings.ToUpper`, restricted to ASCII letters. */
  function ToUpper(s: string): (r: string)
    ensures |r| == |s|
    ensures forall i :: 0 <= i < |r| ==> !('a' <= r[i] <= 'z')
    ensures forall i :: 0 <= i < |s| && !('a' <= s[i] <= 'z') ==> r[i] == s[i]
    ensures forall i :: 0 <= i < |s| && 'a' <= s[i] <= 'z' ==> r[i] == (s[i] as int - 'a' as int + 'A' as int) as char
  {
    if s == [] then [] else [UpperChar(s[0])] + ToUpper(s[1..])
  }

  /** `strings.HasPrefix`. */
  predicate HasPrefix(s: string, prefix: string) {
    |prefix| <= |s| && s[..|prefix|] == prefix
  }

  function CountChar(s: string, c: char): nat {
    if s == [] then 0 else (if s[0] == c then 1 else 0) + CountChar(s[1..], c)
  }

  /**
   * `strings.Split(s, [sep])`: the pieces between occurrences of `sep`.
   * As in Go, the empty string splits into one empty piece.
   */
  function Split(s: string, sep: char): (parts: seq<string>)
    ensures |parts| == CountChar(s, sep) + 1
    ensures forall i :: 0 <= i < |parts| ==> sep !in parts[i]
  {
    if s == [] then [""]
    else
      var rest := Split(s[1..], sep);
      if s[0] == sep then [""] + rest else [[s[0]] + rest[0]] + rest[1..]
  }

  /** `strings.Join`. */
  function Join(parts: seq<string>, sep: string): string {
    if parts == [] then ""
    else if |parts| == 1 then parts[0]
    else parts[0] + sep + Join(parts[1..], sep)
  }

  /** Joining two or four parts, spelled out. */
  lemma JoinTwoFour(a: string, b: string, c: string, d: string, sep: string)
    ensures Join([a, b], sep) == a + sep + b
    ensures Join([a, b, c, d], sep) == a + sep + (b + sep + (c + sep + d))
  {
    var two, four := [a, b], [a, b, c, d];
    assert two[1..] == [b];
    assert four[1..] == [b, c, d] && four[1..][1..] == [c, d] && four[1..][1..][1..] == [d];
    assert Join([c, d], sep) == c + sep + d;
    assert Join([b, c, d], sep) == b + sep + (c + sep + d);
  }

  /** Joining the pieces of a split with the separator restores the string. */
  lemma {:induction false} JoinSplit(s: string, sep: char)
    ensures Join(Split(s, sep), [sep]) == s
  {
    if s != [] {
      JoinSplit(s[1..], sep);
      var rest := Split(s[1..], sep);
      if s[0] == sep {
        assert Split(s, sep) == [""] + rest;
        assert (([""] + rest)[1..]) == rest;
      } else {
        var parts := [[s[0]] + rest[0]] + rest[1..];
        assert Split(s, sep) == parts;
        if |rest| > 1 {
          assert parts[1..] == rest[1..];
          assert Join(rest, [sep]) == rest[0] + [sep] + Join(rest[1..], [sep]);
        }
      }
    }
  }

  /** Equal text around two strings leaves the two strings equal. */
  lemma CancelAround(head: string, a: string, b: string, tail: string)
    requires head + a + tail == head + b + tail
    ensures a == b
  {
    assert |a| == |b|;
    assert a == (head + a + tail)[|head|..|head| + |a|];
    assert b == (head + b + tail)[|head|..|head| + |b|];
  }

  /** A string with no separator in it is a single piece. */
  lemma {:induction false} SplitWithoutSeparator(s: string, sep: char)
    requires sep !in s
    ensures Split(s, sep) == [s]
  {
    if s != [] {
      assert s[0] != sep && sep !in s[1..];
      SplitWithoutSeparator(s[1..], sep);
      assert [s[0]] + s[1..] == s;
    }
  }

  lemma {:induction false} CountCharAppend(a: string, b: string, c: char)
    ensures CountChar(a + b, c) == CountChar(a, c) + CountChar(b, c)
  {
    if a == [] {
      assert a + b == b;
    } else {
      assert (a + b)[1..] == a[1..] + b;
      CountCharAppend(a[1..], b, c);
    }
  }

  lemma {:induction false} CountCharZero(s: string, c: char)
    ensures CountChar(s, c) == 0 <==> c !in s
  {
    if s != [] {
      CountCharZero(s[1..], c);
      assert s == [s[0]] + s[1..];
    }
  }
}
