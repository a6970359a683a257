/**
 * The JavaScript string operations the two pages rely on: `Array.prototype.join`,
 * the decimal rendering of an integer inside a template literal (`${n}`), and
 * `parseInt` as applied to the value of a number input.
 */
module Text {
  import opened Wrappers

  /** `parts.join(sep)`: the parts with `sep` between neighbours, "" for no parts. */
  function Join(parts: seq<string>, sep: string): string
  {
    if |parts| == 0 then ""
    else if |parts| == 1 then parts[0]
    else Join(parts[..|parts| - 1], sep) + sep + parts[|parts| - 1]
  }

  /** A join starts with its first part and ends with its last. */
  lemma {:induction false} JoinEnds(parts: seq<string>, sep: string)
    requires |parts| > 0
    ensures var r, first, last := Join(parts, sep), parts[0], parts[|parts| - 1];
      |r| >= |first| && r[..|first|] == first && |r| >= |last| && r[|r| - |last|..] == last
  {
    if |parts| > 1 {
      var init := parts[..|parts| - 1];
      JoinEnds(init, sep);
      var j := Join(init, sep);
      assert init[0] == parts[0];
      assert Join(parts, sep) == j + (sep + parts[|parts| - 1]);
      assert (j + (sep + parts[|parts| - 1]))[..|parts[0]|] == j[..|parts[0]|];
    }
  }

  /** Joining two non-empty lists of parts puts one separator between the two joins. */
  lemma {:induction false} JoinConcat(a: seq<string>, b: seq<string>, sep: string)
    requires |a| > 0 && |b| > 0
    ensures Join(a + b, sep) == Join(a, sep) + sep + Join(b, sep)
    decreases |b|
  {
    var ab := a + b;
    if |b| == 1 {
      assert ab[..|ab| - 1] == a;
    } else {
      var b' := b[..|b| - 1];
      assert ab[..|ab| - 1] == a + b';
      assert b[..|b| - 1] == b';
      JoinConcat(a, b', sep);
    }
  }

  /**
   * Interpolating `b.join(sep)` as one part of a larger join is the same as joining
   * the parts of `b` individually, provided `b` is not empty.
   */
  lemma JoinFlatten(a: seq<string>, b: seq<string>, c: seq<string>, sep: string)
    requires |b| > 0
    ensures Join(a + [Join(b, sep)] + c, sep) == Join(a + b + c, sep)
  {
    var jb := [Join(b, sep)];
    assert Join(jb, sep) == Join(b, sep);
    if |a| > 0 {
      JoinConcat(a, jb, sep);
      JoinConcat(a, b, sep);
    }
    var ab := a + b;
    var ajb := a + jb;
    assert |a| == 0 ==> ajb == jb && ab == b;
    assert Join(ajb, sep) == Join(ab, sep);
    if |c| > 0 {
      JoinConcat(ajb, c, sep);
      JoinConcat(ab, c, sep);
    } else {
      assert ajb + c == ajb && ab + c == ab;
    }
    assert a + [Join(b, sep)] + c == ajb + c;
    assert a + b + c == ab + c;
  }

  predicate IsDigit(c: char)
  {
    '0' <= c <= '9'
  }

  predicate AllDigits(s: string)
  {
    forall i :: 0 <= i < |s| ==> IsDigit(s[i])
  }

  function DigitChar(d: nat): (c: char)
    requires d < 10
    ensures IsDigit(c) && c as int - '0' as int == d
  {
    ('0' as int + d) as char
  }

  /** The decimal numeral of `n`, most significant digit first, without leading zeros. */
  function NatToString(n: nat): (s: string)
    ensures |s| > 0 && AllDigits(s)
    ensures s[0] == '0' ==> n == 0
  {
    if n < 10 then [DigitChar(n)] else NatToString(n / 10) + [DigitChar(n % 10)]
  }

  /** `${n}` for an integer-valued JavaScript number: a minus sign before negative values. */
  function IntToString(n: int): (s: string)
    ensures |s| > 0
    ensures (s[0] == '-') <==> n < 0
  {
    if n < 0 then "-" + NatToString(-n) else NatToString(n)
  }

  /** The value of a string of decimal digits. */
  function DigitsValue(s: string): nat
    requires AllDigits(s)
  {
    if |s| == 0 then 0 else DigitsValue(s[..|s| - 1]) * 10 + (s[|s| - 1] as int - '0' as int)
  }

  /** Reading back a rendered numeral yields the number. */
  lemma {:induction false} DigitsValueOfNatToString(n: nat)
    ensures DigitsValue(NatToString(n)) == n
  {
    var s := NatToString(n);
    if n >= 10 {
      DigitsValueOfNatToString(n / 10);
      assert s[..|s| - 1] == NatToString(n / 10);
    }
  }

  /** The length of the longest prefix of `s` made only of decimal digits. */
  function DigitPrefixLength(s: string): (k: nat)
    ensures k <= |s|
    ensures AllDigits(s[..k])
    ensures k < |s| ==> !IsDigit(s[k])
  {
    if |s| == 0 || !IsDigit(s[0]) then 0
    else
      var k := 1 + DigitPrefixLength(s[1..]);
      assert s[..k] == [s[0]] + s[1..][..k - 1];
      k
  }

  /** The digits `parseInt` will read: what follows an optional leading sign. */
  function Unsigned(s: string): string
  {
    if |s| > 0 && (s[0] == '-' || s[0] == '+') then s[1..] else s
  }

  /**
   * `parseInt(s)` (no radix) on the strings a number input produces: an optional sign,
   * then the longest run of decimal digits, the rest ignored; `None` stands for `NaN`,
   * the outcome when no digit follows the sign.
   */
  function ParseInt(s: string): (r: Option<int>)
    ensures r.None? <==> DigitPrefixLength(Unsigned(s)) == 0
    ensures r.Some? && r.value < 0 ==> s[0] == '-'
  {
    var body := Unsigned(s);
    var k := DigitPrefixLength(body);
    if k == 0 then None
    else
      var v: int := DigitsValue(body[..k]);
      Some(if |s| > 0 && s[0] == '-' then -v else v)
  }

  /** A digit run followed by text that does not start with a digit is read up to the run's end. */
  lemma {:induction false} DigitPrefixOfDigitsThen(s: string, t: string)
    requires AllDigits(s)
    requires t == "" || !IsDigit(t[0])
    ensures DigitPrefixLength(s + t) == |s|
  {
    if |s| > 0 {
      DigitPrefixOfDigitsThen(s[1..], t);
      assert (s + t)[1..] == s[1..] + t;
    } else {
      assert s + t == t;
    }
  }

  /**
   * `parseInt` reads back an integer's numeral from the front of a string, whatever
   * non-digit text follows it (so "2.5" reads 2 and "1e3" reads 1).
   */
  lemma ParseIntOfNumeralThen(n: int, t: string)
    requires t == "" || !IsDigit(t[0])
    ensures ParseInt(IntToString(n) + t) == Some(n)
  {
    var m: nat := if n < 0 then -n else n;
    var digits := NatToString(m);
    var s := IntToString(n) + t;
    assert Unsigned(s) == digits + t by {
      if n < 0 {
        assert s == "-" + (digits + t);
        assert ("-" + (digits + t))[1..] == digits + t;
      } else {
        assert s == digits + t;
        assert IsDigit(s[0]);
      }
    }
    DigitPrefixOfDigitsThen(digits, t);
    assert (digits + t)[..|digits|] == digits;
    DigitsValueOfNatToString(m);
    assert s[0] == IntToString(n)[0];
    assert (s[0] == '-') <==> n < 0;
  }

  /** `parseInt` inverts the decimal rendering of every integer. */
  lemma ParseIntOfIntToString(n: int)
    ensures ParseInt(IntToString(n)) == Some(n)
  {
    ParseIntOfNumeralThen(n, "");
    assert IntToString(n) + "" == IntToString(n);
  }
}
