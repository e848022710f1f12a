/** Decimal digits: rendering of integers (`str(n)`, used in the progress
    lines) and the budget scan, the first match of the regular expression
    `\$?(\d+(?:\.\d{2})?)` converted by `float(...)`. */
module Numbers {
  import opened Wrappers

  predicate IsDigit(c: char) { '0' <= c <= '9' }

  predicate AllDigits(s: string) { forall i :: 0 <= i < |s| ==> IsDigit(s[i]) }

  predicate NoDigits(s: string) { forall i :: 0 <= i < |s| ==> !IsDigit(s[i]) }

  function DigitValue(c: char): (d: nat)
    requires IsDigit(c)
    ensures d < 10
  {
    c as int - '0' as int
  }

  function DigitChar(d: nat): (c: char)
    requires d < 10
    ensures IsDigit(c) && DigitValue(c) == d
  {
    ('0' as int + d) as char
  }

  /** `int(ds)` for a non-empty run of ASCII digits (0 for the empty run). */
  function DigitsValue(ds: string): nat
    requires AllDigits(ds)
  {
    if ds == [] then 0 else DigitsValue(ds[..|ds| - 1]) * 10 + DigitValue(ds[|ds| - 1])
  }

  /** `str(n)` for a natural number: digits only, no leading zero, and
      reading them back gives `n`. */
  function NatToString(n: nat): (s: string)
    ensures s != [] && AllDigits(s)
    ensures DigitsValue(s) == n
    ensures s[0] == '0' <==> n == 0
    ensures |s| > 1 ==> s[0] != '0'
  {
    if n < 10 then [DigitChar(n)]
    else
      var prefix := NatToString(n / 10);
      var s := prefix + [DigitChar(n % 10)];
      assert s[..|s| - 1] == prefix;
      s
  }

  /** The leading digit is a lower bound of the value. */
  lemma {:induction false} LeadingDigitBound(s: string)
    requires s != [] && AllDigits(s)
    ensures DigitsValue(s) >= DigitValue(s[0])
  {
    if |s| > 1 {
      var s' := s[..|s| - 1];
      LeadingDigitBound(s');
    }
  }

  /** Digits without a leading zero are the rendering of their value: `str`
      has exactly one result for every natural number. */
  lemma {:induction false} CanonicalDigits(s: string)
    requires s != [] && AllDigits(s)
    requires |s| > 1 ==> s[0] != '0'
    ensures NatToString(DigitsValue(s)) == s
  {
    if |s| == 1 {
      assert DigitChar(DigitValue(s[0])) == s[0];
    } else {
      var s' := s[..|s| - 1];
      var c := s[|s| - 1];
      LeadingDigitBound(s');
      CanonicalDigits(s');
      var n := DigitsValue(s);
      assert n == DigitsValue(s') * 10 + DigitValue(c);
      DivMod10(DigitsValue(s'), DigitValue(c));
      assert DigitChar(DigitValue(c)) == c;
      assert s == s' + [c];
    }
  }

  lemma DivMod10(q: nat, r: nat)
    requires r < 10
    ensures (q * 10 + r) / 10 == q && (q * 10 + r) % 10 == r
  {
  }

  /** `str(i)` for any integer: a `-` before the digits of a negative
      number, and no leading zero. */
  function IntToString(i: int): (s: string)
    ensures s != []
    ensures i >= 0 ==> AllDigits(s) && DigitsValue(s) == i
    ensures i >= 0 && |s| > 1 ==> s[0] != '0'
    ensures i < 0 ==> s[0] == '-' && AllDigits(s[1..]) && DigitsValue(s[1..]) == -i
    ensures i < 0 ==> |s| >= 2 && s[1] != '0'
  {
    if i < 0 then "-" + NatToString(-i) else NatToString(i)
  }

  /** Length of the longest run of digits at the front of `s` (greedy `\d*`). */
  function DigitRun(s: string): (n: nat)
    ensures n <= |s| && AllDigits(s[..n])
    ensures n < |s| ==> !IsDigit(s[n])
  {
    if s != [] && IsDigit(s[0]) then
      var n := 1 + DigitRun(s[1..]);
      assert s[..n] == [s[0]] + s[1..][..n - 1];
      n
    else 0
  }

  /** Index of the first digit of `s`, if any. */
  function FirstDigit(s: string): (r: Option<nat>)
    ensures r.Some? ==> r.value < |s| && IsDigit(s[r.value]) && NoDigits(s[..r.value])
    ensures r.None? ==> NoDigits(s)
  {
    if s == [] then None
    else if IsDigit(s[0]) then Some(0)
    else match FirstDigit(s[1..])
      case None => None
      case Some(k) =>
        assert s[..k + 1] == [s[0]] + s[1..][..k];
        Some(k + 1)
  }

  /** The value of the two decimals `.c1c2`. */
  function Cents(c1: char, c2: char): (r: real)
    requires IsDigit(c1) && IsDigit(c2)
    ensures 0.0 <= r < 1.0
  {
    (10 * DigitValue(c1) + DigitValue(c2)) as real / 100.0
  }

  /** The decimals match at `j`: `.` and two digits follow. */
  predicate CentsAt(s: string, j: nat)
  {
    j + 2 < |s| && s[j] == '.' && IsDigit(s[j + 1]) && IsDigit(s[j + 2])
  }

  /** The cents matched at `j`, or nothing. */
  function CentsValueAt(s: string, j: nat): (r: real)
    ensures CentsAt(s, j) ==> r == Cents(s[j + 1], s[j + 2])
    ensures !CentsAt(s, j) ==> r == 0.0
  {
    if CentsAt(s, j) then Cents(s[j + 1], s[j + 2]) else 0.0
  }

  /** The amount matched at the digit that starts at `i`: the greedy digit run,
      then `.` and exactly two digits if they follow. */
  function AmountAt(s: string, i: nat): real
    requires i < |s| && IsDigit(s[i])
  {
    var n := DigitRun(s[i..]);
    var j := i + n;
    assert s[i..j] == s[i..][..n];
    Amount(DigitsValue(s[i..j]), CentsValueAt(s, j))
  }

  /** A whole part and its cents as one amount. */
  function Amount(whole: nat, cents: real): real
  {
    whole as real + cents
  }

  /** `float(re.findall(r'\$?(\d+(?:\.\d{2})?)', s)[0])`, or None when there is
      no match. The optional `$` never changes the captured group, so the
      first match always starts its group at the first digit of `s`. */
  function FirstAmount(s: string): (r: Option<real>)
    ensures r.Some? <==> exists k :: 0 <= k < |s| && IsDigit(s[k])
    ensures r.Some? ==> r.value >= 0.0
  {
    match FirstDigit(s)
    case None => None
    case Some(i) => Some(AmountAt(s, i))
  }

  lemma {:induction false} DigitRunOf(d: string, rest: string)
    requires AllDigits(d)
    requires rest == [] || !IsDigit(rest[0])
    ensures DigitRun(d + rest) == |d|
  {
    if d != [] {
      assert (d + rest)[1..] == d[1..] + rest;
      DigitRunOf(d[1..], rest);
    }
  }

  lemma {:induction false} FirstDigitOf(p: string, t: string)
    requires NoDigits(p)
    requires t != [] && IsDigit(t[0])
    ensures FirstDigit(p + t) == Some(|p|)
  {
    if p != [] {
      assert (p + t)[1..] == p[1..] + t;
      FirstDigitOf(p[1..], t);
    }
  }

  /** Scanning text that carries a run of digits after digit-free text,
      when no digit and no `.` with two digits follow the run, gives back
      the run's value: `$150.` and `12.5` read 150 and 12, `$0150` reads 150. */
  lemma FirstAmountOfWhole(p: string, d: string, rest: string)
    requires NoDigits(p)
    requires d != [] && AllDigits(d)
    requires rest == [] || !IsDigit(rest[0])
    requires !(|rest| >= 3 && rest[0] == '.' && IsDigit(rest[1]) && IsDigit(rest[2]))
    ensures FirstAmount(p + d + rest) == Some(DigitsValue(d) as real)
  {
    assert p + d + rest == p + (d + rest);
    RunAfter(p, d, rest);
    NoCentsAfterRun(p, d, rest);
    AmountFrom(p + (d + rest), |p|, d);
  }

  lemma NoCentsAfterRun(p: string, d: string, rest: string)
    requires !(|rest| >= 3 && rest[0] == '.' && IsDigit(rest[1]) && IsDigit(rest[2]))
    ensures CentsValueAt(p + (d + rest), |p| + |d|) == 0.0
  {
    var s := p + (d + rest);
    var j := |p| + |d|;
    assert j < |s| ==> s[j] == rest[0];
    assert j + 2 < |s| ==> s[j + 1] == rest[1] && s[j + 2] == rest[2];
  }

  /** In particular a rendered whole number is read back as itself. */
  lemma FirstAmountOfNat(p: string, n: nat, rest: string)
    requires NoDigits(p)
    requires rest == [] || (!IsDigit(rest[0]) && rest[0] != '.')
    ensures FirstAmount(p + NatToString(n) + rest) == Some(n as real)
  {
    FirstAmountOfWhole(p, NatToString(n), rest);
  }

  /** The digit run found after digit-free text `p` is the run `d`. */
  lemma RunAfter(p: string, d: string, tail: string)
    requires NoDigits(p)
    requires d != [] && AllDigits(d)
    requires tail == [] || !IsDigit(tail[0])
    ensures FirstDigit(p + (d + tail)) == Some(|p|)
    ensures DigitRun((p + (d + tail))[|p|..]) == |d|
    ensures (p + (d + tail))[|p|..|p| + |d|] == d
  {
    var s := p + (d + tail);
    FirstDigitOf(p, d + tail);
    assert s[|p|..] == d + tail;
    DigitRunOf(d, tail);
    assert s[|p|..|p| + |d|] == d;
  }

  /** The scan reads the run `d` at the first digit, then the cents after it. */
  lemma AmountFrom(s: string, i: nat, d: string)
    requires FirstDigit(s) == Some(i)
    requires AllDigits(d) && DigitRun(s[i..]) == |d| && i + |d| <= |s| && s[i..i + |d|] == d
    ensures FirstAmount(s) == Some(Amount(DigitsValue(d), CentsValueAt(s, i + |d|)))
  {
    FirstAmountAt(s, i);
    AmountAtRun(s, i, d);
  }

  lemma AmountWithCents(s: string, i: nat, d: string, c: real)
    requires FirstDigit(s) == Some(i)
    requires AllDigits(d) && DigitRun(s[i..]) == |d| && i + |d| <= |s| && s[i..i + |d|] == d
    requires CentsValueAt(s, i + |d|) == c
    ensures FirstAmount(s) == Some(Amount(DigitsValue(d), c))
  {
    AmountFrom(s, i, d);
  }

  lemma FirstAmountAt(s: string, i: nat)
    requires FirstDigit(s) == Some(i)
    ensures i < |s| && IsDigit(s[i])
    ensures FirstAmount(s) == Some(AmountAt(s, i))
  {
  }

  lemma AmountAtRun(s: string, i: nat, d: string)
    requires i < |s| && IsDigit(s[i])
    requires AllDigits(d) && DigitRun(s[i..]) == |d| && i + |d| <= |s| && s[i..i + |d|] == d
    ensures AmountAt(s, i) == Amount(DigitsValue(d), CentsValueAt(s, i + |d|))
  {
  }

  lemma AmountAtCents(p: string, d: string, tail: string, c1: char, c2: char)
    requires NoDigits(p)
    requires d != [] && AllDigits(d)
    requires IsDigit(c1) && IsDigit(c2)
    requires |tail| >= 3 && tail[0] == '.' && tail[1] == c1 && tail[2] == c2
    ensures FirstAmount(p + (d + tail)) == Some(Amount(DigitsValue(d), Cents(c1, c2)))
  {
    RunAfter(p, d, tail);
    CentsAfterRun(p, d, tail, c1, c2);
    AmountWithCents(p + (d + tail), |p|, d, Cents(c1, c2));
  }

  lemma CentsAfterRun(p: string, d: string, tail: string, c1: char, c2: char)
    requires IsDigit(c1) && IsDigit(c2)
    requires |tail| >= 3 && tail[0] == '.' && tail[1] == c1 && tail[2] == c2
    ensures CentsValueAt(p + (d + tail), |p| + |d|) == Cents(c1, c2)
  {
    var s := p + (d + tail);
    var j := |p| + |d|;
    assert s[j] == '.' && s[j + 1] == c1 && s[j + 2] == c2;
  }

  /** With `.` and two digits after the whole part the cents are added, and
      whatever follows them is ignored (`12.345` scans as 12.34). */
  lemma FirstAmountWithCents(p: string, d: string, c1: char, c2: char, rest: string)
    requires NoDigits(p)
    requires d != [] && AllDigits(d)
    requires IsDigit(c1) && IsDigit(c2)
    ensures FirstAmount(p + d + ['.', c1, c2] + rest) == Some(Amount(DigitsValue(d), Cents(c1, c2)))
  {
    var tail := ['.', c1, c2] + rest;
    assert p + d + ['.', c1, c2] + rest == p + (d + tail);
    AmountAtCents(p, d, tail, c1, c2);
  }

  /** A trailing `.` is not part of the amount: `$150.` reads 150. */
  lemma ScanTrailingDot()
    ensures FirstAmount("$150.") == Some(150.0)
  {
    assert "150"[..2] == "15" && "15"[..1] == "1" && "1"[..0] == "";
    assert DigitsValue("150") == 150;
    assert "$" + "150" + "." == "$150.";
    FirstAmountOfWhole("$", "150", ".");
  }

  /** A single decimal is not part of the amount: `12.5` reads 12. */
  lemma ScanOneDecimal()
    ensures FirstAmount("12.5") == Some(12.0)
  {
    assert "12"[..1] == "1" && "1"[..0] == "";
    assert DigitsValue("12") == 12;
    assert "" + "12" + ".5" == "12.5";
    FirstAmountOfWhole("", "12", ".5");
  }

  /** Leading zeros are read as part of the number: `$0150` reads 150. */
  lemma ScanLeadingZero()
    ensures FirstAmount("$0150") == Some(150.0)
  {
    assert "0150"[..3] == "015" && "015"[..2] == "01" && "01"[..1] == "0" && "0"[..0] == "";
    assert DigitsValue("0150") == 150;
    assert "$" + "0150" + "" == "$0150";
    FirstAmountOfWhole("$", "0150", "");
  }

  /** A thousands separator ends the number: `$1,500` reads 1. */
  lemma ScanThousandsComma()
    ensures FirstAmount("$1,500") == Some(1.0)
  {
    assert "1"[..0] == "";
    assert DigitsValue("1") == 1;
    assert "$" + "1" + ",500" == "$1,500";
    FirstAmountOfWhole("$", "1", ",500");
  }

  /** Only two decimals are read: `12.345` reads 12.34. */
  lemma ScanThirdDecimal()
    ensures FirstAmount("12.345") == Some(12.34)
  {
    assert "12"[..1] == "1" && "1"[..0] == "";
    assert DigitsValue("12") == 12;
    assert Cents('3', '4') == 0.34;
    assert "" + "12" + ['.', '3', '4'] + "5" == "12.345";
    FirstAmountWithCents("", "12", '3', '4', "5");
  }
}
