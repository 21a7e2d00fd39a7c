/** Small shared vocabulary: an optional value and the decimal rendering that
    JavaScript template strings apply to integers (`${n}`). */
module Common {

  datatype Option<+T> = None | Some(value: T)

  predicate IsDigit(c: char) {
    '0' <= c <= '9'
  }

  function DigitChar(d: nat): (c: char)
    requires d < 10
    ensures IsDigit(c)
  {
    ['0', '1', '2', '3', '4', '5', '6', '7', '8', '9'][d]
  }

  function DigitValue(c: char): (d: nat)
    requires IsDigit(c)
    ensures d < 10
  {
    (c as int - '0' as int) as nat
  }

  /** Decimal digits of `n`, most significant first, without leading zeros. */
  function NatToString(n: nat): (s: string)
    ensures |s| >= 1
    ensures forall i :: 0 <= i < |s| ==> IsDigit(s[i])
    ensures s[0] == '0' <==> n == 0
    decreases n
  {
    if n < 10 then [DigitChar(n)] else NatToString(n / 10) + [DigitChar(n % 10)]
  }

  /** Value of a string of decimal digits. */
  function ParseNat(s: string): nat
    requires forall i :: 0 <= i < |s| ==> IsDigit(s[i])
    decreases |s|
  {
    if s == [] then 0 else 10 * ParseNat(s[..|s| - 1]) + DigitValue(s[|s| - 1])
  }

  lemma {:induction false} ParseNatToString(n: nat)
    ensures ParseNat(NatToString(n)) == n
    decreases n
  {
    var s := NatToString(n);
    if n < 10 {
      assert s[..|s| - 1] == [];
    } else {
      ParseNatToString(n / 10);
      assert s[..|s| - 1] == NatToString(n / 10);
    }
  }

  /** A digit string with a non-zero first digit denotes a positive number. */
  lemma {:induction false} ParseNatPositive(t: string)
    requires |t| >= 1 && t[0] != '0'
    requires forall i :: 0 <= i < |t| ==> IsDigit(t[i])
    ensures ParseNat(t) >= 1
    decreases |t|
  {
    if |t| > 1 {
      ParseNatPositive(t[..|t| - 1]);
    }
  }

  /** The rendering is the only canonical numeral for `n`: every digit string
      without a leading zero (other than "0" itself) that denotes `n` is
      `NatToString(n)`. */
  lemma {:induction false} NatToStringCanonical(t: string, n: nat)
    requires |t| >= 1 && forall i :: 0 <= i < |t| ==> IsDigit(t[i])
    requires t[0] == '0' ==> |t| == 1
    requires ParseNat(t) == n
    ensures t == NatToString(n)
    decreases |t|
  {
    var m := |t| - 1;
    var p := t[..m];
    if m == 0 {
      assert p == [];
      assert DigitChar(DigitValue(t[0])) == t[0];
    } else {
      ParseNatPositive(p);
      assert n / 10 == ParseNat(p) && n % 10 == DigitValue(t[m]);
      NatToStringCanonical(p, n / 10);
      assert DigitChar(DigitValue(t[m])) == t[m];
      assert t == p + [t[m]];
    }
  }

  /** How `${i}` renders an integer: a minus sign for negatives, then the digits. */
  function IntToString(i: int): (s: string)
    ensures |s| >= 1
    ensures (i < 0) <==> (s[0] == '-')
  {
    if i < 0 then "-" + NatToString(-i) else NatToString(i)
  }

  /** The digits that follow the optional minus sign denote the magnitude,
      with no leading zero. */
  lemma IntToStringValue(i: int)
    ensures var s := IntToString(i);
            if i < 0 then
              |s| >= 2 && (forall k :: 1 <= k < |s| ==> IsDigit(s[k]))
              && s[1] != '0' && ParseNat(s[1..]) == -i
            else
              (forall k :: 0 <= k < |s| ==> IsDigit(s[k]))
              && (s[0] == '0' <==> i == 0) && ParseNat(s) == i
  {
    var s := IntToString(i);
    if i < 0 {
      assert s[1..] == NatToString(-i);
      ParseNatToString(-i);
    } else {
      ParseNatToString(i);
    }
  }
}
