/**
 * The JSON object hook of the InfluxDB writer: inside a freshly decoded dict,
 * string values that spell an unsigned decimal number become numbers again.
 */
module InfluxWriter {
  import opened Json
  import opened Text

  /** The test `value.replace(".", "", 1).isdigit()`. */
  predicate IsNumericString(s: string) {
    IsDigits(RemoveFirst(s, '.'))
  }

  /** An independent reading of that test: digits and dots only, at most one dot, at least one digit. */
  predicate UnsignedDecimal(s: string) {
    && (forall i :: 0 <= i < |s| ==> IsDigit(s[i]) || s[i] == '.')
    && (forall i, j :: 0 <= i < j < |s| && s[i] == '.' ==> s[j] != '.')
    && (exists i :: 0 <= i < |s| && IsDigit(s[i]))
  }

  /** With the first dot at `i`, removing it leaves `s` without position `i`. */
  lemma RemoveFirstDotAt(s: string, i: nat)
    requires '.' in s && i == IndexOf(s, '.')
    ensures var r := RemoveFirst(s, '.');
      && |r| == |s| - 1
      && (forall k :: 0 <= k < i ==> r[k] == s[k])
      && (forall k :: i <= k < |r| ==> r[k] == s[k + 1])
  {
  }

  /** The numeric-string test accepts exactly the unsigned decimals. */
  lemma NumericStringIff(s: string)
    ensures IsNumericString(s) <==> UnsignedDecimal(s)
  {
    var r := RemoveFirst(s, '.');
    if '.' !in s {
      assert r == s;
      if UnsignedDecimal(s) {
        assert |s| > 0;
        forall k | 0 <= k < |s| ensures IsDigit(s[k]) {
          assert s[k] != '.';
        }
      }
    } else {
      var i := IndexOf(s, '.');
      RemoveFirstDotAt(s, i);
      if IsNumericString(s) {
        forall k | 0 <= k < |s| && k != i ensures IsDigit(s[k]) && s[k] != '.' {
          if k < i { assert r[k] == s[k]; } else { assert r[k - 1] == s[k]; }
        }
        assert IsDigit(s[if i == 0 then 1 else 0]) by {
          assert r[0] == s[if i == 0 then 1 else 0];
        }
      }
      if UnsignedDecimal(s) {
        forall k | 0 <= k < |s| && k != i ensures IsDigit(s[k]) {
          if k < i {
            assert s[k] in s[..i];
          } else {
            assert s[k] != '.';
          }
        }
        var d :| 0 <= d < |s| && IsDigit(s[d]);
        assert d != i;
        assert |r| > 0;
        forall k | 0 <= k < |r| ensures IsDigit(r[k]) {
          if k < i { assert r[k] == s[k]; } else { assert r[k] == s[k + 1]; }
        }
      }
    }
  }

  function Pow10(n: nat): (p: nat)
    ensures p >= 1
  {
    if n == 0 then 1 else 10 * Pow10(n - 1)
  }

  /**
   * Python's `float(s)` on a numeric string holding a dot: the integer part
   * plus the fraction digits over the matching power of ten (either part may
   * be empty, as in "5." or ".5").
   */
  function DecimalValue(s: string): real
    requires IsNumericString(s) && '.' in s
  {
    var i := IndexOf(s, '.');
    RemoveFirstDotAt(s, i);
    var r := RemoveFirst(s, '.');
    assert forall k :: 0 <= k < i ==> IsDigit(s[..i][k]) by {
      forall k | 0 <= k < i ensures IsDigit(s[..i][k]) { assert r[k] == s[k]; }
    }
    var frac := s[i + 1..];
    assert forall k :: 0 <= k < |frac| ==> IsDigit(frac[k]) by {
      forall k | 0 <= k < |frac| ensures IsDigit(frac[k]) { assert r[i + k] == frac[k]; }
    }
    DigitsValue(s[..i]) as real + DigitsValue(frac) as real / Pow10(|frac|) as real
  }

  /** The conversion applied to one value of the dict. */
  function ConvertValue(v: Json): (r: Json)
    ensures !v.JStr? ==> r == v
    ensures v.JStr? ==> (r == v <==> !IsNumericString(v.s))
    ensures v.JStr? && IsNumericString(v.s) ==> (r.JFloat? <==> '.' in v.s)
    ensures v.JStr? && IsNumericString(v.s) ==> (r.JInt? <==> '.' !in v.s)
    ensures r.JInt? && v.JStr? ==> r.i >= 0
  {
    match v
    case JStr(s) =>
      if IsNumericString(s) then
        if '.' in s then JFloat(DecimalValue(s)) else JInt(DigitsValue(s))
      else v
    case _ => v
  }

  /** A string value is converted exactly when it is an unsigned decimal. */
  lemma ConvertedIff(s: string)
    ensures ConvertValue(JStr(s)) != JStr(s) <==> UnsignedDecimal(s)
  {
    NumericStringIff(s);
  }

  /** The decimal rendering of a natural number converts back to that number. */
  lemma ConvertNatString(n: nat)
    ensures ConvertValue(JStr(NatToString(n))) == JInt(n)
  {
    var s := NatToString(n);
    assert forall k :: 0 <= k < |s| ==> s[k] != '.';
    DigitsValueOfNatToString(n);
  }

  /** A digit string, leading zeros included (as in "007"), converts to the int it spells. */
  lemma ConvertDigitString(z: nat, n: nat)
    ensures ConvertValue(JStr(Zeros(z) + NatToString(n))) == JInt(n)
  {
    var s := Zeros(z) + NatToString(n);
    assert forall k :: 0 <= k < |s| ==> IsDigit(s[k]);
    assert '.' !in s;
    LeadingZeros(z, NatToString(n));
    DigitsValueOfNatToString(n);
  }

  /** The first dot of `p + "." + f`, when `p` holds none, is at `|p|`. */
  lemma DotAfterPrefix(p: string, f: string)
    requires '.' !in p
    ensures var s := p + "." + f; '.' in s && IndexOf(s, '.') == |p|
  {
    var s := p + "." + f;
    assert s[|p|] == '.';
    assert forall k :: 0 <= k < |p| ==> s[k] == p[k];
  }

  /** "<p>.<f>" for digit strings `p` (non-empty) and `f` passes the test and is worth p + f / 10^|f|. */
  lemma DecimalStringValue(p: string, f: string)
    requires IsDigits(p) && forall k :: 0 <= k < |f| ==> IsDigit(f[k])
    ensures var s := p + "." + f;
      && IsNumericString(s) && '.' in s
      && DecimalValue(s) == DigitsValue(p) as real + DigitsValue(f) as real / Pow10(|f|) as real
  {
    var s := p + "." + f;
    DotAfterPrefix(p, f);
    RemoveFirstDotAt(s, |p|);
    var r := RemoveFirst(s, '.');
    forall k | 0 <= k < |r| ensures IsDigit(r[k]) {
      if k < |p| { assert r[k] == p[k]; } else { assert r[k] == s[k + 1] == f[k - |p|]; }
    }
    assert s[..|p|] == p && s[|p| + 1..] == f;
  }

  /**
   * A string "<int part>.<fraction>", leading zeros allowed in the int part,
   * converts to the float int part + fraction digits / 10^(number of fraction digits).
   */
  lemma ConvertDecimalString(z: nat, a: nat, f: string)
    requires forall k :: 0 <= k < |f| ==> IsDigit(f[k])
    ensures ConvertValue(JStr(Zeros(z) + NatToString(a) + "." + f))
         == JFloat(a as real + DigitsValue(f) as real / Pow10(|f|) as real)
  {
    var p := Zeros(z) + NatToString(a);
    assert IsDigits(p);
    DecimalStringValue(p, f);
    LeadingZeros(z, NatToString(a));
    DigitsValueOfNatToString(a);
  }

  /** A sign or an exponent keeps a string a string. */
  lemma SignOrExponentStaysString(s: string, k: nat)
    requires k < |s| && s[k] in {'-', '+', 'e', 'E'}
    ensures ConvertValue(JStr(s)) == JStr(s)
  {
    NumericStringIff(s);
  }

  /** Two dots keep a string a string. */
  lemma TwoDotsStayString(s: string, a: nat, b: nat)
    requires a < b < |s| && s[a] == '.' && s[b] == '.'
    ensures ConvertValue(JStr(s)) == JStr(s)
  {
    NumericStringIff(s);
  }

  /** A string without any digit ("" or "." among them) stays a string. */
  lemma NoDigitStaysString(s: string)
    requires forall k :: 0 <= k < |s| ==> !IsDigit(s[k])
    ensures ConvertValue(JStr(s)) == JStr(s)
  {
    NumericStringIff(s);
  }

  /** The dict after the hook: same keys in the same order, each value converted. */
  function HookItems(d: Dict): (r: Dict)
    ensures |r| == |d| && Keys(r) == Keys(d)
    ensures forall i :: 0 <= i < |d| ==> r[i] == (d[i].0, ConvertValue(d[i].1))
  {
    seq(|d|, i requires 0 <= i < |d| => (d[i].0, ConvertValue(d[i].1)))
  }

  /** The dict object decoded from JSON; the hook mutates it in place. */
  class PyDict {
    var items: Dict

    constructor (items: Dict)
      ensures this.items == items
    {
      this.items := items;
    }
  }

  /**
   * `_json_object_hook`: overwrite each numeric string value with its int or
   * float, in place, and hand back the same dict object.
   */
  method JsonObjectHook(dct: PyDict) returns (r: PyDict)
    requires UniqueKeys(dct.items)
    modifies dct
    ensures r == dct
    ensures dct.items == HookItems(old(dct.items))
    ensures UniqueKeys(dct.items)
  {
    ghost var d0 := dct.items;
    var i := 0;
    while i < |dct.items|
      invariant |dct.items| == |d0| && 0 <= i <= |d0|
      invariant forall k :: 0 <= k < i ==> dct.items[k] == (d0[k].0, ConvertValue(d0[k].1))
      invariant forall k :: i <= k < |d0| ==> dct.items[k] == d0[k]
    {
      var (key, value) := dct.items[i];
      if value.JStr? && IsNumericString(value.s) {
        if '.' in value.s {
          dct.items := dct.items[i := (key, JFloat(DecimalValue(value.s)))];
        } else {
          dct.items := dct.items[i := (key, JInt(DigitsValue(value.s)))];
        }
      }
      i := i + 1;
    }
    r := dct;
  }
}
