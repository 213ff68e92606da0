// strconv.ParseInt(s, 10, 32), which the replica-set manager applies to the
// replicaset-ordinal label of every StatefulSet it updates. Go scans the digits
// left to right as an unsigned number bounded by 2^32 - 1, stopping with a
// range error as soon as the bound is passed and with a syntax error at the
// first non-digit; the sign is applied afterwards and the value checked against
// the int32 range.

module Strconv {
  import opened Text
  import opened Errors
  import opened K8s

  const MaxUint32 := 0xFFFF_FFFF

  /** The outcome of the unsigned scan. */
  datatype Scan = Value(n: nat) | SyntaxError | RangeError

  function DigitValue(c: char): (d: nat)
    requires IsDigit(c)
    ensures d < 10
  {
    c as int - '0' as int
  }

  /**
   * ParseUint over s[i..] with n read so far. The check of n against
   * maxUint64 / 10 + 1 that Go makes first can never fire here, because n
   * stays below 2^32.
   */
  function ScanUint32(s: string, i: nat, n: nat): (r: Scan)
    requires i <= |s| && n <= MaxUint32
    ensures r.Value? ==> r.n <= MaxUint32
    decreases |s| - i
  {
    if i == |s| then Value(n)
    else if !IsDigit(s[i]) then SyntaxError
    else
      var n1 := n * 10 + DigitValue(s[i]);
      if n1 > MaxUint32 then RangeError else ScanUint32(s, i + 1, n1)
  }

  /** The NumError text; strconv.Quote is simplified to surrounding double quotes. */
  function NumError(s: string, reason: string): Error
  {
    Plain("strconv.ParseInt: parsing \"" + s + "\": " + reason)
  }

  const SyntaxReason := "invalid syntax"
  const RangeReason := "value out of range"

  /** strconv.ParseInt(s, 10, 32). */
  function ParseInt32(s: string): (r: Outcome<int32>)
    ensures r.Ok? ==> |s| > 0
    ensures r.Fail? ==> r.error == NumError(s, SyntaxReason) || r.error == NumError(s, RangeReason)
  {
    if |s| == 0 then Fail(NumError(s, SyntaxReason))
    else
      var neg := s[0] == '-';
      var start := if s[0] == '+' || s[0] == '-' then 1 else 0;
      if start == |s| then Fail(NumError(s, SyntaxReason))
      else
        match ScanUint32(s, start, 0)
        case SyntaxError => Fail(NumError(s, SyntaxReason))
        // A range error leaves the maximum, which the sign check below rejects as well.
        case RangeError => Fail(NumError(s, RangeReason))
        case Value(un) =>
          if !neg && un >= 0x8000_0000 then Fail(NumError(s, RangeReason))
          else if neg && un > 0x8000_0000 then Fail(NumError(s, RangeReason))
          else
            var v: int := if neg then -(un as int) else un;
            Ok(v)
  }

  // ----- Round trip with %d -----

  /** The number a string of decimal digits spells, read left to right. */
  function DecimalValue(s: string): nat
    requires forall i :: 0 <= i < |s| ==> IsDigit(s[i])
  {
    if |s| == 0 then 0 else DecimalValue(s[..|s| - 1]) * 10 + DigitValue(s[|s| - 1])
  }

  lemma {:induction false} DecimalValueOfNat(n: nat)
    ensures DecimalValue(NatToDecimal(n)) == n
    decreases n
  {
    var s := NatToDecimal(n);
    if n >= 10 {
      DecimalValueOfNat(n / 10);
      assert s[..|s| - 1] == NatToDecimal(n / 10);
    }
  }

  lemma {:induction false} DecimalValuePrefix(s: string, j: nat)
    requires j <= |s|
    requires forall i :: 0 <= i < |s| ==> IsDigit(s[i])
    ensures DecimalValue(s[..j]) <= DecimalValue(s)
    decreases |s| - j
  {
    if j < |s| {
      DecimalValuePrefix(s[..|s| - 1], j);
      assert s[..|s| - 1][..j] == s[..j];
    } else {
      assert s[..j] == s;
    }
  }

  /** Scanning digits whose value stays within bounds yields that value. */
  lemma {:induction false} ScanDigits(s: string, start: nat, i: nat)
    requires start <= i <= |s|
    requires forall k :: start <= k < |s| ==> IsDigit(s[k])
    requires DecimalValue(s[start..]) <= MaxUint32
    ensures DecimalValue(s[start..i]) <= MaxUint32
    ensures ScanUint32(s, i, DecimalValue(s[start..i])) == Value(DecimalValue(s[start..]))
    decreases |s| - i
  {
    DecimalValuePrefix(s[start..], i - start);
    assert s[start..][..i - start] == s[start..i];
    if i < |s| {
      DecimalValuePrefix(s[start..], i + 1 - start);
      assert s[start..][..i + 1 - start] == s[start..i + 1];
      assert s[start..i + 1][..i - start] == s[start..i];
      ScanDigits(s, start, i + 1);
    } else {
      assert s[start..i] == s[start..];
    }
  }

  /** Parsing what %d printed gives the number back, for every int32. */
  lemma ParseFormatted(v: int32)
    ensures ParseInt32(IntToDecimal(v)) == Ok(v)
  {
    var s := IntToDecimal(v);
    if v >= 0 {
      var m: nat := v;
      assert s == NatToDecimal(m) && IsDigit(s[0]);
      DecimalValueOfNat(m);
      assert s[0..] == s && s[0..0] == [];
      ScanDigits(s, 0, 0);
      assert ScanUint32(s, 0, 0) == Value(m);
    } else {
      var m: nat := -(v as int);
      assert s == "-" + NatToDecimal(m);
      assert s[1..] == NatToDecimal(m);
      DecimalValueOfNat(m);
      assert s[1..1] == [];
      ScanDigits(s, 1, 1);
      assert ScanUint32(s, 1, 0) == Value(m);
    }
  }
}
