// Name-based UUIDs, version 5 (section 4.3 of RFC 4122), as the replica-set
// manager derives them: SHA-1 over the namespace bytes followed by the name,
// the first sixteen bytes of the digest kept, the version and variant bits
// forced, and the result printed in the canonical 8-4-4-4-12 lower-case hex
// form. SHA-1 itself is an uninterpreted parameter.

module Uuid {
  import opened Wrappers
  import opened Text

  /** The sixteen bytes of a UUID. */
  type Uuid = s: seq<byte> | |s| == 16 witness [0, 0, 0, 0, 0, 0, 0, 0, 0, 0, 0, 0, 0, 0, 0, 0]

  /** A SHA-1 digest: twenty bytes. */
  type Digest = s: seq<byte> | |s| == 20 witness [0, 0, 0, 0, 0, 0, 0, 0, 0, 0, 0, 0, 0, 0, 0, 0, 0, 0, 0, 0]

  // ----- Names as bytes -----

  /** The UTF-8 bytes of one character, as Go's []byte(string) conversion produces them. */
  function Utf8Char(c: char): (bs: seq<byte>)
    ensures 1 <= |bs| <= 4
    ensures c as int < 0x80 <==> bs == [c as int]
  {
    var cp := c as int;
    if cp < 0x80 then [cp]
    else if cp < 0x800 then [0xC0 + cp / 0x40, 0x80 + cp % 0x40]
    else if cp < 0x1_0000 then [0xE0 + cp / 0x1000, 0x80 + cp / 0x40 % 0x40, 0x80 + cp % 0x40]
    else [0xF0 + cp / 0x4_0000, 0x80 + cp / 0x1000 % 0x40, 0x80 + cp / 0x40 % 0x40, 0x80 + cp % 0x40]
  }

  function Utf8(s: string): seq<byte>
  {
    if |s| == 0 then [] else Utf8Char(s[0]) + Utf8(s[1..])
  }

  /** A name made of ASCII characters is hashed as its character codes. */
  lemma {:induction false} Utf8Ascii(s: string)
    requires forall i :: 0 <= i < |s| ==> s[i] as int < 0x80
    ensures |Utf8(s)| == |s|
    ensures forall i :: 0 <= i < |s| ==> Utf8(s)[i] == s[i] as int
  {
    if |s| > 0 {
      Utf8Ascii(s[1..]);
    }
  }

  // ----- Generation -----

  /**
   * uuid.NewSHA1: the first sixteen digest bytes, with the high nibble of byte
   * 6 set to the version 5 and the two high bits of byte 8 set to the variant 10.
   */
  function NewSHA1(space: Uuid, data: seq<byte>, sha1: seq<byte> -> Digest): (u: Uuid)
    ensures u[6] / 16 == 5 && u[6] % 16 == sha1(space + data)[6] % 16
    ensures u[8] / 64 == 2 && u[8] % 64 == sha1(space + data)[8] % 64
    ensures forall i :: 0 <= i < 16 && i != 6 && i != 8 ==> u[i] == sha1(space + data)[i]
  {
    var h := sha1(space + data);
    h[..6] + [h[6] % 16 + 0x50] + [h[7]] + [h[8] % 64 + 0x80] + h[9..16]
  }

  // ----- Canonical text form -----

  function HexDigit(n: nat): (c: char)
    requires n < 16
  {
    if n < 10 then ('0' as int + n) as char else ('a' as int + (n - 10)) as char
  }

  /** The value of a hex digit; upper case is accepted as well. */
  function HexValue(c: char): (r: Option<nat>)
    ensures r.Some? ==> r.value < 16
  {
    if '0' <= c <= '9' then Some(c as int - '0' as int)
    else if 'a' <= c <= 'f' then Some(c as int - 'a' as int + 10)
    else if 'A' <= c <= 'F' then Some(c as int - 'A' as int + 10)
    else None
  }

  lemma HexValueOfDigit(n: nat)
    requires n < 16
    ensures HexValue(HexDigit(n)) == Some(n)
  {
  }

  /** Two lower-case hex digits per byte. */
  function Hex(bs: seq<byte>): (s: string)
    ensures |s| == 2 * |bs|
  {
    if |bs| == 0 then "" else [HexDigit(bs[0] / 16), HexDigit(bs[0] % 16)] + Hex(bs[1..])
  }

  lemma {:induction false} HexAt(bs: seq<byte>, k: nat)
    requires k < |bs|
    ensures Hex(bs)[2 * k] == HexDigit(bs[k] / 16) && Hex(bs)[2 * k + 1] == HexDigit(bs[k] % 16)
  {
    if k > 0 {
      HexAt(bs[1..], k - 1);
    }
  }

  /** UUID.String: xxxxxxxx-xxxx-xxxx-xxxx-xxxxxxxxxxxx. */
  function ToString(u: Uuid): (s: string)
    ensures |s| == 36
    ensures s[8] == '-' && s[13] == '-' && s[18] == '-' && s[23] == '-'
  {
    Hex(u[..4]) + "-" + Hex(u[4..6]) + "-" + Hex(u[6..8]) + "-" + Hex(u[8..10]) + "-" + Hex(u[10..])
  }

  /** Where the two digits of byte i start in the text form. */
  function DigitsAt(i: nat): (p: nat)
    requires i < 16
    ensures p + 1 < 36
  {
    if i < 4 then 2 * i
    else if i < 6 then 9 + 2 * (i - 4)
    else if i < 8 then 14 + 2 * (i - 6)
    else if i < 10 then 19 + 2 * (i - 8)
    else 24 + 2 * (i - 10)
  }

  /** The text form shows byte i as two hex digits at DigitsAt(i). */
  lemma ToStringAt(u: Uuid, i: nat)
    requires i < 16
    ensures ToString(u)[DigitsAt(i)] == HexDigit(u[i] / 16)
    ensures ToString(u)[DigitsAt(i) + 1] == HexDigit(u[i] % 16)
  {
    var a, b, c, d, e := u[..4], u[4..6], u[6..8], u[8..10], u[10..];
    var s := ToString(u);
    if i < 4 {
      HexAt(a, i);
      assert s[DigitsAt(i)] == Hex(a)[2 * i] && s[DigitsAt(i) + 1] == Hex(a)[2 * i + 1];
    } else if i < 6 {
      HexAt(b, i - 4);
      assert s[DigitsAt(i)] == Hex(b)[2 * (i - 4)] && s[DigitsAt(i) + 1] == Hex(b)[2 * (i - 4) + 1];
    } else if i < 8 {
      HexAt(c, i - 6);
      assert s[DigitsAt(i)] == Hex(c)[2 * (i - 6)] && s[DigitsAt(i) + 1] == Hex(c)[2 * (i - 6) + 1];
    } else if i < 10 {
      HexAt(d, i - 8);
      assert s[DigitsAt(i)] == Hex(d)[2 * (i - 8)] && s[DigitsAt(i) + 1] == Hex(d)[2 * (i - 8) + 1];
    } else {
      HexAt(e, i - 10);
      assert s[DigitsAt(i)] == Hex(e)[2 * (i - 10)] && s[DigitsAt(i) + 1] == Hex(e)[2 * (i - 10) + 1];
    }
  }

  /** The bytes i..16 read back from a text form whose length and dashes are checked. */
  function ParseBytes(s: string, i: nat): (r: Option<seq<byte>>)
    requires |s| == 36 && i <= 16
    ensures r.Some? ==> |r.value| == 16 - i
    decreases 16 - i
  {
    if i == 16 then Some([])
    else
      var hi, lo := HexValue(s[DigitsAt(i)]), HexValue(s[DigitsAt(i) + 1]);
      var rest := ParseBytes(s, i + 1);
      if hi.None? || lo.None? || rest.None? then None
      else Some([hi.value * 16 + lo.value] + rest.value)
  }

  /** uuid.Parse on the canonical 36-character form (the URN and braced forms are not modelled). */
  function Parse(s: string): (r: Option<Uuid>)
    ensures r.Some? ==> |s| == 36 && s[8] == '-' && s[13] == '-' && s[18] == '-' && s[23] == '-'
  {
    if |s| != 36 || s[8] != '-' || s[13] != '-' || s[18] != '-' || s[23] != '-' then None
    else
      var bs := ParseBytes(s, 0);
      if bs.None? then None
      else
        var u: Uuid := bs.value;
        Some(u)
  }

  /** One byte of ParseBytes: its two digits, then the rest. */
  lemma ParseBytesOne(s: string, i: nat, b: byte, rest: seq<byte>)
    requires |s| == 36 && i < 16
    requires s[DigitsAt(i)] == HexDigit(b / 16) && s[DigitsAt(i) + 1] == HexDigit(b % 16)
    requires ParseBytes(s, i + 1) == Some(rest)
    ensures ParseBytes(s, i) == Some([b] + rest)
  {
    HexValueOfDigit(b / 16);
    HexValueOfDigit(b % 16);
    ByteFromDigits(b);
  }

  lemma ByteFromDigits(b: byte)
    ensures (b / 16) * 16 + b % 16 == b
  {
  }

  /** A text whose digit pairs spell the bytes of u parses back to them. */
  lemma {:induction false} ParseBytesOfDigits(s: string, u: Uuid, i: nat)
    requires |s| == 36 && i <= 16
    requires forall j :: i <= j < 16 ==>
      s[DigitsAt(j)] == HexDigit(u[j] / 16) && s[DigitsAt(j) + 1] == HexDigit(u[j] % 16)
    ensures ParseBytes(s, i) == Some(u[i..])
    decreases 16 - i
  {
    if i < 16 {
      ParseBytesOfDigits(s, u, i + 1);
      ParseBytesOne(s, i, u[i], u[i + 1..]);
      assert u[i..] == [u[i]] + u[i + 1..];
    } else {
      assert u[i..] == [];
    }
  }

  /** Printing a UUID and parsing the text gives the same UUID back. */
  lemma ParseToString(u: Uuid)
    ensures Parse(ToString(u)) == Some(u)
  {
    forall j | 0 <= j < 16
      ensures ToString(u)[DigitsAt(j)] == HexDigit(u[j] / 16) && ToString(u)[DigitsAt(j) + 1] == HexDigit(u[j] % 16)
    {
      ToStringAt(u, j);
    }
    ParseBytesOfDigits(ToString(u), u, 0);
  }

  /** Distinct UUIDs print differently. */
  lemma ToStringInjective(u: Uuid, v: Uuid)
    requires ToString(u) == ToString(v)
    ensures u == v
  {
    ParseToString(u);
    ParseToString(v);
  }

  /** A version 5 UUID shows its version as the 15th character and its variant as one of 8, 9, a, b. */
  lemma VersionAndVariantDigits(space: Uuid, data: seq<byte>, sha1: seq<byte> -> Digest)
    ensures ToString(NewSHA1(space, data, sha1))[14] == '5'
    ensures ToString(NewSHA1(space, data, sha1))[19] in {'8', '9', 'a', 'b'}
  {
    var u := NewSHA1(space, data, sha1);
    ToStringAt(u, 6);
    ToStringAt(u, 8);
    assert DigitsAt(6) == 14 && DigitsAt(8) == 19;
  }
}
