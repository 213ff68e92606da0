// Standard base64 (section 4 of RFC 4648) as Go's base64.StdEncoding decodes it:
// padded quanta of four characters, carriage returns and line feeds ignored
// anywhere, non-zero trailing bits in the last quantum accepted.

module Base64 {
  import opened Wrappers
  import opened Text

  type sextet = x: int | 0 <= x < 64

  /** The character for a 6-bit value: A-Z, a-z, 0-9, '+', '/'. */
  function SextetChar(v: sextet): (c: char)
    ensures c != '=' && c != '\r' && c != '\n'
  {
    if v < 26 then ('A' as int + v) as char
    else if v < 52 then ('a' as int + (v - 26)) as char
    else if v < 62 then ('0' as int + (v - 52)) as char
    else if v == 62 then '+'
    else '/'
  }

  /** The 6-bit value of an alphabet character; None for any other character. */
  function CharSextet(c: char): (r: Option<sextet>)
    ensures r.Some? ==> SextetChar(r.value) == c
  {
    if 'A' <= c <= 'Z' then Some(c as int - 'A' as int)
    else if 'a' <= c <= 'z' then Some(c as int - 'a' as int + 26)
    else if '0' <= c <= '9' then Some(c as int - '0' as int + 52)
    else if c == '+' then Some(62)
    else if c == '/' then Some(63)
    else None
  }

  lemma CharSextetInverse(v: sextet)
    ensures CharSextet(SextetChar(v)) == Some(v)
  {
  }

  predicate IsAlphabet(c: char)
  {
    CharSextet(c).Some?
  }

  // ----- Encoding -----

  /** The four characters of a full three-byte group. */
  function EncodeGroup(b0: byte, b1: byte, b2: byte): string
  {
    [SextetChar(b0 / 4), SextetChar((b0 % 4) * 16 + b1 / 16),
     SextetChar((b1 % 16) * 4 + b2 / 64), SextetChar(b2 % 64)]
  }

  /** base64.StdEncoding.EncodeToString. */
  function Encode(b: seq<byte>): (s: string)
    ensures |s| == (|b| + 2) / 3 * 4
    ensures forall i :: 0 <= i < |s| ==> s[i] != '\r' && s[i] != '\n'
    decreases |b|
  {
    if |b| == 0 then ""
    else if |b| == 1 then [SextetChar(b[0] / 4), SextetChar((b[0] % 4) * 16), '=', '=']
    else if |b| == 2 then
      [SextetChar(b[0] / 4), SextetChar((b[0] % 4) * 16 + b[1] / 16), SextetChar((b[1] % 16) * 4), '=']
    else EncodeGroup(b[0], b[1], b[2]) + Encode(b[3..])
  }

  // ----- Decoding -----

  /** The input with every '\r' and '\n' removed, which the decoder skips. */
  function WithoutNewlines(s: string): (t: string)
    ensures |t| <= |s|
    ensures forall i :: 0 <= i < |t| ==> t[i] != '\r' && t[i] != '\n'
  {
    if |s| == 0 then ""
    else if s[0] == '\r' || s[0] == '\n' then WithoutNewlines(s[1..])
    else [s[0]] + WithoutNewlines(s[1..])
  }

  lemma WithoutNewlinesIdentity(s: string)
    requires forall i :: 0 <= i < |s| ==> s[i] != '\r' && s[i] != '\n'
    ensures WithoutNewlines(s) == s
  {
    if |s| > 0 {
      WithoutNewlinesIdentity(s[1..]);
    }
  }

  /** The bytes a quantum of sextets a, b, c, d stands for. */
  function Byte0(a: sextet, b: sextet): byte { a * 4 + b / 16 }
  function Byte1(b: sextet, c: sextet): byte { (b % 16) * 16 + c / 4 }
  function Byte2(c: sextet, d: sextet): byte { (c % 4) * 64 + d }

  /** A quantum of four alphabet characters: three bytes. */
  function DecodeFull(a: Option<sextet>, b: Option<sextet>, c: Option<sextet>, d: Option<sextet>): Option<seq<byte>>
  {
    if a.Some? && b.Some? && c.Some? && d.Some? then
      Some([Byte0(a.value, b.value), Byte1(b.value, c.value), Byte2(c.value, d.value)])
    else None
  }

  /** The last quantum, which may end in "==" (one byte) or "=" (two bytes). */
  function DecodeLast(c0: char, c1: char, c2: char, c3: char): Option<seq<byte>>
  {
    var a, b, c := CharSextet(c0), CharSextet(c1), CharSextet(c2);
    if a.None? || b.None? then None
    else if c2 == '=' && c3 == '=' then Some([Byte0(a.value, b.value)])
    else if c.Some? && c3 == '=' then Some([Byte0(a.value, b.value), Byte1(b.value, c.value)])
    else DecodeFull(a, b, c, CharSextet(c3))
  }

  /** Decodes padded quanta; padding may appear only in the last one. */
  function DecodeQuanta(t: string): (r: Option<seq<byte>>)
    decreases |t|
  {
    if |t| == 0 then Some([])
    else if |t| < 4 then None
    else if |t| == 4 then DecodeLast(t[0], t[1], t[2], t[3])
    else
      var head := DecodeFull(CharSextet(t[0]), CharSextet(t[1]), CharSextet(t[2]), CharSextet(t[3]));
      var rest := DecodeQuanta(t[4..]);
      if head.None? || rest.None? then None else Some(head.value + rest.value)
  }

  /** base64.StdEncoding.DecodeString: None stands for a CorruptInputError. */
  function Decode(s: string): Option<seq<byte>>
  {
    DecodeQuanta(WithoutNewlines(s))
  }

  /** The decoder inverts one full group of the encoder. */
  lemma GroupRoundTrip(b0: byte, b1: byte, b2: byte)
    ensures var q := EncodeGroup(b0, b1, b2);
      CharSextet(q[0]) == Some(b0 / 4) && CharSextet(q[1]) == Some((b0 % 4) * 16 + b1 / 16)
      && CharSextet(q[2]) == Some((b1 % 16) * 4 + b2 / 64) && CharSextet(q[3]) == Some(b2 % 64)
    ensures Byte0(b0 / 4, (b0 % 4) * 16 + b1 / 16) == b0
    ensures Byte1((b0 % 4) * 16 + b1 / 16, (b1 % 16) * 4 + b2 / 64) == b1
    ensures Byte2((b1 % 16) * 4 + b2 / 64, b2 % 64) == b2
  {
    CharSextetInverse(b0 / 4);
    CharSextetInverse((b0 % 4) * 16 + b1 / 16);
    CharSextetInverse((b1 % 16) * 4 + b2 / 64);
    CharSextetInverse(b2 % 64);
  }

  /** A last group of one byte: two characters and two pad signs. */
  lemma OneByteRoundTrip(b: seq<byte>)
    requires |b| == 1
    ensures DecodeQuanta(Encode(b)) == Some(b)
  {
    var x := (b[0] % 4) * 16;
    CharSextetInverse(b[0] / 4);
    CharSextetInverse(x);
    assert x / 16 == b[0] % 4;
    assert Byte0(b[0] / 4, x) == b[0];
    var t := Encode(b);
    assert t == [SextetChar(b[0] / 4), SextetChar(x), '=', '='];
    assert CharSextet(t[0]) == Some(b[0] / 4) && CharSextet(t[1]) == Some(x);
    assert CharSextet(t[2]) == None;
    assert DecodeQuanta(t) == Some([Byte0(b[0] / 4, x)]);
    assert b == [b[0]];
  }

  /** A last group of two bytes: three characters and one pad sign. */
  lemma TwoBytesRoundTrip(b: seq<byte>)
    requires |b| == 2
    ensures DecodeQuanta(Encode(b)) == Some(b)
  {
    var x := (b[0] % 4) * 16 + b[1] / 16;
    var y := (b[1] % 16) * 4;
    CharSextetInverse(b[0] / 4);
    CharSextetInverse(x);
    CharSextetInverse(y);
    assert x / 16 == b[0] % 4 && x % 16 == b[1] / 16;
    assert y / 4 == b[1] % 16;
    var t := Encode(b);
    assert CharSextet(t[0]) == Some(b[0] / 4) && CharSextet(t[1]) == Some(x);
    assert CharSextet(t[2]) == Some(y) && t[3] == '=' && CharSextet(t[3]) == None;
    assert Byte0(b[0] / 4, x) == b[0] && Byte1(x, y) == b[1];
    assert DecodeQuanta(t) == Some([Byte0(b[0] / 4, x), Byte1(x, y)]);
    assert b == [b[0], b[1]];
  }

  /** Decoding what was encoded gives back the bytes (RFC 4648, section 4). */
  lemma {:induction false} DecodeQuantaEncode(b: seq<byte>)
    ensures DecodeQuanta(Encode(b)) == Some(b)
    decreases |b|
  {
    if |b| == 1 {
      OneByteRoundTrip(b);
    } else if |b| == 2 {
      TwoBytesRoundTrip(b);
    } else if |b| == 3 {
      LastGroup(b);
    } else if |b| > 3 {
      DecodeQuantaEncode(b[3..]);
      GroupStep(b);
    }
  }

  /** The characters of a full group decode to its three bytes. */
  lemma GroupDecodes(b0: byte, b1: byte, b2: byte)
    ensures var g := EncodeGroup(b0, b1, b2);
      DecodeFull(CharSextet(g[0]), CharSextet(g[1]), CharSextet(g[2]), CharSextet(g[3])) == Some([b0, b1, b2])
      && g[2] != '=' && g[3] != '='
  {
    GroupRoundTrip(b0, b1, b2);
  }

  /** A full group that ends the input. */
  lemma LastGroup(b: seq<byte>)
    requires |b| == 3
    ensures DecodeQuanta(Encode(b)) == Some(b)
  {
    var g := EncodeGroup(b[0], b[1], b[2]);
    assert Encode(b) == g + Encode([]) == g;
    GroupDecodes(b[0], b[1], b[2]);
    assert DecodeLast(g[0], g[1], g[2], g[3]) == Some([b[0], b[1], b[2]]);
    assert b == [b[0], b[1], b[2]];
  }

  /** One full group in front of an encoding that decodes correctly. */
  lemma GroupStep(b: seq<byte>)
    requires |b| > 3 && DecodeQuanta(Encode(b[3..])) == Some(b[3..])
    ensures DecodeQuanta(Encode(b)) == Some(b)
  {
    var t := Encode(b);
    var g := EncodeGroup(b[0], b[1], b[2]);
    assert t == g + Encode(b[3..]);
    GroupDecodes(b[0], b[1], b[2]);
    assert t[0] == g[0] && t[1] == g[1] && t[2] == g[2] && t[3] == g[3];
    assert t[4..] == Encode(b[3..]);
    SplitThree(b);
  }

  lemma SplitThree<T>(b: seq<T>)
    requires |b| >= 3
    ensures b == [b[0], b[1], b[2]] + b[3..]
  {
  }

  lemma DecodeEncode(b: seq<byte>)
    ensures Decode(Encode(b)) == Some(b)
  {
    WithoutNewlinesIdentity(Encode(b));
    DecodeQuantaEncode(b);
  }

  /** Inputs that are not a whole number of quanta are rejected. */
  lemma {:induction false} DecodeRejectsPartialQuantum(t: string)
    requires |t| % 4 != 0
    ensures DecodeQuanta(t) == None
    decreases |t|
  {
    if |t| >= 4 {
      DecodeRejectsPartialQuantum(t[4..]);
    }
  }
}
