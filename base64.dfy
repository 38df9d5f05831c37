/** Base64 as section 4 of RFC 4648 defines it, in the two directions the
    services use: `Buffer.toString("base64")` (standard alphabet, `=` padding)
    and `Buffer.from(s, "base64")`. The decoder is taken to be lenient as
    Node's is: it also accepts the URL-safe characters `-` and `_`, skips
    every other character outside the alphabet, and stops at the first `=`. */
module Base64 {
  import opened Common

  type byte = bv8

  /** A six-bit value. */
  predicate IsSextet(v: bv8)
  {
    v < 64
  }

  predicate AllSextets(q: seq<bv8>)
  {
    forall i :: 0 <= i < |q| ==> IsSextet(q[i])
  }

  /** The character for a six-bit value in the standard alphabet. */
  function EncodeChar(v: bv8): (c: char)
    requires IsSextet(v)
    ensures c != '='
  {
    if v < 26 then ('A' as int + v as int) as char
    else if v < 52 then ('a' as int + (v as int - 26)) as char
    else if v < 62 then ('0' as int + (v as int - 52)) as char
    else if v == 62 then '+'
    else '/'
  }

  /** The six-bit value of an alphabet character (standard or URL-safe). */
  function DecodeChar(c: char): (v: Option<bv8>)
    ensures v.Some? ==> IsSextet(v.value)
    ensures c == '=' ==> v.None?
  {
    if 'A' <= c <= 'Z' then Some((c as int - 'A' as int) as bv8)
    else if 'a' <= c <= 'z' then Some((c as int - 'a' as int + 26) as bv8)
    else if '0' <= c <= '9' then Some((c as int - '0' as int + 52) as bv8)
    else if c == '+' || c == '-' then Some(62)
    else if c == '/' || c == '_' then Some(63)
    else None
  }

  lemma DecodeEncodeChar(v: bv8)
    requires IsSextet(v)
    ensures DecodeChar(EncodeChar(v)) == Some(v)
  {
  }

  /** Bytes to sextets: every three bytes give four sextets, and a trailing
      one or two bytes give two or three sextets, zero-filled on the right. */
  function ToSextets(b: seq<byte>): (q: seq<bv8>)
    ensures AllSextets(q)
    ensures |q| == (|b| / 3) * 4 + (if |b| % 3 == 0 then 0 else |b| % 3 + 1)
  {
    if |b| == 0 then []
    else if |b| == 1 then [b[0] >> 2, (b[0] & 3) << 4]
    else if |b| == 2 then [b[0] >> 2, ((b[0] & 3) << 4) | (b[1] >> 4), (b[1] & 15) << 2]
    else [b[0] >> 2, ((b[0] & 3) << 4) | (b[1] >> 4), ((b[1] & 15) << 2) | (b[2] >> 6), b[2] & 63]
         + ToSextets(b[3..])
  }

  /** Sextets back to bytes: four give three, a trailing two or three give one
      or two, and a single trailing sextet gives nothing. */
  function FromSextets(q: seq<bv8>): seq<byte>
  {
    if |q| < 2 then []
    else if |q| == 2 then [(q[0] << 2) | (q[1] >> 4)]
    else if |q| == 3 then [(q[0] << 2) | (q[1] >> 4), (q[1] << 4) | (q[2] >> 2)]
    else [(q[0] << 2) | (q[1] >> 4), (q[1] << 4) | (q[2] >> 2), (q[2] << 6) | q[3]]
         + FromSextets(q[4..])
  }

  function EncodeChars(q: seq<bv8>): (s: string)
    requires AllSextets(q)
    ensures |s| == |q|
    ensures forall i :: 0 <= i < |s| ==> s[i] != '='
  {
    if q == [] then [] else [EncodeChar(q[0])] + EncodeChars(q[1..])
  }

  function Padding(n: nat): string
  {
    if n % 3 == 1 then "==" else if n % 3 == 2 then "=" else ""
  }

  /** `Buffer.toString("base64")`. */
  function Encode(b: seq<byte>): (s: string)
    ensures |s| % 4 == 0
    ensures |s| == 4 * ((|b| + 2) / 3)
  {
    EncodeChars(ToSextets(b)) + Padding(|b|)
  }

  /** The sextets the lenient decoder collects: characters outside the
      alphabet are skipped and the first `=` ends the input. */
  function Sextets(s: string): (q: seq<bv8>)
    ensures AllSextets(q)
  {
    if s == [] || s[0] == '=' then []
    else
      match DecodeChar(s[0])
      case Some(v) => [v] + Sextets(s[1..])
      case None => Sextets(s[1..])
  }

  /** `Buffer.from(s, "base64")`. */
  function Decode(s: string): (b: seq<byte>)
    ensures |b| == (|Sextets(s)| / 4) * 3 + (if |Sextets(s)| % 4 <= 1 then 0 else |Sextets(s)| % 4 - 1)
  {
    FromSextetsLength(Sextets(s));
    FromSextets(Sextets(s))
  }

  lemma {:induction false} SextetsOfEncoded(q: seq<bv8>, pad: string)
    requires AllSextets(q)
    requires pad == [] || pad[0] == '='
    ensures Sextets(EncodeChars(q) + pad) == q
  {
    if q == [] {
      assert EncodeChars(q) + pad == pad;
    } else {
      var s := EncodeChars(q) + pad;
      assert s[0] == EncodeChar(q[0]);
      DecodeEncodeChar(q[0]);
      assert s[1..] == EncodeChars(q[1..]) + pad;
      SextetsOfEncoded(q[1..], pad);
    }
  }

  lemma {:induction false} FromToSextets(b: seq<byte>)
    ensures FromSextets(ToSextets(b)) == b
  {
    if |b| >= 3 {
      var q := ToSextets(b);
      assert q[4..] == ToSextets(b[3..]);
      FromToSextets(b[3..]);
      assert b == b[..3] + b[3..];
    }
  }

  /** How many bytes a run of sextets decodes to. */
  lemma {:induction false} FromSextetsLength(q: seq<bv8>)
    ensures |FromSextets(q)| == (|q| / 4) * 3 + (if |q| % 4 <= 1 then 0 else |q| % 4 - 1)
  {
    if |q| >= 4 {
      FromSextetsLength(q[4..]);
    }
  }

  /** Decoding what was encoded gives the bytes back. */
  lemma DecodeEncode(b: seq<byte>)
    ensures Decode(Encode(b)) == b
  {
    SextetsOfEncoded(ToSextets(b), Padding(|b|));
    FromToSextets(b);
  }
}
