/** Envelope encryption of account secrets under the server wrapping key
    (AES-256-GCM, NIST SP 800-38D). The cipher is abstract: a keystream and a
    tag function that the model knows nothing about, so every property below
    holds for any instantiation of them. */
module SecretWrap {
  import opened Common
  import opened Base64
  import opened Errors

  const WrapKeyLength: nat := 32
  const IvLength: nat := 12
  const TagLength: nat := 16

  const MissingKeyMessage: string := "SERVER_WRAP_KEY environment variable is not defined"
  const KeyLengthMessage: string := "SERVER_WRAP_KEY must decode to 32 bytes for AES-256-GCM"
  const InvalidIvMessage: string := "Invalid initialization vector"
  const InvalidTagLengthMessage: string := "Invalid authentication tag length"
  const AuthFailedMessage: string := "Unsupported state or unable to authenticate data"

  /** AES-256-GCM with its internals left abstract: byte `i` of the counter-mode
      keystream for a key and IV, and byte `i` of the GHASH-based tag over a
      ciphertext. */
  datatype Gcm = Gcm(
    keystreamByte: (seq<byte>, seq<byte>, nat) -> byte,
    tagByte: (seq<byte>, seq<byte>, seq<byte>, nat) -> byte)

  /** The three base64 fields of a wrapped secret. */
  datatype WrappedSecret = WrappedSecret(wrapped: string, iv: string, authTag: string)

  /** Counter-mode encryption (and decryption): XOR with the keystream. */
  function Ctr(g: Gcm, key: seq<byte>, iv: seq<byte>, data: seq<byte>): (r: seq<byte>)
    ensures |r| == |data|
  {
    seq(|data|, i requires 0 <= i < |data| => data[i] ^ g.keystreamByte(key, iv, i))
  }

  /** The full 16-byte authentication tag of a ciphertext. */
  function FullTag(g: Gcm, key: seq<byte>, iv: seq<byte>, ciphertext: seq<byte>): (t: seq<byte>)
    ensures |t| == TagLength
  {
    seq(TagLength, i requires 0 <= i < TagLength => g.tagByte(key, iv, ciphertext, i))
  }

  /** The tag lengths `setAuthTag` accepts for GCM. */
  predicate ValidTagLength(n: nat)
  {
    n == 4 || n == 8 || 12 <= n <= 16
  }

  /** `getWrapKeyBuffer`: the environment value must be set and must
      base64-decode to exactly 32 bytes. */
  function GetWrapKey(env: Option<string>): (r: Result<seq<byte>, Thrown>)
    ensures r.Ok? ==> |r.value| == WrapKeyLength
    ensures r.Ok? <==> TruthyText(env) && |Decode(env.value)| == WrapKeyLength
    ensures !TruthyText(env) ==> r == Err(Plain(MissingKeyMessage))
    ensures TruthyText(env) && r.Err? ==> r == Err(Plain(KeyLengthMessage))
  {
    if !TruthyText(env) then Err(Plain(MissingKeyMessage))
    else
      var key := Decode(env.value);
      if |key| != WrapKeyLength then Err(Plain(KeyLengthMessage)) else Ok(key)
  }

  /** `wrapSecret(plaintext)` with the random IV as a parameter. The key is
      checked before any cipher work. */
  function Wrap(g: Gcm, env: Option<string>, plaintext: seq<byte>, iv: seq<byte>): (r: Result<WrappedSecret, Thrown>)
    requires |iv| == IvLength
    ensures r.Ok? <==> GetWrapKey(env).Ok?
    ensures r.Err? ==> r.error == GetWrapKey(env).error
    ensures r.Ok? ==> Decode(r.value.iv) == iv && |Decode(r.value.authTag)| == TagLength
                      && |Decode(r.value.wrapped)| == |plaintext|
  {
    match GetWrapKey(env)
    case Err(e) => Err(e)
    case Ok(key) =>
      var ciphertext := Ctr(g, key, iv, plaintext);
      DecodeEncode(ciphertext);
      DecodeEncode(iv);
      DecodeEncode(FullTag(g, key, iv, ciphertext));
      Ok(WrappedSecret(Encode(ciphertext), Encode(iv), Encode(FullTag(g, key, iv, ciphertext))))
  }

  /** `unwrapSecret(payload)`: decode the three fields, check the IV and tag
      lengths, and release the plaintext only if the tag verifies. */
  function Unwrap(g: Gcm, env: Option<string>, payload: WrappedSecret): (r: Result<seq<byte>, Thrown>)
    ensures GetWrapKey(env).Err? ==> r == Err(GetWrapKey(env).error)
    ensures GetWrapKey(env).Ok? && |Decode(payload.iv)| == 0 ==> r == Err(Plain(InvalidIvMessage))
    ensures r.Ok? ==> |r.value| == |Decode(payload.wrapped)|
  {
    match GetWrapKey(env)
    case Err(e) => Err(e)
    case Ok(key) =>
      var iv := Decode(payload.iv);
      var tag := Decode(payload.authTag);
      var ciphertext := Decode(payload.wrapped);
      if |iv| == 0 then Err(Plain(InvalidIvMessage))
      else if !ValidTagLength(|tag|) then Err(Plain(InvalidTagLengthMessage))
      else if tag != FullTag(g, key, iv, ciphertext)[..|tag|] then Err(Plain(AuthFailedMessage))
      else Ok(Ctr(g, key, iv, ciphertext))
  }

  /** `generateAccountMasterKey` with the 32 random bytes as a parameter. */
  function GenerateAccountMasterKey(random: seq<byte>): (key: string)
    requires |random| == 32
    ensures Decode(key) == random
    ensures GetWrapKey(Some(key)) == Ok(random)
  {
    DecodeEncode(random);
    Encode(random)
  }

  lemma {:induction false} CtrInvolution(g: Gcm, key: seq<byte>, iv: seq<byte>, data: seq<byte>)
    ensures Ctr(g, key, iv, Ctr(g, key, iv, data)) == data
  {
    var once := Ctr(g, key, iv, data);
    var twice := Ctr(g, key, iv, once);
    forall i | 0 <= i < |data|
      ensures twice[i] == data[i]
    {
      assert twice[i] == (data[i] ^ g.keystreamByte(key, iv, i)) ^ g.keystreamByte(key, iv, i);
    }
  }

  /** Which keys pass the gate: exactly those with 43 alphabet characters
      before the first `=` (a 32-byte key is 43 characters plus one `=`). */
  lemma KeyGateCharacters(s: string)
    ensures GetWrapKey(Some(s)).Ok? <==> |Sextets(s)| == 43
  {
    var n := |Sextets(s)|;
    FromSextetsLength(Sextets(s));
    if s == "" {
      assert Sextets(s) == [];
    }
    var k, m := n / 4, n % 4;
    assert n == 4 * k + m;
    if k <= 9 {
      assert k * 3 <= 27;
    } else if k >= 11 {
      assert k * 3 >= 33;
    }
  }

  /** A key that base64-encodes anything other than 32 bytes is refused with
      the key-length error, and no wrapping happens. */
  lemma WrongLengthKeyRejected(g: Gcm, raw: seq<byte>, plaintext: seq<byte>, iv: seq<byte>)
    requires |raw| != WrapKeyLength && |iv| == IvLength
    ensures raw != [] ==> Wrap(g, Some(Encode(raw)), plaintext, iv) == Err(Plain(KeyLengthMessage))
    ensures Unwrap(g, Some(Encode(raw)), WrappedSecret("", "", "")).Err?
  {
    DecodeEncode(raw);
  }

  /** Unwrapping what was wrapped gives the plaintext back. */
  lemma UnwrapWrap(g: Gcm, env: Option<string>, plaintext: seq<byte>, iv: seq<byte>)
    requires |iv| == IvLength
    requires Wrap(g, env, plaintext, iv).Ok?
    ensures Unwrap(g, env, Wrap(g, env, plaintext, iv).value) == Ok(plaintext)
  {
    var key := GetWrapKey(env).value;
    var ciphertext := Ctr(g, key, iv, plaintext);
    var tag := FullTag(g, key, iv, ciphertext);
    DecodeEncode(ciphertext);
    DecodeEncode(iv);
    DecodeEncode(tag);
    assert tag[..|tag|] == tag;
    CtrInvolution(g, key, iv, plaintext);
  }

  /** Every wrap stores its own IV: wrapping under two different IVs gives
      two different envelopes, and the IV field decodes to 12 bytes. */
  lemma FreshIvPerWrap(g: Gcm, env: Option<string>, p1: seq<byte>, p2: seq<byte>, iv1: seq<byte>, iv2: seq<byte>)
    requires |iv1| == IvLength && |iv2| == IvLength
    requires Wrap(g, env, p1, iv1).Ok?
    ensures |Decode(Wrap(g, env, p1, iv1).value.iv)| == IvLength
    ensures iv1 != iv2 ==> Wrap(g, env, p1, iv1) != Wrap(g, env, p2, iv2)
  {
    DecodeEncode(iv1);
    DecodeEncode(iv2);
  }

  /** Replacing the tag by any other full-length tag makes unwrapping fail
      with the authentication error; no plaintext is released. */
  lemma ForgedTagRejected(g: Gcm, env: Option<string>, plaintext: seq<byte>, iv: seq<byte>, forged: seq<byte>)
    requires |iv| == IvLength
    requires Wrap(g, env, plaintext, iv).Ok?
    requires |forged| == TagLength && Encode(forged) != Wrap(g, env, plaintext, iv).value.authTag
    ensures Unwrap(g, env, Wrap(g, env, plaintext, iv).value.(authTag := Encode(forged))) == Err(Plain(AuthFailedMessage))
  {
    var key := GetWrapKey(env).value;
    var ciphertext := Ctr(g, key, iv, plaintext);
    DecodeEncode(ciphertext);
    DecodeEncode(iv);
    DecodeEncode(forged);
    assert forged != FullTag(g, key, iv, ciphertext);
  }

  /** Unwrap releases a plaintext only when the presented tag equals the
      (possibly truncated) tag the key computes over the ciphertext. */
  lemma UnwrapReleasesOnlyAuthentic(g: Gcm, env: Option<string>, payload: WrappedSecret)
    requires Unwrap(g, env, payload).Ok?
    ensures GetWrapKey(env).Ok?
    ensures ValidTagLength(|Decode(payload.authTag)|)
    ensures Decode(payload.authTag) ==
              FullTag(g, GetWrapKey(env).value, Decode(payload.iv), Decode(payload.wrapped))[..|Decode(payload.authTag)|]
    ensures Unwrap(g, env, payload).value == Ctr(g, GetWrapKey(env).value, Decode(payload.iv), Decode(payload.wrapped))
  {
  }
}
