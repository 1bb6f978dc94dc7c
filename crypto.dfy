/**
 * The agent's envelope codec (`Crypto` in the client).  A 256-bit key is
 * derived once from the shared token; `Encrypt` seals a buffer under AES-GCM
 * with a fresh 12-byte nonce and lays the result out as
 *
 *     nonce (12 bytes) ‖ tag (16 bytes) ‖ ciphertext (N bytes)
 *
 * and `Decrypt` splits such an envelope at offsets 12 and 28 and opens it.
 *
 * SHA-256, UTF-8, base64 and AES-GCM are library code: they are the function
 * values of a `Primitives` record, constrained only by the laws in `Lawful`
 * (opening under the same key and nonce inverts sealing, ciphertexts are as long
 * as plaintexts, decoding inverts encoding).  The random nonce is a parameter.
 */
module Crypto {
  import opened Common

  const NonceSize: nat := 12
  const TagSize: nat := 16
  /** Bytes in front of the ciphertext. */
  const HeaderSize: nat := NonceSize + TagSize
  /** Mixed into key derivation in front of the token. */
  const KeyPrefix: string := "RemoteCmd:v1:"

  type Key = k: seq<byte> | |k| == 32 witness seq(32, _ => 0)
  type Nonce = n: seq<byte> | |n| == NonceSize witness seq(12, _ => 0)
  type Tag = t: seq<byte> | |t| == TagSize witness seq(16, _ => 0)

  /** What AES-GCM encryption writes: the ciphertext and the authentication tag. */
  datatype Sealed = Sealed(ciphertext: seq<byte>, tag: Tag)

  /** The library functions the codec calls. */
  datatype Primitives = Primitives(
    sha256: seq<byte> -> Key,
    utf8Encode: string -> seq<byte>,
    utf8Decode: seq<byte> -> string,
    base64Encode: seq<byte> -> string,
    base64Decode: string -> Option<seq<byte>>,   // None: FormatException
    seal: (Key, Nonce, seq<byte>) -> Sealed,
    open: (Key, Nonce, seq<byte>, Tag) -> Option<seq<byte>>)   // None: tag mismatch

  /** The only facts about the primitives the framing relies on. */
  ghost predicate Lawful(p: Primitives) {
    (forall k, n, m {:trigger p.seal(k, n, m)} ::
       |p.seal(k, n, m).ciphertext| == |m|
       && p.open(k, n, p.seal(k, n, m).ciphertext, p.seal(k, n, m).tag) == Some(m))
    && (forall k, n, c, t {:trigger p.open(k, n, c, t)} ::
          p.open(k, n, c, t).Some? ==> |p.open(k, n, c, t).value| == |c|)
    && (forall b {:trigger p.base64Encode(b)} :: p.base64Decode(p.base64Encode(b)) == Some(b))
    && (forall s {:trigger p.utf8Encode(s)} :: p.utf8Decode(p.utf8Encode(s)) == s)
  }

  /** Failures of the codec. */
  datatype CryptoError =
    | KeyNotInitialized   // `_key` still null: the AesGcm constructor throws
    | InvalidData         // "Invalid encrypted data": shorter than the header
    | TagMismatch         // AES-GCM authentication failed
    | MalformedBase64     // Convert.FromBase64String threw

  /** The key for a token: SHA-256 of the UTF-8 bytes of the prefixed token. */
  function DeriveKey(p: Primitives, token: string): Key {
    p.sha256(p.utf8Encode(KeyPrefix + token))
  }

  // ---- framing ----

  /** The envelope layout. */
  function Assemble(nonce: Nonce, tag: Tag, ciphertext: seq<byte>): (env: seq<byte>)
    ensures |env| == HeaderSize + |ciphertext|
    ensures env[..NonceSize] == nonce
    ensures env[NonceSize..HeaderSize] == tag
    ensures env[HeaderSize..] == ciphertext
  {
    nonce + tag + ciphertext
  }

  /** The three parts of an envelope of at least `HeaderSize` bytes. */
  datatype Parts = Parts(nonce: Nonce, tag: Tag, ciphertext: seq<byte>)

  function Split(env: seq<byte>): (parts: Parts)
    requires |env| >= HeaderSize
    ensures |parts.ciphertext| == |env| - HeaderSize
  {
    Parts(env[..NonceSize], env[NonceSize..HeaderSize], env[HeaderSize..])
  }

  /** Splitting an assembled envelope gives back exactly its parts. */
  lemma SplitAssemble(nonce: Nonce, tag: Tag, ciphertext: seq<byte>)
    ensures Split(Assemble(nonce, tag, ciphertext)) == Parts(nonce, tag, ciphertext)
  {
  }

  /** Assembling the parts of an envelope gives back the envelope. */
  lemma AssembleSplit(env: seq<byte>)
    requires |env| >= HeaderSize
    ensures Assemble(Split(env).nonce, Split(env).tag, Split(env).ciphertext) == env
  {
    assert env == env[..NonceSize] + env[NonceSize..HeaderSize] + env[HeaderSize..];
  }

  /** What `Encrypt` computes, as a value. */
  function SealEnvelope(p: Primitives, key: Option<Key>, nonce: Nonce, plaintext: seq<byte>)
    : (r: Result<seq<byte>, CryptoError>)
    ensures key.None? <==> r == Failure(KeyNotInitialized)
    ensures r.Success? ==>
              |r.value| >= HeaderSize && r.value[..NonceSize] == nonce
              && r.value[NonceSize..HeaderSize] == p.seal(key.value, nonce, plaintext).tag
              && r.value[HeaderSize..] == p.seal(key.value, nonce, plaintext).ciphertext
  {
    match key
    case None => Failure(KeyNotInitialized)
    case Some(k) =>
      var s := p.seal(k, nonce, plaintext);
      Success(Assemble(nonce, s.tag, s.ciphertext))
  }

  /** What `Decrypt` computes, as a value: the length check comes first. */
  function OpenEnvelope(p: Primitives, key: Option<Key>, env: seq<byte>)
    : (r: Result<seq<byte>, CryptoError>)
    ensures |env| < HeaderSize ==> r == Failure(InvalidData)
    ensures |env| >= HeaderSize && key.None? ==> r == Failure(KeyNotInitialized)
    ensures r.Success? <==>
              |env| >= HeaderSize && key.Some?
              && p.open(key.value, env[..NonceSize], env[HeaderSize..], env[NonceSize..HeaderSize]).Some?
    ensures r.Success? ==>
              Some(r.value) == p.open(key.value, env[..NonceSize], env[HeaderSize..], env[NonceSize..HeaderSize])
  {
    if |env| < HeaderSize then Failure(InvalidData)
    else match key
      case None => Failure(KeyNotInitialized)
      case Some(k) =>
        var parts := Split(env);
        match p.open(k, parts.nonce, parts.ciphertext, parts.tag)
        case None => Failure(TagMismatch)
        case Some(m) => Success(m)
  }

  /** A sealed envelope is exactly 28 bytes longer than its plaintext and
      carries the nonce, the tag and the ciphertext at offsets 0, 12 and 28. */
  lemma {:induction false} SealEnvelopeLayout(p: Primitives, k: Key, nonce: Nonce, plaintext: seq<byte>)
    requires Lawful(p)
    ensures SealEnvelope(p, Some(k), nonce, plaintext).Success?
    ensures |SealEnvelope(p, Some(k), nonce, plaintext).value| == HeaderSize + |plaintext|
    ensures SealEnvelope(p, Some(k), nonce, plaintext).value
            == Assemble(nonce, p.seal(k, nonce, plaintext).tag, p.seal(k, nonce, plaintext).ciphertext)
  {
    assert |p.seal(k, nonce, plaintext).ciphertext| == |plaintext|;
  }

  /** Short input is refused before any key or cipher is consulted. */
  lemma OpenShortEnvelope(p: Primitives, key: Option<Key>, env: seq<byte>)
    requires |env| < HeaderSize
    ensures OpenEnvelope(p, key, env) == Failure(InvalidData)
  {
  }

  /** Opened plaintext is 28 bytes shorter than the envelope. */
  lemma {:induction false} OpenEnvelopeLength(p: Primitives, key: Option<Key>, env: seq<byte>)
    requires Lawful(p)
    requires OpenEnvelope(p, key, env).Success?
    ensures |OpenEnvelope(p, key, env).value| == |env| - HeaderSize
  {
    var parts := Split(env);
    assert p.open(key.value, parts.nonce, parts.ciphertext, parts.tag).Some?;
  }

  /** Round trip: opening under the sealing key gives back the plaintext. */
  lemma {:induction false} OpenSealEnvelope(p: Primitives, k: Key, nonce: Nonce, plaintext: seq<byte>)
    requires Lawful(p)
    ensures OpenEnvelope(p, Some(k), SealEnvelope(p, Some(k), nonce, plaintext).value) == Success(plaintext)
  {
    var s := p.seal(k, nonce, plaintext);
    assert |s.ciphertext| == |plaintext|;
    SplitAssemble(nonce, s.tag, s.ciphertext);
  }

  /** The same round trip through the base64 string wrappers. */
  lemma {:induction false} DecryptEncryptString(p: Primitives, k: Key, nonce: Nonce, text: string)
    requires Lawful(p)
    ensures SealEnvelope(p, Some(k), nonce, p.utf8Encode(text)).Success?
    ensures var wire := p.base64Encode(SealEnvelope(p, Some(k), nonce, p.utf8Encode(text)).value);
            p.base64Decode(wire).Some?
            && OpenEnvelope(p, Some(k), p.base64Decode(wire).value) == Success(p.utf8Encode(text))
            && p.utf8Decode(p.utf8Encode(text)) == text
  {
    var env := SealEnvelope(p, Some(k), nonce, p.utf8Encode(text)).value;
    assert p.base64Decode(p.base64Encode(env)) == Some(env);
    OpenSealEnvelope(p, k, nonce, p.utf8Encode(text));
  }

  // ---- the codec ----

  /** `Buffer.BlockCopy(src, srcOffset, dst, dstOffset, count)`: the bytes of
      `src` at `srcOffset` replace `count` bytes of `dst` at `dstOffset`. */
  method BlockCopy(src: array<byte>, srcOffset: nat, dst: array<byte>, dstOffset: nat, count: nat)
    requires srcOffset + count <= src.Length && dstOffset + count <= dst.Length
    modifies dst
    ensures dst[..] == old(dst[..dstOffset]) + old(src[srcOffset..srcOffset + count]) + old(dst[dstOffset + count..])
  {
    var chunk := src[srcOffset..srcOffset + count];
    var i := 0;
    while i < count
      invariant 0 <= i <= count
      invariant dst[..dstOffset] == old(dst[..dstOffset])
      invariant dst[dstOffset..dstOffset + i] == chunk[..i]
      invariant dst[dstOffset + count..] == old(dst[dstOffset + count..])
      invariant dst[dstOffset + i..dstOffset + count] == old(dst[dstOffset + i..dstOffset + count])
    {
      dst[dstOffset + i] := chunk[i];
      i := i + 1;
    }
    assert dst[..] == dst[..dstOffset] + dst[dstOffset..dstOffset + count] + dst[dstOffset + count..];
  }

  /** A fresh array holding `s`. */
  method ToArray(s: seq<byte>) returns (a: array<byte>)
    ensures fresh(a) && a[..] == s
  {
    a := new byte[|s|](i requires 0 <= i < |s| => s[i]);
  }

  /** The static class `Crypto`: the primitives and the key `Init` sets. */
  class Codec {
    const primitives: Primitives
    var key: Option<Key>

    ghost predicate Valid()
      reads this
    {
      Lawful(primitives)
    }

    /** Before `Init` the key field is null. */
    constructor (primitives: Primitives)
      requires Lawful(primitives)
      ensures Valid() && this.primitives == primitives && key == None
    {
      this.primitives := primitives;
      key := None;
    }

    /** `Init(token)`: the key becomes the one derived from the token. */
    method Init(token: string)
      modifies this
      ensures key == Some(DeriveKey(primitives, token))
    {
      key := Some(DeriveKey(primitives, token));
    }

    /** `Encrypt(data)` with `nonce` standing for the bytes the random number
        generator fills in. */
    method Encrypt(data: array<byte>, nonce: Nonce) returns (r: Result<array<byte>, CryptoError>)
      requires Valid()
      ensures key == None ==> r == Failure(KeyNotInitialized)
      ensures key != None ==> r.Success? && r.value.Length == HeaderSize + data.Length
      ensures r.Success? ==> SealEnvelope(primitives, key, nonce, data[..]) == Success(r.value[..])
    {
      var nonceBytes := ToArray(nonce);
      if key == None {
        return Failure(KeyNotInitialized);
      }
      var s := primitives.seal(key.value, nonce, data[..]);
      assert |s.ciphertext| == data.Length;
      var ciphertext := ToArray(s.ciphertext);
      var tag := ToArray(s.tag);

      var result := new byte[HeaderSize + ciphertext.Length];
      BlockCopy(nonceBytes, 0, result, 0, NonceSize);
      BlockCopy(tag, 0, result, NonceSize, TagSize);
      BlockCopy(ciphertext, 0, result, HeaderSize, ciphertext.Length);
      assert result[..] == nonce + s.tag + s.ciphertext;
      return Success(result);
    }

    /** `Decrypt(data)`. */
    method Decrypt(data: array<byte>) returns (r: Result<array<byte>, CryptoError>)
      requires Valid()
      ensures data.Length < HeaderSize ==> r == Failure(InvalidData)
      ensures r.Success? ==> r.value.Length == data.Length - HeaderSize
      ensures OpenEnvelope(primitives, key, data[..])
              == if r.Success? then Success(r.value[..]) else Failure(r.error)
    {
      if data.Length < HeaderSize {
        return Failure(InvalidData);
      }
      var nonce := new byte[NonceSize];
      var tag := new byte[TagSize];
      var ciphertext := new byte[data.Length - HeaderSize];
      BlockCopy(data, 0, nonce, 0, NonceSize);
      BlockCopy(data, NonceSize, tag, 0, TagSize);
      BlockCopy(data, HeaderSize, ciphertext, 0, ciphertext.Length);
      assert nonce[..] == data[..NonceSize];
      assert tag[..] == data[NonceSize..HeaderSize];
      assert data[HeaderSize..HeaderSize + ciphertext.Length] == data[HeaderSize..];
      assert ciphertext[..] == data[HeaderSize..];

      if key == None {
        return Failure(KeyNotInitialized);
      }
      var plain := primitives.open(key.value, nonce[..], ciphertext[..], tag[..]);
      if plain == None {
        return Failure(TagMismatch);
      }
      var plaintext := ToArray(plain.value);
      return Success(plaintext);
    }

    /** `EncryptString(text)`: UTF-8, encrypt, base64. */
    method EncryptString(text: string, nonce: Nonce) returns (r: Result<string, CryptoError>)
      requires Valid()
      ensures key == None ==> r == Failure(KeyNotInitialized)
      ensures key != None ==> r.Success?
      ensures r.Success? ==>
                (SealEnvelope(primitives, key, nonce, primitives.utf8Encode(text)).Success?
                 && r.value == primitives.base64Encode(
                      SealEnvelope(primitives, key, nonce, primitives.utf8Encode(text)).value))
    {
      var bytes := ToArray(primitives.utf8Encode(text));
      var sealed := Encrypt(bytes, nonce);
      match sealed
      case Failure(e) => return Failure(e);
      case Success(env) => return Success(primitives.base64Encode(env[..]));
    }

    /** `DecryptString(base64)`: base64, decrypt, UTF-8. */
    method DecryptString(base64: string) returns (r: Result<string, CryptoError>)
      requires Valid()
      ensures primitives.base64Decode(base64) == None ==> r == Failure(MalformedBase64)
      ensures primitives.base64Decode(base64) != None ==>
                match OpenEnvelope(primitives, key, primitives.base64Decode(base64).value)
                case Success(m) => r == Success(primitives.utf8Decode(m))
                case Failure(e) => r == Failure(e)
    {
      var bytes := primitives.base64Decode(base64);
      if bytes == None {
        return Failure(MalformedBase64);
      }
      var env := ToArray(bytes.value);
      var result := Decrypt(env);
      match result
      case Failure(e) => return Failure(e);
      case Success(m) => return Success(primitives.utf8Decode(m[..]));
    }
  }
}
