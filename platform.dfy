/**
 * The platform services the vault core consumes but does not implement: libsodium
 * (XSalsa20-Poly1305 `crypto_secretbox`, Argon2id `crypto_pwhash`, `randombytes_buf`),
 * TextEncoder/TextDecoder and JSON.stringify/JSON.parse.
 *
 * Each service is a function value carried in a record, so that the model never fixes an
 * implementation. What the vault relies on about a service (that opening a sealed box gives
 * the message back, that parsing a stringified value gives the value back) is stated as a
 * ghost "contract" predicate; the members that need it take it as a hypothesis.
 */
module Platform {
  import opened Wrappers

  type Byte = b: int | 0 <= b < 256
  type Bytes = seq<Byte>

  /** crypto_secretbox_KEYBYTES */
  const SecretboxKeyBytes: nat := 32
  /** crypto_secretbox_NONCEBYTES */
  const SecretboxNonceBytes: nat := 24
  /** crypto_pwhash_SALTBYTES (16 in libsodium and in the test mock) */
  const PwhashSaltBytes: nat := 16

  /**
   * A cryptographically secure random source, seen from one call of randombytes_buf:
   * the byte at each position of the stream that this call draws from.
   */
  type Entropy = nat -> Byte

  /** randombytes_buf(n): the first n bytes of the call's random stream. */
  function RandomBytes(n: nat, entropy: Entropy): (r: Bytes)
    ensures |r| == n
    ensures forall i :: 0 <= i < n ==> r[i] == entropy(i)
  {
    seq(n, (i: int) requires 0 <= i => entropy(i))
  }

  /**
   * The three libsodium entry points the core calls. A `None` result is the primitive
   * throwing (authentication failure for `secretboxOpenEasy`, out of memory for `pwhash`).
   */
  datatype Sodium = Sodium(
    /** crypto_secretbox_easy(message, nonce, key) */
    secretboxEasy: (Bytes, Bytes, Bytes) -> Option<Bytes>,
    /** crypto_secretbox_open_easy(ciphertext, nonce, key) */
    secretboxOpenEasy: (Bytes, Bytes, Bytes) -> Option<Bytes>,
    /** crypto_pwhash(outputLength, password, salt) with the Argon2id13 algorithm and the
        interactive ops and memory limits */
    pwhash: (nat, Bytes, Bytes) -> Option<Bytes>)

  /**
   * What libsodium documents and the vault relies on: sealing with a key and nonce of the
   * right sizes succeeds and opening the box with the same nonce and key gives the message
   * back; opening with a nonce of any other size throws; a successful pwhash returns exactly the number of bytes asked for.
   */
  ghost predicate SodiumContract(s: Sodium) {
    && (forall m, n, k | |n| == SecretboxNonceBytes && |k| == SecretboxKeyBytes ::
          s.secretboxEasy(m, n, k).Some? &&
          s.secretboxOpenEasy(s.secretboxEasy(m, n, k).value, n, k) == Some(m))
    && (forall c, n, k | |n| != SecretboxNonceBytes :: s.secretboxOpenEasy(c, n, k).None?)
    && (forall len, pw, salt | s.pwhash(len, pw, salt).Some? ::
          |s.pwhash(len, pw, salt).value| == len)
  }

  /**
   * JavaScript's `String.prototype.length`: the number of UTF-16 code units, so a character
   * outside the Basic Multilingual Plane counts twice.
   */
  function Utf16Length(s: string): (n: nat)
    ensures |s| <= n <= 2 * |s|
    ensures (forall i :: 0 <= i < |s| ==> s[i] as int <= 0xFFFF) ==> n == |s|
  {
    if s == [] then 0
    else (if s[0] as int > 0xFFFF then 2 else 1) + Utf16Length(s[1..])
  }

  /** Two emoji are four UTF-16 code units, though only two characters. */
  lemma Utf16LengthOfAstral()
    ensures |"\U{1F600}\U{1F600}"| == 2
    ensures Utf16Length("\U{1F600}\U{1F600}") == 4
  {
    var s := "\U{1F600}\U{1F600}";
    assert s[1..][1..] == [];
  }

  /** TextEncoder.encode and TextDecoder.decode (UTF-8). */
  datatype Utf8 = Utf8(encode: string -> Bytes, decode: Bytes -> string)

  ghost predicate Utf8Contract(u: Utf8) {
    forall s :: u.decode(u.encode(s)) == s
  }

  /** JSON.stringify and `JSON.parse(...) as T` for one type; `None` is a SyntaxError. */
  datatype JsonCodec<!T> = JsonCodec(stringify: T -> string, parse: string -> Option<T>)

  ghost predicate JsonContract<T(!new)>(c: JsonCodec<T>) {
    forall v :: c.parse(c.stringify(v)) == Some(v)
  }
}
