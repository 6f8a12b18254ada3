/**
 * Authenticated encryption front-end (app/src/vault/encryption.ts): the key-length and
 * version guards and the payload shape around libsodium's XSalsa20-Poly1305
 * `crypto_secretbox_easy` / `crypto_secretbox_open_easy`.
 */
module Encryption {
  import opened Wrappers
  import opened Errors
  import opened Platform
  import Base64

  /** The on-disk form of one sealed message. */
  datatype EncryptedPayload = EncryptedPayload(
    /** base64 of the nonce */
    nonce: string,
    /** base64 of the ciphertext with its authentication tag */
    ciphertext: string,
    /** schema version */
    version: int)

  /** The only payload version the code writes or reads. */
  const PayloadVersion: int := 1

  /**
   * encrypt: the key length is checked before anything else; a fresh nonce is drawn from
   * `entropy` for this call.
   */
  function Encrypt(sodium: Sodium, utf8: Utf8, plaintext: string, key: Bytes, entropy: Entropy)
    : (r: Result<EncryptedPayload, Error>)
    ensures |key| != SecretboxKeyBytes ==> r == Failure(EncryptionKeyLength)
    ensures r.Failure? ==> r.error == EncryptionKeyLength || r.error == EncryptionFailed
    ensures r.Success? ==>
      && r.value.version == PayloadVersion
      && Base64.Decode(r.value.nonce) == Some(RandomBytes(SecretboxNonceBytes, entropy))
    ensures SodiumContract(sodium) && |key| == SecretboxKeyBytes ==> r.Success?
  {
    if |key| != SecretboxKeyBytes then Failure(EncryptionKeyLength)
    else
      var nonce := RandomBytes(SecretboxNonceBytes, entropy);
      match sodium.secretboxEasy(utf8.encode(plaintext), nonce, key)
      case None => Failure(EncryptionFailed)
      case Some(ciphertext) =>
        Base64.DecodeEncode(nonce);
        Success(EncryptedPayload(Base64.Encode(nonce), Base64.Encode(ciphertext), PayloadVersion))
  }

  /**
   * decrypt: the key length first, then the version, before any base64 decoding or
   * cryptographic work. Past those two guards every failure (bad base64, a nonce of the wrong
   * size, a failed authentication tag) is one and the same error, so a wrong key cannot be
   * told apart from tampered data.
   */
  function Decrypt(sodium: Sodium, utf8: Utf8, payload: EncryptedPayload, key: Bytes)
    : (r: Result<string, Error>)
    ensures |key| != SecretboxKeyBytes ==> r == Failure(DecryptionKeyLength)
    ensures |key| == SecretboxKeyBytes && payload.version != PayloadVersion ==>
      r == Failure(UnsupportedVersion(payload.version))
    ensures |key| == SecretboxKeyBytes && payload.version == PayloadVersion && r.Failure? ==>
      r.error == DecryptionFailed
    ensures r.Success? ==>
      exists nonce, ciphertext, plain ::
        && Base64.Decode(payload.nonce) == Some(nonce)
        && Base64.Decode(payload.ciphertext) == Some(ciphertext)
        && sodium.secretboxOpenEasy(ciphertext, nonce, key) == Some(plain)
        && r.value == utf8.decode(plain)
  {
    if |key| != SecretboxKeyBytes then Failure(DecryptionKeyLength)
    else if payload.version != PayloadVersion then Failure(UnsupportedVersion(payload.version))
    else match (Base64.Decode(payload.nonce), Base64.Decode(payload.ciphertext))
      case (Some(nonce), Some(ciphertext)) =>
        (match sodium.secretboxOpenEasy(ciphertext, nonce, key)
         case None => Failure(DecryptionFailed)
         case Some(plain) => Success(utf8.decode(plain)))
      case _ => Failure(DecryptionFailed)
  }

  /** encryptJSON: stringify, then encrypt. */
  function EncryptJson<T>(json: JsonCodec<T>, sodium: Sodium, utf8: Utf8, data: T, key: Bytes, entropy: Entropy)
    : (r: Result<EncryptedPayload, Error>)
    ensures |key| != SecretboxKeyBytes ==> r == Failure(EncryptionKeyLength)
    ensures r.Success? ==> r.value.version == PayloadVersion
    ensures SodiumContract(sodium) && |key| == SecretboxKeyBytes ==> r.Success?
  {
    Encrypt(sodium, utf8, json.stringify(data), key, entropy)
  }

  /**
   * decryptJSON: decrypt, then parse. A decryption error propagates as it is; a parse failure
   * after a successful decryption is JSON.parse's own SyntaxError, not wrapped.
   */
  function DecryptJson<T>(json: JsonCodec<T>, sodium: Sodium, utf8: Utf8, payload: EncryptedPayload, key: Bytes)
    : (r: Result<T, Error>)
    ensures Decrypt(sodium, utf8, payload, key).Failure? ==>
      r == Failure(Decrypt(sodium, utf8, payload, key).error)
    ensures r == Failure(MalformedJson) ==> Decrypt(sodium, utf8, payload, key).Success?
    ensures (Decrypt(sodium, utf8, payload, key).Success? &&
             json.parse(Decrypt(sodium, utf8, payload, key).value).None?) ==> r == Failure(MalformedJson)
    ensures r.Success? ==>
      Decrypt(sodium, utf8, payload, key).Success? &&
      json.parse(Decrypt(sodium, utf8, payload, key).value) == Some(r.value)
  {
    match Decrypt(sodium, utf8, payload, key)
    case Failure(e) => Failure(e)
    case Success(text) =>
      match json.parse(text)
      case None => Failure(MalformedJson)
      case Some(v) => Success(v)
  }

  /**
   * decrypt(encrypt(p, k), k) == p for every 32-byte key, given that secretbox-open inverts
   * secretbox and UTF-8 decoding inverts encoding.
   */
  lemma {:induction false} DecryptEncrypt(sodium: Sodium, utf8: Utf8, plaintext: string, key: Bytes, entropy: Entropy)
    requires SodiumContract(sodium) && Utf8Contract(utf8)
    requires |key| == SecretboxKeyBytes
    ensures Encrypt(sodium, utf8, plaintext, key, entropy).Success?
    ensures Decrypt(sodium, utf8, Encrypt(sodium, utf8, plaintext, key, entropy).value, key) == Success(plaintext)
  {
    var nonce := RandomBytes(SecretboxNonceBytes, entropy);
    var sealed := sodium.secretboxEasy(utf8.encode(plaintext), nonce, key);
    assert sealed.Some?;
    Base64.DecodeEncode(nonce);
    Base64.DecodeEncode(sealed.value);
  }

  /**
   * A payload whose nonce does not decode to 24 bytes never opens: with a well-sized key and
   * the current version it fails with the one generic error.
   */
  lemma DecryptWrongNonceSize(sodium: Sodium, utf8: Utf8, payload: EncryptedPayload, key: Bytes)
    requires SodiumContract(sodium)
    requires |key| == SecretboxKeyBytes && payload.version == PayloadVersion
    requires Base64.Decode(payload.nonce).Some? && |Base64.Decode(payload.nonce).value| != SecretboxNonceBytes
    ensures Decrypt(sodium, utf8, payload, key) == Failure(DecryptionFailed)
  {
  }

  /** decryptJSON(encryptJSON(v, k), k) == v for every value the JSON codec round-trips. */
  lemma DecryptJsonEncryptJson<T(!new)>(json: JsonCodec<T>, sodium: Sodium, utf8: Utf8, data: T, key: Bytes, entropy: Entropy)
    requires JsonContract(json) && SodiumContract(sodium) && Utf8Contract(utf8)
    requires |key| == SecretboxKeyBytes
    ensures EncryptJson(json, sodium, utf8, data, key, entropy).Success?
    ensures DecryptJson(json, sodium, utf8, EncryptJson(json, sodium, utf8, data, key, entropy).value, key) == Success(data)
  {
    DecryptEncrypt(sodium, utf8, json.stringify(data), key, entropy);
  }
}
