/**
 * PIN-to-key derivation (app/src/vault/keyDerivation.ts): argument checks in front of
 * libsodium's Argon2id `crypto_pwhash`, and the salt generator.
 */
module KeyDerivation {
  import opened Wrappers
  import opened Errors
  import opened Platform

  /** KEY_LENGTH: the XSalsa20-Poly1305 key size. */
  const KeyLength: nat := 32

  /** The shortest PIN deriveKey accepts. */
  const MinPinLength: nat := 4

  /** generateSalt: randombytes_buf(crypto_pwhash_SALTBYTES). */
  function GenerateSalt(entropy: Entropy): (salt: Bytes)
    ensures |salt| == PwhashSaltBytes
  {
    RandomBytes(PwhashSaltBytes, entropy)
  }

  /**
   * deriveKey: rejects a PIN shorter than four UTF-16 code units (JavaScript's `length`),
   * then a salt of the wrong length, and only then runs the KDF; a KDF failure is rethrown as
   * one wrapped error. JavaScript's `!pin` is the empty PIN, which the length test already
   * covers.
   */
  function DeriveKey(sodium: Sodium, utf8: Utf8, pin: string, salt: Bytes): (r: Result<Bytes, Error>)
    ensures r == Failure(PinTooShort) <==> Utf16Length(pin) < MinPinLength
    ensures Utf16Length(pin) >= MinPinLength && |salt| != PwhashSaltBytes ==> r == Failure(SaltLength)
    ensures Utf16Length(pin) >= MinPinLength && |salt| == PwhashSaltBytes && r.Failure? ==>
      r.error == KeyDerivationFailed
    ensures r.Failure? ==> r.error == PinTooShort || r.error == SaltLength || r.error == KeyDerivationFailed
    ensures r.Success? ==>
      Utf16Length(pin) >= MinPinLength && |salt| == PwhashSaltBytes &&
      sodium.pwhash(KeyLength, utf8.encode(pin), salt) == Some(r.value)
    ensures SodiumContract(sodium) && r.Success? ==> |r.value| == SecretboxKeyBytes
  {
    if Utf16Length(pin) < MinPinLength then Failure(PinTooShort)
    else if |salt| != PwhashSaltBytes then Failure(SaltLength)
    else match sodium.pwhash(KeyLength, utf8.encode(pin), salt)
      case None => Failure(KeyDerivationFailed)
      case Some(key) => Success(key)
  }

  /**
   * The key deriveKey produces has exactly the length encrypt and decrypt demand; and it
   * succeeds on every PIN of at least four characters and every fresh salt whenever the KDF
   * itself does not fail.
   */
  lemma DerivedKeyFitsSecretbox(sodium: Sodium, utf8: Utf8, pin: string, entropy: Entropy)
    requires SodiumContract(sodium)
    requires Utf16Length(pin) >= MinPinLength
    requires sodium.pwhash(KeyLength, utf8.encode(pin), GenerateSalt(entropy)).Some?
    ensures DeriveKey(sodium, utf8, pin, GenerateSalt(entropy)).Success?
    ensures |DeriveKey(sodium, utf8, pin, GenerateSalt(entropy)).value| == SecretboxKeyBytes
  {
  }
}
