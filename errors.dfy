/**
 * The exceptions the vault core throws, one constructor per distinct `new Error(...)`
 * (or per library exception the code lets through).
 */
module Errors {

  datatype Error =
    /** encrypt: "Encryption key must be 32 bytes" */
    | EncryptionKeyLength
    /** decrypt: "Decryption key must be 32 bytes" */
    | DecryptionKeyLength
    /** decrypt: "Unsupported vault version: <v>" */
    | UnsupportedVersion(version: int)
    /** encrypt: "Encryption failed: ..." (secretbox itself threw) */
    | EncryptionFailed
    /** decrypt: "Decryption failed: invalid PIN or corrupted vault" */
    | DecryptionFailed
    /** A SyntaxError from JSON.parse, which the code lets through unwrapped */
    | MalformedJson
    /** atob's InvalidCharacterError, let through unwrapped */
    | InvalidBase64
    /** deriveKey: "PIN must be at least 4 characters" */
    | PinTooShort
    /** deriveKey: "Salt must be 16 bytes" */
    | SaltLength
    /** deriveKey: "Key derivation failed: ..." (crypto_pwhash itself threw) */
    | KeyDerivationFailed
    /** loadVault: "Vault locked due to failed attempts. Try again in 60 seconds." */
    | VaultLocked
    /** loadVault: "Vault does not exist. Create a new vault first." */
    | NoVault
    /** loadVault: "Invalid PIN or corrupted vault" */
    | InvalidPinOrCorrupted
    /** readFile on a path that is not there (ENOENT) */
    | ReadFailed(path: string)
    /** writeFile failed (an I/O error from the file system) */
    | WriteFailed(path: string)
}
