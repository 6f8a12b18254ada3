/**
 * Vault persistence and lockout accounting (app/src/vault/vaultDriver.ts). The document
 * directory is a map from the three fixed paths to their text; a `Vault` object owns it and
 * every driver operation reads and rewrites it step by step. The clock is the `now` argument
 * (one reading per operation) and randomness the `Entropy` arguments.
 */
module VaultDriver {
  import opened Wrappers
  import opened Errors
  import opened Platform
  import opened VaultTypes
  import Base64
  import opened KeyDerivation
  import opened Encryption

  /** The three files of the vault, all under the document directory. */
  datatype Path = VaultPath | SaltPath | MetadataPath

  function FileName(p: Path): string
  {
    match p
    case VaultPath => "vault.encrypted"
    case SaltPath => "vault.salt"
    case MetadataPath => "vault.meta.json"
  }

  type Files = map<Path, string>

  /** Failed attempts that trigger the lockout. */
  const MaxFailedAttempts: int := 3
  /** How long the lockout lasts, in ms. */
  const LockoutDurationMs: int := 60000
  /** Schema version of a newly created vault. */
  const VaultVersion: int := 1

  /** The platform services the driver calls: libsodium, UTF-8, and JSON for each file shape. */
  datatype Services = Services(
    sodium: Sodium,
    utf8: Utf8,
    vaultJson: JsonCodec<VaultData>,
    payloadJson: JsonCodec<EncryptedPayload>,
    metadataJson: JsonCodec<VaultMetadata>)

  /** The round-trip behaviour every service is assumed to have. */
  ghost predicate ServicesContract(s: Services)
  {
    && SodiumContract(s.sodium)
    && Utf8Contract(s.utf8)
    && JsonContract(s.vaultJson)
    && JsonContract(s.payloadJson)
    && JsonContract(s.metadataJson)
  }

  /** The safe default: no vault recorded, no failures. */
  const DefaultMetadata: VaultMetadata := VaultMetadata(false, None, 0, None)

  /** What a brand-new vault records: initialised at `now`, no failures. */
  function FreshMetadata(now: int): VaultMetadata
  {
    VaultMetadata(true, Some(now), 0, None)
  }

  /**
   * loadMetadata as a function of the files: the parsed metadata file, or the safe default
   * when the file is missing or does not parse.
   */
  function MetadataIn(files: Files, json: JsonCodec<VaultMetadata>): (m: VaultMetadata)
    ensures MetadataPath !in files ==> m == DefaultMetadata
    ensures MetadataPath in files && json.parse(files[MetadataPath]).None? ==> m == DefaultMetadata
    ensures MetadataPath in files && json.parse(files[MetadataPath]).Some? ==>
      m == json.parse(files[MetadataPath]).value
  {
    if MetadataPath !in files then DefaultMetadata
    else json.parse(files[MetadataPath]).GetOr(DefaultMetadata)
  }

  /** The files after saveMetadata(m): only the metadata file changes. */
  function WithMetadata(files: Files, json: JsonCodec<VaultMetadata>, m: VaultMetadata): (r: Files)
    ensures MetadataPath in r
    ensures forall p :: p != MetadataPath ==> (p in r <==> p in files)
    ensures forall p :: p != MetadataPath && p in files ==> r[p] == files[p]
    ensures JsonContract(json) ==> MetadataIn(r, json) == m
  {
    files[MetadataPath := json.stringify(m)]
  }

  /** An active lockout: at least 3 failures, the last one less than 60 s before `now`. */
  predicate LockedOut(m: VaultMetadata, now: int)
  {
    && m.failedAttempts >= MaxFailedAttempts
    && m.lastFailedAttempt.Some?
    && now - m.lastFailedAttempt.value < LockoutDurationMs
  }

  /** A lockout whose window has passed: isLockedOut clears it lazily. */
  predicate LockoutExpired(m: VaultMetadata, now: int)
  {
    && m.failedAttempts >= MaxFailedAttempts
    && m.lastFailedAttempt.Some?
    && now - m.lastFailedAttempt.value >= LockoutDurationMs
  }

  /** The counter back at 0 and the timestamp removed; `exists` and `createdAt` kept. */
  function Cleared(m: VaultMetadata): (r: VaultMetadata)
    ensures r.failedAttempts == 0 && r.lastFailedAttempt.None?
    ensures r.created == m.created && r.createdAt == m.createdAt
    ensures !LockedOut(r, 0) && forall now :: !LockedOut(r, now)
  {
    m.(failedAttempts := 0, lastFailedAttempt := None)
  }

  /** One more failure, stamped `now`; `exists` and `createdAt` kept. */
  function WithFailure(m: VaultMetadata, now: int): (r: VaultMetadata)
    ensures r.failedAttempts == m.failedAttempts + 1 && r.lastFailedAttempt == Some(now)
    ensures r.created == m.created && r.createdAt == m.createdAt
    ensures LockedOut(r, now) <==> m.failedAttempts + 1 >= MaxFailedAttempts
  {
    m.(failedAttempts := m.failedAttempts + 1, lastFailedAttempt := Some(now))
  }

  /** The files after isLockedOut at `now`: an expired lockout is cleared, nothing else moves. */
  function AfterLockoutCheck(files: Files, json: JsonCodec<VaultMetadata>, now: int): (r: Files)
    ensures forall p :: p != MetadataPath ==> (p in r <==> p in files)
    ensures forall p :: p != MetadataPath && p in files ==> r[p] == files[p]
    ensures !LockoutExpired(MetadataIn(files, json), now) ==> r == files
    ensures JsonContract(json) && LockoutExpired(MetadataIn(files, json), now) ==>
      MetadataIn(r, json) == Cleared(MetadataIn(files, json))
    ensures JsonContract(json) ==>
      (!LockedOut(MetadataIn(r, json), now) || (r == files && LockedOut(MetadataIn(files, json), now)))
  {
    var m := MetadataIn(files, json);
    if LockoutExpired(m, now) then WithMetadata(files, json, Cleared(m)) else files
  }

  /**
   * The `try` block of loadVault: parse the vault file, read and decode the salt file,
   * derive the key from the PIN and that salt, and decrypt. The metadata file plays no part.
   */
  function Unseal(files: Files, services: Services, pin: string): (r: Result<VaultData, Error>)
    ensures VaultPath !in files ==> r == Failure(ReadFailed(FileName(VaultPath)))
    ensures r.Success? ==>
      && VaultPath in files && SaltPath in files
      && services.payloadJson.parse(files[VaultPath]).Some?
      && Base64.Decode(files[SaltPath]).Some?
      && var key := DeriveKey(services.sodium, services.utf8, pin, Base64.Decode(files[SaltPath]).value);
         key.Success?
         && DecryptJson(services.vaultJson, services.sodium, services.utf8,
                        services.payloadJson.parse(files[VaultPath]).value, key.value) == r
  {
    if VaultPath !in files then Failure(ReadFailed(FileName(VaultPath)))
    else match services.payloadJson.parse(files[VaultPath])
      case None => Failure(MalformedJson)
      case Some(payload) =>
        if SaltPath !in files then Failure(ReadFailed(FileName(SaltPath)))
        else match Base64.Decode(files[SaltPath])
          case None => Failure(InvalidBase64)
          case Some(salt) =>
            match DeriveKey(services.sodium, services.utf8, pin, salt)
            case Failure(e) => Failure(e)
            case Success(key) => DecryptJson(services.vaultJson, services.sodium, services.utf8, payload, key)
  }

  /** Unseal reads only the vault and salt files. */
  lemma UnsealIgnoresMetadata(files: Files, services: Services, pin: string, text: string)
    ensures Unseal(files[MetadataPath := text], services, pin) == Unseal(files, services, pin)
  {
    assert files[MetadataPath := text] - {MetadataPath} == files - {MetadataPath};
  }

  /**
   * What createVault seals before writing anything: the vault data holding the base64 salt,
   * version 1 and `now`, encrypted under the key derived from the PIN and the fresh salt.
   * Success carries the vault file's text and the salt file's text.
   */
  function Seal(services: Services, pin: string, cards: seq<Card>, flows: seq<Flow>,
                saltEntropy: Entropy, nonceEntropy: Entropy, now: int): (r: Result<(string, string), Error>)
    ensures Utf16Length(pin) < MinPinLength ==> r == Failure(PinTooShort)
    ensures r.Success? ==> r.value.1 == Base64.Encode(GenerateSalt(saltEntropy))
    ensures
      (&& ServicesContract(services) && Utf16Length(pin) >= MinPinLength
       && services.sodium.pwhash(KeyLength, services.utf8.encode(pin), GenerateSalt(saltEntropy)).Some?)
      ==> r.Success?
  {
    var salt := GenerateSalt(saltEntropy);
    var saltBase64 := Base64.Encode(salt);
    match DeriveKey(services.sodium, services.utf8, pin, salt)
    case Failure(e) => Failure(e)
    case Success(key) =>
      var data := VaultData(cards, flows, saltBase64, VaultVersion, now);
      match EncryptJson(services.vaultJson, services.sodium, services.utf8, data, key, nonceEntropy)
      case Failure(e) => Failure(e)
      case Success(encrypted) => Success((services.payloadJson.stringify(encrypted), saltBase64))
  }

  /**
   * The files createVault leaves, when sealing succeeded and every write went through, unseal
   * under the same PIN to exactly the vault data it built, whose salt is the salt file's text.
   */
  lemma {:induction false} UnsealSeal(services: Services, pin: string, cards: seq<Card>, flows: seq<Flow>,
                                      saltEntropy: Entropy, nonceEntropy: Entropy, now: int, files: Files)
    requires ServicesContract(services)
    requires Seal(services, pin, cards, flows, saltEntropy, nonceEntropy, now).Success?
    requires var s := Seal(services, pin, cards, flows, saltEntropy, nonceEntropy, now).value;
      VaultPath in files && files[VaultPath] == s.0 && SaltPath in files && files[SaltPath] == s.1
    ensures var s := Seal(services, pin, cards, flows, saltEntropy, nonceEntropy, now).value;
      Unseal(files, services, pin) == Success(VaultData(cards, flows, s.1, VaultVersion, now))
  {
    var salt := GenerateSalt(saltEntropy);
    var saltBase64 := Base64.Encode(salt);
    Base64.DecodeEncode(salt);
    var key := DeriveKey(services.sodium, services.utf8, pin, salt).value;
    var data := VaultData(cards, flows, saltBase64, VaultVersion, now);
    DecryptJsonEncryptJson(services.vaultJson, services.sodium, services.utf8, data, key, nonceEntropy);
    var encrypted := EncryptJson(services.vaultJson, services.sodium, services.utf8, data, key, nonceEntropy).value;
    assert services.payloadJson.parse(files[VaultPath]) == Some(encrypted);
  }

  /**
   * What saveVault seals: the data with `lastModified` set to `now`, under the key derived from
   * the PIN and the salt the data itself carries (not the salt file). Success carries the new
   * vault file's text.
   */
  function Reseal(services: Services, data: VaultData, pin: string, now: int, nonceEntropy: Entropy)
    : (r: Result<string, Error>)
    ensures Base64.Decode(data.salt).None? ==> r == Failure(InvalidBase64)
    ensures Base64.Decode(data.salt).Some? && Utf16Length(pin) < MinPinLength ==> r == Failure(PinTooShort)
    ensures r.Success? ==>
      (&& Base64.Decode(data.salt).Some?
       && DeriveKey(services.sodium, services.utf8, pin, Base64.Decode(data.salt).value).Success?)
  {
    match Base64.Decode(data.salt)
    case None => Failure(InvalidBase64)
    case Some(salt) =>
      match DeriveKey(services.sodium, services.utf8, pin, salt)
      case Failure(e) => Failure(e)
      case Success(key) =>
        match EncryptJson(services.vaultJson, services.sodium, services.utf8, data.(lastModified := now), key, nonceEntropy)
        case Failure(e) => Failure(e)
        case Success(encrypted) => Success(services.payloadJson.stringify(encrypted))
  }

  /**
   * Re-sealed data opens again with the same PIN, as long as the salt file decodes to the same
   * bytes as the salt the data carries: every field comes back, with the new `lastModified`.
   */
  lemma {:induction false} UnsealReseal(services: Services, data: VaultData, pin: string, now: int,
                                        nonceEntropy: Entropy, files: Files)
    requires ServicesContract(services)
    requires Reseal(services, data, pin, now, nonceEntropy).Success?
    requires VaultPath in files && files[VaultPath] == Reseal(services, data, pin, now, nonceEntropy).value
    requires SaltPath in files && Base64.Decode(files[SaltPath]) == Base64.Decode(data.salt)
    ensures Unseal(files, services, pin) == Success(data.(lastModified := now))
  {
    var salt := Base64.Decode(data.salt).value;
    var key := DeriveKey(services.sodium, services.utf8, pin, salt).value;
    DecryptJsonEncryptJson(services.vaultJson, services.sodium, services.utf8, data.(lastModified := now), key, nonceEntropy);
    var encrypted := EncryptJson(services.vaultJson, services.sodium, services.utf8, data.(lastModified := now), key, nonceEntropy).value;
    assert services.payloadJson.parse(files[VaultPath]) == Some(encrypted);
  }

  class Vault {
    /** The document directory's vault files. */
    var files: Files
    const services: Services

    constructor (services: Services, files: Files)
      ensures this.services == services && this.files == files
    {
      this.services := services;
      this.files := files;
    }

    /** The metadata loadMetadata would return now. */
    function Metadata(): VaultMetadata
      reads this
    {
      MetadataIn(files, services.metadataJson)
    }

    /** vaultExists: whether the encrypted vault file is there. */
    method VaultExists() returns (b: bool)
      ensures b <==> VaultPath in files
    {
      b := VaultPath in files;
    }

    /** loadMetadata: never fails; missing or unparsable metadata reads as the safe default. */
    method LoadMetadata() returns (m: VaultMetadata)
      ensures MetadataPath !in files ==> m == DefaultMetadata
      ensures MetadataPath in files && services.metadataJson.parse(files[MetadataPath]).None? ==> m == DefaultMetadata
      ensures m == Metadata()
    {
      if MetadataPath !in files {
        return DefaultMetadata;
      }
      var json := files[MetadataPath];
      match services.metadataJson.parse(json)
      case None =>
        return DefaultMetadata;
      case Some(parsed) =>
        return parsed;
    }

    /** saveMetadata: overwrites the metadata file only. */
    method SaveMetadata(metadata: VaultMetadata)
      modifies this
      ensures files == WithMetadata(old(files), services.metadataJson, metadata)
      ensures JsonContract(services.metadataJson) ==> Metadata() == metadata
    {
      files := files[MetadataPath := services.metadataJson.stringify(metadata)];
    }

    /**
     * isLockedOut: true exactly during an active lockout, writing nothing; an expired lockout
     * is cleared on disk (counter 0, timestamp removed) and reported as false.
     */
    method IsLockedOut(now: int) returns (locked: bool)
      modifies this
      ensures locked <==> LockedOut(old(Metadata()), now)
      ensures files == AfterLockoutCheck(old(files), services.metadataJson, now)
      ensures LockoutExpired(old(Metadata()), now) ==>
        files == WithMetadata(old(files), services.metadataJson, Cleared(old(Metadata())))
    {
      var metadata := LoadMetadata();
      if metadata.failedAttempts < MaxFailedAttempts {
        return false;
      }
      if metadata.lastFailedAttempt.None? {
        return false;
      }
      var elapsed := now - metadata.lastFailedAttempt.value;
      if elapsed >= LockoutDurationMs {
        SaveMetadata(Cleared(metadata));
        return false;
      }
      return true;
    }

    /** recordFailedAttempt: one more failure, stamped `now`. */
    method RecordFailedAttempt(now: int)
      modifies this
      ensures files == WithMetadata(old(files), services.metadataJson, WithFailure(old(Metadata()), now))
      ensures JsonContract(services.metadataJson) ==>
        Metadata() == old(Metadata()).(failedAttempts := old(Metadata()).failedAttempts + 1, lastFailedAttempt := Some(now))
    {
      var metadata := LoadMetadata();
      SaveMetadata(WithFailure(metadata, now));
    }

    /** resetFailedAttempts: counter back to 0, timestamp removed. */
    method ResetFailedAttempts()
      modifies this
      ensures files == WithMetadata(old(files), services.metadataJson, Cleared(old(Metadata())))
      ensures JsonContract(services.metadataJson) ==>
        Metadata() == old(Metadata()).(failedAttempts := 0, lastFailedAttempt := None)
    {
      var metadata := LoadMetadata();
      SaveMetadata(Cleared(metadata));
    }

    /**
     * createVault: seals first (nothing is written when the PIN, the KDF or encryption fails),
     * then writes the vault file, the salt file and the metadata file, in that order; a write
     * that fails (`failingWrite`) stops the sequence with the earlier writes in place.
     */
    method CreateVault(pin: string, cards: seq<Card>, flows: seq<Flow>, saltEntropy: Entropy,
                       nonceEntropy: Entropy, now: int, failingWrite: Option<Path>)
      returns (r: Result<(), Error>)
      modifies this
      ensures var s := Seal(services, pin, cards, flows, saltEntropy, nonceEntropy, now);
        if s.Failure? then r == Failure(s.error) && files == old(files)
        else
          var afterVault := old(files)[VaultPath := s.value.0];
          var afterSalt := afterVault[SaltPath := s.value.1];
          match failingWrite
          case Some(VaultPath) => r == Failure(WriteFailed(FileName(VaultPath))) && files == old(files)
          case Some(SaltPath) => r == Failure(WriteFailed(FileName(SaltPath))) && files == afterVault
          case Some(MetadataPath) => r == Failure(WriteFailed(FileName(MetadataPath))) && files == afterSalt
          case None => r == Success(()) && files == WithMetadata(afterSalt, services.metadataJson, FreshMetadata(now))
      ensures r.Success? && ServicesContract(services) ==>
        && Metadata() == FreshMetadata(now)
        && Unseal(files, services, pin) == Success(VaultData(cards, flows, files[SaltPath], VaultVersion, now))
    {
      var salt := GenerateSalt(saltEntropy);
      var saltBase64 := Base64.Encode(salt);
      ghost var sealed := Seal(services, pin, cards, flows, saltEntropy, nonceEntropy, now);
      var key := DeriveKey(services.sodium, services.utf8, pin, salt);
      if key.Failure? {
        assert sealed == Failure(key.error);
        return Failure(key.error);
      }
      var vaultData := VaultData(cards, flows, saltBase64, VaultVersion, now);
      var encrypted := EncryptJson(services.vaultJson, services.sodium, services.utf8, vaultData, key.value, nonceEntropy);
      if encrypted.Failure? {
        assert sealed == Failure(encrypted.error);
        return Failure(encrypted.error);
      }
      var json := services.payloadJson.stringify(encrypted.value);
      assert sealed == Success((json, saltBase64));
      if failingWrite == Some(VaultPath) {
        return Failure(WriteFailed(FileName(VaultPath)));
      }
      files := files[VaultPath := json];
      if failingWrite == Some(SaltPath) {
        return Failure(WriteFailed(FileName(SaltPath)));
      }
      files := files[SaltPath := saltBase64];
      if failingWrite == Some(MetadataPath) {
        return Failure(WriteFailed(FileName(MetadataPath)));
      }
      assert failingWrite.None? by {
        if failingWrite.Some? {
          match failingWrite.value
          case VaultPath =>
          case SaltPath =>
          case MetadataPath =>
        }
      }
      SaveMetadata(FreshMetadata(now));
      if ServicesContract(services) {
        UnsealSeal(services, pin, cards, flows, saltEntropy, nonceEntropy, now, files);
      }
      return Success(());
    }

    /**
     * loadVault: an active lockout refuses at once; then a missing vault file is refused; then
     * every failure of the unsealing (read, parse, salt decode, short PIN, KDF, decryption)
     * counts exactly one failed attempt and comes out as one generic error, while success
     * clears the counter. Metadata is untouched on the two early refusals, except that an
     * expired lockout has been cleared by the lockout check.
     */
    method LoadVault(pin: string, now: int) returns (r: Result<VaultData, Error>)
      modifies this
      ensures LockedOut(old(Metadata()), now) ==> r == Failure(VaultLocked) && files == old(files)
      ensures !LockedOut(old(Metadata()), now) ==>
        var checked := AfterLockoutCheck(old(files), services.metadataJson, now);
        var m := MetadataIn(checked, services.metadataJson);
        if VaultPath !in old(files) then r == Failure(NoVault) && files == checked
        else match Unseal(old(files), services, pin)
          case Success(data) =>
            r == Success(data) && files == WithMetadata(checked, services.metadataJson, Cleared(m))
          case Failure(_) =>
            r == Failure(InvalidPinOrCorrupted) && files == WithMetadata(checked, services.metadataJson, WithFailure(m, now))
    {
      var locked := IsLockedOut(now);
      if locked {
        return Failure(VaultLocked);
      }
      var present := VaultExists();
      if !present {
        return Failure(NoVault);
      }
      assert Unseal(files, services, pin) == Unseal(old(files), services, pin) by {
        if files != old(files) {
          UnsealIgnoresMetadata(old(files), services, pin, files[MetadataPath]);
        }
      }
      var unsealed := Unseal(files, services, pin);
      if unsealed.Failure? {
        RecordFailedAttempt(now);
        return Failure(InvalidPinOrCorrupted);
      }
      ResetFailedAttempts();
      return Success(unsealed.value);
    }

    /**
     * saveVault: writes the vault file only, re-sealed under the salt the data carries; the
     * salt file and metadata are untouched, and a failure writes nothing.
     */
    method SaveVault(data: VaultData, pin: string, now: int, nonceEntropy: Entropy) returns (r: Result<(), Error>)
      modifies this
      ensures var s := Reseal(services, data, pin, now, nonceEntropy);
        if s.Failure? then r == Failure(s.error) && files == old(files)
        else r == Success(()) && files == old(files)[VaultPath := s.value]
      ensures
        (&& r.Success? && ServicesContract(services) && SaltPath in files
         && Base64.Decode(files[SaltPath]) == Base64.Decode(data.salt))
        ==> Unseal(files, services, pin) == Success(data.(lastModified := now))
    {
      var salt := Base64.Decode(data.salt);
      if salt.None? {
        return Failure(InvalidBase64);
      }
      var key := DeriveKey(services.sodium, services.utf8, pin, salt.value);
      if key.Failure? {
        return Failure(key.error);
      }
      var updated := data.(lastModified := now);
      var encrypted := EncryptJson(services.vaultJson, services.sodium, services.utf8, updated, key.value, nonceEntropy);
      if encrypted.Failure? {
        return Failure(encrypted.error);
      }
      files := files[VaultPath := services.payloadJson.stringify(encrypted.value)];
      if ServicesContract(services) && SaltPath in files && Base64.Decode(files[SaltPath]) == Base64.Decode(data.salt) {
        UnsealReseal(services, data, pin, now, nonceEntropy, files);
      }
      return Success(());
    }

    /**
     * destroyVault: never reports an error. It unlinks the vault, salt and metadata files in
     * that order, each only if it exists; an unlink that fails (`failing`) silently skips the
     * rest. With no failure nothing is left.
     */
    method DestroyVault(failing: Option<Path>)
      modifies this
      ensures failing.None? || failing.value !in old(files) ==> files == map[]
      ensures failing == Some(VaultPath) && VaultPath in old(files) ==> files == old(files)
      ensures failing == Some(SaltPath) && SaltPath in old(files) ==> files == old(files) - {VaultPath}
      ensures failing == Some(MetadataPath) && MetadataPath in old(files) ==>
        files == old(files) - {VaultPath, SaltPath}
    {
      if VaultPath in files {
        if failing == Some(VaultPath) {
          return;
        }
        files := files - {VaultPath};
      }
      if SaltPath in files {
        if failing == Some(SaltPath) {
          return;
        }
        files := files - {SaltPath};
      }
      if MetadataPath in files {
        if failing == Some(MetadataPath) {
          return;
        }
        files := files - {MetadataPath};
      }
      assert forall p: Path :: p !in files by {
        forall p: Path ensures p !in files {
          match p
          case VaultPath =>
          case SaltPath =>
          case MetadataPath =>
        }
      }
      assert files == map[];
    }
  }
}
