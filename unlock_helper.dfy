/**
 * The unlock flow (app/src/vault/unlockHelper.ts): the driver's exceptions and metadata turned
 * into one of four outcomes, and the lockout countdown shown to the user.
 */
module UnlockHelper {
  import opened Wrappers
  import opened VaultTypes
  import opened Platform
  import opened VaultDriver

  datatype UnlockResult =
    | Unlocked(cards: seq<Card>, flows: seq<Flow>)
    | WrongPin(attemptsRemaining: int)
    | LockedOutFor(remainingLockoutMs: int)
    | NoVaultFound

  /**
   * The countdown: what is left of the 60 s window since the last failure, never below 0;
   * the full window when no failure time is recorded.
   */
  function RemainingLockout(m: VaultMetadata, now: int): (r: int)
    ensures r >= 0
    ensures m.lastFailedAttempt.None? ==> r == LockoutDurationMs
    ensures m.lastFailedAttempt.Some? && now >= m.lastFailedAttempt.value ==> r <= LockoutDurationMs
    ensures m.lastFailedAttempt.Some? ==> (r == 0 <==> now - m.lastFailedAttempt.value >= LockoutDurationMs)
    ensures LockedOut(m, now) ==> r > 0
  {
    match m.lastFailedAttempt
    case None => LockoutDurationMs
    case Some(lastFailed) =>
      var remaining := LockoutDurationMs - (now - lastFailed);
      if remaining < 0 then 0 else remaining
  }

  /** During the window the countdown falls by exactly the time that has passed. */
  lemma RemainingLockoutDecreases(m: VaultMetadata, n1: int, n2: int)
    requires m.lastFailedAttempt.Some?
    requires m.lastFailedAttempt.value <= n1 < n2 < m.lastFailedAttempt.value + LockoutDurationMs
    ensures RemainingLockout(m, n2) < RemainingLockout(m, n1)
    ensures RemainingLockout(m, n1) - RemainingLockout(m, n2) == n2 - n1
  {
  }

  /** The result a failed load produces from the metadata it left behind. */
  function AfterFailure(m: VaultMetadata, now: int): (r: UnlockResult)
    ensures r.WrongPin? || r.LockedOutFor?
    ensures r.WrongPin? <==> m.failedAttempts < MaxFailedAttempts
    ensures r.WrongPin? ==> 1 <= r.attemptsRemaining && r.attemptsRemaining + m.failedAttempts == MaxFailedAttempts
    ensures r.LockedOutFor? ==> r.remainingLockoutMs == RemainingLockout(m, now)
  {
    var attemptsRemaining := MaxFailedAttempts - m.failedAttempts;
    if attemptsRemaining <= 0 then LockedOutFor(RemainingLockout(m, now)) else WrongPin(attemptsRemaining)
  }

  /**
   * attemptUnlock: no vault file means `no-vault`, before the lockout is looked at and with
   * nothing written; an active lockout means `locked-out` with the countdown, with no attempt
   * made and nothing counted; otherwise the vault is loaded, and success hands back its cards
   * and flows while any failure is classified from the counter the load left on disk.
   */
  method AttemptUnlock(v: Vault, pin: string, now: int) returns (res: UnlockResult)
    modifies v
    ensures VaultPath !in old(v.files) ==> res == NoVaultFound && v.files == old(v.files)
    ensures VaultPath in old(v.files) && LockedOut(old(v.Metadata()), now) ==>
      res == LockedOutFor(RemainingLockout(old(v.Metadata()), now)) && v.files == old(v.files)
    ensures res.WrongPin? ==> res.attemptsRemaining >= 1
    ensures res.Unlocked? ==>
      exists data :: Unseal(old(v.files), v.services, pin) == Success(data) && res == Unlocked(data.cards, data.flows)
    ensures
      (&& JsonContract(v.services.metadataJson)
       && VaultPath in old(v.files) && !LockedOut(old(v.Metadata()), now))
      ==>
      var checked := AfterLockoutCheck(old(v.files), v.services.metadataJson, now);
      var m := MetadataIn(checked, v.services.metadataJson);
      match Unseal(old(v.files), v.services, pin)
      case Success(data) =>
        res == Unlocked(data.cards, data.flows)
        && v.files == WithMetadata(checked, v.services.metadataJson, Cleared(m))
      case Failure(_) =>
        && v.files == WithMetadata(checked, v.services.metadataJson, WithFailure(m, now))
        && res == AfterFailure(WithFailure(m, now), now)
  {
    var present := v.VaultExists();
    if !present {
      return NoVaultFound;
    }
    var lockedOut := v.IsLockedOut(now);
    if lockedOut {
      var metadata := v.LoadMetadata();
      return LockedOutFor(RemainingLockout(metadata, now));
    }
    ghost var checked := v.files;
    var loaded := v.LoadVault(pin, now);
    if JsonContract(v.services.metadataJson) {
      assert !LockedOut(MetadataIn(checked, v.services.metadataJson), now);
      assert AfterLockoutCheck(checked, v.services.metadataJson, now) == checked;
    }
    if checked != old(v.files) {
      UnsealIgnoresMetadata(old(v.files), v.services, pin, checked[MetadataPath]);
    }
    if loaded.Success? {
      return Unlocked(loaded.value.cards, loaded.value.flows);
    }
    var metadata := v.LoadMetadata();
    return AfterFailure(metadata, now);
  }

  /**
   * checkLockoutStatus: the countdown exactly when there is a vault and an active lockout,
   * nothing otherwise; an expired lockout is cleared on disk on the way.
   */
  method CheckLockoutStatus(v: Vault, now: int) returns (r: Option<int>)
    modifies v
    ensures r.Some? <==> VaultPath in old(v.files) && LockedOut(old(v.Metadata()), now)
    ensures r.Some? ==> r.value == RemainingLockout(old(v.Metadata()), now) && r.value > 0
    ensures VaultPath !in old(v.files) ==> v.files == old(v.files)
    ensures VaultPath in old(v.files) ==> v.files == AfterLockoutCheck(old(v.files), v.services.metadataJson, now)
  {
    var present := v.VaultExists();
    if !present {
      return None;
    }
    var lockedOut := v.IsLockedOut(now);
    if !lockedOut {
      return None;
    }
    var metadata := v.LoadMetadata();
    return Some(RemainingLockout(metadata, now));
  }

  /**
   * From no failures, three wrong PINs entered at the same instant give `wrong-pin 2`,
   * `wrong-pin 1`, then `locked-out` for the full 60 s, leaving three failures stamped with
   * that instant.
   */
  method ThreeWrongPins(services: Services, files: Files, pin: string, now: int)
    returns (first: UnlockResult, second: UnlockResult, third: UnlockResult, after: VaultMetadata)
    requires JsonContract(services.metadataJson)
    requires VaultPath in files
    requires MetadataIn(files, services.metadataJson).failedAttempts == 0
    requires Unseal(files, services, pin).Failure?
    ensures first == WrongPin(2) && second == WrongPin(1) && third == LockedOutFor(LockoutDurationMs)
    ensures after.failedAttempts == 3 && after.lastFailedAttempt == Some(now)
  {
    var v := new Vault(services, files);
    first := AttemptUnlock(v, pin, now);
    assert v.Metadata().failedAttempts == 1;
    UnsealIgnoresMetadata(files, services, pin, v.files[MetadataPath]);
    second := AttemptUnlock(v, pin, now);
    assert v.Metadata().failedAttempts == 2;
    UnsealIgnoresMetadata(files, services, pin, v.files[MetadataPath]);
    third := AttemptUnlock(v, pin, now);
    after := v.Metadata();
  }

  /**
   * Three failures stamped at `t`: one millisecond before the window closes the status check
   * reports 1 ms left; when it closes the check reports nothing and clears the counter on disk.
   */
  method LockoutCountdown(services: Services, files: Files, t: int)
    returns (almost: Option<int>, expired: Option<int>, attemptsAfter: int)
    requires JsonContract(services.metadataJson)
    requires VaultPath in files
    requires MetadataIn(files, services.metadataJson).failedAttempts == MaxFailedAttempts
    requires MetadataIn(files, services.metadataJson).lastFailedAttempt == Some(t)
    ensures almost == Some(1)
    ensures expired == None && attemptsAfter == 0
  {
    var v := new Vault(services, files);
    almost := CheckLockoutStatus(v, t + LockoutDurationMs - 1);
    expired := CheckLockoutStatus(v, t + LockoutDurationMs);
    attemptsAfter := v.Metadata().failedAttempts;
  }

  /** A wrong PIN followed by the right one unlocks and leaves no failure counted. */
  method WrongThenRightPin(services: Services, files: Files, wrong: string, right: string, now: int, later: int)
    returns (first: UnlockResult, second: UnlockResult, attemptsAfter: int)
    requires JsonContract(services.metadataJson)
    requires VaultPath in files
    requires MetadataIn(files, services.metadataJson).failedAttempts == 0
    requires Unseal(files, services, wrong).Failure?
    requires Unseal(files, services, right).Success?
    ensures first == WrongPin(2)
    ensures second == Unlocked(Unseal(files, services, right).value.cards, Unseal(files, services, right).value.flows)
    ensures attemptsAfter == 0
  {
    var v := new Vault(services, files);
    first := AttemptUnlock(v, wrong, now);
    UnsealIgnoresMetadata(files, services, right, v.files[MetadataPath]);
    second := AttemptUnlock(v, right, later);
    attemptsAfter := v.Metadata().failedAttempts;
  }

  /**
   * A vault created with a PIN unlocks with that PIN and hands back exactly the cards and flows
   * it was created with (given the round-trip behaviour of the crypto, UTF-8 and JSON services).
   */
  method CreateThenUnlock(services: Services, pin: string, cards: seq<Card>, flows: seq<Flow>,
                          saltEntropy: Entropy, nonceEntropy: Entropy, createdAt: int, unlockAt: int)
    returns (created: Result<(), Errors.Error>, res: UnlockResult)
    requires ServicesContract(services)
    requires Utf16Length(pin) >= KeyDerivation.MinPinLength
    requires services.sodium.pwhash(KeyDerivation.KeyLength, services.utf8.encode(pin),
                                     KeyDerivation.GenerateSalt(saltEntropy)).Some?
    ensures created.Success?
    ensures res == Unlocked(cards, flows)
  {
    var v := new Vault(services, map[]);
    created := v.CreateVault(pin, cards, flows, saltEntropy, nonceEntropy, createdAt, None);
    res := AttemptUnlock(v, pin, unlockAt);
  }

  /**
   * Because the vault file is written before the salt file, a salt write that fails leaves a
   * vault that exists but can never be opened: even the right PIN counts as a wrong one.
   */
  method HalfWrittenVault(services: Services, pin: string, cards: seq<Card>, flows: seq<Flow>,
                          saltEntropy: Entropy, nonceEntropy: Entropy, now: int)
    returns (created: Result<(), Errors.Error>, present: bool, res: UnlockResult)
    requires ServicesContract(services)
    requires Utf16Length(pin) >= KeyDerivation.MinPinLength
    requires services.sodium.pwhash(KeyDerivation.KeyLength, services.utf8.encode(pin),
                                     KeyDerivation.GenerateSalt(saltEntropy)).Some?
    ensures created == Failure(Errors.WriteFailed("vault.salt"))
    ensures present
    ensures res == WrongPin(2)
  {
    var v := new Vault(services, map[]);
    created := v.CreateVault(pin, cards, flows, saltEntropy, nonceEntropy, now, Some(SaltPath));
    present := v.VaultExists();
    res := AttemptUnlock(v, pin, now);
  }

  /** After a panic wipe with no failing step, there is no vault and no lockout to report. */
  method DestroyThenUnlock(services: Services, files: Files, pin: string, now: int)
    returns (res: UnlockResult, status: Option<int>)
    ensures res == NoVaultFound && status == None
  {
    var v := new Vault(services, files);
    v.DestroyVault(None);
    res := AttemptUnlock(v, pin, now);
    status := CheckLockoutStatus(v, now);
  }
}
