# FlyingMonkeys vault core, in Dafny

This project models the PIN-locked vault of the FlyingMonkeys app. It also models the small
state machines around the vault.

- **VaultDriver** models `vaultDriver.ts`, the persistence layer.
  - The document directory is a map from three fixed paths to their text: the encrypted vault,
    the salt, and the lockout metadata.
  - A `Vault` object owns that map. Create, load, save and destroy, and the lockout bookkeeping,
    are methods that rewrite it step by step.
  - Failed attempts are counted in the metadata file. After 3 failures the vault locks for 60 s,
    and the lockout is cleared lazily by the next check once the window has passed.
- **UnlockHelper** models `unlockHelper.ts`. It turns the driver's outcomes into the four unlock
  results (unlocked, wrong PIN, locked out, no vault) and computes the lockout countdown.
- **KeyDerivation** and **Encryption** model the guards and payload shapes around libsodium's
  Argon2id `crypto_pwhash` and XSalsa20-Poly1305 `crypto_secretbox`.
  - The primitives themselves are function values (**Platform**). What the code relies on them
    to do is stated as "contract" predicates, and the lemmas that need it take it as a
    hypothesis: opening a sealed box gives the message back, and parsing a stringified value
    gives the value back.
- **Base64** is a real encoder and decoder.
  - The encoder follows section 4 of RFC 4648, which is what `btoa` produces.
  - The decoder is the WHATWG forgiving-base64 decode, which is what `atob` runs.
  - The round trip is proved for every byte sequence.
- **VaultTypes** holds the data model. **SeedData** holds the constant seed deck and flows,
  together with referential-integrity lemmas about them.
- **Turn** models the four-second `TurnEngine` as a class, in integer milliseconds. The clock
  is a `now` argument, and a firing of the interval is a call of `Tick(now)`.
- **SessionStore**, **VaultStore** and **CamoStore** model the three Zustand stores.
  - Each store is a class holding one record.
  - Each `set({...})` updates exactly the fields it names, so every contract also says what
    stays the same.

Time is an integer count of milliseconds, taken once per operation. The random bytes of one
`randombytes_buf` call are an `Entropy` argument. File writes and unlinks that fail are an
explicit `Option<Path>` argument in `createVault` and `destroyVault`, the two operations where
the order of the writes matters.

Four behaviours of the code shape the model, and the contracts state each of them:

- **`loadVault` checks the lockout first and counts every failure**
  (app/src/vault/vaultDriver.ts:176-218). Every failure inside its `try` (read, parse, salt
  decode, short PIN, key derivation, decryption) becomes one generic error and counts exactly
  one failed attempt.
- **`createVault` writes the vault file before the salt file**
  (app/src/vault/vaultDriver.ts:155-159). `UnlockHelper.HalfWrittenVault` shows the effect:
  after a failed salt write, a vault "exists" that even the right PIN cannot open, and the
  attempt counts as a wrong PIN.
- **`checkLockoutStatus` writes to disk** (app/src/vault/unlockHelper.ts:91). It calls
  `isLockedOut`, which rewrites the metadata when a lockout has expired
  (app/src/vault/vaultDriver.ts:89-96).
- **`destroyVault` stops at the first failed unlink** (app/src/vault/vaultDriver.ts:254-268).
  The three unlinks share one `try`, so the first failure skips the rest and is swallowed.

Two further consequences of the code are stated in the contracts. First, `loadVault` on a
missing vault file still clears an expired lockout, because `isLockedOut` runs before the
existence check. Second, `advanceCard` moves the index on but leaves `currentCard` and
`upcomingCards` as they were.

`MAX_FAILED_ATTEMPTS` and `LOCKOUT_DURATION_MS` are declared twice in the code, in the driver
and in the unlock helper. The model has one copy of each (`VaultDriver.MaxFailedAttempts`,
`VaultDriver.LockoutDurationMs`), so its results hold only as long as the two copies agree.

## Model

| member | source | states |
|---|---|---|
| Platform.RandomBytes | app/src/vault/encryption.ts:43 | `randombytes_buf(n)` returns exactly `n` bytes, taken from the call's random stream |
| Platform.Utf16Length | app/src/vault/keyDerivation.ts:38 | JavaScript's string `length` counts UTF-16 code units: at least the number of characters and at most twice it, and equal to it when every character is in the Basic Multilingual Plane |
| Platform.Utf16LengthOfAstral | app/src/vault/keyDerivation.ts:38 | a PIN of two emoji is two characters but four code units, so the PIN guard lets it through |
| KeyDerivation.GenerateSalt | app/src/vault/keyDerivation.ts:22-24 | the salt has exactly `crypto_pwhash_SALTBYTES` (16) bytes |
| KeyDerivation.DeriveKey | app/src/vault/keyDerivation.ts:34-68 | `PinTooShort` exactly when the PIN has fewer than 4 UTF-16 code units (the empty PIN included), checked first; then a salt that is not 16 bytes; only then does the KDF run, asked for 32 bytes of this PIN's UTF-8 and this salt; past both guards the only error is the one wrapped KDF failure, never a partial key; the key has 32 bytes |
| KeyDerivation.DerivedKeyFitsSecretbox | app/src/vault/keyDerivation.ts:16-58 | for a PIN of at least 4 UTF-16 code units and a fresh salt, `deriveKey` succeeds whenever the KDF does, with a key of exactly the length `encrypt` requires |
| Encryption.Encrypt | app/src/vault/encryption.ts:32-65 | a key that is not 32 bytes is rejected before anything else; success has version 1 and a nonce that decodes to the 24 fresh random bytes of this call; with a 32-byte key and a working secretbox it always succeeds |
| Encryption.Decrypt | app/src/vault/encryption.ts:75-108 | the key length is checked first, then the version (before any decoding); every later failure is the one `DecryptionFailed` error, so a wrong key and tampered data are indistinguishable; success is the UTF-8 decoding of the opened box of the decoded nonce and ciphertext |
| Encryption.DecryptWrongNonceSize | app/src/vault/encryption.ts:89-107 | a payload whose nonce does not decode to 24 bytes fails to open, with the one generic error |
| Encryption.EncryptJson | app/src/vault/encryption.ts:113-119 | key-length rejection as in `encrypt`; success has version 1 |
| Encryption.DecryptJson | app/src/vault/encryption.ts:124-130 | a decryption error propagates unchanged; a successful decryption whose text does not parse gives exactly the parse error, not wrapped, and that error arises only then; success is the parse of the decrypted text |
| Encryption.DecryptEncrypt | app/src/vault/encryption.ts:32-108 | `decrypt(encrypt(p, k), k) == p` for every 32-byte key, given that secretbox-open inverts secretbox and UTF-8 decoding inverts encoding |
| Encryption.DecryptJsonEncryptJson | app/src/vault/encryption.ts:113-130 | `decryptJSON(encryptJSON(v, k), k) == v` for every value the JSON codec round-trips |
| Base64.SextetChar | app/src/vault/keyDerivation.ts:73-78 | each 6-bit value maps to an alphabet character (Table 1 of RFC 4648) whose value it is, never `=` or whitespace |
| Base64.Sextets | app/src/vault/keyDerivation.ts:73-78 | `n` bytes give `4*(n/3)` 6-bit groups plus 2 or 3 for a final partial quantum |
| Base64.Encode | app/src/vault/keyDerivation.ts:73-78 | `uint8ArrayToBase64` of `n` bytes has length `4*ceil(n/3)` |
| Base64.EncodeShape | app/src/vault/keyDerivation.ts:73-78 | the output has length `4*ceil(n/3)`; every character is from the alphabet or is `=` padding confined to the last quantum; there is no padding exactly when `n` is a multiple of 3 |
| Base64.Values | app/src/vault/keyDerivation.ts:83-86 | the decoder rejects a string exactly when some character is outside the alphabet |
| Base64.Decode | app/src/vault/keyDerivation.ts:83-86 | `atob` rejects exactly a bad length (1 modulo 4 after whitespace and padding are dropped) or a character outside the alphabet |
| Base64.DecodeEncode | app/src/vault/keyDerivation.ts:73-86 | `base64ToUint8Array(uint8ArrayToBase64(b)) == b` for every byte sequence |
| Base64.RegroupSextets | app/src/vault/keyDerivation.ts:83-86 | regrouping the 6-bit groups of any byte sequence into bytes gives that sequence back |
| Base64.StripPaddingOfEncode | app/src/vault/keyDerivation.ts:73-86 | the decoder's padding step removes exactly the encoder's padding |
| Base64.ValuesOfChars | app/src/vault/keyDerivation.ts:73-86 | the decoder reads back every 6-bit value the encoder wrote |
| VaultTypes.FindById | app/src/state/useVaultStore.ts:79-85 | `find` by id gives the first element with that id, and nothing exactly when no element has it |
| VaultTypes.FindByIdFirst | app/src/state/useVaultStore.ts:79-81 | an element whose id no earlier element carries is what the lookup of that id returns |
| VaultTypes.EnumerationsComplete | app/src/vault/types.ts:8-26 | `CardElement` has exactly 4 values, `CardModality` 3 and `CardClass` 8, each listed once |
| SeedData.SeedSizes | app/src/vault/seedData.ts:9-261 | the deck has exactly 15 cards and there are 3 flows |
| SeedData.SeedCardIdsDistinct | app/src/vault/seedData.ts:11-205 | no two seed cards share an id |
| SeedData.SeedFlowIdsDistinct | app/src/vault/seedData.ts:210-261 | no two seed flows share an id |
| SeedData.SeedCardsInRange | app/src/vault/seedData.ts:11-205 | every seed card's heat impact is in -2..3 and its flight delta in -5..10 (the ranges documented at app/src/vault/types.ts:50-54) |
| SeedData.SeedCardLookup | app/src/vault/seedData.ts:11-205 | looking up a seed card's id in the deck finds that very card |
| SeedData.SeedFlowsByPosition | app/src/vault/seedData.ts:215-258 | each flow's sequence and required counters, written as positions in the deck |
| SeedData.SeedSequencesResolve | app/src/vault/seedData.ts:215-257 | every id in every seed flow's sequence names a seed card |
| SeedData.SeedRequiredCountersAreCounters | app/src/vault/seedData.ts:226-258 | every required counter names a seed card of class `Counter` |
| SeedData.SeedFlowHeadResolves | app/src/vault/seedData.ts:215-257 | each seed flow is non-empty and its first id names a seed card |
| SeedData.SeedFlowsStart | app/src/vault/seedData.ts:210-261 | `startSession(f, seedCards)` finds cards for every seed flow `f`, so it never throws |
| SessionStore.FlowCards | app/src/state/useSessionStore.ts:60-62 | the matched cards are at most as many as the ids, all taken from `cards`, and none exactly when no id names a card |
| SessionStore.Matched | app/src/state/useSessionStore.ts:61 | one id contributes at most one card, and none exactly when no card has that id |
| SessionStore.FlowCardsAppend | app/src/state/useSessionStore.ts:60-62 | the map/filter works id by id: it distributes over concatenation, so order is kept |
| SessionStore.FlowCardsFirst | app/src/state/useSessionStore.ts:60-71 | a sequence whose first id names a card starts its matched cards with that id's first card |
| SessionStore.ClampHeat | app/src/state/useSessionStore.ts:116-120 | the result is within 0..10, equals the input inside that range, and is 0 or 10 outside it |
| SessionStore.SessionStore.constructor | app/src/state/useSessionStore.ts:43-56 | the initial state: no flow, index 0, heats 5, flight path 50, not live |
| SessionStore.SessionStore.StartSession | app/src/state/useSessionStore.ts:59-81 | fails, changing nothing, exactly when no sequence id names a card; otherwise index 0, the first matched card as current, the next at most two matched cards upcoming, heats 5, flight path 50, timer cleared, live, started at `now` |
| SessionStore.SessionStore.AdvanceCard | app/src/state/useSessionStore.ts:84-109 | no flow: no change; past the end: index at the sequence length, no current or upcoming card; otherwise index + 1, timer and warning cleared, the current card unchanged; the index never exceeds the sequence length |
| SessionStore.SessionStore.AdjustHeat | app/src/state/useSessionStore.ts:112-124 | the targeted heat moves by `delta`, clamped to 0..10; every other field, the other heat included, is unchanged |
| SessionStore.SessionStore.UpdateTimer | app/src/state/useSessionStore.ts:127-129 | only the timer and warning fields change, to the given values |
| SessionStore.SessionStore.EndSession | app/src/state/useSessionStore.ts:132-136 | only `isLive` changes, to false |
| SessionStore.SessionStore.ResetSession | app/src/state/useSessionStore.ts:139-153 | exactly the initial state |
| SessionStore.PlayThrough | app/src/state/useSessionStore.ts:59-109 | a session on a flow whose first id names a card starts on that card, and advancing through it ends with the index at the sequence length and no current or upcoming card |
| VaultStore.VaultStore.constructor | app/src/state/useVaultStore.ts:36-42 | locked, holding nothing |
| VaultStore.VaultStore.Unlock | app/src/state/useVaultStore.ts:45-54 | unlocked, holding the PIN and the data's cards, flows, salt and `lastModified`; every one of those cards can be found by id |
| VaultStore.VaultStore.Lock | app/src/state/useVaultStore.ts:57-66 | back to the initial state; after it no card or flow id is found |
| VaultStore.VaultStore.UpdateCards | app/src/state/useVaultStore.ts:69-71 | cards replaced and `lastModified` set to `now`; flows, PIN, salt and lock state unchanged |
| VaultStore.VaultStore.UpdateFlows | app/src/state/useVaultStore.ts:74-76 | flows replaced and `lastModified` set to `now`; everything else unchanged |
| VaultStore.VaultStore.GetCardById | app/src/state/useVaultStore.ts:79-81 | the first held card with this id, and nothing exactly when no held card has it |
| VaultStore.VaultStore.GetFlowById | app/src/state/useVaultStore.ts:83-85 | the first held flow with this id, and nothing exactly when no held flow has it |
| VaultStore.UnlockEditLock | app/src/state/useVaultStore.ts:45-81 | after unlocking, a card of the data is found; editing the cards keeps the flows; after locking the card is gone |
| CamoStore.SnapshotsAgree | app/src/state/useCamoStore.ts:11-22 | the snapshot keeps exactly the nine picked fields: two session states snapshot alike if and only if they differ in nothing but `isLive` and `sessionStartedAt` |
| CamoStore.CamoStore.constructor | app/src/state/useCamoStore.ts:43-46 | inactive, with no activation time and no snapshot |
| CamoStore.CamoStore.Activate | app/src/state/useCamoStore.ts:49-55 | active since `now`, with the given snapshot saved |
| CamoStore.CamoStore.Deactivate | app/src/state/useCamoStore.ts:58-63 | inactive with no activation time; the saved snapshot is kept |
| CamoStore.CamoStore.GetSnapshot | app/src/state/useCamoStore.ts:66-68 | always nothing, whatever the state |
| CamoStore.CurtainUpAndDown | app/src/state/useCamoStore.ts:49-68 | raising then lowering the curtain leaves it down, with the session's snapshot saved, while `getSnapshot` still returns nothing |
| Turn.TurnEngine.constructor | app/src/turn/TurnEngine.ts:36-43 | idle, with the 4000 ms default duration and no callbacks |
| Turn.TurnEngine.Elapsed | app/src/turn/TurnEngine.ts:134-148 | 0 when idle; the frozen value when paused; the time since the start while running, capped at the duration, so it never exceeds the duration |
| Turn.TurnEngine.Remaining | app/src/turn/TurnEngine.ts:153-156 | never negative; it is 0 once elapsed reaches the duration, and otherwise elapsed + remaining is the duration |
| Turn.TurnEngine.Start | app/src/turn/TurnEngine.ts:49-62 | no effect while running; otherwise (from idle or paused: a restart, not a resume) running with the given duration, so that at any later `t` elapsed is `min(t - now, duration)` |
| Turn.TurnEngine.Pause | app/src/turn/TurnEngine.ts:67-79 | acts only while running; it freezes elapsed at its value at `now`, for every later reading |
| Turn.TurnEngine.Resume | app/src/turn/TurnEngine.ts:84-95 | acts only while paused; `d` ms later elapsed is the frozen value plus `d`, capped at the duration |
| Turn.TurnEngine.Stop | app/src/turn/TurnEngine.ts:108-115 | from any state: idle, no interval, nothing paused |
| Turn.TurnEngine.Reset | app/src/turn/TurnEngine.ts:100-103 | running again with the same duration and elapsed 0 |
| Turn.TurnEngine.OnTick | app/src/turn/TurnEngine.ts:120-122 | a tick callback is registered; nothing else changes |
| Turn.TurnEngine.OnExpire | app/src/turn/TurnEngine.ts:127-129 | an expire callback is registered; nothing else changes |
| Turn.TurnEngine.Tick | app/src/turn/TurnEngine.ts:168-190 | at or past the duration: the engine stops (the `expired` state is overwritten at once), the expire callback fires if registered and the tick callback does not; below it: the tick callback gets elapsed and whether it has reached 3000 ms, and nothing changes |
| Turn.TurnEngine.Destroy | app/src/turn/TurnEngine.ts:195-199 | idle, with both callbacks cleared |
| Turn.PauseAndResume | app/src/turn/TurnEngine.ts:67-95 | a turn paused `p` ms in reads `p` for as long as it stays paused, and `min(p + d, 4000)` at `d` ms after it resumes |
| Turn.ExpireThenRestart | app/src/turn/TurnEngine.ts:168-181 | the first tick at or after 4000 ms fires the expire callback and leaves the engine idle; a new start reads 0 |
| VaultDriver.FileName | app/src/vault/vaultDriver.ts:17-23 | the three fixed file names |
| VaultDriver.MetadataIn | app/src/vault/vaultDriver.ts:41-60 | a missing or unparsable metadata file reads as `{exists: false, failedAttempts: 0}`; otherwise the parsed metadata |
| VaultDriver.WithMetadata | app/src/vault/vaultDriver.ts:65-68 | only the metadata file changes, and it then reads back as the metadata written |
| VaultDriver.Cleared | app/src/vault/vaultDriver.ts:89-94 | counter 0, timestamp removed, `exists` and `createdAt` kept; never locked out |
| VaultDriver.WithFailure | app/src/vault/vaultDriver.ts:105-112 | counter + 1, timestamp `now`, `exists` and `createdAt` kept; locked out exactly when that reaches 3 |
| VaultDriver.AfterLockoutCheck | app/src/vault/vaultDriver.ts:73-100 | only an expired lockout changes the files, and then only the metadata, which reads back cleared; afterwards there is no lockout unless one was already active and nothing moved |
| VaultDriver.Unseal | app/src/vault/vaultDriver.ts:190-213 | a missing vault file fails; success means the vault file parsed, the salt file decoded, the key derived from the PIN and that salt, and the payload decrypted to the result |
| VaultDriver.UnsealIgnoresMetadata | app/src/vault/vaultDriver.ts:190-213 | the unsealing does not read the metadata file |
| VaultDriver.Seal | app/src/vault/vaultDriver.ts:132-153 | a short PIN fails; success carries the salt file text, which is the base64 of the fresh salt; with working services and a KDF that does not fail it succeeds |
| VaultDriver.UnsealSeal | app/src/vault/vaultDriver.ts:132-213 | the files a create leaves unseal under the same PIN to exactly the data it built: the given cards and flows, the salt file's text, version 1, created at `now` |
| VaultDriver.Reseal | app/src/vault/vaultDriver.ts:226-248 | the key comes from the salt carried in the data, not from the salt file; a bad salt or a short PIN fails |
| VaultDriver.UnsealReseal | app/src/vault/vaultDriver.ts:190-248 | a saved vault opens again with the same PIN, when the salt file holds the same salt, and gives back every field with the new `lastModified` |
| VaultDriver.Vault.constructor | app/src/vault/vaultDriver.ts:17-23 | a vault over the given files and services |
| VaultDriver.Vault.VaultExists | app/src/vault/vaultDriver.ts:34-36 | true exactly when the vault file is present |
| VaultDriver.Vault.LoadMetadata | app/src/vault/vaultDriver.ts:41-60 | never fails; the safe default when the file is missing or unparsable |
| VaultDriver.Vault.SaveMetadata | app/src/vault/vaultDriver.ts:65-68 | overwrites the metadata file only, and it reads back as written |
| VaultDriver.Vault.IsLockedOut | app/src/vault/vaultDriver.ts:73-100 | true exactly during an active lockout (3+ failures, the last less than 60 000 ms ago), writing nothing; with fewer failures or no timestamp, false and nothing written; an expired lockout is rewritten to counter 0 with no timestamp, other fields kept, and reported as false |
| VaultDriver.Vault.RecordFailedAttempt | app/src/vault/vaultDriver.ts:105-112 | the counter rises by exactly 1 and the timestamp becomes `now`; `exists` and `createdAt` kept |
| VaultDriver.Vault.ResetFailedAttempts | app/src/vault/vaultDriver.ts:117-124 | the counter is 0 and the timestamp removed; `exists` and `createdAt` kept |
| VaultDriver.Vault.CreateVault | app/src/vault/vaultDriver.ts:132-167 | nothing is written when key derivation or encryption fails; otherwise the vault, salt and metadata files are written in that order, a failing write stops the sequence with the earlier writes in place, and on success the metadata is `{exists: true, createdAt: now, failedAttempts: 0}` and the vault unseals under the PIN to the given cards and flows, salt equal to the salt file, version 1 |
| VaultDriver.Vault.LoadVault | app/src/vault/vaultDriver.ts:176-218 | an active lockout is refused with nothing written; then a missing vault file is refused (an expired lockout having been cleared); then any failure of the unsealing counts exactly one failed attempt and is one generic error, while success returns the data and resets the counter |
| VaultDriver.Vault.SaveVault | app/src/vault/vaultDriver.ts:226-248 | writes the vault file only, re-sealed with the salt the data carries; the salt file and metadata are untouched and a failure writes nothing; the result opens again with every field kept and the new `lastModified` |
| VaultDriver.Vault.DestroyVault | app/src/vault/vaultDriver.ts:254-268 | never fails; unlinks only files that exist, in the order vault, salt, metadata; with no failure nothing is left; a failing unlink skips the rest |
| UnlockHelper.RemainingLockout | app/src/vault/unlockHelper.ts:40-48 | `max(0, 60000 - (now - lastFailed))`, which is never negative, at most 60 000 when `now` is not before the last failure, 0 exactly when the window has passed, and positive during an active lockout; the full 60 000 with no timestamp |
| UnlockHelper.RemainingLockoutDecreases | app/src/vault/unlockHelper.ts:97-102 | inside the window the countdown falls by exactly the time that has passed |
| UnlockHelper.AfterFailure | app/src/vault/unlockHelper.ts:60-77 | wrong PIN with `3 - failedAttempts` attempts left exactly when that is at least 1; otherwise locked out with the countdown |
| UnlockHelper.AttemptUnlock | app/src/vault/unlockHelper.ts:29-79 | no vault file: `no-vault`, decided first and with nothing written; active lockout: `locked-out` with the countdown, nothing written and no attempt counted; success carries exactly the vault's cards and flows and resets the counter; a failure counts one attempt and is classified from the new counter, so `attemptsRemaining` is at least 1 |
| UnlockHelper.CheckLockoutStatus | app/src/vault/unlockHelper.ts:85-106 | the countdown, which is positive, exactly when there is a vault file and an active lockout, and nothing otherwise; an expired lockout is cleared on disk on the way |
| UnlockHelper.ThreeWrongPins | app/src/vault/unlockHelper.ts:61-77 | from 0 failures, three wrong PINs at one instant give `wrong-pin 2`, `wrong-pin 1`, then `locked-out 60000`, leaving 3 failures stamped at that instant |
| UnlockHelper.LockoutCountdown | app/src/vault/unlockHelper.ts:85-106 | 1 ms before the window closes the status is 1 ms; when it closes the status is null and the counter on disk is back to 0 |
| UnlockHelper.WrongThenRightPin | app/src/vault/unlockHelper.ts:29-79 | one wrong PIN and then the right one gives `wrong-pin 2`, then the vault's cards and flows, and leaves 0 failures |
| UnlockHelper.CreateThenUnlock | app/src/vault/vaultDriver.ts:132-218 | a vault created with a PIN unlocks with that PIN to exactly the cards and flows it was created with |
| UnlockHelper.HalfWrittenVault | app/src/vault/vaultDriver.ts:155-159 | a failed salt write leaves a vault that exists but cannot be opened: the right PIN counts as a wrong one |
| UnlockHelper.DestroyThenUnlock | app/src/vault/vaultDriver.ts:254-268 | after a wipe with no failing step, unlocking gives `no-vault` and the lockout status is null |

## Left out

- Real cryptography is not modelled. Argon2id, XSalsa20-Poly1305 and `randombytes_buf` are function values constrained only by their round-trip contracts, so the model does not show that a wrong key or tampered data is detected. It only shows that both give the same single error.
- Salt and nonce uniqueness, and confidentiality, are probabilistic properties and are not modelled. Each random draw is an explicit `Entropy` argument.
- `JSON.stringify`/`JSON.parse` and `TextEncoder`/`TextDecoder` are abstract codecs. Their round trip is a hypothesis, and `JSON.parse` of a valid but ill-shaped object is not distinguished from a good one.
- ISO-8601 timestamps are integer milliseconds. The NaN timestamp an unparsable `lastFailedAttempt` would give is not modelled.
- `async`/`await` is not modelled: each operation runs as one sequential method.
- The clock is read once per operation. The code reads it separately in `isLockedOut`, `recordFailedAttempt` and `attemptUnlock`, and the model treats those reads as the same instant.
- Only `createVault` and `destroyVault` model write and unlink failures. Elsewhere a read fails only when the file is absent, and writes succeed.
- `Turn.TurnEngine.Remaining`: the "remaining + elapsed = duration" clause is stated only for a non-negative duration, because the clamp changes the sum for a negative one.
- `Turn.TurnEngine`: `setInterval`/`clearInterval` and the 50 ms cadence are left out. An installed interval is the `ticking` flag, and each firing is a call of `Tick(now)`.
- `Turn.TurnEngine`: the code works in floating-point seconds. This includes `pausedElapsed` in seconds and the `* 1000` in `resume`. The model works in integer milliseconds throughout, so rounding is not modelled.
- `Turn.TurnEngine.OnTick`: callbacks are recorded only as present or absent. `Tick` returns which one would run and with which arguments.
- `UnlockHelper.AttemptUnlock`: the exact outcome after a load attempt is stated only when the metadata JSON codec round-trips. Without that, the model cannot know what the counter reads back as.
- The store's `timerElapsed` is an integer here. The code stores the engine's seconds.
- JavaScript numbers are unbounded integers here. This covers `adjustHeat`'s `delta`, the heats, `flightPath`, `failedAttempts`, the schema versions and the timestamps, so fractional values, NaN, infinities and the 2^53 precision limit are not modelled.
- KeyDerivation.DeriveKey: its PIN length counts UTF-16 code units as JavaScript's `length` does. A string holding a lone surrogate, which JavaScript allows, cannot be represented, because Dafny characters are Unicode scalar values.
- The UI components (the curtain's PIN check, the timer display, the screens and the navigator), theme constants, type declarations, re-exports and tooling configuration are presentation or configuration only.
- Timing side channels and wiping keys and PINs from memory cannot be expressed in the model.
