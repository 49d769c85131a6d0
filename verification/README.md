# GhostKey, modelled and proved

GhostKey vaults are Taproot coins that their owner can spend at any time and an heir only after a
long silence. This project models two of its cores and a few sharp pieces around them, and proves
what they promise.

**The spending policy, as a compiler** (`ScriptNum`, `Tapscript`, `Miniscript`, `Decimal`, `Grammar`,
`Descriptors`, `Keys`, `VaultPairs`, `VaultScripts`, `Blockchain`, `WalletClaims`, `DescriptorToChain`). The builders of
`descriptor.rs` print descriptor text. The text is parsed to a Miniscript tree (BIP 379), the tree is
typed and compiled to tapscript, the script runs on a stack machine (BIP 342, 112, 65), and blocks
decide which spends confirm (BIP 68, 341). The compiler is proved once, for every well-typed
expression over the fragments the builders use: a leaf can be spent exactly when its policy holds. The
two vaults are instances, and the last theorems go from the printed text to every run of blocks.

**The credentials of a trusted device, as a stateful protocol** (`VaultStores`, `Credentials`, `DeviceLock`,
`SignIn`, `TrustedDevice`, `Recovery`, `Stranding`, `LockAndUnlock`, `AddHeir`, `CloseVault`, `Session`, and
for runs `Awaits`, `AwaitInvariants`, `CredentialRuns`, `LateAnswers`, `RunToCompletion`, `LateRun`,
`OwnerEmails`, with `Crypto`, `EmailText`, `Ordering`). `VaultStore` is a class over the stored maps. Each
page operation is a method with the source's loops, proved equal to a function of the old state, and theorems
about those functions say what an operation comes to when nothing disturbs it. For runs, lock passes and
unlocks are cut into steps, and any number of them is interleaved with setups, back-fills, recoveries, closed
tabs and removals. The cuts are wherever the page waits for the server, and a few more where it does not wait:
after the answer to a seeding request, between the last seeding turn and the read, and after the answer to a
repair. So theorems about every run cover more runs than the page can perform; `RunToCompletion.Uninterrupted`
singles out those in which nothing comes between two steps the page does not wait between. The theorems about
runs are soundness of every step, conservation of credentials, and the exact condition under which an
overlapping answer costs one. The server, the clock, random draws and fresh ids are parameters. Calls may fail
and answers may be late. A bundle the server returns is any ciphertext ever uploaded for the vault, not only
the newest.

**Smaller pieces.** The recovery-kit page (`Kit`), the passphrase sampler (`Passphrase`, `Division`),
the unlock year (`UnlockHeights`), the inactivity clock (`Session`).

`dafny verify dfyconfig.toml` checks the whole project.

## Where the code and its promises differ

The model follows the code. Each difference has an exact condition that is proved.

- Redeeming a link with several shares saves a share whose blob still holds the placeholder with neither
  token nor lock, over whatever the device held for it. `Stranding.RecoveryLosesIff` says exactly which vaults
  lose their credential. `Stranding.StrandedRun` is a possible run from an empty device that loses the only
  copy of a token. This step and removal are excluded from `CredentialRuns.NoCredentialIsLost`.
- An unlock ends with one write that marks as validated whatever lock is then stored. An answer to a
  request of a lock pass, or of another sign-in, can overwrite the lock with the placeholder bundle after the
  unlock read or repaired it. `LateAnswers.UnlockKeepsIff` says, over every interleaving, that a restored vault
  stays recoverable if and only if no such answer has landed and stayed. `LateRun.LateRunLosesToken` gives
  an uninterrupted losing run for every two vaults of one owner set up without their reseals: the old answer for
  the first vault arrives while the page waits for the repair of the second. A vault whose repair is the last
  step before the end is never lost on the page (`RunToCompletion.LastRepairIsSafe`), so a sign-in that repairs
  the only vault it opens is safe. No other end of an unlock is excluded from `CredentialRuns.NoCredentialIsLost`.
- A comment in `onActivity` says that a click on an expired session does not renew it. The click does not,
  but the pass it starts does when the active vault has no lock and is not given one by the pass:
  `Session.ExpiredSessionRenewsIff`, with `Session.WalletVaultRenews` for a vault on which every click does.
- The page locks less than 570 s after an interaction with a live session in exactly one case: a pass was
  under way, the owner signed in on the page while it was not locked, and the interaction followed.
  `Session.LockWithin570SecondsIff`, and `Session.SignInDuringPassIsLocked` for runs on which it happens.
- `unlockYearToHeight` documents a height or null. Outside the years a Date can represent it returns NaN:
  `UnlockHeights.NeverNotANumberIff`.
- The pair builders accept any two parseable texts. They say what was asked for if and only if the key
  fragments hold no comma and no parenthesis and no key is malformed or repeated: `Descriptors.PairIntendedIff`.
  `Descriptors.UncleanPairMisparses` gives fragments for which the builder succeeds with another policy.

## Model

| member | source | states |
|---|---|---|
| ScriptNum.RoundTrip | crates/ghostkey-core/src/descriptor.rs:92-101 | a timelock pushed by the script reads back as itself and is a true element exactly when it is not zero |
| ScriptNum.TruthyIff | crates/ghostkey-core/src/descriptor.rs:92-101 | any stack element is true exactly when it does not read as zero, negative zero included |
| ScriptNum.EncodeIsShortest | crates/ghostkey-core/src/descriptor.rs:92-101 | the push is minimal: no stack element that reads as the number is shorter, and none as short is another |
| ScriptNum.TimelockOperandFits | crates/ghostkey-core/src/descriptor.rs:41-43 | every 32-bit timelock fits the five bytes the timelock opcodes read |
| Tapscript.Signers | crates/ghostkey-core/src/descriptor.rs:142-145 | the keys with a valid, non-empty signature for the input |
| Miniscript.MapKeysTyped | crates/ghostkey-core/src/descriptor.rs:257-261 | deriving script keys from a parsed tree does not change its type |
| Miniscript.LockTyped | crates/ghostkey-core/src/descriptor.rs:257-261 | exactly the timelocks of 1 to 31 bits are valid expressions |
| Miniscript.EvalKeeps | crates/ghostkey-core/src/descriptor.rs:7-11 | type soundness over every well-typed expression: how much stack an evaluation may touch, what it leaves, and that a true result needs the policy |
| Miniscript.CompileSkipped | crates/ghostkey-core/src/descriptor.rs:92-101 | a compiled expression in a branch not taken changes nothing |
| Miniscript.CompileCorrect | crates/ghostkey-core/src/descriptor.rs:92-101 | compiler correctness: the script does to the machine what the expression means on the stack, aborts included |
| Miniscript.DissatisfactionWorks | crates/ghostkey-core/src/descriptor.rs:13-15 | empty elements alone dissatisfy any dissatisfiable expression |
| Miniscript.SatisfactionWorks | crates/ghostkey-core/src/descriptor.rs:13-15 | the witness read off an expression satisfies it whenever its policy holds |
| Miniscript.AcceptsIsEval | crates/ghostkey-core/src/descriptor.rs:92-101 | a leaf accepts exactly the stacks that evaluate to one true element |
| Miniscript.LeafSound | crates/ghostkey-core/src/descriptor.rs:9-15 | no witness whatsoever is accepted unless the policy holds |
| Miniscript.LeafComplete | crates/ghostkey-core/src/descriptor.rs:9-15 | some witness is accepted whenever the policy holds |
| Miniscript.SpendableIffPolicyHolds | crates/ghostkey-core/src/descriptor.rs:9-19 | a leaf can be spent if and only if its policy holds for the signatures, the sequence and the lock time |
| Decimal.ReadPrint | crates/ghostkey-core/src/descriptor.rs:94-100 | printed numbers read back, without leading zeros |
| Grammar.ReadPrinted | crates/ghostkey-core/src/descriptor.rs:257-261 | reading the print of any printable expression, whatever follows, gives it back with exactly the rest left over |
| Grammar.ReadPrintedDescriptor | crates/ghostkey-core/src/descriptor.rs:257-261 | the same for whole descriptors |
| Grammar.ReadIsPrintable | crates/ghostkey-core/src/descriptor.rs:257-261 | whatever is read has keys without delimiters |
| Grammar.CleanKeyIff | crates/ghostkey-core/src/descriptor.rs:92-101 | the delimiters are the comma and the two parentheses |
| Descriptors.BuiltIsPrinted | crates/ghostkey-core/src/descriptor.rs:92-101 | the standard text is the print of the standard tree under the NUMS key |
| Descriptors.GuardianBuiltIsPrinted | crates/ghostkey-core/src/descriptor.rs:198-216 | the guardian text is the print of the guardian tree, with or without an unlock height |
| Descriptors.StandardTyped | crates/ghostkey-core/src/descriptor.rs:92-101 | the standard tree is a valid leaf |
| Descriptors.GuardianTyped | crates/ghostkey-core/src/descriptor.rs:198-216 | the guardian tree is a valid leaf, with or without an unlock height |
| Descriptors.BuiltReadsBack | crates/ghostkey-core/src/descriptor.rs:92-101 | the standard text reads as exactly its tree if and only if its keys hold no comma or parenthesis |
| Descriptors.GuardianBuiltReadsBack | crates/ghostkey-core/src/descriptor.rs:198-216 | the same for the guardian text |
| Descriptors.BuiltParsesBack | crates/ghostkey-core/src/descriptor.rs:92-131 | the standard text parses to exactly its tree, keys and timelock if and only if the keys hold no delimiter and are well formed and different |
| Descriptors.ReadApartIff | crates/ghostkey-core/src/descriptor.rs:257-261 | well formed and different, spelled out for the two keys and for the four |
| Descriptors.GuardianBuiltParsesBack | crates/ghostkey-core/src/descriptor.rs:198-255 | the same for the guardian text, its four keys and its unlock height |
| Descriptors.CleanRefusedIff | crates/ghostkey-core/src/descriptor.rs:257-261 | a standard text with clean keys is refused exactly when a key is malformed or repeated |
| Descriptors.GuardianCleanRefusedIff | crates/ghostkey-core/src/descriptor.rs:257-261 | the same for the guardian text |
| Descriptors.PairIntendedIff | crates/ghostkey-core/src/descriptor.rs:107-131 | for arbitrary fragments: the pair is built and both texts parse to the intended trees if and only if on both chains the keys hold no delimiter and are well formed and different |
| Descriptors.GuardianPairIntendedIff | crates/ghostkey-core/src/descriptor.rs:220-255 | the same for guardian pairs |
| Descriptors.UncleanPairMisparses | crates/ghostkey-core/src/descriptor.rs:107-131 | fragments with delimiters for which the pair builder succeeds and both texts parse to another policy |
| Descriptors.DistinctVaultsDistinctText | crates/ghostkey-core/src/descriptor.rs:92-101 | two standard vaults with one text are one vault |
| Descriptors.DistinctGuardianVaultsDistinctText | crates/ghostkey-core/src/descriptor.rs:198-216 | two guardian vaults with one text are one vault |
| Descriptors.StandardIsNotGuardian | crates/ghostkey-core/src/descriptor.rs:92-216 | no text is that of a standard and of a guardian vault |
| Descriptors.BuiltOnNums | crates/ghostkey-core/src/descriptor.rs:38-39 | every text built has the NUMS key of BIP 341 as its internal key |
| Keys.FindSuffix | ghostkey-web/src/AddHeirPortal.tsx:88-93 | the leftmost position at which the chain-suffix pattern matches to the end |
| Keys.ChainSuffixIff | ghostkey-web/src/AddHeirPortal.tsx:88-93 | the pattern is a slash, one or more digits, a slash and a star |
| Keys.StripsNothingElse | ghostkey-web/src/AddHeirPortal.tsx:88-93 | a text without such a suffix is left as it is |
| Keys.SuffixIsUnique | ghostkey-web/src/AddHeirPortal.tsx:88-93 | at most one position of a text starts a chain suffix |
| Keys.StripAppended | ghostkey-web/src/AddHeirPortal.tsx:88-93 | stripping removes exactly an appended suffix, whatever stands before it |
| Keys.SiblingOwnerBranch | crates/ghostkey-core/src/keys.rs:138-164 | stripping a printed fragment of either chain gives the origin-tagged xpub, and appending both chains again gives both fragments |
| Keys.FragmentIsClean | crates/ghostkey-core/src/keys.rs:154-164 | a fragment of clean parts holds no delimiter |
| Keys.AccountPaths | crates/ghostkey-core/src/keys.rs:24-41 | the account path holds no delimiter and no leading `m/`, and tells mainnet from the test networks and nothing else |
| Keys.AccountPathText | crates/ghostkey-core/src/keys.rs:24-41 | the account path is `86'/0'/0'` on mainnet and `86'/1'/0'` on the test networks |
| Keys.FragmentText | crates/ghostkey-core/src/keys.rs:146-164 | with or without `m/` before its path a fragment is `[fingerprint/path]xpub` and `/0/*` for receiving, `/1/*` for change |
| VaultPairs.PairHasOnePolicy | crates/ghostkey-core/src/descriptor.rs:107-131 | a pair of the two chains of the same keys is refused exactly for a timelock that is zero or does not fit 16 bits, or for a malformed or repeated key; otherwise both texts parse, to one policy up to the chain index |
| VaultPairs.GuardianPairHasOnePolicy | crates/ghostkey-core/src/descriptor.rs:220-255 | the same for guardian pairs; the timelock error comes before the error for an unlock height that is zero or no block height, and both before the keys |
| VaultScripts.TimelockAcceptedIff | crates/ghostkey-core/src/descriptor.rs:60-67 | the timelocks accepted are exactly the positive ones of which CSV enforces every bit as a number of blocks |
| VaultScripts.GuardianAcceptedIff | crates/ghostkey-core/src/descriptor.rs:169-187 | with those, the unlock heights accepted are exactly the positive ones CLTV reads as heights; the timelock error comes first |
| VaultScripts.CsvExactly | crates/ghostkey-core/src/descriptor.rs:41-67 | the CSV check passes exactly for version 2 or more, clear disable and type bits, and low 16 bits at least the timelock |
| VaultScripts.CltvExactly | crates/ghostkey-core/src/descriptor.rs:169-187 | the CLTV check passes exactly for a height at least the unlock height and a sequence that is not final |
| VaultScripts.WalletClaimPasses | crates/ghostkey-core/src/psbt.rs:158-241 | the claims the wallet builds pass CSV always, and CLTV exactly once the tip has reached the unlock height |
| VaultScripts.StandardScript | crates/ghostkey-core/src/descriptor.rs:92-101 | the standard leaf, opcode by opcode |
| VaultScripts.GuardianScript | crates/ghostkey-core/src/descriptor.rs:198-216 | the guardian leaf, opcode by opcode, with or without an unlock height |
| VaultScripts.StandardAccepts | crates/ghostkey-core/src/descriptor.rs:13-19 | the standard script accepts exactly `[owner_sig]` and, with CSV passed, `[heir_sig, empty]` |
| VaultScripts.GuardianOrEval | crates/ghostkey-core/src/descriptor.rs:200-204 | the guardian disjunction takes two slots, each empty or signed, aborts on anything else, and is true when one is signed |
| VaultScripts.GuardianAccepts | crates/ghostkey-core/src/descriptor.rs:135-216 | the guardian script accepts exactly `[owner_sig]` and, with the timelocks passed, `[g2, g1, heir_sig, empty]` with at least one guardian slot signed |
| Blockchain.LeafPolicy | crates/ghostkey-core/src/descriptor.rs:135-148 | the policy of either leaf in words: the owner, or the claim keys with both locks passed |
| Blockchain.PassingInputIsLawful | crates/ghostkey-core/src/lib.rs:19-27 | script, sequence lock and finality together: an input that validates was signed by the owner, or is a claim at or above its claim height |
| Blockchain.EverySpendIsLawful | crates/ghostkey-core/src/lib.rs:19-27 | in every run of valid blocks every spend of a coin at any address of the vault is the owner's, or a claim with the right keys at least the timelock above the coin's own confirmation and above the unlock height |
| Blockchain.EverySpendSinceGenesisIsLawful | crates/ghostkey-core/src/lib.rs:19-27 | the same from an empty chain, without an assumption about earlier spends |
| Blockchain.CheckingInPreventsClaims | crates/ghostkey-core/src/lib.rs:23-24 | an owner who moves every coin, to whatever addresses of the vault, before its claim height is never claimed from |
| Blockchain.CheckInResets | crates/ghostkey-core/src/lib.rs:23-24 | in any block the owner alone can move a coin to a fresh outpoint at any address of the vault; the old coin is gone, nothing else changes, and the countdown starts anew |
| Blockchain.SpendOfPassesLocks | crates/ghostkey-core/src/descriptor.rs:161-187 | one choice of sequence and lock time meets both locks, for every accepted timelock and unlock height |
| Blockchain.SpendableExactly | crates/ghostkey-core/src/lib.rs:19-27 | a set of keys can spend a coin in a block if and only if the owner is among them, or the claim keys are and the block is at or above the claim height |
| Blockchain.RunExtends | crates/ghostkey-core/src/lib.rs:23-24 | along a run heights grow by one a block, and a coin still there kept its confirmation height |
| Blockchain.UntouchedCoinStaysClaimable | crates/ghostkey-core/src/descriptor.rs:161-166 | after any blocks that leave a coin in place, the claimants alone can spend it next exactly when the claim height fixed by its confirmation is reached |
| WalletClaims.ClaimWaits | crates/ghostkey-core/src/psbt.rs:158-177 | an input with the wallet's sequence may be mined exactly once its coin is as many blocks old as the timelock |
| WalletClaims.ClaimStackAccepted | crates/ghostkey-core/src/psbt.rs:181-183 | the wallet's witness opens the leaf of either vault exactly when the wallet holds the claim keys and the timelock checks pass |
| WalletClaims.ClaimValidIff | crates/ghostkey-core/src/psbt.rs:158-241 | the wallet's drain of any coins, built on any tip, is valid in a later block if and only if for every coin the wallet held the claim keys, the coin has aged by the timelock and the tip had reached the unlock height; it takes exactly those coins |
| WalletClaims.ClaimMinableFromClaimHeight | crates/ghostkey-core/src/psbt.rs:158-241 | with the claim keys, the claim on the current tip is minable in the next block if and only if that block has reached the claim height of every coin |
| DescriptorToChain.StandardTextIsLeaf | crates/ghostkey-core/src/descriptor.rs:107-131 | at every address the text the pair builder returns for its chain, parsed and with keys derived, is the leaf that locks the coins |
| DescriptorToChain.GuardianTextIsLeaf | crates/ghostkey-core/src/descriptor.rs:220-255 | the same for guardian pairs |
| DescriptorToChain.StandardTextPromise | crates/ghostkey-core/src/lib.rs:19-21 | from the texts of a pair to any block: exactly who can spend a coin at any address, and from which height |
| DescriptorToChain.GuardianTextPromise | crates/ghostkey-core/src/descriptor.rs:135-166 | from the texts of a guardian pair to any block: the owner, or the heir with either guardian after the timelock and above the unlock height, and nobody else |
| Crypto.CacheKeyInjective | ghostkey-web/src/SignInPortal.tsx:286-290 | the colon-joined cache key tells all key parameters apart |
| EmailText.TrimmedEmailSameHash | ghostkey-web/src/crypto/sealing.ts:487-493 | trimming an email before it is stored does not change its lookup hash |
| EmailText.SameHashIff | ghostkey-web/src/crypto/sealing.ts:487-493 | two emails share a hash if and only if, without the blanks around them, they have the same length and differ at most in the case of ASCII letters |
| EmailText.BlankIff | ghostkey-web/src/crypto/sealing.ts:488-488 | what trimming removes, by code point (ECMA-262, WhiteSpace and LineTerminator) |
| EmailText.SameOwner | ghostkey-web/src/crypto/sealing.ts:488-488 | an email with capitals and blanks of five kinds around it has the hash of the plain one |
| EmailText.LooksLikeEmailIff | ghostkey-web/src/App.tsx:469-471 | an address passes the email test if and only if, without blanks around it, it is name, at sign, host, dot, domain, none empty or with a line break |
| Ordering.KeyLeqIff | ghostkey-web/src/vaultStore.ts:170-175 | keys are in order exactly when the second is not older: the dates decide where they first differ, and the ids only on one date |
| Ordering.SortForgetsOrder | ghostkey-web/src/SignInPortal.tsx:491-494 | with distinct keys the sorted order does not depend on the order of the input |
| VaultStores.VaultStore.SetActiveVaultId | ghostkey-web/src/vaultStore.ts:245-250 | the active id becomes the one given, or null for an absent or empty one |
| VaultStores.VaultStore.SaveVaultMeta | ghostkey-web/src/vaultStore.ts:144-154 | the whole new state of a save: a token with a validated lock goes to the session only |
| VaultStores.VaultStore.SaveVaultCredentialLock | ghostkey-web/src/vaultStore.ts:205-212 | a candidate lock is stored exactly beside a token at rest, which stays |
| VaultStores.VaultStore.LockVaultCredential | ghostkey-web/src/vaultStore.ts:215-223 | exactly a readable token under a validated lock is replaced, at rest and in the session |
| VaultStores.VaultStore.TokensFit | ghostkey-web/src/vaultStore.ts:226-230 | the check before the write accepts exactly non-empty tokens of vaults with a lock |
| VaultStores.VaultStore.UnlockedMetas | ghostkey-web/src/vaultStore.ts:232-239 | exactly the vaults of the tokens lose their plaintext and have their lock validated |
| VaultStores.VaultStore.UnlockVaultCredentials | ghostkey-web/src/vaultStore.ts:226-243 | all or nothing: every token is restored, or the store is as it was |
| VaultStores.VaultStore.RemoveVaultMeta | ghostkey-web/src/vaultStore.ts:304-319 | the vault and its session token are gone, and the active id, if it was that vault, moves to the first remaining vault |
| VaultStores.RemoveHandsOn | ghostkey-web/src/vaultStore.ts:304-319 | removal forgets that vault only; the active id moves exactly if it named it, to the vault stored first among the rest |
| VaultStores.AllMetasOldestFirst | ghostkey-web/src/vaultStore.ts:165-175 | the list holds every stored vault exactly once, each older than the next by creation date, and by id on one date |
| VaultStores.CanLocalUnlockIff | ghostkey-web/src/vaultStore.ts:194-202 | a vault can be unlocked here exactly when it has a lock, or a token and an owner address that is an email |
| VaultStores.TrustedIffSomeCredential | ghostkey-web/src/vaultStore.ts:321-333 | sign-in finds a vault to unlock exactly when some vault on the device can be unlocked: the active one if it can be, and else one that is older than every other that can |
| Credentials.CredentialIsRecoverable | ghostkey-web/src/vaultStore.ts:205-223 | in a sound device, holding a credential is holding the issued token, in the clear or in a blob that opens to it |
| Credentials.ReadableIsIssued | ghostkey-web/src/vaultStore.ts:161-163 | a readable token is the issued one, never the placeholder |
| Credentials.SaveKeepsGood | ghostkey-web/src/vaultStore.ts:144-154 | a sound save keeps the device sound and costs only what the saved meta does not carry itself |
| Credentials.SaveLockKeepsGood | ghostkey-web/src/vaultStore.ts:204-212 | caching a candidate lock keeps the device sound and changes no readable token |
| Credentials.LockKeepsGood | ghostkey-web/src/vaultStore.ts:214-223 | locking keeps the device sound and loses no credential |
| Credentials.UnlockKeepsGoodIff | ghostkey-web/src/vaultStore.ts:225-243 | the restoring write keeps the device sound if and only if each lock stored at that moment holds the issued token |
| Credentials.CloseTabKeepsGood | ghostkey-web/src/vaultStore.ts:84-94 | losing the session storage loses no credential |
| Credentials.RemoveKeepsGood | ghostkey-web/src/vaultStore.ts:304-319 | removal costs that vault's credential and no other |
| DeviceLock.LockDevice | ghostkey-web/src/App.tsx:467-493 | the locking loop, run over the metas read before it started, does what a pass over them says |
| DeviceLock.LockPassVault | ghostkey-web/src/App.tsx:467-493 | a pass locks exactly the readable password vaults with a validated lock, seeds exactly those with a token at rest, no lock and an answered bundle, and leaves all others alone |
| DeviceLock.LockPassKeepsGood | ghostkey-web/src/App.tsx:452-493 | a pass keeps the device sound and loses no credential, whatever the server answers |
| SignIn.SeedVault | ghostkey-web/src/SignInPortal.tsx:238-264 | seeding adds unvalidated candidate locks to exactly the matching vaults and touches nothing else |
| SignIn.SeedKeepsGood | ghostkey-web/src/SignInPortal.tsx:238-264 | seeding keeps the device sound and loses no credential |
| SignIn.MatchingMembers | ghostkey-web/src/SignInPortal.tsx:276-280 | the matching vaults are exactly those sealed for the email, once each, the active one first |
| SignIn.OpenOneVault | ghostkey-web/src/SignInPortal.tsx:311-356 | one turn of the loop: when it throws, which lock it repairs, which token it records, what it uploads |
| SignIn.OpenAllVault | ghostkey-web/src/SignInPortal.tsx:311-356 | the loop throws exactly when some vault stops it, and otherwise treats each vault on its own |
| SignIn.OpeningKeepsGood | ghostkey-web/src/SignInPortal.tsx:311-356 | finished or thrown out of, the loop leaves a sound device and no credential lost |
| SignIn.OpeningUploadsGood | ghostkey-web/src/SignInPortal.tsx:334-346 | every uploaded ciphertext holds the issued token under the vault's password |
| SignIn.FinalWrite | ghostkey-web/src/SignInPortal.tsx:360-362 | after a finished loop the one restoring write is never refused and keeps the device sound |
| SignIn.UnlockOutcome | ghostkey-web/src/SignInPortal.tsx:217-380 | an unlock succeeds if and only if the password is the active vault's and every opened placeholder was repaired on the server; however it ends the device is sound and no credential is lost |
| SignIn.UnlockSucceedsIff | ghostkey-web/src/SignInPortal.tsx:217-380 | the same condition for any vault id and password: without a password, an owner address, or a lock or token nothing happens at all |
| SignIn.UnlockOpensVault | ghostkey-web/src/SignInPortal.tsx:270-362 | after success every vault sealed for the email under the password reads its issued token with no plaintext at rest, and every other vault is as seeding left it |
| SignIn.WrongPasswordChangesNothing | ghostkey-web/src/SignInPortal.tsx:266-323 | a password that does not open the active vault's blob changes no readable token, moves no plaintext, turns on no flag and uploads nothing |
| TrustedDevice.KekCache.KekFor | ghostkey-web/src/SignInPortal.tsx:286-309 | a cached key is the key a fresh derivation gives, and each parameter set is derived once |
| TrustedDevice.SeedLocks | ghostkey-web/src/SignInPortal.tsx:238-264 | the seeding loop does what seeding over the listed vaults says |
| TrustedDevice.OpenVaults | ghostkey-web/src/SignInPortal.tsx:310-359 | the loop with cached keys has the outcome of deriving afresh for every vault; finished, it derived exactly one key for each distinct parameter set |
| TrustedDevice.RestoreTokens | ghostkey-web/src/SignInPortal.tsx:276-362 | opening and restoring together refine their specification |
| TrustedDevice.UnlockTrustedDevice | ghostkey-web/src/SignInPortal.tsx:217-380 | the whole unlock refines its specification and derives no key twice |
| Recovery.RecoverVault | ghostkey-web/src/SignInPortal.tsx:382-467 | recovering one vault saves it, validated and active, exactly when its blob opens to a real token |
| Recovery.RecoverGroup | ghostkey-web/src/SignInPortal.tsx:480-584 | the group loop, with its first and first-live ids, does what recovering the sorted shares says |
| Recovery.RecoverLink | ghostkey-web/src/SignInPortal.tsx:203-215 | a link with no vault does nothing, one vault is recovered by itself, several as a group |
| Recovery.VaultRecovered | ghostkey-web/src/SignInPortal.tsx:410-451 | a single recovery succeeds exactly when the blob opens to a token other than the placeholder; then the vault is stored field by field, is active, reads the token from the session and keeps only a validated lock at rest; otherwise nothing changes |
| Recovery.BundleOrderIsIrrelevant | ghostkey-web/src/SignInPortal.tsx:486-494 | the order the server returned the bundles in does not matter |
| Recovery.GroupRecovered | ghostkey-web/src/SignInPortal.tsx:480-584 | after success every share is stored field by field under one group id, tokens exist only where a blob held a real one, other vaults are untouched, and the active vault is the share not claimed that is older than all others not claimed, or the oldest if all are |
| Recovery.GroupStopped | ghostkey-web/src/SignInPortal.tsx:496-570 | a recovery stopped by a share that does not open has stored exactly the older shares, and nothing if there is none |
| Stranding.RecoveryLosesIff | ghostkey-web/src/SignInPortal.tsx:203-215 | whether a recovery succeeds, fails or is cut short, a vault loses its credential if and only if the link has several shares, its own holds the placeholder, and no older one failed to open |
| Stranding.PlaceholderSharesAreStranded | ghostkey-web/src/SignInPortal.tsx:524-556 | after a successful recovery a share has a credential if and only if its blob held a real token |
| Stranding.StrandedRun | ghostkey-web/src/SignInPortal.tsx:529-556 | a possible run from an empty device, two setups and a link for both, after which neither the device nor anything uploaded gives the first token back |
| LockAndUnlock.LockThenUnlock | ghostkey-web/src/App.tsx:467-471 | a lock pass then an unlock gives a readable token back if and only if the pass did not lock it or the unlock opened it; opened vaults keep no plaintext at rest |
| LockAndUnlock.RightPasswordOpens | ghostkey-web/src/SignInPortal.tsx:217-362 | on a sound device with every vault sealed, the password of a vault sealed for its own email opens it, whatever the server answers |
| LockAndUnlock.OwnerComesBack | ghostkey-web/src/SignInPortal.tsx:222-362 | an owner locked out by a pass signs in again, which meets every premise of `SignIn.UnlockOpensVault` and `LockAndUnlock.LockThenUnlock` |
| Awaits.PassTurnIsLockOne | ghostkey-web/src/App.tsx:467-493 | a turn of a pass and its answer, undisturbed, are one round of the locking loop |
| Awaits.SeedTurnIsSeedOne | ghostkey-web/src/SignInPortal.tsx:238-264 | a turn of seeding and its answer, undisturbed, are one round of the seeding loop |
| Awaits.TryTurnIsOpenOne | ghostkey-web/src/SignInPortal.tsx:311-356 | a turn of opening and the answer to its repair, undisturbed, are one round of the opening loop |
| Awaits.PassAloneIsLockPass | ghostkey-web/src/App.tsx:460-493 | a pass begun and carried through undisturbed, turn by turn, is the locking loop |
| Awaits.UnlockAloneIsUnlock | ghostkey-web/src/SignInPortal.tsx:217-362 | an unlock begun and carried through undisturbed, step by step, leaves what the whole unlock leaves and succeeds when it does |
| AwaitInvariants.UnlockStays | ghostkey-web/src/SignInPortal.tsx:276-356 | what an unlock has read, repaired and opened stays sound through any other step whose write is noted |
| AwaitInvariants.ReadIsGood | ghostkey-web/src/SignInPortal.tsx:266-281 | what an unlock reads after seeding is sound, and no answer has been late yet |
| AwaitInvariants.TryTurnIsGood | ghostkey-web/src/SignInPortal.tsx:311-346 | a token an unlock takes is the issued one, a repair it starts holds it, and so does what it uploads |
| AwaitInvariants.RepairReplyIsGood | ghostkey-web/src/SignInPortal.tsx:343-353 | a repaired lock is stored beside a token at rest, and where none is left a validated lock is there already |
| AwaitInvariants.FinishKeepsGoodIff | ghostkey-web/src/SignInPortal.tsx:360-362 | the restoring write keeps the device sound if and only if no lock it trusts was overwritten late |
| CredentialRuns.SetupIsGood | ghostkey-web/src/PasswordSetupPortal.tsx:697-755 | a setup, whether or not the reseal reached or was confirmed, leaves a sound device that holds the new credential |
| CredentialRuns.SetupStores | ghostkey-web/src/PasswordSetupPortal.tsx:697-755 | what a setup stores, field by field: the vault is active and readable, with its token in the clear exactly when the reseal was not confirmed, and otherwise under a validated lock |
| CredentialRuns.SetupUploads | ghostkey-web/src/PasswordSetupPortal.tsx:697-714 | what a setup uploads: the placeholder, and the real token exactly when the reseal reached the server |
| CredentialRuns.WalletSetupStores | ghostkey-web/src/SetupPortal.tsx:362-372 | a wallet setup stores its vault field by field, token in the clear and no lock, and makes it active |
| CredentialRuns.OwnerSteps | ghostkey-web/src/vaultStore.ts:245-319 | what closing the tab, choosing a vault and removing one change, and that they change nothing else |
| CredentialRuns.RecoverOneIsGood | ghostkey-web/src/SignInPortal.tsx:382-467 | recovering one vault at any moment is a sound step that costs no credential |
| CredentialRuns.RecoverShareIsGood | ghostkey-web/src/SignInPortal.tsx:496-562 | saving one share of a group at any moment is a sound step that can cost only that share's credential, and only if it holds the placeholder |
| CredentialRuns.PassTurnIsGood | ghostkey-web/src/App.tsx:467-475 | a turn of a pass over metas read long ago is a sound step that costs no credential |
| CredentialRuns.PassAnswerIsGood | ghostkey-web/src/App.tsx:476-492 | an answer to a pass is a sound step whenever it arrives |
| CredentialRuns.RepairAnswerIsGood | ghostkey-web/src/SignInPortal.tsx:343-353 | the answer to a repair is a sound step whenever it arrives, and whether or not it succeeded |
| CredentialRuns.FinishIsGoodIff | ghostkey-web/src/SignInPortal.tsx:357-362 | the end of an unlock leaves everything sound if and only if it is not late, and costs no credential entry either way |
| CredentialRuns.StepIsGood | ghostkey-web/src/vaultStore.ts:144-243 | every step of every interleaving keeps the device and all that is under way sound, except the end of an unlock over a late answer; only removal and placeholder recovery can lose a credential |
| CredentialRuns.NoCredentialIsLost | ghostkey-web/src/vaultStore.ts:144-243 | over every interleaved run a held credential stays recoverable, validated blobs open to the issued token under the vault's password, and readable tokens are issued ones |
| LateAnswers.FinishKeepsVaultIff | ghostkey-web/src/vaultStore.ts:225-243 | a vault restored by the end of an unlock stays recoverable, also after the tab is closed, if and only if its lock was not overwritten late |
| LateAnswers.HistoryMeans | ghostkey-web/src/App.tsx:476-488 | overwritten late means: a placeholder answer landed on the lock since the unlock read its vaults, and nothing has written the lock since |
| LateAnswers.UnlockKeepsIff | ghostkey-web/src/SignInPortal.tsx:276-362 | over every interleaving between the read and the final write of an unlock, a restored vault stays recoverable, and the device sound, if and only if no placeholder answer has landed in between and stayed |
| RunToCompletion.RepairedNotLate | ghostkey-web/src/SignInPortal.tsx:343-353 | the answer to a repair leaves the repaired vault among the restored ones, and its lock not overwritten late |
| RunToCompletion.LastRepairIsSafe | ghostkey-web/src/SignInPortal.tsx:343-362 | after the last repair of an unlock the page can do nothing but end it, and if the final write is made the vault repaired last stays recoverable |
| LateRun.SignsIn | ghostkey-web/src/SignInPortal.tsx:222-237 | while a pass waits for the first bundle the device offers the first vault, and the owner can sign in |
| LateRun.LateRunLosesToken | ghostkey-web/src/SignInPortal.tsx:334-362 | for every two vaults of one owner set up without their reseals, a possible run of one pass and one unlock that interrupts nothing between two waits, after which the first vault's validated lock holds only the placeholder and its token is gone with the tab |
| LateRun.HeirsAreReal | ghostkey-web/src/SignInPortal.tsx:222-225 | two such vaults exist |
| OwnerEmails.RunFiled | ghostkey-web/src/vaultStore.ts:204-212 | over every interleaved run each lock is filed under its own vault's email hash |
| OwnerEmails.NeverWrongEmail | ghostkey-web/src/SignInPortal.tsx:266-269 | after any such run the wrong-email refusal never fires on a vault that has a lock |
| AddHeir.SaveHeir | ghostkey-web/src/AddHeirPortal.tsx:277-311 | the back-fill and the save of the new share, as one new state |
| AddHeir.SharesOneGroup | ghostkey-web/src/AddHeirPortal.tsx:277-311 | both shares end in the old group, or in the new one if there was none, and are otherwise as they were; the new one is active and readable, the sibling's token is unchanged, other vaults are untouched |
| CloseVault.RemoveActive | ghostkey-web/src/vaultStore.ts:304-319 | removal keeps the active id naming a stored vault, or null on an empty device |
| CloseVault.Credentials | ghostkey-web/src/Dashboard.tsx:357-372 | closing goes ahead exactly when every share has a usable token |
| CloseVault.CloseShares | ghostkey-web/src/Dashboard.tsx:355-407 | nothing is removed if a share lacks a token; otherwise exactly the leading shares deleted or unknown to the server are, and an active id that named a stored vault still does |
| Session.SessionGuard.SessionExpired | ghostkey-web/src/vaultStore.ts:279-296 | expired exactly from ten minutes after a readable time; an unreadable one is replaced |
| Session.SessionGuard.LockIfPasswordVault | ghostkey-web/src/App.tsx:460-464 | a pass starts exactly on an expired, unlocked session without a pass under way |
| Session.SessionGuard.OnActivity | ghostkey-web/src/App.tsx:508-521 | an interaction touches the clock at most every 30 s and never an expired one |
| Session.SessionGuard.OnPassEnd | ghostkey-web/src/App.tsx:494-506 | a pass ends in a locked page, or in a fresh window |
| Session.SessionGuard.OnSignIn | ghostkey-web/src/App.tsx:669-676 | a sign-in opens a fresh window; only on a locked page do the handlers start over |
| Session.SignInOpens | ghostkey-web/src/App.tsx:669-676 | after a sign-in the page is open and the session lasts exactly ten minutes; from a locked page no pass is left over and the next live interaction renews |
| Session.LockedIff | ghostkey-web/src/App.tsx:494-500 | in every run the page is locked at the end exactly when a pass that ended on a vault with a lock, or the start, came after the last sign-in |
| Session.PassUnderWayIff | ghostkey-web/src/App.tsx:460-506 | in every run a pass is under way at the end exactly when some interaction or check found an unlocked session ten minutes old and no pass has ended since |
| Session.UnreadableIsFresh | ghostkey-web/src/vaultStore.ts:279-296 | a stored time that cannot be read is replaced by the time of the first look at it |
| Session.ActivityTimeTrails | ghostkey-web/src/App.tsx:508-521 | in every run with a non-decreasing clock the stored time is less than 30 s behind the last interaction that found the session unexpired |
| Session.LockWithin570SecondsIff | ghostkey-web/src/App.tsx:457-538 | when the page becomes locked, the last such interaction lies more than 570 s back, unless one followed a sign-in on the unlocked page during the pass that locks |
| Session.NoPassWithin570Seconds | ghostkey-web/src/vaultStore.ts:264-296 | no pass starts within 570 s of such an interaction |
| Session.SignInDuringPassIsLocked | ghostkey-web/src/App.tsx:494-500 | runs on which the page locks right after a live interaction, for all times |
| Session.ExpiredStaysExpired | ghostkey-web/src/App.tsx:510-515 | interactions with an expired session change nothing but start a pass |
| Session.PassGivesLockIff | ghostkey-web/src/App.tsx:467-494 | a pass ends with a lock on the active vault exactly when it had one or is given one |
| Session.ExpiredSessionRenewsIff | ghostkey-web/src/App.tsx:494-515 | a session found expired is renewed if and only if the active vault has no lock and keeps no token at rest, is no password vault, or gets no bundle; otherwise the page locks |
| Session.WalletVaultRenews | ghostkey-web/src/App.tsx:489-505 | a device with one wallet vault, on which a click on an expired session renews it whatever the server answers |
| Session.WritesAreRare | ghostkey-web/src/App.tsx:516-520 | however many interactions, a readable stored time is changed at most once in 30 s |
| Session.IdleSessionLocks | ghostkey-web/src/App.tsx:522-527 | of periodic checks on an idle session, the first at ten minutes or more after the stored time starts the pass, and none before |
| Kit.ReadEscaped | ghostkey-web/src/independenceProof.ts:69-69 | any string, escaped and with `<` hidden, reads back unchanged, backslashes before `<` and lone surrogates included |
| Kit.WrittenUnit | ghostkey-web/src/independenceProof.ts:69-69 | how each code unit of a string is written (RFC 8259, section 7) |
| Kit.WrittenPair | ghostkey-web/src/independenceProof.ts:69-69 | a surrogate pair is written as it is |
| Kit.WrittenField | ghostkey-web/src/independenceProof.ts:69-69 | how a name and its value are written |
| Kit.WrittenRecord | ghostkey-web/src/independenceProof.ts:69-69 | how two fields are put together |
| Kit.HideLessLeavesNone | ghostkey-web/src/independenceProof.ts:69-69 | no `<` is left |
| Kit.KitJsonRoundTrip | ghostkey-web/src/independenceProof.ts:64-71 | the hidden JSON of any record holds no `<` and parses back to the record |
| Kit.SplitPieces | ghostkey-web/src/independenceProof.ts:70-70 | splitting leaves no placeholder in a piece, and joining with the placeholder gives the template back |
| Kit.SplitJoined | ghostkey-web/src/independenceProof.ts:70-70 | splitting a template joined from parts with placeholders between them finds exactly those parts |
| Kit.SplitIsParts | ghostkey-web/src/independenceProof.ts:70-70 | every template is joined from such parts |
| Kit.SpliceAddsNoTag | ghostkey-web/src/independenceProof.ts:64-71 | the page has exactly the template's `<` characters |
| Kit.RecordInjective | ghostkey-web/src/independenceProof.ts:26-47 | the written record determines every field of the kit |
| Kit.KitHolds | ghostkey-web/src/independenceProof.ts:26-47 | under each of its fourteen names the reader of the record finds what belongs there |
| Kit.KitPage | ghostkey-web/src/independenceProof.ts:100-131 | in a template with any number of placeholders each of them and nothing else is replaced, and the kit's record is read back from what replaced it |
| Passphrase.GeneratePassphrase | ghostkey-web/src/independenceProof.ts:224-235 | on any tape of draws the words are the first accepted draws modulo the list size, in order |
| Passphrase.WordsReadBack | ghostkey-web/src/independenceProof.ts:234-234 | the words stand between the hyphens of the passphrase |
| Passphrase.PicksPrefix | ghostkey-web/src/independenceProof.ts:229-233 | reading on never changes the words already picked |
| Passphrase.DrawsAreUniform | ghostkey-web/src/independenceProof.ts:225-232 | for every list size up to 2^32 each index has exactly the same number of accepted draws, and at least one |
| UnlockHeights.NextYear | ghostkey-web/src/unlockHeight.ts:35-35 | the day numbers of consecutive years differ by the calendar's days of the year (ECMA-262, DayFromYear) |
| UnlockHeights.FirstHeight | ghostkey-web/src/unlockHeight.ts:18-39 | day 0 is 1 January 1970, the anchor is 24 January 2025, and 2026 is the first year with a height |
| UnlockHeights.RoundingIsExact | ghostkey-web/src/unlockHeight.ts:36-36 | the rounding loses nothing: 144 blocks for each day since the anchor |
| UnlockHeights.EveryYear | ghostkey-web/src/unlockHeight.ts:33-39 | the result for every year: a height exactly from 2026 to 11514, NaN exactly outside Date's range, null otherwise |
| UnlockHeights.NeverNotANumberIff | ghostkey-web/src/unlockHeight.ts:28-39 | the documented result, null or a height, exactly for the years Date can represent |
| UnlockHeights.HeightGrowsByDays | ghostkey-web/src/unlockHeight.ts:33-39 | one year later is 144 blocks more for each day of the year |
| UnlockHeights.HeightValidates | crates/ghostkey-core/src/descriptor.rs:175-187 | every returned height passes the guardian builder's validation |

## Left out

- Descriptors.BuiltParsesBack: the parser reads the fragments the builders print; what a key expression stands for, and which are malformed, is an arbitrary function, and the library's malleability rules and checksums are not modelled, so a text accepted here may still be refused there for those.
- Miniscript.EvalKeeps: of the correctness types the property `n`, and the malleability types, are not modelled; no fragment used here needs them.
- Miniscript.CompileCorrect: script-size, stack-size and signature-operation limits of the machine are not modelled; both leaves are far below them.
- VaultScripts.WalletClaimPasses: the wallet library's choice of transaction version is taken as 2.
- WalletClaims.ClaimValidIff: the recipient, fees, and coins not yet confirmed are left out, and a signature is the element the key signs with.
- Blockchain.EverySpendIsLawful: assumes that nobody can sign for the output key, whose internal key is the NUMS point; amounts, fees, other outputs and reorganisations are left out, and a block's median time is a parameter.
- Blockchain.SpendableExactly: a signature is a pair of key and element that the check accepts; hashing and Schnorr signatures stay abstract.
- DescriptorToChain.GuardianTextPromise: deriving a script key from a key expression is an arbitrary function; BIP 32 is not part of this model.
- Credentials.UnlockKeepsGoodIff: cryptography is symbolic: a blob opens under the key that sealed it and no other, derivation is injective and never fails, nonces and salt decoding are left out.
- EmailText.TrimmedEmailSameHash: blanks are those of ECMA-262, but only ASCII letters are lowered, Unicode normalisation is left out, and the hash is the normalised text itself.
- Ordering.KeyLeqIff: dates and ids are compared character by character, not by locale.
- SignIn.UnlockOutcome: the vault and email shown by the form are those stored when the button is pressed, and key derivation always succeeds.
- CredentialRuns.NoCredentialIsLost: one tab with working storage; steps may be interleaved even where the page runs them without waiting, which for a claim about every run only adds runs (the run of `LateRun.LateRunLosesToken` uses none of these); the owner's xprv blob, sealed under the same key as the token, is not modelled beside it.
- LockAndUnlock.LockThenUnlock: the pass and the unlock run one after the other, undisturbed.
- OwnerEmails.NeverWrongEmail: assumes that a vault's recovery links are for the email it was set up under, up to case and blanks.
- Recovery.GroupRecovered: assumes distinct, non-empty vault ids and non-empty tokens, as the server issues them; labels and heir names are taken as already derived.
- AddHeir.SharesOneGroup: assumes the sibling is stored, in the group the form was opened with, and that the new id is fresh.
- Session.LockWithin570SecondsIff: assumes the clock stands at least 30 s past its epoch, so that the initial zero never passes for a recent touch.
- Session.ExpiredSessionRenewsIff: the pass runs undisturbed; other tabs, which can write the same stored time and lock the page, are left out.
- Passphrase.GeneratePassphrase: the random source is a finite tape, and the result is None when it runs out, where the source would draw on.
- Kit.KitPage: the fetch of the template and the download are left out; numbers of the record are non-negative integers.
- `getVaultsByGroup` and the dashboard's `vaultCloseState`: filters over the stored metas.
- The server, its scheduler and routes, PSBT building, chain synchronisation, key generation and all rendering.
