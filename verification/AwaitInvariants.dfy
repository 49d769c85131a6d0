/**
 * What holds of passes and unlocks that are under way, whatever else runs between their steps:
 * the metas they once read are sound, the tokens they hold are the issued ones, and the history
 * of late answers tells exactly which locks the restoring write of an unlock would wrongly trust.
 */
module AwaitInvariants {
  import opened Wrappers
  import opened Crypto
  import opened EmailText
  import opened VaultStores
  import opened Credentials
  import opened DeviceLock
  import opened SignIn
  import opened Awaits

  predicate HoldsFor(truths: Truths, id: VaultId, lock: LockedOwnerToken) {
    id in truths && LockHoldsToken(lock, truths[id])
  }

  /** The vault's stored lock opens to its issued token. */
  predicate Holding(s: Store, truths: Truths, id: VaultId) {
    s.LockOf(id).Some? && HoldsFor(truths, id, s.LockOf(id).value)
  }

  predicate ReadGood(m: VaultMeta, truths: Truths) {
    m.id in truths && MetaGood(m, truths[m.id])
  }

  predicate PassGood(p: Pass, truths: Truths) {
    && (forall m :: m in p.rest ==> ReadGood(m, truths))
    && (p.asked.Some? ==> ReadGood(p.asked.value, truths))
  }

  /** History flags only vaults whose lock does not hold the token. */
  predicate LateSound(s: Store, truths: Truths, late: set<VaultId>, id: VaultId) {
    s.LockOf(id).Some? && id in late ==> !Holding(s, truths, id)
  }

  /** History flags the vault exactly when its lock does not hold the token. */
  predicate LateExact(s: Store, truths: Truths, late: set<VaultId>, id: VaultId) {
    s.LockOf(id).Some? ==> (id in late <==> !Holding(s, truths, id))
  }

  /** A vault the unlock has read and not restored yet: exact if the lock it read held the token. */
  predicate UntriedGood(s: Store, truths: Truths, m: VaultMeta, late: set<VaultId>) {
    && ReadGood(m, truths)
    && m.ownerTokenLock.Some?
    && LateSound(s, truths, late, m.id)
    && (HoldsFor(truths, m.id, m.ownerTokenLock.value) ==> LateExact(s, truths, late, m.id))
  }

  predicate RepairGood(s: Store, truths: Truths, r: Repair, late: set<VaultId>) {
    && UntriedGood(s, truths, r.meta, late)
    && r.liveToken == truths[r.meta.id].token
    && LockHoldsToken(RepairLock(r), truths[r.meta.id])
  }

  predicate TokenGood(s: Store, truths: Truths, id: VaultId, token: string, late: set<VaultId>) {
    id in truths && token == truths[id].token && LateExact(s, truths, late, id)
  }

  predicate UnlockGood(s: Store, truths: Truths, u: Unlocking) {
    match u.phase
    case Seeding(toSeed, asked) =>
      && (forall m :: m in toSeed ==> ReadGood(m, truths))
      && (asked.Some? ==> ReadGood(asked.value, truths))
    case Trying(rest, repair, tokens, late) =>
      && (forall m :: m in rest ==> UntriedGood(s, truths, m, late))
      && (repair.Some? ==> RepairGood(s, truths, repair.value, late))
      && (forall id :: id in tokens ==> TokenGood(s, truths, id, tokens[id], late))
  }

  // ----- what a step does to the locks -----

  /** What a step wrote: nothing the history needs, or the lock of one vault, late or not. */
  datatype Note = Unnoted | Noted(id: VaultId, late: bool)

  function NoteIn(u: Unlocking, n: Note): Unlocking {
    if n.Unnoted? || u.phase.Seeding? then u
    else u.(phase := u.phase.(late := if n.late then u.phase.late + {n.id} else u.phase.late - {n.id}))
  }

  /** The note tells truly what became of the lock of a vault. */
  predicate Explained(s: Store, t: Store, truths: Truths, n: Note, id: VaultId) {
    t.LockOf(id).Some? ==>
      if n.Noted? && n.id == id then n.late <==> !Holding(t, truths, id)
      else s.LockOf(id).Some? && (Holding(t, truths, id) <==> Holding(s, truths, id))
  }

  ghost predicate Explains(s: Store, t: Store, truths: Truths, n: Note) {
    forall id :: id in truths ==> Explained(s, t, truths, n, id)
  }

  ghost predicate Extended(truths: Truths, later: Truths) {
    forall id :: id in truths ==> id in later && later[id] == truths[id]
  }

  lemma HoldingStays(s: Store, truths: Truths, later: Truths, id: VaultId)
    requires Extended(truths, later) && id in truths
    ensures Holding(s, later, id) <==> Holding(s, truths, id)
  {}

  lemma LateStays(s: Store, t: Store, truths: Truths, later: Truths, late: set<VaultId>, u: Unlocking, n: Note,
                  id: VaultId)
    requires u.phase.Trying? && u.phase.late == late && Extended(truths, later) && id in truths
    requires Explained(s, t, truths, n, id)
    ensures LateSound(s, truths, late, id) ==> LateSound(t, later, NoteIn(u, n).phase.late, id)
    ensures LateExact(s, truths, late, id) ==> LateExact(t, later, NoteIn(u, n).phase.late, id)
  {
    HoldingStays(t, truths, later, id);
    hide Holding;
  }

  /** An unlock under way stays sound through any explained step. */
  lemma UnlockStays(s: Store, t: Store, truths: Truths, later: Truths, u: Unlocking, n: Note)
    requires UnlockGood(s, truths, u) && Explains(s, t, truths, n) && Extended(truths, later)
    ensures UnlockGood(t, later, NoteIn(u, n))
  {
    hide MetaGood, LateSound, LateExact, Explained, LockHoldsToken;
    if u.phase.Trying? {
      var late := u.phase.late;
      forall m | m in u.phase.rest
        ensures UntriedGood(t, later, m, NoteIn(u, n).phase.late)
      {
        LateStays(s, t, truths, later, late, u, n, m.id);
      }
      if u.phase.repair.Some? {
        LateStays(s, t, truths, later, late, u, n, u.phase.repair.value.meta.id);
      }
      forall id | id in u.phase.tokens
        ensures TokenGood(t, later, id, u.phase.tokens[id], NoteIn(u, n).phase.late)
      {
        LateStays(s, t, truths, later, late, u, n, id);
      }
    }
  }

  lemma PassStays(p: Pass, truths: Truths, later: Truths)
    requires PassGood(p, truths) && Extended(truths, later)
    ensures PassGood(p, later)
  {
    hide MetaGood;
  }

  // ----- each storage operation explained -----

  /** Caching a lock is noted when it is stored: late exactly if it does not hold the token. */
  function CacheNote(s: Store, truths: Truths, id: VaultId, lock: LockedOwnerToken): Note {
    if id in s.metas && Usable(s.metas[id].ownerToken) then Noted(id, !HoldsFor(truths, id, lock)) else Unnoted
  }

  lemma CacheExplained(s: Store, truths: Truths, id: VaultId, lock: LockedOwnerToken)
    ensures Explains(s, s.SaveVaultCredentialLock(id, lock), truths, CacheNote(s, truths, id, lock))
  {
    CachedStore(s, id, lock);
    hide Store.SaveVaultCredentialLock, HoldsFor;
  }

  function LockNote(s: Store, id: VaultId, lock: LockedOwnerToken): Note {
    if s.Lockable(id, lock) then Noted(id, false) else Unnoted
  }

  lemma LockExplained(s: Store, truths: Truths, id: VaultId, lock: LockedOwnerToken)
    requires s.Valid() && (lock.validated ==> HoldsFor(truths, id, lock))
    ensures Explains(s, s.LockVaultCredential(id, lock), truths, LockNote(s, id, lock))
  {
    LockedStore(s, id, lock);
    hide Store.Valid, Store.LockVaultCredential, HoldsFor;
  }

  /** A save that writes no lock, or one that holds the token. */
  lemma SaveExplained(s: Store, truths: Truths, meta: VaultMeta)
    requires meta.ownerTokenLock.Some? ==> HoldsFor(truths, meta.id, meta.ownerTokenLock.value)
    ensures Explains(s, s.SaveVaultMeta(meta), truths, Noted(meta.id, false))
  {
    SavedStore(s, meta);
    hide Store.SaveVaultMeta, HoldsFor;
  }

  /** A save that keeps the lock as it was, or is about a vault nobody knew. */
  lemma SameLockExplained(s: Store, truths: Truths, meta: VaultMeta)
    requires meta.id in truths ==> s.LockOf(meta.id) == meta.ownerTokenLock
    ensures Explains(s, s.SaveVaultMeta(meta), truths, Unnoted)
  {
    SavedStore(s, meta);
    hide Store.SaveVaultMeta, HoldsFor;
  }

  lemma SameLocksExplained(s: Store, t: Store, truths: Truths)
    requires forall id :: t.LockOf(id).Some? ==> s.LockOf(id) == t.LockOf(id)
    ensures Explains(s, t, truths, Unnoted)
  {
    hide HoldsFor;
  }

  /** The restoring write turns flags on and leaves what the blobs hold alone. */
  lemma RestoreExplained(s: Store, truths: Truths, tokens: map<VaultId, string>)
    ensures Explains(s, s.UnlockVaultCredentials(tokens), truths, Unnoted)
  {}

  // ----- steps of an unlock -----

  lemma ReadListGood(s: Store, truths: Truths, metas: seq<VaultMeta>)
    requires StoreGood(s, truths) && (forall m :: m in metas ==> m.id in s.metas && s.metas[m.id] == m)
    ensures forall m :: m in metas ==> ReadGood(m, truths)
  {
    hide Store.Valid, MetaGood;
    forall m | m in metas
      ensures ReadGood(m, truths)
    {
      assert VaultGood(s, truths, m.id);
    }
  }

  /** What an unlock reads is sound, and no answer has been late yet. */
  lemma ReadIsGood(s: Store, truths: Truths, u: Unlocking)
    requires StoreGood(s, truths) && u.phase == Seeding([], None)
    ensures ReadMatching(s, u).Some? ==> UnlockGood(s, truths, ReadMatching(s, u).value)
  {
    MatchingMembers(s, u.emailHash, u.localId);
    var metas := Matching(s, u.emailHash, u.localId);
    ReadListGood(s, truths, metas);
    hide StoreGood, Matching, MetaGood;
    forall m | m in metas
      ensures UntriedGood(s, truths, m, {})
    {
      assert s.LockOf(m.id) == m.ownerTokenLock;
    }
  }

  /** A turn of the opening loop: a token it takes is the issued one, a repair it starts is sound. */
  lemma TryTurnIsGood(s: Store, truths: Truths, u: Unlocking)
    requires StoreGood(s, truths) && UnlockGood(s, truths, u)
    requires u.phase.Trying? && u.phase.repair.None? && u.phase.rest != []
    ensures u.phase.rest[0].ownerTokenLock.Some?
    ensures TryTurn(s, u).Goes? ==> UnlockGood(s, truths, TryTurn(s, u).at)
    ensures TryTurn(s, u).Goes? && TryTurn(s, u).at.phase.repair.Some? ==>
              var r := TryTurn(s, u).at.phase.repair.value;
              && r.meta.id in truths && r.meta.ownerTokenLock.Some?
              && BundleGood(Bundle(r.meta.ownerTokenLock.value.params, r.blob), truths[r.meta.id])
  {
    var m := u.phase.rest[0];
    assert UntriedGood(s, truths, m, u.phase.late);
    if s.OwnerToken(m.id).Some? {
      ReadableIsIssued(s, truths, m.id);
    }
    TurnKinds(s, truths, u, m);
    hide StoreGood, LateSound, LateExact, ReadGood, HoldsFor, Decrypted;
  }

  /** A lock read from a sound store opens to the token or the placeholder, under the vault's own password. */
  lemma TurnKinds(s: Store, truths: Truths, u: Unlocking, m: VaultMeta)
    requires ReadGood(m, truths) && m.ownerTokenLock.Some?
    ensures Decrypted(m, u.password).Some? ==>
              && u.password == truths[m.id].password
              && (|| Decrypted(m, u.password) == Some(truths[m.id].token)
                  || Decrypted(m, u.password) == Some(PLACEHOLDER_OWNER_TOKEN))
              && (HoldsFor(truths, m.id, m.ownerTokenLock.value)
                  <==> Decrypted(m, u.password) == Some(truths[m.id].token))
  {}

  /** The repaired lock is stored, or a validated one is there already: either way the token counts as safe. */
  lemma RepairReplyIsGood(s: Store, truths: Truths, u: Unlocking)
    requires StoreGood(s, truths) && UnlockGood(s, truths, u)
    requires u.phase.Trying? && u.phase.repair.Some? && u.phase.repair.value.meta.ownerTokenLock.Some?
    ensures var r := u.phase.repair.value;
            var (t, v) := RepairReply(s, u);
            UnlockGood(t, truths, NoteIn(v, CacheNote(s, truths, r.meta.id, RepairLock(r))))
  {
    var r := u.phase.repair.value;
    var n := CacheNote(s, truths, r.meta.id, RepairLock(r));
    var (t, v) := RepairReply(s, u);
    CacheExplained(s, truths, r.meta.id, RepairLock(r));
    UnlockStays(s, t, truths, truths, u, n);
    RepairedIsExact(s, truths, u);
    hide StoreGood, LateExact, LateSound, ReadGood, HoldsFor, CacheNote, RepairLock, Explains;
  }

  lemma RepairedIsExact(s: Store, truths: Truths, u: Unlocking)
    requires StoreGood(s, truths) && UnlockGood(s, truths, u)
    requires u.phase.Trying? && u.phase.repair.Some? && u.phase.repair.value.meta.ownerTokenLock.Some?
    ensures var r := u.phase.repair.value;
            var n := CacheNote(s, truths, r.meta.id, RepairLock(r));
            LateExact(RepairReply(s, u).0, truths, NoteIn(u, n).phase.late, r.meta.id)
  {
    var r := u.phase.repair.value;
    CachedStore(s, r.meta.id, RepairLock(r));
    assert VaultGood(s, truths, r.meta.id);
    hide StoreGood, Store.SaveVaultCredentialLock, LockHoldsToken;
  }

  /** A finished unlock keeps the device sound exactly when no lock it trusts is late. */
  lemma FinishKeepsGoodIff(s: Store, truths: Truths, u: Unlocking)
    requires StoreGood(s, truths) && UnlockGood(s, truths, u) && Accepted(s, u)
    ensures StoreGood(Finish(s, u), truths) <==> forall id :: id in u.phase.tokens ==> id !in u.phase.late
    ensures KeepsCredentials(s, Finish(s, u), {})
  {
    var tokens := u.phase.tokens;
    hide StoreGood, KeepsCredentials, LockHoldsToken;
    forall id | id in tokens
      ensures id in truths && tokens[id] == truths[id].token && s.LockOf(id).Some?
      ensures LockHoldsToken(s.LockOf(id).value, truths[id]) <==> id !in u.phase.late
    {
      assert TokenGood(s, truths, id, tokens[id], u.phase.late);
    }
    UnlockKeepsGoodIff(s, truths, tokens);
  }
}
