/**
 * What makes the credentials of a device sound, and what each storage operation does to that.
 * `Truth` is what only the server and the owner know: the token the server issued for a vault
 * and the password the owner sealed it under.
 */
module Credentials {
  import opened Wrappers
  import opened Crypto
  import opened VaultStores

  const PLACEHOLDER_OWNER_TOKEN: string := "ghostkey-placeholder-owner-token-v1"

  /** The password-wrapped owner token the server keeps for a vault. */
  datatype Bundle = Bundle(params: KdfParams, ownerTokenBlob: Blob)

  datatype Truth = Truth(token: string, password: string)

  type Truths = map<VaultId, Truth>

  predicate TruthsGood(truths: Truths) {
    forall id :: id in truths ==> truths[id].token != "" && truths[id].token != PLACEHOLDER_OWNER_TOKEN
  }

  /** What a blob sealed for a vault may hold: its token, or the placeholder of an unfinished setup. */
  predicate HoldsTokenOrPlaceholder(params: KdfParams, blob: Blob, t: Truth) {
    var plaintext := Open(Kek(t.password, params), blob);
    plaintext == Some(t.token) || plaintext == Some(PLACEHOLDER_OWNER_TOKEN)
  }

  predicate BundleGood(b: Bundle, t: Truth) {
    HoldsTokenOrPlaceholder(b.params, b.ownerTokenBlob, t)
  }

  /** The lock opens, under the vault's password, to the token the server issued. */
  predicate LockHoldsToken(lock: LockedOwnerToken, t: Truth) {
    Open(Kek(t.password, lock.params), lock.ownerTokenBlob) == Some(t.token)
  }

  predicate LockGood(lock: LockedOwnerToken, t: Truth) {
    && HoldsTokenOrPlaceholder(lock.params, lock.ownerTokenBlob, t)
    && (lock.validated ==> LockHoldsToken(lock, t))
  }

  predicate MetaGood(m: VaultMeta, t: Truth) {
    && (m.ownerToken.Some? ==> m.ownerToken.value == t.token)
    && (m.ownerTokenLock.Some? ==>
          && LockGood(m.ownerTokenLock.value, t)
          && (m.ownerToken.Some? || m.ownerTokenLock.value.validated))
  }

  predicate HasValidatedLock(s: Store, id: VaultId) {
    s.LockOf(id).Some? && s.LockOf(id).value.validated
  }

  /**
   * The credentials of a device are sound: tokens at rest and tokens in the session are the
   * issued ones, validated locks open to them, and an unvalidated lock never stands alone.
   */
  ghost predicate StoreGood(s: Store, truths: Truths) {
    && s.Valid()
    && TruthsGood(truths)
    && (forall id :: VaultGood(s, truths, id))
  }

  predicate VaultGood(s: Store, truths: Truths, id: VaultId) {
    && (id in s.metas ==> id in truths && MetaGood(s.metas[id], truths[id]))
    && (id in s.live ==> id in truths && s.live[id] == truths[id].token)
  }

  /** The device holds something to sign in to the vault with. */
  predicate HasCredential(s: Store, id: VaultId) {
    id in s.metas && (s.metas[id].ownerToken.Some? || s.metas[id].ownerTokenLock.Some?)
  }

  /** The issued token survives even a closed tab: in the clear, or in a blob the password opens. */
  predicate Recoverable(s: Store, id: VaultId, t: Truth) {
    && id in s.metas
    && (|| s.metas[id].ownerToken == Some(t.token)
        || (HasValidatedLock(s, id) && LockHoldsToken(s.metas[id].ownerTokenLock.value, t)))
  }

  /** In a sound store holding a credential is holding the real one. */
  lemma CredentialIsRecoverable(s: Store, truths: Truths, id: VaultId)
    requires StoreGood(s, truths) && HasCredential(s, id)
    ensures id in truths && Recoverable(s, id, truths[id])
  {
    assert VaultGood(s, truths, id);
  }

  /** A readable token is always the issued one; in particular it is never the placeholder. */
  lemma ReadableIsIssued(s: Store, truths: Truths, id: VaultId)
    requires StoreGood(s, truths) && s.OwnerToken(id).Some?
    ensures id in truths && s.OwnerToken(id).value == truths[id].token != PLACEHOLDER_OWNER_TOKEN
    ensures Usable(s.OwnerToken(id))
  {
    assert VaultGood(s, truths, id);
  }

  // ----- each storage operation -----

  /** Every credential of `s` is still one of `later`, except those of `lost`. */
  ghost predicate KeepsCredentials(s: Store, later: Store, lost: set<VaultId>) {
    forall id :: HasCredential(s, id) && id !in lost ==> HasCredential(later, id)
  }

  /** What the API calls of one operation return: a call for a vault that is not listed fails. */
  datatype Replies = Replies(bundles: map<VaultId, Bundle>, resealed: set<VaultId>)

  predicate RepliesGood(replies: Replies, truths: Truths) {
    forall id :: id in replies.bundles ==> id in truths && BundleGood(replies.bundles[id], truths[id])
  }

  /** A candidate lock made from a server bundle, not yet proven to hold the token. */
  function Candidate(b: Bundle, emailHash: string): LockedOwnerToken {
    LockedOwnerToken(b.params, b.ownerTokenBlob, emailHash, false)
  }

  predicate MovesToSession(meta: VaultMeta) {
    Usable(meta.ownerToken) && meta.ownerTokenLock.Some? && meta.ownerTokenLock.value.validated
  }

  lemma SavedStore(s: Store, meta: VaultMeta)
    ensures var r := s.SaveVaultMeta(meta);
            if MovesToSession(meta)
            then r.metas == s.metas[meta.id := meta.(ownerToken := None)]
                 && r.live == s.live[meta.id := meta.ownerToken.value]
            else r.metas == s.metas[meta.id := meta] && r.live == s.live
    ensures meta.id != "" ==> s.SaveVaultMeta(meta).active == Some(meta.id)
  {}

  lemma SaveKeepsVaultGood(s: Store, truths: Truths, meta: VaultMeta, x: VaultId)
    requires VaultGood(s, truths, x) && meta.id in truths && MetaGood(meta, truths[meta.id])
    ensures VaultGood(s.SaveVaultMeta(meta), truths, x)
  {}

  /** Saving a sound meta keeps the store sound, and it loses only what the meta does not carry itself. */
  lemma SaveKeepsGood(s: Store, truths: Truths, meta: VaultMeta)
    requires StoreGood(s, truths) && meta.id in truths && MetaGood(meta, truths[meta.id])
    ensures StoreGood(s.SaveVaultMeta(meta), truths)
    ensures KeepsCredentials(s, s.SaveVaultMeta(meta),
                             if meta.ownerToken.Some? || meta.ownerTokenLock.Some? then {} else {meta.id})
  {
    SaveKeepsValid(s, meta);
    SavedStore(s, meta);
    hide Store.Valid, TruthsGood, Store.SaveVaultMeta, MetaGood, VaultGood;
    forall x
      ensures VaultGood(s.SaveVaultMeta(meta), truths, x)
    {
      assert VaultGood(s, truths, x);
      SaveKeepsVaultGood(s, truths, meta, x);
    }
  }

  lemma CachedStore(s: Store, id: VaultId, lock: LockedOwnerToken)
    ensures var r := s.SaveVaultCredentialLock(id, lock);
            && r.live == s.live
            && r.metas == if id in s.metas && Usable(s.metas[id].ownerToken)
                          then s.metas[id := s.metas[id].(ownerTokenLock := Some(lock))] else s.metas
  {}

  lemma CachedKeepsVaultGood(s: Store, truths: Truths, id: VaultId, lock: LockedOwnerToken, x: VaultId)
    requires VaultGood(s, truths, x) && (id in truths ==> LockGood(lock, truths[id]))
    ensures VaultGood(s.SaveVaultCredentialLock(id, lock), truths, x)
    ensures s.SaveVaultCredentialLock(id, lock).OwnerToken(x) == s.OwnerToken(x)
  {}

  /** Caching a candidate lock never touches the token beside it. */
  lemma SaveLockKeepsGood(s: Store, truths: Truths, id: VaultId, lock: LockedOwnerToken)
    requires StoreGood(s, truths) && (id in truths ==> LockGood(lock, truths[id]))
    ensures StoreGood(s.SaveVaultCredentialLock(id, lock), truths)
    ensures KeepsCredentials(s, s.SaveVaultCredentialLock(id, lock), {})
    ensures forall x :: s.SaveVaultCredentialLock(id, lock).OwnerToken(x) == s.OwnerToken(x)
  {
    LocksKeepValid(s, id, lock);
    CachedStore(s, id, lock);
    hide Store.Valid, TruthsGood, Store.SaveVaultCredentialLock, Store.OwnerToken, MetaGood, VaultGood;
    forall x
      ensures VaultGood(s.SaveVaultCredentialLock(id, lock), truths, x)
      ensures s.SaveVaultCredentialLock(id, lock).OwnerToken(x) == s.OwnerToken(x)
    {
      assert VaultGood(s, truths, x);
      CachedKeepsVaultGood(s, truths, id, lock, x);
    }
  }

  lemma LockedStore(s: Store, id: VaultId, lock: LockedOwnerToken)
    requires s.Valid()
    ensures var r := s.LockVaultCredential(id, lock);
            if s.Lockable(id, lock)
            then r.metas == s.metas[id := s.metas[id].(ownerToken := None, ownerTokenLock := Some(lock))]
                 && r.live == s.live - {id} && id in s.metas
            else r == s
  {}

  lemma LockKeepsVaultGood(s: Store, truths: Truths, id: VaultId, lock: LockedOwnerToken, x: VaultId)
    requires s.Valid() && VaultGood(s, truths, x) && (id in truths ==> LockGood(lock, truths[id]))
    ensures VaultGood(s.LockVaultCredential(id, lock), truths, x)
  {}

  /** Locking under a sound lock keeps the store sound: only a validated lock may replace a token. */
  lemma LockKeepsGood(s: Store, truths: Truths, id: VaultId, lock: LockedOwnerToken)
    requires StoreGood(s, truths) && (id in truths ==> LockGood(lock, truths[id]))
    ensures StoreGood(s.LockVaultCredential(id, lock), truths)
    ensures KeepsCredentials(s, s.LockVaultCredential(id, lock), {})
  {
    LocksKeepValid(s, id, lock);
    LockedStore(s, id, lock);
    hide Store.Valid, TruthsGood, Store.LockVaultCredential, MetaGood, VaultGood;
    forall x
      ensures VaultGood(s.LockVaultCredential(id, lock), truths, x)
    {
      assert VaultGood(s, truths, x);
      LockKeepsVaultGood(s, truths, id, lock, x);
    }
  }

  /**
   * `unlockVaultCredentials` believes its caller: turning on the validated flags keeps the store
   * sound if and only if each lock stored at that moment holds the issued token.
   */
  lemma UnlockKeepsGoodIff(s: Store, truths: Truths, tokens: map<VaultId, string>)
    requires StoreGood(s, truths) && s.Unlockable(tokens)
    requires forall id :: id in tokens ==> id in truths && tokens[id] == truths[id].token
    ensures StoreGood(s.UnlockVaultCredentials(tokens), truths)
       <==> forall id :: id in tokens ==> LockHoldsToken(s.LockOf(id).value, truths[id])
    ensures KeepsCredentials(s, s.UnlockVaultCredentials(tokens), {})
  {
    var r := s.UnlockVaultCredentials(tokens);
    UnlockKeepsValid(s, tokens);
    hide Store.Valid, TruthsGood;
    forall id
      ensures VaultGood(r, truths, id)
         <==> (id in tokens ==> LockHoldsToken(s.LockOf(id).value, truths[id]))
    {
      assert VaultGood(s, truths, id);
    }
  }

  /** Session tokens may vanish at any moment without losing a credential. */
  lemma CloseTabKeepsGood(s: Store, truths: Truths)
    requires StoreGood(s, truths)
    ensures StoreGood(s.CloseTab(), truths) && KeepsCredentials(s, s.CloseTab(), {})
  {
    forall x
      ensures VaultGood(s.CloseTab(), truths, x)
    {
      assert VaultGood(s, truths, x);
    }
  }

  lemma RemoveKeepsGood(s: Store, truths: Truths, id: VaultId)
    requires StoreGood(s, truths)
    ensures StoreGood(s.RemoveVaultMeta(id), truths) && KeepsCredentials(s, s.RemoveVaultMeta(id), {id})
  {
    RemoveKeepsValid(s, id);
    hide Store.Valid, TruthsGood;
    var r := s.RemoveVaultMeta(id);
    forall x
      ensures VaultGood(r, truths, x)
    {
      assert VaultGood(s, truths, x);
    }
  }
}
