/**
 * Signing in on a trusted device: one password opens every vault sealed under the owner's email.
 */
module SignIn {
  import opened Wrappers
  import opened Crypto
  import opened EmailText
  import opened VaultStores
  import opened Credentials

  // ----- seeding candidate locks -----

  /** A vault with a live token and no lock yet gets a candidate lock from its server bundle. */
  function SeedOne(s: Store, meta: VaultMeta, emailHash: string, replies: Replies): (r: Store)
    requires s.Valid()
    ensures r.Valid()
  {
    if meta.ownerTokenLock.Some? then s
    else if !Usable(s.OwnerToken(meta.id)) || HashEmailForLookup(meta.ownerAddress) != emailHash then s
    else if meta.id in replies.bundles then
      var lock := Candidate(replies.bundles[meta.id], emailHash);
      LocksKeepValid(s, meta.id, lock);
      s.SaveVaultCredentialLock(meta.id, lock)
    else s
  }

  function SeedAll(s: Store, metas: seq<VaultMeta>, emailHash: string, replies: Replies): (r: Store)
    requires s.Valid()
    ensures r.Valid()
    decreases |metas|
  {
    if metas == [] then s else SeedAll(SeedOne(s, metas[0], emailHash, replies), metas[1..], emailHash, replies)
  }

  function Seed(s: Store, emailHash: string, replies: Replies): (r: Store)
    requires s.Valid()
    ensures r.Valid()
  {
    SeedAll(s, s.AllVaultMetas(), emailHash, replies)
  }

  // ----- the vaults one password is tried on -----

  predicate SealedFor(meta: VaultMeta, emailHash: string) {
    meta.ownerTokenLock.Some? && meta.ownerTokenLock.value.ownerEmailHash == emailHash
  }

  predicate Matches(s: Store, id: VaultId, emailHash: string) {
    id in s.metas && SealedFor(s.metas[id], emailHash)
  }

  function WithHash(metas: seq<VaultMeta>, emailHash: string): (r: seq<VaultMeta>)
    ensures forall m :: m in r <==> m in metas && SealedFor(m, emailHash)
    ensures DistinctIds(metas) ==> DistinctIds(r)
  {
    if metas == [] then []
    else
      var rest := WithHash(metas[1..], emailHash);
      assert metas == [metas[0]] + metas[1..];
      assert forall k :: 0 <= k < |rest| ==> rest[k] in metas[1..];
      if SealedFor(metas[0], emailHash) then [metas[0]] + rest else rest
  }

  function Without(metas: seq<VaultMeta>, id: VaultId): (r: seq<VaultMeta>)
    ensures forall m :: m in r <==> m in metas && m.id != id
    ensures DistinctIds(metas) ==> DistinctIds(r)
  {
    if metas == [] then []
    else
      var rest := Without(metas[1..], id);
      assert metas == [metas[0]] + metas[1..];
      assert forall k :: 0 <= k < |rest| ==> rest[k] in metas[1..];
      if metas[0].id != id then [metas[0]] + rest else rest
  }

  function Only(metas: seq<VaultMeta>, id: VaultId): (r: seq<VaultMeta>)
    ensures forall m :: m in r <==> m in metas && m.id == id
    ensures DistinctIds(metas) ==> |r| <= 1
  {
    if metas == [] then []
    else
      var rest := Only(metas[1..], id);
      assert metas == [metas[0]] + metas[1..];
      assert rest != [] ==> rest[0] in metas[1..];
      if metas[0].id == id then [metas[0]] + rest else rest
  }

  /** A stable sort that brings the active vault to the front. */
  function ActiveFirst(metas: seq<VaultMeta>, localId: VaultId): seq<VaultMeta> {
    Only(metas, localId) + Without(metas, localId)
  }

  function Matching(s: Store, emailHash: string, localId: VaultId): seq<VaultMeta>
    requires s.Valid()
  {
    ActiveFirst(WithHash(s.AllVaultMetas(), emailHash), localId)
  }

  lemma MatchingMembers(s: Store, emailHash: string, localId: VaultId)
    requires s.Valid()
    ensures var ms := Matching(s, emailHash, localId);
            && DistinctIds(ms)
            && (forall m :: m in ms <==> && m.id in s.metas && s.metas[m.id] == m && m.ownerTokenLock.Some?
                                         && m.ownerTokenLock.value.ownerEmailHash == emailHash)
            && (forall id :: Matches(s, id, emailHash) ==> s.metas[id].id == id && s.metas[id] in ms)
            && (Matches(s, localId, emailHash) ==> ms != [] && ms[0] == s.metas[localId])
  {
    AllMetasMembers(s);
    AllMetasDistinct(s);
    assert forall id :: id in s.metas ==> s.metas[id].id == id;
    hide Store.Valid, Store.AllVaultMetas, WithHash;
    var all := WithHash(s.AllVaultMetas(), emailHash);
    ActiveFirstMembers(all, localId);
    if Matches(s, localId, emailHash) {
      assert s.metas[localId] in all;
    }
  }

  lemma ActiveFirstMembers(all: seq<VaultMeta>, localId: VaultId)
    requires DistinctIds(all)
    ensures DistinctIds(ActiveFirst(all, localId))
    ensures forall m :: m in ActiveFirst(all, localId) <==> m in all
    ensures forall m :: m in all && m.id == localId ==>
              ActiveFirst(all, localId) != [] && ActiveFirst(all, localId)[0] == m
  {}

  // ----- opening them -----

  type Uploads = seq<(VaultId, Bundle)>

  datatype Opening = Opening(store: Store, tokens: map<VaultId, string>, uploads: Uploads)

  /** The loop goes on, or an exception ends the unlock. */
  datatype Progress = Continue(at: Opening) | Threw(at: Opening)

  function OpenOne(o: Opening, meta: VaultMeta, localId: VaultId, password: string, replies: Replies): Progress
    requires meta.ownerTokenLock.Some?
  {
    var lock := meta.ownerTokenLock.value;
    var kek := Kek(password, lock.params);
    match Open(kek, lock.ownerTokenBlob)
    case None => if meta.id == localId then Threw(o) else Continue(o)
    case Some(decrypted) =>
      var liveToken := o.store.OwnerToken(meta.id);
      if decrypted == PLACEHOLDER_OWNER_TOKEN && !Usable(liveToken) then Continue(o)
      else if Usable(liveToken) && decrypted != liveToken.value then
        var repaired := Seal(kek, liveToken.value);
        var uploaded := o.(uploads := o.uploads + [(meta.id, Bundle(lock.params, repaired))]);
        if meta.id in replies.resealed then
          Continue(uploaded.(
            store := o.store.SaveVaultCredentialLock(meta.id, lock.(ownerTokenBlob := repaired, validated := true)),
            tokens := o.tokens[meta.id := liveToken.value]))
        else Threw(uploaded)
      else Continue(o.(tokens := o.tokens[meta.id := decrypted]))
  }

  function OpenAll(o: Opening, metas: seq<VaultMeta>, localId: VaultId, password: string, replies: Replies): Progress
    requires forall m :: m in metas ==> m.ownerTokenLock.Some?
    decreases |metas|
  {
    if metas == [] then Continue(o)
    else
      match OpenOne(o, metas[0], localId, password, replies)
      case Threw(at) => Threw(at)
      case Continue(at) => OpenAll(at, metas[1..], localId, password, replies)
  }

  datatype SignedIn = SignedIn(store: Store, ok: bool, uploads: Uploads)

  /** The form is offered only for a vault with a lock or a live token, and an owner address. */
  predicate Offered(s: Store, localId: VaultId, password: string) {
    && password != ""
    && localId != ""
    && localId in s.metas
    && (s.metas[localId].ownerTokenLock.Some? || Usable(s.OwnerToken(localId)))
    && s.metas[localId].ownerAddress != ""
  }

  function OpenMatching(s: Store, localId: VaultId, password: string, emailHash: string, replies: Replies): Progress
    requires s.Valid()
  {
    MatchingMembers(s, emailHash, localId);
    OpenAll(Opening(s, map[], []), Matching(s, emailHash, localId), localId, password, replies)
  }

  /** Open the matching vaults, then restore every opened token in one write. */
  function Restore(s: Store, localId: VaultId, password: string, emailHash: string, replies: Replies): SignedIn
    requires s.Valid()
  {
    match OpenMatching(s, localId, password, emailHash, replies)
    case Threw(at) => SignedIn(at.store, false, at.uploads)
    case Continue(at) =>
      if localId in at.tokens && at.tokens[localId] != "" && at.store.Unlockable(at.tokens)
      then SignedIn(at.store.UnlockVaultCredentials(at.tokens), true, at.uploads)
      else SignedIn(at.store, false, at.uploads)
  }

  /** Unlocking the trusted device: seed, check the active vault's lock, open and restore. */
  function Unlock(s: Store, localId: VaultId, password: string, replies: Replies): SignedIn
    requires s.Valid()
  {
    if !Offered(s, localId, password) then SignedIn(s, false, [])
    else
      var emailHash := HashEmailForLookup(s.metas[localId].ownerAddress);
      var seeded := Seed(s, emailHash, replies);
      if seeded.LockOf(localId).None? || seeded.LockOf(localId).value.ownerEmailHash != emailHash
      then SignedIn(seeded, false, [])
      else Restore(seeded, localId, password, emailHash, replies)
  }

  // ----- what seeding does -----

  predicate Seeds(s: Store, id: VaultId, emailHash: string, replies: Replies) {
    && id in s.metas
    && s.metas[id].ownerTokenLock.None?
    && Usable(s.metas[id].ownerToken)
    && Usable(s.OwnerToken(id))
    && HashEmailForLookup(s.metas[id].ownerAddress) == emailHash
    && id in replies.bundles
  }

  ghost predicate SeededVault(s: Store, r: Store, id: VaultId, emailHash: string, replies: Replies) {
    if Seeds(s, id, emailHash, replies) then
      && id in r.metas
      && r.metas[id] == s.metas[id].(ownerTokenLock := Some(Candidate(replies.bundles[id], emailHash)))
      && (id in r.live <==> id in s.live) && (id in s.live ==> r.live[id] == s.live[id])
    else SameVault(s, r, id)
  }

  lemma SeedOneVault(s: Store, meta: VaultMeta, emailHash: string, replies: Replies, id: VaultId)
    requires s.Valid() && meta.id in s.metas && s.metas[meta.id] == meta
    ensures if id == meta.id then SeededVault(s, SeedOne(s, meta, emailHash, replies), id, emailHash, replies)
            else SameVault(s, SeedOne(s, meta, emailHash, replies), id)
  {
    hide Store.Valid;
  }

  lemma {:induction false} SeedAllVault(s: Store, metas: seq<VaultMeta>, emailHash: string, replies: Replies,
                                        id: VaultId)
    requires s.Valid() && DistinctIds(metas)
    requires forall m :: m in metas ==> m.id in s.metas && s.metas[m.id] == m
    ensures if (exists m :: m in metas && m.id == id)
            then SeededVault(s, SeedAll(s, metas, emailHash, replies), id, emailHash, replies)
            else SameVault(s, SeedAll(s, metas, emailHash, replies), id)
    decreases |metas|
  {
    hide Store.Valid, SeedOne, SeededVault;
    if metas != [] {
      var next := SeedOne(s, metas[0], emailHash, replies);
      SeedOneVault(s, metas[0], emailHash, replies, id);
      forall m | m in metas[1..]
        ensures m.id in next.metas && next.metas[m.id] == m
      {
        SeedOneVault(s, metas[0], emailHash, replies, m.id);
      }
      SeedAllVault(next, metas[1..], emailHash, replies, id);
      SeededTransfers(s, next, SeedAll(s, metas, emailHash, replies), id, emailHash, replies);
    }
  }

  lemma SeededTransfers(s: Store, mid: Store, r: Store, id: VaultId, emailHash: string, replies: Replies)
    ensures SameVault(s, mid, id) && SeededVault(mid, r, id, emailHash, replies)
        ==> SeededVault(s, r, id, emailHash, replies)
    ensures SeededVault(s, mid, id, emailHash, replies) && SameVault(mid, r, id)
        ==> SeededVault(s, r, id, emailHash, replies)
  {}

  /** Seeding adds candidate locks and touches nothing else: no token moves and no flag is turned on. */
  lemma SeedVault(s: Store, emailHash: string, replies: Replies, id: VaultId)
    requires s.Valid()
    ensures SeededVault(s, Seed(s, emailHash, replies), id, emailHash, replies)
  {
    AllMetasMembers(s);
    AllMetasDistinct(s);
    SeedAllVault(s, s.AllVaultMetas(), emailHash, replies, id);
    if id in s.metas {
      assert s.metas[id] in s.AllVaultMetas();
    }
  }

  lemma SeedKeepsGood(s: Store, truths: Truths, emailHash: string, replies: Replies)
    requires StoreGood(s, truths) && RepliesGood(replies, truths)
    ensures StoreGood(Seed(s, emailHash, replies), truths)
    ensures KeepsCredentials(s, Seed(s, emailHash, replies), {})
  {
    hide Store.Valid, TruthsGood, Seed;
    var r := Seed(s, emailHash, replies);
    forall id
      ensures VaultGood(r, truths, id)
      ensures HasCredential(s, id) ==> HasCredential(r, id)
    {
      assert VaultGood(s, truths, id);
      SeedVault(s, emailHash, replies, id);
      SeededIsGood(s, r, truths, id, emailHash, replies);
    }
  }

  lemma SeededIsGood(s: Store, r: Store, truths: Truths, id: VaultId, emailHash: string, replies: Replies)
    requires VaultGood(s, truths, id) && RepliesGood(replies, truths) && SeededVault(s, r, id, emailHash, replies)
    ensures VaultGood(r, truths, id)
    ensures HasCredential(s, id) ==> HasCredential(r, id)
  {}

  // ----- what opening does -----

  function Decrypted(m: VaultMeta, password: string): Option<string>
    requires m.ownerTokenLock.Some?
  {
    Open(Kek(password, m.ownerTokenLock.value.params), m.ownerTokenLock.value.ownerTokenBlob)
  }

  /** The password opened a blob that holds something other than the token this device still has. */
  predicate NeedsRepair(s: Store, m: VaultMeta, password: string)
    requires m.ownerTokenLock.Some?
  {
    && Decrypted(m, password).Some?
    && Usable(s.OwnerToken(m.id))
    && Decrypted(m, password).value != s.OwnerToken(m.id).value
  }

  predicate Stops(s: Store, m: VaultMeta, localId: VaultId, password: string, replies: Replies)
    requires m.ownerTokenLock.Some?
  {
    || (Decrypted(m, password).None? && m.id == localId)
    || (NeedsRepair(s, m, password) && m.id !in replies.resealed)
  }

  /** The token an opened vault is restored with, if any. */
  function TokenFor(s: Store, m: VaultMeta, password: string): Option<string>
    requires m.ownerTokenLock.Some?
  {
    var d := Decrypted(m, password);
    if d.None? then None
    else if Usable(s.OwnerToken(m.id)) then s.OwnerToken(m.id)
    else if d.value == PLACEHOLDER_OWNER_TOKEN then None
    else d
  }

  function RepairedLock(s: Store, m: VaultMeta, password: string): LockedOwnerToken
    requires m.ownerTokenLock.Some? && NeedsRepair(s, m, password)
  {
    var lock := m.ownerTokenLock.value;
    lock.(ownerTokenBlob := Seal(Kek(password, lock.params), s.OwnerToken(m.id).value), validated := true)
  }

  /** The vault's meta once the loop is past it: a placeholder lock beside a token at rest is replaced. */
  function RepairedMeta(s: Store, m: VaultMeta, password: string): VaultMeta
    requires m.ownerTokenLock.Some?
  {
    if NeedsRepair(s, m, password) && Usable(m.ownerToken)
    then m.(ownerTokenLock := Some(RepairedLock(s, m, password)))
    else m
  }

  predicate Opened(s: Store, o: Opening, m: VaultMeta, password: string)
    requires m.ownerTokenLock.Some?
  {
    && m.id in o.store.metas
    && o.store.metas[m.id] == RepairedMeta(s, m, password)
    && (match TokenFor(s, m, password)
        case None => m.id !in o.tokens
        case Some(t) => m.id in o.tokens && o.tokens[m.id] == t)
  }

  ghost predicate SameLive(s: Store, t: Store) {
    s.live == t.live && s.order == t.order && s.active == t.active && s.metas.Keys == t.metas.Keys
  }

  /** Before the loop reaches a vault nothing about it has changed, and it has no token yet. */
  ghost predicate Untouched(s: Store, o: Opening, id: VaultId) {
    (id in s.metas ==> id in o.store.metas && o.store.metas[id] == s.metas[id]) && id !in o.tokens
  }

  lemma OpenOneVault(s: Store, o: Opening, m: VaultMeta, localId: VaultId, password: string, replies: Replies)
    requires m.id in s.metas && s.metas[m.id] == m && m.ownerTokenLock.Some?
    requires SameLive(s, o.store) && Untouched(s, o, m.id)
    ensures var p := OpenOne(o, m, localId, password, replies);
            && (p.Threw? <==> Stops(s, m, localId, password, replies))
            && SameLive(s, p.at.store)
            && (p.Threw? ==> p.at.store == o.store && p.at.tokens == o.tokens)
            && (p.Continue? ==> Opened(s, p.at, m, password))
            && (p.at.uploads == if NeedsRepair(s, m, password)
                                then o.uploads + [(m.id, Bundle(m.ownerTokenLock.value.params,
                                                                RepairedLock(s, m, password).ownerTokenBlob))]
                                else o.uploads)
            && forall id :: id != m.id ==>
                 && (id in o.store.metas ==> id in p.at.store.metas && p.at.store.metas[id] == o.store.metas[id])
                 && (id in o.tokens <==> id in p.at.tokens) && (id in o.tokens ==> p.at.tokens[id] == o.tokens[id])
  {
    assert o.store.OwnerToken(m.id) == s.OwnerToken(m.id);
  }

  /** The metas of a list are those of the state it was read from, one per vault. */
  ghost predicate ReadFrom(s: Store, metas: seq<VaultMeta>) {
    && DistinctIds(metas)
    && (forall m :: m in metas ==> m.id in s.metas && s.metas[m.id] == m && m.ownerTokenLock.Some?)
  }

  lemma {:induction false} OpenAllVault(s: Store, o: Opening, metas: seq<VaultMeta>, localId: VaultId, password: string,
                                        replies: Replies, id: VaultId)
    requires ReadFrom(s, metas) && SameLive(s, o.store)
    requires forall m :: m in metas ==> Untouched(s, o, m.id)
    ensures var p := OpenAll(o, metas, localId, password, replies);
            && SameLive(s, p.at.store)
            && (p.Threw? <==> exists m :: m in metas && Stops(s, m, localId, password, replies))
            && (if exists m :: m in metas && m.id == id then
                  && id in s.metas
                  && (p.Continue? ==> Opened(s, p.at, s.metas[id], password))
                  && id in p.at.store.metas
                  && (|| p.at.store.metas[id] == s.metas[id]
                      || p.at.store.metas[id] == RepairedMeta(s, s.metas[id], password))
                else
                  && (id in o.store.metas ==> id in p.at.store.metas && p.at.store.metas[id] == o.store.metas[id])
                  && (id in o.tokens <==> id in p.at.tokens) && (id in o.tokens ==> p.at.tokens[id] == o.tokens[id]))
    decreases |metas|
  {
    hide Stops, NeedsRepair, Opened, RepairedMeta, OpenOne;
    if metas != [] {
      var first := metas[0];
      assert metas == [first] + metas[1..];
      OpenOneVault(s, o, first, localId, password, replies);
      match OpenOne(o, first, localId, password, replies)
      case Threw(at) => assert Untouched(s, o, first.id);
      case Continue(at) =>
        forall m | m in metas[1..]
          ensures Untouched(s, at, m.id)
        {
          assert Untouched(s, o, m.id);
        }
        OpenAllVault(s, at, metas[1..], localId, password, replies, id);
        if id == first.id {
          OpenedStays(s, at, OpenAll(o, metas, localId, password, replies).at, first, password);
        }
    }
  }

  lemma OpenedStays(s: Store, at: Opening, later: Opening, m: VaultMeta, password: string)
    requires m.ownerTokenLock.Some? && Opened(s, at, m, password)
    requires m.id in later.store.metas && later.store.metas[m.id] == at.store.metas[m.id]
    requires m.id in at.tokens <==> m.id in later.tokens
    requires m.id in at.tokens ==> later.tokens[m.id] == at.tokens[m.id]
    ensures Opened(s, later, m, password) && later.store.metas[m.id] == RepairedMeta(s, m, password)
  {}

  // ----- opening a sound device -----

  /** In a sound store a lock opens exactly under the vault's own password. */
  lemma OpensUnderOwnPassword(s: Store, truths: Truths, m: VaultMeta, password: string)
    requires StoreGood(s, truths) && m.id in s.metas && s.metas[m.id] == m && m.ownerTokenLock.Some?
    ensures m.id in truths
    ensures Decrypted(m, password).Some? <==> password == truths[m.id].password
    ensures Decrypted(m, password).Some? ==>
              || Decrypted(m, password).value == truths[m.id].token
              || Decrypted(m, password).value == PLACEHOLDER_OWNER_TOKEN
  {
    assert VaultGood(s, truths, m.id);
  }

  /** An opened vault is always restored with its issued token, and its lock ends up holding that token. */
  lemma OpenedHoldsToken(s: Store, truths: Truths, m: VaultMeta, password: string)
    requires StoreGood(s, truths) && m.id in s.metas && s.metas[m.id] == m && m.ownerTokenLock.Some?
    requires m.id in truths && password == truths[m.id].password
    ensures TokenFor(s, m, password) == Some(truths[m.id].token)
    ensures NeedsRepair(s, m, password) <==> Decrypted(m, password) == Some(PLACEHOLDER_OWNER_TOKEN)
    ensures LockHoldsToken(RepairedMeta(s, m, password).ownerTokenLock.value, truths[m.id])
    ensures MetaGood(RepairedMeta(s, m, password), truths[m.id])
  {
    assert VaultGood(s, truths, m.id);
  }

  lemma UnopenedStays(s: Store, truths: Truths, m: VaultMeta, password: string)
    requires StoreGood(s, truths) && m.id in s.metas && s.metas[m.id] == m && m.ownerTokenLock.Some?
    requires m.id in truths && password != truths[m.id].password
    ensures TokenFor(s, m, password) == None && !NeedsRepair(s, m, password) && RepairedMeta(s, m, password) == m
  {
    OpensUnderOwnPassword(s, truths, m, password);
  }

  /** What the loop leaves behind is sound, whether it finished or an exception ended it. */
  lemma OpeningKeepsGood(s: Store, truths: Truths, metas: seq<VaultMeta>, localId: VaultId, password: string,
                         replies: Replies)
    requires StoreGood(s, truths) && ReadFrom(s, metas)
    ensures var p := OpenAll(Opening(s, map[], []), metas, localId, password, replies);
            StoreGood(p.at.store, truths) && KeepsCredentials(s, p.at.store, {}) && SameLive(s, p.at.store)
  {
    var p := OpenAll(Opening(s, map[], []), metas, localId, password, replies);
    OpenAllVault(s, Opening(s, map[], []), metas, localId, password, replies, "");
    forall id
      ensures VaultGood(p.at.store, truths, id)
      ensures HasCredential(s, id) ==> HasCredential(p.at.store, id)
      ensures id in s.metas ==> p.at.store.metas[id].id == id
    {
      assert VaultGood(s, truths, id);
      OpenAllVault(s, Opening(s, map[], []), metas, localId, password, replies, id);
      if m :| m in metas && m.id == id {
        if password == truths[id].password {
          OpenedHoldsToken(s, truths, m, password);
        } else {
          UnopenedStays(s, truths, m, password);
        }
        RepairedVaultGood(s, p.at.store, truths, id, password);
      }
    }
  }

  lemma RepairedVaultGood(s: Store, r: Store, truths: Truths, id: VaultId, password: string)
    requires VaultGood(s, truths, id) && SameLive(s, r) && id in s.metas && s.metas[id].ownerTokenLock.Some?
    requires r.metas[id] == s.metas[id] || r.metas[id] == RepairedMeta(s, s.metas[id], password)
    requires MetaGood(RepairedMeta(s, s.metas[id], password), truths[id])
    ensures VaultGood(r, truths, id) && HasCredential(r, id)
  {}

  /** Every ciphertext the loop uploads holds the issued token under the vault's password. */
  predicate UploadsGood(uploads: Uploads, truths: Truths) {
    forall i :: 0 <= i < |uploads| ==>
      uploads[i].0 in truths && BundleGood(uploads[i].1, truths[uploads[i].0])
  }

  lemma {:induction false} OpeningUploadsGood(s: Store, o: Opening, truths: Truths, metas: seq<VaultMeta>,
                                              localId: VaultId, password: string, replies: Replies)
    requires StoreGood(s, truths) && ReadFrom(s, metas) && SameLive(s, o.store)
    requires forall m :: m in metas ==> Untouched(s, o, m.id)
    requires UploadsGood(o.uploads, truths)
    ensures UploadsGood(OpenAll(o, metas, localId, password, replies).at.uploads, truths)
    decreases |metas|
  {
    hide Stops, NeedsRepair, Opened, RepairedMeta, OpenOne, StoreGood, BundleGood;
    if metas != [] {
      var first := metas[0];
      assert metas == [first] + metas[1..];
      OpenOneVault(s, o, first, localId, password, replies);
      if NeedsRepair(s, first, password) {
        RepairUploadGood(s, truths, first, password);
      }
      match OpenOne(o, first, localId, password, replies)
      case Threw(at) =>
      case Continue(at) =>
        forall m | m in metas[1..]
          ensures Untouched(s, at, m.id)
        {
          assert Untouched(s, o, m.id);
        }
        OpeningUploadsGood(s, at, truths, metas[1..], localId, password, replies);
    }
  }

  lemma RepairUploadGood(s: Store, truths: Truths, m: VaultMeta, password: string)
    requires StoreGood(s, truths) && m.id in s.metas && s.metas[m.id] == m && m.ownerTokenLock.Some?
    requires NeedsRepair(s, m, password)
    ensures m.id in truths
    ensures BundleGood(Bundle(m.ownerTokenLock.value.params, RepairedLock(s, m, password).ownerTokenBlob), truths[m.id])
  {
    OpensUnderOwnPassword(s, truths, m, password);
    OpenedHoldsToken(s, truths, m, password);
    ReadableIsIssued(s, truths, m.id);
  }

  // ----- the whole unlock -----

  /** The vaults an unlock opens: sealed for this email, under the typed password. */
  predicate OpenedBy(s: Store, truths: Truths, id: VaultId, emailHash: string, password: string) {
    Matches(s, id, emailHash) && id in truths && truths[id].password == password
  }

  /** A vault whose sealed token is still the placeholder of an unfinished setup. */
  predicate HoldsPlaceholder(s: Store, id: VaultId, password: string)
    requires id in s.metas && s.metas[id].ownerTokenLock.Some?
  {
    Decrypted(s.metas[id], password) == Some(PLACEHOLDER_OWNER_TOKEN)
  }

  /** Each opened vault that holds only the placeholder gets its repaired ciphertext to the server. */
  ghost predicate Repaired(s: Store, truths: Truths, emailHash: string, password: string, replies: Replies) {
    forall id :: OpenedBy(s, truths, id, emailHash, password) && HoldsPlaceholder(s, id, password) ==>
      id in replies.resealed
  }

  /** What the loop over the matching vaults leaves, in a sound device. */
  lemma MatchingOpened(s: Store, truths: Truths, localId: VaultId, password: string, emailHash: string,
                       replies: Replies)
    requires StoreGood(s, truths) && Matches(s, localId, emailHash)
    ensures var p := OpenMatching(s, localId, password, emailHash, replies);
            && StoreGood(p.at.store, truths) && KeepsCredentials(s, p.at.store, {}) && SameLive(s, p.at.store)
            && UploadsGood(p.at.uploads, truths)
            && localId in truths
            && (p.Continue? <==> && truths[localId].password == password
                                 && Repaired(s, truths, emailHash, password, replies))
  {
    hide VaultGood, TruthsGood, Store.Valid, KeepsCredentials, Matching, NeedsRepair, Untouched;
    var metas := Matching(s, emailHash, localId);
    var start := Opening(s, map[], []);
    MatchingMembers(s, emailHash, localId);
    UntouchedAtStart(s);
    OpeningKeepsGood(s, truths, metas, localId, password, replies);
    OpeningUploadsGood(s, start, truths, metas, localId, password, replies);
    OpenAllVault(s, start, metas, localId, password, replies, localId);
    assert s.metas[localId] in metas;
    OpensUnderOwnPassword(s, truths, s.metas[localId], password);
    forall m | m in metas
      ensures m.id in truths
      ensures Stops(s, m, localId, password, replies)
         <==> || (m.id == localId && truths[m.id].password != password)
              || (truths[m.id].password == password && HoldsPlaceholder(s, m.id, password) && m.id !in replies.resealed)
    {
      OpensUnderOwnPassword(s, truths, m, password);
      if password == truths[m.id].password {
        OpenedHoldsToken(s, truths, m, password);
      } else {
        UnopenedStays(s, truths, m, password);
      }
    }
    forall id | OpenedBy(s, truths, id, emailHash, password)
      ensures s.metas[id] in metas
    {}
  }

  lemma UntouchedAtStart(s: Store)
    ensures forall id :: Untouched(s, Opening(s, map[], []), id)
    ensures SameLive(s, s)
  {}

  /** The vault after a finished loop: its token for the final write, and its lock. */
  lemma MatchingOpenedVault(s: Store, truths: Truths, localId: VaultId, password: string, emailHash: string,
                            replies: Replies, id: VaultId)
    requires StoreGood(s, truths) && Matches(s, localId, emailHash)
    requires OpenMatching(s, localId, password, emailHash, replies).Continue?
    ensures var at := OpenMatching(s, localId, password, emailHash, replies).at;
            if OpenedBy(s, truths, id, emailHash, password) then
              && id in at.tokens && at.tokens[id] == truths[id].token
              && id in at.store.metas && at.store.metas[id].ownerTokenLock.Some?
              && LockHoldsToken(at.store.metas[id].ownerTokenLock.value, truths[id])
            else id !in at.tokens && (id in s.metas ==> id in at.store.metas && at.store.metas[id] == s.metas[id])
  {
    hide VaultGood, TruthsGood, Store.Valid, Matching, NeedsRepair, Untouched, Stops;
    var metas := Matching(s, emailHash, localId);
    MatchingMembers(s, emailHash, localId);
    UntouchedAtStart(s);
    OpenAllVault(s, Opening(s, map[], []), metas, localId, password, replies, id);
    if Matches(s, id, emailHash) {
      assert s.metas[id] in metas;
      OpensUnderOwnPassword(s, truths, s.metas[id], password);
      if password == truths[id].password {
        OpenedHoldsToken(s, truths, s.metas[id], password);
      } else {
        UnopenedStays(s, truths, s.metas[id], password);
      }
    }
  }

  ghost predicate SeededState(s: Store, localId: VaultId, replies: Replies, emailHash: string, seeded: Store) {
    && s.Valid()
    && localId in s.metas
    && emailHash == HashEmailForLookup(s.metas[localId].ownerAddress)
    && seeded == Seed(s, emailHash, replies)
  }

  /**
   * An unlock succeeds exactly when the typed password is the active vault's own and every
   * opened vault whose sealed token is still the placeholder could be repaired on the server.
   * It keeps the credentials sound and loses none, however it ends, and uploads only ciphertext
   * of issued tokens.
   */
  lemma UnlockOutcome(s: Store, truths: Truths, localId: VaultId, password: string, replies: Replies,
                      emailHash: string, seeded: Store)
    requires StoreGood(s, truths) && RepliesGood(replies, truths) && Offered(s, localId, password)
    requires SeededState(s, localId, replies, emailHash, seeded)
    ensures var r := Unlock(s, localId, password, replies);
            && StoreGood(r.store, truths) && KeepsCredentials(s, r.store, {}) && UploadsGood(r.uploads, truths)
            && (r.ok <==> && OpenedBy(seeded, truths, localId, emailHash, password)
                          && Repaired(seeded, truths, emailHash, password, replies))
  {
    hide StoreGood, KeepsCredentials, Seed, OpenMatching;
    SeedKeepsGood(s, truths, emailHash, replies);
    KeepsChain(s, seeded, Unlock(s, localId, password, replies).store);
    if Matches(seeded, localId, emailHash) {
      MatchingOpened(seeded, truths, localId, password, emailHash, replies);
      var p := OpenMatching(seeded, localId, password, emailHash, replies);
      KeepsChain(s, seeded, p.at.store);
      if p.Continue? {
        FinalWrite(seeded, truths, localId, password, emailHash, replies);
        KeepsChain(s, p.at.store, p.at.store.UnlockVaultCredentials(p.at.tokens));
      }
    }
  }

  /**
   * The same for any vault id and any password: the unlock also needs a password, an owner address,
   * and a lock or a readable token to begin with, and where one of them is missing it does nothing.
   */
  lemma UnlockSucceedsIff(s: Store, truths: Truths, localId: VaultId, password: string, replies: Replies)
    requires StoreGood(s, truths) && RepliesGood(replies, truths)
    ensures var r := Unlock(s, localId, password, replies);
            if && password != "" && localId != "" && localId in s.metas && s.metas[localId].ownerAddress != ""
               && (s.metas[localId].ownerTokenLock.Some? || s.OwnerToken(localId).Some?) then
              var emailHash := HashEmailForLookup(s.metas[localId].ownerAddress);
              var seeded := Seed(s, emailHash, replies);
              r.ok <==> && OpenedBy(seeded, truths, localId, emailHash, password)
                        && Repaired(seeded, truths, emailHash, password, replies)
            else !r.ok && r.store == s && r.uploads == []
  {
    if localId in s.metas {
      if s.OwnerToken(localId).Some? {
        ReadableIsIssued(s, truths, localId);
      }
      var emailHash := HashEmailForLookup(s.metas[localId].ownerAddress);
      var seeded := Seed(s, emailHash, replies);
      hide StoreGood, Unlock, Seed, RepliesGood, OpenedBy, Repaired, KeepsCredentials, UploadsGood;
      if Offered(s, localId, password) {
        UnlockOutcome(s, truths, localId, password, replies, emailHash, seeded);
      } else {
        NotOffered(s, localId, password, replies);
      }
    } else {
      NotOffered(s, localId, password, replies);
    }
  }

  lemma NotOffered(s: Store, localId: VaultId, password: string, replies: Replies)
    requires s.Valid() && !Offered(s, localId, password)
    ensures Unlock(s, localId, password, replies) == SignedIn(s, false, [])
  {}

  lemma KeepsChain(a: Store, b: Store, c: Store)
    ensures KeepsCredentials(a, b, {}) && KeepsCredentials(b, c, {}) ==> KeepsCredentials(a, c, {})
    ensures KeepsCredentials(b, b, {})
  {}

  /** The one write at the end of a finished loop is never refused and keeps the device sound. */
  lemma FinalWrite(s: Store, truths: Truths, localId: VaultId, password: string, emailHash: string, replies: Replies)
    requires StoreGood(s, truths) && Matches(s, localId, emailHash)
    requires OpenMatching(s, localId, password, emailHash, replies).Continue?
    ensures var at := OpenMatching(s, localId, password, emailHash, replies).at;
            && localId in at.tokens && at.tokens[localId] != ""
            && at.store.Unlockable(at.tokens)
            && StoreGood(at.store.UnlockVaultCredentials(at.tokens), truths)
            && KeepsCredentials(at.store, at.store.UnlockVaultCredentials(at.tokens), {})
  {
    hide KeepsCredentials, OpenMatching, Store.Valid;
    MatchingOpened(s, truths, localId, password, emailHash, replies);
    var at := OpenMatching(s, localId, password, emailHash, replies).at;
    MatchingOpenedVault(s, truths, localId, password, emailHash, replies, localId);
    forall id | id in at.tokens
      ensures id in truths && at.tokens[id] == truths[id].token && at.tokens[id] != ""
      ensures at.store.LockOf(id).Some? && LockHoldsToken(at.store.LockOf(id).value, truths[id])
    {
      MatchingOpenedVault(s, truths, localId, password, emailHash, replies, id);
    }
    UnlockKeepsGoodIff(at.store, truths, at.tokens);
  }

  /**
   * After a successful unlock every vault sealed for the email under the typed password reads
   * its issued token and keeps no plaintext at rest; every other vault is as seeding left it.
   */
  lemma UnlockOpensVault(s: Store, truths: Truths, localId: VaultId, password: string, replies: Replies,
                         emailHash: string, seeded: Store, id: VaultId)
    requires StoreGood(s, truths) && RepliesGood(replies, truths) && Offered(s, localId, password)
    requires SeededState(s, localId, replies, emailHash, seeded)
    requires Unlock(s, localId, password, replies).ok
    ensures var r := Unlock(s, localId, password, replies).store;
            if OpenedBy(seeded, truths, id, emailHash, password) then
              && id in r.metas && r.OwnerToken(id) == Some(truths[id].token)
              && r.metas[id].ownerToken == None && HasValidatedLock(r, id)
            else SameVault(seeded, r, id)
  {
    hide StoreGood, KeepsCredentials, Seed, OpenMatching, Store.Valid;
    SeedKeepsGood(s, truths, emailHash, replies);
    MatchingOpened(seeded, truths, localId, password, emailHash, replies);
    MatchingOpenedVault(seeded, truths, localId, password, emailHash, replies, id);
  }

  /** Nothing that can be read or lost differs: tokens, plaintext at rest, validated flags. */
  ghost predicate SameTokens(s: Store, t: Store, id: VaultId) {
    && (id in s.metas <==> id in t.metas)
    && t.OwnerToken(id) == s.OwnerToken(id)
    && (HasValidatedLock(t, id) <==> HasValidatedLock(s, id))
    && (id in s.metas ==> t.metas[id].ownerToken == s.metas[id].ownerToken)
  }

  lemma SeedKeepsTokens(s: Store, emailHash: string, replies: Replies, id: VaultId)
    requires s.Valid()
    ensures SameTokens(s, Seed(s, emailHash, replies), id)
  {
    hide Seed, Store.Valid;
    SeedVault(s, emailHash, replies, id);
  }

  /**
   * A password that does not open the active vault's blob: whatever was seeded, the unlock
   * changes nothing more. No readable token changes, no plaintext moves, no flag is turned on.
   */
  lemma WrongPasswordChangesNothing(s: Store, localId: VaultId, password: string, replies: Replies,
                                    emailHash: string, seeded: Store)
    requires Offered(s, localId, password) && SeededState(s, localId, replies, emailHash, seeded)
    requires Matches(seeded, localId, emailHash) ==> Decrypted(seeded.metas[localId], password).None?
    ensures Unlock(s, localId, password, replies) == SignedIn(seeded, false, [])
    ensures forall id :: SameTokens(s, seeded, id)
  {
    hide Seed, Store.Valid, SameTokens, OpenAll;
    if Matches(seeded, localId, emailHash) {
      MatchingMembers(seeded, emailHash, localId);
      FirstThrows(seeded, Matching(seeded, emailHash, localId), localId, password, replies);
    }
    forall id
      ensures SameTokens(s, seeded, id)
    {
      SeedKeepsTokens(s, emailHash, replies, id);
    }
  }

  /** The active vault is tried first, so a wrong password ends the loop before any other vault. */
  lemma FirstThrows(s: Store, metas: seq<VaultMeta>, localId: VaultId, password: string, replies: Replies)
    requires metas != [] && metas[0].id == localId && (forall m :: m in metas ==> m.ownerTokenLock.Some?)
    requires Decrypted(metas[0], password).None?
    ensures OpenAll(Opening(s, map[], []), metas, localId, password, replies) == Threw(Opening(s, map[], []))
  {}
}
