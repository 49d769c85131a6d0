/**
 * The email check of the unlock. When every vault is set up and recovered under one email, up to
 * case and blanks around it, every lock on a device is filed under its own vault's email, however
 * passes, unlocks and recoveries are interleaved.
 */
module OwnerEmails {
  import opened Wrappers
  import Crypto
  import opened EmailText
  import opened VaultStores
  import opened Credentials
  import opened DeviceLock
  import opened SignIn
  import opened Recovery
  import opened Awaits
  import opened AwaitInvariants
  import opened CredentialRuns
  import Ordering

  /** The lookup hash of the email each vault belongs to. */
  type Homes = VaultId -> string

  predicate FiledAt(m: VaultMeta, home: string) {
    && HashEmailForLookup(m.ownerAddress) == home
    && (m.ownerTokenLock.Some? ==> m.ownerTokenLock.value.ownerEmailHash == home)
  }

  ghost predicate Filed(s: Store, homes: Homes) {
    forall id :: id in s.metas ==> FiledAt(s.metas[id], homes(id))
  }

  ghost predicate AllFiled(metas: seq<VaultMeta>, homes: Homes) {
    forall m :: m in metas ==> FiledAt(m, homes(m.id))
  }

  ghost predicate PassFiled(p: Pass, homes: Homes) {
    AllFiled(p.rest, homes) && (p.asked.Some? ==> FiledAt(p.asked.value, homes(p.asked.value.id)))
  }

  ghost predicate UnlockFiled(u: Unlocking, homes: Homes) {
    match u.phase
    case Seeding(toSeed, asked) =>
      AllFiled(toSeed, homes) && (asked.Some? ==> u.emailHash == homes(asked.value.id))
    case Trying(rest, repair, _, _) =>
      AllFiled(rest, homes) && (repair.Some? ==> FiledAt(repair.value.meta, homes(repair.value.meta.id)))
  }

  ghost predicate FiledWorld(w: World, homes: Homes) {
    && Filed(w.store, homes)
    && (forall p :: p in w.passes ==> PassFiled(w.passes[p], homes))
    && (forall u :: u in w.unlocks ==> UnlockFiled(w.unlocks[u], homes))
  }

  /** A vault is set up, and its recovery links are issued, under the email it belongs to. */
  ghost predicate AtHome(e: Event, homes: Homes) {
    match e
    case PasswordSetup(d, _, _, _, _, _) => HashEmailForLookup(d.ownerAddress) == homes(d.id)
    case WalletSetup(d, _) => HashEmailForLookup(d.ownerAddress) == homes(d.id)
    case RecoverOne(r, _, email) => HashEmailForLookup(email) == homes(r.id)
    case RecoverShare(bundles, share, _, email, _) =>
      var rs := Ordering.Sort(bundles, RecoveredKey);
      share < |rs| ==> HashEmailForLookup(email) == homes(rs[share].id)
    case _ => true
  }

  lemma SavingFiled(s: Store, meta: VaultMeta, homes: Homes)
    requires Filed(s, homes) && FiledAt(meta, homes(meta.id))
    ensures Filed(s.SaveVaultMeta(meta), homes)
  {
    hide HashEmailForLookup;
    SavedStore(s, meta);
  }

  lemma CachingFiled(s: Store, id: VaultId, lock: LockedOwnerToken, homes: Homes)
    requires Filed(s, homes) && lock.ownerEmailHash == homes(id)
    ensures Filed(s.SaveVaultCredentialLock(id, lock), homes)
  {
    hide HashEmailForLookup;
    CachedStore(s, id, lock);
  }

  lemma LockingFiled(s: Store, id: VaultId, lock: LockedOwnerToken, homes: Homes)
    requires s.Valid() && Filed(s, homes) && lock.ownerEmailHash == homes(id)
    ensures Filed(s.LockVaultCredential(id, lock), homes)
  {
    LockedStore(s, id, lock);
    hide HashEmailForLookup, Store.Valid;
  }

  lemma ListFiled(s: Store, metas: seq<VaultMeta>, homes: Homes)
    requires Filed(s, homes) && (forall m :: m in metas ==> m.id in s.metas && s.metas[m.id] == m)
    ensures AllFiled(metas, homes)
  {
    hide FiledAt;
  }

  lemma NotedFiled(w: World, t: Store, n: Note, homes: Homes)
    requires FiledWorld(w, homes) && Filed(t, homes)
    ensures FiledWorld(Stored(w, t, n), homes)
  {
    hide FiledAt, Filed, AllFiled, PassFiled;
  }

  lemma SetupFiled(w: World, e: Event, homes: Homes)
    requires w.store.Valid() && Enabled(w, e) && FiledWorld(w, homes) && AtHome(e, homes)
    requires e.PasswordSetup? || e.WalletSetup?
    ensures FiledWorld(Step(w, e), homes)
  {
    TrimmedEmailSameHash(e.draft.ownerAddress);
    hide HashEmailForLookup, Trim, Store.SaveVaultMeta, Filed, AllFiled, Store.Valid;
    match e
    case PasswordSetup(d, token, password, params, reached, ok) =>
      var lock := SetupLock(d, params, Crypto.Seal(Crypto.Kek(password, params), token), ok);
      SavingFiled(w.store, SetupMeta(d, token, lock), homes);
    case WalletSetup(d, token) => SavingFiled(w.store, SetupMeta(d, token, None), homes);
  }

  lemma BackFillFiled(w: World, sibling: VaultId, groupId: string, homes: Homes)
    requires w.store.Valid() && FiledWorld(w, homes)
    ensures FiledWorld(w.(store := BackFilled(w.store, sibling, groupId)), homes)
  {
    if sibling in w.store.metas {
      SavingFiled(w.store, w.store.metas[sibling].(groupId := Some(groupId)), homes);
    }
    hide HashEmailForLookup, Filed, AllFiled, Store.SaveVaultMeta, Store.Valid;
  }

  lemma RecoveryFiled(w: World, e: Event, homes: Homes)
    requires w.store.Valid() && Enabled(w, e) && FiledWorld(w, homes) && AtHome(e, homes)
    requires e.RecoverOne? || e.RecoverShare?
    ensures FiledWorld(Step(w, e), homes)
  {
    hide HashEmailForLookup, Filed, AllFiled, Store.SaveVaultMeta, Store.Valid, Ordering.Sort, Stored, FiledWorld,
      Unsealed;
    match e
    case RecoverOne(r, password, email) =>
      var meta := RecoveredMeta(r, email, Unsealed(r, password), None);
      StoreFiled(w, homes);
      SavingFiled(w.store, meta, homes);
      ActivatingFiled(w.store.SaveVaultMeta(meta), Some(r.id), homes);
      NotedFiled(w, OpenVault(w.store, r, password, email).store,
                 if IsReal(r, password) then Noted(r.id, false) else Unnoted, homes);
    case RecoverShare(bundles, share, password, email, groupId) =>
      var r := Ordering.Sort(bundles, RecoveredKey)[share];
      StoreFiled(w, homes);
      SavingFiled(w.store, Share(r, password, email, groupId), homes);
      NotedFiled(w, w.store.SaveVaultMeta(Share(r, password, email, groupId)), Noted(r.id, false), homes);
  }

  lemma StoreFiled(w: World, homes: Homes)
    requires FiledWorld(w, homes)
    ensures Filed(w.store, homes)
  {}

  lemma ActivatingFiled(s: Store, id: Option<VaultId>, homes: Homes)
    requires Filed(s, homes)
    ensures Filed(s.SetActive(id), homes)
  {}

  lemma WithPassFiled(w: World, p: nat, q: Pass, homes: Homes)
    requires FiledWorld(w, homes) && PassFiled(q, homes)
    ensures FiledWorld(w.(passes := w.passes[p := q]), homes)
  {
    hide FiledAt, Filed, AllFiled, UnlockFiled, PassFiled;
  }

  lemma PassBeginFiled(w: World, p: nat, homes: Homes)
    requires w.store.Valid() && Enabled(w, PassBegin(p)) && FiledWorld(w, homes)
    ensures FiledWorld(Step(w, PassBegin(p)), homes)
  {
    AllMetasMembers(w.store);
    ListFiled(w.store, w.store.AllVaultMetas(), homes);
    hide FiledAt, Filed, FiledWorld, AllFiled, Store.AllVaultMetas, Store.Valid;
    WithPassFiled(w, p, PassBegins(w.store), homes);
  }

  lemma TurnedFiled(s: Store, p: Pass, homes: Homes)
    requires s.Valid() && p.AtTurn() && Filed(s, homes) && PassFiled(p, homes)
    ensures Filed(PassTurn(s, p).0, homes) && PassFiled(PassTurn(s, p).1, homes)
  {
    var meta := p.rest[0];
    assert FiledAt(meta, homes(meta.id));
    if meta.ownerTokenLock.Some? {
      LockingFiled(s, meta.id, meta.ownerTokenLock.value, homes);
    }
    hide FiledAt, Filed, Store.LockVaultCredential, Store.Valid, LooksLikeEmail, Store.OwnerToken;
  }

  lemma PassTurnFiled(w: World, p: nat, homes: Homes)
    requires w.store.Valid() && Enabled(w, PassTurnOf(p)) && FiledWorld(w, homes)
    ensures FiledWorld(Step(w, PassTurnOf(p)), homes)
  {
    TurnedFiled(w.store, w.passes[p], homes);
    var (t, q) := PassTurn(w.store, w.passes[p]);
    hide Filed, FiledWorld, PassFiled, Store.Valid, LockNote, PassTurn, Stored;
    var meta := w.passes[p].rest[0];
    var n := if meta.ownerTokenLock.None? then Unnoted else LockNote(w.store, meta.id, meta.ownerTokenLock.value);
    var m := if t == w.store then Unnoted else n;
    NotedFiled(w, t, m, homes);
    WithPassFiled(Stored(w, t, m), p, q, homes);
    TurnedPasses(w, t, m);
  }

  lemma TurnedPasses(w: World, t: Store, n: Note)
    ensures Stored(w, t, n).passes == w.passes
  {}

  lemma PassAnswerFiled(w: World, p: nat, answer: Answer, homes: Homes)
    requires w.store.Valid() && Enabled(w, PassAnswer(p, answer)) && FiledWorld(w, homes)
    ensures FiledWorld(Step(w, PassAnswer(p, answer)), homes)
  {
    var meta := w.passes[p].asked.value;
    assert PassFiled(w.passes[p], homes) && FiledAt(meta, homes(meta.id));
    if answer.Some? {
      CachingFiled(w.store, meta.id, Candidate(answer.value, HashEmailForLookup(meta.ownerAddress)), homes);
    }
    var (t, q) := PassReply(w.store, w.passes[p], answer);
    var n := AnswerNote(w, meta.id, HashEmailForLookup(meta.ownerAddress), answer);
    assert PassFiled(q, homes);
    hide Filed, FiledWorld, PassFiled, HashEmailForLookup, Store.SaveVaultCredentialLock, Store.Valid, AnswerNote,
      Stored;
    NotedFiled(w, t, n, homes);
    WithPassFiled(Stored(w, t, n), p, q, homes);
    TurnedPasses(w, t, n);
  }

  lemma ContinuesFiled(w: World, u: nat, at: Unlocking, homes: Homes)
    requires FiledWorld(w, homes)
    ensures UnlockFiled(at, homes) ==> FiledWorld(Continues(w, u, at), homes)
    ensures FiledWorld(Over(w, u), homes)
  {
    hide FiledAt, Filed, AllFiled, UnlockFiled;
  }

  lemma UnlockBeginFiled(w: World, u: nat, localId: VaultId, password: string, homes: Homes)
    requires w.store.Valid() && Enabled(w, UnlockBegin(u, localId, password)) && FiledWorld(w, homes)
    ensures FiledWorld(Step(w, UnlockBegin(u, localId, password)), homes)
  {
    AllMetasMembers(w.store);
    ListFiled(w.store, w.store.AllVaultMetas(), homes);
    hide HashEmailForLookup, FiledAt, Filed, FiledWorld, AllFiled, Store.AllVaultMetas, Store.Valid;
    ContinuesFiled(w, u, UnlockBegins(w.store, localId, password), homes);
  }

  lemma SeedTurnFiled(w: World, u: nat, homes: Homes)
    requires w.store.Valid() && Enabled(w, SeedTurnOf(u)) && FiledWorld(w, homes)
    ensures FiledWorld(Step(w, SeedTurnOf(u)), homes)
  {
    assert UnlockFiled(w.unlocks[u], homes);
    hide HashEmailForLookup, Filed, FiledWorld, Store.Valid, Store.OwnerToken;
    ContinuesFiled(w, u, SeedTurn(w.store, w.unlocks[u]), homes);
  }

  lemma ReadIsFiled(s: Store, at: Unlocking, homes: Homes)
    requires s.Valid() && Filed(s, homes) && at.phase == Seeding([], None)
    ensures ReadMatching(s, at).Some? ==> UnlockFiled(ReadMatching(s, at).value, homes)
  {
    MatchingMembers(s, at.emailHash, at.localId);
    ListFiled(s, Matching(s, at.emailHash, at.localId), homes);
    hide FiledAt, Filed, AllFiled, Matching, Store.Valid;
  }

  lemma ReadFiled(w: World, u: nat, homes: Homes)
    requires w.store.Valid() && Enabled(w, ReadVaults(u)) && FiledWorld(w, homes)
    ensures FiledWorld(Step(w, ReadVaults(u)), homes)
  {
    var at := w.unlocks[u];
    StoreFiled(w, homes);
    ReadIsFiled(w.store, at, homes);
    hide FiledWorld, UnlockFiled, ReadMatching, Store.Valid, Filed;
    ContinuesFiled(w, u, at, homes);
    if ReadMatching(w.store, at).Some? {
      ContinuesFiled(w, u, ReadMatching(w.store, at).value, homes);
    }
  }

  lemma TryFiled(w: World, u: nat, homes: Homes)
    requires w.store.Valid() && Enabled(w, TryTurnOf(u)) && FiledWorld(w, homes)
    ensures FiledWorld(Step(w, TryTurnOf(u)), homes)
  {
    var at := w.unlocks[u];
    assert UnlockFiled(at, homes);
    TriedFiled(w.store, at, homes);
    hide FiledAt, Filed, FiledWorld, UnlockFiled, Store.Valid, TryTurn, Upload;
    ContinuesFiled(w, u, at, homes);
    if TryTurn(w.store, at).Goes? {
      ContinuesFiled(w, u, TryTurn(w.store, at).at, homes);
      UploadingFiled(Continues(w, u, TryTurn(w.store, at).at), TryTurned(w, u).uploaded, homes);
    }
  }

  lemma TriedFiled(s: Store, u: Unlocking, homes: Homes)
    requires u.phase.Trying? && u.phase.repair.None? && u.phase.rest != [] && u.phase.rest[0].ownerTokenLock.Some?
    requires UnlockFiled(u, homes)
    ensures TryTurn(s, u).Goes? ==> UnlockFiled(TryTurn(s, u).at, homes)
  {
    hide FiledAt, Decrypted, Store.OwnerToken;
  }

  lemma UploadingFiled(w: World, uploaded: map<VaultId, set<Bundle>>, homes: Homes)
    requires FiledWorld(w, homes)
    ensures FiledWorld(w.(uploaded := uploaded), homes)
  {}

  lemma FinishFiled(w: World, u: nat, homes: Homes)
    requires w.store.Valid() && Enabled(w, FinishUnlock(u)) && FiledWorld(w, homes)
    ensures FiledWorld(Step(w, FinishUnlock(u)), homes)
  {
    RestoringFiled(w.store, w.unlocks[u].phase.tokens, homes);
    hide FiledAt, Filed, AllFiled, UnlockFiled, Store.Valid, Store.UnlockVaultCredentials;
  }

  lemma RestoringFiled(s: Store, tokens: map<VaultId, string>, homes: Homes)
    requires Filed(s, homes)
    ensures Filed(s.UnlockVaultCredentials(tokens), homes)
  {
    hide HashEmailForLookup;
  }

  lemma SeedAnswerFiled(w: World, u: nat, answer: Answer, homes: Homes)
    requires w.store.Valid() && Enabled(w, SeedAnswer(u, answer)) && FiledWorld(w, homes)
    ensures FiledWorld(Step(w, SeedAnswer(u, answer)), homes)
  {
    var at := w.unlocks[u];
    assert UnlockFiled(at, homes);
    StoreFiled(w, homes);
    if answer.Some? {
      CachingFiled(w.store, at.phase.asked.value.id, Candidate(answer.value, at.emailHash), homes);
    }
    var (t, v) := SeedReply(w.store, at, answer);
    assert UnlockFiled(v, homes);
    hide Filed, FiledWorld, UnlockFiled, Store.SaveVaultCredentialLock, Store.Valid, AnswerNote, Stored;
    ContinuesFiled(w, u, v, homes);
    NotedFiled(Continues(w, u, v), t, AnswerNote(w, at.phase.asked.value.id, at.emailHash, answer), homes);
  }

  lemma RepairAnswerFiled(w: World, u: nat, ok: bool, homes: Homes)
    requires w.store.Valid() && Enabled(w, RepairAnswer(u, ok)) && FiledWorld(w, homes)
    ensures FiledWorld(Step(w, RepairAnswer(u, ok)), homes)
  {
    var at := w.unlocks[u];
    assert UnlockFiled(at, homes);
    StoreFiled(w, homes);
    var r := at.phase.repair.value;
    assert RepairLock(r).ownerEmailHash == homes(r.meta.id);
    CachingFiled(w.store, r.meta.id, RepairLock(r), homes);
    var (t, v) := RepairReply(w.store, at);
    assert UnlockFiled(v, homes);
    hide Filed, FiledWorld, UnlockFiled, Store.SaveVaultCredentialLock, Store.Valid, CacheNote, Stored, RepairLock;
    ContinuesFiled(w, u, v, homes);
    if ok {
      NotedFiled(Continues(w, u, v), t, CacheNote(w.store, w.truths, r.meta.id, RepairLock(r)), homes);
    }
  }

  lemma StepFiled(w: World, e: Event, homes: Homes)
    requires w.store.Valid() && Enabled(w, e) && FiledWorld(w, homes) && AtHome(e, homes)
    ensures FiledWorld(Step(w, e), homes)
  {
    match e
    case PasswordSetup(_, _, _, _, _, _) => SetupFiled(w, e, homes);
    case WalletSetup(_, _) => SetupFiled(w, e, homes);
    case BackFillGroup(sibling, groupId) => BackFillFiled(w, sibling, groupId, homes);
    case RecoverOne(_, _, _) => RecoveryFiled(w, e, homes);
    case RecoverShare(_, _, _, _, _) => RecoveryFiled(w, e, homes);
    case PassBegin(p) => PassBeginFiled(w, p, homes);
    case PassTurnOf(p) => PassTurnFiled(w, p, homes);
    case PassAnswer(p, answer) => PassAnswerFiled(w, p, answer, homes);
    case SeedAnswer(u, answer) => SeedAnswerFiled(w, u, answer, homes);
    case RepairAnswer(u, ok) => RepairAnswerFiled(w, u, ok, homes);
    case CloseTab => hide HashEmailForLookup, Store.Valid;
    case Remove(id) => hide HashEmailForLookup;
    case Activate(id) => hide HashEmailForLookup, Store.Valid;
    case UnlockBegin(u, localId, password) => UnlockBeginFiled(w, u, localId, password, homes);
    case SeedTurnOf(u) => SeedTurnFiled(w, u, homes);
    case ReadVaults(u) => ReadFiled(w, u, homes);
    case TryTurnOf(u) => TryFiled(w, u, homes);
    case FinishUnlock(u) => FinishFiled(w, u, homes);
  }

  lemma {:induction false} RunFiled(w: World, es: seq<Event>, homes: Homes)
    requires WorldGood(w) && Possible(w, es) && FiledWorld(w, homes)
    requires forall i :: 0 <= i < |es| ==> AtHome(es[i], homes)
    ensures FiledWorld(RunAll(w, es), homes)
    decreases |es|
  {
    hide Step, FiledWorld, AtHome, Enabled, LateFinish;
    if es != [] {
      StoreIsValid(w);
      StepIsGood(w, es[0]);
      StepFiled(w, es[0], homes);
      assert forall i :: 0 <= i < |es| - 1 ==> es[1..][i] == es[i + 1];
      RunFiled(Step(w, es[0]), es[1..], homes);
    }
  }

  lemma SeedFiled(s: Store, emailHash: string, replies: Replies, homes: Homes)
    requires s.Valid() && Filed(s, homes)
    ensures Filed(Seed(s, emailHash, replies), homes)
  {
    hide Store.Valid, Seed, HashEmailForLookup;
    var r := Seed(s, emailHash, replies);
    forall id | id in r.metas
      ensures FiledAt(r.metas[id], homes(id))
    {
      SeedVault(s, emailHash, replies, id);
    }
  }

  /**
   * At the end of any such run from an empty device, an unlock that finds a lock on the active
   * vault never refuses it as sealed for another email.
   */
  lemma NeverWrongEmail(es: seq<Event>, homes: Homes, localId: VaultId, password: string, replies: Replies,
                        emailHash: string, seeded: Store)
    requires (EmptyWorldIsGood(); Possible(EMPTY_WORLD, es))
    requires forall i :: 0 <= i < |es| ==> AtHome(es[i], homes)
    requires var s := RunAll(EMPTY_WORLD, es).store;
             Offered(s, localId, password) && SeededState(s, localId, replies, emailHash, seeded)
    ensures seeded.LockOf(localId).Some? ==> Matches(seeded, localId, emailHash)
  {
    EmptyWorldIsGood();
    var s := RunAll(EMPTY_WORLD, es).store;
    RunFiled(EMPTY_WORLD, es, homes);
    StoreFiled(RunAll(EMPTY_WORLD, es), homes);
    SeedFiled(s, emailHash, replies, homes);
    hide Seed, HashEmailForLookup, RunAll, Store.Valid, Possible;
    assert FiledAt(s.metas[localId], homes(localId));
    assert localId in seeded.metas ==> FiledAt(seeded.metas[localId], homes(localId));
  }
}
