/**
 * Whole runs of a trusted device, step by step: setups, back-fills, recoveries, closed tabs and
 * removals, and between their steps any number of lock passes and unlocks, each cut at every point
 * where it waits for the server. Calls may fail, and answers may be late.
 */
module CredentialRuns {
  import opened Wrappers
  import opened Crypto
  import opened EmailText
  import opened VaultStores
  import opened Credentials
  import opened DeviceLock
  import opened SignIn
  import opened Recovery
  import opened Awaits
  import opened AwaitInvariants
  import Ordering

  /**
   * The device with the passes and unlocks under way on it, what is true of each vault, and every
   * ciphertext ever uploaded for it. The server answers with one of those ciphertexts, not
   * necessarily the newest, or not at all.
   */
  datatype World = World(
    store: Store, truths: Truths, uploaded: map<VaultId, set<Bundle>>,
    passes: map<nat, Pass>, unlocks: map<nat, Unlocking>)

  const EMPTY_WORLD := World(EMPTY_STORE, map[], map[], map[], map[])

  /** What the owner typed into a setup form, and the id the server gave the vault. */
  datatype Draft = Draft(
    id: VaultId, title: string, ownerAddress: string, heirName: string, createdAt: string, groupId: Option<string>)

  /** `p` and `u` name a pass and an unlock under way. */
  datatype Event =
    | PasswordSetup(draft: Draft, token: string, password: string, params: KdfParams,
                    resealReached: bool, resealOk: bool)
    | WalletSetup(draft: Draft, token: string)
    | BackFillGroup(sibling: VaultId, groupId: string)
    | RecoverOne(recovered: Recovered, password: string, email: string)
    | RecoverShare(bundles: seq<Recovered>, share: nat, password: string, email: string, groupId: string)
    | PassBegin(p: nat)
    | PassTurnOf(p: nat)
    | PassAnswer(p: nat, answer: Answer)
    | UnlockBegin(u: nat, localId: VaultId, password: string)
    | SeedTurnOf(u: nat)
    | SeedAnswer(u: nat, answer: Answer)
    | ReadVaults(u: nat)
    | TryTurnOf(u: nat)
    | RepairAnswer(u: nat, ok: bool)
    | FinishUnlock(u: nat)
    | CloseTab
    | Remove(id: VaultId)
    | Activate(target: Option<VaultId>)

  // ----- what the environment may do -----

  predicate FreshVault(w: World, id: VaultId, token: string) {
    id !in w.truths && id != "" && token != "" && token != PLACEHOLDER_OWNER_TOKEN
  }

  predicate WasUploaded(w: World, id: VaultId, b: Bundle) {
    id in w.uploaded && b in w.uploaded[id]
  }

  predicate AnswerFrom(w: World, id: VaultId, answer: Answer) {
    answer.Some? ==> WasUploaded(w, id, answer.value)
  }

  /** The share is one of several, and all older ones of the link have opened. */
  ghost predicate ShareComesUp(w: World, bundles: seq<Recovered>, share: nat, password: string) {
    var rs := Ordering.Sort(bundles, RecoveredKey);
    && password != "" && |bundles| > 1 && DistinctVaults(bundles) && share < |rs|
    && (forall i :: 0 <= i <= share ==> Unsealed(rs[i], password).Some?)
    && (forall r :: r in rs ==> WasUploaded(w, r.id, r.bundle))
  }

  ghost predicate Enabled(w: World, e: Event)
    requires w.store.Valid()
  {
    match e
    case PasswordSetup(d, token, _, _, reached, ok) => FreshVault(w, d.id, token) && (ok ==> reached)
    case WalletSetup(d, token) => FreshVault(w, d.id, token)
    case RecoverOne(r, password, _) => password != "" && WasUploaded(w, r.id, r.bundle)
    case RecoverShare(bundles, share, password, _, _) => ShareComesUp(w, bundles, share, password)
    case PassBegin(p) => p !in w.passes
    case PassTurnOf(p) => p in w.passes && w.passes[p].AtTurn()
    case PassAnswer(p, answer) =>
      p in w.passes && w.passes[p].asked.Some? && AnswerFrom(w, w.passes[p].asked.value.id, answer)
    case UnlockBegin(u, localId, password) => u !in w.unlocks && Offered(w.store, localId, password)
    case SeedTurnOf(u) =>
      u in w.unlocks && (var f := w.unlocks[u].phase; f.Seeding? && f.asked.None? && f.toSeed != [])
    case SeedAnswer(u, answer) =>
      u in w.unlocks && (var f := w.unlocks[u].phase;
                         f.Seeding? && f.asked.Some? && AnswerFrom(w, f.asked.value.id, answer))
    case ReadVaults(u) => u in w.unlocks && w.unlocks[u].phase == Seeding([], None)
    case TryTurnOf(u) =>
      u in w.unlocks && (var f := w.unlocks[u].phase;
                         f.Trying? && f.repair.None? && f.rest != [] && f.rest[0].ownerTokenLock.Some?)
    case RepairAnswer(u, _) =>
      u in w.unlocks && (var f := w.unlocks[u].phase;
                         f.Trying? && f.repair.Some? && f.repair.value.meta.ownerTokenLock.Some?)
    case FinishUnlock(u) =>
      u in w.unlocks && (var f := w.unlocks[u].phase; f.Trying? && f.repair.None? && f.rest == [])
    case _ => true
  }

  // ----- steps -----

  function Upload(uploaded: map<VaultId, set<Bundle>>, id: VaultId, b: Bundle): map<VaultId, set<Bundle>> {
    uploaded[id := (if id in uploaded then uploaded[id] else {}) + {b}]
  }

  /** The meta a setup saves: a validated lock only when the real token was resealed. */
  function SetupMeta(d: Draft, token: string, lock: Option<LockedOwnerToken>): VaultMeta {
    VaultMeta(d.id, d.title, Trim(d.ownerAddress), d.heirName, d.createdAt, Some(token), lock, d.groupId)
  }

  function SetupLock(d: Draft, params: KdfParams, resealed: Blob, ok: bool): Option<LockedOwnerToken> {
    if ok then Some(LockedOwnerToken(params, resealed, HashEmailForLookup(d.ownerAddress), true)) else None
  }

  function SetUp(w: World, d: Draft, token: string, password: string, params: KdfParams, reached: bool,
                 ok: bool): World {
    var kek := Kek(password, params);
    var resealed := Seal(kek, token);
    var placed := Upload(w.uploaded, d.id, Bundle(params, Seal(kek, PLACEHOLDER_OWNER_TOKEN)));
    w.(store := w.store.SaveVaultMeta(SetupMeta(d, token, SetupLock(d, params, resealed, ok))),
       truths := w.truths[d.id := Truth(token, password)],
       uploaded := if reached then Upload(placed, d.id, Bundle(params, resealed)) else placed)
  }

  function BackFilled(s: Store, sibling: VaultId, groupId: string): Store {
    if sibling in s.metas then s.SaveVaultMeta(s.metas[sibling].(groupId := Some(groupId))) else s
  }

  /** The storage changes, and every unlock's history with it. */
  function Stored(w: World, store: Store, n: Note): World {
    w.(store := store, unlocks := map u | u in w.unlocks :: NoteIn(w.unlocks[u], n))
  }

  function Continues(w: World, u: nat, at: Unlocking): World {
    w.(unlocks := w.unlocks[u := at])
  }

  function Over(w: World, u: nat): World {
    w.(unlocks := w.unlocks - {u})
  }

  /** A turn notes the lock it stored, if it stored one. */
  function PassTurned(w: World, p: nat): World
    requires w.store.Valid() && p in w.passes && w.passes[p].AtTurn()
  {
    var (t, q) := PassTurn(w.store, w.passes[p]);
    var meta := w.passes[p].rest[0];
    var n := if meta.ownerTokenLock.None? then Unnoted else LockNote(w.store, meta.id, meta.ownerTokenLock.value);
    Stored(w, t, if t == w.store then Unnoted else n).(passes := w.passes[p := q])
  }

  function AnswerNote(w: World, id: VaultId, lockHash: string, answer: Answer): Note {
    if answer.None? then Unnoted else CacheNote(w.store, w.truths, id, Candidate(answer.value, lockHash))
  }

  function PassAnswered(w: World, p: nat, answer: Answer): World
    requires p in w.passes && w.passes[p].asked.Some?
  {
    var meta := w.passes[p].asked.value;
    var (t, q) := PassReply(w.store, w.passes[p], answer);
    Stored(w, t, AnswerNote(w, meta.id, HashEmailForLookup(meta.ownerAddress), answer)).(passes := w.passes[p := q])
  }

  function SeedAnswered(w: World, u: nat, answer: Answer): World
    requires u in w.unlocks && w.unlocks[u].phase.Seeding? && w.unlocks[u].phase.asked.Some?
  {
    var (t, v) := SeedReply(w.store, w.unlocks[u], answer);
    var n := AnswerNote(w, w.unlocks[u].phase.asked.value.id, w.unlocks[u].emailHash, answer);
    Stored(Continues(w, u, v), t, n)
  }

  function TryTurned(w: World, u: nat): World
    requires u in w.unlocks && w.unlocks[u].phase.Trying? && w.unlocks[u].phase.repair.None?
    requires w.unlocks[u].phase.rest != [] && w.unlocks[u].phase.rest[0].ownerTokenLock.Some?
  {
    match TryTurn(w.store, w.unlocks[u])
    case Ends => Over(w, u)
    case Goes(v) =>
      var next := Continues(w, u, v);
      if v.phase.repair.None? then next
      else
        var r := v.phase.repair.value;
        if r.meta.ownerTokenLock.None? then next
        else next.(uploaded := Upload(w.uploaded, r.meta.id, Bundle(r.meta.ownerTokenLock.value.params, r.blob)))
  }

  function RepairAnswered(w: World, u: nat, ok: bool): World
    requires u in w.unlocks && w.unlocks[u].phase.Trying? && w.unlocks[u].phase.repair.Some?
    requires w.unlocks[u].phase.repair.value.meta.ownerTokenLock.Some?
  {
    if !ok then Over(w, u)
    else
      var r := w.unlocks[u].phase.repair.value;
      var (t, v) := RepairReply(w.store, w.unlocks[u]);
      Stored(Continues(w, u, v), t, CacheNote(w.store, w.truths, r.meta.id, RepairLock(r)))
  }

  ghost function Step(w: World, e: Event): World
    requires w.store.Valid() && Enabled(w, e)
  {
    match e
    case PasswordSetup(d, token, password, params, reached, ok) => SetUp(w, d, token, password, params, reached, ok)
    case WalletSetup(d, token) =>
      w.(store := w.store.SaveVaultMeta(SetupMeta(d, token, None)), truths := w.truths[d.id := Truth(token, "")])
    case BackFillGroup(sibling, groupId) => w.(store := BackFilled(w.store, sibling, groupId))
    case RecoverOne(r, password, email) =>
      Stored(w, OpenVault(w.store, r, password, email).store,
             if IsReal(r, password) then Noted(r.id, false) else Unnoted)
    case RecoverShare(bundles, share, password, email, groupId) =>
      var r := Ordering.Sort(bundles, RecoveredKey)[share];
      Stored(w, w.store.SaveVaultMeta(Share(r, password, email, groupId)), Noted(r.id, false))
    case PassBegin(p) => w.(passes := w.passes[p := PassBegins(w.store)])
    case PassTurnOf(p) => PassTurned(w, p)
    case PassAnswer(p, answer) => PassAnswered(w, p, answer)
    case UnlockBegin(u, localId, password) => Continues(w, u, UnlockBegins(w.store, localId, password))
    case SeedTurnOf(u) => Continues(w, u, SeedTurn(w.store, w.unlocks[u]))
    case SeedAnswer(u, answer) => SeedAnswered(w, u, answer)
    case ReadVaults(u) =>
      (match ReadMatching(w.store, w.unlocks[u])
       case None => Over(w, u)
       case Some(v) => Continues(w, u, v))
    case TryTurnOf(u) => TryTurned(w, u)
    case RepairAnswer(u, ok) => RepairAnswered(w, u, ok)
    case FinishUnlock(u) => Over(w, u).(store := Finish(w.store, w.unlocks[u]))
    case CloseTab => w.(store := w.store.CloseTab(), passes := map[], unlocks := map[])
    case Remove(id) => w.(store := w.store.RemoveVaultMeta(id))
    case Activate(id) => w.(store := w.store.SetActive(id))
  }

  // ----- the invariant -----

  ghost predicate UploadedGood(uploaded: map<VaultId, set<Bundle>>, truths: Truths) {
    forall id, b :: id in uploaded && b in uploaded[id] ==> id in truths && BundleGood(b, truths[id])
  }

  ghost predicate WorldGood(w: World) {
    && StoreGood(w.store, w.truths)
    && UploadedGood(w.uploaded, w.truths)
    && (forall p :: p in w.passes ==> PassGood(w.passes[p], w.truths))
    && (forall u :: u in w.unlocks ==> UnlockGood(w.store, w.truths, w.unlocks[u]))
  }

  /** The steps that may cost a vault its credential: its removal, and the recovery of its placeholder. */
  ghost predicate MayLose(e: Event, id: VaultId) {
    match e
    case Remove(x) => x == id
    case RecoverShare(bundles, share, password, _, _) =>
      var rs := Ordering.Sort(bundles, RecoveredKey);
      share < |rs| && rs[share].id == id && Unsealed(rs[share], password) == Some(PLACEHOLDER_OWNER_TOKEN)
    case _ => false
  }

  /** An unlock about to restore a vault over whose lock a placeholder answer came late. */
  predicate LateFinish(w: World, e: Event) {
    && e.FinishUnlock?
    && e.u in w.unlocks
    && Accepted(w.store, w.unlocks[e.u])
    && exists id :: id in w.unlocks[e.u].phase.tokens && id in w.unlocks[e.u].phase.late
  }

  /** Sound before, sound after, and no credential gone except by a step that may lose it. */
  ghost predicate GoodStep(w: World, e: Event, next: World) {
    && WorldGood(next)
    && Extended(w.truths, next.truths)
    && (forall id :: HasCredential(w.store, id) && !MayLose(e, id) ==> HasCredential(next.store, id))
  }

  // ----- what every step has in common -----

  /** A change of storage that is sound, explained and noted keeps everything under way sound. */
  lemma StoringIsGood(w: World, store: Store, truths: Truths, uploaded: map<VaultId, set<Bundle>>, n: Note)
    requires WorldGood(w) && StoreGood(store, truths) && UploadedGood(uploaded, truths)
    requires Extended(w.truths, truths) && Explains(w.store, store, w.truths, n)
    ensures WorldGood(Stored(w, store, n).(truths := truths, uploaded := uploaded))
  {
    hide StoreGood, UploadedGood, PassGood, UnlockGood, Explains, NoteIn;
    var next := Stored(w, store, n).(truths := truths, uploaded := uploaded);
    forall u | u in next.unlocks
      ensures UnlockGood(store, truths, next.unlocks[u])
    {
      UnlockStays(w.store, store, w.truths, truths, w.unlocks[u], n);
    }
    forall p | p in next.passes
      ensures PassGood(next.passes[p], truths)
    {
      PassStays(w.passes[p], w.truths, truths);
    }
  }

  /** Without a note the history is as it was. */
  lemma UnnotedStores(w: World, store: Store)
    ensures Stored(w, store, Unnoted) == w.(store := store)
  {
    assert Stored(w, store, Unnoted).unlocks == w.unlocks;
  }

  lemma UploadGood(uploaded: map<VaultId, set<Bundle>>, truths: Truths, id: VaultId, b: Bundle)
    requires UploadedGood(uploaded, truths) && id in truths && BundleGood(b, truths[id])
    ensures UploadedGood(Upload(uploaded, id, b), truths)
  {
    hide BundleGood;
  }

  lemma SameTruths(truths: Truths)
    ensures Extended(truths, truths)
  {}

  // ----- setups, back-fills and recoveries -----

  /** The server issuing a vault of a fresh id leaves everything about the others as it was. */
  lemma NewTruth(w: World, id: VaultId, t: Truth)
    requires WorldGood(w) && id !in w.truths && t.token != "" && t.token != PLACEHOLDER_OWNER_TOKEN
    ensures StoreGood(w.store, w.truths[id := t]) && UploadedGood(w.uploaded, w.truths[id := t])
    ensures Extended(w.truths, w.truths[id := t])
  {
    hide Store.Valid, MetaGood, BundleGood, PassGood, UnlockGood;
    var truths := w.truths[id := t];
    forall x
      ensures VaultGood(w.store, truths, x)
    {
      assert VaultGood(w.store, w.truths, x);
    }
  }

  /** Both ciphertexts a setup uploads are sound, and so is the meta it saves. */
  lemma SetupSeals(d: Draft, t: Truth, params: KdfParams, ok: bool)
    ensures var kek := Kek(t.password, params);
            && BundleGood(Bundle(params, Seal(kek, PLACEHOLDER_OWNER_TOKEN)), t)
            && BundleGood(Bundle(params, Seal(kek, t.token)), t)
            && MetaGood(SetupMeta(d, t.token, SetupLock(d, params, Seal(kek, t.token), ok)), t)
  {}

  lemma SetupIsGood(w: World, d: Draft, token: string, password: string, params: KdfParams, reached: bool, ok: bool)
    requires WorldGood(w) && FreshVault(w, d.id, token)
    ensures var e := PasswordSetup(d, token, password, params, reached, ok);
            GoodStep(w, e, SetUp(w, d, token, password, params, reached, ok))
    ensures HasCredential(SetUp(w, d, token, password, params, reached, ok).store, d.id)
  {
    var t := Truth(token, password);
    var truths := w.truths[d.id := t];
    var kek := Kek(password, params);
    NewTruth(w, d.id, t);
    SetupSeals(d, t, params, ok);
    hide StoreGood, WorldGood, UploadedGood, Store.SaveVaultMeta, Upload, MetaGood, BundleGood, HashEmailForLookup,
      Trim,
      Seal, Explains, Stored, SetupLock;
    var meta := SetupMeta(d, token, SetupLock(d, params, Seal(kek, token), ok));
    SaveKeepsGood(w.store, truths, meta);
    SavedStore(w.store, meta);
    var placed := Upload(w.uploaded, d.id, Bundle(params, Seal(kek, PLACEHOLDER_OWNER_TOKEN)));
    UploadGood(w.uploaded, truths, d.id, Bundle(params, Seal(kek, PLACEHOLDER_OWNER_TOKEN)));
    UploadGood(placed, truths, d.id, Bundle(params, Seal(kek, token)));
    SameLockExplained(w.store, w.truths, meta);
    var next := SetUp(w, d, token, password, params, reached, ok);
    StoringIsGood(w, next.store, truths, next.uploaded, Unnoted);
    UnnotedStores(w, next.store);
  }

  /**
   * What a setup leaves: the new vault is active and reads its token. The token stays in the clear
   * at rest exactly when the reseal was not confirmed, and otherwise only a validated lock does.
   */
  lemma SetupStores(w: World, d: Draft, token: string, password: string, params: KdfParams, reached: bool, ok: bool)
    requires WorldGood(w) && FreshVault(w, d.id, token)
    ensures var t := SetUp(w, d, token, password, params, reached, ok).store;
            && t.active == Some(d.id) && t.OwnerToken(d.id) == Some(token)
            && d.id in t.metas
            && t.metas[d.id]
               == VaultMeta(d.id, d.title, Trim(d.ownerAddress), d.heirName, d.createdAt,
                            if ok then None else Some(token),
                            if ok then Some(LockedOwnerToken(params, Seal(Kek(password, params), token),
                                                             HashEmailForLookup(d.ownerAddress), true)) else None,
                            d.groupId)
            && forall id :: id != d.id ==> SameVault(w.store, t, id)
  {
    assert VaultGood(w.store, w.truths, d.id);
    hide WorldGood, Store.SaveVaultMeta, HashEmailForLookup, Trim;
    SavedStore(w.store, SetupMeta(d, token, SetupLock(d, params, Seal(Kek(password, params), token), ok)));
  }

  /** What a setup uploads for its vault: the placeholder, and the real token if the reseal reached the server. */
  lemma SetupUploads(w: World, d: Draft, token: string, password: string, params: KdfParams, reached: bool, ok: bool)
    requires d.id !in w.uploaded
    ensures var kek := Kek(password, params);
            var placed := Bundle(params, Seal(kek, "ghostkey-placeholder-owner-token-v1"));
            var resealed := Bundle(params, Seal(kek, token));
            SetUp(w, d, token, password, params, reached, ok).uploaded
            == w.uploaded[d.id := if reached then {placed, resealed} else {placed}]
  {
    hide HashEmailForLookup, Trim, Store.SaveVaultMeta, Seal;
    var kek := Kek(password, params);
    var placed, resealed := Bundle(params, Seal(kek, PLACEHOLDER_OWNER_TOKEN)), Bundle(params, Seal(kek, token));
    assert {} + {placed} == {placed} && {placed} + {resealed} == {placed, resealed};
  }

  lemma SetupTruths(w: World, d: Draft, token: string, password: string, params: KdfParams, reached: bool, ok: bool)
    ensures SetUp(w, d, token, password, params, reached, ok).truths == w.truths[d.id := Truth(token, password)]
    ensures SetUp(w, d, token, password, params, reached, ok).passes == w.passes
    ensures SetUp(w, d, token, password, params, reached, ok).unlocks == w.unlocks
  {}

  /**
   * Closing the tab forgets the session and ends what was under way; choosing a vault moves the active id
   * and nothing else; removing one forgets that vault.
   */
  lemma OwnerSteps(w: World, id: VaultId, target: Option<VaultId>)
    requires w.store.Valid()
    ensures Step(w, CloseTab)
         == w.(store := Store(w.store.metas, w.store.order, map[], w.store.active), passes := map[], unlocks := map[])
    ensures Step(w, Activate(target)) == w.(store := w.store.(active := if target == Some("") then None else target))
    ensures Step(w, Remove(id)) == w.(store := Step(w, Remove(id)).store)
    ensures Step(w, Remove(id)).store.metas == w.store.metas - {id}
    ensures Step(w, Remove(id)).store.live == w.store.live - {id}
  {
    Forgets(w.store, id);
    hide Store.Valid, Store.RemoveVaultMeta;
  }

  lemma Forgets(s: Store, id: VaultId)
    requires s.Valid()
    ensures s.RemoveVaultMeta(id).metas == s.metas - {id} && s.RemoveVaultMeta(id).live == s.live - {id}
  {}

  /** A wallet setup leaves its token in the clear, without a lock, and the new vault active. */
  lemma WalletSetupStores(w: World, d: Draft, token: string)
    requires w.store.Valid() && Enabled(w, WalletSetup(d, token))
    ensures var v := Step(w, WalletSetup(d, token));
            && v == w.(store := v.store, truths := v.truths)
            && v.store.metas == w.store.metas[d.id := VaultMeta(
                 d.id, d.title, Trim(d.ownerAddress), d.heirName, d.createdAt, Some(token), None, d.groupId)]
            && v.store.live == w.store.live && v.store.active == Some(d.id)
  {
    hide Trim, Store.Valid;
  }

  lemma WalletSetupIsGood(w: World, d: Draft, token: string)
    requires WorldGood(w) && FreshVault(w, d.id, token)
    ensures GoodStep(w, WalletSetup(d, token), Step(w, WalletSetup(d, token)))
  {
    var truths := w.truths[d.id := Truth(token, "")];
    var meta := SetupMeta(d, token, None);
    NewTruth(w, d.id, Truth(token, ""));
    SaveKeepsGood(w.store, truths, meta);
    SameLockExplained(w.store, w.truths, meta);
    hide StoreGood, WorldGood, UploadedGood, Store.SaveVaultMeta, Explains, Stored;
    StoringIsGood(w, w.store.SaveVaultMeta(meta), truths, w.uploaded, Unnoted);
    UnnotedStores(w, w.store.SaveVaultMeta(meta));
  }

  lemma BackFillIsGood(w: World, sibling: VaultId, groupId: string)
    requires WorldGood(w)
    ensures GoodStep(w, BackFillGroup(sibling, groupId), Step(w, BackFillGroup(sibling, groupId)))
  {
    SameTruths(w.truths);
    if sibling in w.store.metas {
      var meta := w.store.metas[sibling].(groupId := Some(groupId));
      assert VaultGood(w.store, w.truths, sibling);
      assert meta.id == sibling;
      SaveKeepsGood(w.store, w.truths, meta);
      SameLockExplained(w.store, w.truths, meta);
      hide StoreGood, UploadedGood, PassGood, UnlockGood, Store.SaveVaultMeta, Explains, Stored;
      StoringIsGood(w, w.store.SaveVaultMeta(meta), w.truths, w.uploaded, Unnoted);
      UnnotedStores(w, w.store.SaveVaultMeta(meta));
    }
  }

  lemma RecoveredMetaGood(r: Recovered, truths: Truths, password: string, email: string, groupId: Option<string>,
                          token: Option<string>)
    requires r.id in truths && BundleGood(r.bundle, truths[r.id]) && TruthsGood(truths)
    requires Unsealed(r, password).Some?
    requires token == ShareToken(r, password)
    ensures MetaGood(RecoveredMeta(r, email, token, groupId), truths[r.id])
    ensures IsReal(r, password) ==> Unsealed(r, password) == Some(truths[r.id].token)
  {}

  /** The lock saved with a real token holds it, and without one no lock is saved. */
  lemma RecoveredLockHolds(r: Recovered, truths: Truths, password: string, email: string, groupId: Option<string>)
    requires r.id in truths && BundleGood(r.bundle, truths[r.id]) && TruthsGood(truths)
    ensures var meta := RecoveredMeta(r, email, ShareToken(r, password), groupId);
            meta.ownerTokenLock.Some? ==> HoldsFor(truths, r.id, meta.ownerTokenLock.value)
  {}

  lemma RecoverOneIsGood(w: World, r: Recovered, password: string, email: string)
    requires WorldGood(w) && password != "" && WasUploaded(w, r.id, r.bundle)
    ensures GoodStep(w, RecoverOne(r, password, email), Step(w, RecoverOne(r, password, email)))
  {
    SameTruths(w.truths);
    assert BundleGood(r.bundle, w.truths[r.id]);
    if IsReal(r, password) {
      var meta := RecoveredMeta(r, email, Unsealed(r, password), None);
      RecoveredMetaGood(r, w.truths, password, email, None, Unsealed(r, password));
      RecoveredLockHolds(r, w.truths, password, email, None);
      SaveKeepsGood(w.store, w.truths, meta);
      SetActiveIsGood(w.store.SaveVaultMeta(meta), w.truths, Some(r.id));
      RecoveredExplained(w.store, w.truths, meta);
      hide StoreGood, UploadedGood, PassGood, UnlockGood, Store.SaveVaultMeta, Store.SetActive, IsReal, Explains,
        Stored;
      StoringIsGood(w, w.store.SaveVaultMeta(meta).SetActive(Some(r.id)), w.truths, w.uploaded, Noted(r.id, false));
    } else {
      UnnotedStores(w, w.store);
    }
  }

  lemma RecoveredExplained(s: Store, truths: Truths, meta: VaultMeta)
    requires meta.ownerTokenLock.Some? ==> HoldsFor(truths, meta.id, meta.ownerTokenLock.value)
    ensures Explains(s, s.SaveVaultMeta(meta).SetActive(Some(meta.id)), truths, Noted(meta.id, false))
  {
    SaveExplained(s, truths, meta);
    assert forall id :: s.SaveVaultMeta(meta).SetActive(Some(meta.id)).LockOf(id) == s.SaveVaultMeta(meta).LockOf(id);
    hide Store.SaveVaultMeta, HoldsFor;
  }

  lemma RecoverShareIsGood(w: World, bundles: seq<Recovered>, share: nat, password: string, email: string,
                           groupId: string)
    requires WorldGood(w) && ShareComesUp(w, bundles, share, password)
    ensures var e := RecoverShare(bundles, share, password, email, groupId);
            GoodStep(w, e, Step(w, e))
  {
    SameTruths(w.truths);
    var r := Ordering.Sort(bundles, RecoveredKey)[share];
    assert WasUploaded(w, r.id, r.bundle);
    var meta := Share(r, password, email, groupId);
    RecoveredMetaGood(r, w.truths, password, email, Some(groupId), ShareToken(r, password));
    RecoveredLockHolds(r, w.truths, password, email, Some(groupId));
    SaveKeepsGood(w.store, w.truths, meta);
    SaveExplained(w.store, w.truths, meta);
    assert Unsealed(r, password) != Some(PLACEHOLDER_OWNER_TOKEN) ==> meta.ownerToken.Some?;
    hide StoreGood, UploadedGood, PassGood, UnlockGood, Store.SaveVaultMeta, Explains, Stored, Share, Unsealed, IsReal;
    StoringIsGood(w, w.store.SaveVaultMeta(meta), w.truths, w.uploaded, Noted(r.id, false));
  }

  lemma SetActiveIsGood(s: Store, truths: Truths, id: Option<VaultId>)
    requires StoreGood(s, truths)
    ensures StoreGood(s.SetActive(id), truths) && KeepsCredentials(s, s.SetActive(id), {})
  {
    hide MetaGood;
    forall x
      ensures VaultGood(s.SetActive(id), truths, x)
    {
      assert VaultGood(s, truths, x);
    }
  }

  // ----- lock passes -----

  lemma ListedGood(w: World)
    requires WorldGood(w)
    ensures forall m :: m in w.store.AllVaultMetas() ==> ReadGood(m, w.truths)
  {
    AllMetasMembers(w.store);
    ReadListGood(w.store, w.truths, w.store.AllVaultMetas());
  }

  lemma StoreIsValid(w: World)
    requires WorldGood(w)
    ensures w.store.Valid()
  {}

  lemma WithPass(w: World, p: nat, q: Pass)
    requires WorldGood(w) && PassGood(q, w.truths)
    ensures WorldGood(w.(passes := w.passes[p := q]))
  {
    hide StoreGood, UploadedGood, PassGood, UnlockGood;
  }

  lemma WithUnlock(w: World, u: nat, at: Unlocking)
    requires WorldGood(w) && UnlockGood(w.store, w.truths, at)
    ensures WorldGood(Continues(w, u, at))
    ensures WorldGood(Over(w, u))
  {
    hide StoreGood, UploadedGood, PassGood, UnlockGood;
  }

  lemma PassTurnIsGood(w: World, p: nat)
    requires WorldGood(w) && p in w.passes && w.passes[p].AtTurn()
    ensures GoodStep(w, PassTurnOf(p), PassTurned(w, p))
  {
    SameTruths(w.truths);
    var meta := w.passes[p].rest[0];
    assert PassGood(w.passes[p], w.truths) && ReadGood(meta, w.truths);
    var (t, q) := PassTurn(w.store, w.passes[p]);
    if t != w.store {
      var lock := meta.ownerTokenLock.value;
      LockKeepsGood(w.store, w.truths, meta.id, lock);
      LockExplained(w.store, w.truths, meta.id, lock);
      hide StoreGood, UploadedGood, UnlockGood, Explains, Stored, MetaGood, Store.LockVaultCredential, LockNote;
      StoringIsGood(w, t, w.truths, w.uploaded, LockNote(w.store, meta.id, lock));
      WithPass(Stored(w, t, LockNote(w.store, meta.id, lock)), p, q);
    } else {
      hide StoreGood, UploadedGood, UnlockGood, Stored, MetaGood, Store.LockVaultCredential, LockNote;
      UnnotedStores(w, w.store);
      WithPass(w, p, q);
    }
  }

  /** An answered candidate is sound, and so is caching it, whenever the answer arrives. */
  lemma AnswerIsGood(w: World, id: VaultId, lockHash: string, answer: Answer)
    requires WorldGood(w) && AnswerFrom(w, id, answer)
    ensures var t := if answer.None? then w.store
                     else w.store.SaveVaultCredentialLock(id, Candidate(answer.value, lockHash));
            && WorldGood(Stored(w, t, AnswerNote(w, id, lockHash, answer)))
            && KeepsCredentials(w.store, t, {})
  {
    SameTruths(w.truths);
    if answer.Some? {
      var lock := Candidate(answer.value, lockHash);
      assert WasUploaded(w, id, answer.value);
      SaveLockKeepsGood(w.store, w.truths, id, lock);
      CacheExplained(w.store, w.truths, id, lock);
      hide StoreGood, UploadedGood, PassGood, UnlockGood, Explains, Stored, Store.SaveVaultCredentialLock, CacheNote;
      StoringIsGood(w, w.store.SaveVaultCredentialLock(id, lock), w.truths, w.uploaded,
                    CacheNote(w.store, w.truths, id, lock));
    } else {
      UnnotedStores(w, w.store);
    }
  }

  lemma PassAnswerIsGood(w: World, p: nat, answer: Answer)
    requires WorldGood(w) && p in w.passes && w.passes[p].asked.Some?
    requires AnswerFrom(w, w.passes[p].asked.value.id, answer)
    ensures GoodStep(w, PassAnswer(p, answer), PassAnswered(w, p, answer))
  {
    SameTruths(w.truths);
    var meta := w.passes[p].asked.value;
    assert PassGood(w.passes[p], w.truths);
    AnswerIsGood(w, meta.id, HashEmailForLookup(meta.ownerAddress), answer);
    var (t, q) := PassReply(w.store, w.passes[p], answer);
    hide WorldGood, AnswerNote, HashEmailForLookup, Store.SaveVaultCredentialLock, ReadGood, AnswerFrom;
    WithPass(Stored(w, t, AnswerNote(w, meta.id, HashEmailForLookup(meta.ownerAddress), answer)), p, q);
  }

  // ----- unlocks -----

  lemma UnlockBeginIsGood(w: World, u: nat, localId: VaultId, password: string)
    requires WorldGood(w) && Offered(w.store, localId, password)
    ensures WorldGood(Continues(w, u, UnlockBegins(w.store, localId, password)))
  {
    ListedGood(w);
    hide WorldGood, StoreGood, ReadGood, Store.AllVaultMetas;
    WithUnlock(w, u, UnlockBegins(w.store, localId, password));
  }

  lemma SeedTurnIsGood(w: World, u: nat)
    requires WorldGood(w) && Enabled(w, SeedTurnOf(u))
    ensures WorldGood(Continues(w, u, SeedTurn(w.store, w.unlocks[u])))
  {
    assert UnlockGood(w.store, w.truths, w.unlocks[u]);
    hide WorldGood, ReadGood, Store.OwnerToken, HashEmailForLookup;
    WithUnlock(w, u, SeedTurn(w.store, w.unlocks[u]));
  }

  lemma SeedAnswerIsGood(w: World, u: nat, answer: Answer)
    requires WorldGood(w) && Enabled(w, SeedAnswer(u, answer))
    ensures GoodStep(w, SeedAnswer(u, answer), SeedAnswered(w, u, answer))
  {
    SameTruths(w.truths);
    assert UnlockGood(w.store, w.truths, w.unlocks[u]);
    var (t, v) := SeedReply(w.store, w.unlocks[u], answer);
    var id := w.unlocks[u].phase.asked.value.id;
    assert UnlockGood(w.store, w.truths, v);
    hide WorldGood, AnswerNote, Store.SaveVaultCredentialLock, ReadGood, Stored, UnlockGood;
    WithUnlock(w, u, v);
    AnswerIsGood(Continues(w, u, v), id, w.unlocks[u].emailHash, answer);
    SameAnswerNote(w, u, v, id, answer);
  }

  lemma SameAnswerNote(w: World, u: nat, v: Unlocking, id: VaultId, answer: Answer)
    requires u in w.unlocks
    ensures AnswerNote(Continues(w, u, v), id, w.unlocks[u].emailHash, answer)
         == AnswerNote(w, id, w.unlocks[u].emailHash, answer)
  {}

  lemma ReadVaultsIsGood(w: World, u: nat)
    requires WorldGood(w) && Enabled(w, ReadVaults(u))
    ensures WorldGood(Step(w, ReadVaults(u)))
  {
    assert UnlockGood(w.store, w.truths, w.unlocks[u]);
    ReadIsGood(w.store, w.truths, w.unlocks[u]);
    hide WorldGood, StoreGood, UnlockGood, ReadMatching;
    WithUnlock(w, u, w.unlocks[u]);
    if ReadMatching(w.store, w.unlocks[u]).Some? {
      WithUnlock(w, u, ReadMatching(w.store, w.unlocks[u]).value);
    }
  }

  lemma UploadingIsGood(w: World, id: VaultId, b: Bundle)
    requires WorldGood(w) && id in w.truths && BundleGood(b, w.truths[id])
    ensures WorldGood(w.(uploaded := Upload(w.uploaded, id, b)))
  {
    hide StoreGood, UploadedGood, PassGood, UnlockGood, BundleGood;
    UploadGood(w.uploaded, w.truths, id, b);
  }

  lemma TryTurnStepIsGood(w: World, u: nat)
    requires WorldGood(w) && Enabled(w, TryTurnOf(u))
    ensures WorldGood(TryTurned(w, u))
  {
    assert UnlockGood(w.store, w.truths, w.unlocks[u]);
    TryTurnIsGood(w.store, w.truths, w.unlocks[u]);
    hide WorldGood, StoreGood, UnlockGood, TryTurn, Upload, BundleGood;
    WithUnlock(w, u, w.unlocks[u]);
    match TryTurn(w.store, w.unlocks[u])
    case Ends =>
    case Goes(v) =>
      WithUnlock(w, u, v);
      if v.phase.Trying? && v.phase.repair.Some? {
        var r := v.phase.repair.value;
        UploadingIsGood(Continues(w, u, v), r.meta.id, Bundle(r.meta.ownerTokenLock.value.params, r.blob));
      }
  }

  lemma RepairAnswerIsGood(w: World, u: nat, ok: bool)
    requires WorldGood(w) && Enabled(w, RepairAnswer(u, ok))
    ensures GoodStep(w, RepairAnswer(u, ok), RepairAnswered(w, u, ok))
  {
    SameTruths(w.truths);
    var at := w.unlocks[u];
    assert UnlockGood(w.store, w.truths, at);
    if ok {
      var r := at.phase.repair.value;
      var n := CacheNote(w.store, w.truths, r.meta.id, RepairLock(r));
      var (t, v) := RepairReply(w.store, at);
      RepairedLockGood(w.store, w.truths, at);
      SaveLockKeepsGood(w.store, w.truths, r.meta.id, RepairLock(r));
      CacheExplained(w.store, w.truths, r.meta.id, RepairLock(r));
      RepairReplyIsGood(w.store, w.truths, at);
      hide StoreGood, UploadedGood, PassGood, UnlockGood, Explains, Store.SaveVaultCredentialLock, CacheNote,
        RepairLock,
        NoteIn;
      StoringIsGood(w, t, w.truths, w.uploaded, n);
      WithUnlock(Stored(w, t, n), u, NoteIn(v, n));
      NotedLast(w, u, v, t, n);
    } else {
      hide WorldGood, UnlockGood;
      WithUnlock(w, u, at);
    }
  }

  lemma RepairedLockGood(s: Store, truths: Truths, u: Unlocking)
    requires UnlockGood(s, truths, u) && u.phase.Trying? && u.phase.repair.Some?
    ensures var r := u.phase.repair.value;
            r.meta.id in truths && r.meta.ownerTokenLock.Some? && LockGood(RepairLock(r), truths[r.meta.id])
  {}

  lemma NotedLast(w: World, u: nat, v: Unlocking, t: Store, n: Note)
    requires u in w.unlocks
    ensures Stored(Continues(w, u, v), t, n) == Continues(Stored(w, t, n), u, NoteIn(v, n))
  {
    hide NoteIn;
    assert Stored(Continues(w, u, v), t, n).unlocks == Continues(Stored(w, t, n), u, NoteIn(v, n)).unlocks;
  }

  /** The end of an unlock: sound exactly when it is not late, and no credential gone in either case. */
  lemma FinishIsGoodIff(w: World, u: nat)
    requires WorldGood(w) && Enabled(w, FinishUnlock(u))
    ensures WorldGood(Step(w, FinishUnlock(u))) <==> !LateFinish(w, FinishUnlock(u))
    ensures KeepsCredentials(w.store, Step(w, FinishUnlock(u)).store, {})
  {
    SameTruths(w.truths);
    var at := w.unlocks[u];
    assert UnlockGood(w.store, w.truths, at);
    var next := Step(w, FinishUnlock(u));
    if Accepted(w.store, at) {
      FinishKeepsGoodIff(w.store, w.truths, at);
      RestoreExplained(w.store, w.truths, at.phase.tokens);
      hide StoreGood, UploadedGood, PassGood, UnlockGood, Explains, Stored, Store.UnlockVaultCredentials, Accepted;
      if !LateFinish(w, FinishUnlock(u)) {
        StoringIsGood(w, next.store, w.truths, w.uploaded, Unnoted);
        UnnotedStores(w, next.store);
        WithoutUnlock(w.(store := next.store), u);
      }
    } else {
      hide WorldGood, UnlockGood, StoreGood;
      WithUnlock(w, u, at);
    }
  }

  lemma WithoutUnlock(w: World, u: nat)
    requires WorldGood(w)
    ensures WorldGood(Over(w, u))
  {
    hide StoreGood, UploadedGood, PassGood, UnlockGood;
  }

  // ----- closing, removing, activating -----

  lemma PlainStepIsGood(w: World, t: Store)
    requires WorldGood(w) && StoreGood(t, w.truths)
    requires forall id :: t.LockOf(id).Some? ==> w.store.LockOf(id) == t.LockOf(id)
    ensures WorldGood(w.(store := t)) && Extended(w.truths, w.truths)
    ensures WorldGood(w.(store := t, passes := map[], unlocks := map[]))
  {
    SameTruths(w.truths);
    SameLocksExplained(w.store, t, w.truths);
    hide StoreGood, UploadedGood, PassGood, UnlockGood, Explains, Stored, Store.LockOf;
    StoringIsGood(w, t, w.truths, w.uploaded, Unnoted);
    UnnotedStores(w, t);
  }

  lemma CloseTabIsGood(w: World)
    requires WorldGood(w)
    ensures GoodStep(w, CloseTab, Step(w, CloseTab))
  {
    CloseTabKeepsGood(w.store, w.truths);
    hide WorldGood, StoreGood;
    PlainStepIsGood(w, w.store.CloseTab());
  }

  lemma RemoveIsGood(w: World, id: VaultId)
    requires WorldGood(w)
    ensures GoodStep(w, Remove(id), Step(w, Remove(id)))
  {
    RemoveKeepsGood(w.store, w.truths, id);
    assert forall x :: w.store.RemoveVaultMeta(id).LockOf(x).Some? ==>
                         w.store.LockOf(x) == w.store.RemoveVaultMeta(id).LockOf(x);
    hide WorldGood, StoreGood, Store.RemoveVaultMeta, Store.LockOf;
    PlainStepIsGood(w, w.store.RemoveVaultMeta(id));
  }

  lemma ActivateIsGood(w: World, id: Option<VaultId>)
    requires WorldGood(w)
    ensures GoodStep(w, Activate(id), Step(w, Activate(id)))
  {
    SetActiveIsGood(w.store, w.truths, id);
    hide WorldGood, StoreGood;
    PlainStepIsGood(w, w.store.SetActive(id));
  }

  /**
   * Every step keeps the device and all that is under way on it sound, except the end of an unlock
   * over a late answer; only a removal or the recovery of a placeholder can lose a credential.
   */
  lemma StepIsGood(w: World, e: Event)
    requires WorldGood(w) && Enabled(w, e) && !LateFinish(w, e)
    ensures GoodStep(w, e, Step(w, e))
  {
    hide WorldGood, StoreGood, HasCredential, ShareComesUp, LateFinish;
    SameTruths(w.truths);
    match e
    case PasswordSetup(d, token, password, params, reached, ok) =>
      SetupIsGood(w, d, token, password, params, reached, ok);
    case WalletSetup(d, token) => WalletSetupIsGood(w, d, token);
    case BackFillGroup(sibling, groupId) => BackFillIsGood(w, sibling, groupId);
    case RecoverOne(r, password, email) => RecoverOneIsGood(w, r, password, email);
    case RecoverShare(bundles, share, password, email, groupId) =>
      RecoverShareIsGood(w, bundles, share, password, email, groupId);
    case PassBegin(p) =>
      ListedGood(w);
      StoreIsValid(w);
      WithPass(w, p, PassBegins(w.store));
    case PassTurnOf(p) => PassTurnIsGood(w, p);
    case PassAnswer(p, answer) => PassAnswerIsGood(w, p, answer);
    case UnlockBegin(u, localId, password) => UnlockBeginIsGood(w, u, localId, password);
    case SeedTurnOf(u) => SeedTurnIsGood(w, u);
    case SeedAnswer(u, answer) => SeedAnswerIsGood(w, u, answer);
    case ReadVaults(u) => ReadVaultsIsGood(w, u);
    case TryTurnOf(u) => TryTurnStepIsGood(w, u);
    case RepairAnswer(u, ok) => RepairAnswerIsGood(w, u, ok);
    case FinishUnlock(u) => FinishIsGoodIff(w, u);
    case CloseTab => CloseTabIsGood(w);
    case Remove(id) => RemoveIsGood(w, id);
    case Activate(id) => ActivateIsGood(w, id);
  }

  // ----- whole runs -----

  /** Every event of the run is one the environment may do when it happens, and no unlock ends late. */
  ghost predicate Possible(w: World, es: seq<Event>)
    requires WorldGood(w)
    decreases |es|
  {
    es == [] || (Enabled(w, es[0]) && !LateFinish(w, es[0])
                 && (StepIsGood(w, es[0]); Possible(Step(w, es[0]), es[1..])))
  }

  ghost function RunAll(w: World, es: seq<Event>): (r: World)
    requires WorldGood(w) && Possible(w, es)
    ensures WorldGood(r)
    decreases |es|
  {
    if es == [] then w else (StepIsGood(w, es[0]); RunAll(Step(w, es[0]), es[1..]))
  }

  lemma EmptyWorldIsGood()
    ensures WorldGood(EMPTY_WORLD)
  {}

  /**
   * Through any run, however passes, unlocks and everything else are interleaved, no vault's
   * credential is lost: once the device holds it, its server-issued token is at rest in the clear
   * or in a validated blob that opens to it under the vault's password, unless a step of the run
   * removed the vault, recovered its placeholder, or ended an unlock over a late answer. Along the
   * way every validated blob opens to the issued token, and every readable token is that token,
   * never the placeholder.
   */
  lemma {:induction false} NoCredentialIsLost(w: World, es: seq<Event>, id: VaultId)
    requires WorldGood(w) && Possible(w, es) && HasCredential(w.store, id)
    requires forall i :: 0 <= i < |es| ==> !MayLose(es[i], id)
    ensures var end := RunAll(w, es);
            && id in w.truths && id in end.truths && end.truths[id] == w.truths[id]
            && Recoverable(end.store, id, w.truths[id])
            && (forall x :: HasValidatedLock(end.store, x) ==>
                  x in end.truths && LockHoldsToken(end.store.LockOf(x).value, end.truths[x]))
            && (forall x :: end.store.OwnerToken(x).Some? ==>
                  x in end.truths && end.store.OwnerToken(x).value == end.truths[x].token != PLACEHOLDER_OWNER_TOKEN)
    decreases |es|
  {
    if es == [] {
      CredentialIsRecoverable(w.store, w.truths, id);
      forall x
        ensures HasValidatedLock(w.store, x) ==> x in w.truths && LockHoldsToken(w.store.LockOf(x).value, w.truths[x])
        ensures w.store.OwnerToken(x).Some? ==>
                  x in w.truths && w.store.OwnerToken(x).value == w.truths[x].token != PLACEHOLDER_OWNER_TOKEN
      {
        assert VaultGood(w.store, w.truths, x);
      }
    } else {
      hide Step, HasCredential, MayLose, Recoverable, HasValidatedLock, LockHoldsToken, StoreGood;
      StepIsGood(w, es[0]);
      NoCredentialIsLost(Step(w, es[0]), es[1..], id);
      CredentialIsRecoverable(w.store, w.truths, id);
    }
  }
}
