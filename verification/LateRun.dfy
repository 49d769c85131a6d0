/**
 * A family of runs the page can perform on which an overlapping answer costs a credential. One owner
 * has set up two heirs, one after the other, and neither reseal reached the server. The session expires and a
 * lock pass asks for the first vault's bundle. Before it is answered the owner signs in: the unlock
 * repairs the first vault, and while it waits for the repair of the second, the old answer arrives.
 */
module LateRun {
  import opened Wrappers
  import opened Crypto
  import opened EmailText
  import opened Ordering
  import opened VaultStores
  import opened Credentials
  import opened SignIn
  import opened Awaits
  import opened AwaitInvariants
  import opened CredentialRuns
  import opened LateAnswers
  import opened RunToCompletion

  /** The two vaults, older first, and what they were set up with. */
  datatype Heirs = Heirs(first: Draft, second: Draft, firstToken: string, secondToken: string,
                         password: string, params: KdfParams) {
    predicate Real() {
      && first.id != "" && second.id != "" && first.id != second.id && password != ""
      && firstToken != "" && firstToken != PLACEHOLDER_OWNER_TOKEN
      && secondToken != "" && secondToken != PLACEHOLDER_OWNER_TOKEN
      && first.ownerAddress == second.ownerAddress
      && Trim(first.ownerAddress) != "" && LooksLikeEmail(Trim(first.ownerAddress))
      && KeyLeq(SortKey(first.createdAt, first.id), SortKey(second.createdAt, second.id))
    }

    function Hash(): string {
      HashEmailForLookup(Trim(first.ownerAddress))
    }

    function K(): Key {
      Kek(password, params)
    }

    /** All the server has of either vault, and the lock made from it. */
    function Placeholder(): Bundle {
      Bundle(params, Seal(K(), PLACEHOLDER_OWNER_TOKEN))
    }

    function PlaceholderLock(): LockedOwnerToken {
      Candidate(Placeholder(), Hash())
    }

    function RepairedLock(token: string): LockedOwnerToken {
      LockedOwnerToken(params, Seal(K(), token), Hash(), true)
    }

    function BareA(): VaultMeta {
      SetupMeta(first, firstToken, None)
    }

    function BareB(): VaultMeta {
      SetupMeta(second, secondToken, None)
    }

    function A(lock: LockedOwnerToken): VaultMeta {
      BareA().(ownerTokenLock := Some(lock))
    }

    function B(lock: LockedOwnerToken): VaultMeta {
      BareB().(ownerTokenLock := Some(lock))
    }

    function FixA(): Repair {
      Repair(A(PlaceholderLock()), firstToken, Seal(K(), firstToken))
    }

    function FixB(): Repair {
      Repair(B(PlaceholderLock()), secondToken, Seal(K(), secondToken))
    }

    function On(a: VaultMeta, b: VaultMeta): Store {
      Store(map[first.id := a, second.id := b], [first.id, second.id], map[], Some(first.id))
    }

    function Truths(): Truths {
      map[first.id := Truth(firstToken, password), second.id := Truth(secondToken, password)]
    }

    function U(phase: Phase): Unlocking {
      Unlocking(first.id, password, Hash(), phase)
    }

    function SetupA(): Event {
      PasswordSetup(first, firstToken, password, params, false, false)
    }

    function SetupB(): Event {
      PasswordSetup(second, secondToken, password, params, false, false)
    }

    /** Two setups; the session expires on the first vault, and the owner signs in during the pass. */
    function Opening(): seq<Event> {
      [SetupA(), SetupB(), Activate(Some(first.id)), PassBegin(0), PassTurnOf(0), UnlockBegin(0, first.id, password)]
    }

    /** The unlock seeds both vaults with what the server has, and reads them. */
    function Reading(): seq<Event> {
      var answer := SeedAnswer(0, Some(Placeholder()));
      [SeedTurnOf(0), answer, SeedTurnOf(0), answer, ReadVaults(0)]
    }

    /** It repairs the first vault and starts to repair the second. */
    function Repairing(): seq<Event> {
      [TryTurnOf(0), RepairAnswer(0, true), TryTurnOf(0)]
    }

    /** The pass gets its answer, and then the unlock gets the answer to its second repair. */
    function Overtaking(): seq<Event> {
      [PassAnswer(0, Some(Placeholder())), PassTurnOf(0), RepairAnswer(0, true)]
    }

    /** The run, up to the end of the unlock. */
    function Run(): seq<Event> {
      Opening() + Reading() + Repairing() + Overtaking()
    }

    /** The unlock as the run leaves it: nothing left but its last write. */
    function Ending(): Unlocking {
      U(Trying([], None, map[first.id := firstToken, second.id := secondToken], {first.id}))
    }
  }

  // ----- the two vaults in storage -----

  ghost predicate TwoVaults(c: Heirs, s: Store, a: VaultMeta, b: VaultMeta) {
    && s == c.On(a, b) && a.id == c.first.id && b.id == c.second.id && c.first.id != c.second.id
    && a.createdAt == c.first.createdAt && b.createdAt == c.second.createdAt
    && KeyLeq(MetaKey(a), MetaKey(b))
  }

  lemma TwoListed(c: Heirs, s: Store, a: VaultMeta, b: VaultMeta)
    requires TwoVaults(c, s, a, b)
    ensures s.Valid() && s.AllVaultMetas() == [a, b]
  {
    assert s.Entries() == [a, b];
    assert [a, b][1..] == [b] && [b][1..] == [];
    assert Sort([b], MetaKey) == [b];
    assert Insert(a, [b], MetaKey) == [a] + [b];
  }

  lemma TwoMatch(c: Heirs, s: Store, a: VaultMeta, b: VaultMeta, emailHash: string)
    requires TwoVaults(c, s, a, b) && SealedFor(a, emailHash) && SealedFor(b, emailHash)
    ensures s.Valid() && Matching(s, emailHash, c.first.id) == [a, b]
  {
    TwoListed(c, s, a, b);
    hide Store.Valid, Store.AllVaultMetas, TwoVaults;
    assert a.id == c.first.id != b.id by { TwoIds(c, s, a, b); }
    assert [a, b][1..] == [b] && [b][1..] == [];
    assert WithHash([b], emailHash) == [b];
    assert WithHash([a, b], emailHash) == [a, b];
    assert Only([b], c.first.id) == [];
    assert Only([a, b], c.first.id) == [a];
    assert Without([b], c.first.id) == [b];
    assert Without([a, b], c.first.id) == [b];
  }

  lemma TwoIds(c: Heirs, s: Store, a: VaultMeta, b: VaultMeta)
    requires TwoVaults(c, s, a, b)
    ensures a.id == c.first.id != b.id
  {}

  lemma CachedTwo(c: Heirs, a: VaultMeta, b: VaultMeta, lock: LockedOwnerToken)
    requires TwoVaults(c, c.On(a, b), a, b)
    ensures Usable(a.ownerToken) ==>
              c.On(a, b).SaveVaultCredentialLock(a.id, lock) == c.On(a.(ownerTokenLock := Some(lock)), b)
    ensures Usable(b.ownerToken) ==>
              c.On(a, b).SaveVaultCredentialLock(b.id, lock) == c.On(a, b.(ownerTokenLock := Some(lock)))
  {}

  // ----- where the run stands -----

  /** The device with both vaults, a pass and an unlock; the server has the placeholder of each. */
  ghost predicate Stage(c: Heirs, w: World, a: VaultMeta, b: VaultMeta, passes: map<nat, Pass>,
                        unlocks: map<nat, Unlocking>) {
    && TwoVaults(c, w.store, a, b)
    && a.ownerToken == Some(c.firstToken) && b.ownerToken == Some(c.secondToken)
    && a.ownerAddress == b.ownerAddress == Trim(c.first.ownerAddress)
    && w.truths == c.Truths() && w.passes == passes && w.unlocks == unlocks
    && WasUploaded(w, c.first.id, c.Placeholder()) && WasUploaded(w, c.second.id, c.Placeholder())
  }

  /** Neither vault is repaired, or the repair of the first has been overwritten. */
  ghost predicate FirstStage(c: Heirs, w: World, pass: Pass, u: Unlocking) {
    Stage(c, w, c.A(c.PlaceholderLock()), c.B(c.PlaceholderLock()), map[0 := pass], map[0 := u])
  }

  /** The first vault is repaired. */
  ghost predicate MiddleStage(c: Heirs, w: World, pass: Pass, u: Unlocking) {
    Stage(c, w, c.A(c.RepairedLock(c.firstToken)), c.B(c.PlaceholderLock()), map[0 := pass], map[0 := u])
  }

  /** The second vault is repaired, and the first one's repair has been overwritten. */
  ghost predicate LastStage(c: Heirs, w: World, pass: Pass, u: Unlocking) {
    Stage(c, w, c.A(c.PlaceholderLock()), c.B(c.RepairedLock(c.secondToken)), map[0 := pass], map[0 := u])
  }

  /** The events lead from the empty device here without interruption. */
  ghost predicate Reaches(es: seq<Event>, w: World) {
    && WorldGood(EMPTY_WORLD) && Possible(EMPTY_WORLD, es) && Uninterrupted(EMPTY_WORLD, es)
    && RunAll(EMPTY_WORLD, es) == w
  }

  lemma NothingReached()
    ensures Reaches([], EMPTY_WORLD)
  {
    EmptyWorldIsGood();
  }

  /** One step of the run: the event is possible here, interrupts nothing, and leads there. */
  ghost predicate Leads(w: World, e: Event, v: World) {
    w.store.Valid() && Enabled(w, e) && Waits(w, e) && !e.FinishUnlock? && Step(w, e) == v
  }

  lemma Reach(es: seq<Event>, w: World, e: Event, v: World)
    requires Reaches(es, w) && Leads(w, e, v)
    ensures Reaches(es + [e], v)
  {
    hide WorldGood, Enabled, Step, Waits;
    UninterruptedThen(EMPTY_WORLD, es, e);
  }

  // ----- what single events do -----

  lemma WaitsFor(w: World, e: Event, passes: map<nat, Pass>, unlocks: map<nat, Unlocking>)
    requires w.passes == passes && w.unlocks == unlocks
    requires forall p :: p in passes && PassRuns(passes[p]) ==> e == PassTurnOf(p)
    requires forall u :: u in unlocks && UnlockRuns(unlocks[u]) ==> IsStepOf(e, u)
    ensures Waits(w, e)
  {}

  lemma PassAsks(w: World, p: nat, meta: VaultMeta, rest: seq<VaultMeta>)
    requires w.store.Valid() && p in w.passes && w.passes[p] == Pass([meta] + rest, None)
    requires Usable(w.store.OwnerToken(meta.id)) && LooksLikeEmail(meta.ownerAddress) && meta.ownerTokenLock.None?
    ensures Enabled(w, PassTurnOf(p))
    ensures Step(w, PassTurnOf(p)) == w.(passes := w.passes[p := Pass(rest, Some(meta))])
  {
    hide Store.Valid, LooksLikeEmail, Store.OwnerToken;
    UnnotedStores(w, w.store);
  }

  lemma SeedAsks(w: World, at: Unlocking, meta: VaultMeta, rest: seq<VaultMeta>)
    requires w.store.Valid() && w.unlocks == map[0 := at] && at.phase == Seeding([meta] + rest, None)
    requires Usable(w.store.OwnerToken(meta.id)) && HashEmailForLookup(meta.ownerAddress) == at.emailHash
    requires meta.ownerTokenLock.None?
    ensures Enabled(w, SeedTurnOf(0))
    ensures Step(w, SeedTurnOf(0)) == w.(unlocks := map[0 := at.(phase := Seeding(rest, Some(meta)))])
  {
    hide Store.Valid, HashEmailForLookup, Store.OwnerToken;
  }

  lemma SeedStores(w: World, at: Unlocking, meta: VaultMeta, rest: seq<VaultMeta>, b: Bundle)
    requires w.store.Valid() && w.unlocks == map[0 := at] && at.phase == Seeding(rest, Some(meta))
    requires WasUploaded(w, meta.id, b)
    ensures Enabled(w, SeedAnswer(0, Some(b)))
    ensures Step(w, SeedAnswer(0, Some(b)))
         == w.(store := w.store.SaveVaultCredentialLock(meta.id, Candidate(b, at.emailHash)),
               unlocks := map[0 := at.(phase := Seeding(rest, None))])
  {
    hide Store.Valid, Store.SaveVaultCredentialLock, AnswerNote;
  }

  lemma ReadsAll(w: World, at: Unlocking, metas: seq<VaultMeta>)
    requires w.store.Valid() && w.unlocks == map[0 := at] && at.phase == Seeding([], None)
    requires w.store.LockOf(at.localId).Some? && w.store.LockOf(at.localId).value.ownerEmailHash == at.emailHash
    requires Matching(w.store, at.emailHash, at.localId) == metas
    ensures Enabled(w, ReadVaults(0))
    ensures Step(w, ReadVaults(0)) == w.(unlocks := map[0 := at.(phase := Trying(metas, None, map[], {}))])
  {
    hide Store.Valid, Matching, Store.LockOf;
  }

  lemma TryRepairs(w: World, at: Unlocking, m: VaultMeta, rest: seq<VaultMeta>, tokens: map<VaultId, string>,
                   late: set<VaultId>, token: string)
    requires w.store.Valid() && w.unlocks == map[0 := at] && at.phase == Trying([m] + rest, None, tokens, late)
    requires m.ownerTokenLock.Some? && Decrypted(m, at.password) == Some(PLACEHOLDER_OWNER_TOKEN)
    requires w.store.OwnerToken(m.id) == Some(token) && token != "" && token != PLACEHOLDER_OWNER_TOKEN
    ensures var kek := Kek(at.password, m.ownerTokenLock.value.params);
            var r := Repair(m, token, Seal(kek, token));
            && Enabled(w, TryTurnOf(0))
            && Step(w, TryTurnOf(0))
               == w.(unlocks := map[0 := at.(phase := Trying(rest, Some(r), tokens, late))],
                     uploaded := Upload(w.uploaded, m.id, Bundle(m.ownerTokenLock.value.params, r.blob)))
  {
    hide Store.Valid, Decrypted, Store.OwnerToken, Upload;
  }

  lemma RepairStores(w: World, at: Unlocking, r: Repair, rest: seq<VaultMeta>, tokens: map<VaultId, string>,
                     late: set<VaultId>)
    requires w.store.Valid() && w.unlocks == map[0 := at] && at.phase == Trying(rest, Some(r), tokens, late)
    requires r.meta.ownerTokenLock.Some? && AtRest(w, r.meta.id) && HoldsFor(w.truths, r.meta.id, RepairLock(r))
    ensures Enabled(w, RepairAnswer(0, true))
    ensures var taken, stillLate := tokens[r.meta.id := r.liveToken], late - {r.meta.id};
            Step(w, RepairAnswer(0, true))
            == w.(store := w.store.SaveVaultCredentialLock(r.meta.id, RepairLock(r)),
                  unlocks := map[0 := at.(phase := Trying(rest, None, taken, stillLate))])
  {
    hide Store.Valid, RepairLock, HoldsFor, Store.SaveVaultCredentialLock;
  }

  lemma LateAnswerStores(w: World, at: Unlocking, meta: VaultMeta, asleep: seq<VaultMeta>, b: Bundle,
                         rest: seq<VaultMeta>, repair: Option<Repair>, tokens: map<VaultId, string>, late: set<VaultId>)
    requires w.store.Valid() && w.unlocks == map[0 := at] && at.phase == Trying(rest, repair, tokens, late)
    requires w.passes == map[0 := Pass(asleep, Some(meta))]
    requires WasUploaded(w, meta.id, b) && AtRest(w, meta.id)
    requires !HoldsFor(w.truths, meta.id, Candidate(b, HashEmailForLookup(meta.ownerAddress)))
    ensures Enabled(w, PassAnswer(0, Some(b)))
    ensures Step(w, PassAnswer(0, Some(b)))
         == w.(store := w.store.SaveVaultCredentialLock(meta.id, Candidate(b, HashEmailForLookup(meta.ownerAddress))),
               passes := map[0 := Pass(asleep, None)],
               unlocks := map[0 := at.(phase := Trying(rest, repair, tokens, late + {meta.id}))])
  {
    hide Store.Valid, HoldsFor, Store.SaveVaultCredentialLock, HashEmailForLookup;
  }

  // ----- the run, event by event -----

  lemma Bare(c: Heirs)
    requires c.Real()
    ensures TwoVaults(c, c.On(c.BareA(), c.BareB()), c.BareA(), c.BareB())
    ensures c.BareA().ownerTokenLock.None? && c.BareB().ownerTokenLock.None?
    ensures c.BareA().ownerToken == Some(c.firstToken) && c.BareB().ownerToken == Some(c.secondToken)
    ensures c.BareA().ownerAddress == c.BareB().ownerAddress == Trim(c.first.ownerAddress)
  {}

  lemma SetUpStores(c: Heirs)
    requires c.Real()
    ensures EMPTY_STORE.SaveVaultMeta(c.BareA()).SaveVaultMeta(c.BareB()).SetActive(Some(c.first.id))
         == c.On(c.BareA(), c.BareB())
  {
    hide Trim;
    assert [c.first.id] + [c.second.id] == [c.first.id, c.second.id];
  }

  lemma SetsUpFirst(c: Heirs) returns (w: World)
    requires c.Real()
    ensures Leads(EMPTY_WORLD, c.SetupA(), w)
    ensures w.store == EMPTY_STORE.SaveVaultMeta(c.BareA()) && w.passes == map[] && w.unlocks == map[]
    ensures w.truths == map[c.first.id := Truth(c.firstToken, c.password)]
    ensures w.uploaded == map[c.first.id := {c.Placeholder()}]
  {
    SetupUploads(EMPTY_WORLD, c.first, c.firstToken, c.password, c.params, false, false);
    SetupTruths(EMPTY_WORLD, c.first, c.firstToken, c.password, c.params, false, false);
    w := SetUp(EMPTY_WORLD, c.first, c.firstToken, c.password, c.params, false, false);
    hide Store.SaveVaultMeta, HashEmailForLookup, Trim, LooksLikeEmail, KeyLeq;
    WaitsFor(EMPTY_WORLD, c.SetupA(), map[], map[]);
  }

  lemma SetsUpSecond(c: Heirs, w: World) returns (v: World)
    requires c.Real()
    requires w.store == EMPTY_STORE.SaveVaultMeta(c.BareA()) && w.passes == map[] && w.unlocks == map[]
    requires w.truths == map[c.first.id := Truth(c.firstToken, c.password)]
    requires w.uploaded == map[c.first.id := {c.Placeholder()}]
    ensures Leads(w, c.SetupB(), v)
    ensures v.store == w.store.SaveVaultMeta(c.BareB()) && v.passes == map[] && v.unlocks == map[]
    ensures v.truths == c.Truths()
    ensures v.uploaded == map[c.first.id := {c.Placeholder()}, c.second.id := {c.Placeholder()}]
  {
    SaveKeepsValid(EMPTY_STORE, c.BareA());
    SetupUploads(w, c.second, c.secondToken, c.password, c.params, false, false);
    SetupTruths(w, c.second, c.secondToken, c.password, c.params, false, false);
    v := SetUp(w, c.second, c.secondToken, c.password, c.params, false, false);
    hide Store.SaveVaultMeta, Store.Valid, HashEmailForLookup, Trim, LooksLikeEmail, KeyLeq;
    WaitsFor(w, c.SetupB(), map[], map[]);
  }

  lemma TurnsTo(v: World, id: VaultId)
    requires v.store.Valid()
    ensures Enabled(v, Activate(Some(id)))
    ensures Step(v, Activate(Some(id))) == v.(store := v.store.SetActive(Some(id)))
  {
    hide Store.Valid, Store.SetActive;
  }

  /** Two vaults, and the owner turns to the older one; then the session expires. */
  lemma TurnsToFirst(c: Heirs, v: World) returns (w: World)
    requires c.Real() && v.store == EMPTY_STORE.SaveVaultMeta(c.BareA()).SaveVaultMeta(c.BareB())
    requires v.passes == map[] && v.unlocks == map[] && v.truths == c.Truths()
    requires v.uploaded == map[c.first.id := {c.Placeholder()}, c.second.id := {c.Placeholder()}]
    ensures Leads(v, Activate(Some(c.first.id)), w) && Stage(c, w, c.BareA(), c.BareB(), map[], map[])
  {
    SaveKeepsValid(EMPTY_STORE, c.BareA());
    SaveKeepsValid(EMPTY_STORE.SaveVaultMeta(c.BareA()), c.BareB());
    SetUpStores(c);
    Bare(c);
    w := v.(store := v.store.SetActive(Some(c.first.id)));
    hide Store.SaveVaultMeta, Store.SetActive, Store.Valid, Heirs.On, Heirs.BareA, Heirs.BareB, TwoVaults, Heirs.Real,
      Enabled, Step, Waits, Heirs.Truths, Heirs.Placeholder;
    TurnsTo(v, c.first.id);
    WaitsFor(v, Activate(Some(c.first.id)), map[], map[]);
  }

  lemma PassStarts(c: Heirs, w: World) returns (v: World)
    requires c.Real() && Stage(c, w, c.BareA(), c.BareB(), map[], map[])
    ensures Leads(w, PassBegin(0), v)
    ensures Stage(c, v, c.BareA(), c.BareB(), map[0 := Pass([c.BareA(), c.BareB()], None)], map[])
  {
    TwoListed(c, w.store, c.BareA(), c.BareB());
    v := w.(passes := map[0 := Pass([c.BareA(), c.BareB()], None)]);
    hide Store.Valid, Store.AllVaultMetas, Heirs.BareA, Heirs.BareB, TwoVaults, Heirs.Real;
    WaitsFor(w, PassBegin(0), map[], map[]);
  }

  lemma StageValid(c: Heirs, w: World, a: VaultMeta, b: VaultMeta, passes: map<nat, Pass>, unlocks: map<nat, Unlocking>)
    requires Stage(c, w, a, b, passes, unlocks)
    ensures w.store.Valid()
  {
    TwoListed(c, w.store, a, b);
  }

  lemma TokensReadable(c: Heirs, w: World, a: VaultMeta, b: VaultMeta, passes: map<nat, Pass>,
                       unlocks: map<nat, Unlocking>)
    requires c.Real() && Stage(c, w, a, b, passes, unlocks)
    ensures w.store.OwnerToken(c.first.id) == Some(c.firstToken)
    ensures w.store.OwnerToken(c.second.id) == Some(c.secondToken)
    ensures AtRest(w, c.first.id) && AtRest(w, c.second.id)
    ensures a.id == c.first.id && b.id == c.second.id
    ensures LooksLikeEmail(a.ownerAddress) && HashEmailForLookup(a.ownerAddress) == c.Hash()
    ensures LooksLikeEmail(b.ownerAddress) && HashEmailForLookup(b.ownerAddress) == c.Hash()
  {
    hide HashEmailForLookup, LooksLikeEmail, Trim;
  }

  /** A pass at a bare vault asks for its bundle. */
  lemma PassAsksFor(c: Heirs, w: World, a: VaultMeta, b: VaultMeta, unlocks: map<nat, Unlocking>, m: VaultMeta,
                    rest: seq<VaultMeta>)
    returns (v: World)
    requires c.Real() && Stage(c, w, a, b, map[0 := Pass([m] + rest, None)], unlocks)
    requires (m == c.BareA() || m == c.BareB()) && forall u :: u in unlocks ==> !UnlockRuns(unlocks[u])
    ensures Leads(w, PassTurnOf(0), v) && Stage(c, v, a, b, map[0 := Pass(rest, Some(m))], unlocks)
  {
    var pass := Pass([m] + rest, None);
    StageValid(c, w, a, b, map[0 := pass], unlocks);
    TokensReadable(c, w, a, b, map[0 := pass], unlocks);
    BareReadable(c, m);
    v := w.(passes := map[0 := Pass(rest, Some(m))]);
    StagePasses(c, w, a, b, map[0 := pass], unlocks, map[0 := Pass(rest, Some(m))]);
    assert w.passes == map[0 := pass] && w.unlocks == unlocks;
    hide Stage, Store.Valid, Heirs.BareA, Heirs.BareB, LooksLikeEmail, Step, Enabled, Store.OwnerToken,
      HashEmailForLookup, AtRest, Heirs.Real, Waits;
    PassAsks(w, 0, m, rest);
    WaitsFor(w, PassTurnOf(0), map[0 := pass], unlocks);
  }

  lemma StagePasses(c: Heirs, w: World, a: VaultMeta, b: VaultMeta, passes: map<nat, Pass>,
                    unlocks: map<nat, Unlocking>, later: map<nat, Pass>)
    requires Stage(c, w, a, b, passes, unlocks)
    ensures Stage(c, w.(passes := later), a, b, later, unlocks)
  {
    hide TwoVaults, Trim, Heirs.Truths, Heirs.Placeholder;
  }

  lemma StageMoves(c: Heirs, w: World, a: VaultMeta, b: VaultMeta, passes: map<nat, Pass>,
                   unlocks: map<nat, Unlocking>, later: map<nat, Unlocking>)
    requires Stage(c, w, a, b, passes, unlocks)
    ensures Stage(c, w.(unlocks := later), a, b, passes, later)
  {
    hide TwoVaults, Trim, Heirs.Truths, Heirs.Placeholder;
  }

  /** The pass waits for its answer; the owner signs in to the vault the device offers. */
  lemma SignsIn(c: Heirs, w: World, pass: Pass) returns (v: World)
    requires c.Real() && !PassRuns(pass) && Stage(c, w, c.BareA(), c.BareB(), map[0 := pass], map[])
    ensures w.store.Valid() && w.store.TrustedVaultId() == Some(c.first.id)
    ensures Leads(w, UnlockBegin(0, c.first.id, c.password), v)
    ensures Stage(c, v, c.BareA(), c.BareB(), map[0 := pass], map[0 := c.U(Seeding([c.BareA(), c.BareB()], None))])
  {
    var a, b := c.BareA(), c.BareB();
    var later := map[0 := c.U(Seeding([a, b], None))];
    OffersFirst(c, w.store, a, b);
    v := w.(unlocks := later);
    StageMoves(c, w, a, b, map[0 := pass], map[], later);
    assert w.passes == map[0 := pass] && w.unlocks == map[];
    hide Stage, Store.Valid, Store.AllVaultMetas, Heirs.BareA, Heirs.BareB, HashEmailForLookup, Heirs.Hash,
      Heirs.Real, Offered, Store.TrustedVaultId, Waits;
    WaitsFor(w, UnlockBegin(0, c.first.id, c.password), map[0 := pass], map[]);
  }

  lemma OffersFirst(c: Heirs, s: Store, a: VaultMeta, b: VaultMeta)
    requires c.Real() && TwoVaults(c, s, a, b) && a == c.BareA() && b == c.BareB()
    ensures s.Valid() && s.AllVaultMetas() == [a, b] && s.TrustedVaultId() == Some(c.first.id)
    ensures Offered(s, c.first.id, c.password) && HashEmailForLookup(s.metas[c.first.id].ownerAddress) == c.Hash()
  {
    TwoListed(c, s, a, b);
    hide Store.Valid, Store.AllVaultMetas, HashEmailForLookup, LooksLikeEmail, Trim;
  }

  /** A turn of the seeding loop that asks for the bundle of a vault without a lock. */
  lemma SeedingAsks(c: Heirs, w: World, a: VaultMeta, b: VaultMeta, pass: Pass, m: VaultMeta, rest: seq<VaultMeta>)
    returns (v: World)
    requires c.Real() && !PassRuns(pass) && (m == c.BareA() || m == c.BareB())
    requires Stage(c, w, a, b, map[0 := pass], map[0 := c.U(Seeding([m] + rest, None))])
    ensures Leads(w, SeedTurnOf(0), v)
    ensures Stage(c, v, a, b, map[0 := pass], map[0 := c.U(Seeding(rest, Some(m)))])
  {
    var at, later := c.U(Seeding([m] + rest, None)), map[0 := c.U(Seeding(rest, Some(m)))];
    StageValid(c, w, a, b, map[0 := pass], map[0 := at]);
    TokensReadable(c, w, a, b, map[0 := pass], map[0 := at]);
    BareReadable(c, m);
    v := w.(unlocks := later);
    StageMoves(c, w, a, b, map[0 := pass], map[0 := at], later);
    assert w.passes == map[0 := pass] && w.unlocks == map[0 := at];
    hide Stage, Store.Valid, Heirs.BareA, Heirs.BareB, LooksLikeEmail, Step, Enabled, Store.OwnerToken,
      HashEmailForLookup, AtRest, Heirs.Hash, Heirs.Real, Waits;
    SeedAsks(w, at, m, rest);
    WaitsFor(w, SeedTurnOf(0), map[0 := pass], map[0 := at]);
  }

  lemma BareReadable(c: Heirs, m: VaultMeta)
    requires c.Real() && (m == c.BareA() || m == c.BareB())
    ensures m.id == c.first.id || m.id == c.second.id
    ensures m.ownerTokenLock.None? && HashEmailForLookup(m.ownerAddress) == c.Hash() && LooksLikeEmail(m.ownerAddress)
    ensures c.firstToken != "" && c.secondToken != ""
  {
    hide HashEmailForLookup, Trim, LooksLikeEmail;
  }

  /** A lock put beside the token of one of the two vaults. */
  lemma Relocked(c: Heirs, s: Store, a: VaultMeta, b: VaultMeta, lock: LockedOwnerToken)
    requires c.Real() && TwoVaults(c, s, a, b) && Usable(a.ownerToken) && Usable(b.ownerToken)
    ensures var a2 := a.(ownerTokenLock := Some(lock));
            TwoVaults(c, s.SaveVaultCredentialLock(c.first.id, lock), a2, b)
    ensures var b2 := b.(ownerTokenLock := Some(lock));
            TwoVaults(c, s.SaveVaultCredentialLock(c.second.id, lock), a, b2)
  {
    CachedTwo(c, a, b, lock);
  }

  /** The stage after a lock was put beside the first, or the second, token. */
  lemma StageRelocked(c: Heirs, w: World, a: VaultMeta, b: VaultMeta, passes: map<nat, Pass>,
                      unlocks: map<nat, Unlocking>, lock: LockedOwnerToken, v: World)
    requires c.Real() && Stage(c, w, a, b, passes, unlocks) && v.truths == w.truths && v.uploaded == w.uploaded
    ensures v.store == w.store.SaveVaultCredentialLock(c.first.id, lock) ==>
              Stage(c, v, a.(ownerTokenLock := Some(lock)), b, v.passes, v.unlocks)
    ensures v.store == w.store.SaveVaultCredentialLock(c.second.id, lock) ==>
              Stage(c, v, a, b.(ownerTokenLock := Some(lock)), v.passes, v.unlocks)
  {
    Relocked(c, w.store, a, b, lock);
    hide TwoVaults, Store.SaveVaultCredentialLock, Trim, LooksLikeEmail, Heirs.Truths, Heirs.Placeholder;
  }

  lemma StageUploaded(c: Heirs, w: World, a: VaultMeta, b: VaultMeta, passes: map<nat, Pass>,
                      unlocks: map<nat, Unlocking>)
    requires Stage(c, w, a, b, passes, unlocks)
    ensures WasUploaded(w, c.first.id, c.Placeholder()) && WasUploaded(w, c.second.id, c.Placeholder())
    ensures w.truths == c.Truths() && w.passes == passes && w.unlocks == unlocks
  {}

  /** The server answers the unlock with the placeholder bundle, which becomes a candidate lock. */
  lemma SeedAnswered(c: Heirs, w: World, a: VaultMeta, b: VaultMeta, pass: Pass, m: VaultMeta, rest: seq<VaultMeta>)
    returns (v: World)
    requires c.Real() && !PassRuns(pass) && (m == c.BareA() || m == c.BareB())
    requires Stage(c, w, a, b, map[0 := pass], map[0 := c.U(Seeding(rest, Some(m)))])
    ensures Leads(w, SeedAnswer(0, Some(c.Placeholder())), v)
    ensures var lock := Some(c.PlaceholderLock());
            Stage(c, v, if m.id == c.first.id then a.(ownerTokenLock := lock) else a,
                  if m.id == c.first.id then b else b.(ownerTokenLock := lock),
                  map[0 := pass], map[0 := c.U(Seeding(rest, None))])
  {
    var at := c.U(Seeding(rest, Some(m)));
    StageValid(c, w, a, b, map[0 := pass], map[0 := at]);
    StageUploaded(c, w, a, b, map[0 := pass], map[0 := at]);
    BareReadable(c, m);
    v := w.(store := w.store.SaveVaultCredentialLock(m.id, c.PlaceholderLock()),
            unlocks := map[0 := c.U(Seeding(rest, None))]);
    StageRelocked(c, w, a, b, map[0 := pass], map[0 := at], c.PlaceholderLock(), v);
    hide Stage, Store.Valid, Heirs.BareA, Heirs.BareB, LooksLikeEmail, Step, Enabled, Store.SaveVaultCredentialLock,
      HashEmailForLookup, Heirs.Hash, Heirs.Real, Heirs.Placeholder, WasUploaded, Waits;
    SeedStores(w, at, m, rest, c.Placeholder());
    WaitsFor(w, SeedAnswer(0, Some(c.Placeholder())), map[0 := pass], map[0 := at]);
  }

  lemma MatchFacts(c: Heirs, s: Store, a: VaultMeta, b: VaultMeta)
    requires TwoVaults(c, s, a, b) && a == c.A(c.PlaceholderLock()) && b == c.B(c.PlaceholderLock())
    ensures s.Valid() && Matching(s, c.Hash(), c.first.id) == [a, b]
    ensures s.LockOf(c.first.id).Some? && s.LockOf(c.first.id).value.ownerEmailHash == c.Hash()
  {
    TwoMatch(c, s, a, b, c.Hash());
    hide Matching, Store.Valid, HashEmailForLookup, Trim;
  }

  lemma VaultsRead(c: Heirs, w: World, pass: Pass) returns (v: World)
    requires c.Real() && !PassRuns(pass)
    requires Stage(c, w, c.A(c.PlaceholderLock()), c.B(c.PlaceholderLock()), map[0 := pass],
                   map[0 := c.U(Seeding([], None))])
    ensures Leads(w, ReadVaults(0), v)
    ensures var a, b := c.A(c.PlaceholderLock()), c.B(c.PlaceholderLock());
            Stage(c, v, a, b, map[0 := pass], map[0 := c.U(Trying([a, b], None, map[], {}))])
  {
    var a, b := c.A(c.PlaceholderLock()), c.B(c.PlaceholderLock());
    var at, later := c.U(Seeding([], None)), map[0 := c.U(Trying([a, b], None, map[], {}))];
    MatchFacts(c, w.store, a, b);
    v := w.(unlocks := later);
    StageMoves(c, w, a, b, map[0 := pass], map[0 := at], later);
    assert w.passes == map[0 := pass] && w.unlocks == map[0 := at];
    hide Stage, Heirs.A, Heirs.B, Heirs.PlaceholderLock, Matching, Heirs.Hash, Store.Valid, Store.LockOf, Enabled, Step,
      Waits, Heirs.Real;
    ReadsAll(w, at, [a, b]);
    WaitsFor(w, ReadVaults(0), map[0 := pass], map[0 := at]);
  }

  lemma StageUploads(c: Heirs, w: World, a: VaultMeta, b: VaultMeta, passes: map<nat, Pass>,
                     unlocks: map<nat, Unlocking>, id: VaultId, bundle: Bundle, later: map<nat, Unlocking>)
    requires Stage(c, w, a, b, passes, unlocks)
    ensures Stage(c, w.(unlocks := later, uploaded := Upload(w.uploaded, id, bundle)), a, b, passes, later)
  {
    hide TwoVaults, Trim, Heirs.Truths, Heirs.Placeholder;
  }

  lemma FixFacts(c: Heirs, r: Repair)
    requires c.Real() && (r == c.FixA() || r == c.FixB())
    ensures r.meta.ownerTokenLock.Some? && r.meta.ownerTokenLock.value.params == c.params
    ensures Decrypted(r.meta, c.password) == Some(PLACEHOLDER_OWNER_TOKEN)
    ensures r.liveToken != "" && r.liveToken != PLACEHOLDER_OWNER_TOKEN
    ensures r == c.FixA() ==> r.meta.id == c.first.id && r.liveToken == c.firstToken
    ensures r == c.FixB() ==> r.meta.id == c.second.id && r.liveToken == c.secondToken
    ensures r.blob == Seal(Kek(c.password, c.params), r.liveToken)
    ensures RepairLock(r) == c.RepairedLock(r.liveToken) && HoldsFor(c.Truths(), r.meta.id, RepairLock(r))
  {
    hide HashEmailForLookup, Trim, LooksLikeEmail;
  }

  /** A turn of the opening loop that finds the placeholder and starts a repair. */
  lemma RepairStarts(c: Heirs, w: World, a: VaultMeta, b: VaultMeta, pass: Pass, r: Repair,
                     rest: seq<VaultMeta>, tokens: map<VaultId, string>, late: set<VaultId>)
    returns (v: World)
    requires c.Real() && !PassRuns(pass) && (r == c.FixA() || r == c.FixB())
    requires Stage(c, w, a, b, map[0 := pass], map[0 := c.U(Trying([r.meta] + rest, None, tokens, late))])
    ensures Leads(w, TryTurnOf(0), v)
    ensures Stage(c, v, a, b, map[0 := pass], map[0 := c.U(Trying(rest, Some(r), tokens, late))])
  {
    var at := c.U(Trying([r.meta] + rest, None, tokens, late));
    var later := map[0 := c.U(Trying(rest, Some(r), tokens, late))];
    StageValid(c, w, a, b, map[0 := pass], map[0 := at]);
    StageUploaded(c, w, a, b, map[0 := pass], map[0 := at]);
    TokensReadable(c, w, a, b, map[0 := pass], map[0 := at]);
    FixFacts(c, r);
    v := w.(unlocks := later, uploaded := Upload(w.uploaded, r.meta.id, Bundle(c.params, r.blob)));
    StageUploads(c, w, a, b, map[0 := pass], map[0 := at], r.meta.id, Bundle(c.params, r.blob), later);
    hide Stage, Store.Valid, Step, Enabled, Heirs.FixA, Heirs.FixB, Decrypted, HashEmailForLookup, Heirs.Hash,
      Store.OwnerToken, LooksLikeEmail, AtRest, Upload, Heirs.Placeholder, Heirs.Real, Waits, HoldsFor, RepairLock;
    TryRepairs(w, at, r.meta, rest, tokens, late, r.liveToken);
    WaitsFor(w, TryTurnOf(0), map[0 := pass], map[0 := at]);
  }

  /** The server has stored a repair: the vault has its repaired lock, and the unlock the token. */
  lemma RepairDone(c: Heirs, w: World, a: VaultMeta, b: VaultMeta, pass: Pass, r: Repair,
                   rest: seq<VaultMeta>, tokens: map<VaultId, string>, late: set<VaultId>)
    returns (v: World)
    requires c.Real() && !PassRuns(pass) && (r == c.FixA() || r == c.FixB())
    requires Stage(c, w, a, b, map[0 := pass], map[0 := c.U(Trying(rest, Some(r), tokens, late))])
    ensures Leads(w, RepairAnswer(0, true), v)
    ensures var lock := Some(RepairLock(r));
            Stage(c, v, if r.meta.id == c.first.id then a.(ownerTokenLock := lock) else a,
                  if r.meta.id == c.first.id then b else b.(ownerTokenLock := lock), map[0 := pass],
                  map[0 := c.U(Trying(rest, None, tokens[r.meta.id := r.liveToken], late - {r.meta.id}))])
  {
    var at := c.U(Trying(rest, Some(r), tokens, late));
    var later := map[0 := c.U(Trying(rest, None, tokens[r.meta.id := r.liveToken], late - {r.meta.id}))];
    StageValid(c, w, a, b, map[0 := pass], map[0 := at]);
    StageUploaded(c, w, a, b, map[0 := pass], map[0 := at]);
    TokensReadable(c, w, a, b, map[0 := pass], map[0 := at]);
    FixFacts(c, r);
    v := w.(store := w.store.SaveVaultCredentialLock(r.meta.id, RepairLock(r)), unlocks := later);
    StageRelocked(c, w, a, b, map[0 := pass], map[0 := at], RepairLock(r), v);
    hide Stage, Store.Valid, Step, Enabled, Heirs.FixA, Heirs.FixB, Decrypted, HoldsFor, HashEmailForLookup, Heirs.Hash,
      Store.OwnerToken, LooksLikeEmail, AtRest, RepairLock, Heirs.RepairedLock, Store.SaveVaultCredentialLock,
      Heirs.Placeholder, Heirs.Truths, Heirs.Real, Waits;
    RepairStores(w, at, r, rest, tokens, late);
    WaitsFor(w, RepairAnswer(0, true), map[0 := pass], map[0 := at]);
  }

  /** The old answer for the first vault arrives while the second one's repair is waited for. */
  lemma OldAnswerArrives(c: Heirs, w: World, a: VaultMeta, b: VaultMeta, m: VaultMeta, asleep: seq<VaultMeta>,
                         r: Repair, tokens: map<VaultId, string>)
    returns (v: World)
    requires c.Real() && m == c.BareA()
    requires Stage(c, w, a, b, map[0 := Pass(asleep, Some(m))], map[0 := c.U(Trying([], Some(r), tokens, {}))])
    ensures Leads(w, PassAnswer(0, Some(c.Placeholder())), v)
    ensures Stage(c, v, a.(ownerTokenLock := Some(c.PlaceholderLock())), b, map[0 := Pass(asleep, None)],
                  map[0 := c.U(Trying([], Some(r), tokens, {c.first.id}))])
  {
    var pass, at := Pass(asleep, Some(m)), c.U(Trying([], Some(r), tokens, {}));
    StageValid(c, w, a, b, map[0 := pass], map[0 := at]);
    StageUploaded(c, w, a, b, map[0 := pass], map[0 := at]);
    TokensReadable(c, w, a, b, map[0 := pass], map[0 := at]);
    BareReadable(c, m);
    PlaceholderHoldsNothing(c);
    assert m.id == c.first.id && {} + {c.first.id} == {c.first.id};
    v := w.(store := w.store.SaveVaultCredentialLock(m.id, c.PlaceholderLock()), passes := map[0 := Pass(asleep, None)],
            unlocks := map[0 := c.U(Trying([], Some(r), tokens, {c.first.id}))]);
    StageRelocked(c, w, a, b, map[0 := pass], map[0 := at], c.PlaceholderLock(), v);
    hide Stage, Store.Valid, Step, Enabled, HoldsFor, HashEmailForLookup, Heirs.Hash, Store.OwnerToken, LooksLikeEmail,
      AtRest, Store.SaveVaultCredentialLock, Heirs.Placeholder, Heirs.Truths, Heirs.BareA, Heirs.BareB, WasUploaded,
      Heirs.Real, Waits;
    LateAnswerStores(w, at, m, asleep, c.Placeholder(), [], Some(r), tokens, {});
    WaitsFor(w, PassAnswer(0, Some(c.Placeholder())), map[0 := pass], map[0 := at]);
  }

  lemma PlaceholderHoldsNothing(c: Heirs)
    requires c.Real()
    ensures !HoldsFor(c.Truths(), c.first.id, c.PlaceholderLock())
  {
    hide HashEmailForLookup, Trim, LooksLikeEmail;
  }

  // ----- the run as a whole -----

  lemma Metas(c: Heirs, lock: LockedOwnerToken, other: LockedOwnerToken)
    ensures c.BareA().id == c.A(lock).id == c.first.id && c.BareB().id == c.B(lock).id == c.second.id
    ensures c.BareA().(ownerTokenLock := Some(lock)) == c.A(other).(ownerTokenLock := Some(lock)) == c.A(lock)
    ensures c.BareB().(ownerTokenLock := Some(lock)) == c.B(other).(ownerTokenLock := Some(lock)) == c.B(lock)
  {}

  lemma OneByOne(es: seq<Event>, e: Event, f: Event, g: Event)
    ensures es + [e] + [f] + [g] == es + [e, f, g]
  {}

  /** Both vaults are set up, and the first one is on show. */
  lemma BothSetUp(c: Heirs) returns (w: World)
    requires c.Real()
    ensures Reaches([] + [c.SetupA(), c.SetupB(), Activate(Some(c.first.id))], w)
    ensures Stage(c, w, c.BareA(), c.BareB(), map[], map[])
  {
    hide Reaches, Stage, Leads, Heirs.Real, Heirs.BareA, Heirs.BareB, Heirs.SetupA, Heirs.SetupB, Heirs.Placeholder,
      Heirs.Truths, Store.SaveVaultMeta;
    OneByOne([], c.SetupA(), c.SetupB(), Activate(Some(c.first.id)));
    NothingReached();
    var x := SetsUpFirst(c);
    Reach([], EMPTY_WORLD, c.SetupA(), x);
    var y := SetsUpSecond(c, x);
    Reach([] + [c.SetupA()], x, c.SetupB(), y);
    w := TurnsToFirst(c, y);
    Reach([] + [c.SetupA()] + [c.SetupB()], y, Activate(Some(c.first.id)), w);
  }

  /** The pass asks for the first bundle. */
  lemma FirstAsked(c: Heirs, es: seq<Event>, w: World) returns (v: World)
    requires c.Real() && Reaches(es, w) && Stage(c, w, c.BareA(), c.BareB(), map[], map[])
    ensures Reaches(es + [PassBegin(0)] + [PassTurnOf(0)], v)
    ensures Stage(c, v, c.BareA(), c.BareB(), map[0 := Pass([c.BareB()], Some(c.BareA()))], map[])
  {
    var a, b := c.BareA(), c.BareB();
    hide Reaches, Stage, Leads, Heirs.Real, Heirs.BareA, Heirs.BareB;
    assert [a] + [b] == [a, b];
    var x := PassStarts(c, w);
    Reach(es, w, PassBegin(0), x);
    v := PassAsksFor(c, x, a, b, map[], a, [b]);
    Reach(es + [PassBegin(0)], x, PassTurnOf(0), v);
  }

  /** It waits for the answer, and the owner has signed in. */
  lemma Begun(c: Heirs) returns (w: World)
    requires c.Real()
    ensures Reaches(c.Opening(), w)
    ensures Stage(c, w, c.BareA(), c.BareB(), map[0 := Pass([c.BareB()], Some(c.BareA()))],
                  map[0 := c.U(Seeding([c.BareA(), c.BareB()], None))])
  {
    var pass := Pass([c.BareB()], Some(c.BareA()));
    var signIn := UnlockBegin(0, c.first.id, c.password);
    var es := [] + [c.SetupA(), c.SetupB(), Activate(Some(c.first.id))];
    Asleep(pass);
    assert es + [PassBegin(0)] + [PassTurnOf(0)] + [signIn] == c.Opening();
    hide Reaches, Stage, Leads, Heirs.Real, Heirs.BareA, Heirs.BareB, Heirs.SetupA, Heirs.SetupB, PassRuns, Heirs.U,
      Heirs.Opening;
    var x := BothSetUp(c);
    var y := FirstAsked(c, es, x);
    w := SignsIn(c, y, pass);
    Reach(es + [PassBegin(0)] + [PassTurnOf(0)], y, signIn, w);
  }

  lemma Asleep(p: Pass)
    requires p.asked.Some?
    ensures !PassRuns(p)
  {}

  lemma FirstIsNotSecond(c: Heirs)
    requires c.Real()
    ensures c.first.id != c.second.id
  {}

  /** The seeding of one vault: a request and its answer. */
  lemma OneSeeded(c: Heirs, es: seq<Event>, w: World, a: VaultMeta, b: VaultMeta, pass: Pass, m: VaultMeta,
                  rest: seq<VaultMeta>)
    returns (v: World)
    requires c.Real() && Reaches(es, w) && !PassRuns(pass) && (m == c.BareA() || m == c.BareB())
    requires Stage(c, w, a, b, map[0 := pass], map[0 := c.U(Seeding([m] + rest, None))])
    ensures Reaches(es + [SeedTurnOf(0)] + [SeedAnswer(0, Some(c.Placeholder()))], v)
    ensures var lock := Some(c.PlaceholderLock());
            Stage(c, v, if m.id == c.first.id then a.(ownerTokenLock := lock) else a,
                  if m.id == c.first.id then b else b.(ownerTokenLock := lock),
                  map[0 := pass], map[0 := c.U(Seeding(rest, None))])
  {
    hide Reaches, Stage, Leads, Heirs.Real, Heirs.BareA, Heirs.BareB, Heirs.Placeholder, PassRuns, Heirs.U,
      Heirs.PlaceholderLock;
    var x := SeedingAsks(c, w, a, b, pass, m, rest);
    Reach(es, w, SeedTurnOf(0), x);
    v := SeedAnswered(c, x, a, b, pass, m, rest);
    Reach(es + [SeedTurnOf(0)], x, SeedAnswer(0, Some(c.Placeholder())), v);
  }

  lemma ReadingOneByOne(c: Heirs, es: seq<Event>)
    ensures var answer := SeedAnswer(0, Some(c.Placeholder()));
            es + [SeedTurnOf(0)] + [answer] + [SeedTurnOf(0)] + [answer] + [ReadVaults(0)] == es + c.Reading()
  {
    hide Heirs.Placeholder;
  }

  /** Both vaults are seeded with the placeholder, and read. */
  lemma BothRead(c: Heirs, es: seq<Event>, w: World, pass: Pass) returns (v: World)
    requires c.Real() && Reaches(es, w) && !PassRuns(pass)
    requires Stage(c, w, c.BareA(), c.BareB(), map[0 := pass], map[0 := c.U(Seeding([c.BareA(), c.BareB()], None))])
    ensures Reaches(es + c.Reading(), v)
    ensures FirstStage(c, v, pass, c.U(Trying([c.A(c.PlaceholderLock()), c.B(c.PlaceholderLock())], None, map[], {})))
  {
    Metas(c, c.PlaceholderLock(), c.PlaceholderLock());
    FirstIsNotSecond(c);
    ReadingOneByOne(c, es);
    hide Reaches, Stage, Leads, Heirs.Real, Heirs.BareA, Heirs.BareB, Heirs.A, Heirs.B, Heirs.Placeholder, PassRuns,
      Heirs.U, Heirs.PlaceholderLock, Heirs.Reading;
    var a, b, answer := c.BareA(), c.BareB(), SeedAnswer(0, Some(c.Placeholder()));
    assert [a] + [b] == [a, b] && [b] + [] == [b];
    var x := OneSeeded(c, es, w, a, b, pass, a, [b]);
    var es1 := es + [SeedTurnOf(0)] + [answer];
    var y := OneSeeded(c, es1, x, c.A(c.PlaceholderLock()), b, pass, b, []);
    v := VaultsRead(c, y, pass);
    Reach(es1 + [SeedTurnOf(0)] + [answer], y, ReadVaults(0), v);
  }

  lemma FirstRepairStarts(c: Heirs, es: seq<Event>, w: World, pass: Pass, a: VaultMeta, b: VaultMeta)
    returns (v: World)
    requires c.Real() && Reaches(es, w) && !PassRuns(pass)
    requires a == c.A(c.PlaceholderLock()) && b == c.B(c.PlaceholderLock())
    requires FirstStage(c, w, pass, c.U(Trying([a, b], None, map[], {})))
    ensures Reaches(es + [TryTurnOf(0)], v)
    ensures FirstStage(c, v, pass, c.U(Trying([b], Some(c.FixA()), map[], {})))
  {
    var r := c.FixA();
    assert r.meta == a;
    hide Reaches, Stage, Leads, Heirs.Real, Heirs.A, Heirs.B, Heirs.PlaceholderLock, Heirs.FixA, PassRuns, Heirs.U;
    assert [a] + [b] == [a, b];
    v := RepairStarts(c, w, a, b, pass, r, [b], map[], {});
    Reach(es, w, TryTurnOf(0), v);
  }

  lemma FirstRepairDone(c: Heirs, es: seq<Event>, w: World, pass: Pass, b: VaultMeta) returns (v: World)
    requires c.Real() && Reaches(es, w) && !PassRuns(pass)
    requires FirstStage(c, w, pass, c.U(Trying([b], Some(c.FixA()), map[], {})))
    ensures Reaches(es + [RepairAnswer(0, true)], v)
    ensures MiddleStage(c, v, pass, c.U(Trying([b], None, map[c.first.id := c.firstToken], {})))
  {
    var r := c.FixA();
    FixFacts(c, r);
    Metas(c, RepairLock(r), c.PlaceholderLock());
    hide Reaches, Stage, Leads, Heirs.Real, Heirs.A, Heirs.B, Heirs.PlaceholderLock, Heirs.FixA, Heirs.FixB,
      Heirs.BareA, Heirs.BareB, RepairLock, Heirs.RepairedLock, HoldsFor, Decrypted, PassRuns, Heirs.Truths, Heirs.U;
    assert {} - {c.first.id} == {} && map[][c.first.id := c.firstToken] == map[c.first.id := c.firstToken];
    v := RepairDone(c, w, c.A(c.PlaceholderLock()), c.B(c.PlaceholderLock()), pass, r, [b], map[], {});
    Reach(es, w, RepairAnswer(0, true), v);
  }

  lemma SecondRepairStarts(c: Heirs, es: seq<Event>, w: World, pass: Pass, b: VaultMeta, tokens: map<VaultId, string>)
    returns (v: World)
    requires c.Real() && Reaches(es, w) && !PassRuns(pass) && b == c.B(c.PlaceholderLock())
    requires MiddleStage(c, w, pass, c.U(Trying([b], None, tokens, {})))
    ensures Reaches(es + [TryTurnOf(0)], v)
    ensures MiddleStage(c, v, pass, c.U(Trying([], Some(c.FixB()), tokens, {})))
  {
    var r := c.FixB();
    assert r.meta == b;
    hide Reaches, Stage, Leads, Heirs.Real, Heirs.A, Heirs.B, Heirs.PlaceholderLock, Heirs.FixB, Heirs.RepairedLock,
      PassRuns, Heirs.U;
    assert [b] + [] == [b];
    v := RepairStarts(c, w, c.A(c.RepairedLock(c.firstToken)), b, pass, r, [], tokens, {});
    Reach(es, w, TryTurnOf(0), v);
  }

  /** The old answer overwrites the first repair. */
  lemma OldAnswer(c: Heirs, es: seq<Event>, w: World, asleep: seq<VaultMeta>, tokens: map<VaultId, string>)
    returns (v: World)
    requires c.Real() && Reaches(es, w)
    requires MiddleStage(c, w, Pass(asleep, Some(c.BareA())), c.U(Trying([], Some(c.FixB()), tokens, {})))
    ensures Reaches(es + [PassAnswer(0, Some(c.Placeholder()))], v)
    ensures FirstStage(c, v, Pass(asleep, None), c.U(Trying([], Some(c.FixB()), tokens, {c.first.id})))
  {
    Metas(c, c.PlaceholderLock(), c.RepairedLock(c.firstToken));
    hide Reaches, Stage, Leads, Heirs.Real, Heirs.A, Heirs.B, Heirs.PlaceholderLock, Heirs.FixB, Heirs.BareA,
      Heirs.BareB, Heirs.RepairedLock, Heirs.Placeholder, Heirs.U;
    var a, b := c.A(c.RepairedLock(c.firstToken)), c.B(c.PlaceholderLock());
    v := OldAnswerArrives(c, w, a, b, c.BareA(), asleep, c.FixB(), tokens);
    Reach(es, w, PassAnswer(0, Some(c.Placeholder())), v);
  }

  /** The pass goes on to the second vault. */
  lemma PassGoesOn(c: Heirs, es: seq<Event>, w: World, m: VaultMeta, u: Unlocking) returns (v: World)
    requires c.Real() && Reaches(es, w) && m == c.BareB() && !UnlockRuns(u) && FirstStage(c, w, Pass([m], None), u)
    ensures Reaches(es + [PassTurnOf(0)], v) && FirstStage(c, v, Pass([], Some(m)), u)
  {
    var busy := map[0 := u];
    hide Reaches, Stage, Leads, Heirs.Real, Heirs.A, Heirs.B, Heirs.PlaceholderLock, Heirs.BareA, Heirs.BareB,
      UnlockRuns;
    assert [m] + [] == [m] && forall k :: k in busy ==> !UnlockRuns(busy[k]);
    v := PassAsksFor(c, w, c.A(c.PlaceholderLock()), c.B(c.PlaceholderLock()), busy, m, []);
    Reach(es, w, PassTurnOf(0), v);
  }

  lemma SecondRepairDone(c: Heirs, es: seq<Event>, w: World, pass: Pass, tokens: map<VaultId, string>)
    returns (v: World)
    requires c.Real() && Reaches(es, w) && !PassRuns(pass)
    requires FirstStage(c, w, pass, c.U(Trying([], Some(c.FixB()), tokens, {c.first.id})))
    ensures Reaches(es + [RepairAnswer(0, true)], v)
    ensures LastStage(c, v, pass, c.U(Trying([], None, tokens[c.second.id := c.secondToken], {c.first.id})))
  {
    var r := c.FixB();
    FixFacts(c, r);
    FirstIsNotSecond(c);
    Metas(c, RepairLock(r), c.PlaceholderLock());
    hide Reaches, Stage, Leads, Heirs.Real, Heirs.A, Heirs.B, Heirs.PlaceholderLock, Heirs.FixA, Heirs.FixB,
      Heirs.BareA, Heirs.BareB, RepairLock, Heirs.RepairedLock, HoldsFor, Decrypted, PassRuns, Heirs.Truths, Heirs.U;
    assert {c.first.id} - {c.second.id} == {c.first.id};
    v := RepairDone(c, w, c.A(c.PlaceholderLock()), c.B(c.PlaceholderLock()), pass, r, [], tokens, {c.first.id});
    Reach(es, w, RepairAnswer(0, true), v);
  }

  lemma BusyRepairing(c: Heirs, r: Repair, tokens: map<VaultId, string>, late: set<VaultId>)
    ensures !UnlockRuns(c.U(Trying([], Some(r), tokens, late)))
  {}

  /** All is read: the first repair is done and the second one is waited for. */
  lemma FirstRepaired(c: Heirs, es: seq<Event>, w: World, pass: Pass) returns (v: World)
    requires c.Real() && Reaches(es, w) && !PassRuns(pass)
    requires FirstStage(c, w, pass, c.U(Trying([c.A(c.PlaceholderLock()), c.B(c.PlaceholderLock())], None, map[], {})))
    ensures Reaches(es + c.Repairing(), v)
    ensures MiddleStage(c, v, pass, c.U(Trying([], Some(c.FixB()), map[c.first.id := c.firstToken], {})))
  {
    var a, b := c.A(c.PlaceholderLock()), c.B(c.PlaceholderLock());
    OneByOne(es, TryTurnOf(0), RepairAnswer(0, true), TryTurnOf(0));
    hide Reaches, FirstStage, MiddleStage, Heirs.Real, PassRuns, Heirs.U, Heirs.A, Heirs.B, Heirs.PlaceholderLock,
      Heirs.FixA, Heirs.FixB;
    var x := FirstRepairStarts(c, es, w, pass, a, b);
    var y := FirstRepairDone(c, es + [TryTurnOf(0)], x, pass, b);
    v := SecondRepairStarts(c, es + [TryTurnOf(0)] + [RepairAnswer(0, true)], y, pass, b,
                            map[c.first.id := c.firstToken]);
  }

  /** The old answer has overwritten the first repair, and the second one is done. */
  lemma Overtaken(c: Heirs, es: seq<Event>, w: World) returns (v: World)
    requires c.Real() && Reaches(es, w)
    requires MiddleStage(c, w, Pass([c.BareB()], Some(c.BareA())),
                         c.U(Trying([], Some(c.FixB()), map[c.first.id := c.firstToken], {})))
    ensures Reaches(es + c.Overtaking(), v)
    ensures LastStage(c, v, Pass([], Some(c.BareB())), c.Ending())
  {
    var tokens, m := map[c.first.id := c.firstToken], c.BareB();
    var late := PassAnswer(0, Some(c.Placeholder()));
    Asleep(Pass([], Some(m)));
    BusyRepairing(c, c.FixB(), tokens, {c.first.id});
    OneByOne(es, late, PassTurnOf(0), RepairAnswer(0, true));
    assert tokens[c.second.id := c.secondToken] == map[c.first.id := c.firstToken, c.second.id := c.secondToken];
    hide Reaches, FirstStage, MiddleStage, LastStage, Heirs.Real, PassRuns, UnlockRuns, Heirs.BareA, Heirs.BareB,
      Heirs.U, Heirs.FixB, Heirs.Placeholder;
    var x := OldAnswer(c, es, w, [m], tokens);
    var y := PassGoesOn(c, es + [late], x, m, c.U(Trying([], Some(c.FixB()), tokens, {c.first.id})));
    v := SecondRepairDone(c, es + [late] + [PassTurnOf(0)], y, Pass([], Some(m)), tokens);
  }

  lemma RunReached(c: Heirs) returns (w: World)
    requires c.Real()
    ensures Reaches(c.Run(), w) && LastStage(c, w, Pass([], Some(c.BareB())), c.Ending())
  {
    var pass := Pass([c.BareB()], Some(c.BareA()));
    Asleep(pass);
    hide Reaches, Stage, MiddleStage, LastStage, Heirs.Real, PassRuns, Heirs.A, Heirs.B, Heirs.BareA, Heirs.BareB,
      Heirs.U, Heirs.PlaceholderLock, Heirs.FixB, Heirs.Opening, Heirs.Reading, Heirs.Repairing, Heirs.Overtaking,
      Heirs.Ending;
    var x := Begun(c);
    var y := BothRead(c, c.Opening(), x, pass);
    var z := FirstRepaired(c, c.Opening() + c.Reading(), y, pass);
    w := Overtaken(c, c.Opening() + c.Reading() + c.Repairing(), z);
  }

  /** The restoring write validates the placeholder lock of the first vault. */
  lemma WritesBoth(c: Heirs, s: Store, u: Unlocking)
    requires c.Real() && s == c.On(c.A(c.PlaceholderLock()), c.B(c.RepairedLock(c.secondToken)))
    requires u == c.Ending()
    ensures Accepted(s, u) && HasCredential(s, c.first.id)
    ensures var end := Finish(s, u).CloseTab();
            && HasValidatedLock(end, c.first.id) && end.OwnerToken(c.first.id) == None
            && !Recoverable(end, c.first.id, Truth(c.firstToken, c.password))
            && Recoverable(end, c.second.id, Truth(c.secondToken, c.password))
  {
    hide HashEmailForLookup, Trim, LooksLikeEmail, KeyLeq;
  }

  /**
   * For every two heirs set up without their reseals, the run is possible and the page can perform it:
   * nothing is ever cut short between two points where it waits, and the only foreign answer comes
   * while the unlock waits for the server to store its second repair. At its end the first
   * vault's token is safe, the unlock has nothing left but to end, and ending it loses that token:
   * once the tab is closed the vault has a validated lock that holds only the placeholder.
   */
  lemma LateRunLosesToken(c: Heirs) returns (w: World)
    requires c.Real()
    ensures WorldGood(EMPTY_WORLD) && Possible(EMPTY_WORLD, c.Run()) && Uninterrupted(EMPTY_WORLD, c.Run())
    ensures w == RunAll(EMPTY_WORLD, c.Run()) && WorldGood(w)
    ensures c.first.id in w.truths && w.truths[c.first.id] == Truth(c.firstToken, c.password)
    ensures Recoverable(w.store, c.first.id, w.truths[c.first.id])
    ensures Enabled(w, FinishUnlock(0)) && Waits(w, FinishUnlock(0)) && LateFinish(w, FinishUnlock(0))
    ensures var end := Step(w, FinishUnlock(0)).store.CloseTab();
            && HasValidatedLock(end, c.first.id) && end.OwnerToken(c.first.id) == None
            && !Recoverable(end, c.first.id, w.truths[c.first.id])
  {
    w := RunReached(c);
    ReachedIsGood(c.Run(), w);
    StageFacts(c, w);
    hide WorldGood, Enabled, Step, Possible, RunAll, Uninterrupted, Heirs.Run, Heirs.Real, Accepted, Finish,
      Recoverable, HasValidatedLock, Store.OwnerToken, Store.Valid, Waits, HasCredential, LastStage;
    CredentialIsRecoverable(w.store, w.truths, c.first.id);
  }

  lemma ReachedIsGood(es: seq<Event>, w: World)
    requires Reaches(es, w)
    ensures WorldGood(w) && w.store.Valid()
  {
    StoreIsValid(w);
    hide WorldGood;
  }

  /** All that is to be said about the state the run ends in. */
  lemma StageFacts(c: Heirs, w: World)
    requires c.Real()
    requires LastStage(c, w, Pass([], Some(c.BareB())), c.Ending())
    ensures w.store.Valid() && HasCredential(w.store, c.first.id)
    ensures c.first.id in w.truths && w.truths[c.first.id] == Truth(c.firstToken, c.password)
    ensures Enabled(w, FinishUnlock(0)) && Waits(w, FinishUnlock(0)) && LateFinish(w, FinishUnlock(0))
    ensures var end := Step(w, FinishUnlock(0)).store.CloseTab();
            && HasValidatedLock(end, c.first.id) && end.OwnerToken(c.first.id) == None
            && !Recoverable(end, c.first.id, w.truths[c.first.id])
  {
    var pass := map[0 := Pass([], Some(c.BareB()))];
    var u := c.Ending();
    StageValid(c, w, c.A(c.PlaceholderLock()), c.B(c.RepairedLock(c.secondToken)), pass, map[0 := u]);
    WritesBoth(c, w.store, u);
    EndsLate(w, u, c.first.id);
    assert w.truths == c.Truths() && w.passes == pass && w.unlocks == map[0 := u];
    hide Stage, Enabled, Step, Accepted, Finish, Recoverable, HasValidatedLock, Store.OwnerToken, Store.Valid, Waits,
      HasCredential, Heirs.Real, Heirs.A, Heirs.B, Store.CloseTab;
    WaitsFor(w, FinishUnlock(0), pass, map[0 := u]);
  }

  lemma EndsLate(w: World, u: Unlocking, id: VaultId)
    requires w.store.Valid() && w.unlocks == map[0 := u] && Accepted(w.store, u)
    requires u.phase.Trying? && u.phase.rest == [] && u.phase.repair.None? && id in u.phase.tokens && id in u.phase.late
    ensures Enabled(w, FinishUnlock(0)) && LateFinish(w, FinishUnlock(0))
    ensures Step(w, FinishUnlock(0)).store == Finish(w.store, u)
  {
    hide Store.Valid, Finish, Accepted;
  }

  const HEIRS := Heirs(Draft("v1", "Ada", "o@x.org", "Ada", "2026", Some("g0")),
                       Draft("v2", "Bob", "o@x.org", "Bob", "2027", Some("g0")),
                       "tok1", "tok2", "pw", KdfParams("salt", 65536, 3))

  /** Such heirs exist. */
  lemma HeirsAreReal()
    ensures HEIRS.Real()
  {
    PlainEmail();
    hide Trim, LooksLikeEmail;
    assert "2026"[1..] == "026" && "2027"[1..] == "027";
    assert "026"[1..] == "26" && "027"[1..] == "27";
    assert "26"[1..] == "6" && "27"[1..] == "7";
    assert TextLeq("6", "7");
  }
}
