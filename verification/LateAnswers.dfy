/**
 * When an unlock that overlaps other work costs a credential: exactly when, for a vault it restores,
 * an answer holding only the placeholder has overwritten the lock after the unlock read or repaired
 * it and nothing has written the lock since.
 */
module LateAnswers {
  import opened Wrappers
  import opened Crypto
  import opened EmailText
  import opened VaultStores
  import opened Credentials
  import opened SignIn
  import opened Recovery
  import opened Awaits
  import opened AwaitInvariants
  import opened CredentialRuns

  // ----- the end of an unlock -----

  /** A vault restored by the end of an unlock stays recoverable exactly when the history does not flag it. */
  lemma FinishKeepsVaultIff(w: World, u: nat, id: VaultId)
    requires WorldGood(w) && Enabled(w, FinishUnlock(u)) && Accepted(w.store, w.unlocks[u])
    requires id in w.unlocks[u].phase.tokens
    ensures id in w.truths
    ensures Recoverable(Step(w, FinishUnlock(u)).store, id, w.truths[id]) <==> id !in w.unlocks[u].phase.late
    ensures Recoverable(Step(w, FinishUnlock(u)).store.CloseTab(), id, w.truths[id])
       <==> id !in w.unlocks[u].phase.late
  {
    var at := w.unlocks[u];
    assert UnlockGood(w.store, w.truths, at);
    assert TokenGood(w.store, w.truths, id, at.phase.tokens[id], at.phase.late);
    StoreIsValid(w);
    RestoredRecoverable(w.store, w.truths, at, id);
    FinishStores(w, u);
    hide WorldGood, StoreGood, UnlockGood, TokenGood, Accepted, Recoverable, Finish, Enabled, Step, Store.CloseTab,
      Store.Valid;
  }

  lemma FinishStores(w: World, u: nat)
    requires w.store.Valid() && Enabled(w, FinishUnlock(u))
    ensures Step(w, FinishUnlock(u)).store == Finish(w.store, w.unlocks[u])
  {
    hide Finish, Store.Valid;
  }

  lemma RestoredRecoverable(s: Store, truths: Truths, at: Unlocking, id: VaultId)
    requires at.phase.Trying? && Accepted(s, at) && id in at.phase.tokens
    requires TokenGood(s, truths, id, at.phase.tokens[id], at.phase.late)
    ensures id in truths
    ensures Recoverable(Finish(s, at), id, truths[id]) <==> id !in at.phase.late
    ensures Recoverable(Finish(s, at).CloseTab(), id, truths[id]) <==> id !in at.phase.late
  {
    var lock := s.LockOf(id).value;
    ValidatedHolds(lock, truths[id]);
    hide LockHoldsToken;
    assert id in at.phase.late <==> !LockHoldsToken(lock, truths[id]);
    assert Finish(s, at).LockOf(id) == Some(lock.(validated := true));
    assert Finish(s, at).metas[id].ownerToken == None;
  }

  lemma ValidatedHolds(lock: LockedOwnerToken, t: Truth)
    ensures LockHoldsToken(lock.(validated := true), t) <==> LockHoldsToken(lock, t)
  {}

  // ----- what the history means -----

  /** An answer holding only the placeholder is stored as the vault's lock at this event. */
  ghost predicate PlaceholderLands(w: World, e: Event, id: VaultId)
    requires w.store.Valid() && Enabled(w, e)
  {
    match e
    case PassAnswer(p, Some(b)) => Overwrites(w, w.passes[p].asked.value.id, b, id)
    case SeedAnswer(u, Some(b)) => Overwrites(w, w.unlocks[u].phase.asked.value.id, b, id)
    case _ => false
  }

  predicate Overwrites(w: World, asked: VaultId, b: Bundle, id: VaultId) {
    && asked == id
    && id in w.store.metas && Usable(w.store.metas[id].ownerToken)
    && id in w.truths
    && Open(Kek(w.truths[id].password, b.params), b.ownerTokenBlob) == Some(PLACEHOLDER_OWNER_TOKEN)
  }

  /** The vault's lock is stored anew at this event: by an answer, a repair, a pass or a recovery. */
  ghost predicate WritesLock(w: World, e: Event, id: VaultId)
    requires w.store.Valid() && Enabled(w, e)
  {
    match e
    case PassAnswer(p, Some(b)) => w.passes[p].asked.value.id == id && AtRest(w, id)
    case SeedAnswer(u, Some(b)) => w.unlocks[u].phase.asked.value.id == id && AtRest(w, id)
    case RepairAnswer(u, true) => w.unlocks[u].phase.repair.value.meta.id == id && AtRest(w, id)
    case PassTurnOf(p) => w.passes[p].rest[0].id == id && PassTurn(w.store, w.passes[p]).0 != w.store
    case RecoverOne(r, password, _) => r.id == id && IsReal(r, password)
    case RecoverShare(bundles, share, _, _, _) => Ordering.Sort(bundles, RecoveredKey)[share].id == id
    case _ => false
  }

  predicate AtRest(w: World, id: VaultId) {
    id in w.store.metas && Usable(w.store.metas[id].ownerToken)
  }

  /** The unlock has read its vaults and is under way from the first to the last state of the run. */
  ghost predicate Throughout(w: World, es: seq<Event>, u: nat)
    requires WorldGood(w) && Possible(w, es)
    decreases |es|
  {
    && u in w.unlocks && w.unlocks[u].phase.Trying?
    && (es != [] ==> (StepIsGood(w, es[0]); Throughout(Step(w, es[0]), es[1..], u)))
  }

  /** No event of the run writes the vault's lock. */
  ghost predicate Unwritten(w: World, es: seq<Event>, id: VaultId)
    requires WorldGood(w) && Possible(w, es)
    decreases |es|
  {
    es != [] ==> !WritesLock(w, es[0], id) && (StepIsGood(w, es[0]); Unwritten(Step(w, es[0]), es[1..], id))
  }

  /** In the run a placeholder answer lands on the vault's lock, and nothing writes the lock after it. */
  ghost predicate LateAnswered(w: World, es: seq<Event>, id: VaultId)
    requires WorldGood(w) && Possible(w, es)
    decreases |es|
  {
    es != [] && (StepIsGood(w, es[0]);
                 || LateAnswered(Step(w, es[0]), es[1..], id)
                 || (PlaceholderLands(w, es[0], id) && Unwritten(Step(w, es[0]), es[1..], id)))
  }

  /** An answered bundle that does not hold the token holds the placeholder. */
  lemma AnswerKinds(w: World, id: VaultId, b: Bundle, lockHash: string)
    requires WorldGood(w) && WasUploaded(w, id, b)
    ensures id in w.truths && w.truths[id].token != PLACEHOLDER_OWNER_TOKEN
    ensures HoldsFor(w.truths, id, Candidate(b, lockHash))
       <==> Open(Kek(w.truths[id].password, b.params), b.ownerTokenBlob) != Some(PLACEHOLDER_OWNER_TOKEN)
  {
    assert BundleGood(b, w.truths[id]);
  }

  /** What an answered candidate does to the history of an unlock under way. */
  lemma AnswerNoteMeans(w: World, asked: VaultId, lockHash: string, b: Bundle, at: Unlocking, id: VaultId)
    requires WorldGood(w) && WasUploaded(w, asked, b) && at.phase.Trying?
    ensures var n := AnswerNote(w, asked, lockHash, Some(b));
            && (Overwrites(w, asked, b, id) ==> asked == id && AtRest(w, id))
            && (id in NoteIn(at, n).phase.late
                <==> Overwrites(w, asked, b, id) || (id in at.phase.late && !(asked == id && AtRest(w, id))))
  {
    AnswerKinds(w, asked, b, lockHash);
    hide WorldGood, HoldsFor, WasUploaded;
  }

  lemma RepairNoteMeans(w: World, v: nat, at: Unlocking, id: VaultId)
    requires WorldGood(w) && Enabled(w, RepairAnswer(v, true)) && at.phase.Trying?
    ensures var r := w.unlocks[v].phase.repair.value;
            var n := CacheNote(w.store, w.truths, r.meta.id, RepairLock(r));
            id in NoteIn(at, n).phase.late <==> id in at.phase.late && !(r.meta.id == id && AtRest(w, id))
  {
    assert UnlockGood(w.store, w.truths, w.unlocks[v]);
    var r := w.unlocks[v].phase.repair.value;
    assert HoldsFor(w.truths, r.meta.id, RepairLock(r));
    hide WorldGood, UnlockGood, HoldsFor;
  }

  lemma TurnNoteMeans(w: World, p: nat, u: nat, id: VaultId)
    requires WorldGood(w) && Enabled(w, PassTurnOf(p)) && u in w.unlocks && w.unlocks[u].phase.Trying?
    ensures id in PassTurned(w, p).unlocks[u].phase.late
       <==> id in w.unlocks[u].phase.late && !WritesLock(w, PassTurnOf(p), id)
  {
    StoreIsValid(w);
    hide WorldGood, Store.LockVaultCredential, StoreGood, LooksLikeEmail;
    var meta := w.passes[p].rest[0];
    var t := PassTurn(w.store, w.passes[p]).0;
    if t != w.store {
      LockingChanges(w.store, meta.id, meta.ownerTokenLock.value);
    }
  }

  lemma LockingChanges(s: Store, id: VaultId, lock: LockedOwnerToken)
    requires s.Valid() && s.LockVaultCredential(id, lock) != s
    ensures s.Lockable(id, lock)
  {}

  /** How an event changes the history of an unlock that stays under way. */
  ghost predicate HistoryStep(w: World, e: Event, u: nat, id: VaultId)
    requires w.store.Valid() && Enabled(w, e)
  {
    u in w.unlocks && w.unlocks[u].phase.Trying? && u in Step(w, e).unlocks && Step(w, e).unlocks[u].phase.Trying? ==>
      && (PlaceholderLands(w, e, id) ==> WritesLock(w, e, id))
      && (id in Step(w, e).unlocks[u].phase.late
          <==> PlaceholderLands(w, e, id) || (id in w.unlocks[u].phase.late && !WritesLock(w, e, id)))
  }

  lemma PassAnswerStep(w: World, p: nat, b: Bundle, u: nat, id: VaultId)
    requires WorldGood(w) && Enabled(w, PassAnswer(p, Some(b)))
    ensures HistoryStep(w, PassAnswer(p, Some(b)), u, id)
  {
    if u in w.unlocks && w.unlocks[u].phase.Trying? {
      var meta := w.passes[p].asked.value;
      AnswerNoteMeans(w, meta.id, HashEmailForLookup(meta.ownerAddress), b, w.unlocks[u], id);
    }
    hide WorldGood, AnswerNote, Overwrites, NoteIn, HashEmailForLookup, Store.SaveVaultCredentialLock, AtRest;
  }

  lemma SeedAnswerStep(w: World, v: nat, b: Bundle, u: nat, id: VaultId)
    requires WorldGood(w) && Enabled(w, SeedAnswer(v, Some(b)))
    ensures HistoryStep(w, SeedAnswer(v, Some(b)), u, id)
  {
    if u in w.unlocks && w.unlocks[u].phase.Trying? {
      AnswerNoteMeans(w, w.unlocks[v].phase.asked.value.id, w.unlocks[v].emailHash, b, w.unlocks[u], id);
    }
    hide WorldGood, AnswerNote, Overwrites, NoteIn, Store.SaveVaultCredentialLock, AtRest;
  }

  lemma NoAnswerStep(w: World, e: Event, u: nat, id: VaultId)
    requires WorldGood(w) && Enabled(w, e)
    requires (e.PassAnswer? || e.SeedAnswer?) && e.answer == None
    ensures HistoryStep(w, e, u, id)
  {
    hide WorldGood, HashEmailForLookup;
  }

  lemma RepairStep(w: World, v: nat, u: nat, id: VaultId)
    requires WorldGood(w) && Enabled(w, RepairAnswer(v, true))
    ensures HistoryStep(w, RepairAnswer(v, true), u, id)
  {
    if u in w.unlocks && w.unlocks[u].phase.Trying? {
      RepairNoteMeans(w, v, w.unlocks[u], id);
    }
    hide WorldGood, CacheNote, RepairLock, Store.SaveVaultCredentialLock, AtRest;
  }

  lemma PassTurnStep(w: World, p: nat, u: nat, id: VaultId)
    requires WorldGood(w) && Enabled(w, PassTurnOf(p))
    ensures HistoryStep(w, PassTurnOf(p), u, id)
  {
    if u in w.unlocks && w.unlocks[u].phase.Trying? {
      TurnNoteMeans(w, p, u, id);
    }
    hide WorldGood, PassTurned, PassTurn;
  }

  lemma RecoveryStep(w: World, e: Event, u: nat, id: VaultId)
    requires WorldGood(w) && Enabled(w, e) && (e.RecoverOne? || e.RecoverShare?)
    ensures HistoryStep(w, e, u, id)
  {
    hide WorldGood, OpenVault, IsReal, Ordering.Sort, Store.SaveVaultMeta, ShareComesUp, Share;
  }

  lemma TryKeepsLate(s: Store, u: Unlocking)
    requires u.phase.Trying? && u.phase.repair.None? && u.phase.rest != [] && u.phase.rest[0].ownerTokenLock.Some?
    ensures TryTurn(s, u).Goes? ==> TryTurn(s, u).at.phase.Trying? && TryTurn(s, u).at.phase.late == u.phase.late
  {
    hide Decrypted, Seal, Store.OwnerToken;
  }

  /** Every other event leaves the histories alone. */
  lemma PlainStep(w: World, e: Event, u: nat, id: VaultId)
    requires WorldGood(w) && Enabled(w, e)
    requires !e.PassAnswer? && !e.SeedAnswer? && !(e.RepairAnswer? && e.ok) && !e.PassTurnOf? && !e.RecoverOne?
          && !e.RecoverShare?
    ensures HistoryStep(w, e, u, id)
  {
    hide WorldGood, SetUp, BackFilled, Store.SaveVaultMeta, Store.RemoveVaultMeta, Store.SetActive, Finish,
      ReadMatching,
      UnlockBegins, PassBegins, Upload, SeedTurn, TryTurn, FreshVault, Offered;
    match e
    case TryTurnOf(v) => TryKeepsLate(w.store, w.unlocks[v]);
    case PasswordSetup(d, token, password, params, reached, ok) =>
      SetupTruths(w, d, token, password, params, reached, ok);
    case _ =>
  }

  lemma LateStep(w: World, e: Event, u: nat, id: VaultId)
    requires WorldGood(w) && Enabled(w, e)
    ensures HistoryStep(w, e, u, id)
  {
    StoreIsValid(w);
    hide WorldGood, Enabled, HistoryStep;
    match e
    case PassAnswer(p, Some(b)) => PassAnswerStep(w, p, b, u, id);
    case SeedAnswer(v, Some(b)) => SeedAnswerStep(w, v, b, u, id);
    case RepairAnswer(v, true) => RepairStep(w, v, u, id);
    case PassTurnOf(p) => PassTurnStep(w, p, u, id);
    case RecoverOne(_, _, _) => RecoveryStep(w, e, u, id);
    case RecoverShare(_, _, _, _, _) => RecoveryStep(w, e, u, id);
    case PassAnswer(_, None) => NoAnswerStep(w, e, u, id);
    case SeedAnswer(_, None) => NoAnswerStep(w, e, u, id);
    case _ => PlainStep(w, e, u, id);
  }

  lemma {:induction false} HistoryMeans(w: World, es: seq<Event>, u: nat, id: VaultId)
    requires WorldGood(w) && Possible(w, es) && Throughout(w, es, u)
    ensures u in RunAll(w, es).unlocks && RunAll(w, es).unlocks[u].phase.Trying?
    ensures id in RunAll(w, es).unlocks[u].phase.late
       <==> LateAnswered(w, es, id) || (id in w.unlocks[u].phase.late && Unwritten(w, es, id))
    decreases |es|
  {
    if es != [] {
      StepIsGood(w, es[0]);
      var next := Step(w, es[0]);
      hide WorldGood, Step, Enabled, PlaceholderLands, WritesLock, LateFinish;
      HistoryMeans(next, es[1..], u, id);
      LateStep(w, es[0], u, id);
      LateThenUnwritten(next, es[1..], id);
    }
  }

  /** A late answer is itself a write. */
  lemma {:induction false} LateThenUnwritten(w: World, es: seq<Event>, id: VaultId)
    requires WorldGood(w) && Possible(w, es)
    ensures LateAnswered(w, es, id) ==> !Unwritten(w, es, id)
    decreases |es|
  {
    if es != [] {
      StepIsGood(w, es[0]);
      hide WorldGood, Step, Enabled, LateFinish;
      LateThenUnwritten(Step(w, es[0]), es[1..], id);
    }
  }

  /**
   * Over every interleaving. An unlock has read its vaults; then anything happens, with it under
   * way throughout; then it ends and its restoring write is made. A vault it restores is still
   * recoverable if and only if no placeholder answer has landed on its lock in between and stayed:
   * after the read, if what the unlock read held the token, and else after its own repair, which
   * writes the lock too. The device as a whole stays sound if and only if that is so of every
   * vault it restores.
   */
  lemma UnlockKeepsIff(w: World, es: seq<Event>, u: nat, id: VaultId)
    requires WorldGood(w) && Possible(w, es) && Throughout(w, es, u) && w.unlocks[u].phase.late == {}
    requires var end := RunAll(w, es);
             && Enabled(end, FinishUnlock(u))
             && u in end.unlocks && Accepted(end.store, end.unlocks[u])
             && id in end.unlocks[u].phase.tokens
    ensures var end := RunAll(w, es);
            && id in end.truths
            && (Recoverable(Step(end, FinishUnlock(u)).store, id, end.truths[id]) <==> !LateAnswered(w, es, id))
    ensures var end := RunAll(w, es);
            WorldGood(Step(end, FinishUnlock(u)))
            <==> forall x :: x in end.unlocks[u].phase.tokens ==> !LateAnswered(w, es, x)
  {
    var end := RunAll(w, es);
    HistoryMeans(w, es, u, id);
    FinishKeepsVaultIff(end, u, id);
    FinishIsGoodIff(end, u);
    forall x
      ensures x in end.unlocks[u].phase.late <==> LateAnswered(w, es, x)
    {
      HistoryMeans(w, es, u, x);
    }
    hide WorldGood, RunAll, Possible, LateAnswered, Throughout, Step, Recoverable, Accepted;
  }
}
