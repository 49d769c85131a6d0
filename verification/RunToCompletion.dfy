/**
 * Runs the page can perform. Code between two points where it waits runs to completion: while a pass
 * or an unlock is not waiting, its own next step comes before anything else.
 */
module RunToCompletion {
  import opened VaultStores
  import opened Credentials
  import opened Awaits
  import opened AwaitInvariants
  import opened CredentialRuns
  import opened LateAnswers

  /** A pass goes on without waiting until it asks for a bundle or has no vault left. */
  predicate PassRuns(p: Pass) {
    p.AtTurn()
  }

  /**
   * An unlock seeds and reads without waiting but for the bundles it asks for. It waits for the key
   * of each vault it tries, if only for a moment when the key was derived before, and for each repair.
   * After the last vault it ends without waiting.
   */
  predicate UnlockRuns(u: Unlocking) {
    match u.phase
    case Seeding(_, asked) => asked.None?
    case Trying(rest, repair, _, _) => rest == [] && repair.None?
  }

  predicate IsStepOf(e: Event, u: nat) {
    (e.SeedTurnOf? || e.ReadVaults? || e.FinishUnlock?) && e.u == u
  }

  /** Nothing that is running is cut short by this event. */
  ghost predicate Waits(w: World, e: Event) {
    && (forall p :: p in w.passes && PassRuns(w.passes[p]) ==> e == PassTurnOf(p))
    && (forall u :: u in w.unlocks && UnlockRuns(w.unlocks[u]) ==> IsStepOf(e, u))
  }

  /** Every event of the run comes when nothing else is running. */
  ghost predicate Uninterrupted(w: World, es: seq<Event>)
    requires WorldGood(w) && Possible(w, es)
    decreases |es|
  {
    es != [] ==> Waits(w, es[0]) && (StepIsGood(w, es[0]); Uninterrupted(Step(w, es[0]), es[1..]))
  }

  /** Longer runs, one event at a time. */
  lemma {:induction false} UninterruptedThen(w: World, es: seq<Event>, e: Event)
    requires WorldGood(w) && Possible(w, es) && Uninterrupted(w, es)
    requires var end := RunAll(w, es); Enabled(end, e) && !LateFinish(end, e) && Waits(end, e)
    ensures Possible(w, es + [e]) && Uninterrupted(w, es + [e])
    ensures RunAll(w, es + [e]) == Step(RunAll(w, es), e)
    decreases |es|
  {
    hide WorldGood, Enabled, Step, LateFinish, Waits;
    StoreIsValid(w);
    if es == [] {
      StepIsGood(w, e);
      assert [e][1..] == [] && es + [e] == [e];
    } else {
      StepIsGood(w, es[0]);
      assert (es + [e])[0] == es[0] && (es + [e])[1..] == es[1..] + [e];
      UninterruptedThen(Step(w, es[0]), es[1..], e);
    }
  }

  // ----- the last repair -----

  /** What an unlock has just repaired is not overwritten late. */
  lemma RepairedNotLate(w: World, u: nat)
    requires WorldGood(w) && Enabled(w, RepairAnswer(u, true))
    ensures var id := w.unlocks[u].phase.repair.value.meta.id;
            var v := Step(w, RepairAnswer(u, true));
            && u in v.unlocks && v.unlocks[u].phase.Trying? && id in v.unlocks[u].phase.tokens
            && v.unlocks[u].phase.rest == w.unlocks[u].phase.rest && v.unlocks[u].phase.repair.None?
            && (v.store.LockOf(id).Some? ==> id !in v.unlocks[u].phase.late)
  {
    var at := w.unlocks[u];
    assert UnlockGood(w.store, w.truths, at);
    StoreIsValid(w);
    RepairedIsSafe(w.store, w.truths, at);
    hide WorldGood, StoreGood, UnlockGood, CacheNote, RepairLock, Store.SaveVaultCredentialLock, LateExact;
  }

  lemma RepairedIsSafe(s: Store, truths: Truths, u: Unlocking)
    requires StoreGood(s, truths) && UnlockGood(s, truths, u)
    requires u.phase.Trying? && u.phase.repair.Some? && u.phase.repair.value.meta.ownerTokenLock.Some?
    ensures var r := u.phase.repair.value;
            var (t, v) := RepairReply(s, u);
            t.LockOf(r.meta.id).Some? ==>
              r.meta.id !in NoteIn(v, CacheNote(s, truths, r.meta.id, RepairLock(r))).phase.late
  {
    var r := u.phase.repair.value;
    CachedStore(s, r.meta.id, RepairLock(r));
    assert VaultGood(s, truths, r.meta.id);
    hide StoreGood, Store.SaveVaultCredentialLock, LockHoldsToken;
  }

  /**
   * The vault an unlock repairs last is never lost on the page: after that repair nothing but the end
   * of the unlock can come next, and if its write is made the vault stays recoverable. So an unlock
   * that repairs the only vault it opens loses nothing.
   */
  lemma LastRepairIsSafe(w: World, u: nat)
    requires WorldGood(w) && Enabled(w, RepairAnswer(u, true)) && w.unlocks[u].phase.rest == []
    ensures var id := w.unlocks[u].phase.repair.value.meta.id;
            var v := Step(w, RepairAnswer(u, true));
            && WorldGood(v) && Enabled(v, FinishUnlock(u))
            && (forall e :: Enabled(v, e) && Waits(v, e) ==> e == FinishUnlock(u))
            && id in v.truths
            && (Accepted(v.store, v.unlocks[u]) ==>
                  Recoverable(Step(v, FinishUnlock(u)).store, id, v.truths[id]))
  {
    StepIsGood(w, RepairAnswer(u, true));
    RepairedNotLate(w, u);
    var v := Step(w, RepairAnswer(u, true));
    StoreIsValid(w);
    StoreIsValid(v);
    MayFinish(v, u);
    hide WorldGood, Step, Enabled, Recoverable, Accepted, Waits, GoodStep, Store.Valid;
    NotLateIsSafe(v, u, w.unlocks[u].phase.repair.value.meta.id);
    forall e | Enabled(v, e) && Waits(v, e)
      ensures e == FinishUnlock(u)
    {
      OnlyItsEnd(v, u, e);
    }
  }

  lemma MayFinish(v: World, u: nat)
    requires v.store.Valid() && u in v.unlocks && v.unlocks[u].phase.Trying? && v.unlocks[u].phase.repair.None?
    requires v.unlocks[u].phase.rest == []
    ensures Enabled(v, FinishUnlock(u))
  {}

  lemma NotLateIsSafe(v: World, u: nat, id: VaultId)
    requires WorldGood(v) && Enabled(v, FinishUnlock(u)) && id in v.unlocks[u].phase.tokens
    requires v.store.LockOf(id).Some? ==> id !in v.unlocks[u].phase.late
    ensures id in v.truths
    ensures Accepted(v.store, v.unlocks[u]) ==> Recoverable(Step(v, FinishUnlock(u)).store, id, v.truths[id])
  {
    assert UnlockGood(v.store, v.truths, v.unlocks[u]);
    assert TokenGood(v.store, v.truths, id, v.unlocks[u].phase.tokens[id], v.unlocks[u].phase.late);
    if Accepted(v.store, v.unlocks[u]) {
      assert v.store.LockOf(id).Some?;
      FinishKeepsVaultIff(v, u, id);
    }
    hide WorldGood, Step, Recoverable, Accepted, UnlockGood;
  }

  lemma OnlyItsEnd(v: World, u: nat, e: Event)
    requires v.store.Valid() && Enabled(v, e) && Waits(v, e)
    requires u in v.unlocks && v.unlocks[u].phase.Trying? && v.unlocks[u].phase.rest == []
    requires v.unlocks[u].phase.repair.None?
    ensures e == FinishUnlock(u)
  {
    assert UnlockRuns(v.unlocks[u]);
  }
}
