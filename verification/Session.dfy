/** The inactivity clock: activity times in storage, the throttled touch, and when a lock pass starts. */
module Session {
  import opened Wrappers
  import opened VaultStores
  import opened Credentials
  import opened DeviceLock

  const SESSION_TIMEOUT_MS: int := 600_000
  const TOUCH_INTERVAL_MS: int := 30_000

  /** The stored activity time: nothing, text that is no number, or a time in milliseconds. */
  datatype Stored = Missing | Garbled | At(time: int)

  /** What the page holds between events: `checking` while a lock pass is waiting for the server. */
  datatype Clock = Clock(stored: Stored, lastTouch: int, checking: bool, locked: bool, active: bool) {

    function Touch(now: int): Clock {
      this.(stored := At(now))
    }

    /** An unreadable time counts as a fresh session and is replaced. */
    function Refreshed(now: int): Clock {
      if active && !stored.At? then Touch(now) else this
    }

    predicate Expired(now: int) {
      active && stored.At? && now - stored.time >= SESSION_TIMEOUT_MS
    }

    /** The periodic check: starts a lock pass on an expired session. */
    function Check(now: int): Clock {
      if locked || checking then this
      else if Expired(now) then this.(checking := true)
      else Refreshed(now)
    }

    function Activity(now: int): Clock {
      if locked || !active then this
      else if Expired(now) then Check(now)
      else
        var c := Refreshed(now);
        if now - lastTouch >= TOUCH_INTERVAL_MS then c.(lastTouch := now).Touch(now) else c
    }

    /** The end of a lock pass: the page locks when the active vault has a lock, and otherwise waits again. */
    function PassEnds(now: int, activeHasLock: bool): Clock {
      if !checking then this
      else if activeHasLock then this.(locked := true, checking := false, lastTouch := 0)
      else Touch(now).(checking := false)
    }

    /**
     * A sign-in opens a fresh window. Only on a locked page does it make the page's effect start
     * over; on an unlocked one a lock pass that is under way goes on.
     */
    function SignedIn(now: int): Clock {
      if locked then Touch(now).(locked := false, checking := false, lastTouch := 0).Check(now)
      else Touch(now)
    }
  }

  /** The page's handlers over its own mutable state. */
  class SessionGuard {
    var stored: Stored
    var lastTouch: int
    var checking: bool
    var locked: bool
    var active: bool

    function State(): Clock
      reads this
    {
      Clock(stored, lastTouch, checking, locked, active)
    }

    constructor (stored: Stored, locked: bool, active: bool)
      ensures State() == Clock(stored, 0, false, locked, active)
    {
      this.stored, this.locked, this.active := stored, locked, active;
      lastTouch, checking := 0, false;
    }

    method SessionExpired(now: int) returns (expired: bool)
      modifies this`stored
      ensures expired == old(State()).Expired(now)
      ensures State() == if expired then old(State()) else old(State()).Refreshed(now)
    {
      if !active {
        return false;
      }
      if !stored.At? {
        stored := At(now);
        return false;
      }
      expired := now - stored.time >= SESSION_TIMEOUT_MS;
    }

    method LockIfPasswordVault(now: int)
      modifies this`stored, this`checking
      ensures State() == old(State()).Check(now)
    {
      if locked || checking {
        return;
      }
      var expired := SessionExpired(now);
      if expired {
        checking := true;
      }
    }

    method OnActivity(now: int)
      modifies this`stored, this`checking, this`lastTouch
      ensures State() == old(State()).Activity(now)
    {
      if locked || !active {
        return;
      }
      var expired := SessionExpired(now);
      if expired {
        LockIfPasswordVault(now);
        return;
      }
      if now - lastTouch >= TOUCH_INTERVAL_MS {
        lastTouch := now;
        stored := At(now);
      }
    }

    method OnPassEnd(now: int, activeHasLock: bool)
      requires checking
      modifies this
      ensures State() == old(State()).PassEnds(now, activeHasLock)
    {
      if activeHasLock {
        locked, lastTouch := true, 0;
      } else {
        stored := At(now);
      }
      checking := false;
    }

    method OnSignIn(now: int)
      modifies this
      ensures State() == old(State()).SignedIn(now)
    {
      stored := At(now);
      if locked {
        locked, checking, lastTouch := false, false, 0;
        LockIfPasswordVault(now);
      }
    }
  }

  // ----- timed runs -----

  datatype Event =
    | Interaction
    | PeriodicCheck
    | PassEnd(activeHasLock: bool)
    | SignIn
    | ActiveChanged(present: bool)

  datatype Timed = Timed(at: int, event: Event)

  function Step(c: Clock, e: Timed): Clock {
    match e.event
    case Interaction => c.Activity(e.at)
    case PeriodicCheck => c.Check(e.at)
    case PassEnd(activeHasLock) => c.PassEnds(e.at, activeHasLock)
    case SignIn => c.SignedIn(e.at)
    case ActiveChanged(present) => c.(active := present)
  }

  /** An interaction that found the session unexpired. */
  predicate Live(c: Clock, e: Timed) {
    e.event == Interaction && !c.locked && c.active && !c.Expired(e.at)
  }

  /** A lock pass starts at this event. */
  predicate StartsPass(c: Clock, e: Timed) {
    !c.checking && Step(c, e).checking
  }

  /** The page becomes locked at this event. */
  predicate Locks(c: Clock, e: Timed) {
    !c.locked && Step(c, e).locked
  }

  /**
   * The clock with what an observer remembers: the last live interaction, the last one since the
   * pass under way started, and whether the owner signed in since then.
   */
  datatype Watched = Watched(clock: Clock, lastLive: Option<int>, liveInPass: Option<int>, signedInPass: bool)

  function Fresh(c: Clock): Watched {
    Watched(c, None, None, false)
  }

  function Observe(w: Watched, e: Timed): Watched {
    var next := Step(w.clock, e);
    if StartsPass(w.clock, e) then Watched(next, w.lastLive, None, false)
    else if Live(w.clock, e) then Watched(next, Some(e.at), Some(e.at), w.signedInPass)
    else Watched(next, w.lastLive, w.liveInPass, w.signedInPass || e.event == SignIn)
  }

  function Watch(w: Watched, es: seq<Timed>): Watched
    decreases |es|
  {
    if es == [] then w else Watch(Observe(w, es[0]), es[1..])
  }

  /** The clock after a run. */
  function After(c: Clock, es: seq<Timed>): Clock
    decreases |es|
  {
    if es == [] then c else After(Step(c, es[0]), es[1..])
  }

  lemma {:induction false} WatchIsAfter(w: Watched, es: seq<Timed>)
    ensures Watch(w, es).clock == After(w.clock, es)
    decreases |es|
  {
    hide Step;
    if es != [] {
      WatchIsAfter(Observe(w, es[0]), es[1..]);
    }
  }

  /** Event times never go back. */
  predicate TimesFrom(start: int, es: seq<Timed>)
    decreases |es|
  {
    es == [] || (start <= es[0].at && TimesFrom(es[0].at, es[1..]))
  }

  function EndOf(start: int, es: seq<Timed>): int {
    if es == [] then start else es[|es| - 1].at
  }

  /** The last touch is on record, and the record trails the last live interaction by under 30 s. */
  predicate Trailing(w: Watched, now: int) {
    && w.clock.lastTouch <= now
    && (w.clock.lastTouch != 0 ==> w.clock.stored.At? && w.clock.lastTouch <= w.clock.stored.time)
    && (w.lastLive.Some? ==> w.clock.stored.At? && w.lastLive.value - w.clock.stored.time < TOUCH_INTERVAL_MS)
    && (w.lastLive.Some? ==> w.lastLive.value <= now)
  }

  /**
   * While a pass is under way: without a sign-in the session stays expired, so no interaction was
   * live since the pass started, and the last live one before it is long ago.
   */
  predicate PassWaits(w: Watched, now: int) {
    w.clock.checking ==>
      && !w.clock.locked
      && (!w.signedInPass ==> w.clock.stored.At? && now - w.clock.stored.time >= SESSION_TIMEOUT_MS)
      && (w.liveInPass.Some? ==> w.signedInPass && w.lastLive == w.liveInPass)
      && (w.liveInPass.None? && w.lastLive.Some? ==>
            now - w.lastLive.value > SESSION_TIMEOUT_MS - TOUCH_INTERVAL_MS)
  }

  lemma StepTrails(w: Watched, now: int, e: Timed)
    requires Trailing(w, now) && PassWaits(w, now) && now <= e.at && TOUCH_INTERVAL_MS <= now
    ensures Trailing(Observe(w, e), e.at) && PassWaits(Observe(w, e), e.at)
  {}

  /**
   * In every run with a non-decreasing clock the stored activity time stays less than 30 s
   * behind the last interaction that found the session unexpired.
   */
  lemma {:induction false} ActivityTimeTrails(w: Watched, now: int, es: seq<Timed>)
    requires Trailing(w, now) && PassWaits(w, now) && TOUCH_INTERVAL_MS <= now && TimesFrom(now, es)
    ensures Trailing(Watch(w, es), EndOf(now, es)) && PassWaits(Watch(w, es), EndOf(now, es))
    decreases |es|
  {
    hide Trailing, PassWaits, Observe;
    if es != [] {
      StepTrails(w, now, es[0]);
      ActivityTimeTrails(Observe(w, es[0]), es[0].at, es[1..]);
      if |es| > 1 {
        assert es[1..][|es| - 2] == es[|es| - 1];
      }
    }
  }

  /** A freshly opened page, whatever activity time it found in storage. */
  function Opened(stored: Stored, locked: bool, active: bool): Watched {
    Fresh(Clock(stored, 0, false, locked, active))
  }

  /**
   * When the lock falls within 570 s of a live interaction. In any run from a freshly opened page,
   * when the page becomes locked the last live interaction lies more than 570 s back, except in one
   * case: a pass was under way, the owner signed in on the still unlocked page, and an interaction
   * less than that ago followed.
   */
  lemma LockWithin570SecondsIff(stored: Stored, locked: bool, active: bool, start: int, es: seq<Timed>, e: Timed)
    requires 30_000 <= start && TimesFrom(start, es + [e])
    requires Locks(Watch(Opened(stored, locked, active), es).clock, e)
    ensures var w := Watch(Opened(stored, locked, active), es);
            && ((w.lastLive.Some? && e.at - w.lastLive.value <= 570_000)
                <==> (w.liveInPass.Some? && e.at - w.liveInPass.value <= 570_000))
            && (w.liveInPass.Some? ==> w.signedInPass)
  {
    TimesSplit(start, es, e);
    ActivityTimeTrails(Opened(stored, locked, active), start, es);
  }

  /** A lock pass itself never starts that soon: the exception is about passes already under way. */
  lemma NoPassWithin570Seconds(stored: Stored, locked: bool, active: bool, start: int, es: seq<Timed>, e: Timed)
    requires 30_000 <= start && TimesFrom(start, es + [e])
    ensures var w := Watch(Opened(stored, locked, active), es);
            StartsPass(w.clock, e) && w.lastLive.Some? ==>
              e.at - w.lastLive.value > 570_000
  {
    TimesSplit(start, es, e);
    ActivityTimeTrails(Opened(stored, locked, active), start, es);
  }

  /**
   * The exception happens: whenever an expired session is found by a check, the owner signs in
   * while the pass waits, interacts within the new window, and the pass then ends on an active
   * vault with a lock, the page locks although that interaction was live.
   */
  lemma SignInDuringPassIsLocked(c: Clock, check: int, signIn: int, click: int, end: int)
    requires c.Expired(check) && !c.locked && !c.checking
    requires check <= signIn <= click < signIn + 600_000 && click <= end
    ensures var w := Watch(Fresh(c), [Timed(check, PeriodicCheck), Timed(signIn, SignIn), Timed(click, Interaction)]);
            && w.lastLive == w.liveInPass == Some(click)
            && Locks(w.clock, Timed(end, PassEnd(true)))
  {
    var a, b, d := Timed(check, PeriodicCheck), Timed(signIn, SignIn), Timed(click, Interaction);
    assert [a, b, d][1..] == [b, d] && [b, d][1..] == [d];
    assert Watch(Fresh(c), [a, b, d]) == Watch(Observe(Observe(Fresh(c), a), b), [d]);
  }

  lemma {:induction false} TimesSplit(start: int, es: seq<Timed>, e: Timed)
    requires TimesFrom(start, es + [e])
    ensures TimesFrom(start, es) && EndOf(start, es) <= e.at
    decreases |es|
  {
    if es == [] {
      assert es + [e] == [e];
    } else {
      assert (es + [e])[1..] == es[1..] + [e];
      TimesSplit(es[0].at, es[1..], e);
    }
  }

  lemma {:induction false} TimesAfter(start: int, es: seq<Timed>)
    requires TimesFrom(start, es)
    ensures start <= EndOf(start, es)
    decreases |es|
  {
    if |es| > 1 {
      TimesAfter(es[0].at, es[1..]);
    }
  }

  // ----- what an expired session comes to -----

  predicate InteractionOrCheck(e: Timed) {
    e.event == Interaction || e.event == PeriodicCheck
  }

  /**
   * However often the owner interacts with an expired session, the clock is not touched: all that
   * happens is that a lock pass has started.
   */
  lemma {:induction false} ExpiredStaysExpired(c: Clock, now: int, es: seq<Timed>)
    requires c.Expired(now) && !c.locked && TimesFrom(now, es)
    requires forall i :: 0 <= i < |es| ==> InteractionOrCheck(es[i])
    ensures Watch(Fresh(c), es) == Fresh(c.(checking := c.checking || es != []))
    decreases |es|
  {
    if es != [] {
      assert InteractionOrCheck(es[0]);
      assert forall i :: 0 <= i < |es| - 1 ==> es[1..][i] == es[i + 1];
      ExpiredStaysExpired(Step(c, es[0]), es[0].at, es[1..]);
    }
  }

  /** A pass ends on an active vault with a lock exactly when it had one, or is given one by the pass. */
  lemma PassGivesLockIff(s: Store, replies: Replies, activeId: VaultId)
    requires s.Valid()
    ensures LockPass(s, replies).LockOf(activeId).Some?
       <==> s.LockOf(activeId).Some? || PassSeeds(s, activeId, replies)
  {
    hide Store.Valid, LockPass;
    LockPassVault(s, replies, activeId);
  }

  /**
   * Whether a session that was found expired is renewed after all, told before the first click
   * from the store and the server's answers: exactly when the active vault has no lock yet and is
   * not given one either, because it keeps no token at rest, is no password vault or the server
   * had no bundle for it. Otherwise the page locks and the stored time stays the expired one.
   */
  lemma ExpiredSessionRenewsIff(c: Clock, now: int, es: seq<Timed>, end: int, s: Store, replies: Replies,
                                activeId: VaultId)
    requires c.Expired(now) && !c.locked && es != [] && (forall i :: 0 <= i < |es| ==> InteractionOrCheck(es[i]))
    requires s.Valid()
    requires TimesFrom(now, es + [Timed(end, PassEnd(LockPass(s, replies).LockOf(activeId).Some?))])
    ensures var e := Timed(end, PassEnd(LockPass(s, replies).LockOf(activeId).Some?));
            var ended := Step(Watch(Fresh(c), es).clock, e);
            && (ended.stored != c.stored <==> s.LockOf(activeId).None? && !PassSeeds(s, activeId, replies))
            && (ended.Expired(end) <==> s.LockOf(activeId).Some? || PassSeeds(s, activeId, replies))
            && (ended.locked <==> s.LockOf(activeId).Some? || PassSeeds(s, activeId, replies))
  {
    hide LockPass, PassSeeds, Store.Valid;
    TimesSplit(now, es, Timed(end, PassEnd(LockPass(s, replies).LockOf(activeId).Some?)));
    ExpiredStaysExpired(c, now, es);
    TimesAfter(now, es);
    PassGivesLockIff(s, replies, activeId);
  }

  /** A device with one wallet vault: a token, no lock, and no email for an owner address. */
  const WALLET_DEVICE := EMPTY_STORE.SaveVaultMeta(
                           VaultMeta("v1", "vault", "bc1q", "Ada", "2026", Some("tok"), None, None))

  /** On it one click on an expired session renews it, whatever the server answers. */
  lemma WalletVaultRenews(c: Clock, now: int, end: int, replies: Replies)
    requires c.Expired(now) && !c.locked && now <= end
    ensures WALLET_DEVICE.Valid() && LockPass(WALLET_DEVICE, replies).LockOf("v1").None?
    ensures var ended := Step(Watch(Fresh(c), [Timed(now, Interaction)]).clock, Timed(end, PassEnd(false)));
            ended.stored == At(end) && !ended.locked && !ended.Expired(end)
  {
    assert WALLET_DEVICE.Valid() && WALLET_DEVICE.LockOf("v1").None?;
    assert !PassSeeds(WALLET_DEVICE, "v1", replies);
    PassGivesLockIff(WALLET_DEVICE, replies, "v1");
    var es := [Timed(now, Interaction)];
    assert es[1..] == [];
    hide LockPass;
    ExpiredStaysExpired(c, now, es);
  }

  // ----- how often the clock is written, and when an idle page locks -----

  /** How often a run changes the stored activity time. */
  function Writes(c: Clock, es: seq<Timed>): nat
    decreases |es|
  {
    if es == [] then 0
    else (if Step(c, es[0]).stored != c.stored then 1 else 0) + Writes(Step(c, es[0]), es[1..])
  }

  /** However often the owner interacts, a readable activity time is changed at most every 30 s. */
  lemma {:induction false} WritesAreRare(c: Clock, now: int, es: seq<Timed>)
    requires c.stored.At? && c.lastTouch <= now && TimesFrom(now, es)
    requires forall i :: 0 <= i < |es| ==> InteractionOrCheck(es[i])
    ensures 30_000 * Writes(c, es) <= EndOf(now, es) - c.lastTouch
    decreases |es|
  {
    if es != [] {
      assert InteractionOrCheck(es[0]);
      assert forall i :: 0 <= i < |es| - 1 ==> es[1..][i] == es[i + 1];
      WritesAreRare(Step(c, es[0]), es[0].at, es[1..]);
    }
  }

  /** An idle session is locked away in time: the first check ten minutes after the stored time starts a pass. */
  lemma {:induction false} IdleSessionLocks(c: Clock, now: int, es: seq<Timed>)
    requires c.active && !c.locked && !c.checking && c.stored.At? && !c.Expired(now) && TimesFrom(now, es)
    requires forall i :: 0 <= i < |es| ==> es[i].event == PeriodicCheck
    ensures Watch(Fresh(c), es).clock
         == c.(checking := EndOf(now, es) - c.stored.time >= 600_000)
    decreases |es|
  {
    if es != [] {
      assert es[0].event == PeriodicCheck;
      assert forall i :: 0 <= i < |es| - 1 ==> es[1..][i] == es[i + 1];
      if c.Expired(es[0].at) {
        assert forall i :: 0 <= i < |es| - 1 ==> InteractionOrCheck(es[1..][i]);
        ExpiredStaysExpired(Step(c, es[0]), es[0].at, es[1..]);
        TimesAfter(now, es);
        TimesAfter(es[0].at, es[1..]);
      } else {
        IdleSessionLocks(c, es[0].at, es[1..]);
      }
    }
  }

  // ----- signing in, and when the page is locked -----

  /**
   * After a sign-in the page is open, and the session lasts exactly ten minutes from it. From a locked
   * page no pass is left over, and the first interaction that finds the session live renews it.
   */
  lemma SignInOpens(c: Clock, now: int, later: int)
    requires now <= later
    ensures var d := Step(c, Timed(now, SignIn));
            && !d.locked && d.stored == At(now) && d.active == c.active
            && (d.Expired(later) <==> c.active && later - now >= 600_000)
            && (if c.locked then !d.checking else d.checking == c.checking)
            && (c.locked && c.active && 30_000 <= later < now + 600_000 ==>
                  Step(d, Timed(later, Interaction)).stored == At(later))
  {}

  /** Nobody signs in from the `i`-th event on. */
  predicate NoSignInFrom(es: seq<Timed>, i: int) {
    forall j :: 0 <= i <= j < |es| ==> es[j].event != SignIn
  }

  /** At the `i`-th event a pass under way ends on an active vault with a lock. */
  predicate LocksAt(c: Clock, es: seq<Timed>, i: int) {
    0 <= i < |es| && es[i].event == PassEnd(true) && After(c, es[..i]).checking
  }

  /** A pass of the rest of a run is one of the whole run, one event later. */
  lemma AfterNext(c: Clock, es: seq<Timed>, i: int)
    requires 0 < i < |es|
    ensures After(c, es[..i]) == After(Step(c, es[0]), es[1..][..i - 1])
    ensures es[1..][i - 1] == es[i]
  {
    assert es[..i][0] == es[0] && es[..i][1..] == es[1..][..i - 1];
  }

  /**
   * In every run the page is locked at the end exactly when the last thing to lock it came after the
   * last sign-in: a pass that ended on an active vault with a lock, or the state it was opened in.
   */
  lemma {:induction false} LockedIff(c: Clock, es: seq<Timed>)
    ensures After(c, es).locked
       <==> (c.locked && NoSignInFrom(es, 0)) || exists i :: LocksAt(c, es, i) && NoSignInFrom(es, i + 1)
    decreases |es|
  {
    if es != [] {
      var d := Step(c, es[0]);
      LockedIff(d, es[1..]);
      hide Step;
      NoSignInNext(es, 0);
      if i :| LocksAt(d, es[1..], i) && NoSignInFrom(es[1..], i + 1) {
        AfterNext(c, es, i + 1);
        NoSignInNext(es, i + 1);
        assert LocksAt(c, es, i + 1) && NoSignInFrom(es, i + 2);
      }
      if i :| LocksAt(c, es, i) && NoSignInFrom(es, i + 1) {
        if i > 0 {
          AfterNext(c, es, i);
          NoSignInNext(es, i);
          assert LocksAt(d, es[1..], i - 1) && NoSignInFrom(es[1..], i);
        }
      }
      FirstLocks(c, es);
    }
  }

  lemma NoSignInNext(es: seq<Timed>, i: int)
    requires es != [] && 0 <= i
    ensures NoSignInFrom(es[1..], i) <==> NoSignInFrom(es, i + 1)
    ensures NoSignInFrom(es, 0) <==> es[0].event != SignIn && NoSignInFrom(es[1..], 0)
  {
    assert forall j :: 1 <= j < |es| ==> es[j] == es[1..][j - 1];
    assert forall j :: 0 <= j < |es| - 1 ==> es[1..][j] == es[j + 1];
  }

  lemma FirstLocks(c: Clock, es: seq<Timed>)
    requires es != []
    ensures Step(c, es[0]).locked <==> LocksAt(c, es, 0) || (c.locked && es[0].event != SignIn)
  {
    assert es[..0] == [];
  }

  /** The `i`-th event finds an unlocked page with an active vault ten minutes or more after the stored time. */
  predicate ExpiresAt(c: Clock, es: seq<Timed>, i: int) {
    && 0 <= i < |es| && InteractionOrCheck(es[i])
    && (var d := After(c, es[..i]);
        !d.locked && d.active && d.stored.At? && es[i].at - d.stored.time >= 600_000)
  }

  predicate NoPassEndFrom(es: seq<Timed>, i: int) {
    forall j :: 0 <= i <= j < |es| ==> !es[j].event.PassEnd?
  }

  lemma NoPassEndNext(es: seq<Timed>, i: int)
    requires es != [] && 0 <= i
    ensures NoPassEndFrom(es[1..], i) <==> NoPassEndFrom(es, i + 1)
    ensures NoPassEndFrom(es, 0) <==> !es[0].event.PassEnd? && NoPassEndFrom(es[1..], 0)
  {
    assert forall j :: 1 <= j < |es| ==> es[j] == es[1..][j - 1];
    assert forall j :: 0 <= j < |es| - 1 ==> es[1..][j] == es[j + 1];
  }

  lemma FirstExpires(c: Clock, es: seq<Timed>)
    requires es != [] && !(c.locked && c.checking)
    ensures var d := Step(c, es[0]);
            && !(d.locked && d.checking)
            && (d.checking <==> ExpiresAt(c, es, 0) || (c.checking && !es[0].event.PassEnd?))
  {
    assert es[..0] == [];
  }

  /**
   * In every run a pass is under way at the end exactly when some interaction or check has found the
   * session expired, or a pass was under way at the start, and no pass has ended since.
   */
  lemma {:induction false} PassUnderWayIff(c: Clock, es: seq<Timed>)
    requires !(c.locked && c.checking)
    ensures After(c, es).checking
       <==> (c.checking && NoPassEndFrom(es, 0)) || exists i :: ExpiresAt(c, es, i) && NoPassEndFrom(es, i + 1)
    decreases |es|
  {
    if es != [] {
      hide Step;
      FirstExpires(c, es);
      var d := Step(c, es[0]);
      PassUnderWayIff(d, es[1..]);
      NoPassEndNext(es, 0);
      if i :| ExpiresAt(d, es[1..], i) && NoPassEndFrom(es[1..], i + 1) {
        AfterNext(c, es, i + 1);
        NoPassEndNext(es, i + 1);
        assert ExpiresAt(c, es, i + 1) && NoPassEndFrom(es, i + 2);
      }
      if i :| ExpiresAt(c, es, i) && NoPassEndFrom(es, i + 1) {
        if i > 0 {
          AfterNext(c, es, i);
          NoPassEndNext(es, i);
          assert ExpiresAt(d, es[1..], i - 1) && NoPassEndFrom(es[1..], i);
        }
      }
    }
  }

  /** An activity time that cannot be read counts as now: the first event that looks at it starts ten fresh minutes. */
  lemma UnreadableIsFresh(c: Clock, e: Timed)
    requires c.active && !c.locked && !c.checking && !c.stored.At? && InteractionOrCheck(e)
    ensures Step(c, e).stored == At(e.at) && !Step(c, e).checking && !Step(c, e).locked
  {}
}
