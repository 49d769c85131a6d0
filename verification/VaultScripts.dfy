/**
 * The two vault leaves on the tapscript machine: exactly which witnesses they accept, who can
 * spend and when, and what the timelock opcodes ask of the spending transaction.
 */
module VaultScripts {
  import opened Wrappers
  import opened ScriptNum
  import opened Tapscript
  import opened Miniscript
  import opened Descriptors

  // ----- timelocks -----

  /**
   * The builders accept exactly the timelocks of which the CSV check enforces every bit, as a number
   * of blocks: those of 1 to 16 bits.
   */
  lemma TimelockAcceptedIff(n: U32)
    ensures ValidateTimelock(n).None? <==> 0 < n && n % 0x1_0000 == n
    ensures ValidateTimelock(n).None? <==> 0 < n < TYPE_FLAG && MaskedSequence(n) == n
    ensures ValidateTimelock(n).Some? ==> ValidateTimelock(n).value == InvalidTimelock(n)
  {}

  /** The guardian builder accepts, with such a timelock, exactly the unlock heights the CLTV check reads as heights. */
  lemma GuardianAcceptedIff(p: GuardianDescriptorParams)
    ensures p.Validate()
         == if p.timelockBlocks == 0 || p.timelockBlocks % 0x1_0000 != p.timelockBlocks then
              Some(InvalidTimelock(p.timelockBlocks))
            else if p.unlockHeight.Some? && !(0 < p.unlockHeight.value < LOCKTIME_THRESHOLD) then
              Some(InvalidUnlockHeight(p.unlockHeight.value))
            else None
  {
    TimelockAcceptedIff(p.timelockBlocks);
  }

  /**
   * For every timelock the builders accept the CSV check passes exactly when the version is at
   * least 2, the disable and type bits are clear and the low 16 bits are at least the timelock.
   */
  lemma CsvExactly(n: U32, tx: Spend)
    requires ValidateTimelock(n).None?
    ensures CsvPasses(n, tx)
       <==> && tx.version >= 2
            && tx.sequence / 0x8000_0000 % 2 == 0 && tx.sequence / 0x40_0000 % 2 == 0
            && n <= tx.sequence % 0x1_0000
  {
    assert n / DISABLE_FLAG == 0 && n / TYPE_FLAG == 0;
    assert n % 0x1_0000 == n;
  }

  /** For every unlock height the builder accepts the CLTV check passes exactly for heights at least that, not final. */
  lemma CltvExactly(h: U32, tx: Spend)
    requires 0 < h < MAX_CLTV_HEIGHT
    ensures CltvPasses(h, tx) <==> h <= tx.lockTime < 500_000_000 && tx.sequence != 0xFFFF_FFFF
  {}

  /** The claim the wallet builds: `nSequence` is the timelock, and `nLockTime` a block height or zero. */
  function WalletClaim(n: U32, lockTime: nat, signatures: set<(Bytes, Bytes)>): Spend {
    Spend(2, n, lockTime, signatures)
  }

  /** The lock time of a guardian claim: the tip height, or zero when it is no height. */
  function TipLockTime(tip: nat): nat {
    if tip < LOCKTIME_THRESHOLD then tip else 0
  }

  /**
   * The wallet's claim always passes the CSV check, and a guardian claim passes the CLTV check
   * exactly once the tip has reached the unlock height.
   */
  lemma WalletClaimPasses(p: GuardianDescriptorParams, tip: nat, signatures: set<(Bytes, Bytes)>)
    requires p.Validate().None?
    ensures CsvPasses(p.timelockBlocks, WalletClaim(p.timelockBlocks, 0, signatures))
    ensures CsvPasses(p.timelockBlocks, WalletClaim(p.timelockBlocks, TipLockTime(tip), signatures))
    ensures p.unlockHeight.Some? ==>
              (CltvPasses(p.unlockHeight.value, WalletClaim(p.timelockBlocks, TipLockTime(tip), signatures))
               <==> p.unlockHeight.value <= tip < LOCKTIME_THRESHOLD)
  {
    CsvExactly(p.timelockBlocks, WalletClaim(p.timelockBlocks, 0, signatures));
    CsvExactly(p.timelockBlocks, WalletClaim(p.timelockBlocks, TipLockTime(tip), signatures));
  }

  // ----- the scripts -----

  /** The standard leaf, opcode by opcode. */
  lemma StandardScript(owner: XOnly, heir: XOnly, n: U32)
    ensures Compile(StandardTree(owner, heir, n))
         == [Push(owner), CheckSig, IfDup, NotIf,
             Push(heir), CheckSigVerify, Push(Encode(n)), CheckSequenceVerify, EndIf]
  {
    ScriptOfV(heir);
    assert Compile(AndV(V(Pk(heir)), Older(n)))
        == [Push(heir), CheckSigVerify, Push(Encode(n)), CheckSequenceVerify];
  }

  lemma ScriptOfV(key: XOnly)
    ensures Compile(V(Pk(key))) == [Push(key), CheckSigVerify]
  {
    assert [Push(key), CheckSig][..1] == [Push(key)];
  }

  lemma ScriptOfLock(lock: Expr<XOnly>)
    requires lock.Older? || lock.After?
    ensures Compile(V(lock))
         == match lock
            case Older(n) => [Push(Encode(n)), CheckSequenceVerify, Verify]
            case After(h) => [Push(Encode(h)), CheckLockTimeVerify, Verify]
            case _ => []
  {}

  /** The guardian leaf, with or without an unlock height. */
  lemma GuardianScript(owner: XOnly, heir: XOnly, g1: XOnly, g2: XOnly, n: U32, unlock: Option<U32>)
    ensures Compile(GuardianTree(owner, heir, g1, g2, n, unlock))
         == [Push(owner), CheckSig, IfDup, NotIf, Push(heir), CheckSigVerify]
            + [Push(Encode(n)), CheckSequenceVerify, Verify]
            + (if unlock.Some? then [Push(Encode(unlock.value)), CheckLockTimeVerify, Verify] else [])
            + [Push(g1), CheckSig, Swap, Push(g2), CheckSig, BoolOr, EndIf]
  {
    var locks := if unlock.Some? then [Push(Encode(unlock.value)), CheckLockTimeVerify, Verify] else [];
    var slots := [Push(g1), CheckSig, Swap, Push(g2), CheckSig, BoolOr];
    GatedScript(g1, g2, unlock);
    ScriptOfV(heir);
    ScriptOfLock(Older(n));
    hide Compile, Gated, Encode;
    CompileClaim(owner, heir, n, Gated(g1, g2, unlock), locks + slots);
    assert slots + [EndIf] == [Push(g1), CheckSig, Swap, Push(g2), CheckSig, BoolOr, EndIf];
  }

  lemma SlotsScript(g1: XOnly, g2: XOnly)
    ensures Compile(GuardianOr(g1, g2)) == [Push(g1), CheckSig, Swap, Push(g2), CheckSig, BoolOr]
  {
    assert Compile(S(Pk(g2))) == [Swap, Push(g2), CheckSig];
  }

  lemma GatedScript(g1: XOnly, g2: XOnly, unlock: Option<U32>)
    ensures Compile(Gated(g1, g2, unlock))
         == (if unlock.Some? then [Push(Encode(unlock.value)), CheckLockTimeVerify, Verify] else [])
            + [Push(g1), CheckSig, Swap, Push(g2), CheckSig, BoolOr]
  {
    SlotsScript(g1, g2);
    hide Encode, GuardianOr;
    if unlock.Some? {
      ScriptOfLock(After(unlock.value));
    }
  }

  lemma CompileClaim(owner: XOnly, heir: XOnly, n: U32, gated: Expr<XOnly>, script: Script)
    requires Compile(gated) == script && Compile(V(Pk(heir))) == [Push(heir), CheckSigVerify]
    requires Compile(V(Older(n))) == [Push(Encode(n)), CheckSequenceVerify, Verify]
    ensures Compile(OrD(Pk(owner), AndV(V(Pk(heir)), AndV(V(Older(n)), gated))))
         == [Push(owner), CheckSig, IfDup, NotIf, Push(heir), CheckSigVerify]
            + [Push(Encode(n)), CheckSequenceVerify, Verify] + script + [EndIf]
  {
    hide Encode;
    assert Compile(AndV(V(Older(n)), gated)) == [Push(Encode(n)), CheckSequenceVerify, Verify] + script;
  }

  // ----- exact witnesses -----

  lemma StandardEval(owner: XOnly, heir: XOnly, n: nat, tx: Spend, w: Stack)
    ensures Eval(StandardTree(owner, heir, n), tx, w)
         == if w == [] then None
            else if Top(w) == FALSE then
              if Pop(w) == [] || !ValidSignature(tx, heir, Top(Pop(w))) || !CsvPasses(n, tx) then None
              else Some(Pop(Pop(w)) + [Encode(n)])
            else if ValidSignature(tx, owner, Top(w)) then Some(Pop(w) + [TRUE])
            else None
  {
    UnitTruth();
    hide ValidSignature, CsvPasses, Encode, Truthy;
    if w != [] && Top(w) == FALSE {
      assert Pop(Pop(w) + [FALSE]) == Pop(w);
      VerifiedKey(heir, tx, Pop(w));
      assert Eval(AndV(V(Pk(heir)), Older(n)), tx, Pop(w))
          == if Pop(w) == [] || !ValidSignature(tx, heir, Top(Pop(w))) || !CsvPasses(n, tx) then None
             else Some(Pop(Pop(w)) + [Encode(n)]);
    }
  }

  /** `v:pk` takes a valid signature off the stack and aborts on anything else. */
  lemma VerifiedKey(key: XOnly, tx: Spend, s: Stack)
    ensures Eval(V(Pk(key)), tx, s)
         == if s == [] || !ValidSignature(tx, key, Top(s)) then None else Some(Pop(s))
  {
    UnitTruth();
    hide Truthy;
    if s != [] {
      assert Pop(Pop(s) + [TRUE]) == Pop(s);
    }
  }

  /** The standard leaf accepts exactly `[owner_sig]` and, once the timelock passes, `[heir_sig, <empty>]`. */
  lemma StandardAccepts(owner: XOnly, heir: XOnly, n: U32, tx: Spend, w: Stack)
    requires ValidateTimelock(n).None?
    ensures Accepts(Compile(StandardTree(owner, heir, n)), tx, w)
       <==> || (|w| == 1 && ValidSignature(tx, owner, w[0]))
            || (|w| == 2 && w[1] == FALSE && ValidSignature(tx, heir, w[0]) && CsvPasses(n, tx))
  {
    StandardTyped(owner, heir, n);
    AcceptsIsEval(StandardTree(owner, heir, n), tx, w);
    StandardEval(owner, heir, n, tx, w);
    RoundTrip(n);
    UnitTruth();
    hide Accepts, Compile, Eval, ValidSignature, CsvPasses, Truthy, Encode;
    if w != [] && Top(w) == FALSE && Pop(w) != [] {
      assert Top(Pop(w)) == w[|w| - 2];
    }
  }

  predicate EmptyOrSigned(tx: Spend, key: XOnly, item: Bytes) {
    item == FALSE || ValidSignature(tx, key, item)
  }

  /** The guardian disjunction takes two slots, each empty or signed, and tells whether one is signed. */
  lemma GuardianOrEval(g1: XOnly, g2: XOnly, tx: Spend, s: Stack)
    ensures Eval(GuardianOr(g1, g2), tx, s)
         == if |s| < 2 || !EmptyOrSigned(tx, g1, Top(s)) || !EmptyOrSigned(tx, g2, Top(Pop(s))) then None
            else Some(Pop(Pop(s)) + [if Top(s) != FALSE || Top(Pop(s)) != FALSE then TRUE else FALSE])
  {
    UnitTruth();
    hide Truthy;
    if s != [] && EmptyOrSigned(tx, g1, Top(s)) {
      var v := if Top(s) == FALSE then FALSE else TRUE;
      var t := Pop(s) + [v];
      assert Eval(Pk(g1), tx, s) == Some(t);
      if |s| >= 2 {
        var swapped := Pop(Pop(s)) + [v, Top(Pop(s))];
        assert Pop(Pop(t)) + [Top(t), Top(Pop(t))] == swapped;
        assert Eval(S(Pk(g2)), tx, t) == Eval(Pk(g2), tx, swapped);
        assert Pop(swapped) == Pop(Pop(s)) + [v];
        var b := if Top(Pop(s)) == FALSE then FALSE else TRUE;
        assert Pop(Pop(Pop(swapped) + [b])) == Pop(Pop(s));
      }
    }
  }

  predicate LocksPass(n: nat, unlock: Option<nat>, tx: Spend) {
    CsvPasses(n, tx) && (unlock.Some? ==> CltvPasses(unlock.value, tx))
  }

  lemma VerifiedLock(lock: Expr<XOnly>, tx: Spend, s: Stack)
    requires (lock.Older? && TimelockOperand(lock.blocks)) || (lock.After? && TimelockOperand(lock.height))
    ensures Eval(V(lock), tx, s)
         == if (if lock.Older? then CsvPasses(lock.blocks, tx) else CltvPasses(lock.height, tx)) then Some(s) else None
  {
    var n := if lock.Older? then lock.blocks else lock.height;
    RoundTrip(n);
    assert Pop(s + [Encode(n)]) == s;
  }

  /** What follows the heir's signature: both timelocks, then the guardians. */
  lemma LockedGuardiansEval(g1: XOnly, g2: XOnly, n: nat, unlock: Option<nat>, tx: Spend, s: Stack)
    requires TimelockOperand(n) && (unlock.Some? ==> TimelockOperand(unlock.value))
    ensures Eval(AndV(V(Older(n)), Gated(g1, g2, unlock)), tx, s)
         == if LocksPass(n, unlock, tx) then Eval(GuardianOr(g1, g2), tx, s) else None
  {
    hide CsvPasses, CltvPasses, GuardianOr;
    VerifiedLock(Older(n), tx, s);
    match unlock
    case None =>
    case Some(h) =>
      VerifiedLock(After(h), tx, s);
      assert Eval(Gated(g1, g2, unlock), tx, s)
          == if CltvPasses(h, tx) then Eval(GuardianOr(g1, g2), tx, s) else None;
  }

  lemma GuardianClaimEval(heir: XOnly, g1: XOnly, g2: XOnly, n: nat, unlock: Option<nat>, tx: Spend, s: Stack)
    requires TimelockOperand(n) && (unlock.Some? ==> TimelockOperand(unlock.value))
    ensures Eval(AndV(V(Pk(heir)), AndV(V(Older(n)), Gated(g1, g2, unlock))), tx, s)
         == if s == [] || !ValidSignature(tx, heir, Top(s)) || !LocksPass(n, unlock, tx) then None
            else Eval(GuardianOr(g1, g2), tx, Pop(s))
  {
    hide ValidSignature, LocksPass, Gated, GuardianOr;
    VerifiedKey(heir, tx, s);
    if s != [] {
      LockedGuardiansEval(g1, g2, n, unlock, tx, Pop(s));
    }
  }

  /** `[g2, g1, heir_sig, <empty>]`: the heir signed, each guardian slot is empty or signed, one is signed. */
  predicate GuardianClaim(heir: XOnly, g1: XOnly, g2: XOnly, tx: Spend, w: Stack) {
    && |w| == 4
    && w[3] == FALSE
    && ValidSignature(tx, heir, w[2])
    && EmptyOrSigned(tx, g1, w[1])
    && EmptyOrSigned(tx, g2, w[0])
    && (w[1] != FALSE || w[0] != FALSE)
  }

  /** The claim branch on the stack below the empty owner slot. */
  lemma GuardianClaimAccepts(heir: XOnly, g1: XOnly, g2: XOnly, n: nat, unlock: Option<nat>, tx: Spend, w: Stack)
    requires TimelockOperand(n) && (unlock.Some? ==> TimelockOperand(unlock.value))
    requires w != [] && Top(w) == FALSE
    ensures var r := Eval(AndV(V(Pk(heir)), AndV(V(Older(n)), Gated(g1, g2, unlock))), tx, Pop(w));
            r.Some? && |r.value| == 1 && Truthy(r.value[0])
            <==> GuardianClaim(heir, g1, g2, tx, w) && LocksPass(n, unlock, tx)
  {
    GuardianClaimEval(heir, g1, g2, n, unlock, tx, Pop(w));
    UnitTruth();
    hide Eval, ValidSignature, LocksPass, Truthy, Gated, GuardianOr, EmptyOrSigned;
    if Pop(w) != [] {
      var slots := Pop(Pop(w));
      GuardianOrEval(g1, g2, tx, slots);
      assert Top(Pop(w)) == w[|w| - 2];
      if |slots| >= 2 {
        assert Top(slots) == w[|w| - 3] && Top(Pop(slots)) == w[|w| - 4];
        assert |Pop(Pop(slots))| == |w| - 4;
      }
    }
  }

  /**
   * The guardian leaf accepts exactly `[owner_sig]` and, once the timelocks pass, the stacks
   * `[g2, g1, heir_sig, <empty>]` in which at least one guardian slot is signed.
   */
  lemma GuardianAccepts(owner: XOnly, heir: XOnly, g1: XOnly, g2: XOnly, n: U32, unlock: Option<U32>,
                        tx: Spend, w: Stack)
    requires ValidateTimelock(n).None? && (unlock.Some? ==> 0 < unlock.value < MAX_CLTV_HEIGHT)
    ensures Accepts(Compile(GuardianTree(owner, heir, g1, g2, n, unlock)), tx, w)
       <==> || (|w| == 1 && ValidSignature(tx, owner, w[0]))
            || (GuardianClaim(heir, g1, g2, tx, w) && LocksPass(n, unlock, tx))
  {
    var tree := GuardianTree(owner, heir, g1, g2, n, unlock);
    GuardianTyped(owner, heir, g1, g2, n, unlock);
    AcceptsIsEval(tree, tx, w);
    UnitTruth();
    hide Accepts, Compile, ValidSignature, LocksPass, Truthy, Gated, GuardianOr, GuardianClaim;
    if w != [] && Top(w) == FALSE {
      var claim := AndV(V(Pk(heir)), AndV(V(Older(n)), Gated(g1, g2, unlock)));
      assert Pop(Pop(w) + [FALSE]) == Pop(w);
      assert Eval(tree, tx, w) == Eval(claim, tx, Pop(w));
      GuardianClaimAccepts(heir, g1, g2, n, unlock, tx, w);
      OwnerSlotEmpty(owner, tx, w);
    } else {
      ClaimNeedsEmptySlot(heir, g1, g2, tx, w);
    }
  }

  lemma OwnerSlotEmpty(owner: XOnly, tx: Spend, w: Stack)
    requires w != [] && Top(w) == FALSE
    ensures !(|w| == 1 && ValidSignature(tx, owner, w[0]))
  {}

  lemma ClaimNeedsEmptySlot(heir: XOnly, g1: XOnly, g2: XOnly, tx: Spend, w: Stack)
    requires w == [] || Top(w) != FALSE
    ensures !GuardianClaim(heir, g1, g2, tx, w)
  {}
}
