/**
 * The claim the wallet builds for the heir: one transaction that drains every coin of the vault. In
 * which blocks it confirms, against the consensus rules of `Blockchain`.
 */
module WalletClaims {
  import opened Wrappers
  import opened ScriptNum
  import opened Tapscript
  import opened Miniscript
  import opened Descriptors
  import opened VaultScripts
  import opened Blockchain

  /** What all addresses of a vault share: its timelock, whether it has guardians, and its unlock height. */
  datatype Terms = Terms(timelock: U32, guarded: bool, unlock: Option<U32>) {

    /** The lock time of a claim built on a tip: a guardian claim takes the tip, an heir's claim none. */
    function LockTime(tip: nat): U32 {
      if guarded then TipLockTime(tip) else 0
    }
  }

  ghost predicate HasTerms(v: Vault, t: Terms) {
    forall a: Address ::
      && v(a).Valid() && v(a).timelock == t.timelock
      && (v(a).claim.WithGuardian? <==> t.guarded) && v(a).Unlock() == t.unlock
  }

  function Slot(key: XOnly, keys: set<XOnly>): Bytes {
    if key in keys then TRUE else FALSE
  }

  /** The stack the wallet finalises: the claim branch, with a signature by each claim key it holds. */
  function ClaimStack(d: Derived, keys: set<XOnly>): Stack {
    match d.claim
    case HeirAlone => [Slot(d.heir, keys), FALSE]
    case WithGuardian(g1, g2, _) => [Slot(g2, keys), Slot(g1, keys), Slot(d.heir, keys), FALSE]
  }

  function ClaimInput(d: Derived, c: CoinId, lockTime: U32, keys: set<XOnly>): Input {
    var claim := WalletClaim(d.timelock, lockTime, SignaturesBy(keys));
    Input(c, claim.sequence, ScriptPath(Compile(d.Leaf()), ClaimStack(d, keys)), claim.signatures)
  }

  /** The wallet's transaction over the coins `cs`, built on a tip, with the keys it holds at each address. */
  function ClaimTx(v: Vault, t: Terms, coins: map<CoinId, Coin>, cs: seq<CoinId>, tip: nat,
                   held: Address -> set<XOnly>): Tx
    requires AllThere(coins, cs)
  {
    Tx(2, t.LockTime(tip),
       seq(|cs|, i requires 0 <= i < |cs| =>
         ClaimInput(v(coins[cs[i]].at), cs[i], t.LockTime(tip), held(coins[cs[i]].at))),
       [])
  }

  // ----- one input -----

  /** An input with the wallet's sequence may be mined exactly once its coin is `n` blocks old. */
  lemma ClaimWaits(n: U32, lockTime: U32, signatures: set<(Bytes, Bytes)>, coin: Coin, height: nat, medianTime: nat)
    requires ValidateTimelock(n).None?
    ensures var claim := WalletClaim(n, lockTime, signatures);
            SequenceLockPasses(claim.version, claim.sequence, coin, height, medianTime) <==> coin.height + n <= height
  {
    TimelockAcceptedIff(n);
    assert n / DISABLE_FLAG == 0 && n / TYPE_FLAG == 0;
  }

  lemma SlotSigned(key: XOnly, keys: set<XOnly>, tx: Spend)
    requires tx.signatures == SignaturesBy(keys)
    ensures ValidSignature(tx, key, Slot(key, keys)) <==> key in keys
    ensures EmptyOrSigned(tx, key, Slot(key, keys)) && (Slot(key, keys) != FALSE <==> key in keys)
  {}

  /** The wallet's witness opens the leaf exactly when it holds the claim keys and both timelock checks pass. */
  lemma ClaimStackAccepted(d: Derived, keys: set<XOnly>, tx: Spend)
    requires d.Valid() && tx.signatures == SignaturesBy(keys)
    ensures Accepts(Compile(d.Leaf()), tx, ClaimStack(d, keys))
       <==> d.ClaimKeys(keys) && LocksPass(d.timelock, d.Unlock(), tx)
  {
    hide Accepts, Compile, CsvPasses, CltvPasses, ValidSignature;
    SlotSigned(d.heir, keys, tx);
    match d.claim
    case HeirAlone =>
      StandardAccepts(d.owner, d.heir, d.timelock, tx, ClaimStack(d, keys));
    case WithGuardian(g1, g2, unlock) =>
      SlotSigned(g1, keys, tx);
      SlotSigned(g2, keys, tx);
      GuardianAccepts(d.owner, d.heir, g1, g2, d.timelock, unlock, tx, ClaimStack(d, keys));
  }

  /** A guardian claim needs a tip at the unlock height, and one that can be written as a height. */
  predicate Unlocked(unlock: Option<U32>, tip: nat) {
    unlock.Some? ==> unlock.value <= tip < 500_000_000
  }

  lemma ClaimLocks(d: Derived, t: Terms, tip: nat, signatures: set<(Bytes, Bytes)>)
    requires d.Valid()
    requires d.timelock == t.timelock && (d.claim.WithGuardian? <==> t.guarded) && d.Unlock() == t.unlock
    ensures LocksPass(d.timelock, d.Unlock(), WalletClaim(d.timelock, t.LockTime(tip), signatures))
       <==> Unlocked(t.unlock, tip)
  {
    WalletClaimPasses(GuardianDescriptorParams("", "", "", "", d.timelock, d.Unlock()), tip, signatures);
    hide CsvPasses, CltvPasses;
  }

  lemma ClaimInputPasses(d: Derived, t: Terms, tx: Tx, c: CoinId, coin: Coin, tip: nat, keys: set<XOnly>,
                         height: nat, medianTime: nat)
    requires d.Valid()
    requires d.timelock == t.timelock && (d.claim.WithGuardian? <==> t.guarded) && d.Unlock() == t.unlock
    requires tx.version == 2 && tx.lockTime == t.LockTime(tip)
    ensures InputPasses(d, tx, ClaimInput(d, c, t.LockTime(tip), keys), coin, height, medianTime)
       <==> d.ClaimKeys(keys) && coin.height + t.timelock <= height && Unlocked(t.unlock, tip)
  {
    var signatures := SignaturesBy(keys);
    var claim := WalletClaim(d.timelock, t.LockTime(tip), signatures);
    assert ViewOf(tx, ClaimInput(d, c, t.LockTime(tip), keys)) == claim;
    ClaimWaits(d.timelock, t.LockTime(tip), signatures, coin, height, medianTime);
    ClaimLocks(d, t, tip, signatures);
    ClaimStackAccepted(d, keys, claim);
    hide Accepts, Compile, ClaimStack, LocksPass, SequenceLockPasses;
  }

  // ----- the whole transaction -----

  predicate NoneTwice(cs: seq<CoinId>) {
    forall i, j :: 0 <= i < j < |cs| ==> cs[i] != cs[j]
  }

  predicate AllThere(coins: map<CoinId, Coin>, cs: seq<CoinId>) {
    forall i :: 0 <= i < |cs| ==> cs[i] in coins
  }

  /** For every coin the wallet holds the claim keys, and both timelocks have passed. */
  predicate Claimable(v: Vault, t: Terms, coins: map<CoinId, Coin>, cs: seq<CoinId>, height: nat, tip: nat,
                      held: Address -> set<XOnly>)
    requires AllThere(coins, cs)
  {
    forall i :: 0 <= i < |cs| ==>
      && v(coins[cs[i]].at).ClaimKeys(held(coins[cs[i]].at))
      && coins[cs[i]].height + t.timelock <= height && Unlocked(t.unlock, tip)
  }

  /** The inputs from the `k`-th on are applied exactly when their coins are claimable, and take exactly these. */
  lemma {:induction false} ClaimInputs(v: Vault, t: Terms, coins: map<CoinId, Coin>, cs: seq<CoinId>, tip: nat,
                                       held: Address -> set<XOnly>, medianTime: nat, k: nat, st: State)
    requires HasTerms(v, t) && NoneTwice(cs) && AllThere(coins, cs) && k <= |cs|
    requires forall i :: k <= i < |cs| ==> cs[i] in st.coins && st.coins[cs[i]] == coins[cs[i]]
    ensures var tx := ClaimTx(v, t, coins, cs, tip, held);
            var r := ApplyInputs(v, medianTime, tx, tx.inputs[k..], st);
            && (r.Some? <==> Claimable(v, t, coins, cs[k..], st.height, tip, held))
            && (r.Some? ==> r.value.coins == st.coins - (set i | k <= i < |cs| :: cs[i])
                            && r.value.height == st.height && r.value.seen == st.seen
                            && |r.value.spends| == |st.spends| + |cs| - k)
    decreases |cs| - k
  {
    hide InputPasses, Derived.Valid, Derived.ClaimKeys, Derived.Unlock, Unlocked;
    var tx := ClaimTx(v, t, coins, cs, tip, held);
    if k < |cs| {
      var c, d := cs[k], v(coins[cs[k]].at);
      assert tx.inputs[k..][0] == tx.inputs[k] && tx.inputs[k..][1..] == tx.inputs[k + 1..];
      assert tx.inputs[k] == ClaimInput(d, c, t.LockTime(tip), held(coins[c].at));
      ClaimInputPasses(d, t, tx, c, coins[c], tip, held(coins[c].at), st.height, medianTime);
      assert cs[k..][0] == c && cs[k..][1..] == cs[k + 1..];
      ClaimableNext(v, t, coins, cs[k..], st.height, tip, held);
      var next := ApplyInput(v, medianTime, tx, tx.inputs[k], st);
      hide Claimable;
      if next.Some? {
        ClaimInputs(v, t, coins, cs, tip, held, medianTime, k + 1, next.value);
        assert (set i | k <= i < |cs| :: cs[i]) == {c} + (set i | k + 1 <= i < |cs| :: cs[i]);
      }
    }
  }

  lemma ClaimableNext(v: Vault, t: Terms, coins: map<CoinId, Coin>, cs: seq<CoinId>, height: nat, tip: nat,
                      held: Address -> set<XOnly>)
    requires cs != [] && AllThere(coins, cs)
    ensures Claimable(v, t, coins, cs, height, tip, held)
       <==> && v(coins[cs[0]].at).ClaimKeys(held(coins[cs[0]].at))
            && coins[cs[0]].height + t.timelock <= height && Unlocked(t.unlock, tip)
            && Claimable(v, t, coins, cs[1..], height, tip, held)
  {
    hide Derived.ClaimKeys, Unlocked;
    if Claimable(v, t, coins, cs[1..], height, tip, held) {
      assert forall i :: 1 <= i < |cs| ==> cs[i] == cs[1..][i - 1];
    }
  }

  /**
   * A claim over some coins, built on a tip, is valid in a later block if and only if for every coin
   * the wallet held the claim keys, the coin has aged by the timelock, and the tip had reached the
   * unlock height. It then takes exactly those coins. An heir's claim does not depend on the tip.
   */
  lemma ClaimValidIff(v: Vault, t: Terms, st: State, medianTime: nat, cs: seq<CoinId>, tip: nat,
                      held: Address -> set<XOnly>)
    requires HasTerms(v, t) && NoneTwice(cs) && AllThere(st.coins, cs) && (t.guarded ==> tip < st.height)
    ensures var r := ApplyTx(v, medianTime, ClaimTx(v, t, st.coins, cs, tip, held), st);
            && (r.Some? <==> Claimable(v, t, st.coins, cs, st.height, tip, held))
            && (r.Some? ==> r.value.coins == st.coins - (set i | 0 <= i < |cs| :: cs[i])
                            && |r.value.spends| == |st.spends| + |cs|)
  {
    var tx := ClaimTx(v, t, st.coins, cs, tip, held);
    ClaimInputs(v, t, st.coins, cs, tip, held, medianTime, 0, st);
    assert tx.inputs[0..] == tx.inputs && cs[0..] == cs;
    hide ApplyInputs, Claimable;
  }

  /**
   * With the claim keys in hand, the claim on the current tip is minable in the very next block exactly
   * when that block has reached the claim height of every coin it drains.
   */
  lemma ClaimMinableFromClaimHeight(v: Vault, t: Terms, st: State, medianTime: nat, cs: seq<CoinId>,
                                    held: Address -> set<XOnly>)
    requires HasTerms(v, t) && NoneTwice(cs) && AllThere(st.coins, cs) && 0 < st.height <= 500_000_000
    requires forall i :: 0 <= i < |cs| ==> v(st.coins[cs[i]].at).ClaimKeys(held(st.coins[cs[i]].at))
    ensures ApplyTx(v, medianTime, ClaimTx(v, t, st.coins, cs, st.height - 1, held), st).Some?
       <==> forall i :: 0 <= i < |cs| ==> v(st.coins[cs[i]].at).ClaimHeight(st.coins[cs[i]].height) <= st.height
  {
    ClaimValidIff(v, t, st, medianTime, cs, st.height - 1, held);
    forall i | 0 <= i < |cs|
      ensures v(st.coins[cs[i]].at).ClaimHeight(st.coins[cs[i]].height) <= st.height
         <==> st.coins[cs[i]].height + t.timelock <= st.height && Unlocked(t.unlock, st.height - 1)
    {
      assert v(st.coins[cs[i]].at).Valid();
    }
    hide ApplyTx, Derived.ClaimHeight, Derived.ClaimKeys;
  }
}
