/**
 * Vault coins on a chain, block by block: deposits, spends, and the consensus rules that decide
 * which spends a block may hold. The safety theorems are about every run of valid blocks.
 */
module Blockchain {
  import opened Wrappers
  import opened ScriptNum
  import opened Tapscript
  import opened Miniscript
  import opened Descriptors
  import opened VaultScripts
  import opened Keys

  // ----- vaults -----

  datatype Claim =
    | HeirAlone
    | WithGuardian(guardian1: XOnly, guardian2: XOnly, unlock: Option<U32>)

  /** One address of a vault: the receive or change chain, and the index on it. */
  datatype Address = Address(chain: Chain, index: nat)

  /** A vault as derived at one address: its Taproot output key, the script keys and the timelocks. */
  datatype Derived = Derived(outputKey: XOnly, owner: XOnly, heir: XOnly, timelock: U32, claim: Claim) {

    predicate Valid() {
      && ValidateTimelock(timelock).None?
      && (Unlock().Some? ==> 0 < Unlock().value < MAX_CLTV_HEIGHT)
    }

    function Unlock(): Option<U32> {
      if claim.HeirAlone? then None else claim.unlock
    }

    function Leaf(): Expr<XOnly> {
      match claim
      case HeirAlone => StandardTree(owner, heir, timelock)
      case WithGuardian(g1, g2, unlock) => GuardianTree(owner, heir, g1, g2, timelock, unlock)
    }

    /** The keys the claim branch needs: the heir's, and one guardian's in a guardian vault. */
    predicate ClaimKeys(keys: set<XOnly>) {
      heir in keys && (claim.WithGuardian? ==> claim.guardian1 in keys || claim.guardian2 in keys)
    }

    /** The first block height at which the claim branch may spend a coin confirmed at `confirmed`. */
    function ClaimHeight(confirmed: nat): nat {
      var relative := confirmed + timelock;
      match Unlock()
      case None => relative
      case Some(h) => if relative > h then relative else h + 1
    }
  }

  /** A whole vault: what it derives at each of its addresses. */
  type Vault = Address -> Derived

  ghost predicate ValidVault(v: Vault) {
    forall a: Address :: v(a).Valid()
  }

  /** The policy of either vault leaf, in its owner's words. */
  lemma LeafPolicy(v: Derived, keys: set<XOnly>, tx: Spend)
    requires v.Valid()
    ensures ValidLeaf(v.Leaf())
    ensures Holds(v.Leaf(), keys, tx)
       <==> v.owner in keys || (v.ClaimKeys(keys) && LocksPass(v.timelock, v.Unlock(), tx))
  {
    hide CsvPasses, CltvPasses;
    match v.claim
    case HeirAlone =>
      StandardTyped(v.owner, v.heir, v.timelock);
      assert Holds(V(Pk(v.heir)), keys, tx) <==> v.heir in keys;
      assert Holds(AndV(V(Pk(v.heir)), Older(v.timelock)), keys, tx)
        <==> v.heir in keys && CsvPasses(v.timelock, tx);
    case WithGuardian(g1, g2, unlock) =>
      GuardianTyped(v.owner, v.heir, g1, g2, v.timelock, unlock);
      GuardianPolicy(v.heir, g1, g2, v.timelock, unlock, keys, tx);
  }

  lemma GuardianPolicy(heir: XOnly, g1: XOnly, g2: XOnly, n: nat, unlock: Option<nat>, keys: set<XOnly>, tx: Spend)
    ensures Holds(AndV(V(Pk(heir)), AndV(V(Older(n)), Gated(g1, g2, unlock))), keys, tx)
       <==> heir in keys && (g1 in keys || g2 in keys) && LocksPass(n, unlock, tx)
  {
    hide CsvPasses, CltvPasses;
    var gated := Gated(g1, g2, unlock);
    assert Holds(S(Pk(g2)), keys, tx) <==> g2 in keys;
    assert Holds(GuardianOr(g1, g2), keys, tx) <==> g1 in keys || g2 in keys;
    if unlock.Some? {
      assert Holds(V(After(unlock.value)), keys, tx) <==> CltvPasses(unlock.value, tx);
    }
    assert Holds(gated, keys, tx)
      <==> (g1 in keys || g2 in keys) && (unlock.Some? ==> CltvPasses(unlock.value, tx));
    assert Holds(V(Older(n)), keys, tx) <==> CsvPasses(n, tx);
    assert Holds(AndV(V(Older(n)), gated), keys, tx) <==> CsvPasses(n, tx) && Holds(gated, keys, tx);
    assert Holds(V(Pk(heir)), keys, tx) <==> heir in keys;
  }

  // ----- transactions and blocks -----

  type CoinId = nat

  /** How an input satisfies a Taproot output: by its output key, or by revealing a leaf and a stack. */
  datatype Satisfier = KeyPath(sig: Bytes) | ScriptPath(script: Script, stack: Stack)

  datatype Input = Input(coin: CoinId, sequence: U32, satisfier: Satisfier, signatures: set<(Bytes, Bytes)>)

  /** A transaction as the vault sees it: the vault coins it spends and the new ones it pays to the vault. */
  datatype Tx = Tx(version: nat, lockTime: U32, inputs: seq<Input>, deposits: seq<Deposit>)

  datatype Deposit = Deposit(coin: CoinId, at: Address)

  datatype Block = Block(medianTime: nat, txs: seq<Tx>)

  datatype Coin = Coin(at: Address, height: nat, medianTime: nat)

  /** One spend of a vault coin that a block confirmed. */
  datatype Record = Record(at: Address, confirmed: nat, spentAt: nat, view: Spend)

  datatype State = State(height: nat, coins: map<CoinId, Coin>, seen: set<CoinId>, spends: seq<Record>)

  function ViewOf(tx: Tx, i: Input): Spend {
    Spend(tx.version, i.sequence, tx.lockTime, i.signatures)
  }

  /** Absolute finality: the lock time has passed, or every input opts out. */
  predicate IsFinal(tx: Tx, height: nat, medianTime: nat) {
    || tx.lockTime == 0
    || tx.lockTime < (if tx.lockTime < LOCKTIME_THRESHOLD then height else medianTime)
    || forall i :: 0 <= i < |tx.inputs| ==> tx.inputs[i].sequence == SEQUENCE_FINAL
  }

  /** Relative locks (BIP 68) for an input spending `coin` in a block at `height`. */
  predicate SequenceLockPasses(version: nat, sequence: U32, coin: Coin, height: nat, medianTime: nat) {
    || version < 2
    || Bit(sequence, DISABLE_FLAG)
    || (if Bit(sequence, TYPE_FLAG) then coin.medianTime + sequence % 0x1_0000 * 512 <= medianTime
        else coin.height + sequence % 0x1_0000 <= height)
  }

  /** Taproot validation (BIP 341): the output commits to one leaf. */
  predicate TaprootPasses(v: Derived, view: Spend, s: Satisfier) {
    match s
    case KeyPath(sig) => ValidSignature(view, v.outputKey, sig)
    case ScriptPath(script, stack) => script == Compile(v.Leaf()) && Accepts(script, view, stack)
  }

  predicate InputPasses(v: Derived, tx: Tx, i: Input, coin: Coin, height: nat, medianTime: nat) {
    && SequenceLockPasses(tx.version, i.sequence, coin, height, medianTime)
    && TaprootPasses(v, ViewOf(tx, i), i.satisfier)
  }

  function RecordOf(tx: Tx, i: Input, coin: Coin, height: nat): Record {
    Record(coin.at, coin.height, height, ViewOf(tx, i))
  }

  function ApplyInput(v: Vault, medianTime: nat, tx: Tx, i: Input, st: State): Option<State> {
    if i.coin in st.coins && InputPasses(v(st.coins[i.coin].at), tx, i, st.coins[i.coin], st.height, medianTime)
    then Some(st.(coins := st.coins - {i.coin},
                  spends := st.spends + [RecordOf(tx, i, st.coins[i.coin], st.height)]))
    else None
  }

  function ApplyInputs(v: Vault, medianTime: nat, tx: Tx, inputs: seq<Input>, st: State): Option<State> {
    if inputs == [] then Some(st)
    else
      match ApplyInput(v, medianTime, tx, inputs[0], st)
      case None => None
      case Some(next) => ApplyInputs(v, medianTime, tx, inputs[1..], next)
  }

  function Receive(medianTime: nat, d: Deposit, st: State): State {
    st.(coins := st.coins[d.coin := Coin(d.at, st.height, medianTime)], seen := st.seen + {d.coin})
  }

  function ApplyDeposits(medianTime: nat, deposits: seq<Deposit>, st: State): Option<State> {
    if deposits == [] then Some(st)
    else if deposits[0].coin in st.seen then None
    else ApplyDeposits(medianTime, deposits[1..], Receive(medianTime, deposits[0], st))
  }

  function ApplyTx(v: Vault, medianTime: nat, tx: Tx, st: State): Option<State> {
    if !IsFinal(tx, st.height, medianTime) then None
    else
      match ApplyInputs(v, medianTime, tx, tx.inputs, st)
      case None => None
      case Some(next) => ApplyDeposits(medianTime, tx.deposits, next)
  }

  function ApplyTxs(v: Vault, medianTime: nat, txs: seq<Tx>, st: State): Option<State> {
    if txs == [] then Some(st)
    else
      match ApplyTx(v, medianTime, txs[0], st)
      case None => None
      case Some(next) => ApplyTxs(v, medianTime, txs[1..], next)
  }

  function ApplyBlock(v: Vault, b: Block, st: State): Option<State> {
    ApplyTxs(v, b.medianTime, b.txs, st.(height := st.height + 1))
  }

  function RunChain(v: Vault, blocks: seq<Block>, st: State): Option<State> {
    if blocks == [] then Some(st)
    else
      match ApplyBlock(v, blocks[0], st)
      case None => None
      case Some(next) => RunChain(v, blocks[1..], next)
  }

  const GENESIS := State(0, map[], {}, [])

  // ----- the NUMS assumption -----

  /** Nobody can sign for an output key of the vault: its internal key is a point whose secret is unknown. */
  ghost predicate NumsHolds(v: Vault, tx: Tx) {
    forall i, a: Address :: 0 <= i < |tx.inputs| ==> v(a).outputKey !in Signers(ViewOf(tx, tx.inputs[i]))
  }

  lemma NumsAt(v: Vault, tx: Tx, k: nat, a: Address)
    requires NumsHolds(v, tx) && k < |tx.inputs|
    ensures v(a).outputKey !in Signers(ViewOf(tx, tx.inputs[k]))
  {}

  ghost predicate NumsHoldsInBlock(v: Vault, b: Block) {
    forall i :: 0 <= i < |b.txs| ==> NumsHolds(v, b.txs[i])
  }

  ghost predicate NumsHoldsInRun(v: Vault, blocks: seq<Block>) {
    forall i :: 0 <= i < |blocks| ==> NumsHoldsInBlock(v, blocks[i])
  }

  // ----- what every confirmed spend keeps -----

  /** A spend the owner signed, or a claim with the right keys in a block high enough. */
  predicate Lawful(v: Vault, r: Record) {
    var keys := Signers(r.view);
    v(r.at).owner in keys || (v(r.at).ClaimKeys(keys) && v(r.at).ClaimHeight(r.confirmed) <= r.spentAt)
  }

  predicate LawfulState(v: Vault, st: State) {
    forall i :: 0 <= i < |st.spends| ==> Lawful(v, st.spends[i])
  }

  /** The heart of the safety argument: script, sequence lock and finality together bind the height. */
  lemma PassingInputIsLawful(v: Vault, tx: Tx, k: nat, coin: Coin, height: nat, medianTime: nat)
    requires ValidVault(v) && k < |tx.inputs| && v(coin.at).outputKey !in Signers(ViewOf(tx, tx.inputs[k]))
    requires IsFinal(tx, height, medianTime) && InputPasses(v(coin.at), tx, tx.inputs[k], coin, height, medianTime)
    ensures Lawful(v, RecordOf(tx, tx.inputs[k], coin, height))
  {
    var i, d := tx.inputs[k], v(coin.at);
    var view := ViewOf(tx, i);
    assert d.Valid();
    match i.satisfier
    case KeyPath(_) =>
    case ScriptPath(script, stack) =>
      LeafPolicy(d, Signers(view), view);
      LeafSound(d.Leaf(), view, stack);
      if d.owner !in Signers(view) {
        CsvExactly(d.timelock, view);
        assert coin.height + d.timelock <= height;
        if d.Unlock().Some? {
          CltvExactly(d.Unlock().value, view);
          assert tx.inputs[k].sequence != SEQUENCE_FINAL;
          assert d.Unlock().value < height;
        }
      }
  }

  lemma {:induction false} InputsKeepLawful(v: Vault, medianTime: nat, tx: Tx, k: nat, st: State)
    requires ValidVault(v) && NumsHolds(v, tx) && IsFinal(tx, st.height, medianTime) && k <= |tx.inputs|
    requires LawfulState(v, st) && ApplyInputs(v, medianTime, tx, tx.inputs[k..], st).Some?
    ensures LawfulState(v, ApplyInputs(v, medianTime, tx, tx.inputs[k..], st).value)
    ensures ApplyInputs(v, medianTime, tx, tx.inputs[k..], st).value.height == st.height
    decreases |tx.inputs| - k
  {
    hide Lawful, IsFinal, InputPasses, NumsHolds;
    if k < |tx.inputs| {
      var i := tx.inputs[k];
      assert tx.inputs[k..][0] == i && tx.inputs[k..][1..] == tx.inputs[k + 1..];
      NumsAt(v, tx, k, st.coins[i.coin].at);
      PassingInputIsLawful(v, tx, k, st.coins[i.coin], st.height, medianTime);
      InputsKeepLawful(v, medianTime, tx, k + 1, ApplyInput(v, medianTime, tx, i, st).value);
    }
  }

  lemma {:induction false} DepositsKeep(medianTime: nat, deposits: seq<Deposit>, st: State)
    requires ApplyDeposits(medianTime, deposits, st).Some?
    ensures var r := ApplyDeposits(medianTime, deposits, st).value;
            r.spends == st.spends && r.height == st.height
  {
    if deposits != [] {
      DepositsKeep(medianTime, deposits[1..], Receive(medianTime, deposits[0], st));
    }
  }

  lemma {:induction false} TxsKeepLawful(v: Vault, medianTime: nat, txs: seq<Tx>, st: State)
    requires ValidVault(v) && LawfulState(v, st) && ApplyTxs(v, medianTime, txs, st).Some?
    requires forall i :: 0 <= i < |txs| ==> NumsHolds(v, txs[i])
    ensures LawfulState(v, ApplyTxs(v, medianTime, txs, st).value)
  {
    hide Lawful, IsFinal, NumsHolds, ApplyInputs, ApplyDeposits;
    if txs != [] {
      var tx := txs[0];
      assert tx.inputs[0..] == tx.inputs;
      InputsKeepLawful(v, medianTime, tx, 0, st);
      DepositsKeep(medianTime, tx.deposits, ApplyInputs(v, medianTime, tx, tx.inputs, st).value);
      TxsKeepLawful(v, medianTime, txs[1..], ApplyTx(v, medianTime, tx, st).value);
    }
  }

  /**
   * Safety of every run: each confirmed spend of a vault coin was signed by the owner, or it is
   * a claim with the heir's key (and a guardian's) in a block at least the timelock above the
   * coin's own confirmation and above the unlock height.
   */
  lemma {:induction false} EverySpendIsLawful(v: Vault, blocks: seq<Block>, st: State)
    requires ValidVault(v) && NumsHoldsInRun(v, blocks)
    requires LawfulState(v, st) && RunChain(v, blocks, st).Some?
    ensures LawfulState(v, RunChain(v, blocks, st).value)
  {
    hide Lawful, NumsHolds, ApplyTxs;
    if blocks != [] {
      assert NumsHoldsInBlock(v, blocks[0]);
      TxsKeepLawful(v, blocks[0].medianTime, blocks[0].txs, st.(height := st.height + 1));
      assert NumsHoldsInRun(v, blocks[1..]) by {
        assert forall i :: 0 <= i < |blocks| - 1 ==> blocks[1..][i] == blocks[i + 1];
      }
      EverySpendIsLawful(v, blocks[1..], ApplyBlock(v, blocks[0], st).value);
    }
  }

  /** From the start of the chain no assumption about earlier spends is needed. */
  lemma EverySpendSinceGenesisIsLawful(v: Vault, blocks: seq<Block>)
    requires ValidVault(v) && NumsHoldsInRun(v, blocks) && RunChain(v, blocks, GENESIS).Some?
    ensures LawfulState(v, RunChain(v, blocks, GENESIS).value)
  {
    EverySpendIsLawful(v, blocks, GENESIS);
  }

  // ----- the owner who checks in -----

  predicate OwnerSigned(v: Vault, r: Record) {
    v(r.at).owner in Signers(r.view)
  }

  /** At every block of the run no coin is old enough to be claimed in the next block. */
  predicate CheckedIn(v: Vault, blocks: seq<Block>, st: State) {
    && (forall c :: c in st.coins ==> st.height + 1 < v(st.coins[c].at).ClaimHeight(st.coins[c].height))
    && (blocks != [] ==> ApplyBlock(v, blocks[0], st).Some?
                         ==> CheckedIn(v, blocks[1..], ApplyBlock(v, blocks[0], st).value))
  }

  /** While a block is being applied: no coin is claimable in it, and every spend so far was the owner's. */
  predicate Guarded(v: Vault, st: State) {
    && (forall c :: c in st.coins ==> st.height < v(st.coins[c].at).ClaimHeight(st.coins[c].height))
    && (forall i :: 0 <= i < |st.spends| ==> OwnerSigned(v, st.spends[i]))
  }

  lemma {:induction false} InputsKeepGuarded(v: Vault, medianTime: nat, tx: Tx, k: nat, st: State)
    requires ValidVault(v) && NumsHolds(v, tx) && IsFinal(tx, st.height, medianTime) && k <= |tx.inputs|
    requires Guarded(v, st) && ApplyInputs(v, medianTime, tx, tx.inputs[k..], st).Some?
    ensures Guarded(v, ApplyInputs(v, medianTime, tx, tx.inputs[k..], st).value)
    decreases |tx.inputs| - k
  {
    hide IsFinal, InputPasses, NumsHolds, OwnerSigned;
    if k < |tx.inputs| {
      var i := tx.inputs[k];
      assert tx.inputs[k..][0] == i && tx.inputs[k..][1..] == tx.inputs[k + 1..];
      NumsAt(v, tx, k, st.coins[i.coin].at);
      PassingInputIsLawful(v, tx, k, st.coins[i.coin], st.height, medianTime);
      var next := ApplyInput(v, medianTime, tx, i, st).value;
      LawfulBeforeClaimHeight(v, next.spends[|st.spends|]);
      InputsKeepGuarded(v, medianTime, tx, k + 1, next);
    }
  }

  lemma LawfulBeforeClaimHeight(v: Vault, r: Record)
    requires Lawful(v, r) && r.spentAt < v(r.at).ClaimHeight(r.confirmed)
    ensures OwnerSigned(v, r)
  {}

  lemma {:induction false} DepositsKeepGuarded(v: Vault, medianTime: nat, deposits: seq<Deposit>, st: State)
    requires ValidVault(v) && Guarded(v, st) && ApplyDeposits(medianTime, deposits, st).Some?
    ensures Guarded(v, ApplyDeposits(medianTime, deposits, st).value)
  {
    if deposits != [] {
      DepositsKeepGuarded(v, medianTime, deposits[1..], Receive(medianTime, deposits[0], st));
    }
  }

  lemma {:induction false} TxsKeepGuarded(v: Vault, medianTime: nat, txs: seq<Tx>, st: State)
    requires ValidVault(v) && Guarded(v, st) && ApplyTxs(v, medianTime, txs, st).Some?
    requires forall i :: 0 <= i < |txs| ==> NumsHolds(v, txs[i])
    ensures Guarded(v, ApplyTxs(v, medianTime, txs, st).value)
  {
    hide Guarded, IsFinal, NumsHolds, ApplyInputs, ApplyDeposits;
    if txs != [] {
      var tx := txs[0];
      assert tx.inputs[0..] == tx.inputs;
      InputsKeepGuarded(v, medianTime, tx, 0, st);
      DepositsKeepGuarded(v, medianTime, tx.deposits, ApplyInputs(v, medianTime, tx, tx.inputs, st).value);
      TxsKeepGuarded(v, medianTime, txs[1..], ApplyTx(v, medianTime, tx, st).value);
    }
  }

  /** An owner who moves every coin before its claim height is never claimed from. */
  lemma {:induction false} CheckingInPreventsClaims(v: Vault, blocks: seq<Block>, st: State)
    requires ValidVault(v) && NumsHoldsInRun(v, blocks) && CheckedIn(v, blocks, st)
    requires forall i :: 0 <= i < |st.spends| ==> OwnerSigned(v, st.spends[i])
    requires RunChain(v, blocks, st).Some?
    ensures var spends := RunChain(v, blocks, st).value.spends;
            forall i :: 0 <= i < |spends| ==> OwnerSigned(v, spends[i])
  {
    hide OwnerSigned, NumsHolds, ApplyTxs;
    if blocks != [] {
      assert NumsHoldsInBlock(v, blocks[0]);
      TxsKeepGuarded(v, blocks[0].medianTime, blocks[0].txs, st.(height := st.height + 1));
      assert NumsHoldsInRun(v, blocks[1..]) by {
        assert forall i :: 0 <= i < |blocks| - 1 ==> blocks[1..][i] == blocks[i + 1];
      }
      CheckingInPreventsClaims(v, blocks[1..], ApplyBlock(v, blocks[0], st).value);
    }
  }

  // ----- who can spend a coin, and when -----

  /** Some valid transaction signed by no key outside `keys` spends the coin in a block at this state's height. */
  ghost predicate SpendableBy(v: Vault, st: State, medianTime: nat, c: CoinId, keys: set<XOnly>) {
    exists tx: Tx :: SpendsWith(v, st, medianTime, c, keys, tx)
  }

  ghost predicate SpendsWith(v: Vault, st: State, medianTime: nat, c: CoinId, keys: set<XOnly>, tx: Tx) {
    && |tx.inputs| == 1
    && tx.inputs[0].coin == c
    && Signers(ViewOf(tx, tx.inputs[0])) <= keys
    && ApplyTx(v, medianTime, tx, st).Some?
  }

  /** One signature by each of the keys. */
  function SignaturesBy(keys: set<XOnly>): set<(Bytes, Bytes)> {
    set k | k in keys :: (k, TRUE)
  }

  lemma SignaturesBySign(keys: set<XOnly>, tx: Spend)
    requires tx.signatures == SignaturesBy(keys)
    ensures Signers(tx) == keys
  {
    forall k: XOnly
      ensures k in Signers(tx) <==> k in keys
    {
      if k in keys {
        assert (k, TRUE) in tx.signatures;
        assert ValidSignature(tx, k, TRUE);
      }
    }
  }

  /** A spend that meets both timelocks: the sequence is the timelock, the lock time the unlock height. */
  ghost function SpendOf(v: Derived, c: CoinId, keys: set<XOnly>): (tx: Tx)
    requires v.Valid()
  {
    var lockTime := if v.Unlock().Some? then v.Unlock().value else 0;
    var view := Spend(2, v.timelock, lockTime, SignaturesBy(keys));
    var stack := if Holds(v.Leaf(), Signers(view), view) then Satisfaction(v.Leaf(), view) else [];
    Tx(2, lockTime, [Input(c, v.timelock, ScriptPath(Compile(v.Leaf()), stack), view.signatures)], [])
  }

  lemma SpendOfPassesLocks(v: Derived, c: CoinId, keys: set<XOnly>)
    requires v.Valid()
    ensures var tx := SpendOf(v, c, keys);
            LocksPass(v.timelock, v.Unlock(), ViewOf(tx, tx.inputs[0]))
  {
    var tx := SpendOf(v, c, keys);
    var view := ViewOf(tx, tx.inputs[0]);
    CsvExactly(v.timelock, view);
    assert v.timelock / DISABLE_FLAG == 0 && v.timelock / TYPE_FLAG == 0;
  }

  /** The owner's spend opts out of both locks; it may pay the vault again. */
  ghost function OwnerSpendOf(v: Derived, c: CoinId, deposits: seq<Deposit>): (tx: Tx)
    requires v.Valid()
  {
    var view := Spend(2, SEQUENCE_FINAL, 0, SignaturesBy({v.owner}));
    var stack := if Holds(v.Leaf(), Signers(view), view) then Satisfaction(v.Leaf(), view) else [];
    Tx(2, 0, [Input(c, SEQUENCE_FINAL, ScriptPath(Compile(v.Leaf()), stack), view.signatures)], deposits)
  }

  lemma SingleInput(v: Vault, medianTime: nat, tx: Tx, st: State)
    requires |tx.inputs| == 1
    ensures var next := ApplyInput(v, medianTime, tx, tx.inputs[0], st);
            ApplyTx(v, medianTime, tx, st)
            == if IsFinal(tx, st.height, medianTime) && next.Some?
               then ApplyDeposits(medianTime, tx.deposits, next.value) else None
  {
    hide IsFinal, ApplyInput, ApplyDeposits;
    assert tx.inputs[1..] == [];
    var next := ApplyInput(v, medianTime, tx, tx.inputs[0], st);
    if next.Some? {
      assert ApplyInputs(v, medianTime, tx, tx.inputs[1..], next.value) == next;
    }
  }

  /** The owner's spend of a coin validates in any block, whatever else it pays to the vault. */
  lemma OwnerInputPasses(v: Vault, st: State, medianTime: nat, c: CoinId, deposits: seq<Deposit>)
    requires ValidVault(v) && c in st.coins
    ensures var tx := OwnerSpendOf(v(st.coins[c].at), c, deposits);
            && Signers(ViewOf(tx, tx.inputs[0])) == {v(st.coins[c].at).owner}
            && IsFinal(tx, st.height, medianTime)
            && ApplyInput(v, medianTime, tx, tx.inputs[0], st)
               == Some(st.(coins := st.coins - {c},
                           spends := st.spends + [RecordOf(tx, tx.inputs[0], st.coins[c], st.height)]))
  {
    var d := v(st.coins[c].at);
    var tx := OwnerSpendOf(d, c, deposits);
    var view := ViewOf(tx, tx.inputs[0]);
    SignaturesBySign({d.owner}, view);
    LeafPolicy(d, {d.owner}, view);
    LeafComplete(d.Leaf(), view);
    assert Bit(SEQUENCE_FINAL, DISABLE_FLAG);
    hide Accepts, Satisfaction, Compile, Signers;
  }

  lemma OwnerCanSpend(v: Vault, st: State, medianTime: nat, c: CoinId)
    requires ValidVault(v) && c in st.coins
    ensures SpendsWith(v, st, medianTime, c, {v(st.coins[c].at).owner}, OwnerSpendOf(v(st.coins[c].at), c, []))
  {
    OwnerInputPasses(v, st, medianTime, c, []);
    hide OwnerSpendOf, IsFinal, ApplyInput, Signers;
    SpendsCoin(v(st.coins[c].at), c, []);
    SingleInput(v, medianTime, OwnerSpendOf(v(st.coins[c].at), c, []), st);
  }

  lemma SpendsCoin(v: Derived, c: CoinId, deposits: seq<Deposit>)
    requires v.Valid()
    ensures var tx := OwnerSpendOf(v, c, deposits);
            |tx.inputs| == 1 && tx.inputs[0].coin == c && tx.deposits == deposits
  {}

  /**
   * Checking in: in any block the owner alone can move a coin to a fresh outpoint at any address
   * of the vault. The old coin is gone, nothing else has changed, and the new coin's countdown
   * starts at that block.
   */
  lemma CheckInResets(v: Vault, st: State, medianTime: nat, c: CoinId, to: Deposit)
    requires ValidVault(v) && c in st.coins && to.coin !in st.seen
    ensures var tx := OwnerSpendOf(v(st.coins[c].at), c, [to]);
            && ApplyTx(v, medianTime, tx, st).Some?
            && (var next := ApplyTx(v, medianTime, tx, st).value;
                && next.coins == (st.coins - {c})[to.coin := Coin(to.at, st.height, medianTime)]
                && v(to.at).ClaimHeight(next.coins[to.coin].height) >= st.height + v(to.at).timelock
                && |next.spends| == |st.spends| + 1 && OwnerSigned(v, next.spends[|st.spends|]))
  {
    OwnerInputPasses(v, st, medianTime, c, [to]);
    SpendsCoin(v(st.coins[c].at), c, [to]);
    hide OwnerSpendOf, IsFinal, ApplyInput, Signers;
    SingleInput(v, medianTime, OwnerSpendOf(v(st.coins[c].at), c, [to]), st);
    assert [to][1..] == [];
  }

  lemma ClaimantsCanSpend(v: Vault, st: State, medianTime: nat, c: CoinId, keys: set<XOnly>)
    requires ValidVault(v) && c in st.coins && v(st.coins[c].at).ClaimKeys(keys)
    requires v(st.coins[c].at).ClaimHeight(st.coins[c].height) <= st.height
    ensures SpendsWith(v, st, medianTime, c, keys, SpendOf(v(st.coins[c].at), c, keys))
  {
    var d := v(st.coins[c].at);
    var tx := SpendOf(d, c, keys);
    var view := ViewOf(tx, tx.inputs[0]);
    SignaturesBySign(keys, view);
    SpendOfPassesLocks(d, c, keys);
    LeafPolicy(d, keys, view);
    LeafComplete(d.Leaf(), view);
    SingleInput(v, medianTime, tx, st);
    assert d.timelock % 0x1_0000 == d.timelock;
    assert d.timelock / TYPE_FLAG == 0;
  }

  /**
   * Who can spend a vault coin, and when: the owner in every block; the heir (with a guardian, in
   * a guardian vault) from the claim height on; nobody else, ever.
   */
  lemma SpendableExactly(v: Vault, st: State, medianTime: nat, c: CoinId, keys: set<XOnly>)
    requires ValidVault(v) && c in st.coins && v(st.coins[c].at).outputKey !in keys
    ensures var d := v(st.coins[c].at);
            SpendableBy(v, st, medianTime, c, keys)
            <==> d.owner in keys || (d.ClaimKeys(keys) && d.ClaimHeight(st.coins[c].height) <= st.height)
  {
    hide SpendOf, OwnerSpendOf;
    var d := v(st.coins[c].at);
    if d.owner in keys {
      OwnerCanSpend(v, st, medianTime, c);
      assert SpendsWith(v, st, medianTime, c, keys, OwnerSpendOf(d, c, []));
    } else if d.ClaimKeys(keys) && d.ClaimHeight(st.coins[c].height) <= st.height {
      ClaimantsCanSpend(v, st, medianTime, c, keys);
    }
    if tx: Tx :| SpendsWith(v, st, medianTime, c, keys, tx) {
      PassingInputIsLawful(v, tx, 0, st.coins[c], st.height, medianTime);
    }
  }

  // ----- untouched coins -----

  /** Every coin ever paid to the vault is known, so an outpoint is never paid twice. */
  predicate CoinsSeen(st: State) {
    forall c :: c in st.coins ==> c in st.seen
  }

  /** From one state to a later one: heights grow, and a coin still there is the same coin. */
  predicate Extends(st: State, later: State) {
    && CoinsSeen(later)
    && st.seen <= later.seen
    && st.height <= later.height
    && (forall c :: c in later.coins && c in st.seen ==> c in st.coins && later.coins[c] == st.coins[c])
  }

  lemma {:induction false} InputsExtend(v: Vault, medianTime: nat, tx: Tx, inputs: seq<Input>, st: State)
    requires CoinsSeen(st) && ApplyInputs(v, medianTime, tx, inputs, st).Some?
    ensures Extends(st, ApplyInputs(v, medianTime, tx, inputs, st).value)
  {
    hide InputPasses;
    if inputs != [] {
      InputsExtend(v, medianTime, tx, inputs[1..], ApplyInput(v, medianTime, tx, inputs[0], st).value);
    }
  }

  lemma {:induction false} DepositsExtend(medianTime: nat, deposits: seq<Deposit>, st: State)
    requires CoinsSeen(st) && ApplyDeposits(medianTime, deposits, st).Some?
    ensures Extends(st, ApplyDeposits(medianTime, deposits, st).value)
  {
    if deposits != [] {
      DepositsExtend(medianTime, deposits[1..], Receive(medianTime, deposits[0], st));
    }
  }

  lemma {:induction false} TxsExtend(v: Vault, medianTime: nat, txs: seq<Tx>, st: State)
    requires CoinsSeen(st) && ApplyTxs(v, medianTime, txs, st).Some?
    ensures Extends(st, ApplyTxs(v, medianTime, txs, st).value)
  {
    hide IsFinal, ApplyInputs, ApplyDeposits;
    if txs != [] {
      var tx := txs[0];
      InputsExtend(v, medianTime, tx, tx.inputs, st);
      DepositsExtend(medianTime, tx.deposits, ApplyInputs(v, medianTime, tx, tx.inputs, st).value);
      TxsExtend(v, medianTime, txs[1..], ApplyTx(v, medianTime, tx, st).value);
    }
  }

  lemma {:induction false} RunExtends(v: Vault, blocks: seq<Block>, st: State)
    requires CoinsSeen(st) && RunChain(v, blocks, st).Some?
    ensures Extends(st, RunChain(v, blocks, st).value)
    ensures RunChain(v, blocks, st).value.height == st.height + |blocks|
  {
    hide ApplyTxs;
    if blocks != [] {
      TxsExtend(v, blocks[0].medianTime, blocks[0].txs, st.(height := st.height + 1));
      TxsKeepHeight(v, blocks[0].medianTime, blocks[0].txs, st.(height := st.height + 1));
      RunExtends(v, blocks[1..], ApplyBlock(v, blocks[0], st).value);
    }
  }

  lemma {:induction false} InputsKeepHeight(v: Vault, medianTime: nat, tx: Tx, inputs: seq<Input>, st: State)
    requires ApplyInputs(v, medianTime, tx, inputs, st).Some?
    ensures ApplyInputs(v, medianTime, tx, inputs, st).value.height == st.height
  {
    if inputs != [] {
      InputsKeepHeight(v, medianTime, tx, inputs[1..], ApplyInput(v, medianTime, tx, inputs[0], st).value);
    }
  }

  lemma {:induction false} TxsKeepHeight(v: Vault, medianTime: nat, txs: seq<Tx>, st: State)
    requires ApplyTxs(v, medianTime, txs, st).Some?
    ensures ApplyTxs(v, medianTime, txs, st).value.height == st.height
  {
    hide IsFinal, ApplyInputs, ApplyDeposits;
    if txs != [] {
      var tx := txs[0];
      InputsKeepHeight(v, medianTime, tx, tx.inputs, st);
      DepositsKeep(medianTime, tx.deposits, ApplyInputs(v, medianTime, tx, tx.inputs, st).value);
      TxsKeepHeight(v, medianTime, txs[1..], ApplyTx(v, medianTime, tx, st).value);
    }
  }

  /**
   * A coin left untouched becomes claimable at its claim height and stays so: after any further
   * blocks that leave it in place, the claimants alone can spend it in the next block exactly
   * when that block is at or above the claim height fixed by its confirmation.
   */
  lemma {:induction false} UntouchedCoinStaysClaimable(v: Vault, blocks: seq<Block>, st: State, medianTime: nat,
                                                       c: CoinId, keys: set<XOnly>)
    requires ValidVault(v) && CoinsSeen(st) && c in st.coins && RunChain(v, blocks, st).Some?
    requires c in RunChain(v, blocks, st).value.coins
    requires var d := v(st.coins[c].at); d.ClaimKeys(keys) && d.owner !in keys && d.outputKey !in keys
    ensures var later := RunChain(v, blocks, st).value;
            SpendableBy(v, later.(height := later.height + 1), medianTime, c, keys)
            <==> v(st.coins[c].at).ClaimHeight(st.coins[c].height) <= st.height + |blocks| + 1
  {
    var later := RunChain(v, blocks, st).value;
    RunExtends(v, blocks, st);
    SpendableExactly(v, later.(height := later.height + 1), medianTime, c, keys);
  }
}
