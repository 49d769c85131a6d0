/**
 * The part of the tapscript machine (BIP 342) the vault leaves use: signature checks,
 * the two timelock opcodes (BIP 65, BIP 112), and conditionals with minimal-if.
 */
module Tapscript {
  import opened ScriptNum

  datatype Op =
    | Push(item: Bytes)
    | CheckSig
    | CheckSigVerify
    | CheckSequenceVerify
    | CheckLockTimeVerify
    | Verify
    | Swap
    | BoolOr
    | IfDup
    | NotIf
    | EndIf

  type Script = seq<Op>

  /** An x-only public key. */
  type XOnly = b: Bytes | |b| == 32 witness seq(32, _ => 0)

  /** A stack lists its items bottom first, as witnesses are written. */
  type Stack = seq<Bytes>

  const TRUE: Bytes := [1]
  const FALSE: Bytes := []

  const SEQUENCE_FINAL: nat := 0xFFFF_FFFF
  const LOCKTIME_THRESHOLD: nat := 500_000_000

  /**
   * What a script sees of the spending transaction. `signatures` holds the pairs of key and
   * byte string for which the signature check succeeds: the signatures that exist for this input.
   */
  datatype Spend = Spend(version: nat, sequence: nat, lockTime: nat, signatures: set<(Bytes, Bytes)>)

  predicate ValidSignature(tx: Spend, key: Bytes, sig: Bytes) {
    sig != FALSE && (key, sig) in tx.signatures
  }

  /** The x-only keys that have signed this input. */
  function Signers(tx: Spend): (keys: set<XOnly>)
    ensures forall k: XOnly :: k in keys <==> exists sig :: ValidSignature(tx, k, sig)
  {
    var keys: set<XOnly> := set p | p in tx.signatures && p.1 != FALSE && |p.0| == 32 :: p.0;
    assert forall k: XOnly, sig :: ValidSignature(tx, k, sig) ==> (k, sig) in tx.signatures && (k, sig).0 in keys;
    assert forall k: XOnly :: k in keys ==> exists p :: p in tx.signatures && p.1 != FALSE && p.0 == k
                                                        && ValidSignature(tx, k, p.1);
    keys
  }

  predicate Bit(n: nat, power: nat)
    requires power > 0
  {
    n / power % 2 == 1
  }

  const DISABLE_FLAG: nat := 0x8000_0000
  const TYPE_FLAG: nat := 0x40_0000

  /** The bits of a sequence number that a relative lock compares: the type flag and the low 16. */
  function MaskedSequence(n: nat): nat {
    (if Bit(n, TYPE_FLAG) then TYPE_FLAG else 0) + n % 0x1_0000
  }

  /** The OP_CHECKSEQUENCEVERIFY test (BIP 112) for operand `n`. */
  predicate CsvPasses(n: nat, tx: Spend) {
    Bit(n, DISABLE_FLAG)
    || (&& tx.version >= 2
        && !Bit(tx.sequence, DISABLE_FLAG)
        && (MaskedSequence(n) < TYPE_FLAG <==> MaskedSequence(tx.sequence) < TYPE_FLAG)
        && MaskedSequence(n) <= MaskedSequence(tx.sequence))
  }

  /** The OP_CHECKLOCKTIMEVERIFY test (BIP 65) for operand `n`. */
  predicate CltvPasses(n: nat, tx: Spend) {
    && (n < LOCKTIME_THRESHOLD <==> tx.lockTime < LOCKTIME_THRESHOLD)
    && n <= tx.lockTime
    && tx.sequence != SEQUENCE_FINAL
  }

  /** The machine either has failed for good or holds a stack and the stack of open conditionals. */
  datatype Machine = Failed | Running(stack: Stack, conds: seq<bool>)

  predicate Executing(conds: seq<bool>) {
    false !in conds
  }

  function Top(s: Stack): Bytes
    requires s != []
  {
    s[|s| - 1]
  }

  function Pop(s: Stack): Stack
    requires s != []
  {
    s[..|s| - 1]
  }

  /** BIP 342 rules for one signature check: the pushed result, or no value when the script aborts. */
  datatype Check = Abort | Pushes(item: Bytes)

  function CheckSignature(tx: Spend, key: Bytes, sig: Bytes): Check {
    if |key| == 0 then Abort
    else if sig == FALSE then Pushes(FALSE)
    else if |key| == 32 && !ValidSignature(tx, key, sig) then Abort
    else Pushes(TRUE)
  }

  function StepCheckSig(tx: Spend, s: Stack, conds: seq<bool>): Machine {
    if |s| < 2 then Failed
    else
      match CheckSignature(tx, Top(s), Top(Pop(s)))
      case Abort => Failed
      case Pushes(item) => Running(Pop(Pop(s)) + [item], conds)
  }

  function StepVerify(s: Stack, conds: seq<bool>): Machine {
    if s == [] || !Truthy(Top(s)) then Failed else Running(Pop(s), conds)
  }

  /** One opcode in an executed branch. */
  function Execute(op: Op, tx: Spend, s: Stack, conds: seq<bool>): Machine {
    match op
    case Push(item) => Running(s + [item], conds)
    case CheckSig => StepCheckSig(tx, s, conds)
    case CheckSigVerify =>
      (match StepCheckSig(tx, s, conds)
       case Failed => Failed
       case Running(t, _) => StepVerify(t, conds))
    case CheckSequenceVerify =>
      if s == [] || |Top(s)| > 5 || Decode(Top(s)) < 0 || !CsvPasses(Decode(Top(s)), tx)
      then Failed else Running(s, conds)
    case CheckLockTimeVerify =>
      if s == [] || |Top(s)| > 5 || Decode(Top(s)) < 0 || !CltvPasses(Decode(Top(s)), tx)
      then Failed else Running(s, conds)
    case Verify => StepVerify(s, conds)
    case Swap =>
      if |s| < 2 then Failed else Running(Pop(Pop(s)) + [Top(s), Top(Pop(s))], conds)
    case BoolOr =>
      if |s| < 2 || |Top(s)| > 4 || |Top(Pop(s))| > 4 then Failed
      else Running(Pop(Pop(s)) + [if Decode(Top(s)) != 0 || Decode(Top(Pop(s))) != 0 then TRUE else FALSE], conds)
    case IfDup =>
      if s == [] then Failed else if Truthy(Top(s)) then Running(s + [Top(s)], conds) else Running(s, conds)
    case NotIf =>
      if s == [] || (Top(s) != TRUE && Top(s) != FALSE) then Failed
      else Running(Pop(s), conds + [Top(s) == FALSE])
    case EndIf =>
      if conds == [] then Failed else Running(s, conds[..|conds| - 1])
  }

  /** One opcode: in a branch not taken only the conditionals are followed. */
  function Step(op: Op, tx: Spend, m: Machine): Machine {
    match m
    case Failed => Failed
    case Running(s, conds) =>
      if Executing(conds) then Execute(op, tx, s, conds)
      else if op == NotIf then Running(s, conds + [false])
      else if op == EndIf then Running(s, conds[..|conds| - 1])
      else m
  }

  function Run(script: Script, tx: Spend, m: Machine): Machine {
    if script == [] then m else Run(script[1..], tx, Step(script[0], tx, m))
  }

  /** Tapscript acceptance: the run ends with every conditional closed and exactly one, true, element. */
  predicate Accepts(script: Script, tx: Spend, initial: Stack) {
    match Run(script, tx, Running(initial, []))
    case Failed => false
    case Running(s, conds) => conds == [] && |s| == 1 && Truthy(s[0])
  }

  /** Some witness is accepted. */
  ghost predicate Spendable(script: Script, tx: Spend) {
    exists initial: Stack :: Accepts(script, tx, initial)
  }

  lemma {:induction false} RunAppend(a: Script, b: Script, tx: Spend, m: Machine)
    ensures Run(a + b, tx, m) == Run(b, tx, Run(a, tx, m))
  {
    if a == [] {
      assert a + b == b;
    } else {
      assert (a + b)[1..] == a[1..] + b;
      RunAppend(a[1..], b, tx, Step(a[0], tx, m));
    }
  }

  lemma {:induction false} RunFailed(script: Script, tx: Spend)
    ensures Run(script, tx, Failed) == Failed
  {
    if script != [] {
      RunFailed(script[1..], tx);
    }
  }

  lemma StepFailed(op: Op, tx: Spend)
    ensures Step(op, tx, Failed) == Failed
  {}

  lemma RunOne(op: Op, tx: Spend, m: Machine)
    ensures Run([op], tx, m) == Step(op, tx, m)
  {}
}
