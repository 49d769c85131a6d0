/**
 * The Miniscript fragments (BIP 379) the vault builders print: their correctness types, their
 * translation to tapscript, their meaning as spending policies, and the proof that the
 * translation keeps that meaning.
 */
module Miniscript {
  import opened Wrappers
  import opened ScriptNum
  import opened Tapscript

  /** Expressions over any kind of key: descriptor text has key expressions, a script has x-only keys. */
  datatype Expr<K> =
    | Pk(key: K)
    | Older(blocks: nat)
    | After(height: nat)
    | V(sub: Expr<K>)
    | S(sub: Expr<K>)
    | AndV(left: Expr<K>, right: Expr<K>)
    | OrB(left: Expr<K>, right: Expr<K>)
    | OrD(left: Expr<K>, right: Expr<K>)

  // ----- correctness types -----

  datatype Base = B | VType | W

  /**
   * The correctness type: the base type with the properties `z` (consumes nothing), `o`
   * (consumes one element), `d` (can be dissatisfied without a signature) and `u` (a
   * satisfaction leaves exactly 1).
   */
  datatype Ty = Ty(base: Base, z: bool, o: bool, d: bool, u: bool)

  predicate TimelockOperand(n: nat) {
    1 <= n < 0x8000_0000
  }

  function VerifyType(x: Ty): Ty {
    Ty(VType, x.z, x.o, false, false)
  }

  function SwapType(x: Ty): Ty {
    Ty(W, false, false, x.d, x.u)
  }

  function AndVType(x: Ty, y: Ty): Ty {
    Ty(y.base, x.z && y.z, (x.z && y.o) || (y.z && x.o), false, y.u)
  }

  function OrBType(x: Ty, y: Ty): Ty {
    Ty(B, x.z && y.z, (x.z && y.o) || (y.z && x.o), true, true)
  }

  function OrDType(x: Ty, y: Ty): Ty {
    Ty(B, x.z && y.z, x.o && y.z, y.d, y.u)
  }

  function TypeOf<K>(e: Expr<K>): Option<Ty> {
    match e
    case Pk(_) => Some(Ty(B, false, true, true, true))
    case Older(n) => if TimelockOperand(n) then Some(Ty(B, true, false, false, false)) else None
    case After(n) => if TimelockOperand(n) then Some(Ty(B, true, false, false, false)) else None
    case V(x) =>
      (match TypeOf(x)
       case None => None
       case Some(t) => if t.base == B then Some(VerifyType(t)) else None)
    case S(x) =>
      (match TypeOf(x)
       case None => None
       case Some(t) => if t.base == B && t.o then Some(SwapType(t)) else None)
    case AndV(x, y) =>
      (match (TypeOf(x), TypeOf(y))
       case (Some(t), Some(u)) => if t.base == VType && u.base != W then Some(AndVType(t, u)) else None
       case _ => None)
    case OrB(x, y) =>
      (match (TypeOf(x), TypeOf(y))
       case (Some(t), Some(u)) =>
         if t.base == B && t.d && u.base == W && u.d then Some(OrBType(t, u)) else None
       case _ => None)
    case OrD(x, y) =>
      (match (TypeOf(x), TypeOf(y))
       case (Some(t), Some(u)) =>
         if t.base == B && t.d && t.u && u.base == B then Some(OrDType(t, u)) else None
       case _ => None)
  }

  predicate WellTyped<K>(e: Expr<K>) {
    TypeOf(e).Some?
  }

  /** A leaf script must be a well-typed expression of type B. */
  predicate ValidLeaf<K>(e: Expr<K>) {
    TypeOf(e).Some? && TypeOf(e).value.base == B
  }

  /** The keys of an expression, from left to right. */
  function KeysOf<K>(e: Expr<K>): seq<K> {
    match e
    case Pk(k) => [k]
    case Older(_) => []
    case After(_) => []
    case V(x) => KeysOf(x)
    case S(x) => KeysOf(x)
    case AndV(x, y) => KeysOf(x) + KeysOf(y)
    case OrB(x, y) => KeysOf(x) + KeysOf(y)
    case OrD(x, y) => KeysOf(x) + KeysOf(y)
  }

  /** The same expression over other keys. */
  function MapKeys<K, L>(e: Expr<K>, f: K -> L): Expr<L> {
    match e
    case Pk(k) => Pk(f(k))
    case Older(n) => Older(n)
    case After(n) => After(n)
    case V(x) => V(MapKeys(x, f))
    case S(x) => S(MapKeys(x, f))
    case AndV(x, y) => AndV(MapKeys(x, f), MapKeys(y, f))
    case OrB(x, y) => OrB(MapKeys(x, f), MapKeys(y, f))
    case OrD(x, y) => OrD(MapKeys(x, f), MapKeys(y, f))
  }

  /** Typing does not look at the keys: deriving script keys from a parsed tree keeps it well typed. */
  lemma {:induction false} MapKeysTyped<K, L>(e: Expr<K>, f: K -> L)
    ensures TypeOf(MapKeys(e, f)) == TypeOf(e)
  {
    match e
    case V(x) => MapKeysTyped(x, f);
    case S(x) => MapKeysTyped(x, f);
    case AndV(x, y) => MapKeysTyped(x, f); MapKeysTyped(y, f);
    case OrB(x, y) => MapKeysTyped(x, f); MapKeysTyped(y, f);
    case OrD(x, y) => MapKeysTyped(x, f); MapKeysTyped(y, f);
    case _ =>
  }

  // ----- translation -----

  /** The VERIFY form of a script: a closing signature check becomes its VERIFY version. */
  function Verified(script: Script): Script {
    if script != [] && script[|script| - 1] == CheckSig
    then script[..|script| - 1] + [CheckSigVerify]
    else script + [Verify]
  }

  function Compile(e: Expr<XOnly>): Script {
    match e
    case Pk(k) => [Push(k), CheckSig]
    case Older(n) => [Push(Encode(n)), CheckSequenceVerify]
    case After(n) => [Push(Encode(n)), CheckLockTimeVerify]
    case V(x) => Verified(Compile(x))
    case S(x) => [Swap] + Compile(x)
    case AndV(x, y) => Compile(x) + Compile(y)
    case OrB(x, y) => Compile(x) + Compile(y) + [BoolOr]
    case OrD(x, y) => Compile(x) + [IfDup, NotIf] + Compile(y) + [EndIf]
  }

  // ----- meaning -----

  /** The spending policy of an expression: who must have signed and which timelocks must pass. */
  predicate Holds<K(==)>(e: Expr<K>, signers: set<K>, tx: Spend) {
    match e
    case Pk(k) => k in signers
    case Older(n) => CsvPasses(n, tx)
    case After(n) => CltvPasses(n, tx)
    case V(x) => Holds(x, signers, tx)
    case S(x) => Holds(x, signers, tx)
    case AndV(x, y) => Holds(x, signers, tx) && Holds(y, signers, tx)
    case OrB(x, y) => Holds(x, signers, tx) || Holds(y, signers, tx)
    case OrD(x, y) => Holds(x, signers, tx) || Holds(y, signers, tx)
  }

  // ----- stack semantics without control flow -----

  /** What evaluating an expression does to the stack, read off its structure. */
  function Eval(e: Expr<XOnly>, tx: Spend, s: Stack): Option<Stack> {
    match e
    case Pk(k) =>
      if s == [] then None
      else if Top(s) == FALSE then Some(Pop(s) + [FALSE])
      else if ValidSignature(tx, k, Top(s)) then Some(Pop(s) + [TRUE])
      else None
    case Older(n) => if CsvPasses(n, tx) then Some(s + [Encode(n)]) else None
    case After(n) => if CltvPasses(n, tx) then Some(s + [Encode(n)]) else None
    case V(x) =>
      (match Eval(x, tx, s)
       case None => None
       case Some(t) => if t == [] || !Truthy(Top(t)) then None else Some(Pop(t)))
    case S(x) => if |s| < 2 then None else Eval(x, tx, Pop(Pop(s)) + [Top(s), Top(Pop(s))])
    case AndV(x, y) =>
      (match Eval(x, tx, s)
       case None => None
       case Some(t) => Eval(y, tx, t))
    case OrB(x, y) =>
      (match Eval(x, tx, s)
       case None => None
       case Some(t) =>
         match Eval(y, tx, t)
         case None => None
         case Some(r) =>
           if |r| < 2 then None
           else Some(Pop(Pop(r)) + [if Truthy(Top(r)) || Truthy(Top(Pop(r))) then TRUE else FALSE]))
    case OrD(x, y) =>
      (match Eval(x, tx, s)
       case None => None
       case Some(t) =>
         if t == [] then None
         else if Truthy(Top(t)) then Some(t)
         else Eval(y, tx, Pop(t)))
  }

  /** Locks of 1 to 31 bits are well typed, and no others. */
  lemma LockTyped(n: nat)
    ensures WellTyped<XOnly>(Older(n)) <==> 0 < n < 0x8000_0000
    ensures WellTyped<XOnly>(After(n)) <==> 0 < n < 0x8000_0000
  {}

  // ----- the types mean what they say -----

  predicate Unit(item: Bytes) {
    item == TRUE || item == FALSE
  }

  /**
   * What its type promises about evaluating an expression on `s` with result `r`: how much of
   * the stack it touched, what it left on top, and that a true result needs the policy.
   */
  ghost predicate Keeps(ty: Ty, s: Stack, r: Stack, policy: bool) {
    match ty.base
    case B =>
      && 1 <= |r| <= |s| + 1
      && Pop(r) == s[..|r| - 1]
      && (ty.z ==> |r| == |s| + 1)
      && (ty.o ==> |r| == |s|)
      && (ty.u ==> Unit(Top(r)))
      && (Top(r) == FALSE || (Truthy(Top(r)) && policy))
    case VType =>
      && |r| <= |s|
      && r == s[..|r|]
      && (ty.z ==> |r| == |s|)
      && (ty.o ==> |r| == |s| - 1)
      && policy
    case W =>
      && 2 <= |r| <= |s|
      && !ty.z && !ty.o
      && Pop(Pop(r)) == s[..|r| - 2]
      && Top(Pop(r)) == Top(s)
      && (ty.u ==> Unit(Top(r)))
      && (Top(r) == FALSE || (Truthy(Top(r)) && policy))
  }

  lemma {:induction false} UnitTruth()
    ensures Truthy(TRUE) && !Truthy(FALSE)
    ensures Decode(TRUE) == 1 && Decode(FALSE) == 0
  {}

  /** In these fragments an expression that can be dissatisfied leaves 0 or 1. */
  lemma {:induction false} DissatisfiableIsUnit<K>(e: Expr<K>)
    requires WellTyped(e) && TypeOf(e).value.d
    ensures TypeOf(e).value.u
  {
    match e
    case Pk(_) =>
    case S(x) => DissatisfiableIsUnit(x);
    case OrB(_, _) =>
    case OrD(_, y) => DissatisfiableIsUnit(y);
    case _ =>
  }

  lemma VerifyKeeps(x: Ty, s: Stack, t: Stack, policy: bool)
    requires x.base == B && Keeps(x, s, t, policy) && Truthy(Top(t))
    ensures Keeps(VerifyType(x), s, Pop(t), policy)
  {}

  lemma SwapKeeps(x: Ty, s: Stack, r: Stack, policy: bool)
    requires x.base == B && x.o && |s| >= 2
    requires Keeps(x, Pop(Pop(s)) + [Top(s), Top(Pop(s))], r, policy)
    ensures Keeps(SwapType(x), s, r, policy)
  {}

  lemma AndVKeeps(x: Ty, y: Ty, s: Stack, t: Stack, r: Stack, xpolicy: bool, ypolicy: bool)
    requires x.base == VType && y.base != W
    requires Keeps(x, s, t, xpolicy) && Keeps(y, t, r, ypolicy)
    ensures Keeps(AndVType(x, y), s, r, xpolicy && ypolicy)
  {}

  lemma OrBKeeps(x: Ty, y: Ty, s: Stack, t: Stack, r: Stack, xpolicy: bool, ypolicy: bool)
    requires x.base == B && y.base == W
    requires Keeps(x, s, t, xpolicy) && Keeps(y, t, r, ypolicy)
    ensures Keeps(OrBType(x, y), s,
                  Pop(Pop(r)) + [if Truthy(Top(r)) || Truthy(Top(Pop(r))) then TRUE else FALSE],
                  xpolicy || ypolicy)
  {
    UnitTruth();
    hide Truthy;
    var result := Pop(Pop(r)) + [if Truthy(Top(r)) || Truthy(Top(Pop(r))) then TRUE else FALSE];
    assert Pop(result) == Pop(Pop(r)) == t[..|r| - 2] == s[..|r| - 2];
  }

  lemma OrDKeeps(x: Ty, y: Ty, s: Stack, t: Stack, r: Stack, xpolicy: bool, ypolicy: bool)
    requires x.base == B && y.base == B && x.d && x.u
    requires Keeps(x, s, t, xpolicy)
    requires if Truthy(Top(t)) then r == t else Keeps(y, Pop(t), r, ypolicy)
    ensures Keeps(OrDType(x, y), s, r, xpolicy || ypolicy)
  {}

  /** Type soundness: every completed evaluation keeps what the type promises. */
  lemma {:induction false} EvalKeeps(e: Expr<XOnly>, tx: Spend, s: Stack)
    requires WellTyped(e) && Eval(e, tx, s).Some?
    ensures Keeps(TypeOf(e).value, s, Eval(e, tx, s).value, Holds(e, Signers(tx), tx))
  {
    hide Truthy, Decode, Encode, CsvPasses, CltvPasses;
    var r := Eval(e, tx, s).value;
    match e
    case Pk(k) => UnitTruth();
    case Older(n) => RoundTrip(n); assert Pop(r) == s;
    case After(n) => RoundTrip(n); assert Pop(r) == s;
    case V(x) =>
      EvalKeeps(x, tx, s);
      VerifyKeeps(TypeOf(x).value, s, Eval(x, tx, s).value, Holds(x, Signers(tx), tx));
    case S(x) =>
      EvalKeeps(x, tx, Pop(Pop(s)) + [Top(s), Top(Pop(s))]);
      SwapKeeps(TypeOf(x).value, s, r, Holds(x, Signers(tx), tx));
    case AndV(x, y) =>
      var t := Eval(x, tx, s).value;
      EvalKeeps(x, tx, s);
      EvalKeeps(y, tx, t);
      AndVKeeps(TypeOf(x).value, TypeOf(y).value, s, t, r,
                Holds(x, Signers(tx), tx), Holds(y, Signers(tx), tx));
    case OrB(x, y) =>
      var t := Eval(x, tx, s).value;
      EvalKeeps(x, tx, s);
      EvalKeeps(y, tx, t);
      OrBKeeps(TypeOf(x).value, TypeOf(y).value, s, t, Eval(y, tx, t).value,
               Holds(x, Signers(tx), tx), Holds(y, Signers(tx), tx));
    case OrD(x, y) =>
      var t := Eval(x, tx, s).value;
      EvalKeeps(x, tx, s);
      if !Truthy(Top(t)) {
        EvalKeeps(y, tx, Pop(t));
      }
      OrDKeeps(TypeOf(x).value, TypeOf(y).value, s, t, r,
               Holds(x, Signers(tx), tx), Holds(y, Signers(tx), tx));
  }

  // ----- the machine agrees with the stack semantics -----

  function Outcome(result: Option<Stack>, conds: seq<bool>): Machine {
    match result
    case None => Failed
    case Some(s) => Running(s, conds)
  }

  lemma VerifiedRuns(script: Script, tx: Spend, m: Machine)
    ensures Run(Verified(script), tx, m) == Step(Verify, tx, Run(script, tx, m))
  {
    hide Run;
    if script != [] && script[|script| - 1] == CheckSig {
      var init := script[..|script| - 1];
      assert script == init + [CheckSig];
      RunAppend(init, [CheckSig], tx, m);
      RunAppend(init, [CheckSigVerify], tx, m);
      RunOne(CheckSig, tx, Run(init, tx, m));
      RunOne(CheckSigVerify, tx, Run(init, tx, m));
    } else {
      RunAppend(script, [Verify], tx, m);
      RunOne(Verify, tx, Run(script, tx, m));
    }
  }

  /** A compiled expression inside a branch not taken changes nothing: its conditionals are balanced. */
  lemma {:induction false} CompileSkipped(e: Expr<XOnly>, tx: Spend, s: Stack, conds: seq<bool>)
    requires !Executing(conds)
    ensures Run(Compile(e), tx, Running(s, conds)) == Running(s, conds)
  {
    hide Run;
    var m := Running(s, conds);
    match e
    case Pk(k) => RunTwo(Push(k), CheckSig, tx, m);
    case Older(n) => RunTwo(Push(Encode(n)), CheckSequenceVerify, tx, m);
    case After(n) => RunTwo(Push(Encode(n)), CheckLockTimeVerify, tx, m);
    case V(x) =>
      CompileSkipped(x, tx, s, conds);
      VerifiedRuns(Compile(x), tx, m);
    case S(x) =>
      CompileSkipped(x, tx, s, conds);
      RunAppend([Swap], Compile(x), tx, m);
      RunOne(Swap, tx, m);
    case AndV(x, y) =>
      CompileSkipped(x, tx, s, conds);
      CompileSkipped(y, tx, s, conds);
      RunAppend(Compile(x), Compile(y), tx, m);
    case OrB(x, y) =>
      CompileSkipped(x, tx, s, conds);
      CompileSkipped(y, tx, s, conds);
      OrBRuns(x, y, tx, m);
    case OrD(x, y) =>
      CompileSkipped(x, tx, s, conds);
      OrDRuns(x, y, tx, m);
      RunTwo(IfDup, NotIf, tx, m);
      CompileSkipped(y, tx, s, conds + [false]);
      assert (conds + [false])[..|conds|] == conds;
  }

  lemma RunTwo(a: Op, b: Op, tx: Spend, m: Machine)
    ensures Run([a, b], tx, m) == Step(b, tx, Step(a, tx, m))
  {
    assert [a, b][1..] == [b];
    RunOne(b, tx, Step(a, tx, m));
  }

  lemma OrDRuns(x: Expr<XOnly>, y: Expr<XOnly>, tx: Spend, m: Machine)
    ensures Run(Compile(OrD(x, y)), tx, m)
         == Step(EndIf, tx, Run(Compile(y), tx, Run([IfDup, NotIf], tx, Run(Compile(x), tx, m))))
  {
    hide Run, Step;
    RunAppend(Compile(x) + [IfDup, NotIf] + Compile(y), [EndIf], tx, m);
    RunAppend(Compile(x) + [IfDup, NotIf], Compile(y), tx, m);
    RunAppend(Compile(x), [IfDup, NotIf], tx, m);
    RunOne(EndIf, tx, Run(Compile(y), tx, Run([IfDup, NotIf], tx, Run(Compile(x), tx, m))));
  }

  /** Compiler correctness: running the compiled script does to the stack what `Eval` says. */
  lemma {:induction false} CompileCorrect(e: Expr<XOnly>, tx: Spend, s: Stack, conds: seq<bool>)
    requires WellTyped(e) && Executing(conds)
    ensures Run(Compile(e), tx, Running(s, conds)) == Outcome(Eval(e, tx, s), conds)
    decreases e, 1
  {
    hide Run;
    var m := Running(s, conds);
    match e
    case Pk(k) =>
      RunTwo(Push(k), CheckSig, tx, m);
      assert s != [] ==> Pop(Pop(s + [k])) == Pop(s);
    case Older(n) =>
      RunTwo(Push(Encode(n)), CheckSequenceVerify, tx, m);
      RoundTrip(n);
      TimelockOperandFits(n);
    case After(n) =>
      RunTwo(Push(Encode(n)), CheckLockTimeVerify, tx, m);
      RoundTrip(n);
      TimelockOperandFits(n);
    case V(x) =>
      CompileCorrect(x, tx, s, conds);
      VerifiedRuns(Compile(x), tx, m);
    case S(x) =>
      RunAppend([Swap], Compile(x), tx, m);
      RunOne(Swap, tx, m);
      if |s| < 2 {
        RunFailed(Compile(x), tx);
      } else {
        CompileCorrect(x, tx, Pop(Pop(s)) + [Top(s), Top(Pop(s))], conds);
      }
    case AndV(x, y) =>
      RunAppend(Compile(x), Compile(y), tx, m);
      CompileCorrect(x, tx, s, conds);
      match Eval(x, tx, s) {
        case None => RunFailed(Compile(y), tx);
        case Some(t) => CompileCorrect(y, tx, t, conds);
      }
    case OrB(x, y) => CompileOrBCorrect(x, y, tx, s, conds);
    case OrD(x, y) => CompileOrDCorrect(x, y, tx, s, conds);
  }

  /** Both operands of BOOLOR are 0 or 1. */
  lemma OrBOperands(x: Expr<XOnly>, y: Expr<XOnly>, tx: Spend, s: Stack)
    requires WellTyped(OrB(x, y)) && Eval(x, tx, s).Some? && Eval(y, tx, Eval(x, tx, s).value).Some?
    ensures var r := Eval(y, tx, Eval(x, tx, s).value).value;
            |r| >= 2 && Unit(Top(r)) && Unit(Top(Pop(r)))
  {
    EvalKeeps(x, tx, s);
    EvalKeeps(y, tx, Eval(x, tx, s).value);
    DissatisfiableIsUnit(x);
    DissatisfiableIsUnit(y);
  }

  lemma {:induction false} CompileOrBCorrect(x: Expr<XOnly>, y: Expr<XOnly>, tx: Spend, s: Stack, conds: seq<bool>)
    requires WellTyped(x) && WellTyped(y) && WellTyped(OrB(x, y)) && Executing(conds)
    ensures Run(Compile(OrB(x, y)), tx, Running(s, conds)) == Outcome(Eval(OrB(x, y), tx, s), conds)
    decreases OrB(x, y), 0
  {
    hide Run, Step, TypeOf;
    var m := Running(s, conds);
    OrBRuns(x, y, tx, m);
    CompileCorrect(x, tx, s, conds);
    match Eval(x, tx, s)
    case None =>
      RunFailed(Compile(y), tx);
      StepFailed(BoolOr, tx);
    case Some(t) =>
      CompileCorrect(y, tx, t, conds);
      StepFailed(BoolOr, tx);
      if Eval(y, tx, t).Some? {
        OrBOperands(x, y, tx, s);
        BoolOrStep(Eval(y, tx, t).value, tx, conds);
      }
  }

  lemma OrBRuns(x: Expr<XOnly>, y: Expr<XOnly>, tx: Spend, m: Machine)
    ensures Run(Compile(OrB(x, y)), tx, m) == Step(BoolOr, tx, Run(Compile(y), tx, Run(Compile(x), tx, m)))
  {
    hide Run, Step;
    RunAppend(Compile(x) + Compile(y), [BoolOr], tx, m);
    RunAppend(Compile(x), Compile(y), tx, m);
    RunOne(BoolOr, tx, Run(Compile(y), tx, Run(Compile(x), tx, m)));
  }

  lemma BoolOrStep(r: Stack, tx: Spend, conds: seq<bool>)
    requires |r| >= 2 && Unit(Top(r)) && Unit(Top(Pop(r))) && Executing(conds)
    ensures Step(BoolOr, tx, Running(r, conds))
         == Running(Pop(Pop(r)) + [if Truthy(Top(r)) || Truthy(Top(Pop(r))) then TRUE else FALSE], conds)
  {}

  lemma {:induction false} CompileOrDCorrect(x: Expr<XOnly>, y: Expr<XOnly>, tx: Spend, s: Stack, conds: seq<bool>)
    requires WellTyped(x) && WellTyped(y) && WellTyped(OrD(x, y)) && Executing(conds)
    ensures Run(Compile(OrD(x, y)), tx, Running(s, conds)) == Outcome(Eval(OrD(x, y), tx, s), conds)
    decreases OrD(x, y), 0
  {
    hide Run, Step, TypeOf;
    OrDRuns(x, y, tx, Running(s, conds));
    CompileCorrect(x, tx, s, conds);
    match Eval(x, tx, s)
    case None =>
      RunFailed([IfDup, NotIf], tx);
      RunFailed(Compile(y), tx);
      StepFailed(EndIf, tx);
    case Some(t) =>
      StepFailed(EndIf, tx);
      OrDOperand(x, y, tx, s);
      BranchOn(t, tx, conds);
      if Top(t) == TRUE {
        CompileSkipped(y, tx, t, conds + [false]);
        EndIfStep(tx, t, conds, false);
      } else {
        CompileCorrect(y, tx, Pop(t), conds + [true]);
        if Eval(y, tx, Pop(t)).Some? {
          EndIfStep(tx, Eval(y, tx, Pop(t)).value, conds, true);
        }
      }
  }

  /** The first operand of `or_d` leaves 0 or 1, which NOTIF accepts. */
  lemma OrDOperand(x: Expr<XOnly>, y: Expr<XOnly>, tx: Spend, s: Stack)
    requires WellTyped(OrD(x, y)) && Eval(x, tx, s).Some?
    ensures var t := Eval(x, tx, s).value; t != [] && Unit(Top(t)) && (Truthy(Top(t)) <==> Top(t) == TRUE)
  {
    EvalKeeps(x, tx, s);
    UnitTruth();
  }

  lemma EndIfStep(tx: Spend, t: Stack, conds: seq<bool>, taken: bool)
    ensures Step(EndIf, tx, Running(t, conds + [taken])) == Running(t, conds)
  {}

  /** `IFDUP NOTIF` keeps a 1 and skips the branch, or drops an empty element and takes it. */
  lemma BranchOn(t: Stack, tx: Spend, conds: seq<bool>)
    requires t != [] && Unit(Top(t)) && Executing(conds)
    ensures Run([IfDup, NotIf], tx, Running(t, conds))
         == if Top(t) == TRUE then Running(t, conds + [false]) else Running(Pop(t), conds + [true])
    ensures Executing(conds + [true]) && !Executing(conds + [false])
  {
    UnitTruth();
    RunTwo(IfDup, NotIf, tx, Running(t, conds));
    assert Pop(t + [Top(t)]) == t;
    assert (conds + [false])[|conds|] == false;
  }

  // ----- satisfactions -----

  ghost function SignatureOf(tx: Spend, k: Bytes): Bytes
    requires k in Signers(tx)
    ensures ValidSignature(tx, k, SignatureOf(tx, k)) && SignatureOf(tx, k) != FALSE
  {
    var sig :| ValidSignature(tx, k, sig);
    sig
  }

  /** Stack elements that dissatisfy an expression, bottom first: empty ones, no signatures. */
  function Dissatisfaction<K>(e: Expr<K>): Stack {
    match e
    case Pk(_) => [FALSE]
    case S(x) => Dissatisfaction(x)
    case OrB(x, y) => Dissatisfaction(y) + Dissatisfaction(x)
    case OrD(x, y) => Dissatisfaction(y) + Dissatisfaction(x)
    case _ => []
  }

  /** Stack elements that satisfy an expression whose policy holds. */
  ghost function Satisfaction(e: Expr<XOnly>, tx: Spend): Stack
    requires Holds(e, Signers(tx), tx)
  {
    match e
    case Pk(k) => [SignatureOf(tx, k)]
    case Older(_) => []
    case After(_) => []
    case V(x) => Satisfaction(x, tx)
    case S(x) => Satisfaction(x, tx)
    case AndV(x, y) => Satisfaction(y, tx) + Satisfaction(x, tx)
    case OrB(x, y) =>
      if Holds(x, Signers(tx), tx) then Dissatisfaction(y) + Satisfaction(x, tx)
      else Satisfaction(y, tx) + Dissatisfaction(x)
    case OrD(x, y) =>
      if Holds(x, Signers(tx), tx) then Satisfaction(x, tx)
      else Satisfaction(y, tx) + Dissatisfaction(x)
  }

  /** The stack an expression of type `base` meets: a W expression works below the current top. */
  function Below(base: Base, s: Stack, item: Bytes): Stack {
    if base == W then s + [item] else s
  }

  /** Evaluating `e` takes the stack from `start` to `s`, leaving `result` on top unless `e` is a V. */
  ghost predicate Leaves(e: Expr<XOnly>, tx: Spend, base: Base, start: Stack, s: Stack, item: Bytes, result: Bytes) {
    Eval(e, tx, Below(base, start, item)) == Some(if base == VType then s else Below(base, s, item) + [result])
  }

  lemma VerifyLeaves(x: Expr<XOnly>, tx: Spend, start: Stack, s: Stack, item: Bytes, v: Bytes)
    requires Leaves(x, tx, B, start, s, item, v) && Truthy(v)
    ensures Leaves(V(x), tx, VType, start, s, item, v)
  {}

  /** `s:` brings the one argument of its operand above the element it works below. */
  lemma SwapLeaves(x: Expr<XOnly>, tx: Spend, s: Stack, arg: Stack, item: Bytes, v: Bytes)
    requires |arg| == 1 && Leaves(x, tx, B, s + [item] + arg, s + [item], item, v)
    ensures Leaves(S(x), tx, W, s + arg, s, item, v)
  {
    var start := s + arg + [item];
    assert Pop(Pop(start)) + [Top(start), Top(Pop(start))] == s + [item] + arg;
  }

  lemma AndVLeaves(x: Expr<XOnly>, y: Expr<XOnly>, tx: Spend, base: Base, start: Stack, mid: Stack, s: Stack,
                   item: Bytes, a: Bytes, b: Bytes)
    requires base != W
    requires Leaves(x, tx, VType, start, mid, item, a) && Leaves(y, tx, base, mid, s, item, b)
    ensures Leaves(AndV(x, y), tx, base, start, s, item, b)
  {}

  lemma OrBLeaves(x: Expr<XOnly>, y: Expr<XOnly>, tx: Spend, start: Stack, mid: Stack, s: Stack,
                  item: Bytes, a: Bytes, b: Bytes)
    requires Leaves(x, tx, B, start, mid, item, a) && Leaves(y, tx, W, mid, s, a, b)
    ensures Leaves(OrB(x, y), tx, B, start, s, item, if Truthy(b) || Truthy(a) then TRUE else FALSE)
  {
    hide Eval, Truthy;
    OrBEval(x, y, tx, start, mid + [a], s + [a] + [b]);
    assert Top(s + [a] + [b]) == b && Pop(s + [a] + [b]) == s + [a];
    assert Top(s + [a]) == a && Pop(s + [a]) == s;
  }

  lemma OrBEval(x: Expr<XOnly>, y: Expr<XOnly>, tx: Spend, start: Stack, mid: Stack, r: Stack)
    requires Eval(x, tx, start) == Some(mid) && Eval(y, tx, mid) == Some(r) && |r| >= 2
    ensures Eval(OrB(x, y), tx, start)
         == Some(Pop(Pop(r)) + [if Truthy(Top(r)) || Truthy(Top(Pop(r))) then TRUE else FALSE])
  {
    hide Truthy;
  }

  lemma OrDLeavesLeft(x: Expr<XOnly>, y: Expr<XOnly>, tx: Spend, start: Stack, s: Stack, item: Bytes, a: Bytes)
    requires Leaves(x, tx, B, start, s, item, a) && Truthy(a)
    ensures Leaves(OrD(x, y), tx, B, start, s, item, a)
  {}

  lemma OrDLeavesRight(x: Expr<XOnly>, y: Expr<XOnly>, tx: Spend, start: Stack, mid: Stack, s: Stack,
                       item: Bytes, b: Bytes)
    requires Leaves(x, tx, B, start, mid, item, FALSE) && Leaves(y, tx, B, mid, s, item, b)
    ensures Leaves(OrD(x, y), tx, B, start, s, item, b)
  {
    UnitTruth();
    assert Pop(mid + [FALSE]) == mid;
  }

  lemma PkLeaves(k: XOnly, tx: Spend, s: Stack, sig: Bytes, item: Bytes)
    requires sig == FALSE || ValidSignature(tx, k, sig)
    ensures Leaves(Pk(k), tx, B, s + [sig], s, item, if sig == FALSE then FALSE else TRUE)
  {}

  lemma {:induction false} DissatisfactionWorks(e: Expr<XOnly>, tx: Spend, s: Stack, item: Bytes)
    requires WellTyped(e) && TypeOf(e).value.d
    ensures TypeOf(e).value.base != VType
    ensures Leaves(e, tx, TypeOf(e).value.base, s + Dissatisfaction(e), s, item, FALSE)
  {
    hide Leaves, Truthy, ValidSignature, CsvPasses, CltvPasses;
    UnitTruth();
    match e
    case Pk(k) => PkLeaves(k, tx, s, FALSE, item);
    case S(x) =>
      WitnessSize(x, tx);
      DissatisfactionWorks(x, tx, s + [item], item);
      SwapLeaves(x, tx, s, Dissatisfaction(x), item, FALSE);
    case OrB(x, y) =>
      assert s + Dissatisfaction(e) == s + Dissatisfaction(y) + Dissatisfaction(x);
      DissatisfactionWorks(x, tx, s + Dissatisfaction(y), item);
      DissatisfactionWorks(y, tx, s, FALSE);
      OrBLeaves(x, y, tx, s + Dissatisfaction(e), s + Dissatisfaction(y), s, item, FALSE, FALSE);
    case OrD(x, y) =>
      assert s + Dissatisfaction(e) == s + Dissatisfaction(y) + Dissatisfaction(x);
      DissatisfactionWorks(x, tx, s + Dissatisfaction(y), item);
      DissatisfactionWorks(y, tx, s, item);
      OrDLeavesRight(x, y, tx, s + Dissatisfaction(e), s + Dissatisfaction(y), s, item, FALSE);
    case _ =>
  }

  /** The satisfaction and dissatisfaction of an expression hold as many elements as its type says. */
  lemma {:induction false} WitnessSize(e: Expr<XOnly>, tx: Spend)
    requires WellTyped(e)
    ensures var ty := TypeOf(e).value;
            && (ty.d && ty.o ==> |Dissatisfaction(e)| == 1)
            && (ty.d && ty.z ==> |Dissatisfaction(e)| == 0)
            && (Holds(e, Signers(tx), tx) ==>
                  && (ty.o ==> |Satisfaction(e, tx)| == 1)
                  && (ty.z ==> |Satisfaction(e, tx)| == 0))
  {
    match e
    case V(x) => WitnessSize(x, tx);
    case S(x) => WitnessSize(x, tx);
    case AndV(x, y) => WitnessSize(x, tx); WitnessSize(y, tx);
    case OrB(x, y) => WitnessSize(x, tx); WitnessSize(y, tx);
    case OrD(x, y) => WitnessSize(x, tx); WitnessSize(y, tx);
    case _ =>
  }

  /** A timelock that passes leaves its operand, which is true. */
  lemma OperandLeaves(e: Expr<XOnly>, tx: Spend, s: Stack, item: Bytes) returns (result: Bytes)
    requires || (e.Older? && CsvPasses(e.blocks, tx) && e.blocks > 0)
             || (e.After? && CltvPasses(e.height, tx) && e.height > 0)
    ensures Leaves(e, tx, B, s + [], s, item, result) && Truthy(result)
  {
    assert s + [] == s;
    result := Encode(if e.Older? then e.blocks else e.height);
    RoundTrip(if e.Older? then e.blocks else e.height);
  }

  lemma {:induction false} SatisfactionWorks(e: Expr<XOnly>, tx: Spend, s: Stack, item: Bytes) returns (result: Bytes)
    requires WellTyped(e) && Holds(e, Signers(tx), tx)
    ensures Truthy(result)
    ensures Leaves(e, tx, TypeOf(e).value.base, s + Satisfaction(e, tx), s, item, result)
  {
    hide Leaves, Truthy, Encode, ValidSignature, CsvPasses, CltvPasses;
    UnitTruth();
    var w := Satisfaction(e, tx);
    result := TRUE;
    match e
    case Pk(k) =>
      PkLeaves(k, tx, s, SignatureOf(tx, k), item);
    case Older(_) => result := OperandLeaves(e, tx, s, item);
    case After(_) => result := OperandLeaves(e, tx, s, item);
    case V(x) =>
      result := SatisfactionWorks(x, tx, s, item);
      VerifyLeaves(x, tx, s + w, s, item, result);
    case S(x) =>
      WitnessSize(x, tx);
      result := SatisfactionWorks(x, tx, s + [item], item);
      SwapLeaves(x, tx, s, w, item, result);
    case AndV(x, y) =>
      var mid := s + Satisfaction(y, tx);
      assert s + w == mid + Satisfaction(x, tx);
      var v := SatisfactionWorks(x, tx, mid, item);
      result := SatisfactionWorks(y, tx, s, item);
      AndVLeaves(x, y, tx, TypeOf(y).value.base, s + w, mid, s, item, v, result);
    case OrB(x, y) =>
      if Holds(x, Signers(tx), tx) {
        var mid := s + Dissatisfaction(y);
        assert s + w == mid + Satisfaction(x, tx);
        var a := SatisfactionWorks(x, tx, mid, item);
        DissatisfactionWorks(y, tx, s, a);
        OrBLeaves(x, y, tx, s + w, mid, s, item, a, FALSE);
      } else {
        var mid := s + Satisfaction(y, tx);
        assert s + w == mid + Dissatisfaction(x);
        DissatisfactionWorks(x, tx, mid, item);
        var b := SatisfactionWorks(y, tx, s, FALSE);
        OrBLeaves(x, y, tx, s + w, mid, s, item, FALSE, b);
      }
    case OrD(x, y) =>
      if Holds(x, Signers(tx), tx) {
        result := SatisfactionWorks(x, tx, s, item);
        OrDLeavesLeft(x, y, tx, s + w, s, item, result);
      } else {
        var mid := s + Satisfaction(y, tx);
        assert s + w == mid + Dissatisfaction(x);
        DissatisfactionWorks(x, tx, mid, item);
        result := SatisfactionWorks(y, tx, s, item);
        OrDLeavesRight(x, y, tx, s + w, mid, s, item, result);
      }
  }

  // ----- the theorems about whole leaves -----

  /** A compiled leaf accepts exactly the stacks that evaluate to one true element. */
  lemma AcceptsIsEval(e: Expr<XOnly>, tx: Spend, w: Stack)
    requires ValidLeaf(e)
    ensures Accepts(Compile(e), tx, w)
       <==> Eval(e, tx, w).Some? && |Eval(e, tx, w).value| == 1 && Truthy(Eval(e, tx, w).value[0])
  {
    CompileCorrect(e, tx, w, []);
  }

  /** Only if the policy holds: no witness at all is accepted otherwise. */
  lemma LeafSound(e: Expr<XOnly>, tx: Spend, w: Stack)
    requires ValidLeaf(e) && Accepts(Compile(e), tx, w)
    ensures Holds(e, Signers(tx), tx)
  {
    AcceptsIsEval(e, tx, w);
    EvalKeeps(e, tx, w);
    UnitTruth();
  }

  /** Whenever the policy holds: the satisfaction read off the expression is accepted. */
  lemma LeafComplete(e: Expr<XOnly>, tx: Spend)
    requires ValidLeaf(e) && Holds(e, Signers(tx), tx)
    ensures Accepts(Compile(e), tx, Satisfaction(e, tx))
  {
    var w := Satisfaction(e, tx);
    var result := SatisfactionWorks(e, tx, [], FALSE);
    assert [] + w == w && [] + [result] == [result];
    AcceptsIsEval(e, tx, w);
  }

  /** The compiled leaf can be spent exactly when the policy holds for the signatures and locks. */
  lemma SpendableIffPolicyHolds(e: Expr<XOnly>, tx: Spend)
    requires ValidLeaf(e)
    ensures Spendable(Compile(e), tx) <==> Holds(e, Signers(tx), tx)
  {
    if Holds(e, Signers(tx), tx) {
      LeafComplete(e, tx);
    }
    if Spendable(Compile(e), tx) {
      var w :| Accepts(Compile(e), tx, w);
      LeafSound(e, tx, w);
    }
  }
}
