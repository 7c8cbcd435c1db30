/** The program of task0/xvm/our_program.py: `pow_rec`, recursive
    exponentiation by squaring, and the same algorithm as XVM bytecode (the
    `pow` function and the entry point that reads `x` and `n`, calls `pow` and
    prints the result).  The bytecode is proved to compute `pow_rec`, and
    `pow_rec` to compute x to the power n. */
module PowProgram {
  import opened Values
  import opened Interpreter
  import opened InterpreterFacts

  /** x to the power n, the reference definition. */
  function Pow(x: int, n: nat): int
  {
    if n == 0 then 1 else x * Pow(x, n - 1)
  }

  lemma {:induction false} PowAdd(x: int, a: nat, b: nat)
    ensures Pow(x, a + b) == Pow(x, a) * Pow(x, b)
    decreases a
  {
    if a > 0 {
      PowAdd(x, a - 1, b);
      assert a + b - 1 == (a - 1) + b;
    }
  }

  /** `n // 2` */
  function Half(n: int): int
  {
    FloorDiv(n, 2)
  }

  /** The recursive calls of `pow_rec` are on a smaller positive exponent. */
  lemma HalfBounds(n: int)
    requires n >= 2
    ensures 1 <= Half(n) < n
  {
  }

  /** `pow_rec(x, n)`.  For n == 0 (and every negative n) the Python function
      calls itself with the same or a more negative exponent forever, so the
      model requires n >= 1. */
  function PowRec(x: int, n: int): (r: int)
    requires n >= 1
    decreases n
  {
    var d := Half(n);
    if d * 2 != n then
      if n == 1 then x
      else
        var xn := PowRec(x, d);
        xn * xn * x
    else
      var xn := PowRec(x, d);
      xn * xn
  }

  /** `pow_rec` computes x to the power n. */
  lemma {:induction false} PowRecIsPow(x: int, n: int)
    requires n >= 1
    ensures PowRec(x, n) == Pow(x, n)
    decreases n
  {
    var d := Half(n);
    if n >= 2 {
      PowRecIsPow(x, d);
      PowAdd(x, d, d);
      if d * 2 != n {
        PowAdd(x, d + d, 1);
        assert Pow(x, 1) == x;
        assert n == d + d + 1;
      } else {
        assert n == d + d;
      }
    }
  }

  /** `pow_rec(0, n)` for n == 0 never returns: it calls itself on n == 0 again. */
  lemma ZeroRecursesOnZero()
    ensures Half(0) == 0 && Half(0) * 2 == 0
  {
  }

  // ---------------------------------------------------------------------
  // The bytecode, as `parse_string` turns the POW and ENTRY texts into code.

  const X: Value := StrV("x")
  const N: Value := StrV("n")
  const D: Value := StrV("d")
  const XN: Value := StrV("xn")
  const PowName: Value := StrV("pow")
  const ZeroMessage: Value := StrV("This func can't take power of 0.")

  /** Instruction `i` of the `pow` function; LABEL lines are not instructions. */
  function PowInstr(i: int): Instr
    requires 0 <= i < 44
  {
    match i
    case 0 => Instr(StoreVar, [X])
    case 1 => Instr(StoreVar, [N])
    case 2 => Instr(LoadConst, [IntV(0)])
    case 3 => Instr(LoadVar, [N])
    case 4 => Instr(EqOp, [])
    case 5 => Instr(Cjmp, [StrV("Power 0")])
    case 6 => Instr(LoadConst, [IntV(2)])
    case 7 => Instr(LoadVar, [N])
    case 8 => Instr(DivOp, [])
    case 9 => Instr(StoreVar, [D])
    case 10 => Instr(LoadVar, [D])
    case 11 => Instr(LoadConst, [IntV(2)])
    case 12 => Instr(MulOp, [])
    case 13 => Instr(LoadVar, [N])
    case 14 => Instr(EqOp, [])
    case 15 => Instr(Cjmp, [StrV("Even")])
    case 16 => Instr(LoadConst, [IntV(1)])
    case 17 => Instr(LoadVar, [N])
    case 18 => Instr(EqOp, [])
    case 19 => Instr(Cjmp, [StrV("Stop")])
    case 20 => Instr(LoadVar, [D])
    case 21 => Instr(LoadVar, [X])
    case 22 => Instr(LoadConst, [PowName])
    case 23 => Instr(Call, [])
    case 24 => Instr(StoreVar, [XN])
    case 25 => Instr(LoadVar, [XN])
    case 26 => Instr(LoadVar, [XN])
    case 27 => Instr(MulOp, [])
    case 28 => Instr(LoadVar, [X])
    case 29 => Instr(MulOp, [])
    case 30 => Instr(Ret, [])
    case 31 => Instr(LoadVar, [X])
    case 32 => Instr(Ret, [])
    case 33 => Instr(LoadVar, [D])
    case 34 => Instr(LoadVar, [X])
    case 35 => Instr(LoadConst, [PowName])
    case 36 => Instr(Call, [])
    case 37 => Instr(StoreVar, [XN])
    case 38 => Instr(LoadVar, [XN])
    case 39 => Instr(LoadVar, [XN])
    case 40 => Instr(MulOp, [])
    case 41 => Instr(Ret, [])
    case 42 => Instr(LoadConst, [ZeroMessage])
    case 43 => Instr(Ret, [])
  }

  /** The `pow` function; each label is the number of instructions before it. */
  function PowCode(): Code { Code(seq(44, i requires 0 <= i < 44 => PowInstr(i)), map["Stop" := 31, "Even" := 33, "Power 0" := 42]) }

  /** Instruction `i` of the entry point. */
  function EntryInstr(i: int): Instr
    requires 0 <= i < 11
  {
    match i
    case 0 => Instr(InputNumber, [])
    case 1 => Instr(StoreVar, [X])
    case 2 => Instr(InputNumber, [])
    case 3 => Instr(StoreVar, [N])
    case 4 => Instr(LoadVar, [N])
    case 5 => Instr(LoadVar, [X])
    case 6 => Instr(LoadConst, [PowName])
    case 7 => Instr(Call, [])
    case 8 => Instr(StoreVar, [XN])
    case 9 => Instr(LoadVar, [XN])
    case 10 => Instr(Print, [])
  }

  /** The entry point. */
  function EntryCode(): Code { Code(seq(11, i requires 0 <= i < 11 => EntryInstr(i)), map[]) }

  /** The `code` dictionary our_program.py hands to `run_code`. */
  const OurProgram: Program := Named(map["pow" := PowCode(), EntryPoint := EntryCode()])

  // ---------------------------------------------------------------------
  // One call of `pow`, segment by segment.

  /** The VM has just entered `pow` with `x` on top of `n` on the stack. */
  predicate Entered(m: Machine, t: Table, s: seq<Value>, xv: Value, nv: Value)
  {
    && CodeOf(t, PowName) == Some(PowCode())
    && m.currentFrame == PowName
    && m.ip == 0
    && m.variables == map[]
    && m.stack == s + [nv, xv]
  }

  /** A state of the same call of `pow`. */
  function InPow(m: Machine, stack: seq<Value>, vars: map<Value, Value>, ip: int): Machine
  {
    m.(stack := stack, variables := vars, ip := ip)
  }

  /** What the caller of a call entered as `m` sees once it returned `r`: the
      two arguments replaced by `r`, its variables, save-stacks, function and
      instruction pointer back, and `ip` moved past the CALL. */
  function Returned(m: Machine, s: seq<Value>, r: Value): Machine
    requires m.frames != [] && m.savedIps != []
  {
    var back := m.savedIps[|m.savedIps| - 1];
    m.(stack := s + [r],
       variables := m.frames[|m.frames| - 1],
       frames := m.frames[..|m.frames| - 1],
       savedIps := m.savedIps[..|m.savedIps| - 1],
       currentFrame := back.frame,
       ip := back.ip + 1)
  }

  function Vars1(xv: Value, nv: Value): map<Value, Value>
  {
    map[X := xv, N := nv]
  }

  function Vars2(x: int, n: int): map<Value, Value>
  {
    Vars1(IntV(x), IntV(n))[D := IntV(Half(n))]
  }

  function Vars3(x: int, n: int, r: int): map<Value, Value>
  {
    Vars2(x, n)[XN := IntV(r)]
  }

  /** The state of `pow` once it has called itself: the caller's variables and
      its CALL's position are saved, `d` and `x` are the new arguments. */
  function Callee(m: Machine, s: seq<Value>, x: int, n: int, callAt: int): Machine
  {
    m.(stack := s + [IntV(Half(n)), IntV(x)],
       variables := map[],
       frames := m.frames + [Vars2(x, n)],
       savedIps := m.savedIps + [SavedIp(PowName, callAt)],
       ip := 0)
  }

  /** Returning `r` from the callee puts the caller back in its own frame,
      just past its CALL, with `r` on its stack. */
  lemma BackFromCallee(m: Machine, s: seq<Value>, x: int, n: int, r: int, callAt: int)
    requires m.currentFrame == PowName
    ensures Returned(Callee(m, s, x, n, callAt), s, IntV(r)) == InPow(m, s + [IntV(r)], Vars2(x, n), callAt + 1)
  {
    var callee := Callee(m, s, x, n, callAt);
    assert callee.frames[..|callee.frames| - 1] == m.frames;
    assert callee.savedIps[..|callee.savedIps| - 1] == m.savedIps;
  }

  // Each segment extends a run of `k` turns from `o` that reached a state of
  // the call entered as `m`.

  /** Instructions 0-2: the arguments are stored, 0 is pushed. */
  lemma StoreArguments(o: Machine, k: nat, m: Machine, t: Table, s: seq<Value>, xv: Value, nv: Value, fm: FloatModel)
    requires Entered(m, t, s, xv, nv) && Steps(o, t, k, fm) == Some(m)
    ensures Steps(o, t, k + 3, fm) == Some(InPow(m, s + [IntV(0)], Vars1(xv, nv), 3))
  {
    var c := PowCode();
    assert m.stack == (s + [nv]) + [xv];
    TurnStoreVar(o, k, m, t, c, 0, X, s + [nv], xv, fm);
    var m1 := m.(stack := s + [nv], variables := m.variables[X := xv], ip := 1);
    TurnStoreVar(o, k + 1, m1, t, c, 1, N, s, nv, fm);
    var m2 := m1.(stack := s, variables := m1.variables[N := nv], ip := 2);
    TurnLoadConst(o, k + 2, m2, t, c, 2, IntV(0), fm);
    assert m2.variables == Vars1(xv, nv);
  }

  /** Instructions 3-5: `n == 0` jumps to "Power 0". */
  lemma TestZero(o: Machine, k: nat, m: Machine, t: Table, s: seq<Value>, x: int, n: int, fm: FloatModel)
    requires Entered(m, t, s, IntV(x), IntV(n))
    requires Steps(o, t, k, fm) == Some(InPow(m, s + [IntV(0)], Vars1(IntV(x), IntV(n)), 3))
    ensures Steps(o, t, k + 3, fm) == Some(InPow(m, s, Vars1(IntV(x), IntV(n)), if n == 0 then 42 else 6))
  {
    var c, v := PowCode(), Vars1(IntV(x), IntV(n));
    var m3 := InPow(m, s + [IntV(0)], v, 3);
    TurnLoadVar(o, k, m3, t, c, 3, N, fm);
    var m4 := m3.(stack := m3.stack + [m3.variables[N]], ip := 4);
    assert m4.stack == s + [IntV(0), IntV(n)];
    TurnIntCompare(o, k + 1, m4, t, c, 4, EqOp, s, n, 0, fm);
    var b := IntV(if n == 0 then 1 else 0);
    var m5 := m4.(stack := s + [b], ip := 5);
    TurnCjmp(o, k + 2, m5, t, c, 5, "Power 0", s, b, fm);
  }

  /** Instructions 6-9: `d = n // 2`. */
  lemma ComputeHalf(o: Machine, k: nat, m: Machine, t: Table, s: seq<Value>, x: int, n: int, fm: FloatModel)
    requires Entered(m, t, s, IntV(x), IntV(n))
    requires Steps(o, t, k, fm) == Some(InPow(m, s, Vars1(IntV(x), IntV(n)), 6))
    ensures Steps(o, t, k + 4, fm) == Some(InPow(m, s, Vars2(x, n), 10))
  {
    var c, v := PowCode(), Vars1(IntV(x), IntV(n));
    var m6 := InPow(m, s, v, 6);
    TurnLoadConst(o, k, m6, t, c, 6, IntV(2), fm);
    var m7 := m6.(stack := s + [IntV(2)], ip := 7);
    TurnLoadVar(o, k + 1, m7, t, c, 7, N, fm);
    var m8 := m7.(stack := m7.stack + [m7.variables[N]], ip := 8);
    assert m8.stack == s + [IntV(2), IntV(n)];
    TurnIntArith(o, k + 2, m8, t, c, 8, DivOp, s, n, 2, fm);
    var m9 := m8.(stack := s + [IntV(Half(n))], ip := 9);
    TurnStoreVar(o, k + 3, m9, t, c, 9, D, s, IntV(Half(n)), fm);
  }

  /** Instructions 10-12: `d * 2` is pushed. */
  lemma DoubleHalf(o: Machine, k: nat, m: Machine, t: Table, s: seq<Value>, x: int, n: int, fm: FloatModel)
    requires Entered(m, t, s, IntV(x), IntV(n))
    requires Steps(o, t, k, fm) == Some(InPow(m, s, Vars2(x, n), 10))
    ensures Steps(o, t, k + 3, fm) == Some(InPow(m, s + [IntV(2 * Half(n))], Vars2(x, n), 13))
  {
    var c, v, d := PowCode(), Vars2(x, n), Half(n);
    var m10 := InPow(m, s, v, 10);
    TurnLoadVar(o, k, m10, t, c, 10, D, fm);
    var m11 := m10.(stack := m10.stack + [m10.variables[D]], ip := 11);
    TurnLoadConst(o, k + 1, m11, t, c, 11, IntV(2), fm);
    var m12 := m11.(stack := m11.stack + [IntV(2)], ip := 12);
    assert m12.stack == s + [IntV(d), IntV(2)];
    TurnIntArith(o, k + 2, m12, t, c, 12, MulOp, s, 2, d, fm);
  }

  /** Instructions 13-15: an even `n` jumps to "Even". */
  lemma TestEven(o: Machine, k: nat, m: Machine, t: Table, s: seq<Value>, x: int, n: int, fm: FloatModel)
    requires Entered(m, t, s, IntV(x), IntV(n))
    requires Steps(o, t, k, fm) == Some(InPow(m, s + [IntV(2 * Half(n))], Vars2(x, n), 13))
    ensures Steps(o, t, k + 3, fm) == Some(InPow(m, s, Vars2(x, n), if Half(n) * 2 == n then 33 else 16))
  {
    var c, v, d := PowCode(), Vars2(x, n), Half(n);
    var m13 := InPow(m, s + [IntV(2 * d)], v, 13);
    TurnLoadVar(o, k, m13, t, c, 13, N, fm);
    var m14 := m13.(stack := m13.stack + [m13.variables[N]], ip := 14);
    assert m14.stack == s + [IntV(2 * d), IntV(n)];
    TurnIntCompare(o, k + 1, m14, t, c, 14, EqOp, s, n, 2 * d, fm);
    var b := IntV(if n == 2 * d then 1 else 0);
    var m15 := m14.(stack := s + [b], ip := 15);
    TurnCjmp(o, k + 2, m15, t, c, 15, "Even", s, b, fm);
  }

  /** Instructions 16-19: `n == 1` jumps to "Stop". */
  lemma TestOne(o: Machine, k: nat, m: Machine, t: Table, s: seq<Value>, x: int, n: int, fm: FloatModel)
    requires Entered(m, t, s, IntV(x), IntV(n))
    requires Steps(o, t, k, fm) == Some(InPow(m, s, Vars2(x, n), 16))
    ensures Steps(o, t, k + 4, fm) == Some(InPow(m, s, Vars2(x, n), if n == 1 then 31 else 20))
  {
    var m18 := InPow(m, s + [IntV(1), IntV(n)], Vars2(x, n), 18);
    LoadOneAndN(o, k, m, t, s, x, n, fm);
    var b := IntV(if n == 1 then 1 else 0);
    TurnIntCompare(o, k + 2, m18, t, PowCode(), 18, EqOp, s, n, 1, fm);
    TurnCjmp(o, k + 3, m18.(stack := s + [b], ip := 19), t, PowCode(), 19, "Stop", s, b, fm);
  }

  /** Instructions 16-17: 1 and `n` are pushed. */
  lemma LoadOneAndN(o: Machine, k: nat, m: Machine, t: Table, s: seq<Value>, x: int, n: int, fm: FloatModel)
    requires Entered(m, t, s, IntV(x), IntV(n))
    requires Steps(o, t, k, fm) == Some(InPow(m, s, Vars2(x, n), 16))
    ensures Steps(o, t, k + 2, fm) == Some(InPow(m, s + [IntV(1), IntV(n)], Vars2(x, n), 18))
  {
    var c, v := PowCode(), Vars2(x, n);
    var m16 := InPow(m, s, v, 16);
    TurnLoadConst(o, k, m16, t, c, 16, IntV(1), fm);
    var m17 := m16.(stack := s + [IntV(1)], ip := 17);
    TurnLoadVar(o, k + 1, m17, t, c, 17, N, fm);
    assert m17.(stack := m17.stack + [m17.variables[N]], ip := 18) == InPow(m, s + [IntV(1), IntV(n)], v, 18);
  }

  /** A RET of `pow` with `r` on top of the caller's stack `s`. */
  lemma ReturnFromPow(o: Machine, k: nat, m: Machine, t: Table, s: seq<Value>, vars: map<Value, Value>, ip: int, r: Value, fm: FloatModel)
    requires CodeOf(t, PowName) == Some(PowCode()) && m.currentFrame == PowName
    requires m.frames != [] && m.savedIps != []
    requires 0 <= ip < |PowCode().instructions| && PowCode().instructions[ip] == Instr(Ret, [])
    requires Steps(o, t, k, fm) == Some(InPow(m, s + [r], vars, ip))
    ensures Steps(o, t, k + 1, fm) == Some(Returned(m, s, r))
  {
    var i, j := |m.frames| - 1, |m.savedIps| - 1;
    assert m.frames == m.frames[..i] + [m.frames[i]];
    assert m.savedIps == m.savedIps[..j] + [m.savedIps[j]];
    TurnRet(o, k, InPow(m, s + [r], vars, ip), t, PowCode(), ip, m.frames[..i], m.frames[i], m.savedIps[..j], m.savedIps[j], fm);
  }

  /** Instructions 31-32: `pow(x, 1)` returns `x`. */
  lemma ReturnX(o: Machine, k: nat, m: Machine, t: Table, s: seq<Value>, x: int, n: int, fm: FloatModel)
    requires Entered(m, t, s, IntV(x), IntV(n))
    requires m.frames != [] && m.savedIps != []
    requires Steps(o, t, k, fm) == Some(InPow(m, s, Vars2(x, n), 31))
    ensures Steps(o, t, k + 2, fm) == Some(Returned(m, s, IntV(x)))
  {
    var c, v := PowCode(), Vars2(x, n);
    var m31 := InPow(m, s, v, 31);
    TurnLoadVar(o, k, m31, t, c, 31, X, fm);
    ReturnFromPow(o, k + 1, m, t, s, v, 32, IntV(x), fm);
  }

  /** Instructions 42-43: `pow(x, 0)` returns the message string. */
  lemma ReturnMessage(o: Machine, k: nat, m: Machine, t: Table, s: seq<Value>, x: int, n: int, fm: FloatModel)
    requires Entered(m, t, s, IntV(x), IntV(n))
    requires m.frames != [] && m.savedIps != []
    requires Steps(o, t, k, fm) == Some(InPow(m, s, Vars1(IntV(x), IntV(n)), 42))
    ensures Steps(o, t, k + 2, fm) == Some(Returned(m, s, ZeroMessage))
  {
    var c, v := PowCode(), Vars1(IntV(x), IntV(n));
    TurnLoadConst(o, k, InPow(m, s, v, 42), t, c, 42, ZeroMessage, fm);
    ReturnFromPow(o, k + 1, m, t, s, v, 43, ZeroMessage, fm);
  }

  /** Instructions `at`-`at + 3` (20-23 or 33-36): `pow(x, d)` is called. */
  lemma CallHalf(o: Machine, k: nat, m: Machine, t: Table, s: seq<Value>, x: int, n: int, at: int, fm: FloatModel)
    requires Entered(m, t, s, IntV(x), IntV(n))
    requires at == 20 || at == 33
    requires Steps(o, t, k, fm) == Some(InPow(m, s, Vars2(x, n), at))
    ensures Steps(o, t, k + 4, fm) == Some(Callee(m, s, x, n, at + 3))
  {
    var c, v, d := PowCode(), Vars2(x, n), Half(n);
    assert c.instructions[at] == Instr(LoadVar, [D]) && c.instructions[at + 1] == Instr(LoadVar, [X])
      && c.instructions[at + 2] == Instr(LoadConst, [PowName]) && c.instructions[at + 3] == Instr(Call, []) by {
      if at == 20 {
        assert PowInstr(20) == Instr(LoadVar, [D]) && PowInstr(23) == Instr(Call, []);
      } else {
        assert PowInstr(33) == Instr(LoadVar, [D]) && PowInstr(36) == Instr(Call, []);
      }
    }
    var m0 := InPow(m, s, v, at);
    TurnLoadVar(o, k, m0, t, c, at, D, fm);
    var m1 := m0.(stack := m0.stack + [m0.variables[D]], ip := at + 1);
    TurnLoadVar(o, k + 1, m1, t, c, at + 1, X, fm);
    var m2 := m1.(stack := m1.stack + [m1.variables[X]], ip := at + 2);
    TurnLoadConst(o, k + 2, m2, t, c, at + 2, PowName, fm);
    var m3 := m2.(stack := m2.stack + [PowName], ip := at + 3);
    assert m3.stack == s + [IntV(d), IntV(x)] + [PowName];
    TurnCall(o, k + 3, m3, t, c, at + 3, s + [IntV(d), IntV(x)], PowName, fm);
  }

  /** Instructions `at`-`at + 3` (24-27 or 37-40): the result `r` of the
      recursive call is stored in `xn` and squared. */
  lemma Square(o: Machine, k: nat, m: Machine, t: Table, s: seq<Value>, x: int, n: int, r: int, at: int, fm: FloatModel)
    requires Entered(m, t, s, IntV(x), IntV(n))
    requires at == 24 || at == 37
    requires Steps(o, t, k, fm) == Some(InPow(m, s + [IntV(r)], Vars2(x, n), at))
    ensures Steps(o, t, k + 4, fm) == Some(InPow(m, s + [IntV(r * r)], Vars3(x, n, r), at + 4))
  {
    var c := PowCode();
    SquareCode(at);
    StoreAndLoad(o, k, m, t, s, x, n, r, at, fm);
    var m2 := InPow(m, s + [IntV(r)], Vars3(x, n, r), at + 2);
    TurnLoadVar(o, k + 2, m2, t, c, at + 2, XN, fm);
    var m3 := m2.(stack := m2.stack + [m2.variables[XN]], ip := at + 3);
    assert m3.stack == s + [IntV(r), IntV(r)];
    TurnIntArith(o, k + 3, m3, t, c, at + 3, MulOp, s, r, r, fm);
  }

  /** Both squaring blocks of `pow` read `STORE_VAR xn; LOAD_VAR xn; LOAD_VAR xn; MUL`. */
  lemma SquareCode(at: int)
    requires at == 24 || at == 37
    ensures PowCode().instructions[at] == Instr(StoreVar, [XN]) && PowCode().instructions[at + 1] == Instr(LoadVar, [XN])
    ensures PowCode().instructions[at + 2] == Instr(LoadVar, [XN]) && PowCode().instructions[at + 3] == Instr(MulOp, [])
  {
    if at == 24 {
      assert PowInstr(24) == Instr(StoreVar, [XN]) && PowInstr(27) == Instr(MulOp, []);
    } else {
      assert PowInstr(37) == Instr(StoreVar, [XN]) && PowInstr(40) == Instr(MulOp, []);
    }
  }

  /** Instructions `at` and `at + 1` of `Square`: `r` is stored in `xn` and loaded back. */
  lemma StoreAndLoad(o: Machine, k: nat, m: Machine, t: Table, s: seq<Value>, x: int, n: int, r: int, at: int, fm: FloatModel)
    requires Entered(m, t, s, IntV(x), IntV(n))
    requires 0 <= at < |PowCode().instructions| - 1
    requires PowCode().instructions[at] == Instr(StoreVar, [XN]) && PowCode().instructions[at + 1] == Instr(LoadVar, [XN])
    requires Steps(o, t, k, fm) == Some(InPow(m, s + [IntV(r)], Vars2(x, n), at))
    ensures Steps(o, t, k + 2, fm) == Some(InPow(m, s + [IntV(r)], Vars3(x, n, r), at + 2))
  {
    var c := PowCode();
    var m0 := InPow(m, s + [IntV(r)], Vars2(x, n), at);
    TurnStoreVar(o, k, m0, t, c, at, XN, s, IntV(r), fm);
    var m1 := m0.(stack := s, variables := Vars3(x, n, r), ip := at + 1);
    TurnLoadVar(o, k + 1, m1, t, c, at + 1, XN, fm);
  }

  /** Instructions 28-29: the square is multiplied by `x`. */
  lemma MultiplyX(o: Machine, k: nat, m: Machine, t: Table, s: seq<Value>, x: int, n: int, r: int, fm: FloatModel)
    requires Entered(m, t, s, IntV(x), IntV(n))
    requires Steps(o, t, k, fm) == Some(InPow(m, s + [IntV(r * r)], Vars3(x, n, r), 28))
    ensures Steps(o, t, k + 2, fm) == Some(InPow(m, s + [IntV(x * (r * r))], Vars3(x, n, r), 30))
  {
    var c, v := PowCode(), Vars3(x, n, r);
    var m28 := InPow(m, s + [IntV(r * r)], v, 28);
    TurnLoadVar(o, k, m28, t, c, 28, X, fm);
    var m29 := m28.(stack := m28.stack + [m28.variables[X]], ip := 29);
    assert m29.stack == s + [IntV(r * r), IntV(x)];
    TurnIntArith(o, k + 1, m29, t, c, 29, MulOp, s, x, r * r, fm);
  }

  /** Instructions 28-30: the square is multiplied by `x` and returned. */
  lemma ReturnOdd(o: Machine, k: nat, m: Machine, t: Table, s: seq<Value>, x: int, n: int, r: int, fm: FloatModel)
    requires Entered(m, t, s, IntV(x), IntV(n))
    requires m.frames != [] && m.savedIps != []
    requires Steps(o, t, k, fm) == Some(InPow(m, s + [IntV(r * r)], Vars3(x, n, r), 28))
    ensures Steps(o, t, k + 3, fm) == Some(Returned(m, s, IntV(x * (r * r))))
  {
    MultiplyX(o, k, m, t, s, x, n, r, fm);
    ReturnFromPow(o, k + 2, m, t, s, Vars3(x, n, r), 30, IntV(x * (r * r)), fm);
  }

  /** Instructions 0-15: the tests for a zero and for an even exponent. */
  lemma Prologue(o: Machine, k: nat, m: Machine, t: Table, s: seq<Value>, x: int, n: int, fm: FloatModel)
    requires Entered(m, t, s, IntV(x), IntV(n)) && Steps(o, t, k, fm) == Some(m)
    requires n != 0
    ensures Steps(o, t, k + 16, fm) == Some(InPow(m, s, Vars2(x, n), if Half(n) * 2 == n then 33 else 16))
  {
    StoreArguments(o, k, m, t, s, IntV(x), IntV(n), fm);
    TestZero(o, k + 3, m, t, s, x, n, fm);
    ComputeHalf(o, k + 6, m, t, s, x, n, fm);
    DoubleHalf(o, k + 10, m, t, s, x, n, fm);
    TestEven(o, k + 13, m, t, s, x, n, fm);
  }

  /** The number of instructions one call of `pow` executes, recursive calls
      included, up to and including its RET. */
  function Cost(n: int): nat
    requires n >= 1
    decreases n
  {
    if n == 1 then 22
    else if Half(n) * 2 == n then 25 + Cost(Half(n))
    else 31 + Cost(Half(n))
  }

  /** A call of `pow` with a positive exponent returns `pow_rec(x, n)` to its
      caller after `Cost(n)` instructions, leaving the caller's state below the
      result as it was. */
  lemma {:induction false} PowCall(o: Machine, k: nat, m: Machine, t: Table, s: seq<Value>, x: int, n: int, fm: FloatModel)
    requires Entered(m, t, s, IntV(x), IntV(n)) && Steps(o, t, k, fm) == Some(m)
    requires n >= 1
    requires m.frames != [] && m.savedIps != []
    ensures Steps(o, t, k + Cost(n), fm) == Some(Returned(m, s, IntV(PowRec(x, n))))
    decreases n, 1
  {
    Prologue(o, k, m, t, s, x, n, fm);
    if n == 1 {
      TestOne(o, k + 16, m, t, s, x, n, fm);
      ReturnX(o, k + 20, m, t, s, x, n, fm);
    } else {
      var d := Half(n);
      var r := PowRec(x, d);
      if d * 2 == n {
        HalfSquared(o, k + 16, m, t, s, x, n, 33, fm);
        ReturnFromPow(o, k + 24 + Cost(d), m, t, s, Vars3(x, n, r), 41, IntV(r * r), fm);
      } else {
        TestOne(o, k + 16, m, t, s, x, n, fm);
        HalfSquared(o, k + 20, m, t, s, x, n, 20, fm);
        ReturnOdd(o, k + 28 + Cost(d), m, t, s, x, n, r, fm);
      }
    }
  }

  /** Instructions `at` to `at + 7` (20-27 or 33-40) of a call with n >= 2:
      `pow(x, d)` is called and its result, `pow_rec(x, d)`, is squared. */
  lemma {:induction false} HalfSquared(o: Machine, k: nat, m: Machine, t: Table, s: seq<Value>, x: int, n: int, at: int, fm: FloatModel)
    requires Entered(m, t, s, IntV(x), IntV(n))
    requires n >= 2 && (at == 20 || at == 33)
    requires m.frames != [] && m.savedIps != []
    requires Steps(o, t, k, fm) == Some(InPow(m, s, Vars2(x, n), at))
    ensures Steps(o, t, k + 8 + Cost(Half(n)), fm)
         == Some(InPow(m, s + [IntV(PowRec(x, Half(n)) * PowRec(x, Half(n)))], Vars3(x, n, PowRec(x, Half(n))), at + 8))
    decreases n, 0
  {
    HalfBounds(n);
    var d := Half(n);
    var r := PowRec(x, d);
    CallHalf(o, k, m, t, s, x, n, at, fm);
    PowCall(o, k + 4, Callee(m, s, x, n, at + 3), t, s, x, d, fm);
    BackFromCallee(m, s, x, n, r, at + 3);
    Square(o, k + 4 + Cost(d), m, t, s, x, n, r, at + 4, fm);
  }

  /** A call of `pow` with exponent 0 returns the message string after eight
      instructions, where `pow_rec` would never return. */
  lemma PowCallZero(o: Machine, k: nat, m: Machine, t: Table, s: seq<Value>, x: int, fm: FloatModel)
    requires Entered(m, t, s, IntV(x), IntV(0)) && Steps(o, t, k, fm) == Some(m)
    requires m.frames != [] && m.savedIps != []
    ensures Steps(o, t, k + 8, fm) == Some(Returned(m, s, ZeroMessage))
  {
    StoreArguments(o, k, m, t, s, IntV(x), IntV(0), fm);
    TestZero(o, k + 3, m, t, s, x, 0, fm);
    ReturnMessage(o, k + 6, m, t, s, x, 0, fm);
  }

  /** A float exponent is rejected by the first EQ (instruction 4), which
      compares it with the int 0: the call fails with an AssertionError. */
  lemma FloatExponentRejected(m: Machine, t: Table, s: seq<Value>, xv: Value, f: Float, fuel: nat, fm: FloatModel)
    requires Entered(m, t, s, xv, RealV(f))
    requires fuel >= 5
    ensures Loop(m, t, fuel, fm).1 == Failed(AssertionError)
  {
    var v := Vars1(xv, RealV(f));
    StoreArguments(m, 0, m, t, s, xv, RealV(f), fm);
    var m3 := InPow(m, s + [IntV(0)], v, 3);
    TurnLoadVar(m, 3, m3, t, PowCode(), 3, N, fm);
    var m4 := m3.(stack := m3.stack + [m3.variables[N]], ip := 4);
    LoopSteps(m, m4, t, 4, fuel - 4, fm);
    assert m4.stack[..|m4.stack| - 2] == s;
    assert m4.stack[|m4.stack| - 1] == RealV(f);
  }

  // ---------------------------------------------------------------------
  // The entry point: read `x` and `n`, call `pow`, print the result.

  /** Instructions 0-3 of the entry point: `x`, then `n`, are read and stored. */
  lemma ReadArguments(o: Machine, k: nat, m: Machine, t: Table, x: int, n: int, rest: seq<Value>, fm: FloatModel)
    requires CodeOf(t, StrV(EntryPoint)) == Some(EntryCode())
    requires Steps(o, t, k, fm) == Some(m) && AtStart(m)
    requires m.input == [IntV(x), IntV(n)] + rest
    ensures Steps(o, t, k + 4, fm) == Some(m.(input := rest, variables := Vars1(IntV(x), IntV(n)), ip := 4))
  {
    ReadOne(o, k, m, t, X, 0, IntV(x), [IntV(n)] + rest, fm);
    var m2 := m.(input := [IntV(n)] + rest, variables := map[X := IntV(x)], ip := 2);
    assert m.variables[X := IntV(x)] == map[X := IntV(x)];
    ReadOne(o, k + 2, m2, t, N, 2, IntV(n), rest, fm);
    assert m2.variables[N := IntV(n)] == Vars1(IntV(x), IntV(n));
  }

  /** Instructions `at` and `at + 1` of the entry point: a number is read and
      stored under `name`. */
  lemma ReadOne(o: Machine, k: nat, m: Machine, t: Table, name: Value, at: int, v: Value, rest: seq<Value>, fm: FloatModel)
    requires CodeOf(t, StrV(EntryPoint)) == Some(EntryCode())
    requires (at == 0 && name == X) || (at == 2 && name == N)
    requires Steps(o, t, k, fm) == Some(m) && m.currentFrame == StrV(EntryPoint) && m.ip == at && m.stack == []
    requires m.input == [v] + rest && v.IsNumber()
    ensures Steps(o, t, k + 2, fm) == Some(m.(input := rest, variables := m.variables[name := v], ip := at + 2))
  {
    var c := EntryCode();
    assert c.instructions[at] == Instr(InputNumber, []) && c.instructions[at + 1] == Instr(StoreVar, [name]);
    TurnInputNumber(o, k, m, t, c, at, fm);
    var m1 := m.(stack := [v], input := rest, ip := at + 1);
    assert m.(stack := m.stack + [m.input[0]], input := m.input[1..], ip := at + 1) == m1 by {
      assert m.input[1..] == rest;
    }
    assert m1.stack == [] + [v];
    TurnStoreVar(o, k + 1, m1, t, c, at + 1, name, [], v, fm);
  }

  /** The state the entry point enters `pow` in from its CALL at instruction 7. */
  function EnterPow(m: Machine, x: int, n: int): Machine
  {
    m.(stack := [IntV(n), IntV(x)],
       savedIps := m.savedIps + [SavedIp(StrV(EntryPoint), 7)],
       currentFrame := PowName,
       frames := m.frames + [Vars1(IntV(x), IntV(n))],
       variables := map[],
       ip := 0)
  }

  /** Instructions 4-7 of the entry point: `pow(x, n)` is called. */
  lemma CallPow(o: Machine, k: nat, m: Machine, t: Table, x: int, n: int, fm: FloatModel)
    requires CodeOf(t, StrV(EntryPoint)) == Some(EntryCode())
    requires Steps(o, t, k, fm) == Some(m)
    requires m.currentFrame == StrV(EntryPoint) && m.ip == 4 && m.stack == [] && m.variables == Vars1(IntV(x), IntV(n))
    ensures Steps(o, t, k + 4, fm) == Some(EnterPow(m, x, n))
  {
    var c := EntryCode();
    TurnLoadVar(o, k, m, t, c, 4, N, fm);
    var m5 := m.(stack := [IntV(n)], ip := 5);
    assert m.(stack := m.stack + [m.variables[N]], ip := 4 + 1) == m5;
    TurnLoadVar(o, k + 1, m5, t, c, 5, X, fm);
    var m6 := m.(stack := [IntV(n), IntV(x)], ip := 6);
    assert m5.(stack := m5.stack + [m5.variables[X]], ip := 5 + 1) == m6;
    TurnLoadConst(o, k + 2, m6, t, c, 6, PowName, fm);
    var m7 := m.(stack := [IntV(n), IntV(x), PowName], ip := 7);
    assert m6.(stack := m6.stack + [PowName], ip := 6 + 1) == m7;
    assert m7.stack == [IntV(n), IntV(x)] + [PowName];
    TurnCall(o, k + 3, m7, t, c, 7, [IntV(n), IntV(x)], PowName, fm);
  }

  /** Instructions 8-10 of the entry point: the result `r` is stored in `xn`,
      loaded again and printed. */
  lemma PrintResult(o: Machine, k: nat, m: Machine, t: Table, x: int, n: int, r: Value, fm: FloatModel)
    requires CodeOf(t, StrV(EntryPoint)) == Some(EntryCode())
    requires Steps(o, t, k, fm) == Some(m)
    requires m.currentFrame == StrV(EntryPoint) && m.ip == 8 && m.stack == [r] && m.variables == Vars1(IntV(x), IntV(n))
    ensures Steps(o, t, k + 3, fm)
         == Some(m.(stack := [], variables := Vars1(IntV(x), IntV(n))[XN := r], output := m.output + [r], ip := 11))
  {
    var c := EntryCode();
    assert m.stack == [] + [r];
    TurnStoreVar(o, k, m, t, c, 8, XN, [], r, fm);
    var m9 := m.(stack := [], variables := Vars1(IntV(x), IntV(n))[XN := r], ip := 9);
    assert m.(stack := [], variables := m.variables[XN := r], ip := 8 + 1) == m9;
    TurnLoadVar(o, k + 1, m9, t, c, 9, XN, fm);
    var m10 := m9.(stack := [r], ip := 10);
    assert m9.(stack := m9.stack + [m9.variables[XN]], ip := 9 + 1) == m10;
    assert m10.stack == [] + [r];
    TurnPrint(o, k + 2, m10, t, c, 10, [], r, fm);
  }

  /** Back in the entry point after `pow` returned `r`. */
  lemma BackInEntry(m: Machine, x: int, n: int, r: Value)
    ensures Returned(EnterPow(m, x, n), [], r)
         == m.(stack := [r], variables := Vars1(IntV(x), IntV(n)), currentFrame := StrV(EntryPoint), ip := 8)
  {
    var callee := EnterPow(m, x, n);
    assert callee.frames[..|callee.frames| - 1] == m.frames;
    assert callee.savedIps[..|callee.savedIps| - 1] == m.savedIps;
  }

  /** The table `run_code` works with when it is given our_program.py's code. */
  function OurTable(): Table
  {
    Table(OurProgram, StrV(EntryPoint))
  }

  lemma OurTableCode()
    ensures CodeOf(OurTable(), StrV(EntryPoint)) == Some(EntryCode())
    ensures CodeOf(OurTable(), PowName) == Some(PowCode())
  {
  }

  /** The whole of our_program.py's run for a positive exponent: it reads `x`
      and `n`, calls `pow` and prints `pow_rec(x, n)`. */
  lemma {:induction false} OurProgramTurns(m: Machine, x: int, n: int, rest: seq<Value>, fm: FloatModel)
    requires AtStart(m) && m.input == [IntV(x), IntV(n)] + rest
    requires n >= 1
    ensures Steps(m, OurTable(), 11 + Cost(n), fm)
         == Some(m.(variables := Vars1(IntV(x), IntV(n))[XN := IntV(PowRec(x, n))],
                    input := rest, output := m.output + [IntV(PowRec(x, n))], ip := 11))
  {
    var t := OurTable();
    OurTableCode();
    ReadArguments(m, 0, m, t, x, n, rest, fm);
    var m4 := m.(input := rest, variables := Vars1(IntV(x), IntV(n)), ip := 4);
    CallPow(m, 4, m4, t, x, n, fm);
    assert EnterPow(m4, x, n).stack == [] + [IntV(n), IntV(x)];
    PowCall(m, 8, EnterPow(m4, x, n), t, [], x, n, fm);
    var r := IntV(PowRec(x, n));
    BackInEntry(m4, x, n, r);
    PrintResult(m, 8 + Cost(n), m4.(stack := [r], ip := 8), t, x, n, r, fm);
  }

  /** our_program.py prints x to the power n for every positive `n`, and
      leaves `x`, `n` and the result in the entry point's variables. */
  lemma OurProgramPrintsPower(m: Machine, x: int, n: int, rest: seq<Value>, fm: FloatModel)
    requires AtStart(m) && m.input == [IntV(x), IntV(n)] + rest
    requires n >= 1
    ensures Run(m, OurProgram, 11 + Cost(n), fm).1
         == Finished([], map[X := IntV(x), N := IntV(n), XN := IntV(Pow(x, n))])
    ensures Run(m, OurProgram, 11 + Cost(n), fm).0.output == m.output + [IntV(Pow(x, n))]
    ensures Run(m, OurProgram, 11 + Cost(n), fm).0.input == rest
  {
    OurProgramTurns(m, x, n, rest, fm);
    PowRecIsPow(x, n);
    OurTableCode();
    RunSteps(m, m.(variables := Vars1(IntV(x), IntV(n))[XN := IntV(PowRec(x, n))],
                   input := rest, output := m.output + [IntV(PowRec(x, n))], ip := 11), OurProgram, 11 + Cost(n), fm);
  }

  /** The whole of our_program.py's run for exponent 0. */
  lemma OurProgramZeroTurns(m: Machine, x: int, rest: seq<Value>, fm: FloatModel)
    requires AtStart(m) && m.input == [IntV(x), IntV(0)] + rest
    ensures Steps(m, OurTable(), 19, fm)
         == Some(m.(variables := Vars1(IntV(x), IntV(0))[XN := ZeroMessage],
                    input := rest, output := m.output + [ZeroMessage], ip := 11))
  {
    var t := OurTable();
    OurTableCode();
    ReadArguments(m, 0, m, t, x, 0, rest, fm);
    var m4 := m.(input := rest, variables := Vars1(IntV(x), IntV(0)), ip := 4);
    CallPow(m, 4, m4, t, x, 0, fm);
    assert EnterPow(m4, x, 0).stack == [] + [IntV(0), IntV(x)];
    PowCallZero(m, 8, EnterPow(m4, x, 0), t, [], x, fm);
    BackInEntry(m4, x, 0, ZeroMessage);
    PrintResult(m, 16, m4.(stack := [ZeroMessage], ip := 8), t, x, 0, ZeroMessage, fm);
  }

  /** With exponent 0, our_program.py prints the message string. */
  lemma OurProgramZero(m: Machine, x: int, rest: seq<Value>, fm: FloatModel)
    requires AtStart(m) && m.input == [IntV(x), IntV(0)] + rest
    ensures Run(m, OurProgram, 19, fm).1 == Finished([], map[X := IntV(x), N := IntV(0), XN := ZeroMessage])
    ensures Run(m, OurProgram, 19, fm).0.output == m.output + [ZeroMessage]
  {
    OurProgramZeroTurns(m, x, rest, fm);
    OurTableCode();
    RunSteps(m, m.(variables := Vars1(IntV(x), IntV(0))[XN := ZeroMessage],
                   input := rest, output := m.output + [ZeroMessage], ip := 11), OurProgram, 19, fm);
  }
}
