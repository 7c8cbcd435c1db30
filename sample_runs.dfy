/** The three programs of task0/tests/test_part1.py, run by `run_code` on a
    VM at the start of its entry function (a fresh VM, for one): the results
    the tests expect follow from the model. */
module SampleRuns {
  import opened Values
  import opened Interpreter
  import opened InterpreterFacts

  function Entry(c: Code): Program
  {
    Named(map[EntryPoint := c])
  }

  /** `LOAD_CONST 3; LOAD_CONST 4; ADD` */
  function Test1Instr(i: int): Instr
    requires 0 <= i < 3
  {
    match i
    case 0 => Instr(LoadConst, [IntV(3)])
    case 1 => Instr(LoadConst, [IntV(4)])
    case 2 => Instr(AddOp, [])
  }

  function Test1(): Code
  {
    Code(seq(3, i requires 0 <= i < 3 => Test1Instr(i)), map[])
  }

  /** `3 * (7 // (4 + 3))`, written with the top of the stack as left operand. */
  function Test2Instr(i: int): Instr
    requires 0 <= i < 7
  {
    match i
    case 0 => Instr(LoadConst, [IntV(3)])
    case 1 => Instr(LoadConst, [IntV(4)])
    case 2 => Instr(AddOp, [])
    case 3 => Instr(LoadConst, [IntV(7)])
    case 4 => Instr(DivOp, [])
    case 5 => Instr(LoadConst, [IntV(3)])
    case 6 => Instr(MulOp, [])
  }

  function Test2(): Code
  {
    Code(seq(7, i requires 0 <= i < 7 => Test2Instr(i)), map[])
  }

  const A3: Value := RealV(FLit("7.0"))
  const B3: Value := RealV(FLit("2.0"))

  /** `result = -sqrt(exp(a - b))` with a = 7.0 and b = 2.0 */
  function Test3Instr(i: int): Instr
    requires 0 <= i < 11
  {
    match i
    case 0 => Instr(LoadConst, [A3])
    case 1 => Instr(StoreVar, [StrV("a")])
    case 2 => Instr(LoadConst, [B3])
    case 3 => Instr(StoreVar, [StrV("b")])
    case 4 => Instr(LoadVar, [StrV("b")])
    case 5 => Instr(LoadVar, [StrV("a")])
    case 6 => Instr(SubOp, [])
    case 7 => Instr(ExpOp, [])
    case 8 => Instr(SqrtOp, [])
    case 9 => Instr(NegOp, [])
    case 10 => Instr(StoreVar, [StrV("result")])
  }

  function Test3(): Code
  {
    Code(seq(11, i requires 0 <= i < 11 => Test3Instr(i)), map[])
  }

  /** The entry function's table for `c`. */
  function T(c: Code): Table
  {
    Table(Entry(c), StrV(EntryPoint))
  }

  /** test1's three turns, from any state at its start with an empty stack. */
  lemma Test1Turns(o: Machine, k: nat, m: Machine, fm: FloatModel)
    requires Steps(o, T(Test1()), k, fm) == Some(m)
    requires AtStart(m)
    ensures Steps(o, T(Test1()), k + 3, fm) == Some(m.(stack := [IntV(7)], ip := 3))
  {
    var t, c := T(Test1()), Test1();
    TurnLoadConst(o, k, m, t, c, 0, IntV(3), fm);
    var m1 := m.(stack := [IntV(3)], ip := 1);
    assert m.(stack := m.stack + [IntV(3)], ip := 0 + 1) == m1;
    TurnLoadConst(o, k + 1, m1, t, c, 1, IntV(4), fm);
    var m2 := m.(stack := [IntV(3), IntV(4)], ip := 2);
    assert m1.(stack := m1.stack + [IntV(4)], ip := 1 + 1) == m2;
    assert m2.stack == [] + [IntV(3), IntV(4)];
    TurnIntArith(o, k + 2, m2, t, c, 2, AddOp, [], 4, 3, fm);
    assert m2.(stack := [] + [Arith(ArithOf(AddOp), IntV(4), IntV(3), fm).value], ip := 2 + 1) == m.(stack := [IntV(7)], ip := 3);
  }

  /** test1: the stack ends as `[7]`. */
  lemma RunTest1(m: Machine, fm: FloatModel)
    requires AtStart(m)
    ensures Run(m, Entry(Test1()), 3, fm).1 == Finished([IntV(7)], map[])
  {
    Test1Turns(m, 0, m, fm);
    RunSteps(m, m.(stack := [IntV(7)], ip := 3), Entry(Test1()), 3, fm);
  }

  /** The first two turns of test2: 3, then 4, are pushed. */
  lemma Test2Push(o: Machine, k: nat, m: Machine, fm: FloatModel)
    requires Steps(o, T(Test2()), k, fm) == Some(m)
    requires AtStart(m)
    ensures Steps(o, T(Test2()), k + 2, fm) == Some(m.(stack := [IntV(3), IntV(4)], ip := 2))
  {
    var t, c := T(Test2()), Test2();
    TurnLoadConst(o, k, m, t, c, 0, IntV(3), fm);
    var m1 := m.(stack := [IntV(3)], ip := 1);
    assert m.(stack := m.stack + [IntV(3)], ip := 0 + 1) == m1;
    TurnLoadConst(o, k + 1, m1, t, c, 1, IntV(4), fm);
    assert m1.(stack := m1.stack + [IntV(4)], ip := 1 + 1) == m.(stack := [IntV(3), IntV(4)], ip := 2);
  }

  /** Turns three and four of test2: `4 + 3` is on the stack, then 7. */
  lemma Test2Add(o: Machine, k: nat, m: Machine, fm: FloatModel)
    requires Steps(o, T(Test2()), k, fm) == Some(m)
    requires m.currentFrame == StrV(EntryPoint) && m.ip == 2 && m.stack == [IntV(3), IntV(4)]
    ensures Steps(o, T(Test2()), k + 2, fm) == Some(m.(stack := [IntV(7), IntV(7)], ip := 4))
  {
    var t, c := T(Test2()), Test2();
    assert m.stack == [] + [IntV(3), IntV(4)];
    TurnIntArith(o, k, m, t, c, 2, AddOp, [], 4, 3, fm);
    var m3 := m.(stack := [IntV(7)], ip := 3);
    assert m.(stack := [] + [Arith(ArithOf(AddOp), IntV(4), IntV(3), fm).value], ip := 2 + 1) == m3;
    TurnLoadConst(o, k + 1, m3, t, c, 3, IntV(7), fm);
    assert m3.(stack := m3.stack + [IntV(7)], ip := 3 + 1) == m.(stack := [IntV(7), IntV(7)], ip := 4);
  }

  /** The last three turns of test2: `7 // 7`, then `3 * 1`. */
  lemma Test2Tail(o: Machine, k: nat, m: Machine, fm: FloatModel)
    requires Steps(o, T(Test2()), k, fm) == Some(m)
    requires m.currentFrame == StrV(EntryPoint) && m.ip == 4 && m.stack == [IntV(7), IntV(7)]
    ensures Steps(o, T(Test2()), k + 3, fm) == Some(m.(stack := [IntV(3)], ip := 7))
  {
    var t, c := T(Test2()), Test2();
    assert m.stack == [] + [IntV(7), IntV(7)];
    TurnIntArith(o, k, m, t, c, 4, DivOp, [], 7, 7, fm);
    var m5 := m.(stack := [IntV(1)], ip := 5);
    assert FloorDiv(7, 7) == 1;
    assert m.(stack := [] + [Arith(ArithOf(DivOp), IntV(7), IntV(7), fm).value], ip := 4 + 1) == m5;
    TurnLoadConst(o, k + 1, m5, t, c, 5, IntV(3), fm);
    var m6 := m.(stack := [IntV(1), IntV(3)], ip := 6);
    assert m5.(stack := m5.stack + [IntV(3)], ip := 5 + 1) == m6;
    assert m6.stack == [] + [IntV(1), IntV(3)];
    TurnIntArith(o, k + 2, m6, t, c, 6, MulOp, [], 3, 1, fm);
    assert m6.(stack := [] + [Arith(ArithOf(MulOp), IntV(3), IntV(1), fm).value], ip := 6 + 1) == m.(stack := [IntV(3)], ip := 7);
  }

  /** test2: the stack ends as `[3]`, since 7 // 7 == 1. */
  lemma RunTest2(m: Machine, fm: FloatModel)
    requires AtStart(m)
    ensures Run(m, Entry(Test2()), 7, fm).1 == Finished([IntV(3)], map[])
  {
    Test2Push(m, 0, m, fm);
    Test2Add(m, 2, m.(stack := [IntV(3), IntV(4)], ip := 2), fm);
    Test2Tail(m, 4, m.(stack := [IntV(7), IntV(7)], ip := 4), fm);
    RunSteps(m, m.(stack := [IntV(3)], ip := 7), Entry(Test2()), 7, fm);
  }

  /** The float test3 computes, as a term. */
  const Result3: Float := FUn(Neg, FUn(Sqrt, FUn(Exp, FBin(Sub, FLit("7.0"), FLit("2.0")))))

  const D3: Float := FBin(Sub, FLit("7.0"), FLit("2.0"))
  const Vars3: map<Value, Value> := map[StrV("a") := A3, StrV("b") := B3]

  /** test3 binds `a`. */
  lemma Test3BindA(o: Machine, k: nat, m: Machine, fm: FloatModel)
    requires Steps(o, T(Test3()), k, fm) == Some(m)
    requires AtStart(m)
    ensures Steps(o, T(Test3()), k + 2, fm) == Some(m.(variables := map[StrV("a") := A3], ip := 2))
  {
    var t, c := T(Test3()), Test3();
    TurnLoadConst(o, k, m, t, c, 0, A3, fm);
    var m1 := m.(stack := [A3], ip := 1);
    assert m.(stack := m.stack + [A3], ip := 0 + 1) == m1;
    assert m1.stack == [] + [A3];
    TurnStoreVar(o, k + 1, m1, t, c, 1, StrV("a"), [], A3, fm);
    assert m1.(stack := [], variables := m1.variables[StrV("a") := A3], ip := 1 + 1) == m.(variables := map[StrV("a") := A3], ip := 2);
  }

  /** test3 binds `b`. */
  lemma Test3BindB(o: Machine, k: nat, m: Machine, fm: FloatModel)
    requires Steps(o, T(Test3()), k, fm) == Some(m)
    requires m.currentFrame == StrV(EntryPoint) && m.ip == 2 && m.stack == [] && m.variables == map[StrV("a") := A3]
    ensures Steps(o, T(Test3()), k + 2, fm) == Some(m.(variables := Vars3, ip := 4))
  {
    var t, c := T(Test3()), Test3();
    TurnLoadConst(o, k, m, t, c, 2, B3, fm);
    var m3 := m.(stack := [B3], ip := 3);
    assert m.(stack := m.stack + [B3], ip := 2 + 1) == m3;
    assert m3.stack == [] + [B3];
    TurnStoreVar(o, k + 1, m3, t, c, 3, StrV("b"), [], B3, fm);
    assert m3.(stack := [], variables := m3.variables[StrV("b") := B3], ip := 3 + 1) == m.(variables := Vars3, ip := 4);
  }

  /** test3 computes `a - b`. */
  lemma Test3Sub(o: Machine, k: nat, m: Machine, fm: FloatModel)
    requires Steps(o, T(Test3()), k, fm) == Some(m)
    requires m.currentFrame == StrV(EntryPoint) && m.ip == 4 && m.stack == [] && m.variables == Vars3
    ensures Steps(o, T(Test3()), k + 3, fm) == Some(m.(stack := [RealV(D3)], ip := 7))
  {
    var t, c := T(Test3()), Test3();
    Test3Loads(o, k, m, fm);
    var m6 := m.(stack := [B3, A3], ip := 6);
    assert m6.stack == [] + [RealV(FLit("2.0")), RealV(FLit("7.0"))];
    TurnFloatArith(o, k + 2, m6, t, c, 6, SubOp, [], FLit("7.0"), FLit("2.0"), fm);
    assert m6.(stack := [] + [RealV(FBin(ArithOf(SubOp), FLit("7.0"), FLit("2.0")))], ip := 6 + 1) == m.(stack := [RealV(D3)], ip := 7);
  }

  /** test3 pushes `b`, then `a`. */
  lemma Test3Loads(o: Machine, k: nat, m: Machine, fm: FloatModel)
    requires Steps(o, T(Test3()), k, fm) == Some(m)
    requires m.currentFrame == StrV(EntryPoint) && m.ip == 4 && m.stack == [] && m.variables == Vars3
    ensures Steps(o, T(Test3()), k + 2, fm) == Some(m.(stack := [B3, A3], ip := 6))
  {
    var t, c := T(Test3()), Test3();
    TurnLoadVar(o, k, m, t, c, 4, StrV("b"), fm);
    var m5 := m.(stack := [B3], ip := 5);
    assert m.(stack := m.stack + [m.variables[StrV("b")]], ip := 4 + 1) == m5;
    TurnLoadVar(o, k + 1, m5, t, c, 5, StrV("a"), fm);
    assert m5.(stack := m5.stack + [m5.variables[StrV("a")]], ip := 5 + 1) == m.(stack := [B3, A3], ip := 6);
  }

  /** test3 takes the exponential of `a - b` and its square root. */
  lemma Test3Root(o: Machine, k: nat, m: Machine, fm: FloatModel)
    requires !fm.raises(FUn(Exp, D3))
    requires !fm.raises(FUn(Sqrt, FUn(Exp, D3)))
    requires Steps(o, T(Test3()), k, fm) == Some(m)
    requires m.currentFrame == StrV(EntryPoint) && m.ip == 7 && m.stack == [RealV(D3)]
    ensures Steps(o, T(Test3()), k + 2, fm) == Some(m.(stack := [RealV(FUn(Sqrt, FUn(Exp, D3)))], ip := 9))
  {
    var t, c := T(Test3()), Test3();
    assert m.stack == [] + [RealV(D3)];
    TurnUnary(o, k, m, t, c, 7, ExpOp, [], RealV(D3), fm);
    var m8 := m.(stack := [RealV(FUn(Exp, D3))], ip := 8);
    assert m.(stack := [] + [Unary(ExpOp, RealV(D3), fm).value], ip := 7 + 1) == m8;
    assert m8.stack == [] + [RealV(FUn(Exp, D3))];
    TurnUnary(o, k + 1, m8, t, c, 8, SqrtOp, [], RealV(FUn(Exp, D3)), fm);
    assert m8.(stack := [] + [Unary(SqrtOp, RealV(FUn(Exp, D3)), fm).value], ip := 8 + 1)
        == m.(stack := [RealV(FUn(Sqrt, FUn(Exp, D3)))], ip := 9);
  }

  /** test3 negates the root and stores it in `result`. */
  lemma Test3Store(o: Machine, k: nat, m: Machine, fm: FloatModel)
    requires Steps(o, T(Test3()), k, fm) == Some(m)
    requires m.currentFrame == StrV(EntryPoint) && m.ip == 9 && m.stack == [RealV(FUn(Sqrt, FUn(Exp, D3)))]
    ensures Steps(o, T(Test3()), k + 2, fm) == Some(m.(stack := [], variables := m.variables[StrV("result") := RealV(Result3)], ip := 11))
  {
    var m10 := m.(stack := [RealV(Result3)], ip := 10);
    Test3Negate(o, k, m, fm);
    assert m10.stack == [] + [RealV(Result3)];
    TurnStoreVar(o, k + 1, m10, T(Test3()), Test3(), 10, StrV("result"), [], RealV(Result3), fm);
  }

  /** test3 negates the root. */
  lemma Test3Negate(o: Machine, k: nat, m: Machine, fm: FloatModel)
    requires Steps(o, T(Test3()), k, fm) == Some(m)
    requires m.currentFrame == StrV(EntryPoint) && m.ip == 9 && m.stack == [RealV(FUn(Sqrt, FUn(Exp, D3)))]
    ensures Steps(o, T(Test3()), k + 1, fm) == Some(m.(stack := [RealV(Result3)], ip := 10))
  {
    assert m.stack == [] + [RealV(FUn(Sqrt, FUn(Exp, D3)))];
    TurnUnary(o, k, m, T(Test3()), Test3(), 9, NegOp, [], RealV(FUn(Sqrt, FUn(Exp, D3))), fm);
    assert m.(stack := [] + [Unary(NegOp, RealV(FUn(Sqrt, FUn(Exp, D3))), fm).value], ip := 9 + 1) == m.(stack := [RealV(Result3)], ip := 10);
  }

  /** The first seven turns of test3 leave `a - b` on the stack. */
  lemma Test3Prefix(o: Machine, k: nat, m: Machine, fm: FloatModel)
    requires Steps(o, T(Test3()), k, fm) == Some(m)
    requires AtStart(m)
    ensures Steps(o, T(Test3()), k + 7, fm) == Some(m.(stack := [RealV(D3)], variables := Vars3, ip := 7))
  {
    var m2 := m.(variables := map[StrV("a") := A3], ip := 2);
    Test3BindA(o, k, m, fm);
    Test3BindB(o, k + 2, m2, fm);
    Test3Sub(o, k + 4, m2.(variables := Vars3, ip := 4), fm);
  }

  /** test3's eleven turns. */
  lemma Test3Turns(o: Machine, k: nat, m: Machine, fm: FloatModel)
    requires !fm.raises(FUn(Exp, D3))
    requires !fm.raises(FUn(Sqrt, FUn(Exp, D3)))
    requires Steps(o, T(Test3()), k, fm) == Some(m)
    requires AtStart(m)
    ensures Steps(o, T(Test3()), k + 11, fm) == Some(m.(variables := Vars3[StrV("result") := RealV(Result3)], ip := 11))
  {
    var m7 := m.(stack := [RealV(D3)], variables := Vars3, ip := 7);
    var m9 := m7.(stack := [RealV(FUn(Sqrt, FUn(Exp, D3)))], ip := 9);
    Test3Prefix(o, k, m, fm);
    Test3Root(o, k + 7, m7, fm);
    Test3Store(o, k + 9, m9, fm);
  }

  /** test3: when neither `exp` nor `sqrt` raises, `result` is bound to
      `-sqrt(exp(7.0 - 2.0))` and the stack ends empty. */
  lemma RunTest3(m: Machine, fm: FloatModel)
    requires !fm.raises(FUn(Exp, D3))
    requires !fm.raises(FUn(Sqrt, FUn(Exp, D3)))
    requires AtStart(m)
    ensures Run(m, Entry(Test3()), 11, fm).1
         == Finished([], map[StrV("a") := A3, StrV("b") := B3, StrV("result") := RealV(Result3)])
  {
    Test3Turns(m, 0, m, fm);
    RunSteps(m, m.(variables := Vars3[StrV("result") := RealV(Result3)], ip := 11), Entry(Test3()), 11, fm);
  }
}
