/** The programs of task0/xvm/our_program.py and task0/tests/test_part1.py as
    the texts they are written as, read back by `parse_string`. Each text is
    given as its lines, split into paragraphs where the source leaves a blank
    line; the variable and function names are parameters, so that what is
    proved of a listing holds for any names that stay strings. */
module ProgramTexts {
  import opened Values
  import opened PyText
  import opened Convert
  import opened Parser
  import opened Listing
  import PowProgram
  import SampleRuns

  /** A name that can stand quoted in a program line and is not read as a number. */
  predicate QuotableName(w: string)
  {
    w != [] && '"' !in w && '\n' !in w && ConvertToNumber(w) == StrV(w)
  }

  /** A quoted name after an opcode other than LABEL is that name. */
  lemma QuotedName(op: OpCode, w: string)
    requires op != Label && QuotableName(w)
    ensures WellFormed(Quoted(op, w)) && Meaning(Quoted(op, w)) == InstrLine(Instr(op, [StrV(w)]))
  {
  }

  /** The one- and two-letter names the programs use stay strings. */
  lemma ShortName(w: string)
    requires w == "x" || w == "n" || w == "d" || w == "a" || w == "b" || w == "xn"
    ensures QuotableName(w)
  {
    WordStaysString(w);
  }

  lemma PowName()
    ensures QuotableName("pow")
  {
    WordStaysString("pow");
  }

  lemma ResultName()
    ensures QuotableName("result")
  {
    WordStaysString("result");
  }

  // ---------------------------------------------------------------------
  // ENTRY: read two numbers, call pow, print the result.

  /** The lines of ENTRY, as our_program.py writes them. */
  function EntryLines(): seq<string>
  {
    ["INPUT_NUMBER", "STORE_VAR \"x\"", "INPUT_NUMBER", "STORE_VAR \"n\""] + [""] +
    ["LOAD_VAR \"n\"", "LOAD_VAR \"x\"", "LOAD_CONST \"pow\"", "CALL"] + [""] +
    ["STORE_VAR \"xn\"", "LOAD_VAR \"xn\"", "PRINT"]
  }

  function EntryInput(x: string, n: string): seq<SourceLine>
  {
    [Bare(InputNumber, 0), Quoted(StoreVar, x), Bare(InputNumber, 0), Quoted(StoreVar, n)]
  }

  function EntryCall(x: string, n: string, pow: string): seq<SourceLine>
  {
    [Quoted(LoadVar, n), Quoted(LoadVar, x), Quoted(LoadConst, pow), Bare(Call, 0)]
  }

  function EntryOutput(xn: string): seq<SourceLine>
  {
    [Quoted(StoreVar, xn), Quoted(LoadVar, xn), Bare(Print, 0)]
  }

  function EntryListing(x: string, n: string, xn: string, pow: string): seq<SourceLine>
  {
    EntryInput(x, n) + [Blank] + EntryCall(x, n, pow) + [Blank] + EntryOutput(xn)
  }

  /** ENTRY parses to the code the run of our_program.py starts in. */
  lemma EntryParses()
    ensures ParseText(Unlines(EntryLines())) == Ok(PowProgram.EntryCode())
  {
    ShortName("x");
    ShortName("n");
    ShortName("xn");
    PowName();
    EntryInputReads("x", "n");
    EntryCallReads("x", "n", "pow");
    EntryOutputReads("xn");
    InstructionParagraphs(EntryInput("x", "n"), EntryCall("x", "n", "pow"), EntryOutput("xn"),
      EntryInputCode("x", "n"), EntryCallCode("x", "n", "pow"), EntryOutputCode("xn"));
    EntryWritten();
    EntryInstructions();
  }

  function EntryInputCode(x: string, n: string): seq<Instr>
  {
    [Instr(InputNumber, []), Instr(StoreVar, [StrV(x)]), Instr(InputNumber, []), Instr(StoreVar, [StrV(n)])]
  }

  function EntryCallCode(x: string, n: string, pow: string): seq<Instr>
  {
    [Instr(LoadVar, [StrV(n)]), Instr(LoadVar, [StrV(x)]), Instr(LoadConst, [StrV(pow)]), Instr(Call, [])]
  }

  function EntryOutputCode(xn: string): seq<Instr>
  {
    [Instr(StoreVar, [StrV(xn)]), Instr(LoadVar, [StrV(xn)]), Instr(Print, [])]
  }

  lemma EntryInputReads(x: string, n: string)
    requires QuotableName(x) && QuotableName(n)
    ensures WellFormedListing(EntryInput(x, n)) && Meanings(EntryInput(x, n)) == InstrLines(EntryInputCode(x, n))
  {
    QuotedName(StoreVar, x);
    QuotedName(StoreVar, n);
    FourInstructions(Bare(InputNumber, 0), Quoted(StoreVar, x), Bare(InputNumber, 0), Quoted(StoreVar, n),
      Instr(InputNumber, []), Instr(StoreVar, [StrV(x)]), Instr(InputNumber, []), Instr(StoreVar, [StrV(n)]));
  }

  lemma EntryCallReads(x: string, n: string, pow: string)
    requires QuotableName(x) && QuotableName(n) && QuotableName(pow)
    ensures WellFormedListing(EntryCall(x, n, pow)) && Meanings(EntryCall(x, n, pow)) == InstrLines(EntryCallCode(x, n, pow))
  {
    QuotedName(LoadVar, n);
    QuotedName(LoadVar, x);
    QuotedName(LoadConst, pow);
    FourInstructions(Quoted(LoadVar, n), Quoted(LoadVar, x), Quoted(LoadConst, pow), Bare(Call, 0),
      Instr(LoadVar, [StrV(n)]), Instr(LoadVar, [StrV(x)]), Instr(LoadConst, [StrV(pow)]), Instr(Call, []));
  }

  lemma EntryOutputReads(xn: string)
    requires QuotableName(xn)
    ensures WellFormedListing(EntryOutput(xn)) && Meanings(EntryOutput(xn)) == InstrLines(EntryOutputCode(xn))
  {
    QuotedName(StoreVar, xn);
    QuotedName(LoadVar, xn);
    ThreeInstructions(Quoted(StoreVar, xn), Quoted(LoadVar, xn), Bare(Print, 0),
      Instr(StoreVar, [StrV(xn)]), Instr(LoadVar, [StrV(xn)]), Instr(Print, []));
  }

  /** The listing with the names of our_program.py is the text of ENTRY. */
  lemma EntryWritten()
    ensures Written(EntryListing("x", "n", "xn", "pow")) == Unlines(EntryLines())
  {
    EntryInputText();
    EntryCallText();
    EntryOutputText();
    ParagraphTexts(EntryInput("x", "n"), EntryCall("x", "n", "pow"), EntryOutput("xn"));
  }

  lemma EntryInstructions()
    ensures PowProgram.EntryCode() ==
      Code(EntryInputCode("x", "n") + EntryCallCode("x", "n", "pow") + EntryOutputCode("xn"), map[])
  {
  }

  lemma EntryInputText()
    ensures Texts(EntryInput("x", "n")) == ["INPUT_NUMBER", "STORE_VAR \"x\"", "INPUT_NUMBER", "STORE_VAR \"n\""]
  {
    var ts := Texts(EntryInput("x", "n"));
    assert Blanks(0) == [];
    assert ts[0] == "INPUT_NUMBER" && ts[2] == "INPUT_NUMBER";
    assert ts[1] == "STORE_VAR \"x\"" && ts[3] == "STORE_VAR \"n\"";
  }

  lemma EntryCallText()
    ensures Texts(EntryCall("x", "n", "pow")) == ["LOAD_VAR \"n\"", "LOAD_VAR \"x\"", "LOAD_CONST \"pow\"", "CALL"]
  {
    var ts := Texts(EntryCall("x", "n", "pow"));
    assert Blanks(0) == [];
    assert ts[0] == "LOAD_VAR \"n\"" && ts[1] == "LOAD_VAR \"x\"";
    assert ts[2] == "LOAD_CONST \"pow\"" && ts[3] == "CALL";
  }

  lemma EntryOutputText()
    ensures Texts(EntryOutput("xn")) == ["STORE_VAR \"xn\"", "LOAD_VAR \"xn\"", "PRINT"]
  {
    var ts := Texts(EntryOutput("xn"));
    assert Blanks(0) == [];
    assert ts[0] == "STORE_VAR \"xn\"" && ts[1] == "LOAD_VAR \"xn\"" && ts[2] == "PRINT";
  }

  // ---------------------------------------------------------------------
  // The programs of task0/tests/test_part1.py.

  /** A token that can stand after LOAD_CONST and that `convert_to_number` makes `v` of. */
  predicate NumberWord(w: string, v: Value)
  {
    w != [] && ' ' !in w && '"' !in w && '\n' !in w && ConvertToNumber(w) == v
  }

  /** A number after LOAD_CONST is the value `convert_to_number` makes of it. */
  lemma ConstLine(w: string, v: Value)
    requires NumberWord(w, v)
    ensures WellFormed(Plain(LoadConst, w)) && Meaning(Plain(LoadConst, w)) == InstrLine(Instr(LoadConst, [v]))
  {
  }

  /** A one-digit token is such a word. */
  lemma DigitWord(c: char)
    requires IsDigit(c)
    ensures NumberWord([c], IntV(c as int - '0' as int))
  {
    DigitNumber(c);
  }

  /** So is a digit, a point and a digit. */
  lemma PointWord(a: char, b: char)
    requires IsDigit(a) && IsDigit(b)
    ensures NumberWord([a, '.', b], RealV(FLit([a, '.', b])))
  {
    PointNumber(a, b);
  }

  /** TEST1: `4 + 3`. */
  function Test1Lines(): seq<string>
  {
    ["LOAD_CONST 3", "LOAD_CONST 4", "ADD"]
  }

  function Test1Listing(a: string, b: string): seq<SourceLine>
  {
    [Plain(LoadConst, a), Plain(LoadConst, b), Bare(AddOp, 0)]
  }

  function Test1Code(va: Value, vb: Value): seq<Instr>
  {
    [Instr(LoadConst, [va]), Instr(LoadConst, [vb]), Instr(AddOp, [])]
  }

  /** TEST1 parses to the code its run starts with. */
  lemma Test1Parses()
    ensures ParseText(Unlines(Test1Lines())) == Ok(SampleRuns.Test1())
  {
    Test1Words();
    Test1Reads("3", "4", IntV(3), IntV(4));
    InstructionListing(Test1Listing("3", "4"), Test1Code(IntV(3), IntV(4)));
    Test1Written();
    Test1Instructions();
  }

  lemma Test1Written()
    ensures Written(Test1Listing("3", "4")) == Unlines(Test1Lines())
  {
    Test1Text();
  }

  lemma Test1Instructions()
    ensures SampleRuns.Test1() == Code(Test1Code(IntV(3), IntV(4)), map[])
  {
  }

  lemma Test1Words()
    ensures NumberWord("3", IntV(3)) && NumberWord("4", IntV(4))
  {
    DigitWord('3');
    DigitWord('4');
  }

  lemma Test1Reads(a: string, b: string, va: Value, vb: Value)
    requires NumberWord(a, va) && NumberWord(b, vb)
    ensures WellFormedListing(Test1Listing(a, b)) && Meanings(Test1Listing(a, b)) == InstrLines(Test1Code(va, vb))
  {
    ConstLine(a, va);
    ConstLine(b, vb);
    ThreeInstructions(Plain(LoadConst, a), Plain(LoadConst, b), Bare(AddOp, 0),
      Instr(LoadConst, [va]), Instr(LoadConst, [vb]), Instr(AddOp, []));
  }

  lemma Test1Text()
    ensures Texts(Test1Listing("3", "4")) == Test1Lines()
  {
    var ts := Texts(Test1Listing("3", "4"));
    assert Blanks(0) == [];
    assert ts[0] == "LOAD_CONST 3" && ts[1] == "LOAD_CONST 4" && ts[2] == "ADD";
  }

  /** TEST2: `3 * (7 // (4 + 3))`. */
  function Test2Lines(): seq<string>
  {
    ["LOAD_CONST 3", "LOAD_CONST 4", "ADD", "LOAD_CONST 7"] + ["DIV", "LOAD_CONST 3", "MUL"]
  }

  function Test2Sum(a: string, b: string, c: string): seq<SourceLine>
  {
    [Plain(LoadConst, a), Plain(LoadConst, b), Bare(AddOp, 0), Plain(LoadConst, c)]
  }

  function Test2Product(a: string): seq<SourceLine>
  {
    [Bare(DivOp, 0), Plain(LoadConst, a), Bare(MulOp, 0)]
  }

  function Test2SumCode(va: Value, vb: Value, vc: Value): seq<Instr>
  {
    [Instr(LoadConst, [va]), Instr(LoadConst, [vb]), Instr(AddOp, []), Instr(LoadConst, [vc])]
  }

  function Test2ProductCode(va: Value): seq<Instr>
  {
    [Instr(DivOp, []), Instr(LoadConst, [va]), Instr(MulOp, [])]
  }

  /** TEST2 parses to the code its run starts with. */
  lemma Test2Parses()
    ensures ParseText(Unlines(Test2Lines())) == Ok(SampleRuns.Test2())
  {
    Test2Words();
    Test2Reads("3", "4", "7", IntV(3), IntV(4), IntV(7));
    InstructionListing(Test2Sum("3", "4", "7") + Test2Product("3"),
      Test2SumCode(IntV(3), IntV(4), IntV(7)) + Test2ProductCode(IntV(3)));
    Test2Written();
    Test2Instructions();
  }

  lemma Test2Words()
    ensures NumberWord("3", IntV(3)) && NumberWord("4", IntV(4)) && NumberWord("7", IntV(7))
  {
    DigitWord('3');
    DigitWord('4');
    DigitWord('7');
  }

  lemma Test2Reads(a: string, b: string, c: string, va: Value, vb: Value, vc: Value)
    requires NumberWord(a, va) && NumberWord(b, vb) && NumberWord(c, vc)
    ensures WellFormedListing(Test2Sum(a, b, c) + Test2Product(a))
    ensures Meanings(Test2Sum(a, b, c) + Test2Product(a)) == InstrLines(Test2SumCode(va, vb, vc) + Test2ProductCode(va))
  {
    ConstLine(a, va);
    ConstLine(b, vb);
    ConstLine(c, vc);
    FourInstructions(Plain(LoadConst, a), Plain(LoadConst, b), Bare(AddOp, 0), Plain(LoadConst, c),
      Instr(LoadConst, [va]), Instr(LoadConst, [vb]), Instr(AddOp, []), Instr(LoadConst, [vc]));
    ThreeInstructions(Bare(DivOp, 0), Plain(LoadConst, a), Bare(MulOp, 0),
      Instr(DivOp, []), Instr(LoadConst, [va]), Instr(MulOp, []));
    ListingsJoin(Test2Sum(a, b, c), Test2Product(a), Test2SumCode(va, vb, vc), Test2ProductCode(va));
  }

  lemma Test2Written()
    ensures Written(Test2Sum("3", "4", "7") + Test2Product("3")) == Unlines(Test2Lines())
  {
    TextsAppend(Test2Sum("3", "4", "7"), Test2Product("3"));
    Test2SumText();
    Test2ProductText();
  }

  lemma Test2SumText()
    ensures Texts(Test2Sum("3", "4", "7")) == ["LOAD_CONST 3", "LOAD_CONST 4", "ADD", "LOAD_CONST 7"]
  {
    var ts := Texts(Test2Sum("3", "4", "7"));
    assert Blanks(0) == [];
    assert ts[0] == "LOAD_CONST 3" && ts[1] == "LOAD_CONST 4";
    assert ts[2] == "ADD" && ts[3] == "LOAD_CONST 7";
  }

  lemma Test2ProductText()
    ensures Texts(Test2Product("3")) == ["DIV", "LOAD_CONST 3", "MUL"]
  {
    var ts := Texts(Test2Product("3"));
    assert Blanks(0) == [];
    assert ts[0] == "DIV" && ts[1] == "LOAD_CONST 3" && ts[2] == "MUL";
  }

  lemma Test2Instructions()
    ensures SampleRuns.Test2() == Code(Test2SumCode(IntV(3), IntV(4), IntV(7)) + Test2ProductCode(IntV(3)), map[])
  {
  }

  /** TEST3: `result = -sqrt(exp(a - b))` with a = 7.0 and b = 2.0. */
  function Test3Lines(): seq<string>
  {
    ["LOAD_CONST 7.0", "STORE_VAR \"a\"", "LOAD_CONST 2.0", "STORE_VAR \"b\""] +
    ["LOAD_VAR \"b\"", "LOAD_VAR \"a\"", "SUB", "EXP"] +
    ["SQRT", "NEG", "STORE_VAR \"result\""]
  }

  function Test3Store(p: string, a: string, q: string, b: string): seq<SourceLine>
  {
    [Plain(LoadConst, p), Quoted(StoreVar, a), Plain(LoadConst, q), Quoted(StoreVar, b)]
  }

  function Test3Difference(a: string, b: string): seq<SourceLine>
  {
    [Quoted(LoadVar, b), Quoted(LoadVar, a), Bare(SubOp, 0), Bare(ExpOp, 0)]
  }

  function Test3Result(result: string): seq<SourceLine>
  {
    [Bare(SqrtOp, 0), Bare(NegOp, 0), Quoted(StoreVar, result)]
  }

  function Test3Listing(p: string, a: string, q: string, b: string, result: string): seq<SourceLine>
  {
    Test3Store(p, a, q, b) + Test3Difference(a, b) + Test3Result(result)
  }

  function Test3StoreCode(vp: Value, a: string, vq: Value, b: string): seq<Instr>
  {
    [Instr(LoadConst, [vp]), Instr(StoreVar, [StrV(a)]), Instr(LoadConst, [vq]), Instr(StoreVar, [StrV(b)])]
  }

  function Test3DifferenceCode(a: string, b: string): seq<Instr>
  {
    [Instr(LoadVar, [StrV(b)]), Instr(LoadVar, [StrV(a)]), Instr(SubOp, []), Instr(ExpOp, [])]
  }

  function Test3ResultCode(result: string): seq<Instr>
  {
    [Instr(SqrtOp, []), Instr(NegOp, []), Instr(StoreVar, [StrV(result)])]
  }

  function Test3Code(vp: Value, a: string, vq: Value, b: string, result: string): seq<Instr>
  {
    Test3StoreCode(vp, a, vq, b) + Test3DifferenceCode(a, b) + Test3ResultCode(result)
  }

  /** TEST3 parses to the code its run starts with. */
  lemma Test3Parses()
    ensures ParseText(Unlines(Test3Lines())) == Ok(SampleRuns.Test3())
  {
    Test3Words();
    ShortName("a");
    ShortName("b");
    ResultName();
    Test3Reads("7.0", "a", "2.0", "b", "result", SampleRuns.A3, SampleRuns.B3);
    InstructionListing(Test3Listing("7.0", "a", "2.0", "b", "result"),
      Test3Code(SampleRuns.A3, "a", SampleRuns.B3, "b", "result"));
    Test3Written();
    Test3Instructions();
  }

  lemma Test3Words()
    ensures NumberWord("7.0", SampleRuns.A3) && NumberWord("2.0", SampleRuns.B3)
  {
    PointWord('7', '0');
    PointWord('2', '0');
  }

  lemma Test3Reads(p: string, a: string, q: string, b: string, result: string, vp: Value, vq: Value)
    requires NumberWord(p, vp) && NumberWord(q, vq)
    requires QuotableName(a) && QuotableName(b) && QuotableName(result)
    ensures WellFormedListing(Test3Listing(p, a, q, b, result))
    ensures Meanings(Test3Listing(p, a, q, b, result)) == InstrLines(Test3Code(vp, a, vq, b, result))
  {
    Test3StoreReads(p, a, q, b, vp, vq);
    Test3DifferenceReads(a, b);
    QuotedName(StoreVar, result);
    ThreeInstructions(Bare(SqrtOp, 0), Bare(NegOp, 0), Quoted(StoreVar, result),
      Instr(SqrtOp, []), Instr(NegOp, []), Instr(StoreVar, [StrV(result)]));
    ListingsJoin(Test3Store(p, a, q, b), Test3Difference(a, b), Test3StoreCode(vp, a, vq, b), Test3DifferenceCode(a, b));
    ListingsJoin(Test3Store(p, a, q, b) + Test3Difference(a, b), Test3Result(result),
      Test3StoreCode(vp, a, vq, b) + Test3DifferenceCode(a, b), Test3ResultCode(result));
  }

  lemma Test3StoreReads(p: string, a: string, q: string, b: string, vp: Value, vq: Value)
    requires NumberWord(p, vp) && NumberWord(q, vq) && QuotableName(a) && QuotableName(b)
    ensures WellFormedListing(Test3Store(p, a, q, b))
    ensures Meanings(Test3Store(p, a, q, b)) == InstrLines(Test3StoreCode(vp, a, vq, b))
  {
    ConstLine(p, vp);
    ConstLine(q, vq);
    QuotedName(StoreVar, a);
    QuotedName(StoreVar, b);
    FourInstructions(Plain(LoadConst, p), Quoted(StoreVar, a), Plain(LoadConst, q), Quoted(StoreVar, b),
      Instr(LoadConst, [vp]), Instr(StoreVar, [StrV(a)]), Instr(LoadConst, [vq]), Instr(StoreVar, [StrV(b)]));
  }

  lemma Test3DifferenceReads(a: string, b: string)
    requires QuotableName(a) && QuotableName(b)
    ensures WellFormedListing(Test3Difference(a, b))
    ensures Meanings(Test3Difference(a, b)) == InstrLines(Test3DifferenceCode(a, b))
  {
    QuotedName(LoadVar, b);
    QuotedName(LoadVar, a);
    FourInstructions(Quoted(LoadVar, b), Quoted(LoadVar, a), Bare(SubOp, 0), Bare(ExpOp, 0),
      Instr(LoadVar, [StrV(b)]), Instr(LoadVar, [StrV(a)]), Instr(SubOp, []), Instr(ExpOp, []));
  }

  lemma Test3Written()
    ensures Written(Test3Listing("7.0", "a", "2.0", "b", "result")) == Unlines(Test3Lines())
  {
    TextsAppend(Test3Store("7.0", "a", "2.0", "b"), Test3Difference("a", "b"));
    TextsAppend(Test3Store("7.0", "a", "2.0", "b") + Test3Difference("a", "b"), Test3Result("result"));
    Test3StoreText();
    Test3DifferenceText();
    Test3ResultText();
  }

  lemma Test3StoreText()
    ensures Texts(Test3Store("7.0", "a", "2.0", "b")) ==
      ["LOAD_CONST 7.0", "STORE_VAR \"a\"", "LOAD_CONST 2.0", "STORE_VAR \"b\""]
  {
    var ts := Texts(Test3Store("7.0", "a", "2.0", "b"));
    assert ts[0] == "LOAD_CONST 7.0" && ts[1] == "STORE_VAR \"a\"";
    assert ts[2] == "LOAD_CONST 2.0" && ts[3] == "STORE_VAR \"b\"";
  }

  lemma Test3DifferenceText()
    ensures Texts(Test3Difference("a", "b")) == ["LOAD_VAR \"b\"", "LOAD_VAR \"a\"", "SUB", "EXP"]
  {
    var ts := Texts(Test3Difference("a", "b"));
    assert Blanks(0) == [];
    assert ts[0] == "LOAD_VAR \"b\"" && ts[1] == "LOAD_VAR \"a\"";
    assert ts[2] == "SUB" && ts[3] == "EXP";
  }

  lemma Test3ResultText()
    ensures Texts(Test3Result("result")) == ["SQRT", "NEG", "STORE_VAR \"result\""]
  {
    var ts := Texts(Test3Result("result"));
    assert Blanks(0) == [];
    assert ts[0] == "SQRT" && ts[1] == "NEG" && ts[2] == "STORE_VAR \"result\"";
  }

  lemma Test3Instructions()
    ensures SampleRuns.Test3() == Code(Test3Code(SampleRuns.A3, "a", SampleRuns.B3, "b", "result"), map[])
  {
  }
}
