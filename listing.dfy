/** Program texts written line by line, the way the XVM's programs are
    (task0/xvm/our_program.py, task0/tests/test_part1.py): `parse_string`
    (task0/xvm/vm.py) reads such a text back as the code its lines spell. */
module Listing {
  import opened Values
  import opened PyText
  import opened Convert
  import opened Parser

  /** One line of a program text. */
  datatype SourceLine =
    | Blank                            // an empty line
    | Bare(op: OpCode, pad: nat)       // an opcode name followed by `pad` blanks
    | Plain(op: OpCode, arg: string)   // an opcode name and an unquoted argument
    | Quoted(op: OpCode, arg: string)  // an opcode name and an argument in double quotes

  function Blanks(n: nat): (s: string)
    ensures |s| == n && forall i :: 0 <= i < n ==> s[i] == ' '
  {
    seq(n, i => ' ')
  }

  /** The characters of a line. */
  function Text(l: SourceLine): string
  {
    match l
    case Blank => ""
    case Bare(op, pad) => Name(op) + Blanks(pad)
    case Plain(op, arg) => Name(op) + " " + arg
    case Quoted(op, arg) => Name(op) + " \"" + arg + "\""
  }

  /** The lines of a program, each ended by a line break. */
  function Written(src: seq<SourceLine>): string
  {
    Unlines(Texts(src))
  }

  function Texts(src: seq<SourceLine>): (ts: seq<string>)
    ensures |ts| == |src| && forall k :: 0 <= k < |src| ==> ts[k] == Text(src[k])
  {
    seq(|src|, k requires 0 <= k < |src| => Text(src[k]))
  }

  /** A line `parse_string` reads without failing: a LABEL has one argument that
      stays a string, an unquoted argument holds no blank or quote, a quoted one
      no quote, and no argument spans a line break. */
  predicate WellFormed(l: SourceLine)
  {
    match l
    case Blank => true
    case Bare(op, _) => op != Label
    case Plain(op, arg) =>
      && arg != [] && ' ' !in arg && '"' !in arg && '\n' !in arg
      && (op == Label ==> ConvertToNumber(arg) == StrV(arg))
    case Quoted(op, arg) =>
      && arg != [] && '"' !in arg && '\n' !in arg
      && (op == Label ==> ConvertToNumber(arg) == StrV(arg))
  }

  /** What a non-blank line stands for: its instruction, the argument converted as
      `convert_to_number` converts it, or the label it declares. */
  function Meaning(l: SourceLine): Line
    requires l != Blank
  {
    match l
    case Bare(op, _) => InstrLine(Instr(op, []))
    case Plain(op, arg) => if op == Label then LabelLine(arg) else InstrLine(Instr(op, [ConvertToNumber(arg)]))
    case Quoted(op, arg) => if op == Label then LabelLine(arg) else InstrLine(Instr(op, [ConvertToNumber(arg)]))
  }

  /** The meanings of the non-blank lines, in order. */
  function Meanings(src: seq<SourceLine>): seq<Line>
  {
    if src == [] then []
    else if src[0] == Blank then Meanings(src[1..])
    else [Meaning(src[0])] + Meanings(src[1..])
  }

  /** Printing a program line by line and parsing the text gives the code its
      lines stand for: blank lines are skipped, each instruction is appended, and
      each label names the number of instructions before it. */
  lemma ListingParses(src: seq<SourceLine>)
    requires WellFormedListing(src)
    ensures ParseText(Written(src)) == Ok(Assemble(Meanings(src)))
  {
    var full := src + [Blank];
    Closed(src);
    SplitWritten(full);
    KeptLines(full);
    AllLinesRead(NonBlank(Texts(full)), Meanings(full));
  }

  /** The line break after the last line leaves an empty last piece, which reads
      as a blank line. */
  lemma Closed(src: seq<SourceLine>)
    requires WellFormedListing(src)
    ensures Written(src) == Join(Texts(src + [Blank]), "\n")
    ensures WellFormedListing(src + [Blank]) && Meanings(src + [Blank]) == Meanings(src)
  {
    UnlinesJoin(Texts(src));
    TextsAppend(src, [Blank]);
    assert Texts([Blank]) == [""];
    WellFormedAppend(src, [Blank]);
    MeaningsAppend(src, [Blank]);
    assert Meanings([Blank]) == [];
  }

  /** Splitting the text at its line breaks gives back its lines. */
  lemma SplitWritten(src: seq<SourceLine>)
    requires WellFormedListing(src) && src != []
    ensures SplitOn(Join(Texts(src), "\n"), '\n') == Texts(src)
  {
    var ts := Texts(src);
    forall k | 0 <= k < |ts|
      ensures '\n' !in ts[k]
    {
      NoBreak(src[k]);
    }
    SplitOnJoin(ts, '\n');
  }


  /** The non-blank texts are exactly the lines with a meaning, and each reads
      as that meaning. */
  lemma {:induction false} KeptLines(src: seq<SourceLine>)
    requires WellFormedListing(src)
    ensures |NonBlank(Texts(src))| == |Meanings(src)|
    ensures forall k :: 0 <= k < |Meanings(src)| ==> LineOf(NonBlank(Texts(src))[k]) == Ok(Meanings(src)[k])
  {
    if src != [] {
      KeptLines(src[1..]);
      if src[0] == Blank {
        KeptSkip(src);
      } else {
        KeptFront(src);
      }
    }
  }

  /** The step of `KeptLines` for a kept first line: its own reading in
      front, then the readings of the rest, shifted by one. */
  lemma KeptFront(src: seq<SourceLine>)
    requires WellFormedListing(src) && src != [] && src[0] != Blank
    requires |NonBlank(Texts(src[1..]))| == |Meanings(src[1..])|
    requires forall k :: 0 <= k < |Meanings(src[1..])| ==> LineOf(NonBlank(Texts(src[1..]))[k]) == Ok(Meanings(src[1..])[k])
    ensures |NonBlank(Texts(src))| == |Meanings(src)|
    ensures forall k :: 0 <= k < |Meanings(src)| ==> LineOf(NonBlank(Texts(src))[k]) == Ok(Meanings(src)[k])
  {
    KeptStep(src);
    var ts, ms := NonBlank(Texts(src[1..])), Meanings(src[1..]);
    forall k | 0 <= k < |Meanings(src)|
      ensures LineOf(NonBlank(Texts(src))[k]) == Ok(Meanings(src)[k])
    {
      if k > 0 {
        assert NonBlank(Texts(src))[k] == ts[k - 1];
        assert Meanings(src)[k] == ms[k - 1];
      }
    }
  }

  /** A blank first line is dropped. */
  lemma KeptSkip(src: seq<SourceLine>)
    requires src != [] && src[0] == Blank
    ensures NonBlank(Texts(src)) == NonBlank(Texts(src[1..]))
    ensures Meanings(src) == Meanings(src[1..])
  {
    var ts := Texts(src);
    assert ts[1..] == Texts(src[1..]);
    assert Strip(ts[0]) == [];
  }


  /** A non-blank first line is kept in front of the rest. */
  lemma KeptStep(src: seq<SourceLine>)
    requires src != [] && src[0] != Blank && WellFormed(src[0])
    ensures NonBlank(Texts(src)) == [Text(src[0])] + NonBlank(Texts(src[1..]))
    ensures Meanings(src) == [Meaning(src[0])] + Meanings(src[1..])
    ensures LineOf(Text(src[0])) == Ok(Meaning(src[0]))
  {
    var ts := Texts(src);
    assert ts[1..] == Texts(src[1..]);
    LineReads(src[0]);
    StripNotEmpty(ts[0]);
  }

  /** Every line of a listing is well formed. */
  predicate WellFormedListing(src: seq<SourceLine>)
  {
    forall k :: 0 <= k < |src| ==> WellFormed(src[k])
  }

  /** The lines of a listing that holds only the given instructions. */
  function InstrLines(instrs: seq<Instr>): (ls: seq<Line>)
    ensures |ls| == |instrs| && forall k :: 0 <= k < |instrs| ==> ls[k] == InstrLine(instrs[k])
  {
    seq(|instrs|, k requires 0 <= k < |instrs| => InstrLine(instrs[k]))
  }

  /** A listing whose lines are all instructions parses to those instructions,
      in order, with no labels. */
  lemma InstructionListing(src: seq<SourceLine>, instrs: seq<Instr>)
    requires WellFormedListing(src) && Meanings(src) == InstrLines(instrs)
    ensures ParseText(Written(src)) == Ok(Code(instrs, map[]))
  {
    ListingParses(src);
    var ls := Meanings(src);
    AssembleInstrLines(ls);
    assert Assemble(ls).instructions == instrs;
  }

  /** The same for three paragraphs of instructions separated by blank lines. */
  lemma InstructionParagraphs(a: seq<SourceLine>, b: seq<SourceLine>, c: seq<SourceLine>,
                              ia: seq<Instr>, ib: seq<Instr>, ic: seq<Instr>)
    requires WellFormedListing(a) && WellFormedListing(b) && WellFormedListing(c)
    requires Meanings(a) == InstrLines(ia) && Meanings(b) == InstrLines(ib) && Meanings(c) == InstrLines(ic)
    ensures ParseText(Written(a + [Blank] + b + [Blank] + c)) == Ok(Code(ia + ib + ic, map[]))
  {
    ParagraphsWellFormed(a, b, c);
    ParagraphMeanings(a, b, c);
    InstrLinesAppend(ia, ib);
    InstrLinesAppend(ia + ib, ic);
    InstructionListing(a + [Blank] + b + [Blank] + c, ia + ib + ic);
  }

  lemma InstrLinesAppend(a: seq<Instr>, b: seq<Instr>)
    ensures InstrLines(a + b) == InstrLines(a) + InstrLines(b)
  {
  }

  /** Two listings of instructions, one after the other, read as both in order. */
  lemma ListingsJoin(a: seq<SourceLine>, b: seq<SourceLine>, ia: seq<Instr>, ib: seq<Instr>)
    requires WellFormedListing(a) && Meanings(a) == InstrLines(ia)
    requires WellFormedListing(b) && Meanings(b) == InstrLines(ib)
    ensures WellFormedListing(a + b) && Meanings(a + b) == InstrLines(ia + ib)
  {
    WellFormedAppend(a, b);
    MeaningsAppend(a, b);
    InstrLinesAppend(ia, ib);
  }

  /** Three paragraphs separated by blank lines are written as the paragraphs'
      lines with an empty line between them, ... */
  lemma ParagraphTexts(a: seq<SourceLine>, b: seq<SourceLine>, c: seq<SourceLine>)
    ensures Texts(a + [Blank] + b + [Blank] + c) == Texts(a) + [""] + Texts(b) + [""] + Texts(c)
  {
    assert Texts([Blank]) == [""];
    TextsAppend(a, [Blank]);
    TextsAppend(a + [Blank], b);
    TextsAppend(a + [Blank] + b, [Blank]);
    TextsAppend(a + [Blank] + b + [Blank], c);
  }

  /** ... mean what the paragraphs mean, one after the other, ... */
  lemma ParagraphMeanings(a: seq<SourceLine>, b: seq<SourceLine>, c: seq<SourceLine>)
    ensures Meanings(a + [Blank] + b + [Blank] + c) == Meanings(a) + Meanings(b) + Meanings(c)
  {
    BlankBetween(a, b);
    BlankBetween(a + [Blank] + b, c);
  }

  /** A blank line between two listings means nothing. */
  lemma BlankBetween(a: seq<SourceLine>, b: seq<SourceLine>)
    ensures Meanings(a + [Blank] + b) == Meanings(a) + Meanings(b)
  {
    assert Meanings([Blank]) == [];
    MeaningsAppend(a, [Blank]);
    MeaningsAppend(a + [Blank], b);
  }

  /** ... and are well formed when each paragraph is. */
  lemma ParagraphsWellFormed(a: seq<SourceLine>, b: seq<SourceLine>, c: seq<SourceLine>)
    requires WellFormedListing(a) && WellFormedListing(b) && WellFormedListing(c)
    ensures WellFormedListing(a + [Blank] + b + [Blank] + c)
  {
    assert WellFormedListing([Blank]);
    WellFormedAppend(a, [Blank]);
    WellFormedAppend(a + [Blank], b);
    WellFormedAppend(a + [Blank] + b, [Blank]);
    WellFormedAppend(a + [Blank] + b + [Blank], c);
  }

  /** Listings are written and read piece by piece. */
  lemma TextsAppend(a: seq<SourceLine>, b: seq<SourceLine>)
    ensures Texts(a + b) == Texts(a) + Texts(b)
  {
  }

  lemma WellFormedAppend(a: seq<SourceLine>, b: seq<SourceLine>)
    requires WellFormedListing(a) && WellFormedListing(b)
    ensures WellFormedListing(a + b)
  {
    forall k | 0 <= k < |a + b|
      ensures WellFormed((a + b)[k])
    {
      if k >= |a| {
        assert (a + b)[k] == b[k - |a|];
      }
    }
  }

  /** A non-blank line in front of a listing adds its meaning in front. */
  lemma ReadFirst(l: SourceLine, rest: seq<SourceLine>, i: Instr, more: seq<Instr>)
    requires l != Blank && WellFormed(l) && Meaning(l) == InstrLine(i)
    requires WellFormedListing(rest) && Meanings(rest) == InstrLines(more)
    ensures WellFormedListing([l] + rest) && Meanings([l] + rest) == InstrLines([i] + more)
  {
    assert ([l] + rest)[1..] == rest;
    WellFormedAppend([l], rest);
  }

  /** Three instruction lines, ... */
  lemma ThreeInstructions(a: SourceLine, b: SourceLine, c: SourceLine, ia: Instr, ib: Instr, ic: Instr)
    requires a != Blank && WellFormed(a) && Meaning(a) == InstrLine(ia)
    requires b != Blank && WellFormed(b) && Meaning(b) == InstrLine(ib)
    requires c != Blank && WellFormed(c) && Meaning(c) == InstrLine(ic)
    ensures WellFormedListing([a, b, c]) && Meanings([a, b, c]) == InstrLines([ia, ib, ic])
  {
    ReadFirst(c, [], ic, []);
    ReadFirst(b, [c], ib, [ic]);
    ReadFirst(a, [b, c], ia, [ib, ic]);
    assert [b] + [c] == [b, c] && [a] + [b, c] == [a, b, c];
    assert [ib] + [ic] == [ib, ic] && [ia] + [ib, ic] == [ia, ib, ic];
  }

  /** ... and four. */
  lemma FourInstructions(a: SourceLine, b: SourceLine, c: SourceLine, d: SourceLine, ia: Instr, ib: Instr, ic: Instr, id: Instr)
    requires a != Blank && WellFormed(a) && Meaning(a) == InstrLine(ia)
    requires b != Blank && WellFormed(b) && Meaning(b) == InstrLine(ib)
    requires c != Blank && WellFormed(c) && Meaning(c) == InstrLine(ic)
    requires d != Blank && WellFormed(d) && Meaning(d) == InstrLine(id)
    ensures WellFormedListing([a, b, c, d]) && Meanings([a, b, c, d]) == InstrLines([ia, ib, ic, id])
  {
    ThreeInstructions(b, c, d, ib, ic, id);
    ReadFirst(a, [b, c, d], ia, [ib, ic, id]);
    assert [a] + [b, c, d] == [a, b, c, d];
    assert [ia] + [ib, ic, id] == [ia, ib, ic, id];
  }

  lemma {:induction false} MeaningsAppend(a: seq<SourceLine>, b: seq<SourceLine>)
    ensures Meanings(a + b) == Meanings(a) + Meanings(b)
  {
    if a != [] {
      assert (a + b)[0] == a[0] && (a + b)[1..] == a[1..] + b;
      MeaningsAppend(a[1..], b);
    } else {
      assert a + b == b;
    }
  }

  /** No line holds a line break. */
  lemma NoBreak(l: SourceLine)
    requires WellFormed(l)
    ensures '\n' !in Text(l)
  {
    match l
    case Blank =>
    case Bare(op, pad) => OpToken(op); NoBreakAfter(Name(op), Blanks(pad));
    case Plain(op, arg) => OpToken(op); NoBreakAfter(Name(op), " " + arg);
    case Quoted(op, arg) => OpToken(op); NoBreakAfter(Name(op), " \"" + arg + "\"");
  }

  /** A word of letters followed by text without a line break has none. */
  lemma NoBreakAfter(w: string, rest: string)
    requires LetterWord(w) && '\n' !in rest
    ensures '\n' !in w + rest
  {
    assert '\n' !in w;
  }

  /** A non-blank line starts with a capital letter and reads as its meaning. */
  lemma LineReads(l: SourceLine)
    requires WellFormed(l) && l != Blank
    ensures Text(l) != [] && !IsSpace(Text(l)[0])
    ensures LineOf(Text(l)) == Ok(Meaning(l))
  {
    match l
    case Bare(op, pad) => BareReads(op, pad);
    case Plain(op, arg) => PlainReads(op, arg);
    case Quoted(op, arg) => QuotedReads(op, arg);
  }

  lemma BareReads(op: OpCode, pad: nat)
    requires op != Label
    ensures Text(Bare(op, pad)) != [] && !IsSpace(Text(Bare(op, pad))[0])
    ensures LineOf(Text(Bare(op, pad))) == Ok(InstrLine(Instr(op, [])))
  {
    BareStarts(op, pad);
    BareNamed(Name(op), op, pad);
  }

  lemma BareStarts(op: OpCode, pad: nat)
    ensures Text(Bare(op, pad)) != [] && !IsSpace(Text(Bare(op, pad))[0])
  {
    OpToken(op);
    Capital(Name(op), Blanks(pad));
  }

  lemma PlainReads(op: OpCode, arg: string)
    requires WellFormed(Plain(op, arg))
    ensures Text(Plain(op, arg)) != [] && !IsSpace(Text(Plain(op, arg))[0])
    ensures LineOf(Text(Plain(op, arg))) == Ok(Meaning(Plain(op, arg)))
  {
    OpToken(op);
    Capital(Name(op) + " ", arg);
    PlainNamed(Name(op), op, arg);
  }

  lemma QuotedReads(op: OpCode, arg: string)
    requires WellFormed(Quoted(op, arg))
    ensures Text(Quoted(op, arg)) != [] && !IsSpace(Text(Quoted(op, arg))[0])
    ensures LineOf(Text(Quoted(op, arg))) == Ok(Meaning(Quoted(op, arg)))
  {
    OpToken(op);
    Capital(Name(op) + " \"" + arg, "\"");
    QuotedNamed(Name(op), op, arg);
  }

  /** Text that starts with a capital letter does not start with whitespace. */
  lemma Capital(w: string, rest: string)
    requires w != [] && 'A' <= w[0] <= 'Z'
    ensures w + rest != [] && !IsSpace((w + rest)[0])
  {
    assert (w + rest)[0] == w[0];
  }

  lemma BareNamed(name: string, op: OpCode, pad: nat)
    requires name == Name(op) && op != Label
    ensures LineOf(name + Blanks(pad)) == Ok(InstrLine(Instr(op, [])))
  {
    OpToken(op);
    FromNameOfName(op);
    BareLine(name, op, Blanks(pad));
  }

  lemma PlainNamed(name: string, op: OpCode, arg: string)
    requires name == Name(op) && WellFormed(Plain(op, arg))
    ensures LineOf(name + " " + arg) == Ok(Meaning(Plain(op, arg)))
  {
    OpToken(op);
    FromNameOfName(op);
    PlainArgLine(name, op, arg, ConvertToNumber(arg));
  }

  lemma QuotedNamed(name: string, op: OpCode, arg: string)
    requires name == Name(op) && WellFormed(Quoted(op, arg))
    ensures LineOf(name + " \"" + arg + "\"") == Ok(Meaning(Quoted(op, arg)))
  {
    OpToken(op);
    FromNameOfName(op);
    QuotedArgLine(name, op, arg, ConvertToNumber(arg));
  }

  // ---------------------------------------------------------------------
  // Opcode names as tokens.

  /** An opcode's name is a word of capital letters that stays a string. */
  lemma OpToken(op: OpCode)
    ensures Name(op) != [] && LetterWord(Name(op)) && ConvertToNumber(Name(op)) == StrV(Name(op))
    ensures 'A' <= Name(op)[0] <= 'Z'
  {
    NameShape(op);
    WordStaysString(Name(op));
  }

  /** The names that are three or eight letters long have neither N nor A second,
      so none of them spells inf, infinity or nan. */
  lemma NameShape(op: OpCode)
    ensures |Name(op)| >= 2 && LetterWord(Name(op)) && 'A' <= Name(op)[0] <= 'Z'
    ensures (|Name(op)| != 3 && |Name(op)| != 8) || (Name(op)[1] != 'N' && Name(op)[1] != 'A')
  {
    match op
    case LoadConst | LoadVar | StoreVar | AddOp | SubOp | MulOp | DivOp => MemoryShapes(op);
    case SqrtOp | NegOp | ExpOp | EqOp | NeqOp | GtOp => MathShapes(op);
    case LtOp | GeOp | LeOp | Label | Jmp | Cjmp => JumpShapes(op);
    case Print | InputString | InputNumber | Call | Ret | Breakpoint => CallShapes(op);
  }

  lemma MemoryShapes(op: OpCode)
    requires op in {LoadConst, LoadVar, StoreVar, AddOp, SubOp, MulOp, DivOp}
    ensures |Name(op)| >= 2 && LetterWord(Name(op)) && 'A' <= Name(op)[0] <= 'Z'
    ensures (|Name(op)| != 3 && |Name(op)| != 8) || (Name(op)[1] != 'N' && Name(op)[1] != 'A')
  {
  }

  lemma MathShapes(op: OpCode)
    requires op in {SqrtOp, NegOp, ExpOp, EqOp, NeqOp, GtOp}
    ensures |Name(op)| >= 2 && LetterWord(Name(op)) && 'A' <= Name(op)[0] <= 'Z'
    ensures (|Name(op)| != 3 && |Name(op)| != 8) || (Name(op)[1] != 'N' && Name(op)[1] != 'A')
  {
  }

  lemma JumpShapes(op: OpCode)
    requires op in {LtOp, GeOp, LeOp, Label, Jmp, Cjmp}
    ensures |Name(op)| >= 2 && LetterWord(Name(op)) && 'A' <= Name(op)[0] <= 'Z'
    ensures (|Name(op)| != 3 && |Name(op)| != 8) || (Name(op)[1] != 'N' && Name(op)[1] != 'A')
  {
  }

  lemma CallShapes(op: OpCode)
    requires op in {Print, InputString, InputNumber, Call, Ret, Breakpoint}
    ensures |Name(op)| >= 2 && LetterWord(Name(op)) && 'A' <= Name(op)[0] <= 'Z'
    ensures (|Name(op)| != 3 && |Name(op)| != 8) || (Name(op)[1] != 'N' && Name(op)[1] != 'A')
  {
  }

  // ---------------------------------------------------------------------
  // One line: its tokens, their conversion, and the checks of `parse_string`.

  /** An opcode name followed only by blanks. */
  lemma BareLine(name: string, op: OpCode, pad: string)
    requires FromName(name) == Some(op) && op != Label
    requires name != [] && LetterWord(name) && ConvertToNumber(name) == StrV(name)
    requires forall i :: 0 <= i < |pad| ==> pad[i] == ' '
    ensures LineOf(name + pad) == Ok(InstrLine(Instr(op, [])))
  {
    BareWords(name, pad);
    ConvertedTokens([name], [StrV(name)]);
    InstrTokens(name, op, []);
    LineOfParts(name + pad, [name], [StrV(name)], InstrLine(Instr(op, [])));
  }

  /** An opcode name and one unquoted argument. */
  lemma PlainArgLine(name: string, op: OpCode, arg: string, v: Value)
    requires FromName(name) == Some(op)
    requires name != [] && LetterWord(name) && ConvertToNumber(name) == StrV(name)
    requires arg != [] && ' ' !in arg && '"' !in arg && ConvertToNumber(arg) == v
    requires op == Label ==> v == StrV(arg)
    ensures LineOf(name + " " + arg) ==
      Ok(if op == Label then LabelLine(arg) else InstrLine(Instr(op, [v])))
  {
    PlainWords(name, arg);
    PairConverted(name, arg, v);
    var l := if op == Label then LabelLine(arg) else InstrLine(Instr(op, [v]));
    if op != Label {
      ArgInstr(name, op, v);
    }
    LineOfParts(name + " " + arg, [name, arg], [StrV(name), v], l);
  }

  /** An opcode name and one quoted argument. */
  lemma QuotedArgLine(name: string, op: OpCode, arg: string, v: Value)
    requires FromName(name) == Some(op)
    requires name != [] && LetterWord(name) && ConvertToNumber(name) == StrV(name)
    requires arg != [] && '"' !in arg && ConvertToNumber(arg) == v
    requires op == Label ==> v == StrV(arg)
    ensures LineOf(name + " \"" + arg + "\"") ==
      Ok(if op == Label then LabelLine(arg) else InstrLine(Instr(op, [v])))
  {
    QuotedWords(name, arg);
    PairConverted(name, arg, v);
    var l := if op == Label then LabelLine(arg) else InstrLine(Instr(op, [v]));
    if op != Label {
      ArgInstr(name, op, v);
    }
    LineOfParts(name + " \"" + arg + "\"", [name, arg], [StrV(name), v], l);
  }

  lemma LineOfParts(line: string, ws: seq<string>, vs: seq<Value>, l: Line)
    requires Words(line) == ws && Converted(ws) == vs && ParseLine(vs) == Ok(l)
    ensures LineOf(line) == Ok(l)
  {
  }

  lemma BareWords(name: string, pad: string)
    requires name != [] && LetterWord(name)
    requires forall i :: 0 <= i < |pad| ==> pad[i] == ' '
    ensures Words(name + pad) == [name]
  {
    LetterWordNoBreak(name);
    ScanPlainRun(name, pad, []);
    assert [] + name == name;
    BlanksEnd(pad, name);
  }

  lemma PlainWords(name: string, arg: string)
    requires name != [] && LetterWord(name) && arg != [] && ' ' !in arg && '"' !in arg
    ensures Words(name + " " + arg) == [name, arg]
  {
    LetterWordNoBreak(name);
    WordsOfJoin([name, arg]);
    assert Join([name, arg], " ") == name + " " + arg;
  }

  lemma QuotedWords(name: string, arg: string)
    requires name != [] && LetterWord(name) && arg != [] && '"' !in arg
    ensures Words(name + " \"" + arg + "\"") == [name, arg]
  {
    LetterWordNoBreak(name);
    QuotedArgument(name, arg);
  }

  /** Blanks after a token end it and add nothing. */
  lemma {:induction false} BlanksEnd(pad: string, w: string)
    requires w != [] && forall i :: 0 <= i < |pad| ==> pad[i] == ' '
    ensures Scan(pad, w, false) == [w]
  {
    if pad != [] {
      assert Scan(pad, w, false) == [w] + Scan(pad[1..], [], false);
      BlanksOnly(pad[1..]);
    }
  }

  lemma {:induction false} BlanksOnly(pad: string)
    requires forall i :: 0 <= i < |pad| ==> pad[i] == ' '
    ensures Scan(pad, [], false) == []
  {
    if pad != [] {
      BlanksOnly(pad[1..]);
    }
  }

  /** A word of letters holds no blank and no quote. */
  lemma LetterWordNoBreak(w: string)
    requires LetterWord(w)
    ensures ' ' !in w && '"' !in w
  {
  }

  lemma ConvertedTokens(ws: seq<string>, vs: seq<Value>)
    requires |ws| == |vs| && forall k :: 0 <= k < |ws| ==> ConvertToNumber(ws[k]) == vs[k]
    ensures Converted(ws) == vs
  {
  }

  lemma PairConverted(name: string, arg: string, v: Value)
    requires ConvertToNumber(name) == StrV(name) && ConvertToNumber(arg) == v
    ensures Converted([name, arg]) == [StrV(name), v]
  {
    ConvertedTokens([name, arg], [StrV(name), v]);
  }

  /** An opcode other than LABEL with at most two arguments is an instruction line. */
  lemma InstrTokens(name: string, op: OpCode, args: seq<Value>)
    requires FromName(name) == Some(op) && op != Label && |args| <= 2
    ensures ParseLine([StrV(name)] + args) == Ok(InstrLine(Instr(op, args)))
    ensures args == [] ==> ParseLine([StrV(name)]) == Ok(InstrLine(Instr(op, args)))
  {
    assert ([StrV(name)] + args)[1..] == args;
  }

  lemma ArgInstr(name: string, op: OpCode, v: Value)
    requires FromName(name) == Some(op) && op != Label
    ensures ParseLine([StrV(name), v]) == Ok(InstrLine(Instr(op, [v])))
  {
    InstrTokens(name, op, [v]);
    assert [StrV(name)] + [v] == [StrV(name), v];
  }

  // ---------------------------------------------------------------------
  // The whole text.



  /** Kept lines that each read as a line parse to those lines. */
  lemma AllLinesRead(kept: seq<string>, ls: seq<Line>)
    requires |kept| == |ls| && forall k :: 0 <= k < |ls| ==> LineOf(kept[k]) == Ok(ls[k])
    ensures ParseLines(kept) == Ok(ls)
  {
    var rs := seq(|kept|, k requires 0 <= k < |kept| => LineOf(kept[k]));
    CollectAllOk(rs, ls);
  }

  /** When every line parses, the combination holds every line, in order. */
  lemma {:induction false} CollectAllOk(rs: seq<Result<Line>>, ls: seq<Line>)
    requires |rs| == |ls| && forall k :: 0 <= k < |rs| ==> rs[k] == Ok(ls[k])
    ensures Collect(rs) == Ok(ls)
  {
    if rs != [] {
      var n := |rs| - 1;
      CollectAllOk(rs[..n], ls[..n]);
      assert ls[..n] + [ls[n]] == ls;
    }
  }




  /** Lines that are all instructions assemble to those instructions, in order,
      with no labels. */
  lemma {:induction false} AssembleInstrLines(ls: seq<Line>)
    requires forall k :: 0 <= k < |ls| ==> ls[k].InstrLine?
    ensures Assemble(ls).labels == map[]
    ensures |Assemble(ls).instructions| == |ls|
    ensures forall k :: 0 <= k < |ls| ==> Assemble(ls).instructions[k] == ls[k].instr
  {
    if ls != [] {
      AssembleInstrLines(ls[..|ls| - 1]);
    }
  }
}
