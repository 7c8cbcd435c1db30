/** `parse_string` (task0/xvm/vm.py): text to a function's instruction list and
    label table. */
module Parser {
  import opened Values
  import opened PyText
  import opened Convert

  datatype ParseError =
    | MissingOpcode                  // the line holds only quotes and spaces: `elements[0]` fails
    | UnknownOpcode(token: Value)    // the first element is not an OpCode member name
    | TooManyArgs(count: nat)        // more than two arguments
    | LabelArity(count: nat)         // LABEL without exactly one argument
    | LabelNotString(arg: Value)     // LABEL whose argument is not a string

  datatype Result<T> = Ok(value: T) | Err(error: ParseError)

  /** The raw tokens of `s`, given the element scanned so far and whether the scan
      is inside quotes: a quote toggles quoting and is dropped, a space outside
      quotes ends a non-empty element, every other character extends it. */
  function Scan(s: string, element: string, quoted: bool): seq<string>
  {
    if s == [] then (if element != [] then [element] else [])
    else if s[0] == '"' then Scan(s[1..], element, !quoted)
    else if s[0] == ' ' && !quoted then (if element != [] then [element] else []) + Scan(s[1..], [], quoted)
    else Scan(s[1..], element + [s[0]], quoted)
  }

  /** The raw tokens of a line. */
  function Words(line: string): seq<string>
  {
    Scan(line, [], false)
  }

  /** `[convert_to_number(w) for w in ws]` */
  function Converted(ws: seq<string>): (vs: seq<Value>)
    ensures |vs| == |ws|
  {
    seq(|ws|, k requires 0 <= k < |ws| => ConvertToNumber(ws[k]))
  }

  /** The inner loop of `parse_string`: split one line into converted elements. */
  method SplitLine(line: string) returns (elements: seq<Value>)
    ensures elements == Converted(Words(line))
  {
    elements := [];
    ghost var words: seq<string> := [];
    var element := "";
    var quoted := false;
    for i := 0 to |line|
      invariant words + Scan(line[i..], element, quoted) == Words(line)
      invariant elements == Converted(words)
    {
      var c := line[i];
      assert line[i..][0] == c && line[i..][1..] == line[i + 1..];
      if c == '"' {
        quoted := !quoted;
      } else if c == ' ' && !quoted {
        if element != "" {
          elements := elements + [ConvertToNumber(element)];
          words := words + [element];
          element := "";
        }
      } else {
        element := element + [c];
      }
    }
    assert line[|line|..] == [];
    if element != "" {
      elements := elements + [ConvertToNumber(element)];
      words := words + [element];
    }
    assert words == Words(line);
  }

  /** A scanned token is never empty and never holds a quote. */
  lemma {:induction false} ScanTokens(s: string, element: string, quoted: bool)
    requires '"' !in element
    ensures forall k :: 0 <= k < |Scan(s, element, quoted)| ==>
      Scan(s, element, quoted)[k] != [] && '"' !in Scan(s, element, quoted)[k]
    decreases |s|
  {
    if s != [] {
      if s[0] == '"' {
        ScanTokens(s[1..], element, !quoted);
      } else if s[0] == ' ' && !quoted {
        ScanTokens(s[1..], [], quoted);
      } else {
        ScanTokens(s[1..], element + [s[0]], quoted);
      }
    }
  }

  /** Outside quotes, a run of characters with no space or quote is one token. */
  lemma {:induction false} ScanPlainRun(w: string, rest: string, element: string)
    requires ' ' !in w && '"' !in w
    ensures Scan(w + rest, element, false) == Scan(rest, element + w, false)
    decreases |w|
  {
    if w == [] {
      assert w + rest == rest && element + w == element;
    } else {
      var s := w + rest;
      assert s[0] == w[0] && s[1..] == w[1..] + rest;
      assert w[0] != ' ' && w[0] != '"';
      assert Scan(s, element, false) == Scan(w[1..] + rest, element + [w[0]], false);
      assert ' ' !in w[1..] && '"' !in w[1..];
      ScanPlainRun(w[1..], rest, element + [w[0]]);
      assert element + [w[0]] + w[1..] == element + w;
    }
  }

  /** Inside quotes everything but a quote, spaces included, joins the element. */
  lemma {:induction false} ScanQuotedRun(w: string, rest: string, element: string)
    requires '"' !in w
    ensures Scan(w + rest, element, true) == Scan(rest, element + w, true)
    decreases |w|
  {
    if w == [] {
      assert w + rest == rest && element + w == element;
    } else {
      var s := w + rest;
      assert s[0] == w[0] && s[1..] == w[1..] + rest;
      assert w[0] != '"';
      assert Scan(s, element, true) == Scan(w[1..] + rest, element + [w[0]], true);
      assert '"' !in w[1..];
      ScanQuotedRun(w[1..], rest, element + [w[0]]);
      assert element + [w[0]] + w[1..] == element + w;
    }
  }

  /** Joining words that hold no space or quote with single spaces and splitting
      the line again gives back the words. */
  lemma {:induction false} WordsOfJoin(ws: seq<string>)
    requires |ws| >= 1
    requires forall k :: 0 <= k < |ws| ==> ws[k] != [] && ' ' !in ws[k] && '"' !in ws[k]
    ensures Words(Join(ws, " ")) == ws
  {
    JoinScan(ws, []);
    assert Join(ws, " ") + [] == Join(ws, " ");
    assert ws + Scan([], [], false) == ws;
  }

  lemma {:induction false} JoinScan(ws: seq<string>, rest: string)
    requires |ws| >= 1
    requires forall k :: 0 <= k < |ws| ==> ws[k] != [] && ' ' !in ws[k] && '"' !in ws[k]
    requires rest == [] || rest[0] == ' '
    ensures Scan(Join(ws, " ") + rest, [], false) == ws + Scan(rest, [], false)
    decreases |ws|
  {
    if |ws| == 1 {
      assert Join(ws, " ") == ws[0];
      ScanPlainRun(ws[0], rest, []);
      assert [] + ws[0] == ws[0];
      if rest == [] {
        assert Scan(rest, ws[0], false) == [ws[0]];
      } else {
        assert Scan(rest, ws[0], false) == [ws[0]] + Scan(rest[1..], [], false);
        assert Scan(rest, [], false) == Scan(rest[1..], [], false);
      }
    } else {
      var tail := Join(ws[1..], " ") + rest;
      assert Join(ws, " ") + rest == ws[0] + (" " + tail);
      ScanPlainRun(ws[0], " " + tail, []);
      assert [] + ws[0] == ws[0];
      assert (" " + tail)[1..] == tail;
      assert Scan(" " + tail, ws[0], false) == [ws[0]] + Scan(tail, [], false);
      assert Join(ws[1..], " ")[0] != ' ' by { assert Join(ws[1..], " ")[0] == ws[1][0]; }
      JoinScan(ws[1..], rest);
      assert ws == [ws[0]] + ws[1..];
    }
  }

  /** A quoted argument is one token, spaces and all (`CJMP "Power 0"`). */
  lemma QuotedArgument(op: string, arg: string)
    requires op != [] && ' ' !in op && '"' !in op
    requires arg != [] && '"' !in arg
    ensures Words(op + " \"" + arg + "\"") == [op, arg]
  {
    var r2 := "\"" + arg + "\"";
    var r1 := " " + r2;
    assert op + " \"" + arg + "\"" == op + r1;
    ScanPlainRun(op, r1, []);
    assert [] + op == op;
    assert r1[0] == ' ' && r1[1..] == r2;
    assert Scan(r1, op, false) == [op] + Scan(r2, [], false);
    assert r2[0] == '"' && r2[1..] == arg + "\"";
    assert Scan(r2, [], false) == Scan(arg + "\"", [], true);
    ScanQuotedRun(arg, "\"", []);
    assert [] + arg == arg;
    assert Scan("\"", arg, true) == Scan([], arg, false) == [arg];
  }

  /** What one non-blank line contributes. */
  datatype Line = InstrLine(instr: Instr) | LabelLine(name: string)

  /** The checks `parse_string` applies to a line's elements, in its order. */
  function ParseLine(elements: seq<Value>): (r: Result<Line>)
    ensures r.Ok? && r.value.InstrLine? ==>
      && elements != [] && elements[0] == StrV(Name(r.value.instr.opcode))
      && r.value.instr.opcode != Label && |r.value.instr.args| <= 2 && r.value.instr.args == elements[1..]
    ensures r.Ok? && r.value.LabelLine? ==> elements == [StrV(Name(Label)), StrV(r.value.name)]
    ensures r.Err? <==>
      || elements == []
      || !elements[0].StrV? || FromName(elements[0].s).None?
      || |elements| > 3
      || (elements[0] == StrV("LABEL") && (|elements| != 2 || !elements[1].StrV?))
  {
    if elements == [] then Err(MissingOpcode)
    else if !elements[0].StrV? || FromName(elements[0].s).None? then Err(UnknownOpcode(elements[0]))
    else if |elements| > 3 then Err(TooManyArgs(|elements| - 1))
    else
      var op := FromName(elements[0].s).value;
      if op == Label then
        if |elements| != 2 then Err(LabelArity(|elements| - 1))
        else if !elements[1].StrV? then Err(LabelNotString(elements[1]))
        else Ok(LabelLine(elements[1].s))
      else Ok(InstrLine(Instr(op, elements[1..])))
  }

  /** The code built from the lines parsed so far: an instruction is appended; a
      label records the number of instructions so far, the index of the next one. */
  function Assemble(ls: seq<Line>): Code
  {
    if ls == [] then Code([], map[])
    else
      var c := Assemble(ls[..|ls| - 1]);
      match ls[|ls| - 1]
      case InstrLine(i) => Code(c.instructions + [i], c.labels)
      case LabelLine(n) => Code(c.instructions, c.labels[n := |c.instructions|])
  }

  /** The lines `parse_string` keeps: `line.strip() != ''`. */
  function NonBlank(lines: seq<string>): seq<string>
  {
    if lines == [] then []
    else if Strip(lines[0]) == [] then NonBlank(lines[1..])
    else [lines[0]] + NonBlank(lines[1..])
  }

  /** One line as `parse_string` reads it. */
  function LineOf(line: string): Result<Line>
  {
    ParseLine(Converted(Words(line)))
  }

  /** Combining the lines' parses: the first error, or every line in order. */
  function Collect(rs: seq<Result<Line>>): Result<seq<Line>>
  {
    if rs == [] then Ok([])
    else match Collect(rs[..|rs| - 1])
      case Err(e) => Err(e)
      case Ok(ls) =>
        match rs[|rs| - 1]
        case Err(e) => Err(e)
        case Ok(l) => Ok(ls + [l])
  }

  /** Parsing a list of non-blank lines: the first failing line's error, or the
      lines' parses. */
  function ParseLines(lines: seq<string>): Result<seq<Line>>
  {
    Collect(seq(|lines|, k requires 0 <= k < |lines| => LineOf(lines[k])))
  }

  /** The code `parse_string(text)` returns, or the error it fails with. */
  function ParseText(text: string): Result<Code>
  {
    match ParseLines(NonBlank(SplitOn(text, '\n')))
    case Err(e) => Err(e)
    case Ok(ls) => Ok(Assemble(ls))
  }

  /** Once a prefix of the parses fails, so does the whole list. */
  lemma {:induction false} CollectPrefixErr(rs: seq<Result<Line>>, i: nat)
    requires i <= |rs| && Collect(rs[..i]).Err?
    ensures Collect(rs) == Collect(rs[..i])
    decreases |rs| - i
  {
    if i < |rs| {
      assert rs[..i + 1][..i] == rs[..i];
      CollectPrefixErr(rs, i + 1);
    } else {
      assert rs[..i] == rs;
    }
  }

  lemma CollectStep(rs: seq<Result<Line>>, i: nat)
    requires i < |rs|
    ensures Collect(rs[..i + 1]) ==
      match Collect(rs[..i])
      case Err(e) => Err(e)
      case Ok(ls) => (match rs[i] case Err(e) => Err(e) case Ok(l) => Ok(ls + [l]))
  {
    assert rs[..i + 1][..i] == rs[..i];
  }

  lemma AssembleInstr(ls: seq<Line>, i: Instr)
    ensures Assemble(ls + [InstrLine(i)]) == Code(Assemble(ls).instructions + [i], Assemble(ls).labels)
  {
    assert (ls + [InstrLine(i)])[..|ls|] == ls;
  }

  lemma AssembleLabel(ls: seq<Line>, n: string)
    ensures Assemble(ls + [LabelLine(n)])
      == Code(Assemble(ls).instructions, Assemble(ls).labels[n := |Assemble(ls).instructions|])
  {
    assert (ls + [LabelLine(n)])[..|ls|] == ls;
  }

  /** `parse_string` */
  method ParseString(text: string) returns (r: Result<Code>)
    ensures r == ParseText(text)
  {
    var lines := NonBlank(SplitOn(text, '\n'));
    ghost var rs := seq(|lines|, k requires 0 <= k < |lines| => LineOf(lines[k]));
    var instructions: seq<Instr> := [];
    var labels: map<string, nat> := map[];
    ghost var ls: seq<Line> := [];
    for i := 0 to |lines|
      invariant Collect(rs[..i]) == Ok(ls)
      invariant Assemble(ls) == Code(instructions, labels)
    {
      var elements := SplitLine(lines[i]);
      var line := ParseLine(elements);
      assert line == rs[i];
      CollectStep(rs, i);
      if line.Err? {
        CollectPrefixErr(rs, i + 1);
        return Err(line.error);
      }
      var l := line.value;
      if l.LabelLine? {
        AssembleLabel(ls, l.name);
        labels := labels[l.name := |instructions|];
      } else {
        AssembleInstr(ls, l.instr);
        instructions := instructions + [l.instr];
      }
      ls := ls + [l];
    }
    assert rs[..|lines|] == rs;
    r := Ok(Code(instructions, labels));
  }

  /** Parsing succeeds exactly when every line does. */
  lemma {:induction false} CollectOkIff(rs: seq<Result<Line>>)
    ensures Collect(rs).Ok? <==> forall k :: 0 <= k < |rs| ==> rs[k].Ok?
  {
    if rs != [] {
      var init := rs[..|rs| - 1];
      CollectOkIff(init);
      assert forall k :: 0 <= k < |init| ==> init[k] == rs[k];
    }
  }

  /** A successful parse yields each line's parse, in order. */
  lemma {:induction false} CollectValues(rs: seq<Result<Line>>)
    requires Collect(rs).Ok?
    ensures |Collect(rs).value| == |rs|
    ensures forall k :: 0 <= k < |rs| ==> rs[k] == Ok(Collect(rs).value[k])
  {
    if rs != [] {
      var init := rs[..|rs| - 1];
      CollectValues(init);
      assert forall k :: 0 <= k < |init| ==> init[k] == rs[k];
    }
  }

  /** A failing parse reports the error of the first failing line. */
  lemma {:induction false} CollectErr(rs: seq<Result<Line>>)
    requires Collect(rs).Err?
    ensures exists k :: (0 <= k < |rs| && rs[k] == Err(Collect(rs).error)
                         && forall j :: 0 <= j < k ==> rs[j].Ok?)
  {
    var init := rs[..|rs| - 1];
    assert forall k :: 0 <= k < |init| ==> init[k] == rs[k];
    if Collect(init).Err? {
      CollectErr(init);
      var k :| 0 <= k < |init| && init[k] == Err(Collect(init).error)
        && (forall j :: 0 <= j < k ==> init[j].Ok?);
      assert rs[k] == Err(Collect(rs).error);
    } else {
      CollectOkIff(init);
    }
  }

  /** The instructions of the assembled code are those of the instruction lines,
      in order: none is a LABEL, and none has more than two arguments. */
  lemma {:induction false} AssembleInstructions(ls: seq<Line>)
    requires forall k :: 0 <= k < |ls| && ls[k].InstrLine? ==>
      ls[k].instr.opcode != Label && |ls[k].instr.args| <= 2
    ensures forall j :: 0 <= j < |Assemble(ls).instructions| ==>
      Assemble(ls).instructions[j].opcode != Label && |Assemble(ls).instructions[j].args| <= 2
    ensures forall n :: n in Assemble(ls).labels ==> Assemble(ls).labels[n] <= |Assemble(ls).instructions|
  {
    if ls != [] {
      AssembleInstructions(ls[..|ls| - 1]);
    }
  }

  /** The instructions before position `k` of the line list are a prefix of all
      the instructions. */
  lemma {:induction false} AssemblePrefix(ls: seq<Line>, k: nat)
    requires k <= |ls|
    ensures Assemble(ls[..k]).instructions <= Assemble(ls).instructions
    decreases |ls|
  {
    if k < |ls| {
      AssemblePrefix(ls[..|ls| - 1], k);
      assert ls[..|ls| - 1][..k] == ls[..k];
    } else {
      assert ls[..k] == ls;
    }
  }

  /** A label names the position of the next instruction: for the last LABEL line
      of a name, the table holds the number of instructions before it, and the
      first instruction line after it (if any) sits at that index. */
  lemma {:induction false} LabelIndex(ls: seq<Line>, k: nat, n: string)
    requires k < |ls| && ls[k] == LabelLine(n)
    requires forall j :: k < j < |ls| ==> ls[j] != LabelLine(n)
    ensures n in Assemble(ls).labels
    ensures Assemble(ls).labels[n] == |Assemble(ls[..k]).instructions|
    decreases |ls|
  {
    if k == |ls| - 1 {
      assert ls[..|ls| - 1] == ls[..k];
    } else {
      var init := ls[..|ls| - 1];
      LabelIndex(init, k, n);
      assert init[..k] == ls[..k];
    }
  }

  lemma {:induction false} LabelTarget(ls: seq<Line>, k: nat, n: string, j: nat)
    requires k < j < |ls| && ls[k] == LabelLine(n) && ls[j].InstrLine?
    requires forall i :: k < i < |ls| ==> ls[i] != LabelLine(n)
    requires forall i :: k < i < j ==> ls[i].LabelLine?
    ensures n in Assemble(ls).labels
    ensures Assemble(ls).labels[n] < |Assemble(ls).instructions|
    ensures Assemble(ls).instructions[Assemble(ls).labels[n]] == ls[j].instr
  {
    LabelIndex(ls, k, n);
    SkipLabels(ls[..j], k);
    assert ls[..j][..k] == ls[..k];
    assert ls[..j + 1][..j] == ls[..j] && ls[..j + 1][j] == ls[j];
    var before := Assemble(ls[..j]).instructions;
    assert Assemble(ls[..j + 1]).instructions == before + [ls[j].instr];
    AssemblePrefix(ls, j + 1);
    assert Assemble(ls).instructions[|before|] == (before + [ls[j].instr])[|before|];
  }

  /** Label lines add no instruction. */
  lemma {:induction false} SkipLabels(ls: seq<Line>, k: nat)
    requires k <= |ls|
    requires forall i :: k <= i < |ls| ==> ls[i].LabelLine?
    ensures Assemble(ls).instructions == Assemble(ls[..k]).instructions
    decreases |ls|
  {
    if k < |ls| {
      SkipLabels(ls[..|ls| - 1], k);
      assert ls[..|ls| - 1][..k] == ls[..k];
    } else {
      assert ls[..k] == ls;
    }
  }

  /** Every label in the table comes from a LABEL line. */
  lemma {:induction false} LabelKeys(ls: seq<Line>, n: string)
    ensures n in Assemble(ls).labels <==> exists k :: 0 <= k < |ls| && ls[k] == LabelLine(n)
  {
    if ls != [] {
      var init := ls[..|ls| - 1];
      LabelKeys(init, n);
      if n in Assemble(init).labels {
        var k :| 0 <= k < |init| && init[k] == LabelLine(n);
        assert ls[k] == LabelLine(n);
      }
      if exists k :: 0 <= k < |ls| && ls[k] == LabelLine(n) {
        var k :| 0 <= k < |ls| && ls[k] == LabelLine(n);
        if k < |init| { assert init[k] == LabelLine(n); }
      }
    }
  }
}
