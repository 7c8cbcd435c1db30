/** `from_stdin_number` (task0/xvm/run.py): the numbers the user types when the
    debugger reaches an INPUT_NUMBER. */
module TypedNumbers {
  import opened Values
  import opened PyText
  import opened Convert
  import opened Parser
  import opened Interpreter
  import opened InterpreterFacts

  predicate AllNumbers(vs: seq<Value>)
  {
    forall k :: 0 <= k < |vs| ==> vs[k].IsNumber()
  }

  /** What `from_stdin_number` makes of the words typed: each word converted as
      `int(s)`, else `float(s)`; None (ValueError) as soon as one is neither. */
  function NumbersOf(words: seq<string>): Option<seq<Value>>
  {
    var vs := Converted(words);
    if AllNumbers(vs) then Some(vs) else None
  }

  /** `from_stdin_number()` reading `line`. */
  function Numbers(line: string): Option<seq<Value>>
  {
    NumbersOf(Fields(line))
  }

  /** The typed words are accepted exactly when `int()` or `float()` takes each of them. */
  lemma NumbersIff(words: seq<string>)
    ensures NumbersOf(words).Some? <==> forall k :: 0 <= k < |words| ==> ParseInt(words[k]).Some? || IsFloatLiteral(words[k])
    ensures NumbersOf(words).Some? ==> |NumbersOf(words).value| == |words|
  {
    var vs := Converted(words);
    forall k | 0 <= k < |words|
      ensures vs[k].IsNumber() <==> ParseInt(words[k]).Some? || IsFloatLiteral(words[k])
    {
      assert vs[k] == ConvertToNumber(words[k]);
    }
  }

  /** `from_stdin_number()`: split the typed line, then convert its words. */
  method FromStdinNumber(line: string) returns (r: Option<seq<Value>>)
    ensures r == Numbers(line)
  {
    var inputs := Fields(line);
    r := ToNumbers(inputs);
  }

  /** The loop of `from_stdin_number`. */
  method ToNumbers(inputs: seq<string>) returns (r: Option<seq<Value>>)
    ensures r == NumbersOf(inputs)
  {
    var numbers := [];
    for k := 0 to |inputs|
      invariant numbers == Converted(inputs)[..k]
      invariant AllNumbers(numbers)
    {
      var v := ConvertToNumber(inputs[k]);
      if !v.IsNumber() {
        assert Converted(inputs)[k] == v;
        return None;
      }
      numbers := numbers + [v];
    }
    assert numbers == Converted(inputs);
    return Some(numbers);
  }

  /** The debugger hands the typed numbers to the VM as its input buffer; the
      INPUT_NUMBER it then runs pushes the first of them. */
  lemma TypedInputNumber(line: string, m: Machine, t: Table, c: Code, ip: int, fm: FloatModel)
    requires Numbers(line).Some? && Numbers(line).value != []
    requires At(m, t, c, ip, Instr(InputNumber, []))
    ensures var vs := Numbers(line).value;
      Advance(m.(input := vs), t, fm) == Some(m.(stack := m.stack + [vs[0]], input := vs[1..], ip := ip + 1))
  {
    var vs := Numbers(line).value;
    assert vs[0].IsNumber();
    InputNumberAdvance(m.(input := vs), t, c, ip, fm);
  }
}
