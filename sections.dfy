/** `parse_text` (task0/xvm/run.py): how the debugger cuts a program file into
    the source texts of its named functions. */
module Sections {
  import opened PyText

  /** The text that opens a function definition. */
  const Directive: string := "function \""

  /** Where a search can land: at or after its start, with room for the pattern. */
  lemma FindBounds(text: string, sub: string, from: int)
    ensures var r := Find(text, sub, from); r == -1 || (NormStart(|text|, from) <= r && r + |sub| <= |text|)
  {
  }

  /** One pass of the loop of `parse_text` over the definition whose directive
      starts at `start`: the name up to the next quote, the stripped text up to
      the next directive (or the end), and where that directive starts (-1 when
      there is none). */
  datatype Piece = Piece(name: string, body: string, next: int)

  function PieceAt(text: string, start: nat): (p: Piece)
    requires start + |Directive| <= |text|
    ensures p.next == -1 || (start < p.next && p.next + |Directive| <= |text|)
  {
    var open := start + |Directive|;
    var close := Find(text, "\"", open);
    var name := Slice(text, open, close);
    var next := Find(text, Directive, close);
    FindBounds(text, "\"", open);
    FindBounds(text, Directive, close);
    var body := if next == -1 then SliceFrom(text, close + 1) else Slice(text, close + 1, next);
    Piece(name, body, next)
  }

  /** The loop of `parse_text` from position `pos` on, given the functions found
      so far.  A later definition of the same name replaces an earlier one.
      When no definition follows, the loop would search again from -1, which
      finds nothing (`DirectiveNotAtEnd`), so this stops at once. */
  function TextsFrom(text: string, pos: nat, acc: map<string, string>): map<string, string>
    requires pos <= |text|
    decreases |text| - pos
  {
    var start := Find(text, Directive, pos);
    FindBounds(text, Directive, pos);
    if start == -1 then acc
    else
      var p := PieceAt(text, start);
      var acc' := acc[p.name := Strip(p.body)];
      if p.next == -1 then acc' else TextsFrom(text, p.next, acc')
  }

  /** What `parse_text(text)` returns: function name to stripped function text. */
  function FunctionTexts(text: string): map<string, string>
  {
    TextsFrom(text, 0, map[])
  }

  /** A search for the directive from index -1 looks only at the last character. */
  lemma DirectiveNotAtEnd(text: string)
    ensures Find(text, Directive, -1) == -1
  {
  }

  /** A text that never spells the directive holds no functions. */
  lemma NoDirectiveNoFunctions(text: string)
    requires forall i :: !OccursAt(text, Directive, i)
    ensures FunctionTexts(text) == map[]
  {
    FindNone(text, Directive, 0);
  }

  /** `parse_text(text)` */
  method ParseText(text: string) returns (functions: map<string, string>)
    ensures functions == FunctionTexts(text)
  {
    functions := map[];
    var pos := 0;
    while true
      invariant -1 <= pos <= |text|
      invariant pos == -1 ==> functions == FunctionTexts(text)
      invariant pos != -1 ==> TextsFrom(text, pos, functions) == FunctionTexts(text)
      decreases if pos == -1 then 0 else |text| + 1 - pos
    {
      DirectiveNotAtEnd(text);
      var start := Find(text, Directive, pos);
      if start == -1 {
        break;
      }
      FindBounds(text, Directive, pos);
      var piece := PieceAt(text, start);
      functions := functions[piece.name := Strip(piece.body)];
      pos := piece.next;
    }
  }

  /** One function definition as a program file spells it. */
  datatype Definition = Definition(name: string, body: string)

  function Section(d: Definition): string
  {
    Directive + d.name + "\"" + d.body
  }

  /** A program file made of the given definitions, in order. */
  function Render(ds: seq<Definition>): string
  {
    if ds == [] then "" else Section(ds[0]) + Render(ds[1..])
  }

  /** The functions found so far updated with the given definitions, in order:
      a later definition of a name replaces an earlier one. */
  function Declare(acc: map<string, string>, ds: seq<Definition>): map<string, string>
    decreases |ds|
  {
    if ds == [] then acc else Declare(acc[ds[0].name := Strip(ds[0].body)], ds[1..])
  }

  /** A definition `parse_text` reads back: the name holds no quote and the body
      ends its line and never spells the directive. */
  ghost predicate Readable(d: Definition)
  {
    && '"' !in d.name
    && d.body != [] && d.body[|d.body| - 1] == '\n'
    && forall i :: !OccursAt(d.body, Directive, i)
  }

  /** The quote that closes a name and a readable body after it hold no
      directive, not even one that would run past the body's end. */
  lemma QuietBody(text: string, close: int, body: string, end: int)
    requires 0 <= close && end == close + 1 + |body| <= |text|
    requires text[close] == '"' && text[close + 1..end] == body
    requires body != [] && body[|body| - 1] == '\n'
    requires forall i :: !OccursAt(body, Directive, i)
    ensures forall i :: close <= i < end ==> !OccursAt(text, Directive, i)
  {
    forall i | close <= i < end
      ensures !OccursAt(text, Directive, i)
    {
      if i + |Directive| <= |text| {
        var w := text[i..i + |Directive|];
        if i == close {
          assert w[0] != Directive[0];
        } else if i + |Directive| <= end {
          var j := i - close - 1;
          assert forall t | j <= t < j + |Directive| :: body[t] == text[close + 1 + t];
          assert body[j..j + |Directive|] == w;
          assert !OccursAt(body, Directive, j);
        } else {
          assert w[end - 1 - i] == body[|body| - 1];
          assert w[end - 1 - i] != Directive[end - 1 - i];
        }
      }
    }
  }

  /** A search that meets no occurrence before `at` stops there. */
  lemma FindAt(text: string, sub: string, from: nat, at: nat)
    requires from <= at && OccursAt(text, sub, at)
    requires forall i :: from <= i < at ==> !OccursAt(text, sub, i)
    ensures Find(text, sub, from) == at
  {
    FindLeast(text, sub, from);
  }

  /** A search that meets no occurrence at all fails. */
  lemma FindNone(text: string, sub: string, from: nat)
    requires forall i :: from <= i ==> !OccursAt(text, sub, i)
    ensures Find(text, sub, from) == -1
  {
    FindLeast(text, sub, from);
  }

  /** A slice of a slice of the text is a slice of the text. */
  lemma SliceWithin(text: string, p: nat, sec: string, a: nat, b: nat)
    requires p + |sec| <= |text| && text[p..p + |sec|] == sec
    requires a <= b <= |sec|
    ensures text[p + a..p + b] == sec[a..b]
  {
    forall i | 0 <= i < b - a
      ensures text[p + a..p + b][i] == sec[a..b][i]
    {
      assert text[p + a + i] == text[p..p + |sec|][a + i];
    }
  }

  /** Where the parts of a definition sit in a text that holds it at `p`. */
  lemma SectionParts(text: string, p: nat, d: Definition)
    requires p + |Section(d)| <= |text| && text[p..p + |Section(d)|] == Section(d)
    ensures |Section(d)| == |Directive| + |d.name| + 1 + |d.body|
    ensures text[p..p + |Directive|] == Directive
    ensures text[p + |Directive|..p + |Directive| + |d.name|] == d.name
    ensures text[p + |Directive| + |d.name|] == '"'
    ensures text[p + |Directive| + |d.name| + 1..p + |Section(d)|] == d.body
  {
    var sec := Section(d);
    var n := |Directive|;
    var m := n + |d.name|;
    assert sec == Directive + d.name + "\"" + d.body;
    assert sec[..n] == Directive;
    assert sec[n..m] == d.name;
    assert sec[m] == '"';
    assert sec[m + 1..] == d.body;
    SliceWithin(text, p, sec, 0, n);
    SliceWithin(text, p, sec, n, m);
    SliceWithin(text, p, sec, m + 1, |sec|);
    assert text[p + m] == text[p..p + |sec|][m];
  }

  /** The name of a definition ends at the first quote after it. */
  lemma ReadsName(text: string, open: nat, name: string)
    requires '"' !in name
    requires open + |name| < |text| && text[open..open + |name|] == name && text[open + |name|] == '"'
    ensures Find(text, "\"", open) == open + |name|
    ensures Slice(text, open, open + |name|) == name
  {
    var close := open + |name|;
    forall i | open <= i < close
      ensures !OccursAt(text, "\"", i)
    {
      assert text[i] == name[i - open];
    }
    assert OccursAt(text, "\"", close) by { assert text[close..close + 1] == "\""; }
    FindAt(text, "\"", open, close);
  }

  /** What one pass of the loop reads, given where its searches land and what
      the slices between them hold. */
  lemma PieceFrom(text: string, start: nat, close: int, next: int, name: string, body: string)
    requires start + |Directive| <= |text|
    requires Find(text, "\"", start + |Directive|) == close
    requires Find(text, Directive, close) == next
    requires Slice(text, start + |Directive|, close) == name
    requires (if next == -1 then SliceFrom(text, close + 1) else Slice(text, close + 1, next)) == body
    ensures PieceAt(text, start) == Piece(name, body, next)
  {
  }

  /** The first searches of one pass of the loop over a readable definition at
      `p`: the directive is found at `p` and the name ends at its closing quote
      `close`. */
  lemma ReadsHead(text: string, p: nat, d: Definition, close: nat, end: nat)
    requires Readable(d)
    requires close == p + |Directive| + |d.name| && end == p + |Section(d)|
    requires end <= |text| && text[p..end] == Section(d)
    ensures close < end
    ensures Find(text, Directive, p) == p
    ensures Find(text, "\"", p + |Directive|) == close
    ensures Slice(text, p + |Directive|, close) == d.name
  {
    SectionParts(text, p, d);
    assert OccursAt(text, Directive, p);
    FindAt(text, Directive, p, p);
    ReadsName(text, p + |Directive|, d.name);
  }

  /** The last search of one pass of the loop: after the name's closing quote
      the next directive is the follower's at `end`, or there is none when the
      definition is `last`, and the body lies in between. */
  lemma ReadsTail(text: string, p: nat, d: Definition, last: bool, close: nat, end: nat)
    requires Readable(d)
    requires close == p + |Directive| + |d.name| && end == p + |Section(d)|
    requires end <= |text| && text[p..end] == Section(d)
    requires last ==> end == |text|
    requires !last ==> OccursAt(text, Directive, end)
    ensures last ==> Find(text, Directive, close) == -1 && SliceFrom(text, close + 1) == d.body
    ensures !last ==> Find(text, Directive, close) == end && Slice(text, close + 1, end) == d.body
  {
    SectionParts(text, p, d);
    QuietBody(text, close, d.body, end);
    if last {
      FindNone(text, Directive, close);
    } else {
      FindAt(text, Directive, close, end);
    }
  }

  /** A readable definition at `p`, last in the text or followed by another
      directive at `end`, is read as itself, and the search goes on where the
      follower starts. */
  lemma ReadsDefinition(text: string, p: nat, d: Definition, last: bool, end: nat)
    requires Readable(d)
    requires end == p + |Section(d)| && end <= |text| && text[p..end] == Section(d)
    requires last ==> end == |text|
    requires !last ==> OccursAt(text, Directive, end)
    ensures p + |Directive| <= |text|
    ensures Find(text, Directive, p) == p
    ensures last ==> PieceAt(text, p) == Piece(d.name, d.body, -1)
    ensures !last ==> PieceAt(text, p) == Piece(d.name, d.body, end)
  {
    var close := p + |Directive| + |d.name|;
    ReadsHead(text, p, d, close, end);
    ReadsTail(text, p, d, last, close, end);
    if last {
      PieceFrom(text, p, close, -1, d.name, d.body);
    } else {
      PieceFrom(text, p, close, end, d.name, d.body);
    }
  }

  /** A text holding rendered definitions from `p` on holds the first of them
      at `p`, and the next one, if any, right after it. */
  lemma RenderedLayout(text: string, p: nat, ds: seq<Definition>)
    requires ds != [] && p <= |text| && text[p..] == Render(ds)
    ensures p + |Section(ds[0])| <= |text|
    ensures text[p..p + |Section(ds[0])|] == Section(ds[0])
    ensures text[p + |Section(ds[0])|..] == Render(ds[1..])
    ensures |ds| == 1 ==> p + |Section(ds[0])| == |text|
    ensures |ds| > 1 ==> OccursAt(text, Directive, p + |Section(ds[0])|)
  {
    var sec := Section(ds[0]);
    var end := p + |sec|;
    assert text[p..] == sec + Render(ds[1..]);
    assert text[p..end] == text[p..][..|sec|];
    assert text[end..] == text[p..][|sec|..];
    if |ds| > 1 {
      assert Render(ds[1..]) == Section(ds[1]) + Render(ds[2..]) by { assert ds[1..][1..] == ds[2..]; }
      assert Section(ds[1])[..|Directive|] == Directive;
      assert text[end..end + |Directive|] == text[end..][..|Directive|];
    } else {
      assert ds[1..] == [];
    }
  }

  /** One pass of the loop over a readable definition laid out at `p`. */
  lemma TextsFromDefinition(text: string, p: nat, d: Definition, last: bool, acc: map<string, string>, end: nat)
    requires Readable(d)
    requires end == p + |Section(d)| && end <= |text| && text[p..end] == Section(d)
    requires last ==> end == |text|
    requires !last ==> OccursAt(text, Directive, end)
    ensures last ==> TextsFrom(text, p, acc) == acc[d.name := Strip(d.body)]
    ensures !last ==> TextsFrom(text, p, acc) == TextsFrom(text, end, acc[d.name := Strip(d.body)])
  {
    ReadsDefinition(text, p, d, last, end);
  }

  /** Every definition of the list is readable. */
  ghost predicate AllReadable(ds: seq<Definition>)
  {
    ds != [] ==> Readable(ds[0]) && AllReadable(ds[1..])
  }

  /** The first pass of the loop over definitions rendered from `p` on: it
      reads the first one, `d`, and goes on at `end`, where the rest are
      rendered. */
  lemma ReadsFirst(text: string, p: nat, ds: seq<Definition>, acc: map<string, string>, end: nat, acc': map<string, string>)
    requires ds != [] && p <= |text| && text[p..] == Render(ds)
    requires AllReadable(ds)
    requires end == p + |Section(ds[0])| && acc' == acc[ds[0].name := Strip(ds[0].body)]
    ensures |ds| == 1 ==> TextsFrom(text, p, acc) == acc'
    ensures |ds| > 1 ==> end <= |text| && text[end..] == Render(ds[1..]) && AllReadable(ds[1..])
    ensures |ds| > 1 ==> TextsFrom(text, p, acc) == TextsFrom(text, end, acc')
  {
    RenderedLayout(text, p, ds);
    TextsFromDefinition(text, p, ds[0], |ds| == 1, acc, end);
  }

  /** Reading the definitions rendered from `p` on in a file. */
  lemma {:induction false} ReadsRendered(text: string, p: nat, ds: seq<Definition>, acc: map<string, string>)
    requires ds != [] && p <= |text| && text[p..] == Render(ds)
    requires AllReadable(ds)
    ensures TextsFrom(text, p, acc) == Declare(acc, ds)
    decreases |ds|
  {
    var d, rest := ds[0], ds[1..];
    var acc' := acc[d.name := Strip(d.body)];
    var end := p + |Section(d)|;
    ReadsFirst(text, p, ds, acc, end, acc');
    assert Declare(acc, ds) == Declare(acc', rest);
    if |ds| > 1 {
      ReadsRendered(text, end, rest, acc');
    }
  }

  lemma {:induction false} AllReadableOf(ds: seq<Definition>)
    requires forall j :: 0 <= j < |ds| ==> Readable(ds[j])
    ensures AllReadable(ds)
  {
    if ds != [] {
      assert forall j :: 0 <= j < |ds[1..]| ==> ds[1..][j] == ds[j + 1];
      AllReadableOf(ds[1..]);
    }
  }

  /** `parse_text` inverts rendering: a file of readable definitions yields each
      name with its body stripped, the last definition of a name winning. */
  lemma RenderedFileParses(ds: seq<Definition>)
    requires forall j :: 0 <= j < |ds| ==> Readable(ds[j])
    ensures FunctionTexts(Render(ds)) == Declare(map[], ds)
  {
    if ds != [] {
      AllReadableOf(ds);
      ReadsRendered(Render(ds), 0, ds, map[]);
    }
  }
}
