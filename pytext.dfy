/** The Python string operations the XVM's parsers rely on: `str.isspace`,
    `str.strip`, `str.split(sep)`, `str.find` and slicing with negative bounds. */
module PyText {

  /** The characters `str.isspace()` accepts. */
  predicate IsSpace(c: char)
  {
    c == ' ' || c == '\t' || c == '\n' || c == '\r' || c == '\U{b}' || c == '\U{c}'
    || ('\U{1c}' <= c <= '\U{1f}') || c == '\U{85}' || c == '\U{a0}' || c == '\U{1680}'
    || ('\U{2000}' <= c <= '\U{200a}') || c == '\U{2028}' || c == '\U{2029}' || c == '\U{202f}'
    || c == '\U{205f}' || c == '\U{3000}'
  }

  predicate AllSpace(s: string)
  {
    forall i :: 0 <= i < |s| ==> IsSpace(s[i])
  }

  /** The number of whitespace characters `s` starts with. */
  function LeadingSpaces(s: string): (n: nat)
    ensures n <= |s|
    ensures n < |s| ==> !IsSpace(s[n])
  {
    if s == [] || !IsSpace(s[0]) then 0 else 1 + LeadingSpaces(s[1..])
  }

  /** The characters `LeadingSpaces` counts, which `lstrip()` removes, are all whitespace. */
  lemma {:induction false} LeadingAllSpace(s: string)
    ensures AllSpace(s[..LeadingSpaces(s)])
    ensures AllSpace(s[..|s| - |StripLeft(s)|])
  {
    if s != [] && IsSpace(s[0]) {
      LeadingAllSpace(s[1..]);
      var n := LeadingSpaces(s);
      forall i | 0 <= i < n
        ensures IsSpace(s[..n][i])
      {
        if i > 0 {
          assert s[..n][i] == s[1..][..n - 1][i - 1];
        }
      }
    }
  }

  /** A leading whitespace character is one more for `LeadingSpaces`. */
  lemma StripLeftSpace(s: string)
    requires s != [] && IsSpace(s[0])
    ensures StripLeft(s) == StripLeft(s[1..])
  {
    var n := LeadingSpaces(s[1..]);
    assert s[1 + n..] == s[1..][n..];
  }

  /** `s.lstrip()` */
  function StripLeft(s: string): (r: string)
    ensures |r| <= |s| && r == s[|s| - |r|..]
    ensures r == [] || !IsSpace(r[0])
  {
    s[LeadingSpaces(s)..]
  }

  /** `s.rstrip()` */
  function StripRight(s: string): (r: string)
    ensures |r| <= |s| && r == s[..|r|]
    ensures r == [] || !IsSpace(r[|r| - 1])
  {
    if s == [] || !IsSpace(s[|s| - 1]) then s else StripRight(s[..|s| - 1])
  }

  /** What `rstrip()` removes is whitespace. */
  lemma {:induction false} TrailingAllSpace(s: string)
    ensures AllSpace(s[|StripRight(s)|..])
  {
    if s != [] && IsSpace(s[|s| - 1]) {
      var u := s[..|s| - 1];
      TrailingAllSpace(u);
      var k := |StripRight(u)|;
      forall i | 0 <= i < |s| - k
        ensures IsSpace(s[k..][i])
      {
        if i < |s| - k - 1 {
          assert s[k..][i] == u[k..][i];
        }
      }
    }
  }

  /** `s.strip()` */
  function Strip(s: string): string
  {
    StripRight(StripLeft(s))
  }

  /** Text that neither starts nor ends with whitespace is its own `strip()`. */
  lemma StripKeeps(s: string)
    requires s != [] && !IsSpace(s[0]) && !IsSpace(s[|s| - 1])
    ensures Strip(s) == s
  {
    StripLeftNoSpace(s);
  }

  /** Text that starts with a non-whitespace character does not strip to nothing. */
  lemma StripNotEmpty(s: string)
    requires s != [] && !IsSpace(s[0])
    ensures Strip(s) != []
  {
    StripEmptyIff(s);
  }

  /** `s.strip() == ''` holds exactly for all-whitespace text. */
  lemma StripEmptyIff(s: string)
    ensures Strip(s) == [] <==> AllSpace(s)
  {
    var n := LeadingSpaces(s);
    var l := StripLeft(s);
    LeadingAllSpace(s);
    if Strip(s) == [] {
      TrailingAllSpace(l);
      assert l == [] by {
        assert AllSpace(l[0..]);
      }
      assert s[..n] == s;
    }
  }

  /** `text.split(sep)` for a one-character separator. */
  function SplitOn(text: string, sep: char): (r: seq<string>)
    ensures |r| >= 1
    decreases |text|
  {
    if sep !in text then [text]
    else
      var i := IndexOf(text, sep);
      [text[..i]] + SplitOn(text[i + 1..], sep)
  }

  /** The first position of `c` in `s`. */
  function IndexOf(s: string, c: char): (i: nat)
    requires c in s
    ensures i < |s| && s[i] == c && c !in s[..i]
  {
    if s[0] == c then 0 else 1 + IndexOf(s[1..], c)
  }

  /** `sep.join(parts)` */
  function Join(parts: seq<string>, sep: string): string
  {
    if parts == [] then ""
    else if |parts| == 1 then parts[0]
    else parts[0] + sep + Join(parts[1..], sep)
  }

  /** Splitting and joining again with the same separator gives back the text. */
  lemma {:induction false} JoinSplitOn(text: string, sep: char)
    ensures Join(SplitOn(text, sep), [sep]) == text
    decreases |text|
  {
    if sep in text {
      var i := IndexOf(text, sep);
      var rest := SplitOn(text[i + 1..], sep);
      JoinSplitOn(text[i + 1..], sep);
      JoinCons(text[..i], rest, [sep]);
      assert text == text[..i] + [sep] + text[i + 1..];
    }
  }

  /** Joining a first piece onto at least one more. */
  lemma JoinCons(first: string, rest: seq<string>, sep: string)
    requires |rest| >= 1
    ensures Join([first] + rest, sep) == first + sep + Join(rest, sep)
  {
    assert ([first] + rest)[1..] == rest;
  }

  /** Joining pieces free of the separator and splitting again gives back the pieces. */
  lemma {:induction false} SplitOnJoin(parts: seq<string>, sep: char)
    requires |parts| >= 1
    requires forall k :: 0 <= k < |parts| ==> sep !in parts[k]
    ensures SplitOn(Join(parts, [sep]), sep) == parts
    decreases |parts|
  {
    if |parts| > 1 {
      var text := Join(parts, [sep]);
      var rest := Join(parts[1..], [sep]);
      assert text == parts[0] + [sep] + rest;
      assert sep in text by { assert text[|parts[0]|] == sep; }
      var i := IndexOf(text, sep);
      assert text[..|parts[0]|] == parts[0];
      assert text[..i] == parts[0];
      assert text[i + 1..] == rest;
      SplitOnJoin(parts[1..], sep);
    } else {
      assert Join(parts, [sep]) == parts[0];
    }
  }

  /** Lines each ended by a line break, as a program text is written. */
  function Unlines(ls: seq<string>): string
  {
    if ls == [] then "" else ls[0] + "\n" + Unlines(ls[1..])
  }

  /** Such a text is the lines and one empty last piece, joined by line breaks. */
  lemma {:induction false} UnlinesJoin(ls: seq<string>)
    ensures Unlines(ls) == Join(ls + [""], "\n")
  {
    if ls != [] {
      UnlinesJoin(ls[1..]);
      assert ls + [""] == [ls[0]] + (ls[1..] + [""]);
      JoinCons(ls[0], ls[1..] + [""], "\n");
    }
  }

  /** Whether `sub` occurs in `text` at position `i`. */
  predicate OccursAt(text: string, sub: string, i: int)
  {
    0 <= i && i + |sub| <= |text| && text[i..i + |sub|] == sub
  }

  /** The start position `str.find` uses for a given `start` argument. */
  function NormStart(len: nat, start: int): nat
  {
    if start < 0 then (if start + len < 0 then 0 else start + len) else start
  }

  /** `text.find(sub, start)`: the least occurrence at or after the normalised
      start, or -1 (`FindLeast`). */
  function Find(text: string, sub: string, start: int): (r: int)
    ensures r == -1 || (NormStart(|text|, start) <= r && r + |sub| <= |text|)
    decreases |text| - NormStart(|text|, start)
  {
    var p := NormStart(|text|, start);
    if p + |sub| > |text| then -1
    else if text[p..p + |sub|] == sub then p
    else Find(text, sub, p + 1)
  }

  /** `str.find` returns an occurrence, and none occurs between the start and
      the position it returns (or anywhere after the start when it returns -1). */
  lemma {:induction false} FindLeast(text: string, sub: string, start: int)
    ensures var r := Find(text, sub, start);
      && (r == -1 || OccursAt(text, sub, r))
      && forall i :: NormStart(|text|, start) <= i && (r == -1 || i < r) ==> !OccursAt(text, sub, i)
    decreases |text| - NormStart(|text|, start)
  {
    var p := NormStart(|text|, start);
    if p + |sub| <= |text| && text[p..p + |sub|] != sub {
      FindLeast(text, sub, p + 1);
    }
  }

  /** The bound `text[i:j]` uses for an index: negative counts from the end, clamped to the text. */
  function NormBound(len: nat, i: int): (r: nat)
    ensures r <= len
  {
    if i < 0 then (if i + len < 0 then 0 else i + len) else if i > len then len else i
  }

  /** `text[i:j]` */
  function Slice(text: string, i: int, j: int): string
  {
    var a := NormBound(|text|, i);
    var b := NormBound(|text|, j);
    if a <= b then text[a..b] else ""
  }

  /** `text[i:]` */
  function SliceFrom(text: string, i: int): string
  {
    text[NormBound(|text|, i)..]
  }

  /** Whether `s` holds a whitespace character. */
  predicate HasSpace(s: string)
  {
    s != [] && (IsSpace(s[0]) || HasSpace(s[1..]))
  }

  /** The index of the first whitespace character of `s`, or `|s|`. */
  function SpaceIndex(s: string): (n: nat)
    ensures n <= |s| && !HasSpace(s[..n])
    ensures n < |s| ==> IsSpace(s[n])
  {
    if s == [] then 0
    else if IsSpace(s[0]) then 0
    else
      var k := 1 + SpaceIndex(s[1..]);
      assert s[..k] == [s[0]] + s[1..][..k - 1];
      k
  }

  /** `s.split()`: the maximal runs of non-whitespace characters, in order. */
  function Fields(s: string): seq<string>
    decreases |s|
  {
    var t := StripLeft(s);
    if t == [] then []
    else
      var n := SpaceIndex(t);
      [t[..n]] + Fields(t[n..])
  }

  /** `s.split()` is empty exactly for all-whitespace text. */
  lemma FieldsEmptyIff(s: string)
    ensures Fields(s) == [] <==> AllSpace(s)
  {
    var n := LeadingSpaces(s);
    LeadingAllSpace(s);
    if StripLeft(s) == [] {
      assert s[..n] == s;
    }
  }

  /** Words free of whitespace, joined by single spaces, split back into themselves. */
  lemma {:induction false} FieldsOfJoin(ws: seq<string>)
    requires forall k :: 0 <= k < |ws| ==> ws[k] != [] && !HasSpace(ws[k])
    ensures Fields(Join(ws, " ")) == ws
    decreases |ws|, 1
  {
    if |ws| == 1 {
      FieldsAfterWord(ws[0], []);
      assert ws[0] + [] == Join(ws, " ");
    } else if |ws| > 1 {
      FieldsOfJoinCons(ws);
    }
  }

  /** The step of `FieldsOfJoin`: the first word, then the fields of the rest. */
  lemma {:induction false} FieldsOfJoinCons(ws: seq<string>)
    requires |ws| > 1
    requires forall k :: 0 <= k < |ws| ==> ws[k] != [] && !HasSpace(ws[k])
    ensures Fields(Join(ws, " ")) == ws
    decreases |ws|, 0
  {
    var rest := Join(ws[1..], " ");
    var tail := " " + rest;
    assert Join(ws, " ") == ws[0] + tail;
    assert Fields(ws[0] + tail) == [ws[0]] + Fields(tail) by {
      assert IsSpace(tail[0]);
      FieldsAfterWord(ws[0], tail);
    }
    assert Fields(tail) == ws[1..] by {
      FieldsLeadingSpace(rest);
      FieldsOfJoin(ws[1..]);
    }
    ConsTail(ws);
  }

  /** A non-empty sequence is its head followed by its tail. */
  lemma ConsTail<T>(s: seq<T>)
    requires |s| >= 1
    ensures [s[0]] + s[1..] == s
  {
  }

  /** A leading space does not change the fields. */
  lemma FieldsLeadingSpace(rest: string)
    ensures Fields(" " + rest) == Fields(rest)
  {
    assert (" " + rest)[1..] == rest;
    StripLeftSpace(" " + rest);
  }

  /** A word free of whitespace followed by nothing or by whitespace is the first field. */
  lemma FieldsAfterWord(w: string, rest: string)
    requires w != [] && !HasSpace(w)
    requires rest == [] || IsSpace(rest[0])
    ensures Fields(w + rest) == [w] + Fields(rest)
  {
    var s := w + rest;
    assert !IsSpace(s[0]);
    StripLeftNoSpace(s);
    SpaceIndexAfterWord(w, rest);
    assert s[..|w|] == w && s[|w|..] == rest;
    if rest == [] {
      assert Fields([]) == [];
    } else {
      StripLeftSpace(rest);
    }
  }

  /** A word free of whitespace, followed by nothing or by whitespace, ends where `SpaceIndex` stops. */
  lemma {:induction false} SpaceIndexAfterWord(w: string, rest: string)
    requires !HasSpace(w)
    requires rest == [] || IsSpace(rest[0])
    ensures SpaceIndex(w + rest) == |w|
    decreases |w|
  {
    if w != [] {
      assert !IsSpace(w[0]);
      SpaceIndexAfterWord(w[1..], rest);
      assert (w + rest)[1..] == w[1..] + rest;
    } else {
      assert w + rest == rest;
    }
  }

  /** Text starting with a non-space character is left alone by `StripLeft`. */
  lemma StripLeftNoSpace(s: string)
    requires s != [] && !IsSpace(s[0])
    ensures StripLeft(s) == s
  {
    assert s[0..] == s;
  }
}
