/**
 * The build step that compiles the instruction documentation: a markdown
 * file made of `## name` sections becomes a table from instruction names
 * to their text (`parse_instruction_docs`), which is then written out as
 * Rust source (`generate_rust_code`).
 */
module BuildDocs {
  import opened Wrappers
  import opened Text

  // ---------------------------------------------------------------------
  // Line-ending normalisation
  // ---------------------------------------------------------------------

  /** `replace("\r\n", "\n")`: every CR LF pair, scanned left to right, becomes LF. */
  function NormaliseLineEndings(s: string): (r: string)
    ensures |r| <= |s|
    decreases |s|
  {
    if |s| >= 2 && s[0] == '\r' && s[1] == '\n' then "\n" + NormaliseLineEndings(s[2..])
    else if s == [] then []
    else [s[0]] + NormaliseLineEndings(s[1..])
  }

  /** The same text written with Windows line endings. */
  function WithCrLf(s: string): string
  {
    ReplaceChar(s, '\n', "\r\n")
  }

  /** Text without carriage returns is left as it is. */
  lemma {:induction false} NormaliseWithoutCr(s: string)
    requires '\r' !in s
    ensures NormaliseLineEndings(s) == s
    decreases |s|
  {
    if s != [] {
      assert '\r' !in s[1..] by {
        forall k | 0 <= k < |s| - 1 ensures s[1..][k] != '\r' { assert s[1..][k] == s[k + 1]; }
      }
      NormaliseWithoutCr(s[1..]);
      assert s == [s[0]] + s[1..];
    }
  }

  /** Normalising a text written with Windows line endings gives back the Unix text. */
  lemma {:induction false} NormaliseUndoesCrLf(s: string)
    requires '\r' !in s
    ensures NormaliseLineEndings(WithCrLf(s)) == s
    decreases |s|
  {
    if s != [] {
      assert '\r' !in s[1..] by {
        forall k | 0 <= k < |s| - 1 ensures s[1..][k] != '\r' { assert s[1..][k] == s[k + 1]; }
      }
      NormaliseUndoesCrLf(s[1..]);
      var rest := WithCrLf(s[1..]);
      if s[0] == '\n' {
        assert WithCrLf(s) == "\r\n" + rest;
        assert ("\r\n" + rest)[2..] == rest;
      } else {
        assert WithCrLf(s) == [s[0]] + rest;
        assert ([s[0]] + rest)[1..] == rest;
      }
      assert s == [s[0]] + s[1..];
    }
  }

  // ---------------------------------------------------------------------
  // The section parser, as a function of the lines read so far
  // ---------------------------------------------------------------------

  /**
   * The parser's state: the instruction being collected, its lines so far,
   * whether a code fence is open, and the table built so far.
   */
  datatype Collector = Collector(name: Option<string>, lines: seq<string>, inCode: bool, docs: map<string, string>)

  const START: Collector := Collector(None, [], false, map[])

  /** The lines without their trailing empty lines. */
  function DropTrailingEmpty(ls: seq<string>): (r: seq<string>)
    ensures |r| <= |ls| && r == ls[..|r|]
    ensures r != [] ==> r[|r| - 1] != ""
    ensures forall i :: |r| <= i < |ls| ==> ls[i] == ""
  {
    if ls != [] && ls[|ls| - 1] == "" then DropTrailingEmpty(ls[..|ls| - 1]) else ls
  }

  /**
   * Saving the current instruction: its lines, without trailing empty
   * lines and joined by newlines, become its entry unless nothing is left;
   * the name and the lines are then cleared. Without a current instruction
   * nothing happens.
   */
  function Saved(c: Collector): Collector
  {
    match c.name
    case None => c
    case Some(n) =>
      var kept := DropTrailingEmpty(c.lines);
      Collector(None, [], c.inCode, if kept != [] then c.docs[n := Join(kept, "\n")] else c.docs)
  }

  /** `starts_with("```")`, compared character by character. */
  predicate IsFence(trimmed: string)
  {
    |trimmed| >= 3 && trimmed[0] == '`' && trimmed[1] == '`' && trimmed[2] == '`'
  }

  /** One line of the document read in state `c`. */
  function Step(c: Collector, line: string): Collector
  {
    StepTrimmed(c, line, Trim(line))
  }

  /** One line read, given its trimmed form. */
  function StepTrimmed(c: Collector, line: string, trimmed: string): Collector
  {
    if IsFence(trimmed) then
      c.(inCode := !c.inCode, lines := if c.name.Some? then c.lines + [trimmed] else c.lines)
    else if c.inCode then
      c.(lines := if c.name.Some? then c.lines + [line] else c.lines)
    else if trimmed == "---" then
      Saved(c)
    else if StartsWith(trimmed, "## ") then
      Saved(c).(name := Some(Trim(trimmed[3..])))
    else if StartsWith(trimmed, "# ") then
      c
    else if c.name.Some? && (trimmed != "" || c.lines != []) then
      c.(lines := c.lines + [trimmed])
    else
      c
  }

  /** The state after reading `ls` from `c`. */
  function Run(c: Collector, ls: seq<string>): Collector
    decreases |ls|
  {
    if ls == [] then c else Step(Run(c, ls[..|ls| - 1]), ls[|ls| - 1])
  }

  /** The table built from a whole document. */
  function ParseDocs(content: string): map<string, string>
  {
    Saved(Run(START, Lines(NormaliseLineEndings(content)))).docs
  }

  // ---------------------------------------------------------------------
  // The parser as the build script runs it
  // ---------------------------------------------------------------------

  /** The save step, with its loop popping trailing empty lines. */
  method SaveInstruction(name: Option<string>, lines: seq<string>, docs: map<string, string>)
    returns (name': Option<string>, lines': seq<string>, docs': map<string, string>)
    ensures Collector(name', lines', false, docs') == Saved(Collector(name, lines, false, docs))
  {
    name', lines', docs' := name, lines, docs;
    if name.Some? {
      var n := name.value;
      name' := None;
      while |lines'| > 0 && lines'[|lines'| - 1] == ""
        invariant DropTrailingEmpty(lines') == DropTrailingEmpty(lines)
      {
        lines' := lines'[..|lines'| - 1];
      }
      if |lines'| > 0 {
        docs' := docs'[n := Join(lines', "\n")];
      }
      lines' := [];
    }
  }

  /** The body of the parser's loop: one line read, with the state held in locals. */
  method ReadLine(instructionName: Option<string>, docLines: seq<string>, inCodeBlock: bool,
                  docs: map<string, string>, line: string)
    returns (name': Option<string>, lines': seq<string>, inCode': bool, docs': map<string, string>)
    ensures Collector(name', lines', inCode', docs') == Step(Collector(instructionName, docLines, inCodeBlock, docs), line)
  {
    name', lines', inCode', docs' := instructionName, docLines, inCodeBlock, docs;
    var trimmed := Trim(line);
    if IsFence(trimmed) {
      inCode' := !inCodeBlock;
      if instructionName.Some? {
        lines' := docLines + [trimmed];
      }
    } else if inCodeBlock {
      if instructionName.Some? {
        lines' := docLines + [line];
      }
    } else if trimmed == "---" {
      name', lines', docs' := SaveInstruction(instructionName, docLines, docs);
    } else if StartsWith(trimmed, "## ") {
      name', lines', docs' := SaveInstruction(instructionName, docLines, docs);
      name' := Some(Trim(trimmed[3..]));
    } else if StartsWith(trimmed, "# ") {
    } else if instructionName.Some? {
      if trimmed != "" || docLines != [] {
        lines' := docLines + [trimmed];
      }
    }
  }

  /** The loop of `parse_instruction_docs` over the lines of the document. */
  method ReadLines(lines: seq<string>)
    returns (instructionName: Option<string>, docLines: seq<string>, inCodeBlock: bool, docs: map<string, string>)
    ensures Collector(instructionName, docLines, inCodeBlock, docs) == Run(START, lines)
  {
    instructionName, docLines, inCodeBlock, docs := None, [], false, map[];
    for i := 0 to |lines|
      invariant Collector(instructionName, docLines, inCodeBlock, docs) == Run(START, lines[..i])
    {
      assert lines[..i + 1][..i] == lines[..i];
      instructionName, docLines, inCodeBlock, docs := ReadLine(instructionName, docLines, inCodeBlock, docs, lines[i]);
    }
    assert lines[..|lines|] == lines;
  }

  /** `parse_instruction_docs`: the line endings normalised, every line read, then the last instruction saved. */
  method ParseInstructionDocs(content: string) returns (docs: map<string, string>)
    ensures docs == ParseDocs(content)
  {
    var normalized := NormaliseLineEndings(content);
    var instructionName, docLines, inCodeBlock;
    instructionName, docLines, inCodeBlock, docs := ReadLines(Lines(normalized));
    var last := Collector(instructionName, docLines, inCodeBlock, docs);
    assert Saved(last).docs == Saved(last.(inCode := false)).docs;
    instructionName, docLines, docs := SaveInstruction(instructionName, docLines, docs);
  }

  // ---------------------------------------------------------------------
  // What the parser recovers from a well-formed document
  // ---------------------------------------------------------------------

  /**
   * One documented instruction as written in the markdown file: its
   * `## name` header, blank lines, the text, more blank lines, and an
   * optional `---` separator.
   */
  datatype Entry = Entry(name: string, lead: nat, body: seq<string>, trail: nat, closed: bool)

  function Blanks(n: nat): seq<string> { seq(n, _ => "") }

  function EntryLines(e: Entry): seq<string>
  {
    ["## " + e.name] + Blanks(e.lead) + e.body + Blanks(e.trail) + (if e.closed then ["---"] else [])
  }

  function EntriesLines(es: seq<Entry>): seq<string>
  {
    if es == [] then [] else EntriesLines(es[..|es| - 1]) + EntryLines(es[|es| - 1])
  }

  /** The lines written out, each ended by a newline. */
  function Unlines(ls: seq<string>): string
  {
    if ls == [] then "" else ls[0] + "\n" + Unlines(ls[1..])
  }

  /** A document: a `# title` line, then the entries. */
  function Document(title: string, es: seq<Entry>): string
  {
    Unlines(["# " + title] + EntriesLines(es))
  }

  predicate OneLine(l: string) { '\n' !in l && '\r' !in l }

  /** A line of text that the parser takes as it is: no marker, no fence, no surrounding whitespace. */
  predicate PlainLine(l: string)
  {
    OneLine(l) && Trim(l) == l && !IsFence(l) && l != "---" && !StartsWith(l, "## ") && !StartsWith(l, "# ")
  }

  predicate WellFormed(e: Entry)
  {
    && e.name != "" && OneLine(e.name) && Trim(e.name) == e.name
    && (forall l :: l in e.body ==> PlainLine(l))
    && (e.body != [] ==> e.body[0] != "" && e.body[|e.body| - 1] != "")
  }

  /** The table entry an instruction contributes: its text joined by newlines, unless it has none. */
  function Record(docs: map<string, string>, e: Entry): map<string, string>
  {
    if e.body != [] then docs[e.name := Join(e.body, "\n")] else docs
  }

  /** The table the entries describe; a later entry of the same name wins. */
  function Recorded(es: seq<Entry>): map<string, string>
  {
    if es == [] then map[] else Record(Recorded(es[..|es| - 1]), es[|es| - 1])
  }

  lemma {:induction false} RunAppend(c: Collector, a: seq<string>, b: seq<string>)
    ensures Run(c, a + b) == Run(Run(c, a), b)
    decreases |b|
  {
    if b == [] {
      assert a + b == a;
    } else {
      var b0 := b[..|b| - 1];
      assert (a + b)[..|a + b| - 1] == a + b0;
      RunAppend(c, a, b0);
    }
  }

  /** The first newline of `l + "\n" + rest` ends `l`. */
  lemma FirstNewline(l: string, rest: string)
    requires '\n' !in l
    ensures FindChar(l + "\n" + rest, '\n') == Some(|l|)
  {
    var s := l + "\n" + rest;
    assert s[|l|] == '\n';
    assert forall j :: 0 <= j < |l| ==> s[j] == l[j];
  }

  /** A line followed by a newline is the first of the lines. */
  lemma LinesCons(l: string, rest: string)
    requires OneLine(l)
    ensures Lines(l + "\n" + rest) == [l] + Lines(rest)
  {
    var s := l + "\n" + rest;
    FirstNewline(l, rest);
    assert s[..|l|] == l && s[|l| + 1..] == rest;
    FirstLine(s, |l|, l);
    LinesTail(s, |l|, rest);
    assert Lines(s) == [Lines(s)[0]] + Lines(s)[1..];
  }

  lemma {:induction false} UnlinesLines(ls: seq<string>)
    requires forall l :: l in ls ==> OneLine(l)
    ensures Lines(Unlines(ls)) == ls
    ensures '\r' !in Unlines(ls)
    decreases |ls|
  {
    if ls != [] {
      assert ls[0] in ls;
      assert forall k :: k in ls[1..] ==> k in ls;
      UnlinesLines(ls[1..]);
      LinesCons(ls[0], Unlines(ls[1..]));
      assert ls == [ls[0]] + ls[1..];
    }
  }

  /** Trimming a line whose first character is not whitespace keeps a prefix that starts with it. */
  lemma TrimKeepsHead(s: string)
    requires |s| > 0 && !IsWhitespace(s[0])
    ensures 0 < |Trim(s)| <= |s| && Trim(s) == s[..|Trim(s)|]
  {
    assert TrimStart(s) == s;
    TrimEndDropsWhitespace(s);
  }

  /** A `# title` line is neither a fence, nor a separator, nor an instruction header. */
  lemma TitleIsNoMarker(title: string)
    ensures var t := Trim("# " + title); !IsFence(t) && t != "---" && !StartsWith(t, "## ")
  {
    var s := "# " + title;
    TrimKeepsHead(s);
    var t := Trim(s);
    assert t[0] == '#';
    if |t| >= 2 {
      assert t[1] == ' ';
    }
  }

  /** The header line of a well-formed entry reads as that entry's name. */
  lemma HeaderReads(name: string)
    requires name != "" && Trim(name) == name
    ensures var h := "## " + name;
      |h| == |name| + 3 && h[3..] == name && StartsWith(h, "## ") && !IsFence(h) && h != "---" && Trim(h) == h
  {
    var s := "## " + name;
    assert TrimStart(s) == s;
    assert TrimEnd(name) == name;
    assert !IsWhitespace(s[|s| - 1]) by {
      assert s[|s| - 1] == name[|name| - 1];
    }
    assert s[3..] == name;
  }

  /** The lines the parser keeps from plain lines: none until the first non-empty one. */
  function Kept(prev: seq<string>, ls: seq<string>): seq<string>
  {
    if ls == [] then prev
    else
      var k := Kept(prev, ls[..|ls| - 1]);
      if ls[|ls| - 1] != "" || k != [] then k + [ls[|ls| - 1]] else k
  }

  /** Plain lines inside an instruction only add to its kept lines. */
  lemma {:induction false} PlainRun(c: Collector, ls: seq<string>)
    requires c.name.Some? && !c.inCode
    requires forall l :: l in ls ==> PlainLine(l)
    ensures Run(c, ls) == c.(lines := Kept(c.lines, ls))
    decreases |ls|
  {
    if ls != [] {
      var init := ls[..|ls| - 1];
      assert forall l :: l in init ==> l in ls;
      PlainRun(c, init);
      assert ls[|ls| - 1] in ls;
    }
  }

  lemma {:induction false} KeptAppend(prev: seq<string>, a: seq<string>, b: seq<string>)
    ensures Kept(prev, a + b) == Kept(Kept(prev, a), b)
    decreases |b|
  {
    if b == [] {
      assert a + b == a;
    } else {
      var b0 := b[..|b| - 1];
      assert (a + b)[..|a + b| - 1] == a + b0;
      KeptAppend(prev, a, b0);
    }
  }

  /** Once something is kept, every further line is kept. */
  lemma {:induction false} KeptAll(prev: seq<string>, ls: seq<string>)
    requires prev != []
    ensures Kept(prev, ls) == prev + ls
    decreases |ls|
  {
    if ls != [] {
      KeptAll(prev, ls[..|ls| - 1]);
      assert prev + ls[..|ls| - 1] + [ls[|ls| - 1]] == prev + ls;
    }
  }

  /** Leading blank lines are skipped. */
  lemma {:induction false} KeptSkipsBlanks(n: nat)
    ensures Kept([], Blanks(n)) == []
    decreases n
  {
    if n > 0 {
      assert Blanks(n)[..n - 1] == Blanks(n - 1);
      KeptSkipsBlanks(n - 1);
    }
  }

  /** A text that starts with a non-empty line is kept whole. */
  lemma KeptFromText(ls: seq<string>)
    requires ls != [] && ls[0] != ""
    ensures Kept([], ls) == ls
  {
    assert ls == [ls[0]] + ls[1..];
    assert Kept([], [ls[0]]) == [ls[0]] by {
      assert [ls[0]][..0] == [];
    }
    KeptAppend([], [ls[0]], ls[1..]);
    KeptAll([ls[0]], ls[1..]);
  }

  lemma {:induction false} DropBlanks(body: seq<string>, n: nat)
    requires body != [] && body[|body| - 1] != ""
    ensures DropTrailingEmpty(body + Blanks(n)) == body
    decreases n
  {
    if n == 0 {
      assert body + Blanks(0) == body;
    } else {
      assert (body + Blanks(n))[..|body| + n - 1] == body + Blanks(n - 1);
      DropBlanks(body, n - 1);
    }
  }

  /** The state between two instructions: no open fence, and saving now would give `docs`. */
  predicate Between(c: Collector, docs: map<string, string>)
  {
    !c.inCode && (c.name.None? ==> c.lines == []) && Saved(c).docs == docs
  }

  /** The text of an instruction, with its blank lines around it, as kept. */
  lemma EntryText(e: Entry)
    requires WellFormed(e)
    ensures var ls := Kept([], Blanks(e.lead) + e.body + Blanks(e.trail));
      DropTrailingEmpty(ls) == e.body && (ls == [] <==> e.body == [])
  {
    KeptSkipsBlanks(e.lead);
    KeptAppend([], Blanks(e.lead), e.body + Blanks(e.trail));
    assert Blanks(e.lead) + e.body + Blanks(e.trail) == Blanks(e.lead) + (e.body + Blanks(e.trail));
    if e.body == [] {
      assert e.body + Blanks(e.trail) == Blanks(e.trail);
      KeptSkipsBlanks(e.trail);
    } else {
      KeptFromText(e.body + Blanks(e.trail));
      DropBlanks(e.body, e.trail);
    }
  }

  /** Between instructions, saving leaves an empty state holding the table. */
  lemma SavedBetween(c: Collector, docs: map<string, string>)
    requires Between(c, docs)
    ensures Saved(c) == Collector(None, [], false, docs)
  {
    var r := Saved(c);
    assert r.name == None && r.lines == [] && r.inCode == false && r.docs == docs;
  }

  /** The header of a well-formed entry, read between instructions, starts collecting it. */
  lemma HeaderStep(c: Collector, docs: map<string, string>, name: string)
    requires Between(c, docs) && name != "" && Trim(name) == name
    ensures Step(c, "## " + name) == Collector(Some(name), [], false, docs)
  {
    var h := "## " + name;
    HeaderReads(name);
    SavedBetween(c, docs);
    HeaderStepTrimmed(c, h, name);
  }

  lemma HeaderStepTrimmed(c: Collector, h: string, name: string)
    requires !c.inCode && !IsFence(h) && h != "---" && StartsWith(h, "## ") && Trim(h[3..]) == name
    ensures StepTrimmed(c, h, h) == Saved(c).(name := Some(name))
  {
  }

  /** A separator outside a fence saves the instruction. */
  lemma SeparatorStep(c: Collector)
    requires !c.inCode
    ensures Step(c, "---") == Saved(c)
  {
    DashesAreSeparator();
  }

  lemma DashesAreSeparator()
    ensures Trim("---") == "---" && !IsFence("---")
  {
    assert TrimStart("---") == "---";
    assert TrimEnd("---") == "---";
  }

  lemma TextIsPlain(e: Entry)
    requires WellFormed(e)
    ensures forall l :: l in Blanks(e.lead) + e.body + Blanks(e.trail) ==> PlainLine(l)
  {
    assert PlainLine("") by {
      assert Trim("") == "";
    }
  }

  /** Reading one well-formed entry between instructions records it. */
  lemma EntryRun(c: Collector, docs: map<string, string>, e: Entry)
    requires Between(c, docs) && WellFormed(e)
    ensures Between(Run(c, EntryLines(e)), Record(docs, e))
  {
    var header := "## " + e.name;
    var text := Blanks(e.lead) + e.body + Blanks(e.trail);
    var close: seq<string> := if e.closed then ["---"] else [];
    assert EntryLines(e) == [header] + text + close;
    var c1 := Collector(Some(e.name), [], false, docs);
    HeaderStep(c, docs, e.name);
    assert Run(c, [header]) == c1 by {
      assert [header][..0] == [];
    }
    TextIsPlain(e);
    PlainRun(c1, text);
    var c2 := c1.(lines := Kept([], text));
    EntryText(e);
    assert Saved(c2).docs == Record(docs, e);
    RunAppend(c, [header], text);
    RunAppend(c, [header] + text, close);
    if e.closed {
      SeparatorStep(c2);
      assert Run(c2, close) == Step(c2, "---") by {
        assert close[..0] == [];
      }
    }
  }

  lemma {:induction false} EntriesRun(es: seq<Entry>)
    requires forall e :: e in es ==> WellFormed(e)
    ensures Between(Run(START, EntriesLines(es)), Recorded(es))
    decreases |es|
  {
    if es != [] {
      var init, e := es[..|es| - 1], es[|es| - 1];
      assert forall x :: x in init ==> x in es;
      assert e in es;
      EntriesRun(init);
      var before := EntriesLines(init);
      var c := Run(START, before);
      assert Between(c, Recorded(init)) && WellFormed(e);
      EntryRun(c, Recorded(init), e);
      RunAppend(START, before, EntryLines(e));
    }
  }

  lemma {:induction false} EntriesOneLine(es: seq<Entry>)
    requires forall e :: e in es ==> WellFormed(e)
    ensures forall l :: l in EntriesLines(es) ==> OneLine(l)
    decreases |es|
  {
    if es != [] {
      var init := es[..|es| - 1];
      var e := es[|es| - 1];
      assert forall x :: x in init ==> x in es;
      assert e in es;
      EntriesOneLine(init);
      assert OneLine("## " + e.name) by {
        assert forall k :: 0 <= k < |e.name| ==> ("## " + e.name)[k + 3] == e.name[k];
      }
      forall l | l in EntryLines(e) ensures OneLine(l) {
        assert l == "## " + e.name || l == "" || l in e.body || l == "---";
      }
    }
  }

  /**
   * Parsing a well-formed document, with Unix or Windows line endings,
   * recovers exactly the table its entries describe: the title is ignored,
   * blank lines around each text are dropped, empty entries are left out,
   * and the last entry is saved whether or not a separator closes it.
   */
  lemma ParseDocument(title: string, es: seq<Entry>)
    requires OneLine(title) && forall e :: e in es ==> WellFormed(e)
    ensures ParseDocs(Document(title, es)) == Recorded(es)
    ensures ParseDocs(WithCrLf(Document(title, es))) == Recorded(es)
  {
    var titleLine := "# " + title;
    var ls := [titleLine] + EntriesLines(es);
    EntriesOneLine(es);
    assert OneLine(titleLine) by {
      assert forall k :: 0 <= k < |title| ==> titleLine[k + 2] == title[k];
    }
    UnlinesLines(ls);
    var doc := Unlines(ls);
    NormaliseWithoutCr(doc);
    NormaliseUndoesCrLf(doc);
    TitleIsNoMarker(title);
    assert Run(START, [titleLine]) == START;
    RunAppend(START, [titleLine], EntriesLines(es));
    EntriesRun(es);
  }

  /** The lines appended one at a time. */
  function Verbatim(prev: seq<string>, ls: seq<string>): seq<string>
  {
    if ls == [] then prev else Verbatim(prev, ls[..|ls| - 1]) + [ls[|ls| - 1]]
  }

  lemma {:induction false} VerbatimAppends(prev: seq<string>, ls: seq<string>)
    ensures Verbatim(prev, ls) == prev + ls
    decreases |ls|
  {
    if ls != [] {
      VerbatimAppends(prev, ls[..|ls| - 1]);
      assert prev + ls[..|ls| - 1] + [ls[|ls| - 1]] == prev + ls;
    }
  }

  /** Inside an open fence every non-fence line is kept as it is, markers included. */
  lemma {:induction false} InsideFence(c: Collector, ls: seq<string>)
    requires c.inCode && c.name.Some?
    requires forall i :: 0 <= i < |ls| ==> !IsFence(Trim(ls[i]))
    ensures Run(c, ls) == c.(lines := Verbatim(c.lines, ls))
    decreases |ls|
  {
    if ls != [] {
      var init, last := ls[..|ls| - 1], ls[|ls| - 1];
      assert forall i :: 0 <= i < |init| ==> init[i] == ls[i];
      InsideFence(c, init);
      FencedLineStep(Run(c, init), last, Trim(last));
    }
  }

  lemma FencedLineStep(c: Collector, line: string, trimmed: string)
    requires c.inCode && c.name.Some? && trimmed == Trim(line) && !IsFence(trimmed)
    ensures Step(c, line) == c.(lines := c.lines + [line])
  {
  }

  /**
   * A fenced block inside an instruction: the fence lines are kept
   * trimmed, the lines between them verbatim (even `---` or `## x`), and
   * the fence is closed afterwards.
   */
  lemma FencedBlock(c: Collector, open: string, ls: seq<string>, close: string)
    requires !c.inCode && c.name.Some?
    requires IsFence(Trim(open)) && IsFence(Trim(close))
    requires forall i :: 0 <= i < |ls| ==> !IsFence(Trim(ls[i]))
    ensures Run(c, [open] + ls + [close]) == c.(lines := c.lines + [Trim(open)] + ls + [Trim(close)])
  {
    var c1 := c.(inCode := true, lines := c.lines + [Trim(open)]);
    assert Run(c, [open]) == c1 by {
      assert [open][..0] == [];
    }
    InsideFence(c1, ls);
    VerbatimAppends(c1.lines, ls);
    RunAppend(c, [open], ls);
    var all := [open] + ls + [close];
    assert all[..|all| - 1] == [open] + ls;
  }

  // ---------------------------------------------------------------------
  // Emitting the table as Rust source
  // ---------------------------------------------------------------------

  /** The byte-wise order Rust uses on `String`s; a proper prefix comes first. */
  predicate StrLt(a: string, b: string)
    decreases |a|
  {
    if a == [] then b != []
    else if b == [] then false
    else if a[0] != b[0] then a[0] < b[0]
    else StrLt(a[1..], b[1..])
  }

  lemma {:induction false} StrLtIrreflexive(a: string)
    ensures !StrLt(a, a)
    decreases |a|
  {
    if a != [] {
      StrLtIrreflexive(a[1..]);
    }
  }

  lemma {:induction false} StrLtAsymmetric(a: string, b: string)
    requires StrLt(a, b)
    ensures !StrLt(b, a)
    decreases |a|
  {
    if a != [] && b != [] && a[0] == b[0] {
      StrLtAsymmetric(a[1..], b[1..]);
    }
  }

  lemma {:induction false} StrLtTransitive(a: string, b: string, c: string)
    requires StrLt(a, b) && StrLt(b, c)
    ensures StrLt(a, c)
    decreases |a|
  {
    if a != [] && b != [] && c != [] && a[0] == b[0] && b[0] == c[0] {
      StrLtTransitive(a[1..], b[1..], c[1..]);
    }
  }

  lemma {:induction false} StrLtTotal(a: string, b: string)
    requires a != b
    ensures StrLt(a, b) || StrLt(b, a)
    decreases |a|
  {
    if a != [] && b != [] && a[0] == b[0] {
      assert a == [a[0]] + a[1..] && b == [b[0]] + b[1..];
      StrLtTotal(a[1..], b[1..]);
    }
  }

  predicate StrictlyAscending(ks: seq<string>)
  {
    forall i, j :: 0 <= i < j < |ks| ==> StrLt(ks[i], ks[j])
  }

  predicate Distinct(ks: seq<string>)
  {
    forall i, j :: 0 <= i < j < |ks| ==> ks[i] != ks[j]
  }

  /** `k` is below every other key of `keys`. */
  predicate IsLeast(k: string, keys: set<string>)
  {
    k in keys && forall x :: x in keys && x != k ==> StrLt(k, x)
  }

  lemma {:induction false} LeastExists(keys: set<string>)
    requires keys != {}
    ensures exists k :: IsLeast(k, keys)
    decreases keys
  {
    var x :| x in keys;
    if keys != {x} {
      LeastExists(keys - {x});
      var m :| IsLeast(m, keys - {x});
      if StrLt(x, m) {
        forall y | y in keys && y != x ensures StrLt(x, y) {
          if y != m {
            StrLtTransitive(x, m, y);
          }
        }
        assert IsLeast(x, keys);
      } else {
        StrLtTotal(x, m);
        assert IsLeast(m, keys);
      }
    } else {
      assert IsLeast(x, keys);
    }
  }

  /** The keys of the table in ascending order: what sorting them gives, whatever order they were collected in. */
  ghost function SortedKeys(keys: set<string>): (r: seq<string>)
    ensures StrictlyAscending(r)
    ensures forall k :: k in r <==> k in keys
    decreases keys
  {
    if keys == {} then []
    else
      LeastExists(keys);
      var m :| IsLeast(m, keys);
      var rest := SortedKeys(keys - {m});
      assert forall k :: k in rest ==> StrLt(m, k);
      [m] + rest
  }

  /** Inserts a new key into an ascending list. */
  function InsertKey(ys: seq<string>, x: string): (r: seq<string>)
    requires StrictlyAscending(ys) && x !in ys
    ensures StrictlyAscending(r)
    ensures forall k :: k in r <==> k in ys || k == x
    ensures |r| == |ys| + 1
  {
    if ys == [] then [x]
    else if StrLt(x, ys[0]) then
      forall k | k in ys ensures StrLt(x, k) {
        if k != ys[0] {
          StrLtTransitive(x, ys[0], k);
        }
      }
      [x] + ys
    else
      StrLtTotal(x, ys[0]);
      var rest := InsertKey(ys[1..], x);
      assert forall k :: k in rest ==> StrLt(ys[0], k);
      [ys[0]] + rest
  }

  /** `sort` on keys that are pairwise different: insertion sort. */
  function SortKeys(ks: seq<string>): (r: seq<string>)
    requires Distinct(ks)
    ensures StrictlyAscending(r)
    ensures forall k :: k in r <==> k in ks
  {
    if ks == [] then []
    else
      var init := ks[..|ks| - 1];
      assert forall k :: k in init ==> k != ks[|ks| - 1];
      InsertKey(SortKeys(init), ks[|ks| - 1])
  }

  /** Two ascending lists of the same keys are the same list. */
  lemma {:induction false} AscendingUnique(a: seq<string>, b: seq<string>)
    requires StrictlyAscending(a) && StrictlyAscending(b)
    requires forall k :: k in a <==> k in b
    ensures a == b
    decreases |a|
  {
    if a != [] {
      assert a[0] in a;
    }
    if b != [] {
      assert b[0] in b;
    }
    if a != [] && b != [] {
      if a[0] != b[0] {
        var i :| 0 <= i < |b| && b[i] == a[0];
        var j :| 0 <= j < |a| && a[j] == b[0];
        StrLtAsymmetric(a[0], b[0]);
      }
      StrLtIrreflexive(a[0]);
      forall k ensures k in a[1..] <==> k in b[1..] {
        if k in a[1..] {
          var i :| 0 <= i < |a| - 1 && a[1..][i] == k;
          assert a[i + 1] == k && k in b;
          var j :| 0 <= j < |b| && b[j] == k;
          assert j != 0;
          assert b[1..][j - 1] == k;
        }
        if k in b[1..] {
          var i :| 0 <= i < |b| - 1 && b[1..][i] == k;
          assert b[i + 1] == k && k in a;
          var j :| 0 <= j < |a| && a[j] == k;
          assert j != 0;
          assert a[1..][j - 1] == k;
        }
      }
      AscendingUnique(a[1..], b[1..]);
    }
  }

  /** One character of a Rust string literal's body. */
  function EscapeChar(c: char): string
  {
    if c == '\\' then "\\\\" else if c == '"' then "\\\"" else if c == '\n' then "\\n" else [c]
  }

  /** The documentation text escaped for a string literal: backslashes, then quotes, then newlines. */
  function Escape(v: string): string
  {
    ReplaceChar(ReplaceChar(ReplaceChar(v, '\\', "\\\\"), '"', "\\\""), '\n', "\\n")
  }

  /** Escaping character by character. */
  function EscapeEach(v: string): string
  {
    if v == [] then [] else EscapeChar(v[0]) + EscapeEach(v[1..])
  }

  lemma {:induction false} ReplaceCharAppend(a: string, b: string, c: char, with: string)
    ensures ReplaceChar(a + b, c, with) == ReplaceChar(a, c, with) + ReplaceChar(b, c, with)
    decreases |a|
  {
    if a != [] {
      assert (a + b)[1..] == a[1..] + b;
      ReplaceCharAppend(a[1..], b, c, with);
    } else {
      assert a + b == b;
    }
  }

  /** The three passes of `replace` escape each character on its own. */
  lemma {:induction false} EscapeIsEscapeEach(v: string)
    ensures Escape(v) == EscapeEach(v)
    decreases |v|
  {
    if v != [] {
      var head, tail := v[..1], v[1..];
      assert v == head + tail;
      var a1, a2 := ReplaceChar(head, '\\', "\\\\"), ReplaceChar(tail, '\\', "\\\\");
      ReplaceCharAppend(head, tail, '\\', "\\\\");
      var b1, b2 := ReplaceChar(a1, '"', "\\\""), ReplaceChar(a2, '"', "\\\"");
      ReplaceCharAppend(a1, a2, '"', "\\\"");
      ReplaceCharAppend(b1, b2, '\n', "\\n");
      EscapeIsEscapeEach(tail);
      assert ReplaceChar(b1, '\n', "\\n") == EscapeChar(v[0]);
    }
  }

  /** How the Rust compiler reads the body of a string literal back. */
  function Unescape(s: string): string
    decreases |s|
  {
    if s == [] then []
    else if |s| >= 2 && s[0] == '\\' then [if s[1] == 'n' then '\n' else s[1]] + Unescape(s[2..])
    else [s[0]] + Unescape(s[1..])
  }

  /** Reading the escaped text back gives the documentation text; it holds no line break. */
  lemma {:induction false} EscapeRoundTrip(v: string)
    ensures Unescape(Escape(v)) == v
    ensures '\n' !in Escape(v)
    decreases |v|
  {
    EscapeIsEscapeEach(v);
    EscapeEachRoundTrip(v);
  }

  /** One escaped character reads back as itself. */
  lemma UnescapeChar(c: char, rest: string)
    ensures Unescape(EscapeChar(c) + rest) == [c] + Unescape(rest)
    ensures '\n' !in EscapeChar(c)
  {
    var e := EscapeChar(c);
    if c == '\\' || c == '"' || c == '\n' {
      assert |e| == 2 && e[0] == '\\' && (e + rest)[2..] == rest;
    } else {
      assert e == [c] && (e + rest)[1..] == rest;
    }
  }

  lemma {:induction false} EscapeEachRoundTrip(v: string)
    ensures Unescape(EscapeEach(v)) == v
    ensures '\n' !in EscapeEach(v)
    decreases |v|
  {
    if v != [] {
      EscapeEachRoundTrip(v[1..]);
      UnescapeChar(v[0], EscapeEach(v[1..]));
      assert v == [v[0]] + v[1..];
    }
  }

  const GENERATED_HEADER: string :=
    "// This file is automatically generated by build.rs\n"
    + "// Do not edit manually - edit docs/instructions.md instead\n\n"
    + "use std::collections::HashMap;\n"
    + "use once_cell::sync::Lazy;\n\n"
    + "pub static INSTRUCTION_DOCS: Lazy<HashMap<&'static str, &'static str>> = Lazy::new(|| {\n"
    + "    let mut m = HashMap::new();\n\n"

  const GENERATED_FOOTER: string := "\n    m\n});\n"

  /** One `m.insert` line; the key is written as it is, the text escaped. */
  function InsertLine(key: string, value: string): string
  {
    "    m.insert(\"" + key + "\", \"" + Escape(value) + "\");\n"
  }

  /** The `m.insert` lines for the keys `ks`, in that order. */
  function InsertLines(ks: seq<string>, docs: map<string, string>): string
    requires forall k :: k in ks ==> k in docs
  {
    if ks == [] then "" else InsertLines(ks[..|ks| - 1], docs) + InsertLine(ks[|ks| - 1], docs[ks[|ks| - 1]])
  }

  /** `docs.keys().collect()`: the keys, each once, in the table's own order. */
  method CollectKeys(docs: map<string, string>) returns (keys: seq<string>)
    ensures Distinct(keys)
    ensures forall k :: k in keys <==> k in docs
  {
    keys := [];
    var remaining := docs.Keys;
    while remaining != {}
      invariant Distinct(keys)
      invariant forall k :: k in docs <==> k in keys || k in remaining
      invariant forall k :: k in keys ==> k !in remaining
      decreases remaining
    {
      var k :| k in remaining;
      keys := keys + [k];
      remaining := remaining - {k};
    }
  }

  /** `code` with the insert lines for `ks` pushed one at a time. */
  function Pushed(code: string, ks: seq<string>, docs: map<string, string>): string
    requires forall k :: k in ks ==> k in docs
  {
    if ks == [] then code else Pushed(code, ks[..|ks| - 1], docs) + InsertLine(ks[|ks| - 1], docs[ks[|ks| - 1]])
  }

  lemma {:induction false} PushedAppends(code: string, ks: seq<string>, docs: map<string, string>)
    requires forall k :: k in ks ==> k in docs
    ensures Pushed(code, ks, docs) == code + InsertLines(ks, docs)
    decreases |ks|
  {
    if ks != [] {
      var init := ks[..|ks| - 1];
      PushedAppends(code, init, docs);
      var line := InsertLine(ks[|ks| - 1], docs[ks[|ks| - 1]]);
      assert code + InsertLines(init, docs) + line == code + (InsertLines(init, docs) + line);
    }
  }

  /** The loop of `generate_rust_code`: one insert line pushed onto `code` per key, in order. */
  method PushInsertLines(code: string, ks: seq<string>, docs: map<string, string>) returns (code': string)
    requires forall k :: k in ks ==> k in docs
    ensures code' == code + InsertLines(ks, docs)
  {
    code' := code;
    for i := 0 to |ks|
      invariant code' == Pushed(code, ks[..i], docs)
    {
      assert ks[..i + 1][..i] == ks[..i];
      var key := ks[i];
      code' := code' + InsertLine(key, docs[key]);
    }
    assert ks[..|ks|] == ks;
    PushedAppends(code, ks, docs);
  }

  /** `generate_rust_code`: the keys sorted, then one insert line each between the fixed header and footer. */
  method GenerateRustCode(docs: map<string, string>) returns (code: string)
    ensures code == GENERATED_HEADER + InsertLines(SortedKeys(docs.Keys), docs) + GENERATED_FOOTER
  {
    code := GENERATED_HEADER;
    var keys := CollectKeys(docs);
    var sortedKeys := SortKeys(keys);
    AscendingUnique(sortedKeys, SortedKeys(docs.Keys));
    code := PushInsertLines(code, sortedKeys, docs);
    code := code + GENERATED_FOOTER;
  }
}
