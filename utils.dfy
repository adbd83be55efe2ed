/**
 * Shared helpers of the language server (src/utils.rs): instruction-context
 * classification, the containing function, the word under the cursor,
 * position/byte conversion, text edits and the node under a position.
 *
 * Code that walks up from a node receives the node and its ancestors,
 * parent first (the tree has no parent links here).
 */
module Utils {
  import opened Wrappers
  import opened CoreTypes
  import opened Tree
  import opened Text
  import Symbols

  /** What an identifier or index refers to, judged from where it stands. */
  datatype InstructionContext =
    | Call | Global | Local | Branch | Block | Table | Memory | Type | Tag
    | Function | Data | Elem | General

  // ---------------------------------------------------------------------
  // Classification by walking up the tree
  // ---------------------------------------------------------------------

  predicate IsInstrKind(k: string)
  {
    k == "instr_plain" || k == "expr1_plain" || k == "instr_call" || k == "expr1_call"
  }

  const BlockKinds: set<string> := {
    "instr_block", "instr_loop", "block_block", "block_loop", "block_if", "block_try",
    "block_try_table", "expr1_block", "expr1_loop", "expr1_if", "expr1_try"}

  /** The substring tests on a whole instruction's text, in their order. */
  function InstrTextContext(t: string): (r: Option<InstructionContext>)
    ensures r != Some(General)
    ensures Contains(t, "call") ==> r == Some(Call)
  {
    if Contains(t, "call") then Some(Call)
    else if Contains(t, "local.") then Some(Local)
    else if Contains(t, "global.") then Some(Global)
    else if StartsWith(t, "br") || Contains(t, " br") then Some(Branch)
    else if Contains(t, "memory.init") || Contains(t, "data.drop") then Some(Data)
    else if Contains(t, "table.init") || Contains(t, "elem.drop") then Some(Elem)
    else if Contains(t, "table.") then Some(Table)
    else if Contains(t, "memory.") || Contains(t, ".load") || Contains(t, ".store") then Some(Memory)
    else if Contains(t, "struct.") || Contains(t, "array.") || Contains(t, "ref.cast") || Contains(t, "ref.test") then Some(Type)
    else if Contains(t, "throw") || Contains(t, "rethrow") then Some(Tag)
    else None
  }

  /** What one node on the way up decides, if anything. */
  function NodeContext(n: Node, src: string): (r: Option<InstructionContext>)
    ensures r != Some(General)
  {
    var fromInstr := if IsInstrKind(n.kind) then InstrTextContext(NodeText(n, src)) else None;
    if fromInstr.Some? then fromInstr
    else if n.kind in BlockKinds then Some(Block)
    else if n.kind == "module_field_func" then Some(Function)
    else if n.kind == "module_field_type" || n.kind == "type_use" then Some(Type)
    else if n.kind == "module_field_tag" then Some(Tag)
    else if n.kind == "module_field_data" then Some(Data)
    else if n.kind == "module_field_elem" then Some(Elem)
    else None
  }

  /**
   * The loop of `determine_instruction_context`: the innermost node of the
   * chain that decides anything decides; `General` when none does.
   */
  function WalkUpContext(chain: seq<Node>, src: string): (r: InstructionContext)
    ensures r == General <==> forall i :: 0 <= i < |chain| ==> NodeContext(chain[i], src).None?
    ensures r != General ==>
      exists i :: 0 <= i < |chain| && NodeContext(chain[i], src) == Some(r)
        && forall j :: 0 <= j < i ==> NodeContext(chain[j], src).None?
  {
    if chain == [] then General
    else
      match NodeContext(chain[0], src)
      case Some(c) => c
      case None =>
        var r := WalkUpContext(chain[1..], src);
        assert forall i :: 1 <= i < |chain| ==> chain[i] == chain[1..][i - 1];
        r
  }

  /** Position of the first node with the given byte range. */
  function RangeIndex(xs: seq<Node>, startByte: nat, endByte: nat): (r: Option<nat>)
    ensures r.Some? ==> r.value < |xs| && xs[r.value].startByte == startByte && xs[r.value].endByte == endByte
    ensures r.Some? ==> forall j :: 0 <= j < r.value ==> !(xs[j].startByte == startByte && xs[j].endByte == endByte)
  {
    if xs == [] then None
    else if xs[0].startByte == startByte && xs[0].endByte == endByte then Some(0)
    else
      match RangeIndex(xs[1..], startByte, endByte)
      case None => None
      case Some(i) => Some(i + 1)
  }

  /**
   * `determine_catch_clause_context`, from the node upwards: inside a
   * `catch`/`catch_ref` clause the first index is a tag and the others are
   * labels; inside `catch_all` every index is a label. The index met
   * last on the way up is the one located among the clause's indices.
   */
  function CatchScan(chain: seq<Node>, src: string, indexNode: Option<Node>): (r: Option<InstructionContext>)
    ensures r == None || r == Some(Tag) || r == Some(Branch)
  {
    if chain == [] then None
    else
      var n := chain[0];
      var idx := if n.kind == "index" then Some(n) else indexNode;
      if n.kind == "catch_clause" then
        var t := NodeText(n, src);
        var hasTag := Contains(t, "catch_ref") || (Contains(t, "catch") && !Contains(t, "catch_all"));
        match idx
        case None => None
        case Some(x) =>
          match RangeIndex(ChildrenOfKind(n.children, "index"), x.startByte, x.endByte)
          case None => None
          case Some(i) => if hasTag && i == 0 then Some(Tag) else Some(Branch)
      else CatchScan(chain[1..], src, idx)
  }

  /**
   * `determine_instruction_context`: a catch clause decides first, then the
   * innermost deciding node on the way up.
   */
  function DetermineInstructionContext(node: Node, ancestors: seq<Node>, src: string): (r: InstructionContext)
    ensures CatchScan([node] + ancestors, src, None).None? ==> r == WalkUpContext([node] + ancestors, src)
    ensures CatchScan([node] + ancestors, src, None).Some? ==> r == Tag || r == Branch
  {
    match CatchScan([node] + ancestors, src, None)
    case Some(c) => c
    case None => WalkUpContext([node] + ancestors, src)
  }

  // ---------------------------------------------------------------------
  // Classification of a single node by its first token
  // ---------------------------------------------------------------------

  /** The leading run of non-whitespace characters of `s`. */
  function TakeToken(s: string): (r: string)
    ensures |r| <= |s| && r == s[..|r|]
    ensures forall i :: 0 <= i < |r| ==> !IsWhitespace(r[i])
    ensures |r| < |s| ==> IsWhitespace(s[|r|])
  {
    if s == [] || IsWhitespace(s[0]) then [] else [s[0]] + TakeToken(s[1..])
  }

  /** `split_whitespace().next().unwrap_or("")`. */
  function FirstToken(s: string): (r: string)
    ensures forall i :: 0 <= i < |r| ==> !IsWhitespace(r[i])
  {
    TakeToken(TrimStart(s))
  }

  predicate IsTypeToken(tok: string)
  {
    StartsWith(tok, "struct.") || StartsWith(tok, "array.") || tok == "ref.cast" || tok == "ref.test"
    || tok == "call_ref" || tok == "return_call_ref"
  }

  /** The tests on the first token, in their order; type operations come first. */
  function TokenContext(tok: string): (r: Option<InstructionContext>)
    ensures IsTypeToken(tok) ==> r == Some(Type)
    ensures r == Some(Call) ==> StartsWith(tok, "call") && tok != "call_indirect" && tok != "call_ref"
    ensures r == Some(Branch) <==> StartsWith(tok, "br") && !IsTypeToken(tok)
  {
    if IsTypeToken(tok) then Some(Type)
    else if StartsWith(tok, "br") then Some(Branch)
    else if StartsWith(tok, "call") && tok != "call_indirect" then Some(Call)
    else if StartsWith(tok, "local.") then Some(Local)
    else if StartsWith(tok, "global.") then Some(Global)
    else if StartsWith(tok, "table.") then Some(Table)
    else if StartsWith(tok, "memory.") then Some(Memory)
    else if tok == "throw" || tok == "rethrow" then Some(Tag)
    else None
  }

  predicate IsPlainKind(k: string) { k == "instr_plain" || k == "expr1_plain" }

  /**
   * `determine_instruction_context_at_node`: only the node itself is
   * classified (by the first token of a plain instruction, or its kind),
   * except for the walk up to a catch clause.
   */
  function DetermineInstructionContextAtNode(node: Node, ancestors: seq<Node>, src: string): (r: InstructionContext)
    ensures r == Call ==>
      (IsPlainKind(node.kind)
       && StartsWith(FirstToken(NodeText(node, src)), "call")
       && FirstToken(NodeText(node, src)) != "call_indirect")
    ensures IsPlainKind(node.kind) && IsTypeToken(FirstToken(NodeText(node, src))) ==> r == Type
    ensures !IsPlainKind(node.kind) && node.kind != "type_use" && node.kind != "ref_type_ref" && node.kind != "ref_type"
      ==> r == Tag || r == Branch || r == General
  {
    var fromToken := if IsPlainKind(node.kind) then TokenContext(FirstToken(NodeText(node, src))) else None;
    if fromToken.Some? then fromToken.value
    else if node.kind == "type_use" then Type
    else if node.kind == "ref_type_ref" || node.kind == "ref_type" then Type
    else
      match CatchScan([node] + ancestors, src, None)
      case Some(c) => c
      case None => General
  }

  // ---------------------------------------------------------------------
  // Classification of a line of text
  // ---------------------------------------------------------------------

  /** `match_indices`: the non-overlapping occurrences of `p` from `from` on, left to right. */
  function MatchIndices(s: string, p: string, from: nat): (r: seq<nat>)
    ensures forall k :: 0 <= k < |r| ==> from <= r[k] && OccursAt(s, p, r[k])
    decreases |s| + 1 - from
  {
    if from > |s| then []
    else if OccursAt(s, p, from) then [from] + MatchIndices(s, p, from + (if |p| == 0 then 1 else |p|))
    else MatchIndices(s, p, from + 1)
  }

  /** Start of line, `(`, space or tab before the match. */
  predicate ValidBefore(line: string, i: nat)
  {
    i == 0 || (i - 1 < |line| && (line[i - 1] == '(' || line[i - 1] == ' ' || line[i - 1] == '\t'))
  }

  /** End of line, space, `.`, `)`, `$` or a digit after the match, and `_` after `br`. */
  predicate ValidAfter(line: string, keyword: string, i: nat)
  {
    var j := i + |keyword|;
    j >= |line|
    || line[j] == ' ' || line[j] == '.' || (line[j] == '_' && keyword == "br")
    || line[j] == ')' || line[j] == '$' || IsDigit(line[j])
  }

  /** `line_contains_keyword`: some match of the keyword has valid neighbours. */
  predicate LineContainsKeyword(line: string, keyword: string)
  {
    exists k :: 0 <= k < |MatchIndices(line, keyword, 0)|
      && ValidBefore(line, MatchIndices(line, keyword, 0)[k])
      && ValidAfter(line, keyword, MatchIndices(line, keyword, 0)[k])
  }

  /** No proper prefix of `p` is also a suffix of it, so occurrences never overlap. */
  predicate Borderless(p: string)
  {
    forall k :: 0 < k < |p| ==> p[k..] != p[..|p| - k]
  }

  /** Two occurrences closer than the pattern's length make a border. */
  lemma OverlapGivesBorder(s: string, p: string, i: nat, j: nat)
    requires i < j < i + |p|
    requires OccursAt(s, p, i) && OccursAt(s, p, j)
    ensures p[j - i..] == p[..|p| - (j - i)]
  {
    var k := j - i;
    assert p[k..] == s[j..i + |p|] by {
      assert forall t :: 0 <= t < |p| - k ==> p[k..][t] == p[k + t] == s[i + k + t];
    }
    assert p[..|p| - k] == s[j..i + |p|] by {
      assert forall t :: 0 <= t < |p| - k ==> p[..|p| - k][t] == p[t] == s[j + t];
    }
  }

  /** For a keyword without borders, `match_indices` lists every occurrence. */
  lemma {:induction false} MatchIndicesComplete(s: string, p: string, from: nat, i: nat)
    requires Borderless(p) && |p| > 0
    requires from <= i && OccursAt(s, p, i)
    ensures i in MatchIndices(s, p, from)
    decreases |s| + 1 - from
  {
    if from > |s| {
    } else if OccursAt(s, p, from) {
      if i != from {
        if i < from + |p| {
          OverlapGivesBorder(s, p, from, i);
          assert false;
        } else {
          MatchIndicesComplete(s, p, from + |p|, i);
        }
      }
    } else {
      MatchIndicesComplete(s, p, from + 1, i);
    }
  }

  /**
   * For a keyword that cannot overlap itself (all the keywords the line
   * classifier uses except `local`), a line contains it exactly when some
   * occurrence has valid neighbours on both sides.
   */
  lemma LineContainsKeywordIff(line: string, keyword: string)
    requires Borderless(keyword) && |keyword| > 0
    ensures LineContainsKeyword(line, keyword) <==>
      exists i :: 0 <= i <= |line| && OccursAt(line, keyword, i)
        && ValidBefore(line, i) && ValidAfter(line, keyword, i)
  {
    var ms := MatchIndices(line, keyword, 0);
    if exists i :: 0 <= i <= |line| && OccursAt(line, keyword, i) && ValidBefore(line, i) && ValidAfter(line, keyword, i) {
      var i :| 0 <= i <= |line| && OccursAt(line, keyword, i) && ValidBefore(line, i) && ValidAfter(line, keyword, i);
      MatchIndicesComplete(line, keyword, 0, i);
      var k :| 0 <= k < |ms| && ms[k] == i;
    }
  }

  /** `determine_context_from_line`: the first keyword in a fixed priority order decides. */
  function DetermineContextFromLine(line: string): (r: InstructionContext)
    ensures LineContainsKeyword(line, "call") ==> r == Call
    ensures r == Call ==> LineContainsKeyword(line, "call")
    ensures r == General ==>
      (!LineContainsKeyword(line, "call") && !LineContainsKeyword(line, "global")
       && !LineContainsKeyword(line, "local") && !LineContainsKeyword(line, "br")
       && !LineContainsKeyword(line, "func"))
    ensures r == Function ==> LineContainsKeyword(line, "func") && !LineContainsKeyword(line, "call")
  {
    if LineContainsKeyword(line, "call") then Call
    else if LineContainsKeyword(line, "global") then Global
    else if LineContainsKeyword(line, "local") then Local
    else if LineContainsKeyword(line, "br") then Branch
    else if LineContainsKeyword(line, "block") || LineContainsKeyword(line, "loop") then Block
    else if Contains(line, "memory.init") || Contains(line, "data.drop") || LineContainsKeyword(line, "data") then Data
    else if Contains(line, "table.init") || Contains(line, "elem.drop") || LineContainsKeyword(line, "elem") then Elem
    else if LineContainsKeyword(line, "table") then Table
    else if LineContainsKeyword(line, "memory") then Memory
    else if LineContainsKeyword(line, "type") || LineContainsKeyword(line, "struct")
      || LineContainsKeyword(line, "array") || Contains(line, "ref.") then Type
    else if LineContainsKeyword(line, "throw") || LineContainsKeyword(line, "tag")
      || LineContainsKeyword(line, "catch") then Tag
    else if LineContainsKeyword(line, "func") then Function
    else General
  }

  // ---------------------------------------------------------------------
  // Containing function
  // ---------------------------------------------------------------------

  /**
   * `find_containing_function`: the last function, in table order, that
   * starts on or before the position's line. The end line is not
   * consulted, so a position after a function's end still belongs to it.
   */
  function FindContainingFunction(functions: seq<Symbols.Function>, pos: Position): (r: Option<Symbols.Function>)
    ensures r.None? <==> forall i :: 0 <= i < |functions| ==> functions[i].line > pos.line
    ensures r.Some? ==>
      exists i :: (0 <= i < |functions| && functions[i] == r.value
        && functions[i].line <= pos.line
        && forall j :: i < j < |functions| ==> functions[j].line > pos.line)
  {
    match LastStartingBy(functions, pos.line, |functions|)
    case None => None
    case Some(i) => Some(functions[i])
  }

  /** The last of the first `k` functions that starts on or before `line`. */
  function LastStartingBy(functions: seq<Symbols.Function>, line: nat, k: nat): (r: Option<nat>)
    requires k <= |functions|
    ensures r.Some? ==>
      (r.value < k && functions[r.value].line <= line
       && forall j :: r.value < j < k ==> functions[j].line > line)
    ensures r.None? ==> forall j :: 0 <= j < k ==> functions[j].line > line
  {
    if k == 0 then None
    else if functions[k - 1].line <= line then Some(k - 1)
    else LastStartingBy(functions, line, k - 1)
  }

  // ---------------------------------------------------------------------
  // Word under the cursor
  // ---------------------------------------------------------------------

  /** `is_word_char`: alphanumerics and `_ $ . -`. */
  predicate IsWordChar(c: char)
  {
    IsAlnum(c) || c == '_' || c == '$' || c == '.' || c == '-'
  }

  /** `line[s..e]` holds only characters of the class `isWord`. */
  predicate AllWordChars(line: string, s: nat, e: nat, isWord: char -> bool)
    requires s <= e <= |line|
  {
    forall k :: s <= k < e ==> isWord(line[k])
  }

  /** Where the run of `isWord` characters ending at `col` starts. */
  function WordStart(line: string, col: nat, isWord: char -> bool): (s: nat)
    requires col <= |line|
    ensures s <= col && AllWordChars(line, s, col, isWord)
    ensures s == 0 || !isWord(line[s - 1])
  {
    if col > 0 && isWord(line[col - 1]) then WordStart(line, col - 1, isWord) else col
  }

  /** Where the run of `isWord` characters starting at `col` ends. */
  function WordEnd(line: string, col: nat, isWord: char -> bool): (e: nat)
    requires col <= |line|
    ensures col <= e <= |line| && AllWordChars(line, col, e, isWord)
    ensures e == |line| || !isWord(line[e])
    decreases |line| - col
  {
    if col < |line| && isWord(line[col]) then WordEnd(line, col + 1, isWord) else col
  }

  /** `line[s..e]` is a maximal run of `isWord` characters that touches `col`. */
  predicate MaximalWordAround(line: string, col: nat, s: nat, e: nat, isWord: char -> bool)
  {
    s <= col <= e <= |line| && s < e && AllWordChars(line, s, e, isWord)
    && (s == 0 || !isWord(line[s - 1]))
    && (e == |line| || !isWord(line[e]))
  }

  /**
   * The word under the cursor for a character class `isWord`: None for a
   * missing line, a column past the end of the line, or a column no word
   * character touches; otherwise the maximal run of word characters around
   * the column.
   */
  function WordIn(document: string, pos: Position, isWord: char -> bool): (r: Option<string>)
    ensures LineAt(document, pos.line).None? || pos.character > |LineAt(document, pos.line).value| ==> r.None?
    ensures LineAt(document, pos.line).Some? && pos.character <= |LineAt(document, pos.line).value| ==>
      var line := LineAt(document, pos.line).value;
      var col := pos.character;
      (r.Some? <==> (col > 0 && isWord(line[col - 1])) || (col < |line| && isWord(line[col])))
      && (r.Some? ==> exists s: nat, e: nat :: MaximalWordAround(line, col, s, e, isWord) && r.value == line[s..e])
  {
    match LineAt(document, pos.line)
    case None => None
    case Some(line) =>
      if pos.character > |line| then None
      else
        var s := WordStart(line, pos.character, isWord);
        var e := WordEnd(line, pos.character, isWord);
        if s < e then
          assert MaximalWordAround(line, pos.character, s, e, isWord);
          Some(line[s..e])
        else None
  }

  /** `get_word_at_position`: the word under the cursor, `is_word_char` being the class. */
  function WordAt(document: string, pos: Position): Option<string>
  {
    WordIn(document, pos, IsWordChar)
  }

  /**
   * The loops of `get_word_at_position`, moving `start` back and `end`
   * forward over characters of the class `isWord`.
   */
  method WordAround(document: string, pos: Position, isWord: char -> bool) returns (r: Option<string>)
    ensures r == WordIn(document, pos, isWord)
  {
    var lineOpt := LineAt(document, pos.line);
    if lineOpt.None? {
      return None;
    }
    var line := lineOpt.value;
    var col := pos.character;
    if col > |line| {
      return None;
    }
    var start: nat := col;
    var end: nat := col;
    while start > 0 && isWord(line[start - 1])
      invariant start <= col
      invariant WordStart(line, start, isWord) == WordStart(line, col, isWord)
    {
      start := start - 1;
    }
    while end < |line| && isWord(line[end])
      invariant col <= end <= |line|
      invariant WordEnd(line, end, isWord) == WordEnd(line, col, isWord)
    {
      end := end + 1;
    }
    if start < end {
      r := Some(line[start..end]);
    } else {
      r := None;
    }
  }

  /** `get_word_at_position` of the utilities, with `is_word_char` as the class. */
  method GetWordAtPosition(document: string, pos: Position) returns (r: Option<string>)
    ensures r == WordAt(document, pos)
  {
    r := WordAround(document, pos, IsWordChar);
  }

  // ---------------------------------------------------------------------
  // Positions and byte offsets
  // ---------------------------------------------------------------------

  function Min(a: nat, b: nat): nat { if a <= b then a else b }

  /**
   * The offset `position_to_byte` computes over the lines of the text:
   * each earlier line counts its length plus one for the newline, then
   * the character offset clamped to the line's length; a line past the
   * last one gives the total.
   */
  function LinesOffset(lines: seq<string>, line: nat, character: nat): nat
  {
    if lines == [] then 0
    else if line == 0 then Min(character, |lines[0]|)
    else |lines[0]| + 1 + LinesOffset(lines[1..], line - 1, character)
  }

  function ByteOffset(source: string, pos: Position): nat
  {
    LinesOffset(Lines(source), pos.line, pos.character)
  }

  /** `position_to_byte`: the loop accumulating `byte_offset` line by line. */
  method PositionToByte(source: string, pos: Position) returns (offset: nat)
    ensures offset == ByteOffset(source, pos)
  {
    var lines := Lines(source);
    offset := 0;
    var k := 0;
    while k < |lines|
      invariant k <= |lines| && k <= pos.line
      invariant ByteOffset(source, pos) == offset + LinesOffset(lines[k..], pos.line - k, pos.character)
    {
      assert lines[k..][1..] == lines[k + 1..];
      if k == pos.line {
        return offset + Min(pos.character, |lines[k]|);
      }
      offset := offset + |lines[k]| + 1;
      k := k + 1;
    }
  }

  /**
   * On text without carriage returns, the offset of a position inside a
   * line is the offset of exactly that character.
   */
  lemma {:induction false} ByteOffsetPointsAtCharacter(source: string, pos: Position)
    requires '\r' !in source
    requires pos.line < |Lines(source)| && pos.character < |Lines(source)[pos.line]|
    ensures ByteOffset(source, pos) < |source|
    ensures source[ByteOffset(source, pos)] == Lines(source)[pos.line][pos.character]
    decreases |source|
  {
    match FindChar(source, '\n')
    case None =>
      SingleLine(source);
    case Some(i) =>
      NoCrInSlice(source, 0, i);
      assert source[0..i] == source[..i];
      FirstLine(source, i, source[..i]);
      if pos.line > 0 {
        var rest := source[i + 1..];
        LinesTail(source, i, rest);
        NoCrInRest(source, i + 1);
        var p' := Position(pos.line - 1, pos.character);
        ByteOffsetPointsAtCharacter(rest, p');
        assert ByteOffset(source, pos) == i + 1 + ByteOffset(rest, p');
      }
  }

  // ---------------------------------------------------------------------
  // Text edits
  // ---------------------------------------------------------------------

  /** Position of the last occurrence of `c`, if any. */
  function LastIndexOf(s: string, c: char): (r: Option<nat>)
    ensures r.Some? ==> r.value < |s| && s[r.value] == c && forall j :: r.value < j < |s| ==> s[j] != c
    ensures r.None? ==> forall j :: 0 <= j < |s| ==> s[j] != c
  {
    if s == [] then None
    else if s[|s| - 1] == c then Some(|s| - 1)
    else LastIndexOf(s[..|s| - 1], c)
  }

  /**
   * `calculate_position_after_edit` as written: the length of the last
   * element of `lines()` becomes the character, so a text that ends in a
   * newline reports the length of the line before it.
   */
  function CalculatePositionAfterEdit(start: Position, inserted: string): (r: Position)
    ensures inserted == "" ==> r == start
    ensures inserted != "" && '\n' !in inserted ==> r == Position(start.line, start.character + |inserted|)
    ensures '\n' in inserted ==> r.line == start.line + CountChar(inserted, '\n')
  {
    if inserted == [] then start
    else
      var newlines := CountChar(inserted, '\n');
      CountCharPositive(inserted, '\n');
      if newlines == 0 then
        Position(start.line, start.character + |inserted|)
      else
        var ls := Lines(inserted);
        var lastLine := if |ls| > 0 then ls[|ls| - 1] else "";
        Position(start.line + newlines, |lastLine|)
  }

  lemma {:induction false} CountCharPositive(s: string, c: char)
    ensures c in s <==> CountChar(s, c) > 0
  {
    if s != [] {
      CountCharPositive(s[1..], c);
      assert s == [s[0]] + s[1..];
    }
  }

  /**
   * The end position after inserting `inserted` at `start`: a text with no
   * newline moves the character; otherwise the line advances by the
   * number of newlines and the character is the length after the last
   * newline. This is the position tree-sitter expects as the new end of
   * an edit.
   */
  function PositionAfterEdit(start: Position, inserted: string): (r: Position)
    ensures inserted == "" ==> r == start
    ensures '\n' !in inserted ==> r == Position(start.line, start.character + |inserted|)
  {
    match LastIndexOf(inserted, '\n')
    case None => Position(start.line, start.character + |inserted|)
    case Some(i) => Position(start.line + CountChar(inserted, '\n'), |inserted| - (i + 1))
  }

  /** The line/character position at the end of a text. */
  function EndPosition(t: string): Position
  {
    match LastIndexOf(t, '\n')
    case None => Position(0, |t|)
    case Some(i) => Position(CountChar(t, '\n'), |t| - (i + 1))
  }

  lemma {:induction false} LastIndexOfAppend(a: string, b: string, c: char)
    ensures LastIndexOf(b, c).Some? ==> LastIndexOf(a + b, c) == Some(|a| + LastIndexOf(b, c).value)
    ensures LastIndexOf(b, c).None? ==> LastIndexOf(a + b, c) == LastIndexOf(a, c)
    decreases |b|
  {
    if b == [] {
      assert a + b == a;
    } else {
      var ab := a + b;
      assert ab[|ab| - 1] == b[|b| - 1];
      if b[|b| - 1] != c {
        assert ab[..|ab| - 1] == a + b[..|b| - 1];
        LastIndexOfAppend(a, b[..|b| - 1], c);
      }
    }
  }

  /**
   * The corrected end position is where the inserted text ends: inserting
   * `inserted` at the end of `before` ends at the end of
   * `before + inserted`.
   */
  lemma PositionAfterEditIsEnd(before: string, inserted: string)
    ensures PositionAfterEdit(EndPosition(before), inserted) == EndPosition(before + inserted)
  {
    LastIndexOfAppend(before, inserted, '\n');
    CountCharAppend(before, inserted, '\n');
    CountCharPositive(before, '\n');
    if LastIndexOf(inserted, '\n').None? {
      CountCharPositive(inserted, '\n');
      assert CountChar(inserted, '\n') == 0;
    }
  }

  /**
   * As written, inserting `"x\n"` at the start of a document reports the
   * new end as line 1, character 1, while the inserted text ends at
   * line 1, character 0.
   */
  lemma CalculatePositionAfterEditTrailingNewline()
    ensures CalculatePositionAfterEdit(Position(0, 0), "x\n") == Position(1, 1)
    ensures EndPosition("" + "x\n") == Position(1, 0)
  {
    assert "" + "x\n" == "x\n";
    assert FindChar("x\n", '\n') == Some(1);
    assert "x\n"[2..] == [];
    assert "x\n"[..1] == "x";
    assert StripCr("x") == "x";
    assert Lines("x\n") == ["x"];
    assert CountChar("x\n", '\n') == 1 by {
      assert "x\n"[1..] == "\n";
      assert "\n"[1..] == [];
    }
    assert LastIndexOf("x\n", '\n') == Some(1);
  }

  /**
   * `apply_text_edit`: the bytes between the offsets of `start` and `end`
   * are replaced by the new text (the source's `replace_range` panics
   * unless those offsets are ordered and inside the text); the returned
   * position is the one `calculate_position_after_edit` computes as
   * written, which for a text ending in a newline is not where the
   * inserted text ends (see `CalculatePositionAfterEditTrailingNewline`).
   */
  method ApplyTextEdit(text: string, start: Position, end: Position, newText: string) returns (text': string, newEnd: Position)
    requires ByteOffset(text, start) <= ByteOffset(text, end) <= |text|
    ensures |text'| == |text| - (ByteOffset(text, end) - ByteOffset(text, start)) + |newText|
    ensures text'[..ByteOffset(text, start)] == text[..ByteOffset(text, start)]
    ensures text'[ByteOffset(text, start)..ByteOffset(text, start) + |newText|] == newText
    ensures text'[ByteOffset(text, start) + |newText|..] == text[ByteOffset(text, end)..]
    ensures newEnd == CalculatePositionAfterEdit(start, newText)
  {
    var startByte := PositionToByte(text, start);
    var endByte := PositionToByte(text, end);
    text' := text[..startByte] + newText + text[endByte..];
    newEnd := CalculatePositionAfterEdit(start, newText);
  }

  // ---------------------------------------------------------------------
  // The node under a byte offset
  // ---------------------------------------------------------------------

  predicate Touches(n: Node, offset: nat) { n.startByte <= offset <= n.endByte }

  predicate Encloses(n: Node, offset: nat) { n.startByte <= offset < n.endByte }

  /** The first child that strictly encloses the offset, else the first one it touches. */
  function PickChild(xs: seq<Node>, offset: nat): (r: Option<nat>)
    ensures r.Some? ==> r.value < |xs| && Touches(xs[r.value], offset)
    ensures r.None? ==> forall j :: 0 <= j < |xs| ==> !Touches(xs[j], offset)
    ensures r.Some? && !Encloses(xs[r.value], offset) ==> forall j :: 0 <= j < |xs| ==> !Encloses(xs[j], offset)
    ensures r.Some? && Encloses(xs[r.value], offset) ==> forall j :: 0 <= j < r.value ==> !Encloses(xs[j], offset)
  {
    match FirstEnclosing(xs, offset)
    case Some(i) => Some(i)
    case None => FirstTouching(xs, offset)
  }

  function FirstEnclosing(xs: seq<Node>, offset: nat): (r: Option<nat>)
    ensures r.Some? ==> r.value < |xs| && Encloses(xs[r.value], offset)
    ensures r.Some? ==> forall j :: 0 <= j < r.value ==> !Encloses(xs[j], offset)
    ensures r.None? ==> forall j :: 0 <= j < |xs| ==> !Encloses(xs[j], offset)
  {
    if xs == [] then None
    else if Encloses(xs[0], offset) then Some(0)
    else
      match FirstEnclosing(xs[1..], offset)
      case None => None
      case Some(i) => Some(i + 1)
  }

  function FirstTouching(xs: seq<Node>, offset: nat): (r: Option<nat>)
    ensures r.Some? ==> r.value < |xs| && Touches(xs[r.value], offset)
    ensures r.None? ==> forall j :: 0 <= j < |xs| ==> !Touches(xs[j], offset)
  {
    if xs == [] then None
    else if Touches(xs[0], offset) then Some(0)
    else
      match FirstTouching(xs[1..], offset)
      case None => None
      case Some(i) => Some(i + 1)
  }

  /** Each node of the chain is a child of the next one. */
  predicate IsAncestorChain(chain: seq<Node>)
  {
    forall i :: 0 <= i < |chain| - 1 ==> chain[i] in chain[i + 1].children
  }

  /**
   * `find_deepest_node`, returning the found node followed by its ancestors
   * up to `n`: descend into the first child that encloses the offset,
   * else into the first child it touches at an end, else stop.
   */
  function DeepestPath(n: Node, offset: nat): (r: Option<seq<Node>>)
    ensures r.Some? <==> Touches(n, offset)
    ensures r.Some? ==> |r.value| > 0 && r.value[|r.value| - 1] == n && IsAncestorChain(r.value)
    ensures r.Some? ==> forall i :: 0 <= i < |r.value| ==> Touches(r.value[i], offset)
    ensures r.Some? ==> forall c :: c in r.value[0].children ==> !Encloses(c, offset)
    decreases n
  {
    if !Touches(n, offset) then None
    else
      match PickChild(n.children, offset)
      case None => Some([n])
      case Some(i) =>
        var c := n.children[i];
        var below := DeepestPath(c, offset);
        assert below.Some?;
        var p := below.value + [n];
        assert p[|below.value| - 1] == c;
        Some(p)
  }

  /** `node_at_position`: the deepest node at the position's byte offset, with its ancestors. */
  function NodeAtPosition(root: Node, source: string, pos: Position): (r: Option<seq<Node>>)
    ensures r.Some? <==> Touches(root, ByteOffset(source, pos))
    ensures r.Some? ==> |r.value| > 0 && IsAncestorChain(r.value) && r.value[|r.value| - 1] == root
  {
    DeepestPath(root, ByteOffset(source, pos))
  }

  const CommentKinds: set<string> := {"comment_block", "comment_line", "comment_block_annot", "comment_line_annot"}

  /**
   * `is_inside_comment_node`: the offset is inside a comment node reached
   * through nodes that all enclose it.
   */
  function InsideComment(n: Node, offset: nat): (r: bool)
    ensures r ==> Encloses(n, offset)
    decreases n, 1
  {
    Encloses(n, offset) && (n.kind in CommentKinds || InsideCommentAny(n.children, offset))
  }

  function InsideCommentAny(xs: seq<Node>, offset: nat): bool
    decreases xs, 0
  {
    xs != [] && (InsideComment(xs[0], offset) || InsideCommentAny(xs[1..], offset))
  }

  /** A position reported inside a comment lies in a comment node of the tree. */
  lemma {:induction false} InsideCommentFindsComment(n: Node, offset: nat)
    requires InsideComment(n, offset)
    ensures exists c :: c in PreOrder(n) && c.kind in CommentKinds && Encloses(c, offset)
    decreases n, 1
  {
    if n.kind in CommentKinds {
      assert n == PreOrder(n)[0];
    } else {
      InsideCommentAnyFindsComment(n.children, offset);
      var c :| c in PreOrderAll(n.children) && c.kind in CommentKinds && Encloses(c, offset);
      assert c in PreOrder(n);
    }
  }

  lemma {:induction false} InsideCommentAnyFindsComment(xs: seq<Node>, offset: nat)
    requires InsideCommentAny(xs, offset)
    ensures exists c :: c in PreOrderAll(xs) && c.kind in CommentKinds && Encloses(c, offset)
    decreases xs, 0
  {
    if InsideComment(xs[0], offset) {
      InsideCommentFindsComment(xs[0], offset);
      var c :| c in PreOrder(xs[0]) && c.kind in CommentKinds && Encloses(c, offset);
      assert c in PreOrderAll(xs);
    } else {
      InsideCommentAnyFindsComment(xs[1..], offset);
      var c :| c in PreOrderAll(xs[1..]) && c.kind in CommentKinds && Encloses(c, offset);
      assert c in PreOrderAll(xs);
    }
  }

  /** `is_inside_comment`: the check at the position's byte offset. */
  function IsInsideComment(root: Node, source: string, pos: Position): (r: bool)
    ensures r ==> exists c :: c in PreOrder(root) && c.kind in CommentKinds && Encloses(c, ByteOffset(source, pos))
  {
    var off := ByteOffset(source, pos);
    if InsideComment(root, off) then
      InsideCommentFindsComment(root, off);
      true
    else false
  }
}
