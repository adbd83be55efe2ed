/**
 * Find-references (src/references.rs): which symbol the cursor names, the
 * tree walk that collects its occurrences while keeping a stack of the
 * enclosing blocks, and the sorted, de-duplicated result.
 *
 * A URI that `Url::parse` rejects is represented by `None`; with it no
 * location is produced.
 */
module References {
  import opened Wrappers
  import opened CoreTypes
  import opened Tree
  import opened Text
  import opened Symbols
  import opened Sorting
  import U = Utils

  /** What the references are searched for. */
  datatype ReferenceTarget =
    | FunctionTarget(name: Option<string>, index: nat)
    | GlobalTarget(name: Option<string>, index: nat)
    | LocalTarget(name: Option<string>, index: nat, functionStartByte: nat)
    | ParameterTarget(name: Option<string>, index: nat, functionStartByte: nat)
    | BlockLabelTarget(labelName: string, functionStartByte: nat, line: nat)
    | TableTarget(name: Option<string>, index: nat)
    | MemoryTarget(name: Option<string>, index: nat)
    | TypeTarget(name: Option<string>, index: nat)
    | TagTarget(name: Option<string>, index: nat)

  /** The name a target is found by; a block label is its own name. */
  function NameOf(t: ReferenceTarget): Option<string>
  {
    if t.BlockLabelTarget? then Some(t.labelName) else t.name
  }

  /** The only context in which occurrences of the target are reported. */
  function TargetContext(t: ReferenceTarget): U.InstructionContext
  {
    match t
    case FunctionTarget(_, _) => U.Call
    case GlobalTarget(_, _) => U.Global
    case LocalTarget(_, _, _) => U.Local
    case ParameterTarget(_, _, _) => U.Local
    case BlockLabelTarget(_, _, _) => U.Branch
    case TableTarget(_, _) => U.Table
    case MemoryTarget(_, _) => U.Memory
    case TypeTarget(_, _) => U.Type
    case TagTarget(_, _) => U.Tag
  }

  /** Targets whose occurrences must lie in their own function. */
  predicate IsScoped(t: ReferenceTarget)
  {
    t.LocalTarget? || t.ParameterTarget? || t.BlockLabelTarget?
  }

  datatype Location = Location(uri: string, range: Range)

  /** An entry of the block stack: the block's label, if any, and its start line. */
  datatype BlockInfo = BlockInfo(blockLabel: Option<string>, line: nat)

  // ---------------------------------------------------------------------
  // The local index space
  // ---------------------------------------------------------------------

  /** An entry of a function's local index space. */
  datatype LocalSlot = ParamSlot(param: Parameter) | VarSlot(variable: Variable)

  /**
   * Index `i` of the local space: the parameters come first, the locals
   * follow at `i - |parameters|`.
   */
  function LocalSpaceAt(f: Function, i: nat): (r: Option<LocalSlot>)
    ensures r.Some? <==> i < |f.parameters| + |f.locals|
    ensures i < |f.parameters| ==> r == Some(ParamSlot(f.parameters[i]))
    ensures |f.parameters| <= i < |f.parameters| + |f.locals| ==> r == Some(VarSlot(f.locals[i - |f.parameters|]))
  {
    if i < |f.parameters| then Some(ParamSlot(f.parameters[i]))
    else if i - |f.parameters| < |f.locals| then Some(VarSlot(f.locals[i - |f.parameters|]))
    else None
  }

  /** Parameters and locals numbered by their positions, as the extractor numbers them. */
  predicate PositionallyIndexed(f: Function)
  {
    (forall k :: 0 <= k < |f.parameters| ==> f.parameters[k].index == k)
    && (forall k :: 0 <= k < |f.locals| ==> f.locals[k].index == k)
  }

  /**
   * The index a named lookup reports (a parameter's own index, a local's
   * index plus the parameter count) leads the numeric lookup back to the
   * same entry.
   */
  lemma LocalSpaceRoundTrip(f: Function, k: nat)
    requires PositionallyIndexed(f)
    ensures k < |f.parameters| ==> LocalSpaceAt(f, f.parameters[k].index) == Some(ParamSlot(f.parameters[k]))
    ensures k < |f.locals| ==> LocalSpaceAt(f, f.locals[k].index + |f.parameters|) == Some(VarSlot(f.locals[k]))
  {
  }

  // ---------------------------------------------------------------------
  // Scoping by line
  // ---------------------------------------------------------------------

  predicate Spans(f: Function, line: nat) { f.line <= line <= f.endLine }

  /** Function `i` is the first whose line range contains `line`. */
  predicate FirstSpanning(functions: seq<Function>, line: nat, i: int)
  {
    0 <= i < |functions| && Spans(functions[i], line)
    && forall j :: 0 <= j < i ==> !Spans(functions[j], line)
  }

  /**
   * `is_in_same_function_by_line`: the first function whose line range
   * contains the line decides; with none, the answer is no.
   */
  function IsInSameFunctionByLine(line: nat, targetStart: nat, functions: seq<Function>): (r: bool)
    ensures r <==> exists i :: FirstSpanning(functions, line, i) && functions[i].startByte == targetStart
  {
    match FirstWhere(functions, (f: Function) => Spans(f, line))
    case None => false
    case Some(i) =>
      assert FirstSpanning(functions, line, i);
      assert forall i' :: FirstSpanning(functions, line, i') ==> i' == i;
      functions[i].startByte == targetStart
  }

  // ---------------------------------------------------------------------
  // Context from a line of text
  // ---------------------------------------------------------------------

  /**
   * `determine_context_from_line_refs`: the keywords in their order of
   * precedence; the keyword test is the one of the shared helpers.
   */
  function DetermineContextFromLineRefs(line: string): (r: U.InstructionContext)
    ensures r == U.Call <==> U.LineContainsKeyword(line, "call")
    ensures r == U.Global <==> !U.LineContainsKeyword(line, "call") && U.LineContainsKeyword(line, "global")
    ensures r == U.General <==>
      (!U.LineContainsKeyword(line, "call") && !U.LineContainsKeyword(line, "global")
       && !U.LineContainsKeyword(line, "local") && !U.LineContainsKeyword(line, "br")
       && !U.LineContainsKeyword(line, "table") && !U.LineContainsKeyword(line, "memory")
       && !U.LineContainsKeyword(line, "type") && !U.LineContainsKeyword(line, "struct")
       && !U.LineContainsKeyword(line, "array") && !Contains(line, "ref.")
       && !U.LineContainsKeyword(line, "func") && !U.LineContainsKeyword(line, "throw")
       && !U.LineContainsKeyword(line, "tag"))
    ensures r != U.Block && r != U.Data && r != U.Elem
  {
    if U.LineContainsKeyword(line, "call") then U.Call
    else if U.LineContainsKeyword(line, "global") then U.Global
    else if U.LineContainsKeyword(line, "local") then U.Local
    else if U.LineContainsKeyword(line, "br") then U.Branch
    else if U.LineContainsKeyword(line, "table") then U.Table
    else if U.LineContainsKeyword(line, "memory") then U.Memory
    else if U.LineContainsKeyword(line, "type") || U.LineContainsKeyword(line, "struct")
         || U.LineContainsKeyword(line, "array") || Contains(line, "ref.")
    then U.Type
    else if U.LineContainsKeyword(line, "func") then U.Function
    else if U.LineContainsKeyword(line, "throw") || U.LineContainsKeyword(line, "tag") then U.Tag
    else U.General
  }

  /** The line-based context of the cursor line; General when there is no such line. */
  function LineContext(document: string, pos: Position): U.InstructionContext
  {
    match LineAt(document, pos.line)
    case None => U.General
    case Some(line) => DetermineContextFromLineRefs(line)
  }

  /**
   * The context at the cursor: that of the node under it, falling back to
   * the line when the node gives General or there is no node.
   */
  function ContextAt(document: string, root: Node, pos: Position): (r: U.InstructionContext)
    ensures U.NodeAtPosition(root, document, pos).None? ==> r == LineContext(document, pos)
    ensures r == U.General ==> LineContext(document, pos) == U.General
  {
    match U.NodeAtPosition(root, document, pos)
    case None => LineContext(document, pos)
    case Some(chain) =>
      var c := U.DetermineInstructionContextAtNode(chain[0], chain[1..], document);
      if c == U.General then LineContext(document, pos) else c
  }

  // ---------------------------------------------------------------------
  // Numbers and the block stack
  // ---------------------------------------------------------------------

  /** `parse_nat`: hexadecimal after `0x` or `0X`, decimal otherwise. */
  function ParseNat(text: string): (r: Option<nat>)
    ensures r.Some? ==> r.value < USIZE_BOUND
  {
    if StartsWith(text, "0x") || StartsWith(text, "0X") then ParseUnsigned(text[2..], 16, USIZE_BOUND)
    else ParseUnsigned(text, 10, USIZE_BOUND)
  }

  /** A printed number reads back as itself, and a `0x` prefix selects base 16. */
  lemma ParseNatRoundTrip(n: nat, digits: string)
    requires n < USIZE_BOUND
    ensures ParseNat(NatToString(n)) == Some(n)
    ensures ParseNat("0x" + digits) == ParseUnsigned(digits, 16, USIZE_BOUND)
  {
    var s := NatToString(n);
    if |s| >= 2 {
      assert IsDigit(s[1]);
    }
    assert !StartsWith(s, "0x") && !StartsWith(s, "0X");
    ParseNatToString(n, USIZE_BOUND);
    assert ("0x" + digits)[..2] == "0x" && ("0x" + digits)[2..] == digits;
  }

  /** `resolve_block_by_depth`: depth 0 is the innermost block, the last entry. */
  function ResolveBlockByDepth(depth: nat, stack: seq<BlockInfo>): (r: Option<BlockInfo>)
    ensures r.None? <==> depth >= |stack|
    ensures r.Some? ==> r.value == stack[|stack| - 1 - depth]
  {
    if depth >= |stack| then None else Some(stack[|stack| - 1 - depth])
  }

  /** Entering a block makes it depth 0 and moves every other block one level out. */
  lemma ResolveAfterPush(stack: seq<BlockInfo>, b: BlockInfo, depth: nat)
    ensures ResolveBlockByDepth(0, stack + [b]) == Some(b)
    ensures ResolveBlockByDepth(depth + 1, stack + [b]) == ResolveBlockByDepth(depth, stack)
  {
  }

  predicate IsStackBlock(k: string)
  {
    k in {"block_block", "block_loop", "block_if", "expr1_block", "expr1_loop", "expr1_if"}
  }

  /** `extract_block_label`: the text of the first identifier child. */
  function ExtractBlockLabel(n: Node, document: string): (r: Option<string>)
    ensures r.Some? <==> exists c :: c in n.children && c.kind == "identifier"
  {
    match FirstOfKind(n.children, "identifier")
    case None => None
    case Some(i) => Some(NodeText(n.children[i], document))
  }

  function BlockInfoOf(n: Node, document: string): BlockInfo
  {
    BlockInfo(ExtractBlockLabel(n, document), n.startPoint.row)
  }

  function OwnBlock(n: Node, document: string): seq<BlockInfo>
  {
    if IsStackBlock(n.kind) then [BlockInfoOf(n, document)] else []
  }

  /**
   * The block stack at a node, given the node and its ancestors (parent
   * first): the outermost block first, the innermost last.
   */
  function EnclosingBlocks(chain: seq<Node>, document: string): seq<BlockInfo>
  {
    if chain == [] then [] else EnclosingBlocks(chain[1..], document) + OwnBlock(chain[0], document)
  }

  /** The blocks of a chain, innermost first. */
  function BlocksInnermostFirst(chain: seq<Node>, document: string): seq<BlockInfo>
  {
    if chain == [] then [] else OwnBlock(chain[0], document) + BlocksInnermostFirst(chain[1..], document)
  }

  /** On the stack of enclosing blocks, depth `d` names the `d`-th block counted outwards. */
  lemma {:induction false} DepthCountsOutwards(chain: seq<Node>, document: string, d: nat)
    ensures |EnclosingBlocks(chain, document)| == |BlocksInnermostFirst(chain, document)|
    ensures ResolveBlockByDepth(d, EnclosingBlocks(chain, document))
         == (if d < |BlocksInnermostFirst(chain, document)| then Some(BlocksInnermostFirst(chain, document)[d]) else None)
  {
    if chain != [] {
      var rest := chain[1..];
      if d > 0 {
        DepthCountsOutwards(rest, document, d - 1);
      }
      DepthCountsOutwards(rest, document, d);
      if IsStackBlock(chain[0].kind) {
        ResolveAfterPush(EnclosingBlocks(rest, document), BlockInfoOf(chain[0], document), if d > 0 then d - 1 else 0);
      } else {
        assert EnclosingBlocks(chain, document) == EnclosingBlocks(rest, document);
      }
    }
  }

  /** `n` is `root` or lies below it. */
  ghost predicate InTree(n: Node, root: Node)
    decreases root
  {
    n == root || exists c :: c in root.children && InTree(n, c)
  }

  predicate TouchesByte(n: Node, target: nat) { n.startByte <= target <= n.endByte }

  /**
   * What `build_block_stack_recursive` pushes: the blocks, in pre-order,
   * among the nodes reached through nodes that contain the target byte.
   */
  function BlockStackOf(n: Node, document: string, target: nat): (r: seq<BlockInfo>)
    ensures forall b :: b in r ==>
      exists m :: InTree(m, n) && IsStackBlock(m.kind) && TouchesByte(m, target) && b == BlockInfoOf(m, document)
    decreases n, 1
  {
    if !TouchesByte(n, target) then []
    else
      var below := BlockStackOfAll(n.children, document, target);
      assert forall b :: b in below ==> exists m :: InTree(m, n) && IsStackBlock(m.kind) && TouchesByte(m, target) && b == BlockInfoOf(m, document);
      OwnBlock(n, document) + below
  }

  function BlockStackOfAll(xs: seq<Node>, document: string, target: nat): (r: seq<BlockInfo>)
    ensures forall b :: b in r ==>
      exists x, m :: x in xs && InTree(m, x) && IsStackBlock(m.kind) && TouchesByte(m, target) && b == BlockInfoOf(m, document)
    decreases xs, 0
  {
    if xs == [] then []
    else
      var init := BlockStackOfAll(xs[..|xs| - 1], document, target);
      var last := BlockStackOf(xs[|xs| - 1], document, target);
      assert forall b :: b in init + last ==>
        exists x, m :: x in xs && InTree(m, x) && IsStackBlock(m.kind) && TouchesByte(m, target) && b == BlockInfoOf(m, document)
      by {
        forall b | b in init + last
          ensures exists x, m :: x in xs && InTree(m, x) && IsStackBlock(m.kind) && TouchesByte(m, target) && b == BlockInfoOf(m, document)
        {
          if b in init {
            var x, m :| x in xs[..|xs| - 1] && InTree(m, x) && IsStackBlock(m.kind) && TouchesByte(m, target) && b == BlockInfoOf(m, document);
            assert x in xs;
          } else {
            var m :| InTree(m, xs[|xs| - 1]) && IsStackBlock(m.kind) && TouchesByte(m, target) && b == BlockInfoOf(m, document);
            assert xs[|xs| - 1] in xs;
          }
        }
      }
      init + last
  }

  /** `build_block_stack_recursive`: pushes onto the stack it is given. */
  method BuildBlockStackRecursive(n: Node, document: string, target: nat, stack: seq<BlockInfo>)
    returns (stack': seq<BlockInfo>)
    ensures stack' == stack + BlockStackOf(n, document, target)
    decreases n
  {
    stack' := stack;
    if n.startByte > target || n.endByte < target {
      return;
    }
    if IsStackBlock(n.kind) {
      stack' := stack' + [BlockInfoOf(n, document)];
    }
    ghost var own := stack';
    var i := 0;
    while i < |n.children|
      invariant 0 <= i <= |n.children|
      invariant stack' == own + BlockStackOfAll(n.children[..i], document, target)
    {
      assert n.children[..i + 1][..i] == n.children[..i];
      AppendAssoc(own, BlockStackOfAll(n.children[..i], document, target), BlockStackOf(n.children[i], document, target));
      stack' := BuildBlockStackRecursive(n.children[i], document, target, stack');
      i := i + 1;
    }
    assert n.children[..i] == n.children;
    AppendAssoc(stack, OwnBlock(n, document), BlockStackOfAll(n.children, document, target));
  }

  // ---------------------------------------------------------------------
  // This file's own position-to-byte conversion
  // ---------------------------------------------------------------------

  /** The first newline at or after `from`. */
  function NextNewline(d: string, from: nat): (r: Option<nat>)
    requires from <= |d|
    ensures r.Some? ==> from <= r.value < |d| && d[r.value] == '\n'
    ensures r.Some? ==> forall k :: from <= k < r.value ==> d[k] != '\n'
    ensures r.None? ==> forall k :: from <= k < |d| ==> d[k] != '\n'
    decreases |d| - from
  {
    if from == |d| then None else if d[from] == '\n' then Some(from) else NextNewline(d, from + 1)
  }

  /**
   * The offset `position_to_byte` of this file finds from `lineStart`, the
   * start of a line, for the line `line` further on: on the wanted line
   * the character offset, limited by the end of the whole text (not of
   * the line); past the last line, the start of the last line.
   */
  function ScanFrom(d: string, lineStart: nat, line: nat, character: nat): (r: nat)
    requires lineStart <= |d|
    ensures lineStart <= r <= |d|
    decreases |d| - lineStart
  {
    if lineStart == |d| then lineStart
    else if line == 0 then lineStart + U.Min(character, |d| - lineStart)
    else
      match NextNewline(d, lineStart)
      case None => lineStart
      case Some(j) => ScanFrom(d, j + 1, line - 1, character)
  }

  /**
   * The inner walk of `position_to_byte` over the rest of the text from
   * the wanted line's start: the character offset, or the end of the text.
   */
  method OffsetInRest(document: string, lineStart: nat, character: nat) returns (offset: nat)
    requires lineStart <= |document|
    ensures offset == lineStart + U.Min(character, |document| - lineStart)
  {
    var count := 0;
    while count < |document| - lineStart
      invariant count <= |document| - lineStart && count <= character
    {
      if count == character {
        return lineStart + count;
      }
      count := count + 1;
    }
    return |document|;
  }

  /** `position_to_byte`: the character walk counting lines. */
  method PositionToByte(document: string, pos: Position) returns (offset: nat)
    ensures offset == ScanFrom(document, 0, pos.line, pos.character)
  {
    var byteOffset: nat := 0;
    var currentLine: nat := 0;
    var i := 0;
    while i < |document|
      invariant byteOffset <= i <= |document|
      invariant currentLine <= pos.line
      invariant currentLine == pos.line ==> i == byteOffset
      invariant forall k :: byteOffset <= k < i ==> document[k] != '\n'
      invariant ScanFrom(document, 0, pos.line, pos.character)
             == ScanFrom(document, byteOffset, pos.line - currentLine, pos.character)
    {
      if currentLine == pos.line {
        offset := OffsetInRest(document, byteOffset, pos.character);
        return;
      }
      if document[i] == '\n' {
        assert NextNewline(document, byteOffset) == Some(i);
        currentLine := currentLine + 1;
        byteOffset := i + 1;
      }
      i := i + 1;
    }
    offset := byteOffset;
  }

  /** The newline `NextNewline` finds is the first one of the rest of the text. */
  lemma FindNewlineInRest(d: string, lineStart: nat, at: nat)
    requires lineStart <= at < |d| && NextNewline(d, lineStart) == Some(at)
    ensures FindChar(d[lineStart..], '\n') == Some(at - lineStart)
  {
    var rest := d[lineStart..];
    assert rest[at - lineStart] == d[at];
    assert forall k :: 0 <= k < at - lineStart ==> rest[k] == d[lineStart + k];
  }

  lemma DropOfDrop(d: string, a: nat, b: nat, c: nat)
    requires a + b == c <= |d|
    ensures d[a..][b..] == d[c..]
  {
  }

  lemma TakeOfDrop(d: string, a: nat, b: nat, c: nat)
    requires a + b == c <= |d|
    ensures d[a..][..b] == d[a..c]
  {
  }

  /** Up to the newline `NextNewline` finds, the rest of the text is its first line. */
  lemma FirstLineAtNewline(d: string, lineStart: nat, at: nat)
    requires '\r' !in d && lineStart <= at < |d| && NextNewline(d, lineStart) == Some(at)
    ensures |Lines(d[lineStart..])| > 0 && Lines(d[lineStart..])[0] == d[lineStart..at]
  {
    FindNewlineInRest(d, lineStart, at);
    TakeOfDrop(d, lineStart, at - lineStart, at);
    NoCrInSlice(d, lineStart, at);
    FirstLine(d[lineStart..], at - lineStart, d[lineStart..at]);
  }

  /** Past that newline come the remaining lines. */
  lemma LinesPastNewline(d: string, lineStart: nat, at: nat)
    requires lineStart <= at < |d| && NextNewline(d, lineStart) == Some(at)
    ensures Lines(d[lineStart..])[1..] == Lines(d[at + 1..])
  {
    FindNewlineInRest(d, lineStart, at);
    DropOfDrop(d, lineStart, at - lineStart + 1, at + 1);
    LinesTail(d[lineStart..], at - lineStart, d[at + 1..]);
  }

  lemma LinesAtNewline(d: string, lineStart: nat, at: nat)
    requires '\r' !in d && lineStart <= at < |d| && NextNewline(d, lineStart) == Some(at)
    ensures |Lines(d[lineStart..])| > 0 && Lines(d[lineStart..])[0] == d[lineStart..at]
    ensures Lines(d[lineStart..])[1..] == Lines(d[at + 1..])
  {
    FirstLineAtNewline(d, lineStart, at);
    LinesPastNewline(d, lineStart, at);
  }

  /** Without a further newline the rest of the text is one line. */
  lemma LinesWithoutNewline(d: string, lineStart: nat)
    requires lineStart < |d| && NextNewline(d, lineStart).None?
    ensures Lines(d[lineStart..]) == [d[lineStart..]]
  {
    var rest := d[lineStart..];
    assert forall k :: 0 <= k < |rest| ==> rest[k] == d[lineStart + k];
    SingleLine(rest);
  }

  /** Past the newline at `at` the scan goes on from the next line. */
  lemma ScanFromNextLine(d: string, lineStart: nat, at: nat, line: nat, character: nat)
    requires lineStart <= at < |d| && line > 0 && NextNewline(d, lineStart) == Some(at)
    ensures ScanFrom(d, lineStart, line, character) == ScanFrom(d, at + 1, line - 1, character)
  {
  }

  /**
   * The text has no carriage returns and (`line`, `character`), counted
   * from `lineStart`, lies inside one of its lines.
   */
  predicate InsideLine(d: string, lineStart: nat, line: nat, character: nat)
  {
    '\r' !in d && lineStart <= |d|
    && line < |Lines(d[lineStart..])| && character <= |Lines(d[lineStart..])[line]|
  }

  /** Line `line` from `lineStart` is line `line - 1` after the first newline. */
  lemma LineAfterNewline(d: string, lineStart: nat, at: nat, line: nat, character: nat)
    requires InsideLine(d, lineStart, line, character) && line > 0
    requires lineStart <= at < |d| && NextNewline(d, lineStart) == Some(at)
    ensures InsideLine(d, at + 1, line - 1, character)
  {
    LinesAtNewline(d, lineStart, at);
  }

  /** On the last line the scan and the line offsets agree. */
  lemma ScanFromAgreesOnLastLine(d: string, lineStart: nat, line: nat, character: nat)
    requires InsideLine(d, lineStart, line, character) && NextNewline(d, lineStart).None?
    ensures ScanFrom(d, lineStart, line, character) == lineStart + U.LinesOffset(Lines(d[lineStart..]), line, character)
  {
    assert d[lineStart..] != [];
    LinesWithoutNewline(d, lineStart);
  }

  /** On a line ended by a newline the scan and the line offsets agree. */
  lemma ScanFromAgreesOnEndedLine(d: string, lineStart: nat, at: nat, line: nat, character: nat)
    requires InsideLine(d, lineStart, line, character) && line == 0
    requires lineStart <= at < |d| && NextNewline(d, lineStart) == Some(at)
    ensures ScanFrom(d, lineStart, line, character) == lineStart + U.LinesOffset(Lines(d[lineStart..]), line, character)
  {
    LinesAtNewline(d, lineStart, at);
  }

  /** Past a newline, agreement on the following lines gives agreement here. */
  lemma ScanFromAgreesPastNewline(d: string, lineStart: nat, at: nat, line: nat, character: nat)
    requires '\r' !in d && lineStart <= at < |d| && NextNewline(d, lineStart) == Some(at) && line > 0
    requires ScanFrom(d, at + 1, line - 1, character) == at + 1 + U.LinesOffset(Lines(d[at + 1..]), line - 1, character)
    ensures ScanFrom(d, lineStart, line, character) == lineStart + U.LinesOffset(Lines(d[lineStart..]), line, character)
  {
    LinesAtNewline(d, lineStart, at);
    ScanFromNextLine(d, lineStart, at, line, character);
  }

  /**
   * On text without carriage returns and inside a line, this conversion
   * agrees with the shared `position_to_byte`.
   */
  lemma {:induction false} ScanFromAgrees(d: string, lineStart: nat, line: nat, character: nat)
    requires InsideLine(d, lineStart, line, character)
    ensures ScanFrom(d, lineStart, line, character) == lineStart + U.LinesOffset(Lines(d[lineStart..]), line, character)
    decreases |d| - lineStart
  {
    match NextNewline(d, lineStart)
    case None =>
      ScanFromAgreesOnLastLine(d, lineStart, line, character);
    case Some(at) =>
      if line == 0 {
        ScanFromAgreesOnEndedLine(d, lineStart, at, line, character);
      } else {
        LineAfterNewline(d, lineStart, at, line, character);
        ScanFromAgrees(d, at + 1, line - 1, character);
        ScanFromAgreesPastNewline(d, lineStart, at, line, character);
      }
  }

  /** `build_block_stack_at_position`. */
  method BuildBlockStackAtPosition(root: Node, document: string, pos: Position) returns (stack: seq<BlockInfo>)
    ensures stack == BlockStackOf(root, document, ScanFrom(document, 0, pos.line, pos.character))
  {
    var target := PositionToByte(document, pos);
    stack := BuildBlockStackRecursive(root, document, target, []);
  }

  // ---------------------------------------------------------------------
  // Identifying the target
  // ---------------------------------------------------------------------

  function NamedFunction(word: string, table: SymbolTable): (r: Option<ReferenceTarget>)
    reads table
    ensures r.Some? <==> table.GetFunctionByName(word).Some?
    ensures r.Some? ==> r.value.FunctionTarget? && r.value.name == Some(word)
  {
    match table.GetFunctionByName(word)
    case None => None
    case Some(f) => Some(FunctionTarget(Some(word), f.index))
  }

  function NamedGlobal(word: string, table: SymbolTable): (r: Option<ReferenceTarget>)
    reads table
    ensures r.Some? <==> table.GetGlobalByName(word).Some?
    ensures r.Some? ==> r.value.GlobalTarget? && r.value.name == Some(word)
  {
    match table.GetGlobalByName(word)
    case None => None
    case Some(g) => Some(GlobalTarget(Some(word), g.index))
  }

  function NamedTable(word: string, table: SymbolTable): (r: Option<ReferenceTarget>)
    reads table
    ensures r.Some? <==> table.GetTableByName(word).Some?
    ensures r.Some? ==> r.value.TableTarget? && r.value.name == Some(word)
  {
    match table.GetTableByName(word)
    case None => None
    case Some(t) => Some(TableTarget(Some(word), t.index))
  }

  function NamedMemory(word: string, table: SymbolTable): (r: Option<ReferenceTarget>)
    reads table
    ensures r.Some? <==> table.GetMemoryByName(word).Some?
    ensures r.Some? ==> r.value.MemoryTarget? && r.value.name == Some(word)
  {
    match table.GetMemoryByName(word)
    case None => None
    case Some(m) => Some(MemoryTarget(Some(word), m.index))
  }

  function NamedType(word: string, table: SymbolTable): (r: Option<ReferenceTarget>)
    reads table
    ensures r.Some? <==> table.GetTypeByName(word).Some?
    ensures r.Some? ==> r.value.TypeTarget? && r.value.name == Some(word)
  {
    match table.GetTypeByName(word)
    case None => None
    case Some(t) => Some(TypeTarget(Some(word), t.index))
  }

  function NamedTag(word: string, table: SymbolTable): (r: Option<ReferenceTarget>)
    reads table
    ensures r.Some? <==> table.GetTagByName(word).Some?
    ensures r.Some? ==> r.value.TagTarget? && r.value.name == Some(word)
  {
    match table.GetTagByName(word)
    case None => None
    case Some(t) => Some(TagTarget(Some(word), t.index))
  }

  /**
   * The parameter named `word`, else the local named `word`, of `f`; a
   * local reports its index shifted past the parameters.
   */
  function ParamOrLocalByName(word: string, f: Function): (r: Option<ReferenceTarget>)
    ensures (exists k :: 0 <= k < |f.parameters| && f.parameters[k].name == Some(word)) ==> r.Some? && r.value.ParameterTarget?
    ensures r.Some? && r.value.ParameterTarget? ==>
      exists k :: 0 <= k < |f.parameters| && f.parameters[k].name == Some(word) && r.value.index == f.parameters[k].index
    ensures r.Some? && r.value.LocalTarget? ==>
      exists k :: 0 <= k < |f.locals| && f.locals[k].name == Some(word) && r.value.index == f.locals[k].index + |f.parameters|
    ensures r.None? <==>
      (forall k :: 0 <= k < |f.parameters| ==> f.parameters[k].name != Some(word))
      && (forall k :: 0 <= k < |f.locals| ==> f.locals[k].name != Some(word))
    ensures r.Some? ==> (r.value.ParameterTarget? || r.value.LocalTarget?) && r.value.name == Some(word)
    ensures r.Some? ==> r.value.functionStartByte == f.startByte
  {
    match FirstWhere(f.parameters, (p: Parameter) => p.name == Some(word))
    case Some(k) => Some(ParameterTarget(Some(word), f.parameters[k].index, f.startByte))
    case None =>
      match FirstWhere(f.locals, (v: Variable) => v.name == Some(word))
      case Some(k) => Some(LocalTarget(Some(word), f.locals[k].index + |f.parameters|, f.startByte))
      case None => None
  }

  /** The first block of `f` labelled `word`. */
  function BlockByName(word: string, f: Function): (r: Option<ReferenceTarget>)
    ensures r.Some? <==> exists k :: 0 <= k < |f.blocks| && f.blocks[k].labelName == word
    ensures r.Some? ==> r.value.BlockLabelTarget? && r.value.labelName == word && r.value.functionStartByte == f.startByte
    ensures r.Some? ==> exists k :: 0 <= k < |f.blocks| && f.blocks[k].labelName == word && r.value.line == f.blocks[k].line
                                    && forall j :: 0 <= j < k ==> f.blocks[j].labelName != word
  {
    match FirstWhere(f.blocks, (b: BlockLabel) => b.labelName == word)
    case None => None
    case Some(k) => Some(BlockLabelTarget(word, f.startByte, f.blocks[k].line))
  }

  /** `identify_named_symbol`: the lookups each context allows, in order. */
  function IdentifyNamedSymbol(word: string, table: SymbolTable, ctx: U.InstructionContext, pos: Position)
    : (r: Option<ReferenceTarget>)
    reads table
    ensures r.Some? ==> NameOf(r.value) == Some(word)
    ensures ctx == U.Call ==> r == NamedFunction(word, table)
    ensures ctx == U.Local && r.Some? ==> r.value.ParameterTarget? || r.value.LocalTarget?
    ensures (ctx == U.Branch || ctx == U.Block) && r.Some? ==> r.value.BlockLabelTarget?
    ensures (ctx == U.Function || ctx == U.General) && NamedFunction(word, table).Some? ==> r == NamedFunction(word, table)
    ensures ctx == U.Data || ctx == U.Elem ==> r.None?
  {
    var owner := U.FindContainingFunction(table.functions, pos);
    match ctx
    case Call => NamedFunction(word, table)
    case Global => NamedGlobal(word, table)
    case Local => if owner.None? then None else ParamOrLocalByName(word, owner.value)
    case Branch => if owner.None? then None else BlockByName(word, owner.value)
    case Block => if owner.None? then None else BlockByName(word, owner.value)
    case Function => AnyNamed(word, table, owner)
    case General => AnyNamed(word, table, owner)
    case Table => NamedTable(word, table)
    case Memory => NamedMemory(word, table)
    case Type => NamedType(word, table)
    case Tag => NamedTag(word, table)
    case Data => None
    case Elem => None
  }

  /** The Function/General order: function, parameter, local, block, global, table, memory, type, tag. */
  function AnyNamed(word: string, table: SymbolTable, owner: Option<Function>): (r: Option<ReferenceTarget>)
    reads table
    ensures r.Some? ==> NameOf(r.value) == Some(word)
    ensures NamedFunction(word, table).Some? ==> r == NamedFunction(word, table)
    ensures r.Some? && r.value.GlobalTarget? ==>
      NamedFunction(word, table).None? && (owner.Some? ==> ParamOrLocalByName(word, owner.value).None? && BlockByName(word, owner.value).None?)
  {
    var inOwner := if owner.None? then None else ParamOrLocalByName(word, owner.value).Or(BlockByName(word, owner.value));
    NamedFunction(word, table).Or(inOwner).Or(NamedGlobal(word, table)).Or(NamedTable(word, table))
      .Or(NamedMemory(word, table)).Or(NamedType(word, table)).Or(NamedTag(word, table))
  }

  /**
   * `identify_indexed_symbol`: an index names a function, global, type or
   * tag by position, a parameter or local of the containing function by
   * its place in the local space, or the block at that branch depth.
   */
  function IdentifyIndexedSymbol(index: nat, table: SymbolTable, ctx: U.InstructionContext, pos: Position, root: Node, document: string)
    : (r: Option<ReferenceTarget>)
    reads table
    ensures ctx == U.Call ==> (r.Some? <==> index < |table.functions|)
    ensures ctx == U.Call && r.Some? ==> r == Some(FunctionTarget(table.functions[index].name, index))
    ensures ctx == U.Local && r.Some? ==> (r.value.ParameterTarget? || r.value.LocalTarget?) && r.value.index == index
    ensures ctx == U.Local && U.FindContainingFunction(table.functions, pos).Some? ==>
      (var f := U.FindContainingFunction(table.functions, pos).value;
       (r.Some? <==> index < |f.parameters| + |f.locals|)
       && (r.Some? ==> (r.value.ParameterTarget? <==> index < |f.parameters|)))
    ensures ctx == U.Branch && r.Some? ==>
      r.value.BlockLabelTarget? && index < |BlockStackOf(root, document, ScanFrom(document, 0, pos.line, pos.character))|
    ensures !(ctx in {U.Call, U.Global, U.Local, U.Type, U.Tag, U.Branch}) ==> r.None?
  {
    match ctx
    case Call =>
      (match table.GetFunctionByIndex(index)
       case None => None
       case Some(f) => Some(FunctionTarget(f.name, index)))
    case Global =>
      (match table.GetGlobalByIndex(index)
       case None => None
       case Some(g) => Some(GlobalTarget(g.name, index)))
    case Local =>
      (match U.FindContainingFunction(table.functions, pos)
       case None => None
       case Some(f) =>
         match LocalSpaceAt(f, index)
         case None => None
         case Some(ParamSlot(p)) => Some(ParameterTarget(p.name, index, f.startByte))
         case Some(VarSlot(v)) => Some(LocalTarget(v.name, index, f.startByte)))
    case Type =>
      (match table.GetTypeByIndex(index)
       case None => None
       case Some(t) => Some(TypeTarget(t.name, index)))
    case Tag =>
      (match table.GetTagByIndex(index)
       case None => None
       case Some(t) => Some(TagTarget(t.name, index)))
    case Branch =>
      (match U.FindContainingFunction(table.functions, pos)
       case None => None
       case Some(f) =>
         var stack := BlockStackOf(root, document, ScanFrom(document, 0, pos.line, pos.character));
         match ResolveBlockByDepth(index, stack)
         case None => None
         case Some(b) => Some(BlockLabelTarget(b.blockLabel.UnwrapOr("@" + NatToString(b.line)), f.startByte, b.line)))
    case _ => None
  }

  /**
   * `identify_symbol_at_position`: a `$` word is looked up by name, an
   * all-digit word by index (retrying with the line's context when the
   * node said Function), anything else names nothing.
   */
  function IdentifySymbolAtPosition(document: string, table: SymbolTable, root: Node, pos: Position)
    : (r: Option<ReferenceTarget>)
    reads table
    ensures r.Some? ==> U.WordAt(document, pos).Some?
    ensures r.Some? ==> StartsWith(U.WordAt(document, pos).value, "$") || AllDigits(U.WordAt(document, pos).value)
    ensures r.Some? && StartsWith(U.WordAt(document, pos).value, "$") ==> NameOf(r.value) == U.WordAt(document, pos)
  {
    match U.WordAt(document, pos)
    case None => None
    case Some(word) =>
      var ctx := ContextAt(document, root, pos);
      if StartsWith(word, "$") then IdentifyNamedSymbol(word, table, ctx, pos)
      else if AllDigits(word) then
        match ParseUnsigned(word, 10, USIZE_BOUND)
        case None => None
        case Some(index) =>
          var first := IdentifyIndexedSymbol(index, table, ctx, pos, root, document);
          if first.None? && ctx == U.Function then
            match LineAt(document, pos.line)
            case None => None
            case Some(line) => IdentifyIndexedSymbol(index, table, DetermineContextFromLineRefs(line), pos, root, document)
          else first
      else None
  }

  // ---------------------------------------------------------------------
  // Matching one occurrence
  // ---------------------------------------------------------------------

  /**
   * `matches_target_identifier`: an identifier is an occurrence exactly
   * when it stands in the target's own context, carries the target's
   * name, and, for a parameter, local or label, lies in the target's
   * function.
   */
  function MatchesTargetIdentifier(identifier: string, t: ReferenceTarget, ctx: U.InstructionContext, line: nat, functions: seq<Function>)
    : (r: bool)
    ensures r <==>
      (ctx == TargetContext(t) && NameOf(t) == Some(identifier)
       && (IsScoped(t) ==> IsInSameFunctionByLine(line, t.functionStartByte, functions)))
  {
    match t
    case FunctionTarget(name, _) => ctx == U.Call && name == Some(identifier)
    case GlobalTarget(name, _) => ctx == U.Global && name == Some(identifier)
    case LocalTarget(name, _, start) =>
      ctx == U.Local && name == Some(identifier) && IsInSameFunctionByLine(line, start, functions)
    case ParameterTarget(name, _, start) =>
      ctx == U.Local && name == Some(identifier) && IsInSameFunctionByLine(line, start, functions)
    case BlockLabelTarget(labelName, start, _) =>
      ctx == U.Branch && labelName == identifier && IsInSameFunctionByLine(line, start, functions)
    case TableTarget(name, _) => ctx == U.Table && name == Some(identifier)
    case MemoryTarget(name, _) => ctx == U.Memory && name == Some(identifier)
    case TypeTarget(name, _) => ctx == U.Type && name == Some(identifier)
    case TagTarget(name, _) => ctx == U.Tag && name == Some(identifier)
  }

  /** A branch depth reaches the target label: by name, or by start line for an unnamed block. */
  predicate DepthReachesLabel(index: nat, stack: seq<BlockInfo>, labelName: string, line: nat)
  {
    match ResolveBlockByDepth(index, stack)
    case None => false
    case Some(b) => if b.blockLabel.Some? then b.blockLabel.value == labelName else b.line == line
  }

  /**
   * `matches_target_index`: a number is an occurrence exactly when it
   * stands in the target's own context and equals the target's index (for
   * a label: the depth reaches it), and, for a parameter, local or label,
   * lies in the target's function.
   */
  function MatchesTargetIndex(index: nat, t: ReferenceTarget, ctx: U.InstructionContext, line: nat, functions: seq<Function>, stack: seq<BlockInfo>)
    : (r: bool)
    ensures r <==>
      (ctx == TargetContext(t)
       && (if t.BlockLabelTarget? then DepthReachesLabel(index, stack, t.labelName, t.line) else index == t.index)
       && (IsScoped(t) ==> IsInSameFunctionByLine(line, t.functionStartByte, functions)))
  {
    match t
    case FunctionTarget(_, i) => ctx == U.Call && index == i
    case GlobalTarget(_, i) => ctx == U.Global && index == i
    case LocalTarget(_, i, start) => ctx == U.Local && index == i && IsInSameFunctionByLine(line, start, functions)
    case ParameterTarget(_, i, start) => ctx == U.Local && index == i && IsInSameFunctionByLine(line, start, functions)
    case BlockLabelTarget(labelName, start, targetLine) =>
      if ctx != U.Branch then false
      else
        (match ResolveBlockByDepth(index, stack)
         case None => false
         case Some(b) =>
           if b.blockLabel.Some? then
             b.blockLabel.value == labelName && IsInSameFunctionByLine(line, start, functions)
           else
             b.line == targetLine && IsInSameFunctionByLine(line, start, functions))
    case TableTarget(_, i) => ctx == U.Table && index == i
    case MemoryTarget(_, i) => ctx == U.Memory && index == i
    case TypeTarget(_, i) => ctx == U.Type && index == i
    case TagTarget(_, i) => ctx == U.Tag && index == i
  }

  // ---------------------------------------------------------------------
  // The walks
  // ---------------------------------------------------------------------

  /** What one search needs besides the node: target, text, functions and URI. */
  datatype Search = Search(target: ReferenceTarget, document: string, functions: seq<Function>, uri: Option<string>)

  predicate IsIndexKind(k: string) { k == "nat" || k == "dec_nat" || k == "hex_nat" || k == "index" }

  /** The location a node reports when it is an occurrence of the target. */
  function NodeHit(s: Search, n: Node, ctx: U.InstructionContext, stack: seq<BlockInfo>): (r: seq<Location>)
    ensures |r| <= 1
    ensures forall l :: l in r ==> s.uri == Some(l.uri) && l.range == NodeToRange(n)
  {
    var text := NodeText(n, s.document);
    var trimmed := Trim(text);
    var isHit :=
      if n.kind == "identifier" then
        MatchesTargetIdentifier(text, s.target, ctx, n.startPoint.row, s.functions)
      else if IsIndexKind(n.kind) && !StartsWith(trimmed, "$") && ParseNat(trimmed).Some? then
        MatchesTargetIndex(ParseNat(trimmed).value, s.target, ctx, n.startPoint.row, s.functions, stack)
      else false;
    if isHit && s.uri.Some? then [Location(s.uri.value, NodeToRange(n))] else []
  }

  /**
   * `find_reference_identifiers`: the hits of the node and its subtree,
   * not entering nested `expr`/`instr` nodes below the starting node.
   */
  function IdentHits(s: Search, n: Node, ctx: U.InstructionContext, stack: seq<BlockInfo>, isRoot: bool): (r: seq<Location>)
    decreases n, 1
  {
    if !isRoot && (n.kind == "expr" || n.kind == "instr") then []
    else NodeHit(s, n, ctx, stack) + IdentHitsAll(s, n.children, ctx, stack)
  }

  function IdentHitsAll(s: Search, xs: seq<Node>, ctx: U.InstructionContext, stack: seq<BlockInfo>): (r: seq<Location>)
    decreases xs, 0
  {
    if xs == [] then []
    else IdentHitsAll(s, xs[..|xs| - 1], ctx, stack) + IdentHits(s, xs[|xs| - 1], ctx, stack, false)
  }

  /** Every hit below a node is in the searched document. */
  lemma {:induction false} IdentHitsInDocument(s: Search, n: Node, ctx: U.InstructionContext, stack: seq<BlockInfo>, isRoot: bool)
    ensures forall l :: l in IdentHits(s, n, ctx, stack, isRoot) ==> s.uri == Some(l.uri)
    decreases n, 1
  {
    if isRoot || (n.kind != "expr" && n.kind != "instr") {
      IdentHitsAllInDocument(s, n.children, ctx, stack);
    }
  }

  lemma {:induction false} IdentHitsAllInDocument(s: Search, xs: seq<Node>, ctx: U.InstructionContext, stack: seq<BlockInfo>)
    ensures forall l :: l in IdentHitsAll(s, xs, ctx, stack) ==> s.uri == Some(l.uri)
    decreases xs, 0
  {
    if xs != [] {
      IdentHitsAllInDocument(s, xs[..|xs| - 1], ctx, stack);
      IdentHitsInDocument(s, xs[|xs| - 1], ctx, stack, false);
    }
  }

  method FindReferenceIdentifiers(s: Search, n: Node, ctx: U.InstructionContext, stack: seq<BlockInfo>, isRoot: bool, results: seq<Location>)
    returns (results': seq<Location>)
    ensures results' == results + IdentHits(s, n, ctx, stack, isRoot)
    decreases n, 1
  {
    results' := results;
    if !isRoot && (n.kind == "expr" || n.kind == "instr") {
      return;
    }
    var hit := NodeHit(s, n, ctx, stack);
    results' := FindInChildren(s, n, ctx, stack, results' + hit);
    AppendAssoc(results, hit, IdentHitsAll(s, n.children, ctx, stack));
  }

  /** The loop of `find_reference_identifiers` over the children of `n`. */
  method FindInChildren(s: Search, n: Node, ctx: U.InstructionContext, stack: seq<BlockInfo>, results: seq<Location>)
    returns (results': seq<Location>)
    ensures results' == results + IdentHitsAll(s, n.children, ctx, stack)
    decreases n, 0
  {
    results' := results;
    var i := 0;
    while i < |n.children|
      invariant 0 <= i <= |n.children|
      invariant results' == results + IdentHitsAll(s, n.children[..i], ctx, stack)
    {
      assert n.children[..i + 1][..i] == n.children[..i];
      AppendAssoc(results, IdentHitsAll(s, n.children[..i], ctx, stack), IdentHits(s, n.children[i], ctx, stack, false));
      results' := FindReferenceIdentifiers(s, n.children[i], ctx, stack, false, results');
      i := i + 1;
    }
    assert n.children[..i] == n.children;
  }

  /** `determine_export_context`. */
  function ExportContext(kind: string): (r: Option<U.InstructionContext>)
    ensures r.Some? <==> kind in {"export_desc_func", "export_desc_global", "export_desc_table", "export_desc_memory"}
  {
    if kind == "export_desc_func" then Some(U.Call)
    else if kind == "export_desc_global" then Some(U.Global)
    else if kind == "export_desc_table" then Some(U.Table)
    else if kind == "export_desc_memory" then Some(U.Memory)
    else None
  }

  predicate IsReferenceContext(c: U.InstructionContext)
  {
    c == U.Call || c == U.Global || c == U.Local || c == U.Branch
    || c == U.Table || c == U.Type || c == U.Tag || c == U.Memory
  }

  function ExportHits(s: Search, n: Node, stack: seq<BlockInfo>): seq<Location>
  {
    match ExportContext(n.kind)
    case None => []
    case Some(c) => IdentHits(s, n, c, stack, true)
  }

  /**
   * The hits at node `n` itself, given its ancestors (parent first): those
   * of an export descriptor and those of a reference instruction, checked
   * with the stack of the enclosing blocks, `n` included.
   */
  function HereHits(s: Search, n: Node, ancestors: seq<Node>): (r: seq<Location>)
  {
    var stack := EnclosingBlocks([n] + ancestors, s.document);
    var ctx := U.DetermineInstructionContextAtNode(n, ancestors, s.document);
    ExportHits(s, n, stack) + (if IsReferenceContext(ctx) then IdentHits(s, n, ctx, stack, true) else [])
  }

  /** The walk goes on into the children unless `n` is a non-branch reference instruction. */
  predicate Descends(s: Search, n: Node, ancestors: seq<Node>)
  {
    var ctx := U.DetermineInstructionContextAtNode(n, ancestors, s.document);
    !IsReferenceContext(ctx) || ctx == U.Branch
  }

  /** `walk_tree_for_references`: the hits at `n`, then those below it when the walk descends. */
  function WalkRefs(s: Search, n: Node, ancestors: seq<Node>): (r: seq<Location>)
    decreases n, 1
  {
    HereHits(s, n, ancestors) + (if Descends(s, n, ancestors) then WalkRefsAll(s, n.children, [n] + ancestors) else [])
  }

  function WalkRefsAll(s: Search, xs: seq<Node>, ancestors: seq<Node>): (r: seq<Location>)
    decreases xs, 0
  {
    if xs == [] then []
    else WalkRefsAll(s, xs[..|xs| - 1], ancestors) + WalkRefs(s, xs[|xs| - 1], ancestors)
  }

  /** Every location the walk reports is in the searched document. */
  lemma {:induction false} WalkRefsInDocument(s: Search, n: Node, ancestors: seq<Node>)
    ensures forall l :: l in WalkRefs(s, n, ancestors) ==> s.uri == Some(l.uri)
    decreases n, 1
  {
    var stack := EnclosingBlocks([n] + ancestors, s.document);
    var ctx := U.DetermineInstructionContextAtNode(n, ancestors, s.document);
    match ExportContext(n.kind) {
      case None =>
      case Some(c) => IdentHitsInDocument(s, n, c, stack, true);
    }
    IdentHitsInDocument(s, n, ctx, stack, true);
    if Descends(s, n, ancestors) {
      WalkRefsAllInDocument(s, n.children, [n] + ancestors);
    }
  }

  lemma {:induction false} WalkRefsAllInDocument(s: Search, xs: seq<Node>, ancestors: seq<Node>)
    ensures forall l :: l in WalkRefsAll(s, xs, ancestors) ==> s.uri == Some(l.uri)
    decreases xs, 0
  {
    if xs != [] {
      WalkRefsAllInDocument(s, xs[..|xs| - 1], ancestors);
      WalkRefsInDocument(s, xs[|xs| - 1], ancestors);
    }
  }

  /** The check of an export descriptor at `n`. */
  method CheckExport(s: Search, n: Node, stack: seq<BlockInfo>, results: seq<Location>)
    returns (results': seq<Location>)
    ensures results' == results + ExportHits(s, n, stack)
  {
    results' := results;
    var exportContext := ExportContext(n.kind);
    if exportContext.Some? {
      results' := FindReferenceIdentifiers(s, n, exportContext.value, stack, true, results');
    }
  }

  /** The checks `walk_tree_for_references` makes at the node before its children. */
  method CheckHere(s: Search, n: Node, ancestors: seq<Node>, stack: seq<BlockInfo>, results: seq<Location>)
    returns (results': seq<Location>, descend: bool)
    requires stack == EnclosingBlocks([n] + ancestors, s.document)
    ensures results' == results + HereHits(s, n, ancestors)
    ensures descend == Descends(s, n, ancestors)
  {
    results' := CheckExport(s, n, stack, results);
    var context := U.DetermineInstructionContextAtNode(n, ancestors, s.document);
    descend := true;
    if IsReferenceContext(context) {
      results' := FindReferenceIdentifiers(s, n, context, stack, true, results');
      AppendAssoc(results, ExportHits(s, n, stack), IdentHits(s, n, context, stack, true));
      descend := context == U.Branch;
    }
  }

  /**
   * The walk pushes a block on entry and pops it on every way out, so the
   * stack it is handed back is the one it was given, and at each node the
   * stack holds exactly the enclosing blocks.
   */
  method WalkTreeForReferences(s: Search, n: Node, ancestors: seq<Node>, results: seq<Location>, stack: seq<BlockInfo>)
    returns (results': seq<Location>, stack': seq<BlockInfo>)
    requires stack == EnclosingBlocks(ancestors, s.document)
    ensures stack' == stack
    ensures results' == results + WalkRefs(s, n, ancestors)
    decreases n, 1
  {
    var isBlock := IsStackBlock(n.kind);
    stack' := stack;
    if isBlock {
      stack' := stack' + [BlockInfoOf(n, s.document)];
    }
    assert ([n] + ancestors)[1..] == ancestors;
    var descend;
    results', descend := CheckHere(s, n, ancestors, stack', results);
    if descend {
      ghost var here := results';
      results', stack' := WalkChildren(s, n, ancestors, results', stack');
      AppendAssoc(results, HereHits(s, n, ancestors), WalkRefsAll(s, n.children, [n] + ancestors));
    }
    if isBlock {
      stack' := stack'[..|stack'| - 1];
    }
  }

  /** The loop of `walk_tree_for_references` over the children of `n`. */
  method WalkChildren(s: Search, n: Node, ancestors: seq<Node>, results: seq<Location>, stack: seq<BlockInfo>)
    returns (results': seq<Location>, stack': seq<BlockInfo>)
    requires stack == EnclosingBlocks([n] + ancestors, s.document)
    ensures stack' == stack
    ensures results' == results + WalkRefsAll(s, n.children, [n] + ancestors)
    decreases n, 0
  {
    results', stack' := results, stack;
    var i := 0;
    while i < |n.children|
      invariant 0 <= i <= |n.children|
      invariant stack' == stack
      invariant results' == results + WalkRefsAll(s, n.children[..i], [n] + ancestors)
    {
      assert n.children[..i + 1][..i] == n.children[..i];
      AppendAssoc(results, WalkRefsAll(s, n.children[..i], [n] + ancestors), WalkRefs(s, n.children[i], [n] + ancestors));
      results', stack' := WalkTreeForReferences(s, n.children[i], [n] + ancestors, results', stack');
      i := i + 1;
    }
    assert n.children[..i] == n.children;
  }

  /** `find_all_references`: the walk from the root with an empty stack. */
  method FindAllReferences(s: Search, root: Node) returns (results: seq<Location>)
    ensures results == WalkRefs(s, root, [])
  {
    var stack: seq<BlockInfo> := [];
    results, stack := WalkTreeForReferences(s, root, [], [], stack);
    assert [] + WalkRefs(s, root, []) == WalkRefs(s, root, []);
  }

  // ---------------------------------------------------------------------
  // The declaration and the result
  // ---------------------------------------------------------------------

  /** The first function starting at `startByte`. */
  function FunctionAt(functions: seq<Function>, startByte: nat): (r: Option<Function>)
    ensures r.Some? ==> r.value in functions && r.value.startByte == startByte
    ensures r.None? ==> forall f :: f in functions ==> f.startByte != startByte
  {
    match FirstWhere(functions, (f: Function) => f.startByte == startByte)
    case None => None
    case Some(i) => Some(functions[i])
  }

  /** The range where the target is declared, if the table records one. */
  function DefinitionRange(t: ReferenceTarget, table: SymbolTable): (r: Option<Range>)
    reads table
    ensures t.FunctionTarget? && r.Some? ==> t.index < |table.functions| && r == table.functions[t.index].range
    ensures t.LocalTarget? && r.Some? ==>
      exists f :: FunctionAt(table.functions, t.functionStartByte) == Some(f) && LocalSpaceAt(f, t.index).Some?
    ensures t.ParameterTarget? && r.Some? ==>
      exists f :: FunctionAt(table.functions, t.functionStartByte) == Some(f) && t.index < |f.parameters|
               && r == f.parameters[t.index].range
  {
    match t
    case FunctionTarget(_, i) =>
      (match table.GetFunctionByIndex(i) case None => None case Some(f) => f.range)
    case GlobalTarget(_, i) =>
      (match table.GetGlobalByIndex(i) case None => None case Some(g) => g.range)
    case LocalTarget(_, i, start) =>
      (match FunctionAt(table.functions, start)
       case None => None
       case Some(f) =>
         match LocalSpaceAt(f, i)
         case None => None
         case Some(ParamSlot(p)) => p.range
         case Some(VarSlot(v)) => v.range)
    case ParameterTarget(_, i, start) =>
      (match FunctionAt(table.functions, start)
       case None => None
       case Some(f) => if i < |f.parameters| then f.parameters[i].range else None)
    case BlockLabelTarget(labelName, start, _) =>
      (match FunctionAt(table.functions, start)
       case None => None
       case Some(f) =>
         match FirstWhere(f.blocks, (b: BlockLabel) => b.labelName == labelName)
         case None => None
         case Some(k) => f.blocks[k].range)
    case TableTarget(_, i) =>
      (match table.GetTableByIndex(i) case None => None case Some(x) => x.range)
    case MemoryTarget(_, i) =>
      (match table.GetMemoryByIndex(i) case None => None case Some(x) => x.range)
    case TypeTarget(_, i) =>
      (match table.GetTypeByIndex(i) case None => None case Some(x) => x.range)
    case TagTarget(_, i) =>
      (match table.GetTagByIndex(i) case None => None case Some(x) => x.range)
  }

  /** `get_definition_location`: the declaration range under a valid URI. */
  function GetDefinitionLocation(t: ReferenceTarget, table: SymbolTable, uri: Option<string>): (r: Option<Location>)
    reads table
    ensures r.Some? <==> uri.Some? && DefinitionRange(t, table).Some?
    ensures r.Some? ==> r.value == Location(uri.value, DefinitionRange(t, table).value)
  {
    if uri.None? then None
    else
      match DefinitionRange(t, table)
      case None => None
      case Some(range) => Some(Location(uri.value, range))
  }

  function StartOf(l: Location): Position { l.range.start }

  function RangeOf(l: Location): Range { l.range }

  /** The ranges the locations cover. */
  function Ranges(locations: seq<Location>): set<Range>
  {
    set m | m in locations :: m.range
  }

  /**
   * The in-place `sort_by` on the start position and `dedup_by` on the
   * range: sorted, no two neighbours with equal ranges, every range of
   * the input kept, nothing added.
   */
  method SortAndDedup(locations: seq<Location>) returns (r: seq<Location>)
    ensures SortedBy(r, StartOf)
    ensures forall i :: 0 < i < |r| ==> r[i - 1].range != r[i].range
    ensures forall l :: l in locations ==> l.range in Ranges(r)
    ensures forall m :: m in r ==> m in locations
  {
    SortThenDedup(locations, StartOf, RangeOf);
    r := SortBy(locations, StartOf);
    r := DedupBy(r, RangeOf);
  }

  /**
   * What the references to a target are: sorted by start position, no
   * two neighbours with equal ranges, every found occurrence's range
   * present, the declaration's range present when asked for, and nothing
   * but occurrences and that declaration.
   */
  predicate ReferencesOf(references: seq<Location>, found: seq<Location>, def: Option<Location>, includeDeclaration: bool)
  {
    SortedBy(references, StartOf)
    && (forall i :: 0 < i < |references| ==> references[i - 1].range != references[i].range)
    && (forall l :: l in found ==> l.range in Ranges(references))
    && (includeDeclaration && def.Some? ==> def.value.range in Ranges(references))
    && (forall m :: m in references ==> m in found || (includeDeclaration && def == Some(m)))
  }

  /** The declaration first when asked for and present, then sorting and de-duplication. */
  method Assemble(found: seq<Location>, def: Option<Location>, includeDeclaration: bool)
    returns (references: seq<Location>)
    ensures ReferencesOf(references, found, def, includeDeclaration)
  {
    var gathered := found;
    if includeDeclaration && def.Some? {
      gathered := [def.value] + found;
    }
    assert forall l :: l in found ==> l in gathered;
    assert includeDeclaration && def.Some? ==> def.value in gathered;
    references := SortAndDedup(gathered);
  }

  /** The references once the target is known. */
  method ReferencesToTarget(t: ReferenceTarget, document: string, table: SymbolTable, root: Node, uri: Option<string>, includeDeclaration: bool)
    returns (references: seq<Location>)
    ensures ReferencesOf(references, WalkRefs(Search(t, document, table.functions, uri), root, []),
                         GetDefinitionLocation(t, table, uri), includeDeclaration)
  {
    var found := FindAllReferences(Search(t, document, table.functions, uri), root);
    var def := GetDefinitionLocation(t, table, uri);
    references := Assemble(found, def, includeDeclaration);
  }

  /** `provide_references`: nothing without a target, else its references. */
  method ProvideReferences(document: string, table: SymbolTable, root: Node, pos: Position, uri: Option<string>, includeDeclaration: bool)
    returns (references: seq<Location>)
    ensures IdentifySymbolAtPosition(document, table, root, pos).None? ==> references == []
    ensures IdentifySymbolAtPosition(document, table, root, pos).Some? ==>
      (var t := IdentifySymbolAtPosition(document, table, root, pos).value;
       ReferencesOf(references, WalkRefs(Search(t, document, table.functions, uri), root, []),
                    GetDefinitionLocation(t, table, uri), includeDeclaration))
  {
    var target := IdentifySymbolAtPosition(document, table, root, pos);
    if target.None? {
      return [];
    }
    references := ReferencesToTarget(target.value, document, table, root, uri, includeDeclaration);
  }
}
