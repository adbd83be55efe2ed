/**
 * The symbol extractor of the browser build (src/wast_parser.rs). It reads
 * the module tree produced by the `wast` crate and fills a symbol table,
 * numbering each kind of item with a counter of its own.
 *
 * The `wast` crate is not part of this model: what its parser made of the
 * text is an input (`WastOutcome`), its tree is the `Wat` datatype below,
 * reduced to the parts the extractor reads, and a span is the byte offset
 * it records for an item.
 */
module WastParser {
  import opened Wrappers
  import opened CoreTypes
  import opened Text
  import opened Symbols
  import Utils

  // ---------------------------------------------------------------------
  // The `wast` tree
  // ---------------------------------------------------------------------

  /** A `$name` identifier: the name without its `$` and the offset of the token. */
  datatype Ident = Ident(name: string, offset: nat)

  /** What an import brings in. */
  datatype ItemKind =
    | ItemFunc
    | ItemGlobal(ty: ValueType, mutable: bool)
    | ItemTable
    | ItemMemory
    | ItemTag

  datatype InlineParam = InlineParam(id: Option<Ident>, ty: ValueType)

  /** A function's inline `(param …)` and `(result …)` declarations. */
  datatype InlineType = InlineType(params: seq<InlineParam>, results: seq<ValueType>)

  datatype LocalDecl = LocalDecl(id: Option<Ident>, ty: ValueType)

  /** A function defined here, with its locals, or one imported inline. */
  datatype FuncKind = Inline(locals: seq<LocalDecl>) | InlineImport

  /** The module fields the extractor reads; any other field is `OtherField`. */
  datatype Field =
    | ImportField(span: nat, itemId: Option<Ident>, item: ItemKind)
    | FuncField(span: nat, id: Option<Ident>, kind: FuncKind, inline: Option<InlineType>)
    | GlobalField(span: nat, id: Option<Ident>, ty: ValueType, mutable: bool)
    | TableField(span: nat, id: Option<Ident>)
    | MemoryField(span: nat, id: Option<Ident>)
    | TypeField(span: nat, id: Option<Ident>)
    | TagField(span: nat, id: Option<Ident>)
    | OtherField

  datatype ModuleKind = TextFields(fields: seq<Field>) | BinaryModule

  datatype Wat = Module(kind: ModuleKind) | Component

  /** What the `wast` crate made of the text: a buffer error, a parse error, or a tree. */
  datatype WastOutcome = BufferError(message: string) | ParseFailure(message: string) | Parsed(wat: Wat)

  // ---------------------------------------------------------------------
  // Positions and identifier ranges
  // ---------------------------------------------------------------------

  /**
   * `Span::linecol_in`: the zero-based line and column of a byte offset,
   * found by walking the text before it: a newline starts the next line
   * at column 0, any other character moves one column on. An offset past
   * the end of the text is taken as the end of the text.
   */
  function LineCol(source: string, offset: nat): Position
    decreases offset
  {
    if offset > |source| then LineCol(source, |source|)
    else if offset == 0 then Position(0, 0)
    else
      var p := LineCol(source, offset - 1);
      if source[offset - 1] == '\n' then Position(p.line + 1, 0) else Position(p.line, p.character + 1)
  }

  /**
   * The line of an offset is the number of newlines before it, and its
   * column is the distance from the start of that line.
   */
  lemma {:induction false} LineColCountsNewlines(source: string, offset: nat)
    requires offset <= |source|
    ensures LineCol(source, offset).line == CountChar(source[..offset], '\n')
    ensures LineCol(source, offset).character <= offset
    ensures var lineStart := offset - LineCol(source, offset).character;
      (lineStart == 0 || source[lineStart - 1] == '\n')
      && forall k :: lineStart <= k < offset ==> source[k] != '\n'
  {
    if offset > 0 {
      LineColCountsNewlines(source, offset - 1);
      assert source[..offset] == source[..offset - 1] + [source[offset - 1]];
      CountCharAppend(source[..offset - 1], [source[offset - 1]], '\n');
      assert [source[offset - 1]][1..] == [];
    }
  }

  /** Across a stretch without newlines, the line stays and the column advances. */
  lemma {:induction false} LineColAlongLine(source: string, offset: nat, m: nat)
    requires offset + m <= |source|
    requires forall k :: offset <= k < offset + m ==> source[k] != '\n'
    ensures LineCol(source, offset + m) == Position(LineCol(source, offset).line, LineCol(source, offset).character + m)
  {
    if m > 0 {
      LineColAlongLine(source, offset, m - 1);
    }
  }

  /** `"$" + name` of an identifier, if there is one. */
  function Dollar(id: Option<Ident>): (r: Option<string>)
    ensures r.Some? <==> id.Some?
    ensures r.Some? ==> |r.value| == |id.value.name| + 1 && r.value[0] == '$' && r.value[1..] == id.value.name
  {
    match id
    case None => None
    case Some(i) => Some("$" + i.name)
  }

  /**
   * `id_to_range`: from the identifier's position to the same line,
   * `|name| + 1` columns further (the `+ 1` is the `$`).
   */
  function IdToRange(id: Ident, source: string): (r: Range)
    ensures r.start == LineCol(source, id.offset)
    ensures r.end.line == r.start.line && r.end.character == r.start.character + |id.name| + 1
  {
    var p := LineCol(source, id.offset);
    FromCoords(p.line, p.character, p.line, p.character + |id.name| + 1)
  }

  /**
   * When the text holds the token `$name` at the identifier's offset, the
   * range ends exactly where the token ends.
   */
  lemma IdToRangeEndsAfterToken(id: Ident, source: string)
    requires id.offset + |id.name| + 1 <= |source|
    requires source[id.offset..id.offset + |id.name| + 1] == "$" + id.name
    requires '\n' !in id.name
    ensures IdToRange(id, source).end == LineCol(source, id.offset + |id.name| + 1)
  {
    var token := source[id.offset..id.offset + |id.name| + 1];
    forall k | id.offset <= k < id.offset + |id.name| + 1
      ensures source[k] != '\n'
    {
      assert source[k] == token[k - id.offset];
      if k > id.offset {
        assert token[k - id.offset] == id.name[k - id.offset - 1];
      }
    }
    LineColAlongLine(source, id.offset, |id.name| + 1);
  }

  /** The range of an optional identifier. */
  function IdRange(id: Option<Ident>, source: string): Option<Range>
  {
    match id
    case None => None
    case Some(i) => Some(IdToRange(i, source))
  }

  // ---------------------------------------------------------------------
  // The end line of a function
  // ---------------------------------------------------------------------

  /** The change of paren depth a character makes. */
  function ParenStep(c: char): int
  {
    if c == '(' then 1 else if c == ')' then -1 else 0
  }

  /** The paren depth `source[i..j]` adds up to. */
  function Balance(source: string, i: nat, j: nat): int
    requires i <= j <= |source|
    decreases j - i
  {
    if i == j then 0 else Balance(source, i, j - 1) + ParenStep(source[j - 1])
  }

  lemma {:induction false} BalanceFront(source: string, i: nat, j: nat)
    requires i < j <= |source|
    ensures Balance(source, i, j) == ParenStep(source[i]) + Balance(source, i + 1, j)
    decreases j - i
  {
    if j > i + 1 {
      BalanceFront(source, i, j - 1);
    }
  }

  /**
   * Where a scan from offset `i`, at paren depth `depth`, stops: at the
   * first `)` that brings the depth to 0, or nowhere when the text ends
   * first.
   */
  function CloseFrom(source: string, i: nat, depth: int): (r: Option<nat>)
    ensures r.Some? ==> i <= r.value < |source| && source[r.value] == ')'
    decreases |source| - i
  {
    if i >= |source| then None
    else if source[i] == ')' && depth - 1 == 0 then Some(i)
    else CloseFrom(source, i + 1, depth + ParenStep(source[i]))
  }

  /**
   * The scan stops at the first `)` after which the depth reached from
   * `i` is 0, and finds nothing when there is no such `)`.
   */
  lemma {:induction false} CloseFromIsFirstReturn(source: string, i: nat, depth: int)
    requires i <= |source|
    ensures CloseFrom(source, i, depth).Some? ==>
      var c := CloseFrom(source, i, depth).value;
      depth + Balance(source, i, c + 1) == 0
      && forall k :: i <= k < c && source[k] == ')' ==> depth + Balance(source, i, k + 1) != 0
    ensures CloseFrom(source, i, depth).None? ==>
      forall k :: i <= k < |source| && source[k] == ')' ==> depth + Balance(source, i, k + 1) != 0
    decreases |source| - i
  {
    if i < |source| {
      var d := depth + ParenStep(source[i]);
      assert Balance(source, i, i + 1) == ParenStep(source[i]);
      if !(source[i] == ')' && depth - 1 == 0) {
        CloseFromIsFirstReturn(source, i + 1, d);
        forall m | i + 1 < m <= |source|
          ensures depth + Balance(source, i, m) == d + Balance(source, i + 1, m)
        {
          BalanceFront(source, i, m);
        }
      }
    }
  }

  /**
   * Started at depth 1 or more, the depth stays at 1 or more up to the
   * `)` the scan stops at, where it reaches 0.
   */
  lemma {:induction false} CloseFromStaysOpen(source: string, i: nat, depth: int)
    requires i <= |source| && depth >= 1 && CloseFrom(source, i, depth).Some?
    ensures var c := CloseFrom(source, i, depth).value;
      depth + Balance(source, i, c + 1) == 0
      && forall k :: i <= k <= c ==> depth + Balance(source, i, k) >= 1
    decreases |source| - i
  {
    var c := CloseFrom(source, i, depth).value;
    if c == i {
      assert Balance(source, i, i + 1) == ParenStep(source[i]);
    } else {
      var d := depth + ParenStep(source[i]);
      CloseFromStaysOpen(source, i + 1, d);
      forall k | i < k <= c + 1
        ensures depth + Balance(source, i, k) == d + Balance(source, i + 1, k)
      {
        BalanceFront(source, i, k);
      }
    }
  }

  /** The offset the scan ends on: the `)` it stops at, else where it began. */
  function EndOffset(source: string, start: nat, depth: int): nat
  {
    match CloseFrom(source, start, depth)
    case Some(c) => c
    case None => start
  }

  /** The number of newlines up to and including the character at `offset`, clamped to the text. */
  function LineThrough(source: string, offset: nat): nat
    requires |source| > 0
  {
    CountChar(source[..Utils.Min(offset, |source| - 1) + 1], '\n')
  }

  /** On the `)` the scan stops at, that count is the line of the `)`. */
  lemma LineThroughClose(source: string, c: nat)
    requires c < |source| && source[c] == ')'
    ensures LineThrough(source, c) == LineCol(source, c).line
  {
    assert source[..c + 1] == source[..c] + [source[c]];
    CountCharAppend(source[..c], [source[c]], '\n');
    LineColCountsNewlines(source, c);
  }

  /**
   * The loop of `find_func_end_line`: from `start`, `(` deepens and `)`
   * closes; the first `)` that brings the depth to 0 ends the scan; then
   * the newlines up to the end offset (clamped to the last character)
   * are counted.
   */
  method ScanEndLine(source: string, start: nat, depth0: int) returns (line: nat)
    requires |source| > 0
    ensures line == LineThrough(source, EndOffset(source, start, depth0))
  {
    var depth := depth0;
    var end := start;
    var i := start;
    while i < |source|
      invariant CloseFrom(source, i, depth) == CloseFrom(source, start, depth0)
      invariant end == start
      decreases |source| - i
    {
      if source[i] == '(' {
        depth := depth + 1;
      } else if source[i] == ')' {
        depth := depth - 1;
        if depth == 0 {
          end := i;
          break;
        }
      }
      i := i + 1;
    }
    line := CountChar(source[..Utils.Min(end, |source| - 1) + 1], '\n');
  }

  /**
   * `find_func_end_line` as written: the scan starts at depth 0 from the
   * function's span. An empty text makes the source panic, hence the
   * precondition.
   */
  method FindFuncEndLine(source: string, start: nat) returns (line: nat)
    requires |source| > 0
    ensures line == LineThrough(source, EndOffset(source, start, 0))
  {
    line := ScanEndLine(source, start, 0);
  }

  /**
   * The end line of a function whose span begins just inside its opening
   * `(`: the scan starts at depth 1, the function's own paren being open.
   */
  method FuncEndLine(source: string, start: nat) returns (line: nat)
    requires |source| > 0
    ensures line == LineThrough(source, EndOffset(source, start, 1))
  {
    line := ScanEndLine(source, start, 1);
  }

  /**
   * When the span begins just after an opening `(` at `open`, the depth-1
   * scan ends on the line of the `)` that matches it: the parens between
   * them are balanced and never close it earlier.
   */
  lemma FuncEndLineIsMatchingClose(source: string, open: nat)
    requires open < |source| && source[open] == '('
    requires CloseFrom(source, open + 1, 1).Some?
    ensures var c := CloseFrom(source, open + 1, 1).value;
      Balance(source, open, c + 1) == 0
      && (forall k :: open < k <= c ==> Balance(source, open, k) >= 1)
      && LineThrough(source, EndOffset(source, open + 1, 1)) == LineCol(source, c).line
  {
    var c := CloseFrom(source, open + 1, 1).value;
    CloseFromStaysOpen(source, open + 1, 1);
    forall k | open < k <= c + 1
      ensures Balance(source, open, k) == 1 + Balance(source, open + 1, k)
    {
      BalanceFront(source, open, k);
    }
    LineThroughClose(source, c);
  }

  /** A text without parens. */
  predicate Plain(t: string)
  {
    forall k :: 0 <= k < |t| ==> ParenStep(t[k]) == 0
  }

  /** The scan passes over a stretch without parens unchanged. */
  lemma {:induction false} CloseFromSkipsPlain(source: string, i: nat, t: string, depth: int)
    requires i + |t| <= |source| && source[i..i + |t|] == t && Plain(t)
    ensures CloseFrom(source, i, depth) == CloseFrom(source, i + |t|, depth)
    decreases |t|
  {
    if |t| > 0 {
      assert source[i] == t[0];
      assert source[i + 1..i + |t|] == t[1..];
      CloseFromSkipsPlain(source, i + 1, t[1..], depth);
    }
  }

  /** A function whose first line holds a nested form: `(func $f (param i32)`, a newline, `  nop)`. */
  const NESTED_FUNC := "(" + "func $f " + "(" + "param i32" + ")" + "\n  nop" + ")"

  /** From depth 0 the `)` closing the parameter list ends the scan. */
  lemma NestedFuncScanFromZero()
    ensures CloseFrom(NESTED_FUNC, 1, 0) == Some(19)
  {
    var source := NESTED_FUNC;
    var b, d := "func $f ", "param i32";
    assert source[1..9] == b && source[10..19] == d;
    assert Plain(b) && Plain(d);
    CloseFromSkipsPlain(source, 1, b, 0);
    CloseFromSkipsPlain(source, 10, d, 1);
  }

  /** From depth 1 the scan runs past the parameter list to the last `)`. */
  lemma NestedFuncScanFromOne()
    ensures CloseFrom(NESTED_FUNC, 1, 1) == Some(26)
  {
    var source := NESTED_FUNC;
    var b, d, f := "func $f ", "param i32", "\n  nop";
    assert source[1..9] == b && source[10..19] == d && source[20..26] == f;
    assert Plain(b) && Plain(d) && Plain(f);
    CloseFromSkipsPlain(source, 1, b, 1);
    CloseFromSkipsPlain(source, 10, d, 2);
    CloseFromSkipsPlain(source, 20, f, 1);
  }

  lemma NestedFuncLines()
    ensures CountChar(NESTED_FUNC[..20], '\n') == 0 && CountChar(NESTED_FUNC[..27], '\n') == 1
  {
    var a, b, c, d, e, f, g := "(", "func $f ", "(", "param i32", ")", "\n  nop", ")";
    var source := NESTED_FUNC;
    assert source[..20] == a + b + c + d + e;
    assert '\n' !in a + b + c + d + e;
    Utils.CountCharPositive(a + b + c + d + e, '\n');
    assert source[..27] == (a + b + c + d + e) + (f + g);
    CountCharAppend(a + b + c + d + e, f + g, '\n');
    assert CountChar(f + g, '\n') == 1 by {
      assert (f + g)[1..] == "  nop)";
      Utils.CountCharPositive("  nop)", '\n');
    }
  }

  /**
   * As written, the scan of `NESTED_FUNC` from the `func` keyword
   * (offset 1, where the `wast` crate puts a function's span) stops at the
   * `)` of `(param i32)` on line 0, while the function closes on line 1,
   * which the depth-1 scan reaches.
   */
  lemma FindFuncEndLineStopsEarly()
    ensures EndOffset(NESTED_FUNC, 1, 0) == 19 && LineThrough(NESTED_FUNC, EndOffset(NESTED_FUNC, 1, 0)) == 0
    ensures EndOffset(NESTED_FUNC, 1, 1) == 26 && LineThrough(NESTED_FUNC, EndOffset(NESTED_FUNC, 1, 1)) == 1
  {
    NestedFuncScanFromZero();
    NestedFuncScanFromOne();
    NestedFuncLines();
  }

  // ---------------------------------------------------------------------
  // Parameters and locals
  // ---------------------------------------------------------------------

  function ParamRecord(p: InlineParam, index: nat, source: string): Parameter
  {
    Parameter(Dollar(p.id), p.ty, index, IdRange(p.id, source))
  }

  function LocalRecord(l: LocalDecl, index: nat, source: string): Variable
  {
    Variable(Dollar(l.id), l.ty, true, None, index, IdRange(l.id, source))
  }

  /** The inline parameters of a defined function, each numbered by its position. */
  function ParamsOf(kind: FuncKind, inline: Option<InlineType>, source: string): seq<Parameter>
  {
    if kind.Inline? && inline.Some? then
      var ps := inline.value.params;
      seq(|ps|, k requires 0 <= k < |ps| => ParamRecord(ps[k], k, source))
    else []
  }

  function ResultsOf(kind: FuncKind, inline: Option<InlineType>): seq<ValueType>
  {
    if kind.Inline? && inline.Some? then inline.value.results else []
  }

  /** The locals of a defined function, each numbered by its position. */
  function LocalsOf(kind: FuncKind, source: string): seq<Variable>
  {
    match kind
    case InlineImport => []
    case Inline(ls) => seq(|ls|, k requires 0 <= k < |ls| => LocalRecord(ls[k], k, source))
  }

  /**
   * `extract_func_type_info`: for a function defined with an inline type,
   * one parameter per declaration, numbered 0, 1, … in source order, with
   * its name, type and range, and the declared results; nothing otherwise.
   */
  method ExtractFuncTypeInfo(kind: FuncKind, inline: Option<InlineType>, source: string)
    returns (params: seq<Parameter>, results: seq<ValueType>)
    ensures params == ParamsOf(kind, inline, source) && results == ResultsOf(kind, inline)
    ensures kind.Inline? && inline.Some? ==>
      |params| == |inline.value.params|
      && forall k :: 0 <= k < |params| ==>
        params[k].index == k && params[k].paramType == inline.value.params[k].ty
        && params[k].name == Dollar(inline.value.params[k].id)
    ensures !(kind.Inline? && inline.Some?) ==> params == [] && results == []
  {
    params, results := [], [];
    if kind.Inline? && inline.Some? {
      var ps := inline.value.params;
      var index := 0;
      while index < |ps|
        invariant index <= |ps|
        invariant |params| == index
        invariant forall k :: 0 <= k < index ==> params[k] == ParamRecord(ps[k], k, source)
      {
        params := params + [ParamRecord(ps[index], index, source)];
        index := index + 1;
      }
      var rs := inline.value.results;
      var j := 0;
      while j < |rs|
        invariant j <= |rs| && results == rs[..j]
      {
        results := results + [rs[j]];
        j := j + 1;
      }
      assert rs[..|rs|] == rs;
    }
  }

  /**
   * `extract_func_locals`: for a function defined here, one mutable
   * variable per local declaration, numbered 0, 1, … in source order, on
   * their own (the parameters are not counted); nothing for an inline
   * import.
   */
  method ExtractFuncLocals(kind: FuncKind, source: string) returns (locals: seq<Variable>)
    ensures locals == LocalsOf(kind, source)
    ensures kind.Inline? ==>
      |locals| == |kind.locals|
      && forall k :: 0 <= k < |locals| ==>
        locals[k].index == k && locals[k].isMutable && locals[k].varType == kind.locals[k].ty
        && locals[k].name == Dollar(kind.locals[k].id)
  {
    locals := [];
    if kind.Inline? {
      var ls := kind.locals;
      var index := 0;
      while index < |ls|
        invariant index <= |ls|
        invariant |locals| == index
        invariant forall k :: 0 <= k < index ==> locals[k] == LocalRecord(ls[k], k, source)
      {
        locals := locals + [LocalRecord(ls[index], index, source)];
        index := index + 1;
      }
    }
  }

  // ---------------------------------------------------------------------
  // The item each field adds
  // ---------------------------------------------------------------------

  /** The six index spaces the extractor numbers. */
  datatype Space = Funcs | Globals | Tables | Memories | Types | Tags

  /** The index space a field adds to, if any. */
  function SpaceOf(f: Field): Option<Space>
  {
    match f
    case ImportField(_, _, item) =>
      Some(match item
        case ItemFunc => Funcs
        case ItemGlobal(_, _) => Globals
        case ItemTable => Tables
        case ItemMemory => Memories
        case ItemTag => Tags)
    case FuncField(_, _, _, _) => Some(Funcs)
    case GlobalField(_, _, _, _) => Some(Globals)
    case TableField(_, _) => Some(Tables)
    case MemoryField(_, _) => Some(Memories)
    case TypeField(_, _) => Some(Types)
    case TagField(_, _) => Some(Tags)
    case OtherField => None
  }

  /** The record one field contributes, if any. */
  datatype Item =
    | FuncItem(func: Function)
    | GlobalItem(global: Global)
    | TableItem(table: Table)
    | MemoryItem(memory: Memory)
    | TypeItem(typeDef: TypeDef)
    | TagItem(tag: Tag)
    | NoItem

  /** The index space an item belongs to. */
  function ItemSpace(item: Item): Option<Space>
  {
    match item
    case FuncItem(_) => Some(Funcs)
    case GlobalItem(_) => Some(Globals)
    case TableItem(_) => Some(Tables)
    case MemoryItem(_) => Some(Memories)
    case TypeItem(_) => Some(Types)
    case TagItem(_) => Some(Tags)
    case NoItem => None
  }

  /** The index an item carries. */
  function ItemIndex(item: Item): nat
  {
    match item
    case FuncItem(x) => x.index
    case GlobalItem(x) => x.index
    case TableItem(x) => x.index
    case MemoryItem(x) => x.index
    case TypeItem(x) => x.index
    case TagItem(x) => x.index
    case NoItem => 0
  }

  /**
   * The function end line the extractor records: the depth-0 scan of
   * `find_func_end_line` as written (`FindFuncEndLine`), not the corrected
   * `FuncEndLine`.
   */
  function RecordedEndLine(source: string, start: nat): nat
  {
    if |source| == 0 then 0 else LineThrough(source, EndOffset(source, start, 0))
  }

  /** A function defined here, given its index and end line. */
  function DefinedFunction(f: Field, index: nat, endLine: nat, source: string): Function
    requires f.FuncField?
  {
    Function(Dollar(f.id), index, ParamsOf(f.kind, f.inline, source), ResultsOf(f.kind, f.inline),
      LocalsOf(f.kind, source), [], LineCol(source, f.span).line, endLine, f.span, f.span, IdRange(f.id, source))
  }

  /**
   * What one arm of the extractor's `match` records for a field, given the
   * current counter of the field's kind:
   * - an imported function has no signature and ends on its own line;
   * - a defined function ends on the line `find_func_end_line` finds as
   *   written (the depth-0 scan);
   * - tables are `funcref` and tables and memories have limits `(0, None)`,
   *   whatever the text declares;
   * - a type is a function type with no parameters and no results;
   * - a tag has no parameters; a global has no initial value.
   */
  function ItemOf(f: Field, index: nat, source: string): (r: Item)
    ensures ItemSpace(r) == SpaceOf(f)
    ensures r != NoItem ==> ItemIndex(r) == index
  {
    match f
    case ImportField(span, id, item) =>
      var name, line, range := Dollar(id), LineCol(source, span).line, IdRange(id, source);
      (match item
       case ItemFunc => FuncItem(Function(name, index, [], [], [], [], line, line, span, span, range))
       case ItemGlobal(ty, mutable) => GlobalItem(Global(name, index, ty, mutable, None, line, range))
       case ItemTable => TableItem(Table(name, index, Funcref, Limits(0, None), line, range))
       case ItemMemory => MemoryItem(Memory(name, index, Limits(0, None), line, range))
       case ItemTag => TagItem(Tag(name, index, [], line, range)))
    case FuncField(span, _, _, _) => FuncItem(DefinedFunction(f, index, RecordedEndLine(source, span), source))
    case GlobalField(span, id, ty, mutable) =>
      GlobalItem(Global(Dollar(id), index, ty, mutable, None, LineCol(source, span).line, IdRange(id, source)))
    case TableField(span, id) =>
      TableItem(Table(Dollar(id), index, Funcref, Limits(0, None), LineCol(source, span).line, IdRange(id, source)))
    case MemoryField(span, id) =>
      MemoryItem(Memory(Dollar(id), index, Limits(0, None), LineCol(source, span).line, IdRange(id, source)))
    case TypeField(span, id) =>
      TypeItem(TypeDef(Dollar(id), index, TypeKind.Func([], []), LineCol(source, span).line, IdRange(id, source)))
    case TagField(span, id) =>
      TagItem(Tag(Dollar(id), index, [], LineCol(source, span).line, IdRange(id, source)))
    case OtherField => NoItem
  }

  /**
   * The item of a field, built as the extractor builds it: a defined
   * function's end line (from `find_func_end_line` as written), parameters
   * and locals come from the scans above.
   */
  method MakeItem(f: Field, index: nat, source: string) returns (item: Item)
    ensures item == ItemOf(f, index, source)
  {
    match f {
      case FuncField(span, id, kind, inline) =>
        var endLine := 0;
        if |source| > 0 {
          endLine := FindFuncEndLine(source, span);
        }
        var params, results := ExtractFuncTypeInfo(kind, inline, source);
        var locals := ExtractFuncLocals(kind, source);
        item := FuncItem(Function(Dollar(id), index, params, results, locals, [],
          LineCol(source, span).line, endLine, span, span, IdRange(id, source)));
      case _ =>
        item := ItemOf(f, index, source);
    }
  }

  // ---------------------------------------------------------------------
  // Symbol extraction
  // ---------------------------------------------------------------------

  /** The number of fields that add to an index space. */
  function CountIn(fields: seq<Field>, sp: Space): nat
  {
    if fields == [] then 0
    else CountIn(fields[..|fields| - 1], sp) + (if SpaceOf(fields[|fields| - 1]) == Some(sp) then 1 else 0)
  }

  /** The items of the six kinds, as the extractor builds them. */
  datatype Extracted = Extracted(
    functions: seq<Function>, globals: seq<Global>, tables: seq<Table>,
    memories: seq<Memory>, types: seq<TypeDef>, tags: seq<Tag>)

  const NOTHING := Extracted([], [], [], [], [], [])

  /** The number of items of a kind. */
  function Size(e: Extracted, sp: Space): nat
  {
    match sp
    case Funcs => |e.functions|
    case Globals => |e.globals|
    case Tables => |e.tables|
    case Memories => |e.memories|
    case Types => |e.types|
    case Tags => |e.tags|
  }

  /** An item appended to its kind. */
  function AddItem(acc: Extracted, item: Item): Extracted
  {
    match item
    case FuncItem(x) => acc.(functions := acc.functions + [x])
    case GlobalItem(x) => acc.(globals := acc.globals + [x])
    case TableItem(x) => acc.(tables := acc.tables + [x])
    case MemoryItem(x) => acc.(memories := acc.memories + [x])
    case TypeItem(x) => acc.(types := acc.types + [x])
    case TagItem(x) => acc.(tags := acc.tags + [x])
    case NoItem => acc
  }

  /** What one field adds: its item, numbered by its kind's count so far. */
  function AddField(acc: Extracted, f: Field, source: string): Extracted
  {
    match SpaceOf(f)
    case None => acc
    case Some(sp) => AddItem(acc, ItemOf(f, Size(acc, sp), source))
  }

  /** The items of a field list, field by field in source order. */
  function Collect(fields: seq<Field>, source: string): Extracted
  {
    if fields == [] then NOTHING
    else AddField(Collect(fields[..|fields| - 1], source), fields[|fields| - 1], source)
  }

  /** What the extractor makes of a tree: nothing for a component or a binary module. */
  function Contents(wat: Wat, source: string): Extracted
  {
    match wat
    case Component => NOTHING
    case Module(BinaryModule) => NOTHING
    case Module(TextFields(fields)) => Collect(fields, source)
  }

  /** Each kind's items sit at the position their `index` names. */
  predicate Numbered(e: Extracted)
  {
    (forall k :: 0 <= k < |e.functions| ==> e.functions[k].index == k)
    && (forall k :: 0 <= k < |e.globals| ==> e.globals[k].index == k)
    && (forall k :: 0 <= k < |e.tables| ==> e.tables[k].index == k)
    && (forall k :: 0 <= k < |e.memories| ==> e.memories[k].index == k)
    && (forall k :: 0 <= k < |e.types| ==> e.types[k].index == k)
    && (forall k :: 0 <= k < |e.tags| ==> e.tags[k].index == k)
  }

  /**
   * Each kind has one counter, shared by imports and definitions: the
   * `k`-th item of a kind carries index `k`, and a kind holds one item per
   * field that adds to its index space.
   */
  lemma {:induction false} CollectNumbersEachKind(fields: seq<Field>, source: string)
    ensures Numbered(Collect(fields, source))
    ensures forall sp :: Size(Collect(fields, source), sp) == CountIn(fields, sp)
  {
    if fields != [] {
      CollectNumbersEachKind(fields[..|fields| - 1], source);
    }
  }

  /**
   * Fields only ever append: the items of a prefix of the fields are a
   * prefix of each kind's items, so an item keeps the index it was given.
   */
  lemma {:induction false} CollectExtendsPrefix(fields: seq<Field>, j: nat, source: string)
    requires j <= |fields|
    ensures var e, p := Collect(fields, source), Collect(fields[..j], source);
      p.functions <= e.functions && p.globals <= e.globals && p.tables <= e.tables
      && p.memories <= e.memories && p.types <= e.types && p.tags <= e.tags
    decreases |fields|
  {
    if j < |fields| {
      var init := fields[..|fields| - 1];
      assert init[..j] == fields[..j];
      CollectExtendsPrefix(init, j, source);
    } else {
      assert fields[..j] == fields;
    }
  }

  /** The six item lists of a symbol table. */
  function Items(symbols: SymbolTable): Extracted
    reads symbols
  {
    Extracted(symbols.functions, symbols.globals, symbols.tables, symbols.memories, symbols.types, symbols.tags)
  }

  /**
   * Appends an item to the table vector of its kind (`add_function` and so
   * on); the kinds after tables are left to `StoreLaterItem`.
   */
  method StoreItem(symbols: SymbolTable, item: Item)
    requires symbols.Valid()
    modifies symbols
    ensures symbols.Valid()
    ensures Items(symbols) == AddItem(old(Items(symbols)), item)
    ensures symbols.dataSegments == old(symbols.dataSegments) && symbols.elemSegments == old(symbols.elemSegments)
  {
    match item {
      case FuncItem(x) => symbols.AddFunction(x);
      case GlobalItem(x) => symbols.AddGlobal(x);
      case TableItem(x) => symbols.AddTable(x);
      case _ => StoreLaterItem(symbols, item);
    }
  }

  /** `add_memory`, `add_type` and `add_tag`; nothing for an item of no kind. */
  method StoreLaterItem(symbols: SymbolTable, item: Item)
    requires symbols.Valid()
    requires !item.FuncItem? && !item.GlobalItem? && !item.TableItem?
    modifies symbols
    ensures symbols.Valid()
    ensures Items(symbols) == AddItem(old(Items(symbols)), item)
    ensures symbols.dataSegments == old(symbols.dataSegments) && symbols.elemSegments == old(symbols.elemSegments)
  {
    match item {
      case MemoryItem(x) => symbols.AddMemory(x);
      case TypeItem(x) => symbols.AddType(x);
      case TagItem(x) => symbols.AddTag(x);
      case NoItem =>
    }
  }

  /** Adding a field's item grows its own kind by one and leaves the other kinds alone. */
  lemma AddFieldSizes(acc: Extracted, f: Field, source: string)
    ensures forall sp :: Size(AddField(acc, f, source), sp) == Size(acc, sp) + (if SpaceOf(f) == Some(sp) then 1 else 0)
  {
  }

  /**
   * One arm of the extractor's `match`: the field's item, numbered by the
   * current counter of its kind, goes into the table.
   */
  method ExtractField(symbols: SymbolTable, f: Field, index: nat, source: string)
    requires symbols.Valid()
    requires SpaceOf(f).Some? ==> index == Size(Items(symbols), SpaceOf(f).value)
    modifies symbols
    ensures symbols.Valid()
    ensures Items(symbols) == AddField(old(Items(symbols)), f, source)
    ensures symbols.dataSegments == old(symbols.dataSegments) && symbols.elemSegments == old(symbols.elemSegments)
  {
    if SpaceOf(f).Some? {
      var item := MakeItem(f, index, source);
      StoreItem(symbols, item);
    }
  }

  /**
   * `extract_symbols`: a component or a binary module gives an empty
   * table; otherwise the fields are visited in order and each adds one
   * item to its kind, numbered by that kind's counter, which imports and
   * definitions share.
   */
  method ExtractSymbols(wat: Wat, source: string) returns (symbols: SymbolTable)
    ensures fresh(symbols) && symbols.Valid()
    ensures Items(symbols) == Contents(wat, source)
    ensures symbols.dataSegments == [] && symbols.elemSegments == []
  {
    symbols := new SymbolTable();
    if wat.Component? || wat.kind.BinaryModule? {
      return;
    }
    var fields := wat.kind.fields;
    var funcIndex, globalIndex, tableIndex, memoryIndex, typeIndex, tagIndex := 0, 0, 0, 0, 0, 0;
    for j := 0 to |fields|
      invariant symbols.Valid()
      invariant Items(symbols) == Collect(fields[..j], source)
      invariant funcIndex == Size(Items(symbols), Funcs) && globalIndex == Size(Items(symbols), Globals)
      invariant tableIndex == Size(Items(symbols), Tables) && memoryIndex == Size(Items(symbols), Memories)
      invariant typeIndex == Size(Items(symbols), Types) && tagIndex == Size(Items(symbols), Tags)
      invariant symbols.dataSegments == [] && symbols.elemSegments == []
    {
      assert fields[..j + 1][..j] == fields[..j];
      var f := fields[j];
      ghost var before := Items(symbols);
      AddFieldSizes(before, f, source);
      match SpaceOf(f) {
        case None =>
          ExtractField(symbols, f, 0, source);
        case Some(Funcs) =>
          ExtractField(symbols, f, funcIndex, source);
          funcIndex := funcIndex + 1;
        case Some(Globals) =>
          ExtractField(symbols, f, globalIndex, source);
          globalIndex := globalIndex + 1;
        case Some(Tables) =>
          ExtractField(symbols, f, tableIndex, source);
          tableIndex := tableIndex + 1;
        case Some(Memories) =>
          ExtractField(symbols, f, memoryIndex, source);
          memoryIndex := memoryIndex + 1;
        case Some(Types) =>
          ExtractField(symbols, f, typeIndex, source);
          typeIndex := typeIndex + 1;
        case Some(Tags) =>
          ExtractField(symbols, f, tagIndex, source);
          tagIndex := tagIndex + 1;
      }
    }
    assert fields[..|fields|] == fields;
  }

  /** The outcome of `parse_document`: a filled table, or an error message. */
  datatype ParseResult = Ok(table: SymbolTable) | Err(message: string)

  /**
   * `parse_document`: a buffer error and a parse error become messages
   * with their own lead; a parsed tree is handed to the extractor.
   */
  method ParseDocument(source: string, outcome: WastOutcome) returns (r: ParseResult)
    ensures outcome.BufferError? ==> r == Err("Parse buffer error: " + outcome.message)
    ensures outcome.ParseFailure? ==> r == Err("Parse error: " + outcome.message)
    ensures outcome.Parsed? ==>
      r.Ok? && fresh(r.table) && r.table.Valid()
      && Items(r.table) == Contents(outcome.wat, source)
      && r.table.dataSegments == [] && r.table.elemSegments == []
  {
    match outcome
    case BufferError(message) => r := Err("Parse buffer error: " + message);
    case ParseFailure(message) => r := Err("Parse error: " + message);
    case Parsed(wat) =>
      var table := ExtractSymbols(wat, source);
      r := Ok(table);
  }
}
