/**
 * Go-to-definition (src/definition.rs): the word under the cursor names a
 * `$symbol`, looked up according to the context it stands in (falling
 * back to the definition the cursor is on), or a number, looked up by
 * position in the index space of its instruction.
 *
 * A URI that `Url::parse` rejects is represented by `None`; with it no
 * location is produced.
 */
module Definition {
  import opened Wrappers
  import opened CoreTypes
  import opened Tree
  import opened Text
  import opened Symbols
  import U = Utils
  import L = SymbolLookup
  import References

  // ---------------------------------------------------------------------
  // Context
  // ---------------------------------------------------------------------

  /** `determine_context_from_line` on the cursor line; General when there is none. */
  function LineFallback(document: string, pos: Position): U.InstructionContext
  {
    match LineAt(document, pos.line)
    case None => U.General
    case Some(line) => U.DetermineContextFromLine(line)
  }

  /**
   * The context of the node under the cursor; the cursor line decides
   * when there is no node or the node's context is General.
   */
  function DefinitionContext(document: string, root: Node, pos: Position): (r: U.InstructionContext)
    ensures U.NodeAtPosition(root, document, pos).None? ==> r == LineFallback(document, pos)
    ensures r == U.General ==> LineFallback(document, pos) == U.General
    ensures r != LineFallback(document, pos) ==>
      U.NodeAtPosition(root, document, pos).Some?
      && (var chain := U.NodeAtPosition(root, document, pos).value;
          r == U.DetermineInstructionContext(chain[0], chain[1..], document) && r != U.General)
  {
    match U.NodeAtPosition(root, document, pos)
    case None => LineFallback(document, pos)
    case Some(chain) =>
      var c := U.DetermineInstructionContext(chain[0], chain[1..], document);
      if c == U.General then LineFallback(document, pos) else c
  }

  // ---------------------------------------------------------------------
  // Module-level items by name: the item found decides, with or without a range
  // ---------------------------------------------------------------------

  function FunctionRange(word: string, table: SymbolTable): Option<Range>
    reads table
  {
    match table.GetFunctionByName(word) case Some(x) => x.range case None => None
  }

  function GlobalRange(word: string, table: SymbolTable): Option<Range>
    reads table
  {
    match table.GetGlobalByName(word) case Some(x) => x.range case None => None
  }

  function TableRange(word: string, table: SymbolTable): Option<Range>
    reads table
  {
    match table.GetTableByName(word) case Some(x) => x.range case None => None
  }

  function MemoryRange(word: string, table: SymbolTable): Option<Range>
    reads table
  {
    match table.GetMemoryByName(word) case Some(x) => x.range case None => None
  }

  function TypeRange(word: string, table: SymbolTable): Option<Range>
    reads table
  {
    match table.GetTypeByName(word) case Some(x) => x.range case None => None
  }

  function TagRange(word: string, table: SymbolTable): Option<Range>
    reads table
  {
    match table.GetTagByName(word) case Some(x) => x.range case None => None
  }

  function DataRange(word: string, table: SymbolTable): Option<Range>
    reads table
  {
    match table.GetDataByName(word) case Some(x) => x.range case None => None
  }

  function ElemRange(word: string, table: SymbolTable): Option<Range>
    reads table
  {
    match table.GetElemByName(word) case Some(x) => x.range case None => None
  }

  /**
   * The General search of this provider: functions, globals, tables,
   * memories, types, tags, data and elem segments; parameters, locals and
   * labels are not searched.
   */
  function ModuleLevelRange(word: string, table: SymbolTable): Option<Range>
    reads table
  {
    if table.GetFunctionByName(word).Some? then FunctionRange(word, table)
    else if table.GetGlobalByName(word).Some? then GlobalRange(word, table)
    else if table.GetTableByName(word).Some? then TableRange(word, table)
    else if table.GetMemoryByName(word).Some? then MemoryRange(word, table)
    else if table.GetTypeByName(word).Some? then TypeRange(word, table)
    else if table.GetTagByName(word).Some? then TagRange(word, table)
    else if table.GetDataByName(word).Some? then DataRange(word, table)
    else ElemRange(word, table)
  }

  /**
   * The definition a `$name` gets in each context (the search of
   * `provide_symbol_definition` before the URI is attached). The loops
   * over parameters, locals and labels are the searches of the shared
   * lookup: the first parameter called `word` decides, then the first
   * local, and the first block with that label.
   */
  function SymbolDefinitionRange(word: string, table: SymbolTable, ctx: U.InstructionContext, pos: Position): Option<Range>
    reads table
  {
    match ctx
    case Call => FunctionRange(word, table)
    case Function => FunctionRange(word, table)
    case Global => GlobalRange(word, table)
    case Local => L.FindLocalOrParamRange(word, table, pos)
    case Branch => L.FindBlockLabelRange(word, table, pos)
    case Block => L.FindBlockLabelRange(word, table, pos)
    case Table => TableRange(word, table)
    case Memory => MemoryRange(word, table)
    case Type => TypeRange(word, table)
    case Tag => TagRange(word, table)
    case Data => DataRange(word, table)
    case Elem => ElemRange(word, table)
    case General => ModuleLevelRange(word, table)
  }

  /** The item kinds a context may lead to. */
  predicate KindAllowed(ctx: U.InstructionContext, word: string, table: SymbolTable, pos: Position, rg: Range)
    reads table
  {
    var owner := U.FindContainingFunction(table.functions, pos);
    ((ctx.Call? || ctx.Function? || ctx.General?) && L.FunctionAt(word, table.functions, rg))
    || ((ctx.Global? || ctx.General?) && L.GlobalAt(word, table.globals, rg))
    || (ctx.Local? && owner.Some? && L.ParamOrLocalAt(word, owner.value, rg))
    || ((ctx.Branch? || ctx.Block?) && owner.Some? && L.LabelAt(word, owner.value, rg))
    || ((ctx.Table? || ctx.General?) && L.TableAt(word, table.tables, rg))
    || ((ctx.Memory? || ctx.General?) && L.MemoryAt(word, table.memories, rg))
    || ((ctx.Type? || ctx.General?) && L.TypeAt(word, table.types, rg))
    || ((ctx.Tag? || ctx.General?) && L.TagAt(word, table.tags, rg))
    || ((ctx.Data? || ctx.General?) && L.DataAt(word, table.dataSegments, rg))
    || ((ctx.Elem? || ctx.General?) && L.ElemAt(word, table.elemSegments, rg))
  }

  lemma FunctionOrGlobalFound(word: string, table: SymbolTable, ctx: U.InstructionContext, pos: Position, rg: Range)
    requires table.Valid()
    ensures ctx in {U.Call, U.Function, U.General} && FunctionRange(word, table) == Some(rg) ==> KindAllowed(ctx, word, table, pos, rg)
    ensures ctx in {U.Global, U.General} && GlobalRange(word, table) == Some(rg) ==> KindAllowed(ctx, word, table, pos, rg)
  {
  }

  lemma TableOrMemoryFound(word: string, table: SymbolTable, ctx: U.InstructionContext, pos: Position, rg: Range)
    requires table.Valid()
    ensures ctx in {U.Table, U.General} && TableRange(word, table) == Some(rg) ==> KindAllowed(ctx, word, table, pos, rg)
    ensures ctx in {U.Memory, U.General} && MemoryRange(word, table) == Some(rg) ==> KindAllowed(ctx, word, table, pos, rg)
  {
  }

  lemma TypeOrTagFound(word: string, table: SymbolTable, ctx: U.InstructionContext, pos: Position, rg: Range)
    requires table.Valid()
    ensures ctx in {U.Type, U.General} && TypeRange(word, table) == Some(rg) ==> KindAllowed(ctx, word, table, pos, rg)
    ensures ctx in {U.Tag, U.General} && TagRange(word, table) == Some(rg) ==> KindAllowed(ctx, word, table, pos, rg)
  {
  }

  lemma SegmentFound(word: string, table: SymbolTable, ctx: U.InstructionContext, pos: Position, rg: Range)
    requires table.Valid()
    ensures ctx in {U.Data, U.General} && DataRange(word, table) == Some(rg) ==> KindAllowed(ctx, word, table, pos, rg)
    ensures ctx in {U.Elem, U.General} && ElemRange(word, table) == Some(rg) ==> KindAllowed(ctx, word, table, pos, rg)
  {
  }

  /**
   * A definition found for a `$name` is the range of an item called
   * `word` of a kind its context allows: a call leads only to a
   * function, a `local.get` only to a parameter or local of the enclosing
   * function, a branch only to one of its labels, and so on.
   */
  lemma SymbolDefinitionMatchesContext(word: string, table: SymbolTable, ctx: U.InstructionContext, pos: Position)
    requires table.Valid() && SymbolDefinitionRange(word, table, ctx, pos).Some?
    ensures KindAllowed(ctx, word, table, pos, SymbolDefinitionRange(word, table, ctx, pos).value)
  {
    var rg := SymbolDefinitionRange(word, table, ctx, pos).value;
    FunctionOrGlobalFound(word, table, ctx, pos, rg);
    TableOrMemoryFound(word, table, ctx, pos, rg);
    TypeOrTagFound(word, table, ctx, pos, rg);
    SegmentFound(word, table, ctx, pos, rg);
  }

  /**
   * In a General context this provider agrees with the shared lookup
   * when nothing in the enclosing function is called `word`.
   */
  lemma GeneralAgreesOutsideScope(word: string, table: SymbolTable, pos: Position)
    requires !L.InScope(word, table, pos)
    ensures SymbolDefinitionRange(word, table, U.General, pos) == L.FindSymbolDefinitionRange(word, table, pos)
  {
    match U.FindContainingFunction(table.functions, pos)
    case None =>
    case Some(f) =>
      assert !L.HasParam(word, f) && !L.HasLocal(word, f) && !L.HasBlock(word, f);
  }

  /**
   * But a parameter, local or label that only the enclosing function
   * declares is not found in a General context, while the shared lookup
   * finds it.
   */
  lemma GeneralMissesScope(word: string, table: SymbolTable, pos: Position)
    requires table.Valid() && L.NamedHaveRanges(table)
    requires L.InScope(word, table, pos)
    requires Some(word) !in FunctionNames(table.functions) && Some(word) !in GlobalNames(table.globals)
    requires Some(word) !in TableNames(table.tables) && Some(word) !in MemoryNames(table.memories)
    requires Some(word) !in TypeNames(table.types) && Some(word) !in TagNames(table.tags)
    requires Some(word) !in DataNames(table.dataSegments) && Some(word) !in ElemNames(table.elemSegments)
    ensures SymbolDefinitionRange(word, table, U.General, pos).None?
    ensures L.FindSymbolDefinitionRange(word, table, pos).Some?
  {
    var _ := table.GetFunctionByName(word);
    var _ := table.GetGlobalByName(word);
    var _ := table.GetTableByName(word);
    var _ := table.GetMemoryByName(word);
    var _ := table.GetTypeByName(word);
    var _ := table.GetTagByName(word);
    var _ := table.GetDataByName(word);
    var _ := table.GetElemByName(word);
    L.DefinitionFoundIffDeclared(word, table, pos);
  }

  // ---------------------------------------------------------------------
  // The definition the cursor is on
  // ---------------------------------------------------------------------

  predicate StartsOnLine(rg: Option<Range>, line: nat)
  {
    rg.Some? && rg.value.start.line == line
  }

  /**
   * The first element that `named` accepts and whose range starts on
   * `line`; elements of that name on other lines are passed over.
   */
  function FirstOnLine<T>(xs: seq<T>, named: T -> bool, rangeOf: T -> Option<Range>, line: nat): (r: Option<Range>)
    ensures r.Some? ==> r.value.start.line == line
    ensures r.Some? ==> exists k :: 0 <= k < |xs| && named(xs[k]) && rangeOf(xs[k]) == r
                                   && forall j :: 0 <= j < k ==> !(named(xs[j]) && StartsOnLine(rangeOf(xs[j]), line))
    ensures r.None? <==> forall k :: 0 <= k < |xs| ==> !(named(xs[k]) && StartsOnLine(rangeOf(xs[k]), line))
  {
    if xs == [] then None
    else if named(xs[0]) && StartsOnLine(rangeOf(xs[0]), line) then rangeOf(xs[0])
    else
      var r := FirstOnLine(xs[1..], named, rangeOf, line);
      assert r.Some? ==> exists k :: 1 <= k < |xs| && named(xs[k]) && rangeOf(xs[k]) == r
                                     && forall j :: 0 <= j < k ==> !(named(xs[j]) && StartsOnLine(rangeOf(xs[j]), line)) by {
        if r.Some? {
          var k :| 0 <= k < |xs[1..]| && named(xs[1..][k]) && rangeOf(xs[1..][k]) == r
                   && forall j :: 0 <= j < k ==> !(named(xs[1..][j]) && StartsOnLine(rangeOf(xs[1..][j]), line));
          assert named(xs[k + 1]) && rangeOf(xs[k + 1]) == r;
          forall j | 0 <= j < k + 1 ensures !(named(xs[j]) && StartsOnLine(rangeOf(xs[j]), line)) {
            if j > 0 { assert xs[j] == xs[1..][j - 1]; }
          }
        }
      }
      assert r.None? ==> forall k :: 0 <= k < |xs| ==> !(named(xs[k]) && StartsOnLine(rangeOf(xs[k]), line)) by {
        if r.None? {
          forall k | 0 <= k < |xs| ensures !(named(xs[k]) && StartsOnLine(rangeOf(xs[k]), line)) {
            if k > 0 { assert xs[k] == xs[1..][k - 1]; }
          }
        }
      }
      r
  }

  /** The range of a module-level item when it starts on `line`. */
  function OnLine(rg: Option<Range>, line: nat): (r: Option<Range>)
    ensures r.Some? <==> StartsOnLine(rg, line)
    ensures r.Some? ==> r == rg
  {
    if StartsOnLine(rg, line) then rg else None
  }

  /** The parameters, locals and labels of `f` called `word`, starting on `line`. */
  function InFunctionOnLine(word: string, f: Function, line: nat): (r: Option<Range>)
    ensures r.Some? ==> r.value.start.line == line && L.FunctionItemAt(word, f, r.value)
  {
    FirstOnLine(f.parameters, (p: Parameter) => p.name == Some(word), (p: Parameter) => p.range, line)
      .Or(FirstOnLine(f.locals, (v: Variable) => v.name == Some(word), (v: Variable) => v.range, line))
      .Or(FirstOnLine(f.blocks, (b: BlockLabel) => b.labelName == word, (b: BlockLabel) => b.range, line))
  }

  /**
   * `provide_definition_at_cursor`, before the URI is attached: the
   * function, global, parameter, local, label, table, memory, type or tag
   * called `word` whose range starts on the cursor line. Data and elem
   * segments are not considered.
   */
  function DefinitionAtCursor(word: string, table: SymbolTable, pos: Position): (r: Option<Range>)
    reads table
    ensures r.Some? ==> r.value.start.line == pos.line
  {
    var owner := U.FindContainingFunction(table.functions, pos);
    OnLine(FunctionRange(word, table), pos.line)
      .Or(OnLine(GlobalRange(word, table), pos.line))
      .Or(if owner.Some? then InFunctionOnLine(word, owner.value, pos.line) else None)
      .Or(OnLine(TableRange(word, table), pos.line))
      .Or(OnLine(MemoryRange(word, table), pos.line))
      .Or(OnLine(TypeRange(word, table), pos.line))
      .Or(OnLine(TagRange(word, table), pos.line))
  }

  /**
   * The cursor fallback only reports something called `word`: a
   * module-level item (never a data or elem segment) or an item of the
   * enclosing function.
   */
  lemma AtCursorIsNamedWord(word: string, table: SymbolTable, pos: Position)
    requires table.Valid() && DefinitionAtCursor(word, table, pos).Some?
    ensures var rg := DefinitionAtCursor(word, table, pos).value;
      L.ModuleItemAt(word, table, rg)
      || (U.FindContainingFunction(table.functions, pos).Some?
          && L.FunctionItemAt(word, U.FindContainingFunction(table.functions, pos).value, rg))
  {
    var rg := DefinitionAtCursor(word, table, pos).value;
    L.FunctionOrGlobalAt(word, table, rg);
    L.TableOrMemoryAt(word, table, rg);
    L.TypeOrTagAt(word, table, rg);
  }

  /**
   * On the line of a function's name the cursor fallback finds that
   * function: the last function called `word`.
   */
  lemma AtCursorFindsFunction(word: string, table: SymbolTable, pos: Position)
    requires table.Valid() && Some(word) in FunctionNames(table.functions)
    requires StartsOnLine(FunctionRange(word, table), pos.line)
    ensures exists i :: LastNamed(FunctionNames(table.functions), word, i)
                        && DefinitionAtCursor(word, table, pos) == table.functions[i].range
  {
    var _ := table.GetFunctionByName(word);
  }

  // ---------------------------------------------------------------------
  // Numeric indices
  // ---------------------------------------------------------------------

  /**
   * The definition a number gets in each context (the search of
   * `provide_index_definition` before the URI is attached): the item at
   * that position of the function, global, type or tag space, or of the
   * local space of the enclosing function; no other context leads
   * anywhere.
   */
  function IndexDefinitionRange(index: nat, table: SymbolTable, ctx: U.InstructionContext, pos: Position): (r: Option<Range>)
    reads table
    ensures !(ctx in {U.Call, U.Global, U.Type, U.Tag, U.Local}) ==> r.None?
  {
    match ctx
    case Call => (match table.GetFunctionByIndex(index) case Some(f) => f.range case None => None)
    case Global => (match table.GetGlobalByIndex(index) case Some(g) => g.range case None => None)
    case Type => (match table.GetTypeByIndex(index) case Some(t) => t.range case None => None)
    case Tag => (match table.GetTagByIndex(index) case Some(t) => t.range case None => None)
    case Local =>
      (match U.FindContainingFunction(table.functions, pos)
       case None => None
       case Some(f) =>
         var totalParams := |f.parameters|;
         if index < totalParams then f.parameters[index].range
         else if index - totalParams < |f.locals| then f.locals[index - totalParams].range
         else None)
    case _ => None
  }

  /**
   * In the contexts it handles this provider agrees with the shared
   * index lookup (a call numbers functions).
   */
  lemma IndexAgreesWithSharedLookup(index: nat, table: SymbolTable, ctx: U.InstructionContext, pos: Position)
    requires ctx in {U.Call, U.Global, U.Type, U.Tag, U.Local}
    ensures L.FromInstructionContext(ctx).Some?
    ensures IndexDefinitionRange(index, table, ctx, pos)
            == L.FindIndexDefinitionRange(index, table, L.FromInstructionContext(ctx).value, pos)
  {
  }

  // ---------------------------------------------------------------------
  // The provider
  // ---------------------------------------------------------------------

  /** Attaches the document URI to a range; nothing without a valid URI. */
  function LocationOf(rg: Option<Range>, uri: Option<string>): (r: Option<References.Location>)
    ensures r.Some? <==> rg.Some? && uri.Some?
    ensures r.Some? ==> r.value == References.Location(uri.value, rg.value)
  {
    if rg.Some? && uri.Some? then Some(References.Location(uri.value, rg.value)) else None
  }

  /** The word is a decimal number that fits a `usize`. */
  function ParseIndex(word: string): (r: Option<nat>)
    ensures r.Some? ==> AllDigits(word) && word != []
  {
    if AllDigits(word) then ParseUnsigned(word, 10, USIZE_BOUND) else None
  }

  /**
   * `provide_definition`: a `$name` is looked up in its context and, when
   * that finds nothing, as the definition the cursor is on; a number is
   * looked up by index; any other word has no definition.
   */
  function ProvideDefinition(document: string, table: SymbolTable, root: Node, pos: Position, uri: Option<string>)
    : (r: Option<References.Location>)
    reads table
    ensures r.Some? ==> uri.Some? && r.value.uri == uri.value
    ensures r.Some? ==> U.WordAt(document, pos).Some?
    ensures r.Some? ==>
      var word := U.WordAt(document, pos).value;
      var ctx := DefinitionContext(document, root, pos);
      if StartsWith(word, "$") then
        r.value.range == SymbolDefinitionRange(word, table, ctx, pos).UnwrapOr(r.value.range)
        && (SymbolDefinitionRange(word, table, ctx, pos).None? ==> r.value.range.start.line == pos.line)
      else
        ParseIndex(word).Some? && Some(r.value.range) == IndexDefinitionRange(ParseIndex(word).value, table, ctx, pos)
  {
    match U.WordAt(document, pos)
    case None => None
    case Some(word) =>
      var ctx := DefinitionContext(document, root, pos);
      if StartsWith(word, "$") then
        var result := LocationOf(SymbolDefinitionRange(word, table, ctx, pos), uri);
        if result.None? then LocationOf(DefinitionAtCursor(word, table, pos), uri) else result
      else if ParseIndex(word).Some? then
        LocationOf(IndexDefinitionRange(ParseIndex(word).value, table, ctx, pos), uri)
      else None
  }
}
