/**
 * Go-to-definition on the shared lookup (src/features/definition/mod.rs):
 * the same entry point and cursor fallback as the older provider, but a
 * General context uses the shared symbol search, and a number is looked
 * up in whatever index space its context names.
 *
 * `determine_context_with_fallback` is not part of this model; it is
 * taken to be the context of the node under the cursor with the line
 * fallback, as the older provider computes it inline.
 */
module FeaturesDefinition {
  import opened Wrappers
  import opened CoreTypes
  import opened Tree
  import opened Text
  import opened Symbols
  import U = Utils
  import L = SymbolLookup
  import D = Definition
  import References

  /**
   * The definition a `$name` gets in each context: as in the older
   * provider, except that a General context searches everything the
   * shared lookup searches, scope included.
   */
  function SymbolDefinitionRange(word: string, table: SymbolTable, ctx: U.InstructionContext, pos: Position): (r: Option<Range>)
    reads table
    ensures ctx != U.General ==> r == D.SymbolDefinitionRange(word, table, ctx, pos)
    ensures ctx == U.General ==> r == L.FindSymbolDefinitionRange(word, table, pos)
  {
    match ctx
    case Call => D.FunctionRange(word, table)
    case Function => D.FunctionRange(word, table)
    case Global => D.GlobalRange(word, table)
    case Local => L.FindLocalOrParamRange(word, table, pos)
    case Branch => L.FindBlockLabelRange(word, table, pos)
    case Block => L.FindBlockLabelRange(word, table, pos)
    case Table => D.TableRange(word, table)
    case Memory => D.MemoryRange(word, table)
    case Type => D.TypeRange(word, table)
    case Tag => D.TagRange(word, table)
    case Data => D.DataRange(word, table)
    case Elem => D.ElemRange(word, table)
    case General => L.FindSymbolDefinitionRange(word, table, pos)
  }

  /**
   * `provide_index_definition` before the URI is attached: the context's
   * index space, if it has one, searched by the shared lookup.
   */
  function IndexDefinitionRange(index: nat, table: SymbolTable, ctx: U.InstructionContext, pos: Position): (r: Option<Range>)
    reads table
    ensures L.FromInstructionContext(ctx).None? ==> r.None?
    ensures L.FromInstructionContext(ctx).Some? ==> r == L.FindIndexDefinitionRange(index, table, L.FromInstructionContext(ctx).value, pos)
  {
    match L.FromInstructionContext(ctx)
    case None => None
    case Some(k) => L.FindIndexDefinitionRange(index, table, k, pos)
  }

  /**
   * Where the older provider finds an indexed definition this one finds
   * the same; it also answers in function, table, memory, data and elem
   * contexts, where the older one answers nothing.
   */
  lemma IndexExtendsOlderProvider(index: nat, table: SymbolTable, ctx: U.InstructionContext, pos: Position)
    ensures D.IndexDefinitionRange(index, table, ctx, pos).Some? ==>
      IndexDefinitionRange(index, table, ctx, pos) == D.IndexDefinitionRange(index, table, ctx, pos)
    ensures ctx in {U.Function, U.Table, U.Memory, U.Data, U.Elem} ==>
      D.IndexDefinitionRange(index, table, ctx, pos).None?
      && IndexDefinitionRange(index, table, ctx, pos)
         == L.FindIndexDefinitionRange(index, table, L.FromInstructionContext(ctx).value, pos)
  {
    if ctx in {U.Call, U.Global, U.Type, U.Tag, U.Local} {
      D.IndexAgreesWithSharedLookup(index, table, ctx, pos);
    }
  }

  /**
   * Where the older provider finds a named definition this one finds the
   * same; in a General context it also finds the parameters, locals and
   * labels in scope.
   */
  lemma SymbolExtendsOlderProvider(word: string, table: SymbolTable, ctx: U.InstructionContext, pos: Position)
    requires ctx == U.General ==> !L.InScope(word, table, pos)
    ensures SymbolDefinitionRange(word, table, ctx, pos) == D.SymbolDefinitionRange(word, table, ctx, pos)
  {
    if ctx == U.General {
      D.GeneralAgreesOutsideScope(word, table, pos);
    }
  }

  /**
   * `provide_definition`: a `$name` is looked up in its context and, when
   * that finds nothing, as the definition the cursor is on; a number is
   * looked up by index; any other word has no definition.
   */
  function ProvideDefinition(document: string, table: SymbolTable, root: Node, pos: Position, uri: Option<string>)
    : (r: Option<References.Location>)
    reads table
    ensures r.Some? ==> uri.Some? && r.value.uri == uri.value
    ensures r.Some? ==> U.WordAt(document, pos).Some?
    ensures r.Some? ==>
      var word := U.WordAt(document, pos).value;
      var ctx := D.DefinitionContext(document, root, pos);
      if StartsWith(word, "$") then
        r.value.range == SymbolDefinitionRange(word, table, ctx, pos).UnwrapOr(r.value.range)
        && (SymbolDefinitionRange(word, table, ctx, pos).None? ==> r.value.range.start.line == pos.line)
      else
        D.ParseIndex(word).Some? && Some(r.value.range) == IndexDefinitionRange(D.ParseIndex(word).value, table, ctx, pos)
  {
    match U.WordAt(document, pos)
    case None => None
    case Some(word) =>
      var ctx := D.DefinitionContext(document, root, pos);
      if StartsWith(word, "$") then
        var result := D.LocationOf(SymbolDefinitionRange(word, table, ctx, pos), uri);
        if result.None? then D.LocationOf(D.DefinitionAtCursor(word, table, pos), uri) else result
      else if D.ParseIndex(word).Some? then
        D.LocationOf(IndexDefinitionRange(D.ParseIndex(word).value, table, ctx, pos), uri)
      else None
  }

  /**
   * A `$name` whose lookup in context succeeds is answered by that
   * lookup, whatever the cursor line holds.
   */
  lemma ContextLookupWins(document: string, table: SymbolTable, root: Node, pos: Position, uri: string)
    requires U.WordAt(document, pos).Some? && StartsWith(U.WordAt(document, pos).value, "$")
    requires SymbolDefinitionRange(U.WordAt(document, pos).value, table, D.DefinitionContext(document, root, pos), pos).Some?
    ensures ProvideDefinition(document, table, root, pos, Some(uri))
            == Some(References.Location(uri, SymbolDefinitionRange(U.WordAt(document, pos).value, table, D.DefinitionContext(document, root, pos), pos).value))
  {
  }
}
