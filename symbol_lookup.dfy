/**
 * Shared symbol lookup (src/symbol_lookup.rs): where a `$name` or a
 * numeric index is defined, searching the module-level tables and the
 * parameters, locals and block labels of the function around the cursor.
 */
module SymbolLookup {
  import opened Wrappers
  import opened CoreTypes
  import opened Symbols
  import U = Utils
  import References

  // ---------------------------------------------------------------------
  // Inside one function
  // ---------------------------------------------------------------------

  /** `find_param_in_function`: the first parameter called `word`. */
  function FindParamInFunction(word: string, f: Function): (r: Option<Parameter>)
    ensures r.Some? <==> exists k :: 0 <= k < |f.parameters| && f.parameters[k].name == Some(word)
    ensures r.Some? ==> exists k :: 0 <= k < |f.parameters| && f.parameters[k] == r.value && r.value.name == Some(word)
                                   && forall j :: 0 <= j < k ==> f.parameters[j].name != Some(word)
  {
    match FirstWhere(f.parameters, (p: Parameter) => p.name == Some(word))
    case None => None
    case Some(k) => Some(f.parameters[k])
  }

  /** `find_local_in_function`: the first local called `word`. */
  function FindLocalInFunction(word: string, f: Function): (r: Option<Variable>)
    ensures r.Some? <==> exists k :: 0 <= k < |f.locals| && f.locals[k].name == Some(word)
    ensures r.Some? ==> exists k :: 0 <= k < |f.locals| && f.locals[k] == r.value && r.value.name == Some(word)
                                   && forall j :: 0 <= j < k ==> f.locals[j].name != Some(word)
  {
    match FirstWhere(f.locals, (v: Variable) => v.name == Some(word))
    case None => None
    case Some(k) => Some(f.locals[k])
  }

  /** `find_block_in_function`: the first block labelled `word`. */
  function FindBlockInFunction(word: string, f: Function): (r: Option<BlockLabel>)
    ensures r.Some? <==> exists k :: 0 <= k < |f.blocks| && f.blocks[k].labelName == word
    ensures r.Some? ==> exists k :: 0 <= k < |f.blocks| && f.blocks[k] == r.value && r.value.labelName == word
                                   && forall j :: 0 <= j < k ==> f.blocks[j].labelName != word
  {
    match FirstWhere(f.blocks, (b: BlockLabel) => b.labelName == word)
    case None => None
    case Some(k) => Some(f.blocks[k])
  }

  predicate HasParam(word: string, f: Function)
  {
    exists k :: 0 <= k < |f.parameters| && f.parameters[k].name == Some(word)
  }

  predicate HasLocal(word: string, f: Function)
  {
    exists k :: 0 <= k < |f.locals| && f.locals[k].name == Some(word)
  }

  predicate HasBlock(word: string, f: Function)
  {
    exists k :: 0 <= k < |f.blocks| && f.blocks[k].labelName == word
  }

  /**
   * Every named parameter and local and every block label carries the
   * range of its identifier, as the extractor records them.
   */
  predicate FunctionRanged(f: Function)
  {
    (forall k :: 0 <= k < |f.parameters| ==> f.parameters[k].name.Some? ==> f.parameters[k].range.Some?)
    && (forall k :: 0 <= k < |f.locals| ==> f.locals[k].name.Some? ==> f.locals[k].range.Some?)
    && (forall k :: 0 <= k < |f.blocks| ==> f.blocks[k].range.Some?)
  }

  /**
   * `find_local_or_param_in_function`: the first parameter called `word`
   * decides, even when it has no range; only without one are the locals
   * searched.
   */
  function FindLocalOrParamInFunction(word: string, f: Function): (r: Option<Range>)
    ensures HasParam(word, f) ==>
      exists k :: 0 <= k < |f.parameters| && f.parameters[k].name == Some(word) && r == f.parameters[k].range
                  && forall j :: 0 <= j < k ==> f.parameters[j].name != Some(word)
    ensures !HasParam(word, f) && HasLocal(word, f) ==>
      exists k :: 0 <= k < |f.locals| && f.locals[k].name == Some(word) && r == f.locals[k].range
                  && forall j :: 0 <= j < k ==> f.locals[j].name != Some(word)
    ensures !HasParam(word, f) && !HasLocal(word, f) ==> r.None?
    ensures FunctionRanged(f) ==> (r.Some? <==> HasParam(word, f) || HasLocal(word, f))
  {
    match FindParamInFunction(word, f)
    case Some(p) => p.range
    case None =>
      match FindLocalInFunction(word, f)
      case Some(v) => v.range
      case None => None
  }

  /** `find_block_label_in_function`: the range of the first block labelled `word`. */
  function FindBlockLabelInFunction(word: string, f: Function): (r: Option<Range>)
    ensures HasBlock(word, f) ==>
      exists k :: 0 <= k < |f.blocks| && f.blocks[k].labelName == word && r == f.blocks[k].range
                  && forall j :: 0 <= j < k ==> f.blocks[j].labelName != word
    ensures !HasBlock(word, f) ==> r.None?
    ensures FunctionRanged(f) ==> (r.Some? <==> HasBlock(word, f))
  {
    match FindBlockInFunction(word, f)
    case Some(b) => b.range
    case None => None
  }

  /** `find_local_or_param_range`: the same search in the function around `pos`. */
  function FindLocalOrParamRange(word: string, table: SymbolTable, pos: Position): (r: Option<Range>)
    reads table
    ensures U.FindContainingFunction(table.functions, pos).None? ==> r.None?
    ensures U.FindContainingFunction(table.functions, pos).Some? ==>
      r == FindLocalOrParamInFunction(word, U.FindContainingFunction(table.functions, pos).value)
  {
    match U.FindContainingFunction(table.functions, pos)
    case None => None
    case Some(f) => FindLocalOrParamInFunction(word, f)
  }

  /** `find_block_label_range`: the block search in the function around `pos`. */
  function FindBlockLabelRange(word: string, table: SymbolTable, pos: Position): (r: Option<Range>)
    reads table
    ensures U.FindContainingFunction(table.functions, pos).None? ==> r.None?
    ensures U.FindContainingFunction(table.functions, pos).Some? ==>
      r == FindBlockLabelInFunction(word, U.FindContainingFunction(table.functions, pos).value)
  {
    match U.FindContainingFunction(table.functions, pos)
    case None => None
    case Some(f) => FindBlockLabelInFunction(word, f)
  }

  // ---------------------------------------------------------------------
  // Named definitions
  // ---------------------------------------------------------------------

  /**
   * `find_symbol_definition_range`: functions, globals, the parameters and
   * locals of the enclosing function, its block labels, tables, memories,
   * types, tags, data and elem segments, in that order. A module-level
   * item that is found answers with its range even when it has none.
   */
  function FindSymbolDefinitionRange(word: string, table: SymbolTable, pos: Position): Option<Range>
    reads table
  {
    if table.GetFunctionByName(word).Some? then table.GetFunctionByName(word).value.range
    else if table.GetGlobalByName(word).Some? then table.GetGlobalByName(word).value.range
    else if FindLocalOrParamRange(word, table, pos).Some? then FindLocalOrParamRange(word, table, pos)
    else if FindBlockLabelRange(word, table, pos).Some? then FindBlockLabelRange(word, table, pos)
    else if table.GetTableByName(word).Some? then table.GetTableByName(word).value.range
    else if table.GetMemoryByName(word).Some? then table.GetMemoryByName(word).value.range
    else if table.GetTypeByName(word).Some? then table.GetTypeByName(word).value.range
    else if table.GetTagByName(word).Some? then table.GetTagByName(word).value.range
    else if table.GetDataByName(word).Some? then table.GetDataByName(word).value.range
    else if table.GetElemByName(word).Some? then table.GetElemByName(word).value.range
    else None
  }

  /** Something of the enclosing function is called `word`. */
  predicate InScope(word: string, table: SymbolTable, pos: Position)
    reads table
  {
    var owner := U.FindContainingFunction(table.functions, pos);
    owner.Some? && (HasParam(word, owner.value) || HasLocal(word, owner.value) || HasBlock(word, owner.value))
  }

  /** Some module-level item or some name in scope at `pos` is `word`. */
  predicate Declared(word: string, table: SymbolTable, pos: Position)
    reads table
  {
    Some(word) in FunctionNames(table.functions) || Some(word) in GlobalNames(table.globals)
    || InScope(word, table, pos)
    || Some(word) in TableNames(table.tables) || Some(word) in MemoryNames(table.memories)
    || Some(word) in TypeNames(table.types) || Some(word) in TagNames(table.tags)
    || Some(word) in DataNames(table.dataSegments) || Some(word) in ElemNames(table.elemSegments)
  }

  predicate FunctionAt(word: string, fs: seq<Function>, rg: Range)
  {
    exists i :: 0 <= i < |fs| && fs[i].name == Some(word) && fs[i].range == Some(rg)
  }

  predicate GlobalAt(word: string, xs: seq<Global>, rg: Range)
  {
    exists i :: 0 <= i < |xs| && xs[i].name == Some(word) && xs[i].range == Some(rg)
  }

  predicate TableAt(word: string, xs: seq<Symbols.Table>, rg: Range)
  {
    exists i :: 0 <= i < |xs| && xs[i].name == Some(word) && xs[i].range == Some(rg)
  }

  predicate MemoryAt(word: string, xs: seq<Memory>, rg: Range)
  {
    exists i :: 0 <= i < |xs| && xs[i].name == Some(word) && xs[i].range == Some(rg)
  }

  predicate TypeAt(word: string, xs: seq<TypeDef>, rg: Range)
  {
    exists i :: 0 <= i < |xs| && xs[i].name == Some(word) && xs[i].range == Some(rg)
  }

  predicate TagAt(word: string, xs: seq<Symbols.Tag>, rg: Range)
  {
    exists i :: 0 <= i < |xs| && xs[i].name == Some(word) && xs[i].range == Some(rg)
  }

  predicate DataAt(word: string, xs: seq<DataSegment>, rg: Range)
  {
    exists i :: 0 <= i < |xs| && xs[i].name == Some(word) && xs[i].range == Some(rg)
  }

  predicate ElemAt(word: string, xs: seq<ElemSegment>, rg: Range)
  {
    exists i :: 0 <= i < |xs| && xs[i].name == Some(word) && xs[i].range == Some(rg)
  }

  predicate ParamOrLocalAt(word: string, f: Function, rg: Range)
  {
    (exists k :: 0 <= k < |f.parameters| && f.parameters[k].name == Some(word) && f.parameters[k].range == Some(rg))
    || (exists k :: 0 <= k < |f.locals| && f.locals[k].name == Some(word) && f.locals[k].range == Some(rg))
  }

  predicate LabelAt(word: string, f: Function, rg: Range)
  {
    exists k :: 0 <= k < |f.blocks| && f.blocks[k].labelName == word && f.blocks[k].range == Some(rg)
  }

  /** `rg` is the range of a module-level item called `word`. */
  predicate ModuleItemAt(word: string, table: SymbolTable, rg: Range)
    reads table
  {
    FunctionAt(word, table.functions, rg) || GlobalAt(word, table.globals, rg)
    || TableAt(word, table.tables, rg) || MemoryAt(word, table.memories, rg)
    || TypeAt(word, table.types, rg) || TagAt(word, table.tags, rg)
    || DataAt(word, table.dataSegments, rg) || ElemAt(word, table.elemSegments, rg)
  }

  /** `rg` is the range of a parameter, local or block label called `word` in `f`. */
  predicate FunctionItemAt(word: string, f: Function, rg: Range)
  {
    ParamOrLocalAt(word, f, rg) || LabelAt(word, f, rg)
  }

  /** Every named item of the table, and of each of its functions, carries a range. */
  predicate NamedHaveRanges(table: SymbolTable)
    reads table
  {
    (forall i :: 0 <= i < |table.functions| ==> table.functions[i].name.Some? ==> table.functions[i].range.Some?)
    && (forall i :: 0 <= i < |table.functions| ==> FunctionRanged(table.functions[i]))
    && (forall i :: 0 <= i < |table.globals| ==> table.globals[i].name.Some? ==> table.globals[i].range.Some?)
    && (forall i :: 0 <= i < |table.tables| ==> table.tables[i].name.Some? ==> table.tables[i].range.Some?)
    && (forall i :: 0 <= i < |table.memories| ==> table.memories[i].name.Some? ==> table.memories[i].range.Some?)
    && (forall i :: 0 <= i < |table.types| ==> table.types[i].name.Some? ==> table.types[i].range.Some?)
    && (forall i :: 0 <= i < |table.tags| ==> table.tags[i].name.Some? ==> table.tags[i].range.Some?)
    && (forall i :: 0 <= i < |table.dataSegments| ==> table.dataSegments[i].name.Some? ==> table.dataSegments[i].range.Some?)
    && (forall i :: 0 <= i < |table.elemSegments| ==> table.elemSegments[i].name.Some? ==> table.elemSegments[i].range.Some?)
  }

  /** A function called `word` wins over everything else: the last one declared. */
  lemma FunctionsComeFirst(word: string, table: SymbolTable, pos: Position)
    requires table.Valid() && Some(word) in FunctionNames(table.functions)
    ensures exists i :: LastNamed(FunctionNames(table.functions), word, i)
                        && FindSymbolDefinitionRange(word, table, pos) == table.functions[i].range
  {
    var _ := table.GetFunctionByName(word);
  }

  /**
   * Without a function or global of that name, a parameter, local or
   * label of the enclosing function shadows the tables, memories, types,
   * tags and segments called `word`.
   */
  lemma ScopeShadowsModuleItems(word: string, table: SymbolTable, pos: Position)
    requires table.Valid() && NamedHaveRanges(table)
    requires Some(word) !in FunctionNames(table.functions) && Some(word) !in GlobalNames(table.globals)
    requires InScope(word, table, pos)
    ensures var f := U.FindContainingFunction(table.functions, pos).value;
      FindSymbolDefinitionRange(word, table, pos)
      == if HasParam(word, f) || HasLocal(word, f) then FindLocalOrParamInFunction(word, f)
         else FindBlockLabelInFunction(word, f)
  {
    var f := U.FindContainingFunction(table.functions, pos).value;
    var _ := table.GetFunctionByName(word);
    var _ := table.GetGlobalByName(word);
    var i :| 0 <= i < |table.functions| && table.functions[i] == f;
    assert FunctionRanged(table.functions[i]);
  }

  lemma FunctionOrGlobalAt(word: string, table: SymbolTable, rg: Range)
    requires table.Valid()
    ensures table.GetFunctionByName(word).Some? && table.GetFunctionByName(word).value.range == Some(rg) ==> ModuleItemAt(word, table, rg)
    ensures table.GetGlobalByName(word).Some? && table.GetGlobalByName(word).value.range == Some(rg) ==> ModuleItemAt(word, table, rg)
  {
  }

  lemma TableOrMemoryAt(word: string, table: SymbolTable, rg: Range)
    requires table.Valid()
    ensures table.GetTableByName(word).Some? && table.GetTableByName(word).value.range == Some(rg) ==> ModuleItemAt(word, table, rg)
    ensures table.GetMemoryByName(word).Some? && table.GetMemoryByName(word).value.range == Some(rg) ==> ModuleItemAt(word, table, rg)
  {
  }

  lemma TypeOrTagAt(word: string, table: SymbolTable, rg: Range)
    requires table.Valid()
    ensures table.GetTypeByName(word).Some? && table.GetTypeByName(word).value.range == Some(rg) ==> ModuleItemAt(word, table, rg)
    ensures table.GetTagByName(word).Some? && table.GetTagByName(word).value.range == Some(rg) ==> ModuleItemAt(word, table, rg)
  {
  }

  lemma SegmentAt(word: string, table: SymbolTable, rg: Range)
    requires table.Valid()
    ensures table.GetDataByName(word).Some? && table.GetDataByName(word).value.range == Some(rg) ==> ModuleItemAt(word, table, rg)
    ensures table.GetElemByName(word).Some? && table.GetElemByName(word).value.range == Some(rg) ==> ModuleItemAt(word, table, rg)
  {
  }

  /**
   * A definition found for `word` is the range of something called
   * `word`: a module-level item or an item of the enclosing function.
   */
  lemma DefinitionIsNamedWord(word: string, table: SymbolTable, pos: Position)
    requires table.Valid() && FindSymbolDefinitionRange(word, table, pos).Some?
    ensures var rg := FindSymbolDefinitionRange(word, table, pos).value;
      ModuleItemAt(word, table, rg)
      || (U.FindContainingFunction(table.functions, pos).Some?
          && FunctionItemAt(word, U.FindContainingFunction(table.functions, pos).value, rg))
  {
    var rg := FindSymbolDefinitionRange(word, table, pos).value;
    FunctionOrGlobalAt(word, table, rg);
    TableOrMemoryAt(word, table, rg);
    TypeOrTagAt(word, table, rg);
    SegmentAt(word, table, rg);
  }

  lemma FoundWhenDeclaredFirstHalf(word: string, table: SymbolTable, pos: Position)
    requires table.Valid() && NamedHaveRanges(table)
    requires Some(word) in FunctionNames(table.functions) || Some(word) in GlobalNames(table.globals) || InScope(word, table, pos)
    ensures FindSymbolDefinitionRange(word, table, pos).Some?
  {
    var _ := table.GetFunctionByName(word);
    var _ := table.GetGlobalByName(word);
    if InScope(word, table, pos) {
      var f := U.FindContainingFunction(table.functions, pos).value;
      var i :| 0 <= i < |table.functions| && table.functions[i] == f;
      assert FunctionRanged(table.functions[i]);
    }
  }

  lemma FoundWhenDeclaredSecondHalf(word: string, table: SymbolTable, pos: Position)
    requires table.Valid() && NamedHaveRanges(table)
    requires Some(word) in TableNames(table.tables) || Some(word) in MemoryNames(table.memories)
      || Some(word) in TypeNames(table.types) || Some(word) in TagNames(table.tags)
      || Some(word) in DataNames(table.dataSegments) || Some(word) in ElemNames(table.elemSegments)
    ensures FindSymbolDefinitionRange(word, table, pos).Some?
  {
    var _ := table.GetFunctionByName(word);
    var _ := table.GetGlobalByName(word);
    var _ := table.GetTableByName(word);
    var _ := table.GetMemoryByName(word);
    var _ := table.GetTypeByName(word);
    var _ := table.GetTagByName(word);
    var _ := table.GetDataByName(word);
    var _ := table.GetElemByName(word);
  }

  /**
   * When every named item carries its range, a definition is found
   * exactly when something called `word` is declared or in scope.
   */
  lemma DefinitionFoundIffDeclared(word: string, table: SymbolTable, pos: Position)
    requires table.Valid() && NamedHaveRanges(table)
    ensures FindSymbolDefinitionRange(word, table, pos).Some? <==> Declared(word, table, pos)
  {
    if FindSymbolDefinitionRange(word, table, pos).Some? {
      DefinitionIsNamedWord(word, table, pos);
      DeclaredOfItem(word, table, pos, FindSymbolDefinitionRange(word, table, pos).value);
    } else if Some(word) in FunctionNames(table.functions) || Some(word) in GlobalNames(table.globals) || InScope(word, table, pos) {
      FoundWhenDeclaredFirstHalf(word, table, pos);
    } else if Declared(word, table, pos) {
      FoundWhenDeclaredSecondHalf(word, table, pos);
    }
  }

  lemma DeclaredOfItem(word: string, table: SymbolTable, pos: Position, rg: Range)
    requires ModuleItemAt(word, table, rg)
      || (U.FindContainingFunction(table.functions, pos).Some?
          && FunctionItemAt(word, U.FindContainingFunction(table.functions, pos).value, rg))
    ensures Declared(word, table, pos)
  {
    if ModuleItemAt(word, table, rg) {
      if i :| 0 <= i < |table.functions| && table.functions[i].name == Some(word) && table.functions[i].range == Some(rg) {
        assert FunctionNames(table.functions)[i] == Some(word);
      } else if i :| 0 <= i < |table.globals| && table.globals[i].name == Some(word) && table.globals[i].range == Some(rg) {
        assert GlobalNames(table.globals)[i] == Some(word);
      } else if i :| 0 <= i < |table.tables| && table.tables[i].name == Some(word) && table.tables[i].range == Some(rg) {
        assert TableNames(table.tables)[i] == Some(word);
      } else if i :| 0 <= i < |table.memories| && table.memories[i].name == Some(word) && table.memories[i].range == Some(rg) {
        assert MemoryNames(table.memories)[i] == Some(word);
      } else if i :| 0 <= i < |table.types| && table.types[i].name == Some(word) && table.types[i].range == Some(rg) {
        assert TypeNames(table.types)[i] == Some(word);
      } else if i :| 0 <= i < |table.tags| && table.tags[i].name == Some(word) && table.tags[i].range == Some(rg) {
        assert TagNames(table.tags)[i] == Some(word);
      } else if i :| 0 <= i < |table.dataSegments| && table.dataSegments[i].name == Some(word) && table.dataSegments[i].range == Some(rg) {
        assert DataNames(table.dataSegments)[i] == Some(word);
      } else {
        var i :| 0 <= i < |table.elemSegments| && table.elemSegments[i].name == Some(word) && table.elemSegments[i].range == Some(rg);
        assert ElemNames(table.elemSegments)[i] == Some(word);
      }
    }
  }

  // ---------------------------------------------------------------------
  // Numeric definitions
  // ---------------------------------------------------------------------

  /** `IndexContext`: the index spaces a number can refer to. */
  datatype IndexContext = Function | Global | Type | Tag | Table | Memory | Data | Elem | Local

  /**
   * `IndexContext::from_instruction_context`: `Call` and `Function` both
   * number functions; branches, blocks and general positions have no
   * index space.
   */
  function FromInstructionContext(ctx: U.InstructionContext): (r: Option<IndexContext>)
    ensures r.None? <==> ctx in {U.Branch, U.Block, U.General}
    ensures r == Some(IndexContext.Function) <==> ctx == U.Call || ctx == U.Function
  {
    match ctx
    case Call => Some(IndexContext.Function)
    case Function => Some(IndexContext.Function)
    case Global => Some(IndexContext.Global)
    case Local => Some(IndexContext.Local)
    case Type => Some(IndexContext.Type)
    case Tag => Some(IndexContext.Tag)
    case Table => Some(IndexContext.Table)
    case Memory => Some(IndexContext.Memory)
    case Data => Some(IndexContext.Data)
    case Elem => Some(IndexContext.Elem)
    case Branch => None
    case Block => None
    case General => None
  }

  /** The instruction context of the same name, which leads back to `k`. */
  function ToInstructionContext(k: IndexContext): (r: U.InstructionContext)
    ensures FromInstructionContext(r) == Some(k)
  {
    match k
    case Function => U.Function
    case Global => U.Global
    case Type => U.Type
    case Tag => U.Tag
    case Table => U.Table
    case Memory => U.Memory
    case Data => U.Data
    case Elem => U.Elem
    case Local => U.Local
  }

  /** The range of an entry of the local index space. */
  function SlotRange(s: Option<References.LocalSlot>): Option<Range>
  {
    match s
    case None => None
    case Some(ParamSlot(p)) => p.range
    case Some(VarSlot(v)) => v.range
  }

  /**
   * `find_index_definition_range`: the range of the item at that position
   * of the chosen index space; for locals, the space of the function
   * around `pos` in which the parameters come before the locals.
   */
  function FindIndexDefinitionRange(index: nat, table: SymbolTable, context: IndexContext, pos: Position): (r: Option<Range>)
    reads table
    ensures context.Function? ==> r == if index < |table.functions| then table.functions[index].range else None
    ensures context.Global? ==> r == if index < |table.globals| then table.globals[index].range else None
    ensures context.Type? ==> r == if index < |table.types| then table.types[index].range else None
    ensures context.Tag? ==> r == if index < |table.tags| then table.tags[index].range else None
    ensures context.Table? ==> r == if index < |table.tables| then table.tables[index].range else None
    ensures context.Memory? ==> r == if index < |table.memories| then table.memories[index].range else None
    ensures context.Data? ==> r == if index < |table.dataSegments| then table.dataSegments[index].range else None
    ensures context.Elem? ==> r == if index < |table.elemSegments| then table.elemSegments[index].range else None
    ensures context.Local? ==>
      r == match U.FindContainingFunction(table.functions, pos)
           case None => None
           case Some(f) => SlotRange(References.LocalSpaceAt(f, index))
  {
    match context
    case Function => (match table.GetFunctionByIndex(index) case Some(f) => f.range case None => None)
    case Global => (match table.GetGlobalByIndex(index) case Some(g) => g.range case None => None)
    case Type => (match table.GetTypeByIndex(index) case Some(t) => t.range case None => None)
    case Tag => (match table.GetTagByIndex(index) case Some(t) => t.range case None => None)
    case Table => (match table.GetTableByIndex(index) case Some(t) => t.range case None => None)
    case Memory => (match table.GetMemoryByIndex(index) case Some(m) => m.range case None => None)
    case Data => (match table.GetDataByIndex(index) case Some(d) => d.range case None => None)
    case Elem => (match table.GetElemByIndex(index) case Some(e) => e.range case None => None)
    case Local =>
      match U.FindContainingFunction(table.functions, pos)
      case None => None
      case Some(f) =>
        var totalParams := |f.parameters|;
        if index < totalParams then f.parameters[index].range
        else if index - totalParams < |f.locals| then f.locals[index - totalParams].range
        else None
  }

  /**
   * Going to a function by its position and by its name lands on the
   * same definition: `i` is the last function called `word`.
   */
  lemma FunctionIndexAgreesWithName(word: string, i: nat, table: SymbolTable, pos: Position)
    requires table.Valid() && LastNamed(FunctionNames(table.functions), word, i)
    ensures FindIndexDefinitionRange(i, table, IndexContext.Function, pos) == FindSymbolDefinitionRange(word, table, pos)
  {
    FunctionsComeFirst(word, table, pos);
  }

  /**
   * A parameter reached by its position in the local space and by its
   * name lands on the same definition, unless a function or global of
   * that name takes precedence.
   */
  lemma ParamIndexAgreesWithName(word: string, k: nat, table: SymbolTable, pos: Position)
    requires table.Valid() && NamedHaveRanges(table)
    requires Some(word) !in FunctionNames(table.functions) && Some(word) !in GlobalNames(table.globals)
    requires U.FindContainingFunction(table.functions, pos).Some?
    requires var f := U.FindContainingFunction(table.functions, pos).value;
      k < |f.parameters| && f.parameters[k].name == Some(word)
      && forall j :: 0 <= j < k ==> f.parameters[j].name != Some(word)
    ensures FindIndexDefinitionRange(k, table, IndexContext.Local, pos) == FindSymbolDefinitionRange(word, table, pos)
  {
    ScopeShadowsModuleItems(word, table, pos);
  }

  /**
   * The same for a local: its place in the local space is its position
   * among the locals shifted past the parameters.
   */
  lemma LocalIndexAgreesWithName(word: string, k: nat, table: SymbolTable, pos: Position)
    requires table.Valid() && NamedHaveRanges(table)
    requires Some(word) !in FunctionNames(table.functions) && Some(word) !in GlobalNames(table.globals)
    requires U.FindContainingFunction(table.functions, pos).Some?
    requires var f := U.FindContainingFunction(table.functions, pos).value;
      !HasParam(word, f) && k < |f.locals| && f.locals[k].name == Some(word)
      && forall j :: 0 <= j < k ==> f.locals[j].name != Some(word)
    ensures var f := U.FindContainingFunction(table.functions, pos).value;
      FindIndexDefinitionRange(|f.parameters| + k, table, IndexContext.Local, pos) == FindSymbolDefinitionRange(word, table, pos)
  {
    ScopeShadowsModuleItems(word, table, pos);
  }
}
