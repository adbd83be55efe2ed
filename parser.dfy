/**
 * The tree extractor's driver (src/parser.rs:35-173, 483-558, 793-829,
 * 881-989, 1264-1300, 1388-1426, 1505-1540, 1783-1817, 1863-1899): it
 * walks the module fields, numbers imports first, continues each index
 * space from the import count, skips duplicate functions and fills the
 * symbol table.
 */
module Parser {
  import opened Wrappers
  import opened CoreTypes
  import opened Tree
  import opened Symbols
  import opened ParserValues
  import opened ParserRecords

  /** The children of the `module_field` nodes among `xs`, in order. */
  function ModuleFieldChildren(xs: seq<Node>): seq<Node>
  {
    if xs == [] then []
    else (if xs[0].kind == "module_field" then xs[0].children else []) + ModuleFieldChildren(xs[1..])
  }

  /**
   * The field nodes every extraction loop visits: inside a `module`, the
   * children of its `module_field` children; a `module_field` directly
   * under the root contributes its own children.
   */
  function FieldNodes(root: Node): seq<Node>
  {
    FieldNodesOf(root.children)
  }

  function FieldNodesOf(xs: seq<Node>): seq<Node>
  {
    if xs == [] then []
    else
      (if xs[0].kind == "module" then ModuleFieldChildren(xs[0].children)
       else if xs[0].kind == "module_field" then xs[0].children
       else [])
      + FieldNodesOf(xs[1..])
  }

  /** The children of the `import_desc` children of a node. */
  function DescChildren(xs: seq<Node>): seq<Node>
  {
    if xs == [] then []
    else (if xs[0].kind == "import_desc" then xs[0].children else []) + DescChildren(xs[1..])
  }

  /** The import descriptors of the `module_field_import` fields, in order. */
  function ImportDescs(fields: seq<Node>): seq<Node>
  {
    if fields == [] then []
    else (if fields[0].kind == "module_field_import" then DescChildren(fields[0].children) else []) + ImportDescs(fields[1..])
  }

  /**
   * The records made from the nodes whose kind is in `kinds`, in order,
   * numbered from `start`.
   */
  function Collect<T>(xs: seq<Node>, kinds: set<string>, mk: (Node, string, nat) -> T, src: string, start: nat)
    : (r: seq<T>)
    ensures |r| <= |xs|
  {
    if xs == [] then []
    else
      var prev := Collect(xs[..|xs| - 1], kinds, mk, src, start);
      prev + (if xs[|xs| - 1].kind in kinds then [mk(xs[|xs| - 1], src, start + |prev|)] else [])
  }

  lemma CollectStep<T>(xs: seq<Node>, i: nat, kinds: set<string>, mk: (Node, string, nat) -> T, src: string, start: nat)
    requires i < |xs|
    ensures Collect(xs[..i + 1], kinds, mk, src, start)
            == Collect(xs[..i], kinds, mk, src, start)
               + (if xs[i].kind in kinds then [mk(xs[i], src, start + |Collect(xs[..i], kinds, mk, src, start)|)] else [])
  {
    assert xs[..i + 1][..i] == xs[..i];
  }

  /** Every collected record is built from a node of one of the kinds, numbered by its position. */
  lemma {:induction false} CollectBuilds<T>(xs: seq<Node>, kinds: set<string>, mk: (Node, string, nat) -> T, src: string, start: nat)
    ensures forall k :: 0 <= k < |Collect(xs, kinds, mk, src, start)| ==>
              exists j :: 0 <= j < |xs| && xs[j].kind in kinds && Collect(xs, kinds, mk, src, start)[k] == mk(xs[j], src, start + k)
  {
    if xs == [] {
      assert Collect(xs, kinds, mk, src, start) == [];
    } else {
      var init := xs[..|xs| - 1];
      var last := xs[|xs| - 1];
      CollectBuilds(init, kinds, mk, src, start);
      var r := Collect(xs, kinds, mk, src, start);
      var prev := Collect(init, kinds, mk, src, start);
      assert r == prev + (if last.kind in kinds then [mk(last, src, start + |prev|)] else []);
      forall k | 0 <= k < |r|
        ensures exists j :: 0 <= j < |xs| && xs[j].kind in kinds && r[k] == mk(xs[j], src, start + k)
      {
        if k < |prev| {
          assert r[k] == prev[k];
          var j :| 0 <= j < |init| && init[j].kind in kinds && prev[k] == mk(init[j], src, start + k);
          assert xs[j] == init[j];
        } else {
          assert xs[|xs| - 1].kind in kinds && r[k] == mk(xs[|xs| - 1], src, start + k);
        }
      }
    }
  }

  /**
   * When a builder stores the index it is given, the collected records
   * carry the indices `start`, `start + 1`, … in order.
   */
  lemma {:induction false} CollectNumbered<T>(xs: seq<Node>, kinds: set<string>, mk: (Node, string, nat) -> T,
                                              src: string, start: nat, idx: T -> nat)
    requires forall n, s, i :: idx(mk(n, s, i)) == i
    ensures forall k :: 0 <= k < |Collect(xs, kinds, mk, src, start)| ==> idx(Collect(xs, kinds, mk, src, start)[k]) == start + k
  {
    if xs != [] {
      var init := xs[..|xs| - 1];
      var last := xs[|xs| - 1];
      CollectNumbered(init, kinds, mk, src, start, idx);
      var r := Collect(xs, kinds, mk, src, start);
      var prev := Collect(init, kinds, mk, src, start);
      assert r == prev + (if last.kind in kinds then [mk(last, src, start + |prev|)] else []);
      forall k | 0 <= k < |r|
        ensures idx(r[k]) == start + k
      {
        if k < |prev| {
          assert r[k] == prev[k];
        } else {
          assert r[k] == mk(last, src, start + |prev|);
        }
      }
    }
  }

  /** The number of nodes among `xs` whose kind is in `kinds`. */
  function CountKinds(xs: seq<Node>, kinds: set<string>): nat
  {
    if xs == [] then 0 else CountKinds(xs[..|xs| - 1], kinds) + (if xs[|xs| - 1].kind in kinds then 1 else 0)
  }

  /** One record per node of a listed kind, none lost and none added. */
  lemma {:induction false} CollectCount<T>(xs: seq<Node>, kinds: set<string>, mk: (Node, string, nat) -> T, src: string, start: nat)
    ensures |Collect(xs, kinds, mk, src, start)| == CountKinds(xs, kinds)
  {
    if xs != [] {
      CollectCount(xs[..|xs| - 1], kinds, mk, src, start);
    }
  }

  // ---------------------------------------------------------------------
  // Imports (parser.rs:61-173)

  const FuncImportKinds: set<string> := {"import_desc_func_type", "import_desc_type_use"}
  const GlobalImportKinds: set<string> := {"import_desc_global_type"}
  const TableImportKinds: set<string> := {"import_desc_table_type"}
  const MemoryImportKinds: set<string> := {"import_desc_memory_type"}
  const TagImportKinds: set<string> := {"import_desc_tag_type"}

  /** The number of import descriptors of each kind. */
  datatype ImportCounts = ImportCounts(functions: nat, globals: nat, tables: nat, memories: nat, tags: nat)

  function ImportCountsOf(descs: seq<Node>): ImportCounts
  {
    ImportCounts(CountKinds(descs, FuncImportKinds), CountKinds(descs, GlobalImportKinds), CountKinds(descs, TableImportKinds),
                 CountKinds(descs, MemoryImportKinds), CountKinds(descs, TagImportKinds))
  }

  /** The `FuncImportKinds` arm of the descriptor match: an imported function numbered by its counter. */
  method AddImportedFunction(table: SymbolTable, descs: seq<Node>, i: nat, src: string, count: nat, ghost before: seq<Function>)
    returns (count': nat)
    requires i < |descs|
    requires table.Valid()
    requires table.functions == before + Collect(descs[..i], FuncImportKinds, ImportedFunction, src, 0)
    requires count == |Collect(descs[..i], FuncImportKinds, ImportedFunction, src, 0)|
    modifies table`functions, table`functionMap
    ensures table.Valid()
    ensures table.functions == before + Collect(descs[..i + 1], FuncImportKinds, ImportedFunction, src, 0)
    ensures count' == |Collect(descs[..i + 1], FuncImportKinds, ImportedFunction, src, 0)|
  {
    CollectStep(descs, i, FuncImportKinds, ImportedFunction, src, 0);
    count' := count;
    if descs[i].kind in FuncImportKinds {
      table.AddFunction(ImportedFunction(descs[i], src, count));
      count' := count + 1;
    }
  }

  /** The `GlobalImportKinds` arm of the descriptor match: an imported global numbered by its counter. */
  method AddImportedGlobal(table: SymbolTable, descs: seq<Node>, i: nat, src: string, count: nat, ghost before: seq<Global>)
    returns (count': nat)
    requires i < |descs|
    requires table.Valid()
    requires table.globals == before + Collect(descs[..i], GlobalImportKinds, GlobalOf, src, 0)
    requires count == |Collect(descs[..i], GlobalImportKinds, GlobalOf, src, 0)|
    modifies table`globals, table`globalMap
    ensures table.Valid()
    ensures table.globals == before + Collect(descs[..i + 1], GlobalImportKinds, GlobalOf, src, 0)
    ensures count' == |Collect(descs[..i + 1], GlobalImportKinds, GlobalOf, src, 0)|
  {
    CollectStep(descs, i, GlobalImportKinds, GlobalOf, src, 0);
    count' := count;
    if descs[i].kind in GlobalImportKinds {
      table.AddGlobal(GlobalOf(descs[i], src, count));
      count' := count + 1;
    }
  }

  /** The `TableImportKinds` arm of the descriptor match: an imported table numbered by its counter. */
  method AddImportedTable(table: SymbolTable, descs: seq<Node>, i: nat, src: string, count: nat, ghost before: seq<Table>)
    returns (count': nat)
    requires i < |descs|
    requires table.Valid()
    requires table.tables == before + Collect(descs[..i], TableImportKinds, ImportedTable, src, 0)
    requires count == |Collect(descs[..i], TableImportKinds, ImportedTable, src, 0)|
    modifies table`tables, table`tableMap
    ensures table.Valid()
    ensures table.tables == before + Collect(descs[..i + 1], TableImportKinds, ImportedTable, src, 0)
    ensures count' == |Collect(descs[..i + 1], TableImportKinds, ImportedTable, src, 0)|
  {
    CollectStep(descs, i, TableImportKinds, ImportedTable, src, 0);
    count' := count;
    if descs[i].kind in TableImportKinds {
      table.AddTable(ImportedTable(descs[i], src, count));
      count' := count + 1;
    }
  }

  /** The `MemoryImportKinds` arm of the descriptor match: an imported memory numbered by its counter. */
  method AddImportedMemory(table: SymbolTable, descs: seq<Node>, i: nat, src: string, count: nat, ghost before: seq<Memory>)
    returns (count': nat)
    requires i < |descs|
    requires table.Valid()
    requires table.memories == before + Collect(descs[..i], MemoryImportKinds, ImportedMemory, src, 0)
    requires count == |Collect(descs[..i], MemoryImportKinds, ImportedMemory, src, 0)|
    modifies table`memories, table`memoryMap
    ensures table.Valid()
    ensures table.memories == before + Collect(descs[..i + 1], MemoryImportKinds, ImportedMemory, src, 0)
    ensures count' == |Collect(descs[..i + 1], MemoryImportKinds, ImportedMemory, src, 0)|
  {
    CollectStep(descs, i, MemoryImportKinds, ImportedMemory, src, 0);
    count' := count;
    if descs[i].kind in MemoryImportKinds {
      table.AddMemory(ImportedMemory(descs[i], src, count));
      count' := count + 1;
    }
  }

  /** The `TagImportKinds` arm of the descriptor match: an imported tag numbered by its counter. */
  method AddImportedTag(table: SymbolTable, descs: seq<Node>, i: nat, src: string, count: nat, ghost before: seq<Tag>)
    returns (count': nat)
    requires i < |descs|
    requires table.Valid()
    requires table.tags == before + Collect(descs[..i], TagImportKinds, ImportedTag, src, 0)
    requires count == |Collect(descs[..i], TagImportKinds, ImportedTag, src, 0)|
    modifies table`tags, table`tagMap
    ensures table.Valid()
    ensures table.tags == before + Collect(descs[..i + 1], TagImportKinds, ImportedTag, src, 0)
    ensures count' == |Collect(descs[..i + 1], TagImportKinds, ImportedTag, src, 0)|
  {
    CollectStep(descs, i, TagImportKinds, ImportedTag, src, 0);
    count' := count;
    if descs[i].kind in TagImportKinds {
      table.AddTag(ImportedTag(descs[i], src, count));
      count' := count + 1;
    }
  }

  /** The body of the `extract_imports` loop: one descriptor through the arms of the match. */
  method AddImport(table: SymbolTable, descs: seq<Node>, i: nat, src: string, counts: ImportCounts,
                   ghost fs0: seq<Function>, ghost gs0: seq<Global>, ghost ts0: seq<Table>, ghost ms0: seq<Memory>, ghost tgs0: seq<Tag>)
    returns (counts': ImportCounts)
    requires i < |descs|
    requires table.functions == fs0 + Collect(descs[..i], FuncImportKinds, ImportedFunction, src, 0) && counts.functions == |Collect(descs[..i], FuncImportKinds, ImportedFunction, src, 0)|
    requires table.globals == gs0 + Collect(descs[..i], GlobalImportKinds, GlobalOf, src, 0) && counts.globals == |Collect(descs[..i], GlobalImportKinds, GlobalOf, src, 0)|
    requires table.tables == ts0 + Collect(descs[..i], TableImportKinds, ImportedTable, src, 0) && counts.tables == |Collect(descs[..i], TableImportKinds, ImportedTable, src, 0)|
    requires table.memories == ms0 + Collect(descs[..i], MemoryImportKinds, ImportedMemory, src, 0) && counts.memories == |Collect(descs[..i], MemoryImportKinds, ImportedMemory, src, 0)|
    requires table.tags == tgs0 + Collect(descs[..i], TagImportKinds, ImportedTag, src, 0) && counts.tags == |Collect(descs[..i], TagImportKinds, ImportedTag, src, 0)|
    requires table.Valid()
    modifies table`functions, table`functionMap, table`globals, table`globalMap, table`tables, table`tableMap,
             table`memories, table`memoryMap, table`tags, table`tagMap
    ensures table.Valid()
    ensures table.functions == fs0 + Collect(descs[..i + 1], FuncImportKinds, ImportedFunction, src, 0) && counts'.functions == |Collect(descs[..i + 1], FuncImportKinds, ImportedFunction, src, 0)|
    ensures table.globals == gs0 + Collect(descs[..i + 1], GlobalImportKinds, GlobalOf, src, 0) && counts'.globals == |Collect(descs[..i + 1], GlobalImportKinds, GlobalOf, src, 0)|
    ensures table.tables == ts0 + Collect(descs[..i + 1], TableImportKinds, ImportedTable, src, 0) && counts'.tables == |Collect(descs[..i + 1], TableImportKinds, ImportedTable, src, 0)|
    ensures table.memories == ms0 + Collect(descs[..i + 1], MemoryImportKinds, ImportedMemory, src, 0) && counts'.memories == |Collect(descs[..i + 1], MemoryImportKinds, ImportedMemory, src, 0)|
    ensures table.tags == tgs0 + Collect(descs[..i + 1], TagImportKinds, ImportedTag, src, 0) && counts'.tags == |Collect(descs[..i + 1], TagImportKinds, ImportedTag, src, 0)|
  {
    var c := AddImportOfFunctionKind(table, descs, i, src, counts, fs0, gs0, ts0);
    counts' := AddImportOfOtherKind(table, descs, i, src, c, ms0, tgs0);
  }

  /** The function, global and table arms of the descriptor match. */
  method AddImportOfFunctionKind(table: SymbolTable, descs: seq<Node>, i: nat, src: string, counts: ImportCounts, ghost fs0: seq<Function>, ghost gs0: seq<Global>, ghost ts0: seq<Table>)
    returns (counts': ImportCounts)
    requires i < |descs|
    requires table.Valid()
    requires table.functions == fs0 + Collect(descs[..i], FuncImportKinds, ImportedFunction, src, 0) && counts.functions == |Collect(descs[..i], FuncImportKinds, ImportedFunction, src, 0)|
    requires table.globals == gs0 + Collect(descs[..i], GlobalImportKinds, GlobalOf, src, 0) && counts.globals == |Collect(descs[..i], GlobalImportKinds, GlobalOf, src, 0)|
    requires table.tables == ts0 + Collect(descs[..i], TableImportKinds, ImportedTable, src, 0) && counts.tables == |Collect(descs[..i], TableImportKinds, ImportedTable, src, 0)|
    modifies table`functions, table`functionMap, table`globals, table`globalMap, table`tables, table`tableMap
    ensures table.Valid()
    ensures table.functions == fs0 + Collect(descs[..i + 1], FuncImportKinds, ImportedFunction, src, 0) && counts'.functions == |Collect(descs[..i + 1], FuncImportKinds, ImportedFunction, src, 0)|
    ensures table.globals == gs0 + Collect(descs[..i + 1], GlobalImportKinds, GlobalOf, src, 0) && counts'.globals == |Collect(descs[..i + 1], GlobalImportKinds, GlobalOf, src, 0)|
    ensures table.tables == ts0 + Collect(descs[..i + 1], TableImportKinds, ImportedTable, src, 0) && counts'.tables == |Collect(descs[..i + 1], TableImportKinds, ImportedTable, src, 0)|
    ensures counts'.memories == counts.memories && counts'.tags == counts.tags
  {
    var functionCount := AddImportedFunction(table, descs, i, src, counts.functions, fs0);
    var globalCount := AddImportedGlobal(table, descs, i, src, counts.globals, gs0);
    var tableCount := AddImportedTable(table, descs, i, src, counts.tables, ts0);
    counts' := counts.(functions := functionCount, globals := globalCount, tables := tableCount);
  }

  /** The memory and tag arms of the descriptor match. */
  method AddImportOfOtherKind(table: SymbolTable, descs: seq<Node>, i: nat, src: string, counts: ImportCounts, ghost ms0: seq<Memory>, ghost tgs0: seq<Tag>)
    returns (counts': ImportCounts)
    requires i < |descs|
    requires table.Valid()
    requires table.memories == ms0 + Collect(descs[..i], MemoryImportKinds, ImportedMemory, src, 0) && counts.memories == |Collect(descs[..i], MemoryImportKinds, ImportedMemory, src, 0)|
    requires table.tags == tgs0 + Collect(descs[..i], TagImportKinds, ImportedTag, src, 0) && counts.tags == |Collect(descs[..i], TagImportKinds, ImportedTag, src, 0)|
    modifies table`memories, table`memoryMap, table`tags, table`tagMap
    ensures table.Valid()
    ensures table.memories == ms0 + Collect(descs[..i + 1], MemoryImportKinds, ImportedMemory, src, 0) && counts'.memories == |Collect(descs[..i + 1], MemoryImportKinds, ImportedMemory, src, 0)|
    ensures table.tags == tgs0 + Collect(descs[..i + 1], TagImportKinds, ImportedTag, src, 0) && counts'.tags == |Collect(descs[..i + 1], TagImportKinds, ImportedTag, src, 0)|
    ensures counts'.functions == counts.functions && counts'.globals == counts.globals && counts'.tables == counts.tables
  {
    var memoryCount := AddImportedMemory(table, descs, i, src, counts.memories, ms0);
    var tagCount := AddImportedTag(table, descs, i, src, counts.tags, tgs0);
    counts' := counts.(memories := memoryCount, tags := tagCount);
  }

  /**
   * `extract_imports`: each imported function, global, table, memory and
   * tag is appended to its list and numbered by its own counter; the
   * counters come back as the import counts. The arms of the descriptor
   * match test disjoint kinds, so trying them in turn is the match.
   */
  method ExtractImports(table: SymbolTable, descs: seq<Node>, src: string) returns (counts: ImportCounts)
    requires table.Valid()
    modifies table
    ensures table.Valid()
    ensures table.functions == old(table.functions) + Collect(descs, FuncImportKinds, ImportedFunction, src, 0)
    ensures table.globals == old(table.globals) + Collect(descs, GlobalImportKinds, GlobalOf, src, 0)
    ensures table.tables == old(table.tables) + Collect(descs, TableImportKinds, ImportedTable, src, 0)
    ensures table.memories == old(table.memories) + Collect(descs, MemoryImportKinds, ImportedMemory, src, 0)
    ensures table.tags == old(table.tags) + Collect(descs, TagImportKinds, ImportedTag, src, 0)
    ensures table.types == old(table.types) && table.dataSegments == old(table.dataSegments)
    ensures table.elemSegments == old(table.elemSegments)
    ensures counts == ImportCountsOf(descs)
  {
    counts := ImportCounts(0, 0, 0, 0, 0);
    var i := 0;
    while i < |descs|
      invariant 0 <= i <= |descs|
      invariant table.Valid()
      invariant table.types == old(table.types) && table.dataSegments == old(table.dataSegments)
      invariant table.elemSegments == old(table.elemSegments)
      invariant table.functions == old(table.functions) + Collect(descs[..i], FuncImportKinds, ImportedFunction, src, 0)
      invariant counts.functions == |Collect(descs[..i], FuncImportKinds, ImportedFunction, src, 0)|
      invariant table.globals == old(table.globals) + Collect(descs[..i], GlobalImportKinds, GlobalOf, src, 0)
      invariant counts.globals == |Collect(descs[..i], GlobalImportKinds, GlobalOf, src, 0)|
      invariant table.tables == old(table.tables) + Collect(descs[..i], TableImportKinds, ImportedTable, src, 0)
      invariant counts.tables == |Collect(descs[..i], TableImportKinds, ImportedTable, src, 0)|
      invariant table.memories == old(table.memories) + Collect(descs[..i], MemoryImportKinds, ImportedMemory, src, 0)
      invariant counts.memories == |Collect(descs[..i], MemoryImportKinds, ImportedMemory, src, 0)|
      invariant table.tags == old(table.tags) + Collect(descs[..i], TagImportKinds, ImportedTag, src, 0)
      invariant counts.tags == |Collect(descs[..i], TagImportKinds, ImportedTag, src, 0)|
    {
      counts := AddImport(table, descs, i, src, counts, old(table.functions), old(table.globals), old(table.tables),
                          old(table.memories), old(table.tags));
      i := i + 1;
    }
    assert descs[..i] == descs;
    CollectCount(descs, FuncImportKinds, ImportedFunction, src, 0);
    CollectCount(descs, GlobalImportKinds, GlobalOf, src, 0);
    CollectCount(descs, TableImportKinds, ImportedTable, src, 0);
    CollectCount(descs, MemoryImportKinds, ImportedMemory, src, 0);
    CollectCount(descs, TagImportKinds, ImportedTag, src, 0);
  }

  // ---------------------------------------------------------------------
  // Globals, tables, memories, tags, data and elem segments

  /** One field of the `extract_globals_with_offset` loop. */
  method AddGlobalField(table: SymbolTable, fields: seq<Node>, i: nat, src: string, start: nat, index: nat, ghost before: seq<Global>)
    returns (index': nat)
    requires i < |fields|
    requires table.Valid()
    requires table.globals == before + Collect(fields[..i], {"module_field_global"}, GlobalOf, src, start)
    requires index == start + |Collect(fields[..i], {"module_field_global"}, GlobalOf, src, start)|
    modifies table`globals, table`globalMap
    ensures table.Valid()
    ensures table.globals == before + Collect(fields[..i + 1], {"module_field_global"}, GlobalOf, src, start)
    ensures index' == start + |Collect(fields[..i + 1], {"module_field_global"}, GlobalOf, src, start)|
  {
    CollectStep(fields, i, {"module_field_global"}, GlobalOf, src, start);
    index' := index;
    if fields[i].kind == "module_field_global" {
      table.AddGlobal(GlobalOf(fields[i], src, index));
      index' := index + 1;
    }
  }

  /** `extract_globals_with_offset`: defined globals numbered on from `start`. */
  method GlobalsWithOffset(table: SymbolTable, fields: seq<Node>, src: string, start: nat)
    requires table.Valid()
    modifies table`globals, table`globalMap
    ensures table.Valid()
    ensures table.globals == old(table.globals) + Collect(fields, {"module_field_global"}, GlobalOf, src, start)
  {
    var index := start;
    var i := 0;
    while i < |fields|
      invariant 0 <= i <= |fields|
      invariant table.Valid()
      invariant table.globals == old(table.globals) + Collect(fields[..i], {"module_field_global"}, GlobalOf, src, start)
      invariant index == start + |Collect(fields[..i], {"module_field_global"}, GlobalOf, src, start)|
    {
      index := AddGlobalField(table, fields, i, src, start, index, old(table.globals));
      i := i + 1;
    }
    assert fields[..i] == fields;
  }

  /** One field of the `extract_tables_with_offset` loop. */
  method AddTableField(table: SymbolTable, fields: seq<Node>, i: nat, src: string, start: nat, index: nat, ghost before: seq<Table>)
    returns (index': nat)
    requires i < |fields|
    requires table.Valid()
    requires table.tables == before + Collect(fields[..i], {"module_field_table"}, DefinedTable, src, start)
    requires index == start + |Collect(fields[..i], {"module_field_table"}, DefinedTable, src, start)|
    modifies table`tables, table`tableMap
    ensures table.Valid()
    ensures table.tables == before + Collect(fields[..i + 1], {"module_field_table"}, DefinedTable, src, start)
    ensures index' == start + |Collect(fields[..i + 1], {"module_field_table"}, DefinedTable, src, start)|
  {
    CollectStep(fields, i, {"module_field_table"}, DefinedTable, src, start);
    index' := index;
    if fields[i].kind == "module_field_table" {
      table.AddTable(DefinedTable(fields[i], src, index));
      index' := index + 1;
    }
  }

  /** `extract_tables_with_offset`: defined tables numbered on from `start`. */
  method TablesWithOffset(table: SymbolTable, fields: seq<Node>, src: string, start: nat)
    requires table.Valid()
    modifies table`tables, table`tableMap
    ensures table.Valid()
    ensures table.tables == old(table.tables) + Collect(fields, {"module_field_table"}, DefinedTable, src, start)
  {
    var index := start;
    var i := 0;
    while i < |fields|
      invariant 0 <= i <= |fields|
      invariant table.Valid()
      invariant table.tables == old(table.tables) + Collect(fields[..i], {"module_field_table"}, DefinedTable, src, start)
      invariant index == start + |Collect(fields[..i], {"module_field_table"}, DefinedTable, src, start)|
    {
      index := AddTableField(table, fields, i, src, start, index, old(table.tables));
      i := i + 1;
    }
    assert fields[..i] == fields;
  }

  /** One field of the `extract_memories_with_offset` loop. */
  method AddMemoryField(table: SymbolTable, fields: seq<Node>, i: nat, src: string, start: nat, index: nat, ghost before: seq<Memory>)
    returns (index': nat)
    requires i < |fields|
    requires table.Valid()
    requires table.memories == before + Collect(fields[..i], {"module_field_memory"}, DefinedMemory, src, start)
    requires index == start + |Collect(fields[..i], {"module_field_memory"}, DefinedMemory, src, start)|
    modifies table`memories, table`memoryMap
    ensures table.Valid()
    ensures table.memories == before + Collect(fields[..i + 1], {"module_field_memory"}, DefinedMemory, src, start)
    ensures index' == start + |Collect(fields[..i + 1], {"module_field_memory"}, DefinedMemory, src, start)|
  {
    CollectStep(fields, i, {"module_field_memory"}, DefinedMemory, src, start);
    index' := index;
    if fields[i].kind == "module_field_memory" {
      table.AddMemory(DefinedMemory(fields[i], src, index));
      index' := index + 1;
    }
  }

  /** `extract_memories_with_offset`: defined memories numbered on from `start`. */
  method MemoriesWithOffset(table: SymbolTable, fields: seq<Node>, src: string, start: nat)
    requires table.Valid()
    modifies table`memories, table`memoryMap
    ensures table.Valid()
    ensures table.memories == old(table.memories) + Collect(fields, {"module_field_memory"}, DefinedMemory, src, start)
  {
    var index := start;
    var i := 0;
    while i < |fields|
      invariant 0 <= i <= |fields|
      invariant table.Valid()
      invariant table.memories == old(table.memories) + Collect(fields[..i], {"module_field_memory"}, DefinedMemory, src, start)
      invariant index == start + |Collect(fields[..i], {"module_field_memory"}, DefinedMemory, src, start)|
    {
      index := AddMemoryField(table, fields, i, src, start, index, old(table.memories));
      i := i + 1;
    }
    assert fields[..i] == fields;
  }

  /** One field of the `extract_tags_with_offset` loop. */
  method AddTagField(table: SymbolTable, fields: seq<Node>, i: nat, src: string, start: nat, index: nat, ghost before: seq<Tag>)
    returns (index': nat)
    requires i < |fields|
    requires table.Valid()
    requires table.tags == before + Collect(fields[..i], {"module_field_tag"}, DefinedTag, src, start)
    requires index == start + |Collect(fields[..i], {"module_field_tag"}, DefinedTag, src, start)|
    modifies table`tags, table`tagMap
    ensures table.Valid()
    ensures table.tags == before + Collect(fields[..i + 1], {"module_field_tag"}, DefinedTag, src, start)
    ensures index' == start + |Collect(fields[..i + 1], {"module_field_tag"}, DefinedTag, src, start)|
  {
    CollectStep(fields, i, {"module_field_tag"}, DefinedTag, src, start);
    index' := index;
    if fields[i].kind == "module_field_tag" {
      table.AddTag(DefinedTag(fields[i], src, index));
      index' := index + 1;
    }
  }

  /** `extract_tags_with_offset`: defined tags numbered on from `start`. */
  method TagsWithOffset(table: SymbolTable, fields: seq<Node>, src: string, start: nat)
    requires table.Valid()
    modifies table`tags, table`tagMap
    ensures table.Valid()
    ensures table.tags == old(table.tags) + Collect(fields, {"module_field_tag"}, DefinedTag, src, start)
  {
    var index := start;
    var i := 0;
    while i < |fields|
      invariant 0 <= i <= |fields|
      invariant table.Valid()
      invariant table.tags == old(table.tags) + Collect(fields[..i], {"module_field_tag"}, DefinedTag, src, start)
      invariant index == start + |Collect(fields[..i], {"module_field_tag"}, DefinedTag, src, start)|
    {
      index := AddTagField(table, fields, i, src, start, index, old(table.tags));
      i := i + 1;
    }
    assert fields[..i] == fields;
  }

  /** One field of the `extract_data_segments` loop. */
  method AddDataField(table: SymbolTable, fields: seq<Node>, i: nat, src: string, index: nat, ghost before: seq<DataSegment>)
    returns (index': nat)
    requires i < |fields|
    requires table.Valid()
    requires table.dataSegments == before + Collect(fields[..i], {"module_field_data"}, DataSegmentOf, src, 0)
    requires index == |Collect(fields[..i], {"module_field_data"}, DataSegmentOf, src, 0)|
    modifies table`dataSegments, table`dataMap
    ensures table.Valid()
    ensures table.dataSegments == before + Collect(fields[..i + 1], {"module_field_data"}, DataSegmentOf, src, 0)
    ensures index' == |Collect(fields[..i + 1], {"module_field_data"}, DataSegmentOf, src, 0)|
  {
    CollectStep(fields, i, {"module_field_data"}, DataSegmentOf, src, 0);
    index' := index;
    if fields[i].kind == "module_field_data" {
      var x := ExtractDataSegment(fields[i], src, index);
      table.AddData(x);
      index' := index + 1;
    }
  }

  /** `extract_data_segments`: numbered from 0 (nothing imports a data segment). */
  method DataSegments(table: SymbolTable, fields: seq<Node>, src: string)
    requires table.Valid()
    modifies table`dataSegments, table`dataMap
    ensures table.Valid()
    ensures table.dataSegments == old(table.dataSegments) + Collect(fields, {"module_field_data"}, DataSegmentOf, src, 0)
  {
    var index := 0;
    var i := 0;
    while i < |fields|
      invariant 0 <= i <= |fields|
      invariant table.Valid()
      invariant table.dataSegments == old(table.dataSegments) + Collect(fields[..i], {"module_field_data"}, DataSegmentOf, src, 0)
      invariant index == |Collect(fields[..i], {"module_field_data"}, DataSegmentOf, src, 0)|
    {
      index := AddDataField(table, fields, i, src, index, old(table.dataSegments));
      i := i + 1;
    }
    assert fields[..i] == fields;
  }

  /** One field of the `extract_elem_segments` loop. */
  method AddElemField(table: SymbolTable, fields: seq<Node>, i: nat, src: string, index: nat, ghost before: seq<ElemSegment>)
    returns (index': nat)
    requires i < |fields|
    requires table.Valid()
    requires table.elemSegments == before + Collect(fields[..i], {"module_field_elem"}, ElemSegmentOf, src, 0)
    requires index == |Collect(fields[..i], {"module_field_elem"}, ElemSegmentOf, src, 0)|
    modifies table`elemSegments, table`elemMap
    ensures table.Valid()
    ensures table.elemSegments == before + Collect(fields[..i + 1], {"module_field_elem"}, ElemSegmentOf, src, 0)
    ensures index' == |Collect(fields[..i + 1], {"module_field_elem"}, ElemSegmentOf, src, 0)|
  {
    CollectStep(fields, i, {"module_field_elem"}, ElemSegmentOf, src, 0);
    index' := index;
    if fields[i].kind == "module_field_elem" {
      var x := ExtractElemSegment(fields[i], src, index);
      table.AddElem(x);
      index' := index + 1;
    }
  }

  /** `extract_elem_segments`: numbered from 0. */
  method ElemSegments(table: SymbolTable, fields: seq<Node>, src: string)
    requires table.Valid()
    modifies table`elemSegments, table`elemMap
    ensures table.Valid()
    ensures table.elemSegments == old(table.elemSegments) + Collect(fields, {"module_field_elem"}, ElemSegmentOf, src, 0)
  {
    var index := 0;
    var i := 0;
    while i < |fields|
      invariant 0 <= i <= |fields|
      invariant table.Valid()
      invariant table.elemSegments == old(table.elemSegments) + Collect(fields[..i], {"module_field_elem"}, ElemSegmentOf, src, 0)
      invariant index == |Collect(fields[..i], {"module_field_elem"}, ElemSegmentOf, src, 0)|
    {
      index := AddElemField(table, fields, i, src, index, old(table.elemSegments));
      i := i + 1;
    }
    assert fields[..i] == fields;
  }

  // ---------------------------------------------------------------------
  // Functions with duplicate skipping (parser.rs:483-558)

  /** The functions kept so far and the names and byte ranges already seen. */
  datatype FuncScan = FuncScan(funcs: seq<Function>, seenNames: set<string>, seenRanges: set<(nat, nat)>)

  /** Whether a function repeats a name, or (unnamed) a byte range, already seen. */
  predicate IsDuplicate(f: Function, seenNames: set<string>, seenRanges: set<(nat, nat)>)
  {
    if f.name.Some? then f.name.value in seenNames else (f.startByte, f.endByte) in seenRanges
  }

  /**
   * One function field: a function that repeats a name already seen, or
   * (unnamed) a byte range already seen, is skipped and uses no index;
   * otherwise it is kept with the next index and its name or range is
   * remembered.
   */
  function FuncStep(sc: FuncScan, field: Node, src: string, start: nat): FuncScan
  {
    if field.kind != "module_field_func" then sc
    else
      var f := DefinedFunction(field, src, start + |sc.funcs|);
      if IsDuplicate(f, sc.seenNames, sc.seenRanges) then sc
      else if f.name.Some? then FuncScan(sc.funcs + [f], sc.seenNames + {f.name.value}, sc.seenRanges)
      else FuncScan(sc.funcs + [f], sc.seenNames, sc.seenRanges + {(f.startByte, f.endByte)})
  }

  /** The defined functions, numbered on from `start`, with duplicates skipped. */
  function DefinedFunctions(fields: seq<Node>, src: string, start: nat): FuncScan
  {
    if fields == [] then FuncScan([], {}, {})
    else FuncStep(DefinedFunctions(fields[..|fields| - 1], src, start), fields[|fields| - 1], src, start)
  }

  /** The seen sets hold exactly the names and unnamed byte ranges of the kept functions. */
  ghost predicate SeenMatches(sc: FuncScan)
  {
    (forall n :: n in sc.seenNames <==> exists k :: 0 <= k < |sc.funcs| && sc.funcs[k].name == Some(n))
    && (forall r :: r in sc.seenRanges <==>
          exists k :: 0 <= k < |sc.funcs| && sc.funcs[k].name.None? && (sc.funcs[k].startByte, sc.funcs[k].endByte) == r)
  }

  /** A function is kept with the next index in line. */
  lemma FuncStepNumbered(sc: FuncScan, field: Node, src: string, start: nat)
    requires forall k :: 0 <= k < |sc.funcs| ==> sc.funcs[k].index == start + k
    ensures forall k :: 0 <= k < |FuncStep(sc, field, src, start).funcs| ==> FuncStep(sc, field, src, start).funcs[k].index == start + k
  {
    var fs := FuncStep(sc, field, src, start).funcs;
    if fs != sc.funcs {
      assert fs == sc.funcs + [DefinedFunction(field, src, start + |sc.funcs|)];
    }
  }

  /** The kept functions are numbered `start`, `start + 1`, … with no gap for a skipped duplicate. */
  lemma {:induction false} DefinedFunctionsNumbered(fields: seq<Node>, src: string, start: nat)
    ensures forall k :: 0 <= k < |DefinedFunctions(fields, src, start).funcs| ==>
              DefinedFunctions(fields, src, start).funcs[k].index == start + k
  {
    if fields != [] {
      DefinedFunctionsNumbered(fields[..|fields| - 1], src, start);
      FuncStepNumbered(DefinedFunctions(fields[..|fields| - 1], src, start), fields[|fields| - 1], src, start);
    }
  }

  /** Keeping a function remembers its name, or its byte range when it has none. */
  lemma FuncStepSeen(sc: FuncScan, field: Node, src: string, start: nat)
    requires SeenMatches(sc)
    ensures SeenMatches(FuncStep(sc, field, src, start))
  {
    var sc' := FuncStep(sc, field, src, start);
    if sc' != sc {
      var f := DefinedFunction(field, src, start + |sc.funcs|);
      assert sc'.funcs == sc.funcs + [f];
      assert forall k :: 0 <= k < |sc.funcs| ==> sc'.funcs[k] == sc.funcs[k];
      assert sc'.funcs[|sc.funcs|] == f;
    }
  }

  lemma {:induction false} DefinedFunctionsSeen(fields: seq<Node>, src: string, start: nat)
    ensures SeenMatches(DefinedFunctions(fields, src, start))
  {
    if fields != [] {
      DefinedFunctionsSeen(fields[..|fields| - 1], src, start);
      FuncStepSeen(DefinedFunctions(fields[..|fields| - 1], src, start), fields[|fields| - 1], src, start);
    }
  }

  /** No two kept functions carry the same name, and no two unnamed ones the same byte range. */
  ghost predicate NoDuplicates(fs: seq<Function>)
  {
    (forall k, m :: 0 <= k < m < |fs| && fs[k].name.Some? ==> fs[k].name != fs[m].name)
    && (forall k, m :: 0 <= k < m < |fs| && fs[k].name.None? && fs[m].name.None? ==>
          (fs[k].startByte, fs[k].endByte) != (fs[m].startByte, fs[m].endByte))
  }

  lemma {:induction false} DefinedFunctionsDistinct(fields: seq<Node>, src: string, start: nat)
    ensures NoDuplicates(DefinedFunctions(fields, src, start).funcs)
  {
    if fields != [] {
      var init := fields[..|fields| - 1];
      DefinedFunctionsDistinct(init, src, start);
      DefinedFunctionsSeen(init, src, start);
      var sc := DefinedFunctions(init, src, start);
      var sc' := DefinedFunctions(fields, src, start);
      if sc' != sc {
        var f := DefinedFunction(fields[|fields| - 1], src, start + |sc.funcs|);
        assert sc'.funcs == sc.funcs + [f];
        forall k, m | 0 <= k < m < |sc'.funcs| && sc'.funcs[k].name.Some?
          ensures sc'.funcs[k].name != sc'.funcs[m].name
        {
          if m == |sc.funcs| {
            assert sc'.funcs[k] == sc.funcs[k];
          }
        }
        forall k, m | 0 <= k < m < |sc'.funcs| && sc'.funcs[k].name.None? && sc'.funcs[m].name.None?
          ensures (sc'.funcs[k].startByte, sc'.funcs[k].endByte) != (sc'.funcs[m].startByte, sc'.funcs[m].endByte)
        {
          if m == |sc.funcs| {
            assert sc'.funcs[k] == sc.funcs[k];
          }
        }
      }
    }
  }

  /** Only duplicates are dropped: the name of every named function field is among the kept names. */
  lemma {:induction false} DefinedFunctionsComplete(fields: seq<Node>, src: string, start: nat, j: nat)
    requires j < |fields| && fields[j].kind == "module_field_func"
    ensures NameOf(fields[j], src).0.Some? ==> NameOf(fields[j], src).0.value in DefinedFunctions(fields, src, start).seenNames
  {
    var init := fields[..|fields| - 1];
    if j < |fields| - 1 {
      DefinedFunctionsComplete(init, src, start, j);
      assert init[j] == fields[j];
    }
  }

  /** One field of the `extract_functions_with_offset` loop. */
  method AddFunctionField(table: SymbolTable, fields: seq<Node>, i: nat, src: string, start: nat, index: nat,
                          seenNames: set<string>, seenRanges: set<(nat, nat)>, ghost before: seq<Function>)
    returns (index': nat, seenNames': set<string>, seenRanges': set<(nat, nat)>)
    requires i < |fields|
    requires table.Valid()
    requires table.functions == before + DefinedFunctions(fields[..i], src, start).funcs
    requires seenNames == DefinedFunctions(fields[..i], src, start).seenNames && seenRanges == DefinedFunctions(fields[..i], src, start).seenRanges
    requires index == start + |DefinedFunctions(fields[..i], src, start).funcs|
    modifies table`functions, table`functionMap
    ensures table.Valid()
    ensures table.functions == before + DefinedFunctions(fields[..i + 1], src, start).funcs
    ensures seenNames' == DefinedFunctions(fields[..i + 1], src, start).seenNames && seenRanges' == DefinedFunctions(fields[..i + 1], src, start).seenRanges
    ensures index' == start + |DefinedFunctions(fields[..i + 1], src, start).funcs|
  {
    assert fields[..i + 1][..i] == fields[..i];
    ghost var sc := DefinedFunctions(fields[..i], src, start);
    assert DefinedFunctions(fields[..i + 1], src, start) == FuncStep(sc, fields[i], src, start);
    index', seenNames', seenRanges' := index, seenNames, seenRanges;
    var field := fields[i];
    if field.kind == "module_field_func" {
      var f := DefinedFunction(field, src, index);
      var isDuplicate := if f.name.Some? then f.name.value in seenNames else (f.startByte, f.endByte) in seenRanges;
      if !isDuplicate {
        if f.name.Some? {
          seenNames' := seenNames + {f.name.value};
          assert FuncStep(sc, field, src, start) == FuncScan(sc.funcs + [f], seenNames', seenRanges);
        } else {
          seenRanges' := seenRanges + {(f.startByte, f.endByte)};
          assert FuncStep(sc, field, src, start) == FuncScan(sc.funcs + [f], seenNames, seenRanges');
        }
        table.AddFunction(f);
        index' := index + 1;
      } else {
        assert FuncStep(sc, field, src, start) == sc;
      }
    } else {
      assert FuncStep(sc, field, src, start) == sc;
    }
  }

  /** `extract_functions_with_offset`. */
  method FunctionsWithOffset(table: SymbolTable, fields: seq<Node>, src: string, start: nat)
    requires table.Valid()
    modifies table`functions, table`functionMap
    ensures table.Valid()
    ensures table.functions == old(table.functions) + DefinedFunctions(fields, src, start).funcs
  {
    var index := start;
    var seenNames: set<string> := {};
    var seenRanges: set<(nat, nat)> := {};
    var i := 0;
    while i < |fields|
      invariant 0 <= i <= |fields|
      invariant table.Valid()
      invariant table.functions == old(table.functions) + DefinedFunctions(fields[..i], src, start).funcs
      invariant seenNames == DefinedFunctions(fields[..i], src, start).seenNames && seenRanges == DefinedFunctions(fields[..i], src, start).seenRanges
      invariant index == start + |DefinedFunctions(fields[..i], src, start).funcs|
    {
      index, seenNames, seenRanges := AddFunctionField(table, fields, i, src, start, index, seenNames, seenRanges, old(table.functions));
      i := i + 1;
    }
    assert fields[..i] == fields;
  }

  // ---------------------------------------------------------------------
  // Types and rec groups (parser.rs:881-989)

  /** The first position at or after `i` holding a `)`, or the end. */
  function SkipToClose(cs: seq<Node>, i: nat): (r: nat)
    requires i <= |cs|
    ensures i <= r <= |cs|
    ensures r < |cs| ==> cs[r].kind == ")"
    ensures forall m :: i <= m < r ==> cs[m].kind != ")"
    decreases |cs| - i
  {
    if i == |cs| || cs[i].kind == ")" then i else SkipToClose(cs, i + 1)
  }

  /** What one `( type $id? <definition> … )` entry of a rec group yields. */
  datatype RecEntry = RecEntry(def: Option<TypeDef>, next: nat)

  /**
   * The entry opened at `i` (a `(` followed by `type`): an optional
   * identifier, then a struct, array or field definition numbered `index`
   * if one follows; the scan resumes after the next `)`.
   */
  function RecEntryAt(cs: seq<Node>, src: string, i: nat, index: nat): (e: RecEntry)
    requires i + 2 <= |cs|
    ensures i + 2 <= e.next <= |cs|
    ensures e.def.Some? ==> e.def.value.index == index
  {
    var j := i + 2;
    var hasId := j < |cs| && cs[j].kind == "identifier";
    var name := if hasId then Some(NodeText(cs[j], src)) else None;
    var range := if hasId then Some(NodeToRange(cs[j])) else None;
    var k := if hasId then j + 1 else j;
    var def := if k < |cs| then TypeFromSingleNode(cs[k], src, index, name, range) else None;
    var close := SkipToClose(cs, if def.Some? then k + 1 else k);
    RecEntry(def, if close < |cs| then close + 1 else close)
  }

  /** Whether a rec group entry opens at `i`. */
  predicate OpensEntry(cs: seq<Node>, i: nat)
  {
    i + 1 < |cs| && cs[i].kind == "(" && cs[i + 1].kind == "type"
  }

  /** The types of a rec group's flattened children from position `i`, numbered on from `index`. */
  function RecScan(cs: seq<Node>, src: string, i: nat, index: nat): seq<TypeDef>
    decreases |cs| - i
  {
    if i >= |cs| then []
    else if OpensEntry(cs, i) then
      var e := RecEntryAt(cs, src, i, index);
      (if e.def.Some? then [e.def.value] else []) + RecScan(cs, src, e.next, if e.def.Some? then index + 1 else index)
    else RecScan(cs, src, i + 1, index)
  }

  /** The types of a rec group are numbered on from `index` in order. */
  lemma {:induction false} RecScanNumbered(cs: seq<Node>, src: string, i: nat, index: nat)
    ensures forall k :: 0 <= k < |RecScan(cs, src, i, index)| ==> RecScan(cs, src, i, index)[k].index == index + k
    decreases |cs| - i
  {
    if i < |cs| {
      if OpensEntry(cs, i) {
        var e := RecEntryAt(cs, src, i, index);
        var index' := if e.def.Some? then index + 1 else index;
        RecScanNumbered(cs, src, e.next, index');
        var head: seq<TypeDef> := if e.def.Some? then [e.def.value] else [];
        var rest := RecScan(cs, src, e.next, index');
        assert RecScan(cs, src, i, index) == head + rest;
        forall k | 0 <= k < |head + rest|
          ensures (head + rest)[k].index == index + k
        {
          if k >= |head| {
            assert (head + rest)[k] == rest[k - |head|];
          }
        }
      } else {
        RecScanNumbered(cs, src, i + 1, index);
      }
    }
  }

  /** The inner loop of `extract_rec_types` that skips to the closing `)`. */
  method SkipToCloseLoop(cs: seq<Node>, from: nat) returns (i: nat)
    requires from <= |cs|
    ensures i == SkipToClose(cs, from)
  {
    i := from;
    while i < |cs| && cs[i].kind != ")"
      invariant from <= i <= |cs|
      invariant SkipToClose(cs, i) == SkipToClose(cs, from)
      decreases |cs| - i
    {
      i := i + 1;
    }
  }

  /** The definition part of a rec group entry: a struct, array or field definition at `k` becomes a type. */
  method ReadRecDefinition(table: SymbolTable, cs: seq<Node>, src: string, k: nat, typeIndex: nat,
                           name: Option<string>, range: Option<Range>) returns (i: nat, next: nat)
    requires k <= |cs|
    requires table.Valid()
    modifies table`types, table`typeMap
    ensures table.Valid()
    ensures var def := if k < |cs| then TypeFromSingleNode(cs[k], src, typeIndex, name, range) else None;
            table.types == old(table.types) + (if def.Some? then [def.value] else [])
            && next == (if def.Some? then typeIndex + 1 else typeIndex)
            && i == if def.Some? then k + 1 else k
  {
    i, next := k, typeIndex;
    if i < |cs| {
      var t := cs[i];
      if t.kind == "struct_type" || t.kind == "array_type" || t.kind == "type_field" {
        var def := TypeFromSingleNode(t, src, typeIndex, name, range);
        table.AddType(def.value);
        next := typeIndex + 1;
        i := i + 1;
      }
    }
  }

  /**
   * One entry of `extract_rec_types`, from the `(` at `i`: reads the
   * optional identifier and the definition, adds the type, and skips past
   * the closing `)`.
   */
  method ReadRecEntry(table: SymbolTable, cs: seq<Node>, src: string, i0: nat, typeIndex: nat) returns (i: nat, next: nat)
    requires i0 + 2 <= |cs|
    requires table.Valid()
    modifies table`types, table`typeMap
    ensures table.Valid()
    ensures var e := RecEntryAt(cs, src, i0, typeIndex);
            i == e.next
            && table.types == old(table.types) + (if e.def.Some? then [e.def.value] else [])
            && next == if e.def.Some? then typeIndex + 1 else typeIndex
  {
    next := typeIndex;
    i := i0 + 2;
    var name: Option<string> := None;
    var range: Option<Range> := None;
    if i < |cs| && cs[i].kind == "identifier" {
      name, range := Some(NodeText(cs[i], src)), Some(NodeToRange(cs[i]));
      i := i + 1;
    }
    i, next := ReadRecDefinition(table, cs, src, i, typeIndex, name, range);
    i := SkipToCloseLoop(cs, i);
    if i < |cs| && cs[i].kind == ")" {
      i := i + 1;
    }
  }

  /** One turn of the `extract_rec_types` loop: an entry if one opens at `i`, else the next child. */
  method RecStep(table: SymbolTable, cs: seq<Node>, src: string, i0: nat, typeIndex: nat) returns (i: nat, next: nat)
    requires i0 < |cs|
    requires table.Valid()
    modifies table`types, table`typeMap
    ensures table.Valid()
    ensures i0 < i <= |cs|
    ensures |table.types| + typeIndex == |old(table.types)| + next
    ensures table.types + RecScan(cs, src, i, next) == old(table.types) + RecScan(cs, src, i0, typeIndex)
  {
    if cs[i0].kind == "(" && i0 + 1 < |cs| && cs[i0 + 1].kind == "type" {
      ghost var e := RecEntryAt(cs, src, i0, typeIndex);
      ghost var head: seq<TypeDef> := if e.def.Some? then [e.def.value] else [];
      ghost var rest := RecScan(cs, src, e.next, if e.def.Some? then typeIndex + 1 else typeIndex);
      assert RecScan(cs, src, i0, typeIndex) == head + rest;
      i, next := ReadRecEntry(table, cs, src, i0, typeIndex);
      AppendAssoc(old(table.types), head, rest);
    } else {
      assert RecScan(cs, src, i0, typeIndex) == RecScan(cs, src, i0 + 1, typeIndex);
      i, next := i0 + 1, typeIndex;
    }
  }

  /** `extract_rec_types`: the while loop over a rec group's children. */
  method ExtractRecTypes(table: SymbolTable, rec: Node, src: string, index: nat) returns (next: nat)
    requires table.Valid()
    modifies table`types, table`typeMap
    ensures table.Valid()
    ensures table.types == old(table.types) + RecScan(rec.children, src, 0, index)
    ensures next == index + |RecScan(rec.children, src, 0, index)|
  {
    var cs := rec.children;
    var typeIndex := index;
    var i := 0;
    while i < |cs|
      invariant i <= |cs|
      invariant table.Valid()
      invariant |old(table.types)| + typeIndex == |table.types| + index
      invariant old(table.types) + RecScan(cs, src, 0, index) == table.types + RecScan(cs, src, i, typeIndex)
      decreases |cs| - i
    {
      i, typeIndex := RecStep(table, cs, src, i, typeIndex);
    }
    assert RecScan(cs, src, i, typeIndex) == [];
    next := typeIndex;
  }

  /** The type fields of the module: one type per `module_field_type`, a rec group's types in order. */
  function TypeStep(prev: seq<TypeDef>, field: Node, src: string): seq<TypeDef>
  {
    prev + (if field.kind == "module_field_type" then [TypeOf(field, src, |prev|)]
            else if field.kind == "module_field_rec" then RecScan(field.children, src, 0, |prev|)
            else [])
  }

  /** The types of the module, numbered from 0. */
  function TypesOf(fields: seq<Node>, src: string): seq<TypeDef>
  {
    if fields == [] then [] else TypeStep(TypesOf(fields[..|fields| - 1], src), fields[|fields| - 1], src)
  }

  /** Two runs numbered one after the other make one numbered run. */
  lemma ConcatNumbered<T>(a: seq<T>, b: seq<T>, idx: T -> nat)
    requires forall k :: 0 <= k < |a| ==> idx(a[k]) == k
    requires forall k :: 0 <= k < |b| ==> idx(b[k]) == |a| + k
    ensures forall k :: 0 <= k < |a + b| ==> idx((a + b)[k]) == k
  {
    forall k | 0 <= k < |a + b|
      ensures idx((a + b)[k]) == k
    {
      if k >= |a| {
        assert (a + b)[k] == b[k - |a|];
      }
    }
  }

  /** Every type's index is its position, rec group members included. */
  lemma {:induction false} TypesNumbered(fields: seq<Node>, src: string)
    ensures forall k :: 0 <= k < |TypesOf(fields, src)| ==> TypesOf(fields, src)[k].index == k
  {
    if fields != [] {
      TypesNumbered(fields[..|fields| - 1], src);
      var prev := TypesOf(fields[..|fields| - 1], src);
      var last := fields[|fields| - 1];
      var added := if last.kind == "module_field_type" then [TypeOf(last, src, |prev|)]
                   else if last.kind == "module_field_rec" then RecScan(last.children, src, 0, |prev|)
                   else [];
      if last.kind == "module_field_rec" {
        RecScanNumbered(last.children, src, 0, |prev|);
      }
      assert TypesOf(fields, src) == prev + added;
      ConcatNumbered(prev, added, (t: TypeDef) => t.index);
    }
  }

  /** One field of the `extract_types` loop: a type definition, or the types of a rec group. */
  method AddTypeField(table: SymbolTable, fields: seq<Node>, i: nat, src: string, typeIndex: nat, ghost before: seq<TypeDef>)
    returns (typeIndex': nat)
    requires i < |fields|
    requires table.Valid()
    requires table.types == before + TypesOf(fields[..i], src)
    requires typeIndex == |TypesOf(fields[..i], src)|
    modifies table`types, table`typeMap
    ensures table.Valid()
    ensures table.types == before + TypesOf(fields[..i + 1], src)
    ensures typeIndex' == |TypesOf(fields[..i + 1], src)|
  {
    var field := fields[i];
    assert fields[..i + 1][..i] == fields[..i];
    ghost var prev := TypesOf(fields[..i], src);
    assert TypesOf(fields[..i + 1], src) == TypeStep(prev, field, src);
    typeIndex' := typeIndex;
    if field.kind == "module_field_type" {
      assert TypeStep(prev, field, src) == prev + [TypeOf(field, src, |prev|)];
      table.AddType(TypeOf(field, src, typeIndex));
      typeIndex' := typeIndex + 1;
    } else if field.kind == "module_field_rec" {
      assert TypeStep(prev, field, src) == prev + RecScan(field.children, src, 0, |prev|);
      typeIndex' := ExtractRecTypes(table, field, src, typeIndex);
    } else {
      assert TypeStep(prev, field, src) == prev;
    }
  }

  /** `extract_types`: types are not imported here, so they are numbered from 0. */
  method ExtractTypes(table: SymbolTable, fields: seq<Node>, src: string)
    requires table.Valid()
    modifies table`types, table`typeMap
    ensures table.Valid()
    ensures table.types == old(table.types) + TypesOf(fields, src)
  {
    var typeIndex := 0;
    var i := 0;
    while i < |fields|
      invariant 0 <= i <= |fields|
      invariant table.Valid()
      invariant table.types == old(table.types) + TypesOf(fields[..i], src)
      invariant typeIndex == |TypesOf(fields[..i], src)|
    {
      typeIndex := AddTypeField(table, fields, i, src, typeIndex, old(table.types));
      i := i + 1;
    }
    assert fields[..i] == fields;
  }

  // ---------------------------------------------------------------------
  // The whole extraction (parser.rs:35-58)

  /** The symbol lists the extraction produces from a module's fields. */
  datatype Extraction = Extraction(
    functions: seq<Function>, globals: seq<Global>, tables: seq<Table>, memories: seq<Memory>,
    tags: seq<Tag>, types: seq<TypeDef>, dataSegments: seq<DataSegment>, elemSegments: seq<ElemSegment>)

  /**
   * Each list holds the imports of its kind followed by the definitions,
   * the definitions numbered on from the number of imports of that kind.
   */
  function ExtractionOf(root: Node, src: string): Extraction
  {
    var fields := FieldNodes(root);
    var descs := ImportDescs(fields);
    var n := ImportCountsOf(descs);
    Extraction(
      Collect(descs, FuncImportKinds, ImportedFunction, src, 0) + DefinedFunctions(fields, src, n.functions).funcs,
      Collect(descs, GlobalImportKinds, GlobalOf, src, 0) + Collect(fields, {"module_field_global"}, GlobalOf, src, n.globals),
      Collect(descs, TableImportKinds, ImportedTable, src, 0) + Collect(fields, {"module_field_table"}, DefinedTable, src, n.tables),
      Collect(descs, MemoryImportKinds, ImportedMemory, src, 0) + Collect(fields, {"module_field_memory"}, DefinedMemory, src, n.memories),
      Collect(descs, TagImportKinds, ImportedTag, src, 0) + Collect(fields, {"module_field_tag"}, DefinedTag, src, n.tags),
      TypesOf(fields, src),
      Collect(fields, {"module_field_data"}, DataSegmentOf, src, 0),
      Collect(fields, {"module_field_elem"}, ElemSegmentOf, src, 0))
  }

  /** Imports numbered from 0 followed by definitions numbered on from the import count. */
  lemma ImportsThenDefinitionsNumbered<T>(descs: seq<Node>, importKinds: set<string>, imported: (Node, string, nat) -> T,
                                          fields: seq<Node>, kind: string, defined: (Node, string, nat) -> T,
                                          src: string, idx: T -> nat)
    requires forall n, s, i :: idx(imported(n, s, i)) == i
    requires forall n, s, i :: idx(defined(n, s, i)) == i
    ensures var xs := Collect(descs, importKinds, imported, src, 0)
                      + Collect(fields, {kind}, defined, src, CountKinds(descs, importKinds));
            forall k :: 0 <= k < |xs| ==> idx(xs[k]) == k
  {
    CollectNumbered(descs, importKinds, imported, src, 0, idx);
    CollectNumbered(fields, {kind}, defined, src, CountKinds(descs, importKinds), idx);
    CollectCount(descs, importKinds, imported, src, 0);
    ConcatNumbered(Collect(descs, importKinds, imported, src, 0),
                   Collect(fields, {kind}, defined, src, CountKinds(descs, importKinds)), idx);
  }

  /** Imported functions numbered from 0 followed by the kept defined functions. */
  lemma FunctionsNumbered(descs: seq<Node>, fields: seq<Node>, src: string)
    ensures var xs := Collect(descs, FuncImportKinds, ImportedFunction, src, 0)
                      + DefinedFunctions(fields, src, CountKinds(descs, FuncImportKinds)).funcs;
            forall k :: 0 <= k < |xs| ==> xs[k].index == k
  {
    CollectNumbered(descs, FuncImportKinds, ImportedFunction, src, 0, (f: Function) => f.index);
    DefinedFunctionsNumbered(fields, src, CountKinds(descs, FuncImportKinds));
    CollectCount(descs, FuncImportKinds, ImportedFunction, src, 0);
    ConcatNumbered(Collect(descs, FuncImportKinds, ImportedFunction, src, 0),
                   DefinedFunctions(fields, src, CountKinds(descs, FuncImportKinds)).funcs, (f: Function) => f.index);
  }

  lemma GlobalsNumbered(descs: seq<Node>, fields: seq<Node>, src: string)
    ensures var xs := Collect(descs, GlobalImportKinds, GlobalOf, src, 0) + Collect(fields, {"module_field_global"}, GlobalOf, src, CountKinds(descs, GlobalImportKinds));
            forall k :: 0 <= k < |xs| ==> xs[k].index == k
  {
    ImportsThenDefinitionsNumbered(descs, GlobalImportKinds, GlobalOf, fields, "module_field_global", GlobalOf, src, (g: Global) => g.index);
  }

  lemma TablesNumbered(descs: seq<Node>, fields: seq<Node>, src: string)
    ensures var xs := Collect(descs, TableImportKinds, ImportedTable, src, 0) + Collect(fields, {"module_field_table"}, DefinedTable, src, CountKinds(descs, TableImportKinds));
            forall k :: 0 <= k < |xs| ==> xs[k].index == k
  {
    ImportsThenDefinitionsNumbered(descs, TableImportKinds, ImportedTable, fields, "module_field_table", DefinedTable, src, (t: Table) => t.index);
  }

  lemma MemoriesNumbered(descs: seq<Node>, fields: seq<Node>, src: string)
    ensures var xs := Collect(descs, MemoryImportKinds, ImportedMemory, src, 0) + Collect(fields, {"module_field_memory"}, DefinedMemory, src, CountKinds(descs, MemoryImportKinds));
            forall k :: 0 <= k < |xs| ==> xs[k].index == k
  {
    ImportsThenDefinitionsNumbered(descs, MemoryImportKinds, ImportedMemory, fields, "module_field_memory", DefinedMemory, src, (m: Memory) => m.index);
  }

  lemma TagsNumbered(descs: seq<Node>, fields: seq<Node>, src: string)
    ensures var xs := Collect(descs, TagImportKinds, ImportedTag, src, 0) + Collect(fields, {"module_field_tag"}, DefinedTag, src, CountKinds(descs, TagImportKinds));
            forall k :: 0 <= k < |xs| ==> xs[k].index == k
  {
    ImportsThenDefinitionsNumbered(descs, TagImportKinds, ImportedTag, fields, "module_field_tag", DefinedTag, src, (t: Tag) => t.index);
  }

  lemma DataNumbered(fields: seq<Node>, src: string)
    ensures var xs := Collect(fields, {"module_field_data"}, DataSegmentOf, src, 0);
            forall k :: 0 <= k < |xs| ==> xs[k].index == k
  {
    CollectNumbered(fields, {"module_field_data"}, DataSegmentOf, src, 0, (d: DataSegment) => d.index);
  }

  lemma ElemsNumbered(fields: seq<Node>, src: string)
    ensures var xs := Collect(fields, {"module_field_elem"}, ElemSegmentOf, src, 0);
            forall k :: 0 <= k < |xs| ==> xs[k].index == k
  {
    CollectNumbered(fields, {"module_field_elem"}, ElemSegmentOf, src, 0, (e: ElemSegment) => e.index);
  }

  /**
   * The index spaces of section 2.5.1 of the WebAssembly Core
   * Specification: in every list, imports first, each record's index is
   * its position.
   */
  lemma ExtractionNumbered(root: Node, src: string)
    ensures forall k :: 0 <= k < |ExtractionOf(root, src).functions| ==> ExtractionOf(root, src).functions[k].index == k
    ensures forall k :: 0 <= k < |ExtractionOf(root, src).globals| ==> ExtractionOf(root, src).globals[k].index == k
    ensures forall k :: 0 <= k < |ExtractionOf(root, src).tables| ==> ExtractionOf(root, src).tables[k].index == k
    ensures forall k :: 0 <= k < |ExtractionOf(root, src).memories| ==> ExtractionOf(root, src).memories[k].index == k
    ensures forall k :: 0 <= k < |ExtractionOf(root, src).tags| ==> ExtractionOf(root, src).tags[k].index == k
    ensures forall k :: 0 <= k < |ExtractionOf(root, src).types| ==> ExtractionOf(root, src).types[k].index == k
    ensures forall k :: 0 <= k < |ExtractionOf(root, src).dataSegments| ==> ExtractionOf(root, src).dataSegments[k].index == k
    ensures forall k :: 0 <= k < |ExtractionOf(root, src).elemSegments| ==> ExtractionOf(root, src).elemSegments[k].index == k
  {
    var fields := FieldNodes(root);
    var descs := ImportDescs(fields);
    FunctionsNumbered(descs, fields, src);
    assert ExtractionOf(root, src).functions == Collect(descs, FuncImportKinds, ImportedFunction, src, 0) + DefinedFunctions(fields, src, CountKinds(descs, FuncImportKinds)).funcs;
    GlobalsNumbered(descs, fields, src);
    assert ExtractionOf(root, src).globals == Collect(descs, GlobalImportKinds, GlobalOf, src, 0) + Collect(fields, {"module_field_global"}, GlobalOf, src, CountKinds(descs, GlobalImportKinds));
    TablesNumbered(descs, fields, src);
    assert ExtractionOf(root, src).tables == Collect(descs, TableImportKinds, ImportedTable, src, 0) + Collect(fields, {"module_field_table"}, DefinedTable, src, CountKinds(descs, TableImportKinds));
    MemoriesNumbered(descs, fields, src);
    assert ExtractionOf(root, src).memories == Collect(descs, MemoryImportKinds, ImportedMemory, src, 0) + Collect(fields, {"module_field_memory"}, DefinedMemory, src, CountKinds(descs, MemoryImportKinds));
    TagsNumbered(descs, fields, src);
    assert ExtractionOf(root, src).tags == Collect(descs, TagImportKinds, ImportedTag, src, 0) + Collect(fields, {"module_field_tag"}, DefinedTag, src, CountKinds(descs, TagImportKinds));
    TypesNumbered(fields, src);
    DataNumbered(fields, src);
    assert ExtractionOf(root, src).dataSegments == Collect(fields, {"module_field_data"}, DataSegmentOf, src, 0);
    ElemsNumbered(fields, src);
    assert ExtractionOf(root, src).elemSegments == Collect(fields, {"module_field_elem"}, ElemSegmentOf, src, 0);
  }

  /** Whether the table's lists are exactly an extraction's. */
  ghost predicate Holds(table: SymbolTable, x: Extraction)
    reads table
  {
    table.functions == x.functions && table.globals == x.globals && table.tables == x.tables
    && table.memories == x.memories && table.tags == x.tags && table.types == x.types
    && table.dataSegments == x.dataSegments && table.elemSegments == x.elemSegments
  }

  /** The first half of the definition passes of `extract_symbols`: globals, types, tables and memories. */
  method ExtractDefinitionsA(table: SymbolTable, fields: seq<Node>, src: string, counts: ImportCounts)
    requires table.Valid()
    modifies table
    ensures table.Valid()
    ensures table.globals == old(table.globals) + Collect(fields, {"module_field_global"}, GlobalOf, src, counts.globals)
    ensures table.types == old(table.types) + TypesOf(fields, src)
    ensures table.tables == old(table.tables) + Collect(fields, {"module_field_table"}, DefinedTable, src, counts.tables)
    ensures table.memories == old(table.memories) + Collect(fields, {"module_field_memory"}, DefinedMemory, src, counts.memories)
    ensures table.functions == old(table.functions) && table.tags == old(table.tags)
    ensures table.dataSegments == old(table.dataSegments) && table.elemSegments == old(table.elemSegments)
  {
    GlobalsWithOffset(table, fields, src, counts.globals);
    ExtractTypes(table, fields, src);
    TablesWithOffset(table, fields, src, counts.tables);
    MemoriesWithOffset(table, fields, src, counts.memories);
  }

  /** The second half: tags, functions, data and elem segments. */
  method ExtractDefinitionsB(table: SymbolTable, fields: seq<Node>, src: string, counts: ImportCounts)
    requires table.Valid()
    modifies table
    ensures table.Valid()
    ensures table.tags == old(table.tags) + Collect(fields, {"module_field_tag"}, DefinedTag, src, counts.tags)
    ensures table.functions == old(table.functions) + DefinedFunctions(fields, src, counts.functions).funcs
    ensures table.dataSegments == old(table.dataSegments) + Collect(fields, {"module_field_data"}, DataSegmentOf, src, 0)
    ensures table.elemSegments == old(table.elemSegments) + Collect(fields, {"module_field_elem"}, ElemSegmentOf, src, 0)
    ensures table.globals == old(table.globals) && table.types == old(table.types)
    ensures table.tables == old(table.tables) && table.memories == old(table.memories)
  {
    TagsWithOffset(table, fields, src, counts.tags);
    FunctionsWithOffset(table, fields, src, counts.functions);
    DataSegments(table, fields, src);
    ElemSegments(table, fields, src);
  }

  /**
   * The passes of `extract_symbols` on a table: imports first, then
   * globals, types, tables, memories, tags, functions, data and elem
   * segments, each definition numbered on from its kind's import count.
   */
  method Fill(table: SymbolTable, root: Node, src: string)
    requires table.Valid()
    modifies table
    ensures table.Valid()
    ensures table.functions == old(table.functions) + ExtractionOf(root, src).functions
    ensures table.globals == old(table.globals) + ExtractionOf(root, src).globals
    ensures table.tables == old(table.tables) + ExtractionOf(root, src).tables
    ensures table.memories == old(table.memories) + ExtractionOf(root, src).memories
    ensures table.tags == old(table.tags) + ExtractionOf(root, src).tags
    ensures table.types == old(table.types) + ExtractionOf(root, src).types
    ensures table.dataSegments == old(table.dataSegments) + ExtractionOf(root, src).dataSegments
    ensures table.elemSegments == old(table.elemSegments) + ExtractionOf(root, src).elemSegments
  {
    var fields := FieldNodes(root);
    var descs := ImportDescs(fields);
    var counts := ExtractImports(table, descs, src);
    ExtractDefinitionsA(table, fields, src, counts);
    ExtractDefinitionsB(table, fields, src, counts);
    AppendAssoc(old(table.functions), Collect(descs, FuncImportKinds, ImportedFunction, src, 0), DefinedFunctions(fields, src, counts.functions).funcs);
    AppendAssoc(old(table.globals), Collect(descs, GlobalImportKinds, GlobalOf, src, 0), Collect(fields, {"module_field_global"}, GlobalOf, src, counts.globals));
    AppendAssoc(old(table.tables), Collect(descs, TableImportKinds, ImportedTable, src, 0), Collect(fields, {"module_field_table"}, DefinedTable, src, counts.tables));
    AppendAssoc(old(table.memories), Collect(descs, MemoryImportKinds, ImportedMemory, src, 0), Collect(fields, {"module_field_memory"}, DefinedMemory, src, counts.memories));
    AppendAssoc(old(table.tags), Collect(descs, TagImportKinds, ImportedTag, src, 0), Collect(fields, {"module_field_tag"}, DefinedTag, src, counts.tags));
  }

  /** `extract_symbols`: the passes on a fresh, empty table. */
  method ExtractSymbols(root: Node, src: string) returns (table: SymbolTable)
    ensures fresh(table) && table.Valid()
    ensures Holds(table, ExtractionOf(root, src))
  {
    table := new SymbolTable();
    Fill(table, root, src);
  }
}
