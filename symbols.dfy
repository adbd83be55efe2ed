/**
 * The symbol table (src/symbols.rs): one vector per kind of module entity
 * and, beside each vector, a map from `$name` to the vector position.
 *
 * The symbols.rs shown declares four kinds (functions, globals, tables,
 * types); the extractor also adds memories, tags, data and elem segments
 * and every record carries a `range`. The model therefore has all eight
 * kinds, each with the same add/get pattern as the four shown.
 */
module Symbols {
  import opened Wrappers
  import opened CoreTypes
  import Text

  /**
   * Value types. The first seven constructors are those of symbols.rs; the
   * others are the ones the tree extractor produces (parser.rs).
   */
  datatype ValueType =
    | I32 | I64 | F32 | F64 | Funcref | Externref | Unknown
    | V128 | I8 | I16 | Structref | Arrayref | I31ref | Anyref | Eqref
    | Nullref | NullFuncref | NullExternref | Ref(typeIndex: nat) | RefNull(typeIndex: nat)

  /** The seven value types symbols.rs declares. */
  predicate IsBasic(v: ValueType)
  {
    v.I32? || v.I64? || v.F32? || v.F64? || v.Funcref? || v.Externref? || v.Unknown?
  }

  /**
   * `ValueType::to_str` (also used as its display form). The text of the
   * types symbols.rs does not declare is their WebAssembly keyword.
   */
  function ToStr(v: ValueType): string
  {
    match v
    case I32 => "i32"
    case I64 => "i64"
    case F32 => "f32"
    case F64 => "f64"
    case Funcref => "funcref"
    case Externref => "externref"
    case Unknown => "unknown"
    case V128 => "v128"
    case I8 => "i8"
    case I16 => "i16"
    case Structref => "structref"
    case Arrayref => "arrayref"
    case I31ref => "i31ref"
    case Anyref => "anyref"
    case Eqref => "eqref"
    case Nullref => "nullref"
    case NullFuncref => "nullfuncref"
    case NullExternref => "nullexternref"
    case Ref(i) => "(ref " + Text.NatToString(i) + ")"
    case RefNull(i) => "(ref null " + Text.NatToString(i) + ")"
  }

  /**
   * `ValueType::parse`: the six type keywords map to their type, every
   * other string to `Unknown`; a recognised string is the text of its type.
   */
  function Parse(s: string): (v: ValueType)
    ensures v != Unknown <==> s in {"i32", "i64", "f32", "f64", "funcref", "externref"}
    ensures v != Unknown ==> ToStr(v) == s && IsBasic(v)
  {
    match s
    case "i32" => I32
    case "i64" => I64
    case "f32" => F32
    case "f64" => F64
    case "funcref" => Funcref
    case "externref" => Externref
    case _ => Unknown
  }

  /** Printing then parsing gives back every type symbols.rs declares. */
  lemma ParseToStr(v: ValueType)
    ensures Parse(ToStr(v)) == if IsBasic(v) then v else Unknown
  {
    if v.Ref? || v.RefNull? {
      var t := ToStr(v);
      assert t[0] == '(';
    }
  }

  datatype Parameter = Parameter(name: Option<string>, paramType: ValueType, index: nat, range: Option<Range>)

  datatype Variable = Variable(
    name: Option<string>, varType: ValueType, isMutable: bool,
    initialValue: Option<string>, index: nat, range: Option<Range>)

  datatype BlockLabel = BlockLabel(labelName: string, blockType: string, line: nat, range: Option<Range>)

  datatype Function = Function(
    name: Option<string>, index: nat,
    parameters: seq<Parameter>, results: seq<ValueType>,
    locals: seq<Variable>, blocks: seq<BlockLabel>,
    line: nat, endLine: nat, startByte: nat, endByte: nat, range: Option<Range>)

  datatype Global = Global(
    name: Option<string>, index: nat, varType: ValueType, isMutable: bool,
    initialValue: Option<string>, line: nat, range: Option<Range>)

  /** Table and memory limits `(min, max)`. */
  datatype Limits = Limits(min: nat, max: Option<nat>)

  datatype Table = Table(name: Option<string>, index: nat, refType: ValueType, limits: Limits, line: nat, range: Option<Range>)

  datatype Memory = Memory(name: Option<string>, index: nat, limits: Limits, line: nat, range: Option<Range>)

  datatype Tag = Tag(name: Option<string>, index: nat, params: seq<ValueType>, line: nat, range: Option<Range>)

  datatype StructField = StructField(name: Option<string>, fieldType: ValueType, mutable: bool)

  datatype TypeKind =
    | Func(params: seq<ValueType>, results: seq<ValueType>)
    | Struct(fields: seq<StructField>)
    | Array(elementType: ValueType, mutable: bool)

  datatype TypeDef = TypeDef(name: Option<string>, index: nat, kind: TypeKind, line: nat, range: Option<Range>)

  datatype DataSegment = DataSegment(
    name: Option<string>, index: nat, content: string, byteLength: nat,
    isPassive: bool, line: nat, range: Option<Range>)

  datatype ElemSegment = ElemSegment(
    name: Option<string>, index: nat, funcNames: seq<string>,
    tableName: Option<string>, line: nat, range: Option<Range>)

  /** `vec.get(i)`. */
  function ByIndex<T>(items: seq<T>, i: nat): (r: Option<T>)
    ensures r.Some? <==> i < |items|
    ensures r.Some? ==> r.value == items[i]
  {
    if i < |items| then Some(items[i]) else None
  }

  /** `map.get(name).and_then(|&idx| vec.get(idx))`. */
  function ByName<T>(items: seq<T>, m: map<string, nat>, name: string): Option<T>
  {
    if name in m then ByIndex(items, m[name]) else None
  }

  /** The map after recording an item at position `i` (only named items are recorded). */
  function Record(m: map<string, nat>, name: Option<string>, i: nat): (r: map<string, nat>)
    ensures name.None? ==> r == m
    ensures name.Some? ==> r.Keys == m.Keys + {name.value} && r[name.value] == i
    ensures forall n :: n in m && Some(n) != name ==> n in r && r[n] == m[n]
  {
    if name.Some? then m[name.value := i] else m
  }

  /** Position `i` holds `name` and no later position does. */
  ghost predicate LastNamed(names: seq<Option<string>>, name: string, i: int)
  {
    0 <= i < |names| && names[i] == Some(name)
    && forall j :: i < j < |names| ==> names[j] != Some(name)
  }

  /**
   * The name map records every name that occurs, and for each name the
   * last position holding it.
   */
  ghost predicate TracksLast(names: seq<Option<string>>, m: map<string, nat>)
  {
    forall n :: (n in m ==> LastNamed(names, n, m[n])) && (Some(n) in names ==> n in m)
  }

  /** Appending an item and recording it keeps the map tracking the last positions. */
  lemma TracksLastAppend(names: seq<Option<string>>, m: map<string, nat>, name: Option<string>)
    requires TracksLast(names, m)
    ensures TracksLast(names + [name], Record(m, name, |names|))
  {
    var names' := names + [name];
    var m' := Record(m, name, |names|);
    forall n | n in m' ensures LastNamed(names', n, m'[n]) {
      if Some(n) == name {
        assert names'[|names|] == Some(n);
      } else {
        assert n in m && m'[n] == m[n];
        assert LastNamed(names, n, m[n]);
        assert names'[m[n]] == names[m[n]];
      }
    }
    forall n | Some(n) in names' ensures n in m' {
      if Some(n) != name {
        var i :| 0 <= i < |names'| && names'[i] == Some(n);
        assert names[i] == Some(n);
      }
    }
  }

  /**
   * By-name lookup over a tracking map finds an item exactly when some
   * item has the name, and then it is the last item with that name.
   */
  lemma ByNameFindsLast<T>(items: seq<T>, names: seq<Option<string>>, m: map<string, nat>, name: string)
    requires |names| == |items| && TracksLast(names, m)
    ensures ByName(items, m, name).Some? <==> Some(name) in names
    ensures ByName(items, m, name).Some? ==>
              LastNamed(names, name, m[name]) && ByName(items, m, name) == Some(items[m[name]])
  {
    if Some(name) in names {
      assert name in m;
    }
  }

  /** `ByNameFindsLast` for a map that may or may not track the last positions. */
  lemma ByNameLookup<T>(items: seq<T>, names: seq<Option<string>>, m: map<string, nat>, name: string)
    requires |names| == |items|
    ensures TracksLast(names, m) ==> (ByName(items, m, name).Some? <==> Some(name) in names)
    ensures TracksLast(names, m) && ByName(items, m, name).Some? ==>
              exists i :: LastNamed(names, name, i) && ByName(items, m, name) == Some(items[i])
  {
    if TracksLast(names, m) {
      ByNameFindsLast(items, names, m, name);
    }
  }

  /**
   * Adding an item: a lookup of its own name now gives it (a second item
   * with an existing name wins), every other name keeps its result.
   */
  lemma ByNameAfterAdd<T>(items: seq<T>, names: seq<Option<string>>, m: map<string, nat>, x: T, xName: Option<string>, name: string)
    requires |names| == |items| && TracksLast(names, m)
    ensures ByName(items + [x], Record(m, xName, |items|), name)
            == if xName == Some(name) then Some(x) else ByName(items, m, name)
  {
    if name in m && xName != Some(name) {
      assert LastNamed(names, name, m[name]);
      assert (items + [x])[m[name]] == items[m[name]];
    }
  }


  function FunctionNames(xs: seq<Function>): (r: seq<Option<string>>)
    ensures |r| == |xs| && forall i :: 0 <= i < |xs| ==> r[i] == xs[i].name
  {
    seq(|xs|, i requires 0 <= i < |xs| => xs[i].name)
  }


  function GlobalNames(xs: seq<Global>): (r: seq<Option<string>>)
    ensures |r| == |xs| && forall i :: 0 <= i < |xs| ==> r[i] == xs[i].name
  {
    seq(|xs|, i requires 0 <= i < |xs| => xs[i].name)
  }


  function TableNames(xs: seq<Table>): (r: seq<Option<string>>)
    ensures |r| == |xs| && forall i :: 0 <= i < |xs| ==> r[i] == xs[i].name
  {
    seq(|xs|, i requires 0 <= i < |xs| => xs[i].name)
  }


  function MemoryNames(xs: seq<Memory>): (r: seq<Option<string>>)
    ensures |r| == |xs| && forall i :: 0 <= i < |xs| ==> r[i] == xs[i].name
  {
    seq(|xs|, i requires 0 <= i < |xs| => xs[i].name)
  }


  function TypeNames(xs: seq<TypeDef>): (r: seq<Option<string>>)
    ensures |r| == |xs| && forall i :: 0 <= i < |xs| ==> r[i] == xs[i].name
  {
    seq(|xs|, i requires 0 <= i < |xs| => xs[i].name)
  }


  function TagNames(xs: seq<Tag>): (r: seq<Option<string>>)
    ensures |r| == |xs| && forall i :: 0 <= i < |xs| ==> r[i] == xs[i].name
  {
    seq(|xs|, i requires 0 <= i < |xs| => xs[i].name)
  }


  function DataNames(xs: seq<DataSegment>): (r: seq<Option<string>>)
    ensures |r| == |xs| && forall i :: 0 <= i < |xs| ==> r[i] == xs[i].name
  {
    seq(|xs|, i requires 0 <= i < |xs| => xs[i].name)
  }


  function ElemNames(xs: seq<ElemSegment>): (r: seq<Option<string>>)
    ensures |r| == |xs| && forall i :: 0 <= i < |xs| ==> r[i] == xs[i].name
  {
    seq(|xs|, i requires 0 <= i < |xs| => xs[i].name)
  }


  class SymbolTable {
    var functions: seq<Function>
    var functionMap: map<string, nat>
    var globals: seq<Global>
    var globalMap: map<string, nat>
    var tables: seq<Table>
    var tableMap: map<string, nat>
    var memories: seq<Memory>
    var memoryMap: map<string, nat>
    var types: seq<TypeDef>
    var typeMap: map<string, nat>
    var tags: seq<Tag>
    var tagMap: map<string, nat>
    var dataSegments: seq<DataSegment>
    var dataMap: map<string, nat>
    var elemSegments: seq<ElemSegment>
    var elemMap: map<string, nat>

    /** Every name map tracks the last position of each name in its vector. */
    ghost predicate Valid()
      reads this
    {
      TracksLast(FunctionNames(functions), functionMap)
      && TracksLast(GlobalNames(globals), globalMap)
      && TracksLast(TableNames(tables), tableMap)
      && TracksLast(MemoryNames(memories), memoryMap)
      && TracksLast(TypeNames(types), typeMap)
      && TracksLast(TagNames(tags), tagMap)
      && TracksLast(DataNames(dataSegments), dataMap)
      && TracksLast(ElemNames(elemSegments), elemMap)
    }

    /** `SymbolTable::new`: every vector and every map is empty. */
    constructor ()
      ensures Valid()
      ensures functions == [] && functionMap == map[]
      ensures globals == [] && globalMap == map[]
      ensures tables == [] && tableMap == map[]
      ensures memories == [] && memoryMap == map[]
      ensures types == [] && typeMap == map[]
      ensures tags == [] && tagMap == map[]
      ensures dataSegments == [] && dataMap == map[]
      ensures elemSegments == [] && elemMap == map[]
    {
      functions, functionMap := [], map[];
      globals, globalMap := [], map[];
      tables, tableMap := [], map[];
      memories, memoryMap := [], map[];
      types, typeMap := [], map[];
      tags, tagMap := [], map[];
      dataSegments, dataMap := [], map[];
      elemSegments, elemMap := [], map[];
    }

    /**
     * `add_function`: appends the item at the end, leaving the earlier
     * ones in place; a named item is recorded in the map at the old length
     * (overwriting an earlier entry of that name), an unnamed one is not.
     */
    method AddFunction(x: Function)
      requires Valid()
      modifies this`functions, this`functionMap
      ensures Valid()
      ensures functions == old(functions) + [x]
      ensures functionMap == Record(old(functionMap), x.name, |old(functions)|)
    {
      TracksLastAppend(FunctionNames(functions), functionMap, x.name);
      assert FunctionNames(functions + [x]) == FunctionNames(functions) + [x.name];
      functionMap := Record(functionMap, x.name, |functions|);
      functions := functions + [x];
    }

    /** `get_function_by_index`: the item at that position, if any. */
    function GetFunctionByIndex(i: nat): (r: Option<Function>)
      reads this
      ensures r.Some? <==> i < |functions|
      ensures r.Some? ==> r.value == functions[i]
    {
      ByIndex(functions, i)
    }

    /**
     * `get_function_by_name`: in a valid table, found exactly when some
     * item has that name, and then it is the last item with that name.
     */
    function GetFunctionByName(name: string): (r: Option<Function>)
      reads this
      ensures TracksLast(FunctionNames(functions), functionMap) ==> (r.Some? <==> Some(name) in FunctionNames(functions))
      ensures TracksLast(FunctionNames(functions), functionMap) && r.Some? ==> exists i :: LastNamed(FunctionNames(functions), name, i) && r == Some(functions[i])
    {
      ByNameLookup(functions, FunctionNames(functions), functionMap, name);
      ByName(functions, functionMap, name)
    }

    /**
     * `add_global`: appends the item at the end, leaving the earlier
     * ones in place; a named item is recorded in the map at the old length
     * (overwriting an earlier entry of that name), an unnamed one is not.
     */
    method AddGlobal(x: Global)
      requires Valid()
      modifies this`globals, this`globalMap
      ensures Valid()
      ensures globals == old(globals) + [x]
      ensures globalMap == Record(old(globalMap), x.name, |old(globals)|)
    {
      TracksLastAppend(GlobalNames(globals), globalMap, x.name);
      assert GlobalNames(globals + [x]) == GlobalNames(globals) + [x.name];
      globalMap := Record(globalMap, x.name, |globals|);
      globals := globals + [x];
    }

    /** `get_global_by_index`: the item at that position, if any. */
    function GetGlobalByIndex(i: nat): (r: Option<Global>)
      reads this
      ensures r.Some? <==> i < |globals|
      ensures r.Some? ==> r.value == globals[i]
    {
      ByIndex(globals, i)
    }

    /**
     * `get_global_by_name`: in a valid table, found exactly when some
     * item has that name, and then it is the last item with that name.
     */
    function GetGlobalByName(name: string): (r: Option<Global>)
      reads this
      ensures TracksLast(GlobalNames(globals), globalMap) ==> (r.Some? <==> Some(name) in GlobalNames(globals))
      ensures TracksLast(GlobalNames(globals), globalMap) && r.Some? ==> exists i :: LastNamed(GlobalNames(globals), name, i) && r == Some(globals[i])
    {
      ByNameLookup(globals, GlobalNames(globals), globalMap, name);
      ByName(globals, globalMap, name)
    }

    /**
     * `add_table`: appends the item at the end, leaving the earlier
     * ones in place; a named item is recorded in the map at the old length
     * (overwriting an earlier entry of that name), an unnamed one is not.
     */
    method AddTable(x: Table)
      requires Valid()
      modifies this`tables, this`tableMap
      ensures Valid()
      ensures tables == old(tables) + [x]
      ensures tableMap == Record(old(tableMap), x.name, |old(tables)|)
    {
      TracksLastAppend(TableNames(tables), tableMap, x.name);
      assert TableNames(tables + [x]) == TableNames(tables) + [x.name];
      tableMap := Record(tableMap, x.name, |tables|);
      tables := tables + [x];
    }

    /** `get_table_by_index`: the item at that position, if any. */
    function GetTableByIndex(i: nat): (r: Option<Table>)
      reads this
      ensures r.Some? <==> i < |tables|
      ensures r.Some? ==> r.value == tables[i]
    {
      ByIndex(tables, i)
    }

    /**
     * `get_table_by_name`: in a valid table, found exactly when some
     * item has that name, and then it is the last item with that name.
     */
    function GetTableByName(name: string): (r: Option<Table>)
      reads this
      ensures TracksLast(TableNames(tables), tableMap) ==> (r.Some? <==> Some(name) in TableNames(tables))
      ensures TracksLast(TableNames(tables), tableMap) && r.Some? ==> exists i :: LastNamed(TableNames(tables), name, i) && r == Some(tables[i])
    {
      ByNameLookup(tables, TableNames(tables), tableMap, name);
      ByName(tables, tableMap, name)
    }

    /**
     * `add_memory`: appends the item at the end, leaving the earlier
     * ones in place; a named item is recorded in the map at the old length
     * (overwriting an earlier entry of that name), an unnamed one is not.
     */
    method AddMemory(x: Memory)
      requires Valid()
      modifies this`memories, this`memoryMap
      ensures Valid()
      ensures memories == old(memories) + [x]
      ensures memoryMap == Record(old(memoryMap), x.name, |old(memories)|)
    {
      TracksLastAppend(MemoryNames(memories), memoryMap, x.name);
      assert MemoryNames(memories + [x]) == MemoryNames(memories) + [x.name];
      memoryMap := Record(memoryMap, x.name, |memories|);
      memories := memories + [x];
    }

    /** `get_memory_by_index`: the item at that position, if any. */
    function GetMemoryByIndex(i: nat): (r: Option<Memory>)
      reads this
      ensures r.Some? <==> i < |memories|
      ensures r.Some? ==> r.value == memories[i]
    {
      ByIndex(memories, i)
    }

    /**
     * `get_memory_by_name`: in a valid table, found exactly when some
     * item has that name, and then it is the last item with that name.
     */
    function GetMemoryByName(name: string): (r: Option<Memory>)
      reads this
      ensures TracksLast(MemoryNames(memories), memoryMap) ==> (r.Some? <==> Some(name) in MemoryNames(memories))
      ensures TracksLast(MemoryNames(memories), memoryMap) && r.Some? ==> exists i :: LastNamed(MemoryNames(memories), name, i) && r == Some(memories[i])
    {
      ByNameLookup(memories, MemoryNames(memories), memoryMap, name);
      ByName(memories, memoryMap, name)
    }

    /**
     * `add_type`: appends the item at the end, leaving the earlier
     * ones in place; a named item is recorded in the map at the old length
     * (overwriting an earlier entry of that name), an unnamed one is not.
     */
    method AddType(x: TypeDef)
      requires Valid()
      modifies this`types, this`typeMap
      ensures Valid()
      ensures types == old(types) + [x]
      ensures typeMap == Record(old(typeMap), x.name, |old(types)|)
    {
      TracksLastAppend(TypeNames(types), typeMap, x.name);
      assert TypeNames(types + [x]) == TypeNames(types) + [x.name];
      typeMap := Record(typeMap, x.name, |types|);
      types := types + [x];
    }

    /** `get_type_by_index`: the item at that position, if any. */
    function GetTypeByIndex(i: nat): (r: Option<TypeDef>)
      reads this
      ensures r.Some? <==> i < |types|
      ensures r.Some? ==> r.value == types[i]
    {
      ByIndex(types, i)
    }

    /**
     * `get_type_by_name`: in a valid table, found exactly when some
     * item has that name, and then it is the last item with that name.
     */
    function GetTypeByName(name: string): (r: Option<TypeDef>)
      reads this
      ensures TracksLast(TypeNames(types), typeMap) ==> (r.Some? <==> Some(name) in TypeNames(types))
      ensures TracksLast(TypeNames(types), typeMap) && r.Some? ==> exists i :: LastNamed(TypeNames(types), name, i) && r == Some(types[i])
    {
      ByNameLookup(types, TypeNames(types), typeMap, name);
      ByName(types, typeMap, name)
    }

    /**
     * `add_tag`: appends the item at the end, leaving the earlier
     * ones in place; a named item is recorded in the map at the old length
     * (overwriting an earlier entry of that name), an unnamed one is not.
     */
    method AddTag(x: Tag)
      requires Valid()
      modifies this`tags, this`tagMap
      ensures Valid()
      ensures tags == old(tags) + [x]
      ensures tagMap == Record(old(tagMap), x.name, |old(tags)|)
    {
      TracksLastAppend(TagNames(tags), tagMap, x.name);
      assert TagNames(tags + [x]) == TagNames(tags) + [x.name];
      tagMap := Record(tagMap, x.name, |tags|);
      tags := tags + [x];
    }

    /** `get_tag_by_index`: the item at that position, if any. */
    function GetTagByIndex(i: nat): (r: Option<Tag>)
      reads this
      ensures r.Some? <==> i < |tags|
      ensures r.Some? ==> r.value == tags[i]
    {
      ByIndex(tags, i)
    }

    /**
     * `get_tag_by_name`: in a valid table, found exactly when some
     * item has that name, and then it is the last item with that name.
     */
    function GetTagByName(name: string): (r: Option<Tag>)
      reads this
      ensures TracksLast(TagNames(tags), tagMap) ==> (r.Some? <==> Some(name) in TagNames(tags))
      ensures TracksLast(TagNames(tags), tagMap) && r.Some? ==> exists i :: LastNamed(TagNames(tags), name, i) && r == Some(tags[i])
    {
      ByNameLookup(tags, TagNames(tags), tagMap, name);
      ByName(tags, tagMap, name)
    }

    /**
     * `add_data`: appends the item at the end, leaving the earlier
     * ones in place; a named item is recorded in the map at the old length
     * (overwriting an earlier entry of that name), an unnamed one is not.
     */
    method AddData(x: DataSegment)
      requires Valid()
      modifies this`dataSegments, this`dataMap
      ensures Valid()
      ensures dataSegments == old(dataSegments) + [x]
      ensures dataMap == Record(old(dataMap), x.name, |old(dataSegments)|)
    {
      TracksLastAppend(DataNames(dataSegments), dataMap, x.name);
      assert DataNames(dataSegments + [x]) == DataNames(dataSegments) + [x.name];
      dataMap := Record(dataMap, x.name, |dataSegments|);
      dataSegments := dataSegments + [x];
    }

    /** `get_data_by_index`: the item at that position, if any. */
    function GetDataByIndex(i: nat): (r: Option<DataSegment>)
      reads this
      ensures r.Some? <==> i < |dataSegments|
      ensures r.Some? ==> r.value == dataSegments[i]
    {
      ByIndex(dataSegments, i)
    }

    /**
     * `get_data_by_name`: in a valid table, found exactly when some
     * item has that name, and then it is the last item with that name.
     */
    function GetDataByName(name: string): (r: Option<DataSegment>)
      reads this
      ensures TracksLast(DataNames(dataSegments), dataMap) ==> (r.Some? <==> Some(name) in DataNames(dataSegments))
      ensures TracksLast(DataNames(dataSegments), dataMap) && r.Some? ==> exists i :: LastNamed(DataNames(dataSegments), name, i) && r == Some(dataSegments[i])
    {
      ByNameLookup(dataSegments, DataNames(dataSegments), dataMap, name);
      ByName(dataSegments, dataMap, name)
    }

    /**
     * `add_elem`: appends the item at the end, leaving the earlier
     * ones in place; a named item is recorded in the map at the old length
     * (overwriting an earlier entry of that name), an unnamed one is not.
     */
    method AddElem(x: ElemSegment)
      requires Valid()
      modifies this`elemSegments, this`elemMap
      ensures Valid()
      ensures elemSegments == old(elemSegments) + [x]
      ensures elemMap == Record(old(elemMap), x.name, |old(elemSegments)|)
    {
      TracksLastAppend(ElemNames(elemSegments), elemMap, x.name);
      assert ElemNames(elemSegments + [x]) == ElemNames(elemSegments) + [x.name];
      elemMap := Record(elemMap, x.name, |elemSegments|);
      elemSegments := elemSegments + [x];
    }

    /** `get_elem_by_index`: the item at that position, if any. */
    function GetElemByIndex(i: nat): (r: Option<ElemSegment>)
      reads this
      ensures r.Some? <==> i < |elemSegments|
      ensures r.Some? ==> r.value == elemSegments[i]
    {
      ByIndex(elemSegments, i)
    }

    /**
     * `get_elem_by_name`: in a valid table, found exactly when some
     * item has that name, and then it is the last item with that name.
     */
    function GetElemByName(name: string): (r: Option<ElemSegment>)
      reads this
      ensures TracksLast(ElemNames(elemSegments), elemMap) ==> (r.Some? <==> Some(name) in ElemNames(elemSegments))
      ensures TracksLast(ElemNames(elemSegments), elemMap) && r.Some? ==> exists i :: LastNamed(ElemNames(elemSegments), name, i) && r == Some(elemSegments[i])
    {
      ByNameLookup(elemSegments, ElemNames(elemSegments), elemMap, name);
      ByName(elemSegments, elemMap, name)
    }
  }
}
