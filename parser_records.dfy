/**
 * The per-node record builders of the tree extractor (src/parser.rs): one
 * function per kind of module field, turning a field node into the record
 * the symbol table stores, plus the text scans of data and elem segments.
 */
module ParserRecords {
  import opened Wrappers
  import opened CoreTypes
  import opened Text
  import opened Tree
  import opened Symbols
  import opened ParserValues

  /** The name and name range a node declares through its first `identifier` child. */
  function NameOf(n: Node, src: string): (r: (Option<string>, Option<Range>))
    ensures r.0.Some? <==> FindIdentifierNode(n).Some?
    ensures r.0.Some? ==> r.0.value == NodeText(FindIdentifierNode(n).value, src)
                          && r.1 == Some(NodeToRange(FindIdentifierNode(n).value))
    ensures r.0.None? ==> r.1.None?
  {
    match FindIdentifierNode(n)
    case Some(id) => (Some(NodeText(id, src)), Some(NodeToRange(id)))
    case None => (None, None)
  }

  function LastValueTypeOr(xs: seq<Node>, src: string, d: ValueType): ValueType
  {
    match LastValueType(xs, src)
    case Some(t) => t
    case None => d
  }

  // ---------------------------------------------------------------------
  // Functions (parser.rs:176-246, 561-593)

  /** Parameters numbered 0, 1, 2, … by position. */
  predicate Contiguous(ps: seq<Parameter>)
  {
    forall i :: 0 <= i < |ps| ==> ps[i].index == i
  }

  /** Parameters re-numbered to follow `base` earlier ones. */
  function Rebase(ps: seq<Parameter>, base: nat): (r: seq<Parameter>)
    ensures |r| == |ps|
    ensures forall i :: 0 <= i < |r| ==> r[i] == ps[i].(index := ps[i].index + base)
  {
    seq(|ps|, i requires 0 <= i < |ps| => ps[i].(index := ps[i].index + base))
  }

  /** Appending re-based contiguous parameters keeps the list contiguous. */
  lemma RebaseContiguous(a: seq<Parameter>, b: seq<Parameter>)
    requires Contiguous(a) && Contiguous(b)
    ensures Contiguous(a + Rebase(b, |a|))
  {
  }

  datatype Signature = Signature(params: seq<Parameter>, results: seq<ValueType>)

  /**
   * The loop of `extract_imported_function` over the descriptor's
   * children: every `func_type` adds its own parameters and results; a
   * direct `func_type_params` or `func_type_results` child re-reads the
   * whole descriptor. Parameters taken in later are re-based so that the
   * numbering continues.
   */
  function ImportSignature(xs: seq<Node>, desc: Node, src: string, acc: Signature): (r: Signature)
    ensures Contiguous(acc.params) ==> Contiguous(r.params)
    ensures |r.params| >= |acc.params| && |r.results| >= |acc.results|
  {
    if xs == [] then acc
    else
      var c := xs[0];
      var next :=
        if c.kind == "func_type" then
          Signature(acc.params + Rebase(ParamsOf(c, src), |acc.params|), acc.results + ResultsOf(c.children, src))
        else if c.kind == "func_type_params" then
          Signature(acc.params + Rebase(ParamsOf(desc, src), |acc.params|), acc.results)
        else if c.kind == "func_type_results" then
          Signature(acc.params, acc.results + ResultsOf(desc.children, src))
        else acc;
      ImportSignature(xs[1..], desc, src, next)
  }

  /**
   * `extract_imported_function`: the parameters stay numbered 0, 1, 2, …
   * however many `func_type` children contribute them; an import has no
   * locals and no blocks.
   */
  function ImportedFunction(desc: Node, src: string, index: nat): (r: Function)
    ensures r.index == index && r.name == NameOf(desc, src).0 && r.range == NameOf(desc, src).1
    ensures Contiguous(r.parameters)
    ensures r.locals == [] && r.blocks == []
    ensures r.line == desc.startPoint.row && r.endLine == desc.endPoint.row
  {
    var sig := ImportSignature(desc.children, desc, src, Signature([], []));
    var params := if sig.params == [] then ParamsOf(desc, src) else sig.params;
    var results := if sig.results == [] then ResultsOf(desc.children, src) else sig.results;
    Function(NameOf(desc, src).0, index, params, results, [], [],
             desc.startPoint.row, desc.endPoint.row, desc.startByte, desc.endByte, NameOf(desc, src).1)
  }

  /**
   * `extract_function`: name, parameters, results, locals and labels of a
   * `module_field_func` node, with its row span and byte span.
   */
  function DefinedFunction(n: Node, src: string, index: nat): (r: Function)
    ensures r.index == index && r.name == NameOf(n, src).0 && r.range == NameOf(n, src).1
    ensures Contiguous(r.parameters)
    ensures forall i :: 0 <= i < |r.locals| ==> r.locals[i].index == i
    ensures r.blocks == LabelsOfNodes(PreOrder(n), src)
    ensures r.line == n.startPoint.row && r.endLine == n.endPoint.row
    ensures r.startByte == n.startByte && r.endByte == n.endByte
  {
    BlocksArePreOrderLabels(n, src);
    Function(NameOf(n, src).0, index, ParamsOf(n, src), ResultsOf(n.children, src), LocalsOf(n, src),
             BlocksOf(n, src), n.startPoint.row, n.endPoint.row, n.startByte, n.endByte, NameOf(n, src).1)
  }

  // ---------------------------------------------------------------------
  // Globals (parser.rs:249-291, 832-878)

  /** A `global_type_mut` child. */
  predicate HasMutChild(n: Node)
  {
    exists j :: 0 <= j < |n.children| && n.children[j].kind == "global_type_mut"
  }

  /** The loop over the children of one `global_type` node: (mutable, type). */
  function GlobalTypeFold(xs: seq<Node>, src: string, st: (bool, ValueType)): (r: (bool, ValueType))
  {
    if xs == [] then st
    else
      var c := xs[0];
      var next :=
        if c.kind == "global_type_mut" then (true, LastValueTypeOr(c.children, src, st.1))
        else if c.kind == "value_type" then (st.0, ValueTypeOf(c, src))
        else st;
      GlobalTypeFold(xs[1..], src, next)
  }

  /** The loop over the children of a global node. */
  function GlobalFold(xs: seq<Node>, src: string, st: (bool, ValueType)): (r: (bool, ValueType))
  {
    if xs == [] then st
    else GlobalFold(xs[1..], src, if xs[0].kind == "global_type" then GlobalTypeFold(xs[0].children, src, st) else st)
  }

  lemma {:induction false} GlobalTypeFoldMut(xs: seq<Node>, src: string, st: (bool, ValueType))
    ensures GlobalTypeFold(xs, src, st).0 <==> st.0 || exists j :: 0 <= j < |xs| && xs[j].kind == "global_type_mut"
  {
    if xs != [] {
      var c := xs[0];
      var next :=
        if c.kind == "global_type_mut" then (true, LastValueTypeOr(c.children, src, st.1))
        else if c.kind == "value_type" then (st.0, ValueTypeOf(c, src))
        else st;
      GlobalTypeFoldMut(xs[1..], src, next);
      if exists j :: 0 <= j < |xs[1..]| && xs[1..][j].kind == "global_type_mut" {
        var j :| 0 <= j < |xs[1..]| && xs[1..][j].kind == "global_type_mut";
        assert xs[j + 1].kind == "global_type_mut";
      }
      if exists j :: 0 <= j < |xs| && xs[j].kind == "global_type_mut" {
        var j :| 0 <= j < |xs| && xs[j].kind == "global_type_mut";
        if j > 0 { assert xs[1..][j - 1].kind == "global_type_mut"; }
      }
    }
  }

  lemma {:induction false} GlobalFoldMut(xs: seq<Node>, src: string, st: (bool, ValueType))
    ensures GlobalFold(xs, src, st).0 <==>
              st.0 || exists i :: 0 <= i < |xs| && xs[i].kind == "global_type" && HasMutChild(xs[i])
  {
    if xs != [] {
      var next := if xs[0].kind == "global_type" then GlobalTypeFold(xs[0].children, src, st) else st;
      if xs[0].kind == "global_type" {
        GlobalTypeFoldMut(xs[0].children, src, st);
      }
      GlobalFoldMut(xs[1..], src, next);
      if exists i :: 0 <= i < |xs[1..]| && xs[1..][i].kind == "global_type" && HasMutChild(xs[1..][i]) {
        var i :| 0 <= i < |xs[1..]| && xs[1..][i].kind == "global_type" && HasMutChild(xs[1..][i]);
        assert xs[i + 1] == xs[1..][i];
      }
      if exists i :: 0 <= i < |xs| && xs[i].kind == "global_type" && HasMutChild(xs[i]) {
        var i :| 0 <= i < |xs| && xs[i].kind == "global_type" && HasMutChild(xs[i]);
        if i > 0 { assert xs[1..][i - 1] == xs[i]; }
      }
    }
  }

  /**
   * `extract_global` and `extract_imported_global` (the two have the same
   * body): a global is mutable exactly when one of its `global_type`
   * children holds a `global_type_mut`; without a type it is `Unknown`.
   */
  function GlobalOf(n: Node, src: string, index: nat): (r: Global)
    ensures r.index == index && r.name == NameOf(n, src).0 && r.range == NameOf(n, src).1
    ensures r.isMutable <==>
              exists i :: 0 <= i < |n.children| && n.children[i].kind == "global_type" && HasMutChild(n.children[i])
    ensures r.initialValue.None? && r.line == n.startPoint.row
  {
    var st := GlobalFold(n.children, src, (false, Unknown));
    GlobalFoldMut(n.children, src, (false, Unknown));
    Global(NameOf(n, src).0, index, st.1, st.0, None, n.startPoint.row, NameOf(n, src).1)
  }

  // ---------------------------------------------------------------------
  // Tables and memories (parser.rs:294-393, 1303-1385, 1429-1502)

  datatype TableState = TableState(refType: ValueType, limits: Limits)

  /** The loop over the children of a `table_type` / `memory_type` node. */
  function LimitsTypeFold(xs: seq<Node>, src: string, withRef: bool, st: TableState): (r: TableState)
    ensures (forall i :: 0 <= i < |xs| ==> xs[i].kind != "limits" && xs[i].kind != "ref_type") ==> r == st
    ensures !withRef ==> r.refType == st.refType
  {
    if xs == [] then st
    else
      var c := xs[0];
      var next :=
        if c.kind == "limits" then st.(limits := ApplyLimits(st.limits, NatValues(c.children, src)))
        else if withRef && c.kind == "ref_type" then st.(refType := RefTypeOf(c, src))
        else st;
      LimitsTypeFold(xs[1..], src, withRef, next)
  }

  /** The `typeKind` children of a node, each read by `LimitsTypeFold`. */
  function TypeChildrenFold(xs: seq<Node>, src: string, typeKind: string, withRef: bool, st: TableState): (r: TableState)
    ensures (forall i :: 0 <= i < |xs| ==> xs[i].kind != typeKind) ==> r == st
    ensures !withRef ==> r.refType == st.refType
  {
    if xs == [] then st
    else
      var next := if xs[0].kind == typeKind then LimitsTypeFold(xs[0].children, src, withRef, st) else st;
      TypeChildrenFold(xs[1..], src, typeKind, withRef, next)
  }

  /** A defined table or memory: the type either under a `*_fields_type` wrapper or directly. */
  function WrappedTypeFold(xs: seq<Node>, src: string, wrapperKind: string, typeKind: string, withRef: bool, st: TableState)
    : (r: TableState)
    ensures (forall i :: 0 <= i < |xs| ==> xs[i].kind != wrapperKind && xs[i].kind != typeKind) ==> r == st
    ensures !withRef ==> r.refType == st.refType
  {
    if xs == [] then st
    else
      var c := xs[0];
      var next :=
        if c.kind == wrapperKind then TypeChildrenFold(c.children, src, typeKind, withRef, st)
        else if c.kind == typeKind then LimitsTypeFold(c.children, src, withRef, st)
        else st;
      WrappedTypeFold(xs[1..], src, wrapperKind, typeKind, withRef, next)
  }

  /** A defined table or memory without the wrapper reads like an imported one. */
  lemma {:induction false} UnwrappedReadsAsImported(xs: seq<Node>, src: string, wrapperKind: string, typeKind: string, withRef: bool, st: TableState)
    requires forall i :: 0 <= i < |xs| ==> xs[i].kind != wrapperKind
    ensures WrappedTypeFold(xs, src, wrapperKind, typeKind, withRef, st) == TypeChildrenFold(xs, src, typeKind, withRef, st)
  {
    if xs != [] {
      var next := if xs[0].kind == typeKind then LimitsTypeFold(xs[0].children, src, withRef, st) else st;
      UnwrappedReadsAsImported(xs[1..], src, wrapperKind, typeKind, withRef, next);
    }
  }

  /** A wrapper child reads like an imported descriptor holding the wrapper's children. */
  lemma WrapperReadsAsImported(w: Node, src: string, wrapperKind: string, typeKind: string, withRef: bool, st: TableState)
    requires w.kind == wrapperKind
    ensures WrappedTypeFold([w], src, wrapperKind, typeKind, withRef, st) == TypeChildrenFold(w.children, src, typeKind, withRef, st)
  {
  }

  /** The defaults of a table before its type is read. */
  const DefaultTable := TableState(Funcref, DefaultLimits)

  /** `extract_imported_table`: `table_type` children only; `funcref` and `(0, None)` by default. */
  function ImportedTable(desc: Node, src: string, index: nat): (r: Table)
    ensures r.index == index && r.name == NameOf(desc, src).0 && r.range == NameOf(desc, src).1
    ensures (forall i :: 0 <= i < |desc.children| ==> desc.children[i].kind != "table_type") ==>
              r.refType == Funcref && r.limits == Limits(0, None)
  {
    var st := TypeChildrenFold(desc.children, src, "table_type", true, DefaultTable);
    Table(NameOf(desc, src).0, index, st.refType, st.limits, desc.startPoint.row, NameOf(desc, src).1)
  }

  /** `extract_table`: the table type under `table_fields_type` or directly. */
  function DefinedTable(n: Node, src: string, index: nat): (r: Table)
    ensures r.index == index && r.name == NameOf(n, src).0 && r.range == NameOf(n, src).1
    ensures (forall i :: 0 <= i < |n.children| ==> n.children[i].kind != "table_type" && n.children[i].kind != "table_fields_type") ==>
              r.refType == Funcref && r.limits == Limits(0, None)
  {
    var st := WrappedTypeFold(n.children, src, "table_fields_type", "table_type", true, DefaultTable);
    Table(NameOf(n, src).0, index, st.refType, st.limits, n.startPoint.row, NameOf(n, src).1)
  }

  /** `extract_imported_memory`: the limits of its `memory_type` children, `(0, None)` by default. */
  function ImportedMemory(desc: Node, src: string, index: nat): (r: Memory)
    ensures r.index == index && r.name == NameOf(desc, src).0 && r.range == NameOf(desc, src).1
    ensures (forall i :: 0 <= i < |desc.children| ==> desc.children[i].kind != "memory_type") ==> r.limits == Limits(0, None)
  {
    var st := TypeChildrenFold(desc.children, src, "memory_type", false, DefaultTable);
    Memory(NameOf(desc, src).0, index, st.limits, desc.startPoint.row, NameOf(desc, src).1)
  }

  /** `extract_memory`: the memory type under `memory_fields_type` or directly. */
  function DefinedMemory(n: Node, src: string, index: nat): (r: Memory)
    ensures r.index == index && r.name == NameOf(n, src).0 && r.range == NameOf(n, src).1
    ensures (forall i :: 0 <= i < |n.children| ==> n.children[i].kind != "memory_type" && n.children[i].kind != "memory_fields_type") ==>
              r.limits == Limits(0, None)
  {
    var st := WrappedTypeFold(n.children, src, "memory_fields_type", "memory_type", false, DefaultTable);
    Memory(NameOf(n, src).0, index, st.limits, n.startPoint.row, NameOf(n, src).1)
  }

  // ---------------------------------------------------------------------
  // Tags (parser.rs:396-438, 1543-1584)

  /**
   * The value types of the members of one `func_type_params` node; a
   * direct `value_type` member counts only when `direct` holds (imported
   * tags read it, defined tags do not).
   */
  function TagMemberTypes(xs: seq<Node>, src: string, direct: bool): seq<ValueType>
  {
    if xs == [] then []
    else
      var c := xs[0];
      (if c.kind == "func_type_params_one" || c.kind == "func_type_params_many" then ValueTypesOf(c.children, src)
       else if direct && c.kind == "value_type" then [ValueTypeOf(c, src)]
       else [])
      + TagMemberTypes(xs[1..], src, direct)
  }

  function TagParams(xs: seq<Node>, src: string, direct: bool): seq<ValueType>
  {
    if xs == [] then []
    else (if xs[0].kind == "func_type_params" then TagMemberTypes(xs[0].children, src, direct) else [])
         + TagParams(xs[1..], src, direct)
  }

  /** A `func_type_params` node with a direct `value_type` member. */
  predicate HasDirectValueType(n: Node)
  {
    exists j :: 0 <= j < |n.children| && n.children[j].kind == "value_type"
  }

  lemma {:induction false} TagMemberTypesAgree(xs: seq<Node>, src: string)
    requires forall j :: 0 <= j < |xs| ==> xs[j].kind != "value_type"
    ensures TagMemberTypes(xs, src, true) == TagMemberTypes(xs, src, false)
  {
    if xs != [] {
      assert xs[0].kind != "value_type";
      TagMemberTypesAgree(xs[1..], src);
    }
  }

  /**
   * Imported and defined tags read the same parameter types unless a
   * `func_type_params` node holds a value type directly.
   */
  lemma {:induction false} TagParamsAgree(xs: seq<Node>, src: string)
    requires forall i :: 0 <= i < |xs| && xs[i].kind == "func_type_params" ==> !HasDirectValueType(xs[i])
    ensures TagParams(xs, src, true) == TagParams(xs, src, false)
  {
    if xs != [] {
      if xs[0].kind == "func_type_params" {
        assert !HasDirectValueType(xs[0]);
        TagMemberTypesAgree(xs[0].children, src);
      }
      TagParamsAgree(xs[1..], src);
    }
  }

  /** `extract_imported_tag`. */
  function ImportedTag(desc: Node, src: string, index: nat): (r: Tag)
    ensures r.index == index && r.name == NameOf(desc, src).0 && r.range == NameOf(desc, src).1
    ensures r.params == TagParams(desc.children, src, true)
  {
    Tag(NameOf(desc, src).0, index, TagParams(desc.children, src, true), desc.startPoint.row, NameOf(desc, src).1)
  }

  /** `extract_tag`. */
  function DefinedTag(n: Node, src: string, index: nat): (r: Tag)
    ensures r.index == index && r.name == NameOf(n, src).0 && r.range == NameOf(n, src).1
    ensures r.params == TagParams(n.children, src, false)
  {
    Tag(NameOf(n, src).0, index, TagParams(n.children, src, false), n.startPoint.row, NameOf(n, src).1)
  }

  // ---------------------------------------------------------------------
  // Type definitions (parser.rs:992-1261)

  /** The text test the extractor uses for a mutable field. */
  predicate HasMutText(f: Node, src: string)
  {
    Contains(NodeText(f, src), "(mut") || Contains(NodeText(f, src), " mut ")
  }

  /** A `mut` child (read only for struct fields inside a `type_field`). */
  predicate HasMutKeyword(f: Node)
  {
    exists j :: 0 <= j < |f.children| && f.children[j].kind == "mut"
  }

  /**
   * One `field_type`: its last identifier, its last value type (`Unknown`
   * without one), and whether its text or (when `mutKind`) a `mut` child
   * marks it mutable.
   */
  function FieldOf(f: Node, src: string, mutKind: bool): (r: StructField)
    ensures r.mutable <==> HasMutText(f, src) || (mutKind && HasMutKeyword(f))
    ensures r.name.Some? <==> exists j :: 0 <= j < |f.children| && f.children[j].kind == "identifier"
  {
    var id := LastIdentifier(f.children, src);
    StructField(if id.Some? then Some(id.value.0) else None, LastValueTypeOr(f.children, src, Unknown),
                HasMutText(f, src) || (mutKind && HasMutKeyword(f)))
  }

  /** The fields of a struct type: one per `field_type` child, in order. */
  function StructFields(xs: seq<Node>, src: string, mutKind: bool): (r: seq<StructField>)
    ensures |r| == |ChildrenOfKind(xs, "field_type")|
  {
    if xs == [] then []
    else (if xs[0].kind == "field_type" then [FieldOf(xs[0], src, mutKind)] else []) + StructFields(xs[1..], src, mutKind)
  }

  /**
   * The array of `extract_type`: the element type is the last value type
   * of any field, and the array is mutable if any field is.
   */
  function ArrayAccum(xs: seq<Node>, src: string, st: (ValueType, bool)): (r: (ValueType, bool))
    ensures r.1 <==> st.1 || exists i :: 0 <= i < |xs| && xs[i].kind == "field_type" && HasMutText(xs[i], src)
  {
    if xs == [] then st
    else
      var next := if xs[0].kind == "field_type" then (LastValueTypeOr(xs[0].children, src, st.0), st.1 || HasMutText(xs[0], src)) else st;
      var r := ArrayAccum(xs[1..], src, next);
      assert forall i :: 0 < i < |xs| ==> xs[1..][i - 1] == xs[i];
      r
  }

  /** The array of `extract_type_from_single_node`: the last field alone decides. */
  function ArrayLastField(xs: seq<Node>, src: string, st: (ValueType, bool)): (r: (ValueType, bool))
    ensures (forall i :: 0 <= i < |xs| ==> xs[i].kind != "field_type") ==> r == st
  {
    if xs == [] then st
    else
      var next := if xs[0].kind == "field_type" then (FieldOf(xs[0], src, false).fieldType, FieldOf(xs[0], src, false).mutable) else st;
      ArrayLastField(xs[1..], src, next)
  }

  function ParamTypes(ps: seq<Parameter>): (r: seq<ValueType>)
    ensures |r| == |ps| && forall i :: 0 <= i < |ps| ==> r[i] == ps[i].paramType
  {
    seq(|ps|, i requires 0 <= i < |ps| => ps[i].paramType)
  }

  /** The state of the loop of `extract_type`. */
  datatype TypeState = TypeState(params: seq<ValueType>, results: seq<ValueType>, kind: TypeKind)

  /** The loop over the children of a `type_field`. */
  function TypeFieldFold(xs: seq<Node>, src: string, st: TypeState): (r: TypeState)
    ensures |r.params| >= |st.params| && |r.results| >= |st.results|
  {
    if xs == [] then st
    else
      var c := xs[0];
      var next :=
        if c.kind == "func_type" then
          st.(params := st.params + ParamTypes(ParamsOf(c, src)), results := st.results + ResultsOf(c.children, src))
        else if c.kind == "struct_type" then st.(kind := Struct(StructFields(c.children, src, true)))
        else if c.kind == "array_type" then
          var a := ArrayAccum(c.children, src, (Unknown, false)); st.(kind := Array(a.0, a.1))
        else st;
      TypeFieldFold(xs[1..], src, next)
  }

  /** The loop over the children of a `module_field_type`. */
  function TypeFold(xs: seq<Node>, src: string, st: TypeState): (r: TypeState)
    ensures |r.params| >= |st.params| && |r.results| >= |st.results|
  {
    if xs == [] then st
    else
      var c := xs[0];
      var next :=
        if c.kind == "struct_type" then st.(kind := Struct(StructFields(c.children, src, false)))
        else if c.kind == "array_type" then
          var a := ArrayAccum(c.children, src, (Unknown, false)); st.(kind := Array(a.0, a.1))
        else if c.kind == "type_field" then TypeFieldFold(c.children, src, st)
        else st;
      TypeFold(xs[1..], src, next)
  }

  /** No struct or array part anywhere in a `type_field`. */
  predicate NoCompositePart(xs: seq<Node>)
  {
    forall i :: 0 <= i < |xs| ==> xs[i].kind != "struct_type" && xs[i].kind != "array_type"
  }

  lemma {:induction false} TypeFieldFoldKeepsFunc(xs: seq<Node>, src: string, st: TypeState)
    requires NoCompositePart(xs) && st.kind.Func?
    ensures TypeFieldFold(xs, src, st).kind.Func?
  {
    if xs != [] {
      var c := xs[0];
      var next :=
        if c.kind == "func_type" then
          st.(params := st.params + ParamTypes(ParamsOf(c, src)), results := st.results + ResultsOf(c.children, src))
        else st;
      TypeFieldFoldKeepsFunc(xs[1..], src, next);
    }
  }

  lemma {:induction false} TypeFoldKeepsFunc(xs: seq<Node>, src: string, st: TypeState)
    ensures NoCompositePart(xs) && st.kind.Func?
            && (forall i :: 0 <= i < |xs| && xs[i].kind == "type_field" ==> NoCompositePart(xs[i].children))
            ==> TypeFold(xs, src, st).kind.Func?
  {
    if xs != [] && NoCompositePart(xs) && st.kind.Func?
       && (forall i :: 0 <= i < |xs| && xs[i].kind == "type_field" ==> NoCompositePart(xs[i].children)) {
      var c := xs[0];
      var next := if c.kind == "type_field" then TypeFieldFold(c.children, src, st) else st;
      if c.kind == "type_field" {
        TypeFieldFoldKeepsFunc(c.children, src, st);
      }
      TypeFoldKeepsFunc(xs[1..], src, next);
    }
  }

  /**
   * `extract_type`: a `(type …)` definition. Parameters or results seen
   * anywhere make it a function type, whatever struct or array part was
   * also seen; without either, the last struct or array part decides, and
   * a definition with none of them is the empty function type.
   */
  function TypeOf(n: Node, src: string, index: nat): (r: TypeDef)
    ensures r.index == index && r.name == NameOf(n, src).0 && r.range == NameOf(n, src).1
    ensures var st := TypeFold(n.children, src, TypeState([], [], Func([], [])));
            (st.params != [] || st.results != []) ==> r.kind == Func(st.params, st.results)
    ensures NoCompositePart(n.children)
            && (forall i :: 0 <= i < |n.children| && n.children[i].kind == "type_field" ==> NoCompositePart(n.children[i].children))
            ==> r.kind.Func?
  {
    var st := TypeFold(n.children, src, TypeState([], [], Func([], [])));
    TypeFoldKeepsFunc(n.children, src, TypeState([], [], Func([], [])));
    var kind := if st.params != [] || st.results != [] then Func(st.params, st.results) else st.kind;
    TypeDef(NameOf(n, src).0, index, kind, n.startPoint.row, NameOf(n, src).1)
  }

  /** Parameter types and results of every `func_type` child, in order. */
  function FuncTypeParts(xs: seq<Node>, src: string): (seq<ValueType>, seq<ValueType>)
  {
    if xs == [] then ([], [])
    else
      var rest := FuncTypeParts(xs[1..], src);
      if xs[0].kind == "func_type" then (ParamTypes(ParamsOf(xs[0], src)) + rest.0, ResultsOf(xs[0].children, src) + rest.1)
      else rest
  }

  /**
   * `extract_type_from_single_node`: a struct, array or function type
   * node inside a `rec` group; any other kind gives nothing. (For a
   * `type_field` the source keeps its empty default when no parameter or
   * result is found, which is the same function type.)
   */
  function TypeFromSingleNode(t: Node, src: string, index: nat, name: Option<string>, range: Option<Range>)
    : (r: Option<TypeDef>)
    ensures r.Some? <==> t.kind in {"struct_type", "array_type", "type_field"}
    ensures r.Some? ==> r.value.index == index && r.value.name == name && r.value.range == range
    ensures r.Some? ==> (r.value.kind.Struct? <==> t.kind == "struct_type")
                        && (r.value.kind.Array? <==> t.kind == "array_type")
                        && (r.value.kind.Func? <==> t.kind == "type_field")
  {
    if t.kind == "struct_type" then
      Some(TypeDef(name, index, Struct(StructFields(t.children, src, false)), t.startPoint.row, range))
    else if t.kind == "array_type" then
      var a := ArrayLastField(t.children, src, (Unknown, false));
      Some(TypeDef(name, index, Array(a.0, a.1), t.startPoint.row, range))
    else if t.kind == "type_field" then
      var parts := FuncTypeParts(t.children, src);
      Some(TypeDef(name, index, Func(parts.0, parts.1), t.startPoint.row, range))
    else None
  }

  // ---------------------------------------------------------------------
  // Data and elem segments (parser.rs:1820-1974)

  /**
   * `find_identifier_in_data_or_elem`: the first child that is an
   * identifier or an `index` holding one, in order.
   */
  function IdentifierInDataOrElem(xs: seq<Node>, src: string): (r: (Option<string>, Option<Range>))
    ensures r.0.None? <==> r.1.None?
    ensures (forall i :: 0 <= i < |xs| ==> xs[i].kind != "identifier" && xs[i].kind != "index") ==> r.0.None?
  {
    if xs == [] then (None, None)
    else if xs[0].kind == "identifier" then (Some(NodeText(xs[0], src)), Some(NodeToRange(xs[0])))
    else if xs[0].kind == "index" && FindIdentifierNode(xs[0]).Some? then
      var id := FindIdentifierNode(xs[0]).value; (Some(NodeText(id, src)), Some(NodeToRange(id)))
    else IdentifierInDataOrElem(xs[1..], src)
  }

  /** The state of the character scan over a data segment's text. */
  datatype ScanState = ScanState(inString: bool, escapeNext: bool, content: string, byteLength: nat)

  /** One character of the scan. */
  function ScanStep(st: ScanState, c: char): ScanState
  {
    if st.escapeNext then ScanState(st.inString, false, st.content + [c], st.byteLength + 1)
    else if c == '\\' && st.inString then ScanState(st.inString, true, st.content + [c], st.byteLength)
    else if c == '"' then st.(inString := !st.inString)
    else if st.inString then st.(content := st.content + [c], byteLength := st.byteLength + 1)
    else st
  }

  /** The scan over a text, one character at a time. */
  function Scan(text: string): ScanState
  {
    if text == [] then ScanState(false, false, "", 0)
    else ScanStep(Scan(text[..|text| - 1]), text[|text| - 1])
  }

  /** The content and byte length the extractor reads from a data segment's text. */
  method ScanDataString(text: string) returns (content: string, byteLength: nat)
    ensures content == Scan(text).content && byteLength == Scan(text).byteLength
  {
    var inString := false;
    var escapeNext := false;
    content, byteLength := "", 0;
    var i := 0;
    while i < |text|
      invariant 0 <= i <= |text|
      invariant Scan(text[..i]) == ScanState(inString, escapeNext, content, byteLength)
    {
      var c := text[i];
      assert text[..i + 1][..i] == text[..i];
      if escapeNext {
        content := content + [c];
        byteLength := byteLength + 1;
        escapeNext := false;
      } else if c == '\\' && inString {
        escapeNext := true;
        content := content + [c];
      } else if c == '"' {
        inString := !inString;
      } else if inString {
        content := content + [c];
        byteLength := byteLength + 1;
      }
      i := i + 1;
    }
    assert text[..i] == text;
  }

  /** Without a backslash every kept character is counted. */
  lemma {:induction false} ScanCountsEveryCharWithoutEscapes(text: string)
    requires '\\' !in text
    ensures Scan(text).byteLength == |Scan(text).content| && !Scan(text).escapeNext
  {
    if text != [] {
      assert text[..|text| - 1][..] == text[..|text| - 1];
      assert forall c :: c in text[..|text| - 1] ==> c in text;
      ScanCountsEveryCharWithoutEscapes(text[..|text| - 1]);
    }
  }

  /** A backslash is kept but never counted, so the count never exceeds the content. */
  lemma {:induction false} ScanCountBounded(text: string)
    ensures Scan(text).byteLength <= |Scan(text).content|
  {
    if text != [] {
      ScanCountBounded(text[..|text| - 1]);
    }
  }

  /** Text outside any quote contributes nothing. */
  lemma {:induction false} ScanUnquoted(text: string, st: ScanState)
    requires '"' !in text && '\\' !in text
    ensures Scan(text) == ScanState(false, false, "", 0)
  {
    if text != [] {
      assert forall c :: c in text[..|text| - 1] ==> c in text;
      ScanUnquoted(text[..|text| - 1], st);
    }
  }

  /**
   * `extract_data_segment`: the characters read inside quotes, their
   * count, and passivity, which holds exactly for a named segment.
   */
  function DataSegmentOf(n: Node, src: string, index: nat): (d: DataSegment)
    ensures d.index == index && (d.name, d.range) == IdentifierInDataOrElem(n.children, src)
    ensures d.isPassive <==> d.name.Some?
    ensures d.byteLength <= |d.content|
  {
    var nm := IdentifierInDataOrElem(n.children, src);
    var st := Scan(NodeText(n, src));
    ScanCountBounded(NodeText(n, src));
    DataSegment(nm.0, index, st.content, st.byteLength, nm.0.Some?, n.startPoint.row, nm.1)
  }

  /** The same, with the character scan as the loop the source runs. */
  method ExtractDataSegment(n: Node, src: string, index: nat) returns (d: DataSegment)
    ensures d == DataSegmentOf(n, src, index)
  {
    var nm := IdentifierInDataOrElem(n.children, src);
    var content, byteLength := ScanDataString(NodeText(n, src));
    d := DataSegment(nm.0, index, content, byteLength, nm.0.Some?, n.startPoint.row, nm.1);
  }

  /** The characters an elem segment name may hold after its `$`. */
  predicate IsElemNameChar(c: char) { IsAlnum(c) || c == '_' || c == '-' }

  /** The end of the name starting with the `$` at `start`: the first later non-name character, or the end. */
  function NameEnd(s: string, start: nat): (r: nat)
    requires start < |s|
    ensures start < r <= |s|
    ensures forall k :: start < k < r ==> IsElemNameChar(s[k])
    ensures r < |s| ==> !IsElemNameChar(s[r])
    decreases |s| - start
  {
    if start + 1 == |s| then |s|
    else if !IsElemNameChar(s[start + 1]) then start + 1
    else NameEnd(s, start + 1)
  }

  /** A `$` followed by its maximal run of name characters. */
  predicate IsDollarName(n: string)
  {
    |n| >= 1 && n[0] == '$' && forall k :: 1 <= k < |n| ==> IsElemNameChar(n[k])
  }

  /** The `$name`s of a text, left to right, each cut at its first non-name character. */
  function DollarNames(s: string): (r: seq<string>)
    ensures forall i :: 0 <= i < |r| ==> IsDollarName(r[i])
    ensures '$' !in s ==> r == []
    decreases |s|
  {
    match FindChar(s, '$')
    case None => []
    case Some(d) =>
      var e := NameEnd(s, d);
      [s[d..e]] + DollarNames(s[e..])
  }

  /** The `while let Some(dollar_pos) = remaining.find('$')` loop of `extract_elem_segment`. */
  method ScanFuncNames(afterFunc: string) returns (names: seq<string>)
    ensures names == DollarNames(afterFunc)
  {
    names := [];
    var remaining := afterFunc;
    while FindChar(remaining, '$').Some?
      invariant names + DollarNames(remaining) == DollarNames(afterFunc)
      decreases |remaining|
    {
      var d := FindChar(remaining, '$').value;
      var e := NameEnd(remaining, d);
      names := names + [remaining[d..e]];
      remaining := remaining[e..];
    }
  }

  /** The table an elem segment names after `(table `: from its `$` up to the end of the name. */
  function ElemTableName(text: string): (r: Option<string>)
    ensures r.Some? ==> IsDollarName(r.value)
    ensures !Contains(text, "(table ") ==> r.None?
  {
    match Find(text, "(table ")
    case None => None
    case Some(p) =>
      var after := text[p + 7..];
      match FindChar(after, '$')
      case None => None
      case Some(d) => Some(after[d..NameEnd(after, d)])
  }

  /** The text after the first ` func `, where the function names are read. */
  function AfterFuncKeyword(text: string): Option<string>
  {
    match Find(text, " func ")
    case None => None
    case Some(p) => Some(text[p + 6..])
  }

  /**
   * `extract_elem_segment`: every function name is a `$` name read after
   * ` func `; without that keyword there are none.
   */
  function ElemSegmentOf(n: Node, src: string, index: nat): (e: ElemSegment)
    ensures e.index == index && (e.name, e.range) == IdentifierInDataOrElem(n.children, src)
    ensures e.tableName == ElemTableName(NodeText(n, src))
    ensures AfterFuncKeyword(NodeText(n, src)).None? ==> e.funcNames == []
    ensures forall i :: 0 <= i < |e.funcNames| ==> IsDollarName(e.funcNames[i])
  {
    var nm := IdentifierInDataOrElem(n.children, src);
    var text := NodeText(n, src);
    var funcNames := match AfterFuncKeyword(text) case Some(after) => DollarNames(after) case None => [];
    ElemSegment(nm.0, index, funcNames, ElemTableName(text), n.startPoint.row, nm.1)
  }

  /** The same, with the name scan as the loop the source runs. */
  method ExtractElemSegment(n: Node, src: string, index: nat) returns (e: ElemSegment)
    ensures e == ElemSegmentOf(n, src, index)
  {
    var nm := IdentifierInDataOrElem(n.children, src);
    var text := NodeText(n, src);
    var funcNames: seq<string> := [];
    var after := AfterFuncKeyword(text);
    if after.Some? {
      funcNames := ScanFuncNames(after.value);
    }
    e := ElemSegment(nm.0, index, funcNames, ElemTableName(text), n.startPoint.row, nm.1);
  }
}
