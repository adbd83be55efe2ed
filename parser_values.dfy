/**
 * The small readers of the tree extractor (src/parser.rs): value types,
 * reference types, result lists, parameter and local declarations, block
 * labels and limits.
 */
module ParserValues {
  import opened Wrappers
  import opened CoreTypes
  import opened Text
  import opened Tree
  import opened Symbols

  /** The seventeen type keywords `simple_type_from_str` knows. */
  const TypeKeywords: set<string> := {
    "i32", "i64", "f32", "f64", "v128", "i8", "i16", "funcref", "externref",
    "structref", "arrayref", "i31ref", "anyref", "eqref", "nullref",
    "nullfuncref", "nullexternref"}

  /** `simple_type_from_str`: a keyword never reads as `Unknown`. */
  function SimpleTypeFromStr(s: string): (r: Option<ValueType>)
    ensures r.Some? ==> r.value != Unknown
  {
    match s
    case "i32" => Some(I32)
    case "i64" => Some(I64)
    case "f32" => Some(F32)
    case "f64" => Some(F64)
    case "v128" => Some(V128)
    case "i8" => Some(I8)
    case "i16" => Some(I16)
    case "funcref" => Some(Funcref)
    case "externref" => Some(Externref)
    case "structref" => Some(Structref)
    case "arrayref" => Some(Arrayref)
    case "i31ref" => Some(I31ref)
    case "anyref" => Some(Anyref)
    case "eqref" => Some(Eqref)
    case "nullref" => Some(Nullref)
    case "nullfuncref" => Some(NullFuncref)
    case "nullexternref" => Some(NullExternref)
    case _ => None
  }

  /**
   * `simple_type_from_str` is defined exactly on the seventeen keywords,
   * and the type found prints back as the keyword.
   */
  lemma SimpleTypeFromStrKeywords(s: string)
    ensures SimpleTypeFromStr(s).Some? <==> s in TypeKeywords
    ensures SimpleTypeFromStr(s).Some? ==> ToStr(SimpleTypeFromStr(s).value) == s
  {
  }

  /** Every keyword type is found again from its printed text. */
  lemma SimpleTypeFromToStr(v: ValueType)
    requires !v.Unknown? && !v.Ref? && !v.RefNull?
    ensures SimpleTypeFromStr(ToStr(v)) == Some(v)
  {
  }

  /** `ref_type_concrete`: the last `index` child whose text is a u32 (parser.rs:1716-1740). */
  function LastParsedIndex(xs: seq<Node>, src: string): (r: Option<nat>)
    ensures r.Some? ==> exists i :: 0 <= i < |xs| && xs[i].kind == "index" && ParseU32(NodeText(xs[i], src)) == r
    ensures r.None? <==> forall i :: 0 <= i < |xs| && xs[i].kind == "index" ==> ParseU32(NodeText(xs[i], src)).None?
  {
    if xs == [] then None
    else
      var last := xs[|xs| - 1];
      if last.kind == "index" && ParseU32(NodeText(last, src)).Some? then ParseU32(NodeText(last, src))
      else
        var r := LastParsedIndex(xs[..|xs| - 1], src);
        assert forall i :: 0 <= i < |xs| - 1 ==> xs[..|xs| - 1][i] == xs[i];
        r
  }

  /** A child that is the `null` keyword, by kind or by text (parser.rs:1741-1747). */
  predicate HasNullMarker(xs: seq<Node>, src: string)
  {
    exists i :: 0 <= i < |xs| && xs[i].kind != "index" && (xs[i].kind == "null" || NodeText(xs[i], src) == "null")
  }

  /**
   * `(ref null? $t)`: a numeric type index gives `Ref`, or `RefNull` when a
   * `null` marker is present; a symbolic index falls back to `Structref`.
   */
  function ConcreteRefType(c: Node, src: string): (r: ValueType)
    ensures (r.Ref? || r.RefNull?) ==>
              exists i :: 0 <= i < |c.children| && c.children[i].kind == "index"
                          && ParseU32(NodeText(c.children[i], src)) == Some(r.typeIndex)
    ensures r.RefNull? ==> HasNullMarker(c.children, src)
    ensures r.Ref? ==> !HasNullMarker(c.children, src)
    ensures r == Structref <==>
              forall i :: 0 <= i < |c.children| && c.children[i].kind == "index" ==> ParseU32(NodeText(c.children[i], src)).None?
    ensures r.Ref? || r.RefNull? || r == Structref
  {
    match LastParsedIndex(c.children, src)
    case Some(i) => if HasNullMarker(c.children, src) then RefNull(i) else Ref(i)
    case None => Structref
  }

  /** The first loop of `extract_ref_type` over the children (parser.rs:1704-1768). */
  function RefTypeFromChildren(xs: seq<Node>, src: string): (r: Option<ValueType>)
    ensures r.Some? ==> r.value != Unknown
  {
    if xs == [] then None
    else
      var c := xs[0];
      if c.kind == "ref_type_funcref" then Some(Funcref)
      else if c.kind == "ref_type_externref" then Some(Externref)
      else if c.kind == "ref_type_concrete" then Some(ConcreteRefType(c, src))
      else if c.kind == "ref_type_ref" then Some(Structref)
      else if SimpleTypeFromStr(NodeText(c, src)).Some? then SimpleTypeFromStr(NodeText(c, src))
      else RefTypeFromChildren(xs[1..], src)
  }

  /** The second loop of `extract_ref_type`: the first child whose text is a type keyword. */
  function KeywordChild(xs: seq<Node>, src: string): Option<ValueType>
  {
    if xs == [] then None
    else if SimpleTypeFromStr(NodeText(xs[0], src)).Some? then SimpleTypeFromStr(NodeText(xs[0], src))
    else KeywordChild(xs[1..], src)
  }

  /** Whenever the first loop finds nothing, the second finds nothing either. */
  lemma {:induction false} KeywordChildAfterFirstScan(xs: seq<Node>, src: string)
    requires RefTypeFromChildren(xs, src).None?
    ensures KeywordChild(xs, src).None?
  {
    if xs != [] {
      KeywordChildAfterFirstScan(xs[1..], src);
    }
  }

  /**
   * `extract_ref_type`: a keyword text decides first, then the children;
   * when neither decides the result is `Funcref` (the second scan over the
   * children never adds anything).
   */
  function RefTypeOf(n: Node, src: string): (r: ValueType)
    ensures r != Unknown
    ensures SimpleTypeFromStr(NodeText(n, src)).Some? ==> r == SimpleTypeFromStr(NodeText(n, src)).value
    ensures SimpleTypeFromStr(NodeText(n, src)).None? && RefTypeFromChildren(n.children, src).None? ==> r == Funcref
  {
    match SimpleTypeFromStr(NodeText(n, src))
    case Some(v) => v
    case None =>
      match RefTypeFromChildren(n.children, src)
      case Some(v) => v
      case None =>
        KeywordChildAfterFirstScan(n.children, src);
        match KeywordChild(n.children, src)
        case Some(v) => v
        case None => Funcref
  }

  /** The children of a `value_type_num_type` node (parser.rs:1632-1651). */
  function NumTypeFromChildren(xs: seq<Node>, src: string): (r: Option<ValueType>)
    ensures r.Some? ==> r.value != Unknown
  {
    if xs == [] then None
    else
      var k := xs[0].kind;
      if k == "num_type_i32" then Some(I32)
      else if k == "num_type_i64" then Some(I64)
      else if k == "num_type_f32" then Some(F32)
      else if k == "num_type_f64" then Some(F64)
      else if k == "num_type_v128" then Some(V128)
      else if NodeText(xs[0], src) == "i8" then Some(I8)
      else if NodeText(xs[0], src) == "i16" then Some(I16)
      else NumTypeFromChildren(xs[1..], src)
  }

  /** The first child of a `value_type` node that decides its type (parser.rs:1616-1668). */
  function ValueTypeFromChildren(xs: seq<Node>, src: string): (r: Option<ValueType>)
    ensures r.Some? ==> r.value != Unknown
  {
    if xs == [] then None
    else
      var c := xs[0];
      var here :=
        if c.kind == "value_type_num_type" then
          (if NodeText(c, src) == "i8" then Some(I8)
           else if NodeText(c, src) == "i16" then Some(I16)
           else NumTypeFromChildren(c.children, src))
        else if c.kind == "value_type_ref_type" || c.kind == "ref_type" then Some(RefTypeOf(c, src))
        else SimpleTypeFromStr(NodeText(c, src));
      if here.Some? then here else ValueTypeFromChildren(xs[1..], src)
  }

  /**
   * `extract_value_type`: a keyword text is its own type; otherwise the
   * children decide; a node nothing recognises is `Unknown`.
   */
  function ValueTypeOf(n: Node, src: string): ValueType
  {
    match SimpleTypeFromStr(NodeText(n, src))
    case Some(v) => v
    case None =>
      match ValueTypeFromChildren(n.children, src)
      case Some(v) => v
      case None => Unknown
  }

  /**
   * A keyword text reads as the type that prints as it; a node reads as
   * `Unknown` only when its text is no keyword and no child decides.
   */
  lemma ValueTypeOfDecides(n: Node, src: string)
    ensures NodeText(n, src) in TypeKeywords ==> ToStr(ValueTypeOf(n, src)) == NodeText(n, src)
    ensures ValueTypeOf(n, src) == Unknown <==> NodeText(n, src) !in TypeKeywords && ValueTypeFromChildren(n.children, src).None?
  {
    SimpleTypeFromStrKeywords(NodeText(n, src));
  }

  /** The types of the `value_type` children, in order. */
  function ValueTypesOf(xs: seq<Node>, src: string): (r: seq<ValueType>)
    ensures |r| == |ChildrenOfKind(xs, "value_type")|
  {
    if xs == [] then []
    else (if xs[0].kind == "value_type" then [ValueTypeOf(xs[0], src)] else []) + ValueTypesOf(xs[1..], src)
  }

  /** `extract_results`: the value types inside every `func_type_results` child, in order. */
  function ResultsOf(xs: seq<Node>, src: string): (r: seq<ValueType>)
    ensures (forall c :: c in xs ==> c.kind != "func_type_results") ==> r == []
  {
    if xs == [] then []
    else (if xs[0].kind == "func_type_results" then ValueTypesOf(xs[0].children, src) else []) + ResultsOf(xs[1..], src)
  }

  // ---------------------------------------------------------------------
  // Parameter and local declarations (parser.rs:596-652, 675-734)

  /** A declared parameter or local before it is numbered. */
  datatype Decl = Decl(name: Option<string>, declType: ValueType, range: Option<Range>)

  /** The text and range of the last `identifier` child. */
  function LastIdentifier(xs: seq<Node>, src: string): (r: Option<(string, Range)>)
    ensures r.None? <==> forall i :: 0 <= i < |xs| ==> xs[i].kind != "identifier"
  {
    if xs == [] then None
    else if xs[|xs| - 1].kind == "identifier" then Some((NodeText(xs[|xs| - 1], src), NodeToRange(xs[|xs| - 1])))
    else
      var r := LastIdentifier(xs[..|xs| - 1], src);
      assert forall i :: 0 <= i < |xs| - 1 ==> xs[..|xs| - 1][i] == xs[i];
      r
  }

  /** The type of the last `value_type` child. */
  function LastValueType(xs: seq<Node>, src: string): (r: Option<ValueType>)
    ensures r.None? <==> forall i :: 0 <= i < |xs| ==> xs[i].kind != "value_type"
  {
    if xs == [] then None
    else if xs[|xs| - 1].kind == "value_type" then Some(ValueTypeOf(xs[|xs| - 1], src))
    else
      var r := LastValueType(xs[..|xs| - 1], src);
      assert forall i :: 0 <= i < |xs| - 1 ==> xs[..|xs| - 1][i] == xs[i];
      r
  }

  /**
   * `(param $x t)` / `(local $x t)`: the last identifier and the last value
   * type; without a value type the declaration is dropped.
   */
  function OneDecl(c: Node, src: string): (r: Option<Decl>)
    ensures r.None? <==> forall i :: 0 <= i < |c.children| ==> c.children[i].kind != "value_type"
    ensures r.Some? ==> r.value.declType == LastValueType(c.children, src).value
  {
    match LastValueType(c.children, src)
    case None => None
    case Some(t) =>
      var id := LastIdentifier(c.children, src);
      Some(Decl(if id.Some? then Some(id.value.0) else None, t, if id.Some? then Some(id.value.1) else None))
  }

  /** `(param t t …)` / `(local t t …)`: one unnamed declaration per value type (prefix of the children). */
  function ManyDecls(xs: seq<Node>, src: string): (r: seq<Decl>)
    ensures forall i :: 0 <= i < |r| ==> r[i].name.None? && r[i].range.None?
  {
    if xs == [] then []
    else
      var last := xs[|xs| - 1];
      ManyDecls(xs[..|xs| - 1], src)
      + (if last.kind == "value_type" then [Decl(None, ValueTypeOf(last, src), None)] else [])
  }

  /** The declarations one child of a `func_type_params`/`func_locals` group contributes. */
  function MemberDecls(c: Node, src: string, oneKind: string, manyKind: string): seq<Decl>
  {
    if c.kind == oneKind then (match OneDecl(c, src) case Some(d) => [d] case None => [])
    else if c.kind == manyKind then ManyDecls(c.children, src)
    else []
  }

  /** The declarations of the members of a group (prefix of its children). */
  function GroupDecls(xs: seq<Node>, src: string, oneKind: string, manyKind: string): seq<Decl>
  {
    if xs == [] then []
    else GroupDecls(xs[..|xs| - 1], src, oneKind, manyKind) + MemberDecls(xs[|xs| - 1], src, oneKind, manyKind)
  }

  /** The declarations of every group child (prefix of the children). */
  function DeclsOf(xs: seq<Node>, src: string, groupKind: string, oneKind: string, manyKind: string): seq<Decl>
  {
    if xs == [] then []
    else
      var last := xs[|xs| - 1];
      DeclsOf(xs[..|xs| - 1], src, groupKind, oneKind, manyKind)
      + (if last.kind == groupKind then GroupDecls(last.children, src, oneKind, manyKind) else [])
  }

  /** The declarations numbered by position, each made into a record by `mk`. */
  function Number<T>(ds: seq<Decl>, mk: (Decl, nat) -> T): (r: seq<T>)
    ensures |r| == |ds|
  {
    if ds == [] then [] else Number(ds[..|ds| - 1], mk) + [mk(ds[|ds| - 1], |ds| - 1)]
  }

  /** The record at position `i` is made from the `i`-th declaration and the index `i`. */
  lemma {:induction false} NumberAt<T>(ds: seq<Decl>, mk: (Decl, nat) -> T, i: nat)
    requires i < |ds|
    ensures Number(ds, mk)[i] == mk(ds[i], i)
  {
    if i < |ds| - 1 {
      NumberAt(ds[..|ds| - 1], mk, i);
    }
  }

  lemma NumberSnoc<T>(ds: seq<Decl>, d: Decl, mk: (Decl, nat) -> T)
    ensures Number(ds + [d], mk) == Number(ds, mk) + [mk(d, |ds|)]
  {
    assert (ds + [d])[..|ds|] == ds;
  }

  function MakeParameter(d: Decl, i: nat): Parameter
  {
    Parameter(d.name, d.declType, i, d.range)
  }

  /** A local is always mutable and has no initial value. */
  function MakeLocal(d: Decl, i: nat): Variable
  {
    Variable(d.name, d.declType, true, None, i, d.range)
  }

  /**
   * The parameters of a function-like node: every declaration inside its
   * `func_type_params` children, in source order, numbered 0, 1, 2, ….
   */
  function ParamsOf(n: Node, src: string): (r: seq<Parameter>)
    ensures forall i :: 0 <= i < |r| ==> r[i].index == i
  {
    var ds := DeclsOf(n.children, src, "func_type_params", "func_type_params_one", "func_type_params_many");
    forall i | 0 <= i < |ds| ensures Number(ds, MakeParameter)[i].index == i {
      NumberAt(ds, MakeParameter, i);
    }
    Number(ds, MakeParameter)
  }

  /** The locals of a function node, numbered from 0 independently of the parameters. */
  function LocalsOf(n: Node, src: string): (r: seq<Variable>)
    ensures forall i :: 0 <= i < |r| ==> r[i].index == i && r[i].isMutable && r[i].initialValue.None?
  {
    var ds := DeclsOf(n.children, src, "func_locals", "func_locals_one", "func_locals_many");
    forall i | 0 <= i < |ds| ensures Number(ds, MakeLocal)[i] == MakeLocal(ds[i], i) {
      NumberAt(ds, MakeLocal, i);
    }
    Number(ds, MakeLocal)
  }

  /**
   * `extract_parameters`: walks the `func_type_params` children and their
   * members, numbering each typed declaration with a running counter.
   */
  method ExtractParameters(n: Node, src: string) returns (params: seq<Parameter>)
    ensures params == ParamsOf(n, src)
    ensures forall i :: 0 <= i < |params| ==> params[i].index == i
  {
    params := CollectDecls(n, src, "func_type_params", "func_type_params_one", "func_type_params_many", MakeParameter);
  }

  /** `extract_locals`: the same walk over `func_locals` children. */
  method ExtractLocals(n: Node, src: string) returns (locals: seq<Variable>)
    ensures locals == LocalsOf(n, src)
    ensures forall i :: 0 <= i < |locals| ==> locals[i].index == i && locals[i].isMutable
  {
    locals := CollectDecls(n, src, "func_locals", "func_locals_one", "func_locals_many", MakeLocal);
  }

  /**
   * The nested walk shared by `extract_parameters` and `extract_locals`:
   * groups, then their members; `counter` is the running index, and `ds`
   * the declarations read so far.
   */
  method CollectDecls<T>(n: Node, src: string, groupKind: string, oneKind: string, manyKind: string, mk: (Decl, nat) -> T)
    returns (out: seq<T>)
    ensures out == Number(DeclsOf(n.children, src, groupKind, oneKind, manyKind), mk)
  {
    out := [];
    var counter := 0;
    ghost var cur: seq<Decl> := [];
    var i := 0;
    while i < |n.children|
      invariant 0 <= i <= |n.children|
      invariant cur == DeclsOf(n.children[..i], src, groupKind, oneKind, manyKind)
      invariant out == Number(cur, mk) && counter == |cur|
    {
      var child := n.children[i];
      ghost var g := if child.kind == groupKind then GroupDecls(child.children, src, oneKind, manyKind) else [];
      DeclsOfStep(n.children, i, src, groupKind, oneKind, manyKind);
      if child.kind == groupKind {
        out, counter := CollectGroup(child, src, oneKind, manyKind, mk, out, counter, cur);
      } else {
        assert cur + g == cur;
      }
      cur := cur + g;
      i := i + 1;
    }
    assert n.children[..i] == n.children;
  }

  lemma DeclsOfStep(xs: seq<Node>, i: nat, src: string, groupKind: string, oneKind: string, manyKind: string)
    requires i < |xs|
    ensures DeclsOf(xs[..i + 1], src, groupKind, oneKind, manyKind)
            == DeclsOf(xs[..i], src, groupKind, oneKind, manyKind)
               + (if xs[i].kind == groupKind then GroupDecls(xs[i].children, src, oneKind, manyKind) else [])
  {
    assert xs[..i + 1][..i] == xs[..i];
  }

  /** The members of one group. */
  method CollectGroup<T>(group: Node, src: string, oneKind: string, manyKind: string, mk: (Decl, nat) -> T,
                         out0: seq<T>, counter0: nat, ghost ds: seq<Decl>)
    returns (out: seq<T>, counter: nat)
    requires out0 == Number(ds, mk) && counter0 == |ds|
    ensures out == Number(ds + GroupDecls(group.children, src, oneKind, manyKind), mk)
    ensures counter == |ds + GroupDecls(group.children, src, oneKind, manyKind)|
  {
    out, counter := out0, counter0;
    ghost var cur := ds;
    var j := 0;
    assert group.children[..j] == [];
    assert ds + GroupDecls(group.children[..j], src, oneKind, manyKind) == ds + [];
    while j < |group.children|
      invariant 0 <= j <= |group.children|
      invariant cur == ds + GroupDecls(group.children[..j], src, oneKind, manyKind)
      invariant out == Number(cur, mk) && counter == |cur|
    {
      ghost var m := MemberDecls(group.children[j], src, oneKind, manyKind);
      out, counter := CollectMember(group.children[j], src, oneKind, manyKind, mk, out, counter, cur);
      GroupDeclsStep(ds, group.children, j, src, oneKind, manyKind);
      cur := cur + m;
      j := j + 1;
    }
    assert group.children[..j] == group.children;
  }

  /** One member of a group: a typed `oneKind` declaration, or the value types of a `manyKind` one. */
  method CollectMember<T>(member: Node, src: string, oneKind: string, manyKind: string, mk: (Decl, nat) -> T,
                          out0: seq<T>, counter0: nat, ghost ds: seq<Decl>)
    returns (out: seq<T>, counter: nat)
    requires out0 == Number(ds, mk) && counter0 == |ds|
    ensures out == Number(ds + MemberDecls(member, src, oneKind, manyKind), mk)
    ensures counter == |ds + MemberDecls(member, src, oneKind, manyKind)|
  {
    out, counter := out0, counter0;
    if member.kind == oneKind {
      var d := OneDecl(member, src);
      if d.Some? {
        assert MemberDecls(member, src, oneKind, manyKind) == [d.value];
        NumberSnoc(ds, d.value, mk);
        out := out + [mk(d.value, counter)];
        counter := counter + 1;
      } else {
        assert ds + MemberDecls(member, src, oneKind, manyKind) == ds;
      }
    } else if member.kind == manyKind {
      out, counter := CollectMany(member, src, mk, out, counter, ds);
    } else {
      assert ds + MemberDecls(member, src, oneKind, manyKind) == ds;
    }
  }

  lemma GroupDeclsStep(ds: seq<Decl>, xs: seq<Node>, j: nat, src: string, oneKind: string, manyKind: string)
    requires j < |xs|
    ensures ds + GroupDecls(xs[..j + 1], src, oneKind, manyKind)
            == (ds + GroupDecls(xs[..j], src, oneKind, manyKind)) + MemberDecls(xs[j], src, oneKind, manyKind)
  {
    assert xs[..j + 1][..j] == xs[..j];
  }

  /** The value types of one unnamed member. */
  method CollectMany<T>(member: Node, src: string, mk: (Decl, nat) -> T,
                        out0: seq<T>, counter0: nat, ghost ds: seq<Decl>)
    returns (out: seq<T>, counter: nat)
    requires out0 == Number(ds, mk) && counter0 == |ds|
    ensures out == Number(ds + ManyDecls(member.children, src), mk)
    ensures counter == |ds + ManyDecls(member.children, src)|
  {
    out, counter := out0, counter0;
    ghost var cur := ds;
    var k := 0;
    assert member.children[..k] == [] && ds + [] == ds;
    while k < |member.children|
      invariant 0 <= k <= |member.children|
      invariant cur == ds + ManyDecls(member.children[..k], src)
      invariant out == Number(cur, mk) && counter == |cur|
    {
      var v := member.children[k];
      ManyDeclsStep(ds, member.children, k, src);
      if v.kind == "value_type" {
        var d := Decl(None, ValueTypeOf(v, src), None);
        NumberSnoc(cur, d, mk);
        out := out + [mk(d, counter)];
        counter := counter + 1;
        cur := cur + [d];
      } else {
        assert cur + [] == cur;
      }
      k := k + 1;
    }
    assert member.children[..k] == member.children;
  }

  lemma ManyDeclsStep(ds: seq<Decl>, xs: seq<Node>, k: nat, src: string)
    requires k < |xs|
    ensures ds + ManyDecls(xs[..k + 1], src)
            == (ds + ManyDecls(xs[..k], src))
               + (if xs[k].kind == "value_type" then [Decl(None, ValueTypeOf(xs[k], src), None)] else [])
  {
    assert xs[..k + 1][..k] == xs[..k];
  }

  // ---------------------------------------------------------------------
  // Limits (parser.rs:304-328 and its copies for tables and memories)

  /** The values of the `nat` children whose text is a u32, in order. */
  function NatValues(xs: seq<Node>, src: string): seq<nat>
  {
    if xs == [] then []
    else
      var last := xs[|xs| - 1];
      NatValues(xs[..|xs| - 1], src)
      + (if last.kind == "nat" && ParseU32(NodeText(last, src)).Some? then [ParseU32(NodeText(last, src)).value] else [])
  }

  /**
   * One `limits` node applied to the limits found so far: the first
   * number read sets the minimum, every later one the maximum.
   */
  function ApplyLimits(lim: Limits, nums: seq<nat>): (r: Limits)
    ensures nums == [] ==> r == lim
    ensures |nums| >= 1 ==> r.min == nums[0]
    ensures |nums| == 1 ==> r.max == lim.max
    ensures |nums| >= 2 ==> r.max == Some(nums[|nums| - 1])
  {
    if nums == [] then lim
    else Limits(nums[0], if |nums| >= 2 then Some(nums[|nums| - 1]) else lim.max)
  }

  /** The numbers of one more child. */
  lemma NatValuesStep(xs: seq<Node>, i: nat, src: string)
    requires i < |xs|
    ensures NatValues(xs[..i + 1], src) == NatValues(xs[..i], src)
      + (if xs[i].kind == "nat" && ParseU32(NodeText(xs[i], src)).Some? then [ParseU32(NodeText(xs[i], src)).value] else [])
  {
    assert xs[..i + 1][..i] == xs[..i];
  }

  /** One more number: the first sets the minimum, a later one the maximum. */
  lemma ApplyLimitsSnoc(lim: Limits, nums: seq<nat>, v: nat)
    ensures ApplyLimits(lim, nums + [v])
         == if nums == [] then lim.(min := v) else ApplyLimits(lim, nums).(max := Some(v))
  {
    if nums != [] {
      assert (nums + [v])[0] == nums[0];
    }
  }

  /** The limits of a table or memory that declares none. */
  const DefaultLimits := Limits(0, None)

  /** The loop over one `limits` node, with its `nat_index` counter. */
  method ReadLimits(limitsNode: Node, src: string, lim: Limits) returns (r: Limits)
    ensures r == ApplyLimits(lim, NatValues(limitsNode.children, src))
  {
    r := lim;
    var natIndex := 0;
    var i := 0;
    while i < |limitsNode.children|
      invariant 0 <= i <= |limitsNode.children|
      invariant natIndex == |NatValues(limitsNode.children[..i], src)|
      invariant r == ApplyLimits(lim, NatValues(limitsNode.children[..i], src))
    {
      var c := limitsNode.children[i];
      NatValuesStep(limitsNode.children, i, src);
      ghost var before := NatValues(limitsNode.children[..i], src);
      if c.kind == "nat" {
        var num := ParseU32(NodeText(c, src));
        if num.Some? {
          ApplyLimitsSnoc(lim, before, num.value);
          if natIndex == 0 {
            r := r.(min := num.value);
          } else {
            r := r.(max := Some(num.value));
          }
          natIndex := natIndex + 1;
        }
      }
      i := i + 1;
    }
    assert limitsNode.children[..i] == limitsNode.children;
  }

  /** The limits after every `limits` child of a type node, in order. */
  function LimitsOf(xs: seq<Node>, src: string, lim: Limits): Limits
  {
    if xs == [] then lim
    else
      var here := if xs[0].kind == "limits" then ApplyLimits(lim, NatValues(xs[0].children, src)) else lim;
      LimitsOf(xs[1..], src, here)
  }

  // ---------------------------------------------------------------------
  // Block labels (parser.rs:747-790)

  predicate IsLabelKind(k: string)
  {
    k in {"block_block", "block_loop", "block_if", "block_try", "block_try_table",
          "expr1_block", "expr1_loop", "expr1_if", "expr1_try"}
  }

  /** The `block_type` text of a block kind. */
  function BlockTypeName(k: string): (r: string)
    ensures IsLabelKind(k) ==> r in {"block", "loop", "if", "try", "try_table"}
  {
    if k == "block_block" || k == "expr1_block" then "block"
    else if k == "block_loop" || k == "expr1_loop" then "loop"
    else if k == "block_if" || k == "expr1_if" then "if"
    else if k == "block_try" || k == "expr1_try" then "try"
    else if k == "block_try_table" then "try_table"
    else "unknown"
  }

  /** A block node with an identifier child. */
  predicate IsLabelledBlock(n: Node)
  {
    IsLabelKind(n.kind) && FindIdentifierNode(n).Some?
  }

  /** The label a labelled block node contributes. */
  function LabelOf(n: Node, src: string): BlockLabel
    requires IsLabelledBlock(n)
  {
    var id := FindIdentifierNode(n).value;
    BlockLabel(NodeText(id, src), BlockTypeName(n.kind), n.startPoint.row, Some(NodeToRange(id)))
  }

  /** `visit_node_for_blocks`: the node's own label, then those of its children. */
  function BlocksOf(n: Node, src: string): seq<BlockLabel>
    decreases n, 1
  {
    (if IsLabelledBlock(n) then [LabelOf(n, src)] else []) + BlocksOfAll(n.children, src)
  }

  function BlocksOfAll(xs: seq<Node>, src: string): seq<BlockLabel>
    decreases xs, 0
  {
    if xs == [] then [] else BlocksOf(xs[0], src) + BlocksOfAll(xs[1..], src)
  }

  /** The labels of the labelled block nodes among `ns`, in order. */
  function LabelsOfNodes(ns: seq<Node>, src: string): seq<BlockLabel>
  {
    if ns == [] then []
    else (if IsLabelledBlock(ns[0]) then [LabelOf(ns[0], src)] else []) + LabelsOfNodes(ns[1..], src)
  }

  lemma {:induction false} LabelsOfNodesAppend(a: seq<Node>, b: seq<Node>, src: string)
    ensures LabelsOfNodes(a + b, src) == LabelsOfNodes(a, src) + LabelsOfNodes(b, src)
  {
    if a == [] {
      assert a + b == b;
    } else {
      assert (a + b)[1..] == a[1..] + b;
      LabelsOfNodesAppend(a[1..], b, src);
      var head := if IsLabelledBlock(a[0]) then [LabelOf(a[0], src)] else [];
      AppendAssoc(head, LabelsOfNodes(a[1..], src), LabelsOfNodes(b, src));
    }
  }

  /**
   * The labels are exactly those of the labelled block nodes of the
   * subtree, in pre-order.
   */
  lemma {:induction false} BlocksArePreOrderLabels(n: Node, src: string)
    ensures BlocksOf(n, src) == LabelsOfNodes(PreOrder(n), src)
    decreases n, 1
  {
    BlocksAllArePreOrderLabels(n.children, src);
    LabelsOfNodesAppend([n], PreOrderAll(n.children), src);
  }

  lemma {:induction false} BlocksAllArePreOrderLabels(xs: seq<Node>, src: string)
    ensures BlocksOfAll(xs, src) == LabelsOfNodes(PreOrderAll(xs), src)
    decreases xs, 0
  {
    if xs != [] {
      BlocksArePreOrderLabels(xs[0], src);
      BlocksAllArePreOrderLabels(xs[1..], src);
      LabelsOfNodesAppend(PreOrder(xs[0]), PreOrderAll(xs[1..]), src);
    }
  }

  /** The recursive walk pushing labels onto `blocks`. */
  method VisitNodeForBlocks(n: Node, src: string, blocks: seq<BlockLabel>) returns (r: seq<BlockLabel>)
    ensures r == blocks + BlocksOf(n, src)
    decreases n, 1
  {
    r := blocks;
    if IsLabelledBlock(n) {
      r := r + [LabelOf(n, src)];
    }
    ghost var own := r;
    var i := 0;
    assert n.children[..0] == [];
    while i < |n.children|
      invariant 0 <= i <= |n.children|
      invariant r == own + BlocksOfAll(n.children[..i], src)
    {
      BlocksOfAllSnoc(n.children[..i + 1], src);
      assert n.children[..i + 1][..i] == n.children[..i];
      AppendAssoc(own, BlocksOfAll(n.children[..i], src), BlocksOf(n.children[i], src));
      r := VisitNodeForBlocks(n.children[i], src, r);
      i := i + 1;
    }
    assert n.children[..i] == n.children;
    AppendAssoc(blocks, if IsLabelledBlock(n) then [LabelOf(n, src)] else [], BlocksOfAll(n.children, src));
  }

  lemma {:induction false} BlocksOfAllSnoc(xs: seq<Node>, src: string)
    requires xs != []
    ensures BlocksOfAll(xs, src) == BlocksOfAll(xs[..|xs| - 1], src) + BlocksOf(xs[|xs| - 1], src)
  {
    if |xs| > 1 {
      BlocksOfAllSnoc(xs[1..], src);
      assert xs[1..][..|xs[1..]| - 1] == xs[..|xs| - 1][1..];
    }
  }
}
