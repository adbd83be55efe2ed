/**
 * Hover (src/hover.rs): the text shown for the word under the cursor. An
 * instruction's documentation comes first; a `$name` is described
 * according to its context; a number according to the index space of its
 * instruction. Every text is markdown, code shown in a `wat` fence.
 *
 * The generated instruction documentation table is the parameter `docs`.
 */
module Hover {
  import opened Wrappers
  import opened CoreTypes
  import opened Tree
  import opened Text
  import opened Symbols
  import U = Utils
  import D = Definition

  /** A `wat` code fence around `body`. */
  function Fenced(body: string): (r: string)
    ensures StartsWith(r, "```wat\n")
  {
    "```wat\n" + body + "\n```"
  }

  function NamePart(name: Option<string>): string
  {
    if name.Some? then " " + name.value else ""
  }

  lemma ToStrNonEmpty(v: ValueType)
    ensures |ToStr(v)| > 0
  {
  }

  // ---------------------------------------------------------------------
  // Function signatures
  // ---------------------------------------------------------------------

  /** ` (param[ NAME] T)` for one parameter. */
  function ParamClause(p: Parameter): string
  {
    " (param" + NamePart(p.name) + " " + ToStr(p.paramType) + ")"
  }

  /** One parameter clause per parameter, in order. */
  function ParamClauses(ps: seq<Parameter>): string
  {
    if ps == [] then "" else ParamClauses(ps[..|ps| - 1]) + ParamClause(ps[|ps| - 1])
  }

  /** ` T` for each result type, in order. */
  function ResultTypes(rs: seq<ValueType>): string
  {
    if rs == [] then "" else ResultTypes(rs[..|rs| - 1]) + " " + ToStr(rs[|rs| - 1])
  }

  /** The result clause, present only when there are results. */
  function ResultClause(rs: seq<ValueType>): (r: string)
    ensures r == "" <==> rs == []
  {
    if rs == [] then "" else " (result" + ResultTypes(rs) + ")"
  }

  /** The signature `format_function_signature` builds. */
  function FunctionSignature(f: Function): string
  {
    "(func" + NamePart(f.name) + ParamClauses(f.parameters) + ResultClause(f.results) + ")"
  }

  /** `format_function_signature`, pushing one piece at a time. */
  method FormatFunctionSignature(f: Function) returns (sig: string)
    ensures sig == FunctionSignature(f)
  {
    sig := "(func";
    if f.name.Some? {
      sig := sig + " " + f.name.value;
    }
    assert sig == "(func" + NamePart(f.name);
    sig := PushParamClauses(sig, f.parameters);
    if f.results != [] {
      var types := FormatResultTypes(f.results);
      var clause := " (result" + types + ")";
      assert clause == ResultClause(f.results);
      sig := sig + clause;
    }
    sig := sig + ")";
  }

  /** The parameter loop of `format_function_signature`: one clause per parameter pushed onto `sig0`. */
  method PushParamClauses(sig0: string, ps: seq<Parameter>) returns (sig: string)
    ensures sig == sig0 + ParamClauses(ps)
  {
    sig := sig0;
    var i := 0;
    assert ps[..0] == [];
    while i < |ps|
      invariant 0 <= i <= |ps|
      invariant sig == sig0 + ParamClauses(ps[..i])
    {
      var clause := FormatParamClause(ps[i]);
      assert ps[..i + 1][..i] == ps[..i];
      assert ParamClauses(ps[..i + 1]) == ParamClauses(ps[..i]) + clause;
      AppendAssoc(sig0, ParamClauses(ps[..i]), clause);
      sig := sig + clause;
      i := i + 1;
    }
    assert ps[..|ps|] == ps;
  }

  /** One parameter's clause, as the parameter loop pushes it. */
  method FormatParamClause(p: Parameter) returns (clause: string)
    ensures clause == ParamClause(p)
  {
    clause := " (param";
    if p.name.Some? {
      clause := clause + " " + p.name.value;
    }
    clause := clause + " " + ToStr(p.paramType) + ")";
  }

  /** The result loop of `format_function_signature`: ` T` per result type. */
  method FormatResultTypes(rs: seq<ValueType>) returns (types: string)
    ensures types == ResultTypes(rs)
  {
    types := "";
    var j := 0;
    assert rs[..0] == [];
    while j < |rs|
      invariant 0 <= j <= |rs|
      invariant types == ResultTypes(rs[..j])
    {
      assert rs[..j + 1][..j] == rs[..j] && rs[..j + 1][j] == rs[j];
      assert ResultTypes(rs[..j + 1]) == ResultTypes(rs[..j]) + " " + ToStr(rs[j]);
      types := types + " " + ToStr(rs[j]);
      j := j + 1;
    }
    assert rs[..|rs|] == rs;
  }

  /** A type whose text holds no parenthesis (every type but the `ref` forms). */
  predicate PlainType(v: ValueType) { !v.Ref? && !v.RefNull? }

  predicate NoParens(s: string) { '(' !in s && ')' !in s }

  lemma PlainTypeNoParens(v: ValueType)
    requires PlainType(v)
    ensures NoParens(ToStr(v))
  {
    match v
    case I32 =>
    case I64 =>
    case F32 =>
    case F64 =>
    case Funcref =>
    case Externref =>
    case Unknown =>
    case V128 =>
    case I8 =>
    case I16 =>
    case Structref =>
    case Arrayref =>
    case I31ref =>
    case Anyref =>
    case Eqref =>
    case Nullref =>
    case NullFuncref =>
    case NullExternref =>
  }

  lemma {:induction false} NoParensCount(s: string)
    requires NoParens(s)
    ensures CountChar(s, '(') == 0 && CountChar(s, ')') == 0
  {
    if s != [] {
      NoParensCount(s[1..]);
    }
  }

  /** `head`, then a text without parentheses, then `)`: one pair. */
  lemma ClauseCount(head: string, inner: string)
    requires head == " (param" || head == " (result"
    requires NoParens(inner)
    ensures CountChar(head + inner + ")", '(') == 1 && CountChar(head + inner + ")", ')') == 1
  {
    NoParensCount(inner);
    assert NoParens(head[2..]);
    NoParensCount(head[2..]);
    assert head == " (" + head[2..];
    CountCharAppend(" (", head[2..], '(');
    CountCharAppend(" (", head[2..], ')');
    CountCharAppend(head, inner, '(');
    CountCharAppend(head, inner, ')');
    CountCharAppend(head + inner, ")", '(');
    CountCharAppend(head + inner, ")", ')');
  }

  lemma ParamClauseParens(p: Parameter)
    requires PlainType(p.paramType) && (p.name.Some? ==> NoParens(p.name.value))
    ensures CountChar(ParamClause(p), '(') == 1 && CountChar(ParamClause(p), ')') == 1
  {
    PlainTypeNoParens(p.paramType);
    var inner := NamePart(p.name) + " " + ToStr(p.paramType);
    assert NoParens(inner);
    ClauseCount(" (param", inner);
    assert ParamClause(p) == " (param" + inner + ")";
  }

  lemma {:induction false} ParamClausesParens(ps: seq<Parameter>)
    requires forall k :: 0 <= k < |ps| ==> PlainType(ps[k].paramType) && (ps[k].name.Some? ==> NoParens(ps[k].name.value))
    ensures CountChar(ParamClauses(ps), '(') == |ps| && CountChar(ParamClauses(ps), ')') == |ps|
  {
    if ps != [] {
      var p := ps[|ps| - 1];
      ParamClausesParens(ps[..|ps| - 1]);
      PlainTypeNoParens(p.paramType);
      ParamClauseParens(p);
      CountCharAppend(ParamClauses(ps[..|ps| - 1]), ParamClause(p), '(');
      CountCharAppend(ParamClauses(ps[..|ps| - 1]), ParamClause(p), ')');
    }
  }

  lemma {:induction false} ResultTypesNoParens(rs: seq<ValueType>)
    requires forall k :: 0 <= k < |rs| ==> PlainType(rs[k])
    ensures NoParens(ResultTypes(rs))
  {
    if rs != [] {
      ResultTypesNoParens(rs[..|rs| - 1]);
      PlainTypeNoParens(rs[|rs| - 1]);
    }
  }

  /** The names and types of a function print without parentheses. */
  predicate PlainFunction(f: Function)
  {
    (f.name.Some? ==> NoParens(f.name.value))
    && (forall k :: 0 <= k < |f.parameters| ==> PlainType(f.parameters[k].paramType) && (f.parameters[k].name.Some? ==> NoParens(f.parameters[k].name.value)))
    && (forall k :: 0 <= k < |f.results| ==> PlainType(f.results[k]))
  }

  lemma ResultClauseParens(rs: seq<ValueType>)
    requires forall k :: 0 <= k < |rs| ==> PlainType(rs[k])
    ensures CountChar(ResultClause(rs), '(') == (if rs == [] then 0 else 1)
    ensures CountChar(ResultClause(rs), ')') == (if rs == [] then 0 else 1)
  {
    if rs != [] {
      ResultTypesNoParens(rs);
      ClauseCount(" (result", ResultTypes(rs));
    }
  }

  /**
   * The signature holds one parenthesised clause per parameter, one
   * result clause exactly when there are results, inside the `(func …)`
   * pair: its parentheses are balanced and counted by those clauses.
   */
  lemma FunctionSignatureClauses(f: Function)
    requires PlainFunction(f)
    ensures CountChar(FunctionSignature(f), '(') == 1 + |f.parameters| + (if f.results == [] then 0 else 1)
    ensures CountChar(FunctionSignature(f), ')') == CountChar(FunctionSignature(f), '(')
  {
    var a := "(func" + NamePart(f.name);
    var b := ParamClauses(f.parameters);
    var c := ResultClause(f.results);
    assert FunctionSignature(f) == a + b + c + ")";
    HeadParens(f.name);
    ParamClausesParens(f.parameters);
    ResultClauseParens(f.results);
    assert CountChar(")", '(') == 0 && CountChar(")", ')') == 1;
    CountFour(a, b, c, ")", '(');
    CountFour(a, b, c, ")", ')');
  }

  lemma CountFour(a: string, b: string, c: string, d: string, ch: char)
    ensures CountChar(a + b + c + d, ch) == CountChar(a, ch) + CountChar(b, ch) + CountChar(c, ch) + CountChar(d, ch)
  {
    CountCharAppend(a, b, ch);
    CountCharAppend(a + b, c, ch);
    CountCharAppend(a + b + c, d, ch);
  }

  lemma HeadParens(name: Option<string>)
    requires name.Some? ==> NoParens(name.value)
    ensures CountChar("(func" + NamePart(name), '(') == 1 && CountChar("(func" + NamePart(name), ')') == 0
  {
    assert NoParens(NamePart(name));
    NoParensCount(NamePart(name));
    assert NoParens("func" + NamePart(name));
    NoParensCount("func" + NamePart(name));
    assert "(func" + NamePart(name) == "(" + ("func" + NamePart(name));
    CountCharAppend("(", "func" + NamePart(name), '(');
    CountCharAppend("(", "func" + NamePart(name), ')');
  }

  // ---------------------------------------------------------------------
  // Type signatures
  // ---------------------------------------------------------------------

  /** The texts of the types, in order. */
  function TypeTexts(ts: seq<ValueType>): (r: seq<string>)
    ensures |r| == |ts| && forall i :: 0 <= i < |ts| ==> r[i] == ToStr(ts[i])
  {
    seq(|ts|, i requires 0 <= i < |ts| => ToStr(ts[i]))
  }

  /** The types joined by single spaces: empty exactly when there are none. */
  function SpacedTypes(ts: seq<ValueType>): (r: string)
    ensures r == "" <==> ts == []
  {
    if ts == [] then Join(TypeTexts(ts), " ")
    else
      ToStrNonEmpty(ts[0]);
      JoinNonEmpty(TypeTexts(ts), " ");
      Join(TypeTexts(ts), " ")
  }

  lemma {:induction false} JoinNonEmpty(parts: seq<string>, sep: string)
    requires parts != [] && |parts[0]| > 0
    ensures |Join(parts, sep)| > 0
  {
  }

  /** The signature `format_type_signature` builds. */
  function TypeSignature(word: string, td: TypeDef): string
  {
    match td.kind
    case Func(params, results) =>
      "(type " + word
      + (if params == [] then "" else " (param " + SpacedTypes(params) + ")")
      + (if results == [] then "" else " (result " + SpacedTypes(results) + ")")
      + ")"
    case Struct(fields) => "(type " + word + " (struct ... " + NatToString(|fields|) + " fields))"
    case Array(elementType, mutable) =>
      "(type " + word + " (array " + (if mutable then "(mut ...)" else "...") + " " + ToStr(elementType) + "))"
  }

  /**
   * `format_type_signature`: for a function type the parameter and
   * result clauses are pushed only when their joined text is non-empty,
   * which is exactly when there are parameters or results.
   */
  method FormatTypeSignature(word: string, td: TypeDef) returns (s: string)
    ensures s == TypeSignature(word, td)
  {
    match td.kind
    case Func(params, results) =>
      var pStr := Join(TypeTexts(params), " ");
      var rStr := Join(TypeTexts(results), " ");
      assert pStr == SpacedTypes(params) && rStr == SpacedTypes(results);
      s := "(type " + word;
      if pStr != "" {
        s := s + " (param " + pStr + ")";
      }
      assert s == "(type " + word + (if params == [] then "" else " (param " + SpacedTypes(params) + ")");
      if rStr != "" {
        s := s + " (result " + rStr + ")";
      }
      s := s + ")";
    case Struct(fields) =>
      s := "(type " + word + " (struct ... " + NatToString(|fields|) + " fields))";
    case Array(elementType, mutable) =>
      s := "(type " + word + " (array " + (if mutable then "(mut ...)" else "...") + " " + ToStr(elementType) + "))";
  }

  // ---------------------------------------------------------------------
  // Pieces of the symbol texts
  // ---------------------------------------------------------------------

  /** `min max` when there is a maximum, `min` otherwise. */
  function LimitsText(l: Limits): (r: string)
    ensures StartsWith(r, NatToString(l.min))
    ensures l.max.None? <==> r == NatToString(l.min)
  {
    if l.max.Some? then NatToString(l.min) + " " + NatToString(l.max.value) else NatToString(l.min)
  }

  /** A data segment's content, cut to 32 characters and marked with `...` when longer. */
  function DataPreview(content: string): (r: string)
    ensures |content| <= 32 ==> r == content
    ensures |content| > 32 ==> |r| == 35 && r[..32] == content[..32] && EndsWith(r, "...")
  {
    if |content| > 32 then content[..32] + "..." else content
  }

  /** An elem segment's functions: at most four, then `... (N total)`. */
  function ElemPreview(names: seq<string>): (r: string)
    ensures |names| <= 4 ==> r == Join(names, " ")
    ensures |names| > 4 ==> StartsWith(r, Join(names[..4], " ")) && EndsWith(r, " total)")
    ensures |names| > 4 ==> Contains(r, NatToString(|names|))
  {
    if |names| > 4 then
      var r := Join(names[..4], " ") + " ... (" + NatToString(|names|) + " total)";
      assert OccursAt(r, NatToString(|names|), |Join(names[..4], " ") + " ... ("|);
      FindFinds(r, NatToString(|names|), |Join(names[..4], " ") + " ... ("|);
      r
    else Join(names, " ")
  }

  lemma FindFinds(s: string, p: string, i: nat)
    requires OccursAt(s, p, i)
    ensures Contains(s, p)
  {
  }

  /** The parameter clause of a tag: empty without parameters. */
  function TagParams(params: seq<ValueType>): (r: string)
    ensures r == "" <==> params == []
  {
    if params == [] then "" else " (param " + SpacedTypes(params) + ")"
  }

  function GlobalText(word: string, g: Global): (r: string)
    ensures StartsWith(r, "```wat\n")
  {
    Fenced("(global " + word + " " + (if g.isMutable then "mut " else "") + ToStr(g.varType) + ")")
    + (if g.initialValue.Some? then "\n\nInitial value: `" + g.initialValue.value + "`" else "")
  }

  /** A global as described by its position: its name, or nothing. */
  function IndexGlobalText(g: Global): string
  {
    Fenced("(global " + g.name.UnwrapOr("") + (if g.isMutable then " mut" else "") + " " + ToStr(g.varType) + ")")
  }

  function ParamText(word: string, p: Parameter): string
  {
    Fenced("(param " + word + " " + ToStr(p.paramType) + ")")
  }

  function LocalText(word: string, v: Variable): string
  {
    Fenced("(local " + word + " " + ToStr(v.varType) + ")")
  }

  /** A label's text reports its 1-based line. */
  function LabelText(b: BlockLabel): (r: string)
    ensures StartsWith(r, "```wat\n") && EndsWith(r, "Defined at line " + NatToString(b.line + 1))
  {
    Fenced("(" + b.blockType + " " + b.labelName + ")") + "\nDefined at line " + NatToString(b.line + 1)
  }

  function TableText(word: string, t: Symbols.Table): string
  {
    Fenced("(table " + word + " " + LimitsText(t.limits) + " " + ToStr(t.refType) + ")")
  }

  function MemoryText(word: string, m: Memory): string
  {
    Fenced("(memory " + word + " " + LimitsText(m.limits) + ")")
  }

  function TagText(word: string, t: Symbols.Tag): string
  {
    Fenced("(tag " + word + TagParams(t.params) + ")")
  }

  function DataText(word: string, d: DataSegment): (r: string)
    ensures StartsWith(r, "```wat\n")
  {
    Fenced("(data " + word + " \"" + DataPreview(d.content) + "\")") + "\nLength: " + NatToString(d.byteLength) + " bytes"
  }

  function ElemText(word: string, e: ElemSegment): string
  {
    Fenced("(elem " + word + " func " + ElemPreview(e.funcNames) + ")")
  }

  // ---------------------------------------------------------------------
  // Lookups: each gives the text of the item it finds
  // ---------------------------------------------------------------------

  function FunctionHover(word: string, table: SymbolTable): (r: Option<string>)
    reads table
    ensures r.Some? ==> StartsWith(r.value, "```wat\n")
    ensures table.Valid() ==> (r.Some? <==> Some(word) in FunctionNames(table.functions))
    ensures table.Valid() && r.Some? ==> exists i :: LastNamed(FunctionNames(table.functions), word, i) && r == Some(Fenced(FunctionSignature(table.functions[i])))
  {
    match table.GetFunctionByName(word) case Some(f) => Some(Fenced(FunctionSignature(f))) case None => None
  }

  function GlobalHover(word: string, table: SymbolTable): (r: Option<string>)
    reads table
    ensures r.Some? ==> StartsWith(r.value, "```wat\n")
    ensures table.Valid() ==> (r.Some? <==> Some(word) in GlobalNames(table.globals))
    ensures table.Valid() && r.Some? ==> exists i :: LastNamed(GlobalNames(table.globals), word, i) && r == Some(GlobalText(word, table.globals[i]))
  {
    match table.GetGlobalByName(word) case Some(g) => Some(GlobalText(word, g)) case None => None
  }

  function TableHover(word: string, table: SymbolTable): (r: Option<string>)
    reads table
    ensures r.Some? ==> StartsWith(r.value, "```wat\n")
    ensures table.Valid() ==> (r.Some? <==> Some(word) in TableNames(table.tables))
    ensures table.Valid() && r.Some? ==> exists i :: LastNamed(TableNames(table.tables), word, i) && r == Some(TableText(word, table.tables[i]))
  {
    match table.GetTableByName(word) case Some(t) => Some(TableText(word, t)) case None => None
  }

  function MemoryHover(word: string, table: SymbolTable): (r: Option<string>)
    reads table
    ensures r.Some? ==> StartsWith(r.value, "```wat\n")
    ensures table.Valid() ==> (r.Some? <==> Some(word) in MemoryNames(table.memories))
    ensures table.Valid() && r.Some? ==> exists i :: LastNamed(MemoryNames(table.memories), word, i) && r == Some(MemoryText(word, table.memories[i]))
  {
    match table.GetMemoryByName(word) case Some(m) => Some(MemoryText(word, m)) case None => None
  }

  function TypeHover(word: string, table: SymbolTable): (r: Option<string>)
    reads table
    ensures r.Some? ==> StartsWith(r.value, "```wat\n")
    ensures table.Valid() ==> (r.Some? <==> Some(word) in TypeNames(table.types))
    ensures table.Valid() && r.Some? ==> exists i :: LastNamed(TypeNames(table.types), word, i) && r == Some(Fenced(TypeSignature(word, table.types[i])))
  {
    match table.GetTypeByName(word) case Some(td) => Some(Fenced(TypeSignature(word, td))) case None => None
  }

  function TagHover(word: string, table: SymbolTable): (r: Option<string>)
    reads table
    ensures r.Some? ==> StartsWith(r.value, "```wat\n")
    ensures table.Valid() ==> (r.Some? <==> Some(word) in TagNames(table.tags))
    ensures table.Valid() && r.Some? ==> exists i :: LastNamed(TagNames(table.tags), word, i) && r == Some(TagText(word, table.tags[i]))
  {
    match table.GetTagByName(word) case Some(t) => Some(TagText(word, t)) case None => None
  }

  function DataHover(word: string, table: SymbolTable): (r: Option<string>)
    reads table
    ensures r.Some? ==> StartsWith(r.value, "```wat\n")
    ensures table.Valid() ==> (r.Some? <==> Some(word) in DataNames(table.dataSegments))
    ensures table.Valid() && r.Some? ==> exists i :: LastNamed(DataNames(table.dataSegments), word, i) && r == Some(DataText(word, table.dataSegments[i]))
  {
    match table.GetDataByName(word) case Some(d) => Some(DataText(word, d)) case None => None
  }

  function ElemHover(word: string, table: SymbolTable): (r: Option<string>)
    reads table
    ensures r.Some? ==> StartsWith(r.value, "```wat\n")
    ensures table.Valid() ==> (r.Some? <==> Some(word) in ElemNames(table.elemSegments))
    ensures table.Valid() && r.Some? ==> exists i :: LastNamed(ElemNames(table.elemSegments), word, i) && r == Some(ElemText(word, table.elemSegments[i]))
  {
    match table.GetElemByName(word) case Some(e) => Some(ElemText(word, e)) case None => None
  }

  /** The first parameter called `word`, else the first local. */
  function ParamOrLocalHover(word: string, f: Function): (r: Option<string>)
    ensures r.Some? ==> StartsWith(r.value, "```wat\n")
  {
    match FirstWhere(f.parameters, (p: Parameter) => p.name == Some(word))
    case Some(k) => Some(ParamText(word, f.parameters[k]))
    case None =>
      match FirstWhere(f.locals, (v: Variable) => v.name == Some(word))
      case Some(k) => Some(LocalText(word, f.locals[k]))
      case None => None
  }

  /** The first block labelled `word`. */
  function LabelHover(word: string, f: Function): (r: Option<string>)
    ensures r.Some? ==> StartsWith(r.value, "```wat\n")
  {
    match FirstWhere(f.blocks, (b: BlockLabel) => b.labelName == word)
    case Some(k) => Some(LabelText(f.blocks[k]))
    case None => None
  }

  // ---------------------------------------------------------------------
  // Struct fields
  // ---------------------------------------------------------------------

  predicate IsTypeNameChar(c: char) { IsAlnum(c) || c == '_' || c == '-' }

  /** The `$name` at the start of `rest`: the `$` and the name characters after it. */
  function TypeNameAt(rest: string): (r: string)
    requires |rest| > 0
    ensures 1 <= |r| <= |rest| && r == rest[..|r|]
    ensures forall i :: 1 <= i < |r| ==> IsTypeNameChar(r[i])
    ensures |r| < |rest| ==> !IsTypeNameChar(rest[|r|])
  {
    match FirstWhere(rest[1..], (c: char) => !IsTypeNameChar(c))
    case Some(i) => rest[..i + 1]
    case None => rest
  }

  /**
   * The text of the first field of struct type `typeName` called
   * `fieldName`; the text shown under a struct instruction has a space
   * before the field type that the one shown on a field's own line lacks.
   */
  function FieldHover(fieldName: string, typeName: string, table: SymbolTable, spaced: bool): (r: Option<string>)
    reads table
    ensures r.Some? ==> StartsWith(r.value, "```wat\n")
  {
    match table.GetTypeByName(typeName)
    case None => None
    case Some(td) =>
      if !td.kind.Struct? then None
      else
        match FirstWhere(td.kind.fields, (f: StructField) => f.name == Some(fieldName))
        case None => None
        case Some(idx) =>
          var f := td.kind.fields[idx];
          Some(Fenced("(field " + fieldName + " " + (if f.mutable then "(mut " else "") + (if spaced then " " else "")
                      + ToStr(f.fieldType) + ")") + "\nField " + NatToString(idx) + " of " + typeName)
  }

  const StructOps: seq<string> := ["struct.get", "struct.set", "struct.get_s", "struct.get_u"]

  /** The field named after the first `$name` that follows one of `ops` on the line. */
  function OpFieldHover(fieldName: string, table: SymbolTable, line: string, ops: seq<string>): (r: Option<string>)
    reads table
    ensures r.Some? ==> StartsWith(r.value, "```wat\n")
  {
    if ops == [] then None
    else
      var here :=
        match Find(line, ops[0])
        case None => None
        case Some(p) =>
          var after := line[p + |ops[0]|..];
          match FindChar(after, '$')
          case None => None
          case Some(ts) => FieldHover(fieldName, TypeNameAt(after[ts..]), table, true);
      here.Or(OpFieldHover(fieldName, table, line, ops[1..]))
  }

  predicate IsTypeLine(line: string) { Contains(line, "(type") && '$' in line }

  /** The last line before `k` that opens a named type definition. */
  function NearestTypeLine(lines: seq<string>, k: nat): (r: Option<nat>)
    requires k <= |lines|
    ensures r.Some? ==> r.value < k && IsTypeLine(lines[r.value])
                        && forall j :: r.value < j < k ==> !IsTypeLine(lines[j])
    ensures r.None? ==> forall j :: 0 <= j < k ==> !IsTypeLine(lines[j])
  {
    if k == 0 then None
    else if IsTypeLine(lines[k - 1]) then Some(k - 1)
    else NearestTypeLine(lines, k - 1)
  }

  /**
   * `provide_struct_field_hover`: a field used by a struct instruction on
   * the cursor line, else, on a line declaring a field, the field of the
   * nearest type definition above it.
   */
  function StructFieldHover(fieldName: string, table: SymbolTable, document: string, pos: Position): (r: Option<string>)
    reads table
    ensures r.Some? ==> StartsWith(r.value, "```wat\n")
  {
    match LineAt(document, pos.line)
    case None => None
    case Some(line) =>
      OpFieldHover(fieldName, table, line, StructOps).Or(
        if Contains(line, "(field") && Contains(line, fieldName) then
          var lines := Lines(document);
          match NearestTypeLine(lines, pos.line)
          case None => None
          case Some(i) =>
            var ts := FindChar(lines[i], '$').value;
            FieldHover(fieldName, TypeNameAt(lines[i][ts..]), table, false)
        else None)
  }

  // ---------------------------------------------------------------------
  // Named hover
  // ---------------------------------------------------------------------

  /**
   * The context of `provide_symbol_hover`: as for definitions, except
   * that on a line whose keywords say Tag a Block context from the tree
   * gives way to it (a `catch` clause).
   */
  function HoverContext(document: string, root: Node, pos: Position): (r: U.InstructionContext)
    ensures r != D.DefinitionContext(document, root, pos) ==>
      D.DefinitionContext(document, root, pos) == U.Block && r == U.Tag && D.LineFallback(document, pos) == U.Tag
  {
    match U.NodeAtPosition(root, document, pos)
    case None => D.LineFallback(document, pos)
    case Some(chain) =>
      var ast := U.DetermineInstructionContext(chain[0], chain[1..], document);
      var lineCtx := D.LineFallback(document, pos);
      if ast == U.General || (ast == U.Block && lineCtx == U.Tag) then lineCtx else ast
  }

  /** The owner's parameters and locals, then its labels, for the General search. */
  function ScopeHover(word: string, table: SymbolTable, pos: Position): (r: Option<string>)
    reads table
    ensures r.Some? ==> StartsWith(r.value, "```wat\n")
  {
    match U.FindContainingFunction(table.functions, pos)
    case None => None
    case Some(f) => ParamOrLocalHover(word, f).Or(LabelHover(word, f))
  }

  /**
   * `try_all_symbol_types`: function, global, table, type, the owner's
   * parameters, locals and labels, tag, data, elem, struct field.
   */
  function TryAllSymbolTypes(word: string, table: SymbolTable, document: string, pos: Position): (r: Option<string>)
    reads table
    ensures r.Some? ==> StartsWith(r.value, "```wat\n")
  {
    FunctionHover(word, table).Or(GlobalHover(word, table)).Or(TableHover(word, table)).Or(TypeHover(word, table))
      .Or(ScopeHover(word, table, pos))
      .Or(TagHover(word, table)).Or(DataHover(word, table)).Or(ElemHover(word, table))
      .Or(StructFieldHover(word, table, document, pos))
  }

  /** Hovers the contexts Call, Function, Global, Local, Branch and Block lead to. */
  function CodeHover(word: string, table: SymbolTable, ctx: U.InstructionContext, pos: Position): (r: Option<string>)
    reads table
    ensures r.Some? ==> StartsWith(r.value, "```wat\n")
  {
    var owner := U.FindContainingFunction(table.functions, pos);
    (if ctx == U.Call || ctx == U.Function then FunctionHover(word, table) else None)
      .Or(if ctx == U.Global then GlobalHover(word, table) else None)
      .Or(if (ctx == U.Local || ctx == U.Function) && owner.Some? then ParamOrLocalHover(word, owner.value) else None)
      .Or(if (ctx == U.Branch || ctx == U.Block) && owner.Some? then LabelHover(word, owner.value) else None)
  }

  /** Hovers the contexts Call (an indirect call's table), Table, Memory, General, Type, Tag, Data and Elem lead to. */
  function ItemHover(word: string, table: SymbolTable, document: string, ctx: U.InstructionContext, pos: Position): (r: Option<string>)
    reads table
    ensures r.Some? ==> StartsWith(r.value, "```wat\n")
  {
    (if ctx == U.Table || ctx == U.Call then TableHover(word, table) else None)
      .Or(if ctx == U.Memory || ctx == U.General then MemoryHover(word, table) else None)
      .Or(if ctx == U.Type then TypeHover(word, table).Or(StructFieldHover(word, table, document, pos)) else None)
      .Or(if ctx == U.Tag then TagHover(word, table) else None)
      .Or(if ctx == U.Data then DataHover(word, table) else None)
      .Or(if ctx == U.Elem then ElemHover(word, table) else None)
      .Or(if ctx == U.General then TryAllSymbolTypes(word, table, document, pos) else None)
  }

  /** `provide_symbol_hover` for a given context: the checks in their order, the first hit answering. */
  function SymbolHover(word: string, table: SymbolTable, document: string, ctx: U.InstructionContext, pos: Position): (r: Option<string>)
    reads table
    ensures r.Some? ==> StartsWith(r.value, "```wat\n")
  {
    CodeHover(word, table, ctx, pos).Or(ItemHover(word, table, document, ctx, pos))
  }

  /** In a call, functions are searched and then tables (an indirect call names its table). */
  lemma CallContextSearch(word: string, table: SymbolTable, document: string, pos: Position)
    ensures SymbolHover(word, table, document, U.Call, pos) == FunctionHover(word, table).Or(TableHover(word, table))
  {
  }

  /**
   * In a General context memories are searched before everything else,
   * so a memory shadows a function or global of the same name.
   */
  lemma GeneralContextSearch(word: string, table: SymbolTable, document: string, pos: Position)
    ensures SymbolHover(word, table, document, U.General, pos)
            == MemoryHover(word, table).Or(TryAllSymbolTypes(word, table, document, pos))
  {
  }

  /** In a Global context only the globals are searched. */
  lemma GlobalContextSearch(word: string, table: SymbolTable, document: string, pos: Position)
    ensures SymbolHover(word, table, document, U.Global, pos) == GlobalHover(word, table)
  {
  }

  /** In a Local context only the parameters and locals of the enclosing function are searched. */
  lemma LocalContextSearch(word: string, table: SymbolTable, document: string, pos: Position)
    ensures SymbolHover(word, table, document, U.Local, pos)
            == (match U.FindContainingFunction(table.functions, pos)
                case None => None
                case Some(f) => ParamOrLocalHover(word, f))
  {
  }

  /** In a branch only the labels of the enclosing function are searched. */
  lemma BranchContextSearch(word: string, table: SymbolTable, document: string, pos: Position)
    ensures SymbolHover(word, table, document, U.Branch, pos)
            == (match U.FindContainingFunction(table.functions, pos)
                case None => None
                case Some(f) => LabelHover(word, f))
  {
  }

  /** The first block with the label is described, with its 1-based line. */
  lemma LabelHoverFindsFirst(word: string, f: Function, k: nat)
    requires k < |f.blocks| && f.blocks[k].labelName == word
    requires forall j :: 0 <= j < k ==> f.blocks[j].labelName != word
    ensures LabelHover(word, f) == Some(LabelText(f.blocks[k]))
  {
    var m := FirstWhere(f.blocks, (b: BlockLabel) => b.labelName == word);
    assert m == Some(k);
  }

  // ---------------------------------------------------------------------
  // Indexed hover
  // ---------------------------------------------------------------------

  /**
   * `provide_index_hover`: a function by position in a call, a global by
   * position (its name, or nothing, and ` mut`), or an entry of the
   * enclosing function's local space, named by its own name or else by
   * its number within the parameters or the locals.
   */
  function IndexHover(index: nat, table: SymbolTable, ctx: U.InstructionContext, pos: Position): (r: Option<string>)
    reads table
    ensures r.Some? ==> StartsWith(r.value, "```wat\n")
    ensures !(ctx == U.Call || ctx == U.Global || ctx == U.Local) ==> r.None?
    ensures ctx == U.Call ==> (r.Some? <==> index < |table.functions|)
    ensures ctx == U.Global ==> (r.Some? <==> index < |table.globals|)
    ensures ctx == U.Local ==>
      (r.Some? <==> U.FindContainingFunction(table.functions, pos).Some?
                    && index < |U.FindContainingFunction(table.functions, pos).value.parameters|
                              + |U.FindContainingFunction(table.functions, pos).value.locals|)
  {
    match ctx
    case Call =>
      (match table.GetFunctionByIndex(index)
       case Some(f) => Some(Fenced(FunctionSignature(f)))
       case None => None)
    case Global =>
      (match table.GetGlobalByIndex(index)
       case Some(g) => Some(IndexGlobalText(g))
       case None => None)
    case Local =>
      (match U.FindContainingFunction(table.functions, pos)
       case None => None
       case Some(f) => LocalSpaceHover(index, f))
    case _ => None
  }

  /**
   * An entry of a function's local space by position: the parameters
   * first, then the locals, each named by its own name or else by its
   * number within its own list.
   */
  function LocalSpaceHover(index: nat, f: Function): (r: Option<string>)
    ensures r.Some? <==> index < |f.parameters| + |f.locals|
    ensures r.Some? && index < |f.parameters| ==>
      r.value == Fenced("(param " + f.parameters[index].name.UnwrapOr(NatToString(index)) + " " + ToStr(f.parameters[index].paramType) + ")")
    ensures r.Some? && index >= |f.parameters| ==>
      var v := f.locals[index - |f.parameters|];
      r.value == Fenced("(local " + v.name.UnwrapOr(NatToString(index - |f.parameters|)) + " " + ToStr(v.varType) + ")")
  {
    var totalParams := |f.parameters|;
    if index < totalParams then
      var p := f.parameters[index];
      Some(Fenced("(param " + p.name.UnwrapOr(NatToString(index)) + " " + ToStr(p.paramType) + ")"))
    else
      var localIndex := index - totalParams;
      if localIndex < |f.locals| then
        var v := f.locals[localIndex];
        Some(Fenced("(local " + v.name.UnwrapOr(NatToString(localIndex)) + " " + ToStr(v.varType) + ")"))
      else None
  }

  /** A function described by its position in a call reads as when described by its name. */
  lemma FunctionIndexAgreesWithName(word: string, table: SymbolTable, pos: Position, i: nat)
    requires table.Valid() && LastNamed(FunctionNames(table.functions), word, i)
    ensures IndexHover(i, table, U.Call, pos) == FunctionHover(word, table)
  {
    var r := FunctionHover(word, table);
    var j :| LastNamed(FunctionNames(table.functions), word, j) && r == Some(Fenced(FunctionSignature(table.functions[j])));
    LastNamedUnique(FunctionNames(table.functions), word, i, j);
  }

  lemma LastNamedUnique(names: seq<Option<string>>, name: string, i: int, j: int)
    requires LastNamed(names, name, i) && LastNamed(names, name, j)
    ensures i == j
  {
  }

  /**
   * A global described by its position reads as when described by its
   * name, except that the named text adds the initial value.
   */
  lemma GlobalIndexAgreesWithName(word: string, table: SymbolTable, pos: Position, i: nat)
    requires table.Valid() && LastNamed(GlobalNames(table.globals), word, i)
    ensures GlobalHover(word, table).Some? && IndexHover(i, table, U.Global, pos).Some?
    ensures StartsWith(GlobalHover(word, table).value, IndexHover(i, table, U.Global, pos).value)
    ensures table.globals[i].initialValue.None? ==> GlobalHover(word, table) == IndexHover(i, table, U.Global, pos)
  {
    var r := GlobalHover(word, table);
    var j :| LastNamed(GlobalNames(table.globals), word, j) && r == Some(GlobalText(word, table.globals[j]));
    LastNamedUnique(GlobalNames(table.globals), word, i, j);
    GlobalTextExtendsIndexText(word, table.globals[i]);
  }

  lemma GlobalTextExtendsIndexText(word: string, g: Global)
    requires g.name == Some(word)
    ensures StartsWith(GlobalText(word, g), IndexGlobalText(g))
    ensures g.initialValue.None? ==> GlobalText(word, g) == IndexGlobalText(g)
  {
    var t := "(global " + word + " " + (if g.isMutable then "mut " else "") + ToStr(g.varType) + ")";
    assert t == "(global " + g.name.UnwrapOr("") + (if g.isMutable then " mut" else "") + " " + ToStr(g.varType) + ")";
    var tail := if g.initialValue.Some? then "\n\nInitial value: `" + g.initialValue.value + "`" else "";
    assert GlobalText(word, g) == Fenced(t) + tail;
    assert (Fenced(t) + tail)[..|Fenced(t)|] == Fenced(t);
  }

  /** In a Global context only the globals are searched. */
  lemma GlobalContextOnlyGlobals(word: string, table: SymbolTable, document: string, pos: Position)
    ensures SymbolHover(word, table, document, U.Global, pos) == GlobalHover(word, table)
  {
  }

  /** A parameter described by its position in the local space reads as when described by its name. */
  lemma ParamIndexAgreesWithName(word: string, f: Function, k: nat)
    requires k < |f.parameters| && f.parameters[k].name == Some(word)
    requires forall j :: 0 <= j < k ==> f.parameters[j].name != Some(word)
    ensures LocalSpaceHover(k, f) == ParamOrLocalHover(word, f)
  {
    var m := FirstWhere(f.parameters, (p: Parameter) => p.name == Some(word));
    assert m == Some(k);
  }

  // ---------------------------------------------------------------------
  // The provider
  // ---------------------------------------------------------------------

  /**
   * `provide_hover_core`: nothing inside a comment; an instruction's
   * documentation first; then a `$name` by context, a number by index.
   * Every result carries no range.
   */
  function ProvideHoverCore(document: string, table: SymbolTable, root: Node, pos: Position, docs: map<string, string>)
    : (r: Option<HoverResult>)
    reads table
    ensures U.IsInsideComment(root, document, pos) ==> r.None?
    ensures r.Some? ==> r.value.range.None? && U.WordAt(document, pos).Some?
    ensures r.Some? ==> U.WordAt(document, pos).value in docs || StartsWith(r.value.contents, "```wat\n")
    ensures !U.IsInsideComment(root, document, pos) && U.WordAt(document, pos).Some? && U.WordAt(document, pos).value in docs ==>
      r == Some(NewHover(docs[U.WordAt(document, pos).value]))
    ensures r.Some? && U.WordAt(document, pos).value !in docs ==>
      var word := U.WordAt(document, pos).value;
      if StartsWith(word, "$") then
        Some(r.value.contents) == SymbolHover(word, table, document, HoverContext(document, root, pos), pos)
      else
        D.ParseIndex(word).Some?
        && Some(r.value.contents) == IndexHover(D.ParseIndex(word).value, table, D.DefinitionContext(document, root, pos), pos)
  {
    if U.IsInsideComment(root, document, pos) then None
    else
      match U.WordAt(document, pos)
      case None => None
      case Some(word) =>
        if word in docs then Some(NewHover(docs[word]))
        else if StartsWith(word, "$") then
          match SymbolHover(word, table, document, HoverContext(document, root, pos), pos)
          case Some(text) => Some(NewHover(text))
          case None => None
        else if D.ParseIndex(word).Some? then
          match IndexHover(D.ParseIndex(word).value, table, D.DefinitionContext(document, root, pos), pos)
          case Some(text) => Some(NewHover(text))
          case None => None
        else None
  }
}
