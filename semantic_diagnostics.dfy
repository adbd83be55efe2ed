/**
 * Semantic diagnostics: `$` names that the symbol table does not define
 * in the place they are used, and instructions whose operand count the
 * arity table rejects. The arity table itself is generated elsewhere and
 * enters the model as a map from instruction names to its verdicts.
 */
module SemanticDiagnostics {
  import opened Wrappers
  import opened CoreTypes
  import opened Text
  import opened Tree
  import opened Symbols
  import opened Diagnostics
  import U = Utils

  // Node kinds of the grammar the checks look at.
  const INSTR_PLAIN := "instr_plain"
  const TYPE_USE := "type_use"
  const IDENTIFIER := "identifier"
  const EXPR := "expr"
  const EXPR1_PLAIN := "expr1_plain"
  const OP_INDEX := "op_index"
  const OP_INDEX_OPT := "op_index_opt"
  const OP_CONST := "op_const"
  const OP_NULLARY := "op_nullary"
  const INDEX := "index"
  const INT := "int"
  const FLOAT := "float"

  /** What kind of name an instruction node refers to. */
  datatype ReferenceContext = BranchRef | CallRef | LocalRef | GlobalRef | TableRef | TypeRef | UnknownRef

  predicate IsBranchText(text: string)
  {
    StartsWith(text, "br") || Contains(text, " br")
  }

  /**
   * `determine_reference_context`: only `instr_plain` and `type_use` nodes
   * are classified; the branch test comes first, and an instruction that
   * mentions `call_indirect` is never a call.
   */
  function DetermineReferenceContext(n: Node, src: string): ReferenceContext
  {
    var text := NodeText(n, src);
    if n.kind == INSTR_PLAIN && IsBranchText(text) then BranchRef
    else if n.kind == INSTR_PLAIN && Contains(text, "call") && !Contains(text, "call_indirect") then CallRef
    else if n.kind == INSTR_PLAIN && Contains(text, "local.") then LocalRef
    else if n.kind == INSTR_PLAIN && Contains(text, "global.") then GlobalRef
    else if n.kind == INSTR_PLAIN && Contains(text, "table.") then TableRef
    else if n.kind == TYPE_USE then TypeRef
    else UnknownRef
  }

  /**
   * Only instructions and type uses are classified; a type use is always a
   * type reference; branches win over calls, and `call_indirect` is never
   * a call.
   */
  lemma ReferenceContextClassified(n: Node, src: string)
    ensures var r := DetermineReferenceContext(n, src);
      && (r != UnknownRef ==> n.kind == INSTR_PLAIN || n.kind == TYPE_USE)
      && (r == TypeRef <==> n.kind == TYPE_USE)
      && (r == BranchRef <==> n.kind == INSTR_PLAIN && IsBranchText(NodeText(n, src)))
      && (r == CallRef <==>
            n.kind == INSTR_PLAIN && !IsBranchText(NodeText(n, src))
            && Contains(NodeText(n, src), "call") && !Contains(NodeText(n, src), "call_indirect"))
  {
  }

  /** Some block's label, with or without a leading `$`, is `id`. */
  function AnyBlockLabelled(blocks: seq<BlockLabel>, id: string): (b: bool)
    ensures b <==> exists i :: 0 <= i < |blocks| && ("$" + blocks[i].labelName == id || blocks[i].labelName == id)
  {
    if blocks == [] then false
    else if "$" + blocks[0].labelName == id || blocks[0].labelName == id then true
    else
      var b := AnyBlockLabelled(blocks[1..], id);
      assert forall i :: 1 <= i < |blocks| ==> blocks[i] == blocks[1..][i - 1];
      b
  }

  /** Some parameter is named `id`. */
  function AnyParamNamed(ps: seq<Parameter>, id: string): (b: bool)
    ensures b <==> exists i :: 0 <= i < |ps| && ps[i].name == Some(id)
  {
    if ps == [] then false
    else if ps[0].name == Some(id) then true
    else
      var b := AnyParamNamed(ps[1..], id);
      assert forall i :: 1 <= i < |ps| ==> ps[i] == ps[1..][i - 1];
      b
  }

  /** Some local is named `id`. */
  function AnyLocalNamed(vs: seq<Variable>, id: string): (b: bool)
    ensures b <==> exists i :: 0 <= i < |vs| && vs[i].name == Some(id)
  {
    if vs == [] then false
    else if vs[0].name == Some(id) then true
    else
      var b := AnyLocalNamed(vs[1..], id);
      assert forall i :: 1 <= i < |vs| ==> vs[i] == vs[1..][i - 1];
      b
  }

  /** The parts of the symbol table the definedness check reads, taken at the start of the walk. */
  datatype Scope = Scope(
    functions: seq<Function>, functionMap: map<string, nat>,
    globals: seq<Global>, globalMap: map<string, nat>,
    tables: seq<Table>, tableMap: map<string, nat>,
    types: seq<TypeDef>, typeMap: map<string, nat>)

  function ScopeOf(table: SymbolTable): Scope
    reads table
  {
    Scope(table.functions, table.functionMap, table.globals, table.globalMap,
          table.tables, table.tableMap, table.types, table.typeMap)
  }

  /**
   * Whether `id`, used at `pos` in context `ctx`, names something: labels,
   * parameters and locals are looked up in the function the position is
   * in (none: undefined); the other kinds by name in the table.
   */
  function IsDefined(ctx: ReferenceContext, id: string, scope: Scope, pos: Position): bool
  {
    if ctx == BranchRef || ctx == LocalRef then ScopedDefined(ctx, id, U.FindContainingFunction(scope.functions, pos))
    else TableDefined(ctx, id, scope)
  }

  /** A label or a local: looked up in the function the use is in; outside every function, undefined. */
  function ScopedDefined(ctx: ReferenceContext, id: string, f: Option<Function>): bool
  {
    match f
    case None => false
    case Some(f) =>
      if ctx == BranchRef then AnyBlockLabelled(f.blocks, id)
      else AnyParamNamed(f.parameters, id) || AnyLocalNamed(f.locals, id)
  }

  /** The other kinds: looked up by name in the table; an unknown context is never flagged. */
  function TableDefined(ctx: ReferenceContext, id: string, scope: Scope): bool
  {
    match ctx
    case CallRef => ByName(scope.functions, scope.functionMap, id).Some?
    case GlobalRef => ByName(scope.globals, scope.globalMap, id).Some?
    case TableRef => ByName(scope.tables, scope.tableMap, id).Some?
    case TypeRef => ByName(scope.types, scope.typeMap, id).Some?
    case _ => true
  }

  /**
   * In a table whose name maps are in step with its vectors, a call,
   * global, table or type name is defined exactly when an item of that
   * kind carries it.
   */
  lemma DefinedByName(id: string, table: SymbolTable, pos: Position)
    requires table.Valid()
    ensures IsDefined(CallRef, id, ScopeOf(table), pos) <==> Some(id) in FunctionNames(table.functions)
    ensures IsDefined(GlobalRef, id, ScopeOf(table), pos) <==> Some(id) in GlobalNames(table.globals)
    ensures IsDefined(TableRef, id, ScopeOf(table), pos) <==> Some(id) in TableNames(table.tables)
    ensures IsDefined(TypeRef, id, ScopeOf(table), pos) <==> Some(id) in TypeNames(table.types)
  {
    assert table.GetFunctionByName(id) == ByName(table.functions, table.functionMap, id);
    assert table.GetGlobalByName(id) == ByName(table.globals, table.globalMap, id);
    assert table.GetTableByName(id) == ByName(table.tables, table.tableMap, id);
    assert table.GetTypeByName(id) == ByName(table.types, table.typeMap, id);
  }

  /** Labels, parameters and locals outside every function are undefined; unknown contexts never are. */
  lemma ScopedNamesNeedAFunction(id: string, table: SymbolTable, pos: Position)
    requires U.FindContainingFunction(table.functions, pos).None?
    ensures !IsDefined(BranchRef, id, ScopeOf(table), pos) && !IsDefined(LocalRef, id, ScopeOf(table), pos)
    ensures forall i :: 0 <= i < |table.functions| ==> table.functions[i].line > pos.line
  {
  }

  function Noun(ctx: ReferenceContext): string
  {
    match ctx
    case BranchRef => "label"
    case CallRef => "function"
    case LocalRef => "local or parameter"
    case GlobalRef => "global"
    case TableRef => "table"
    case TypeRef => "type"
    case UnknownRef => "reference"
  }

  /** `create_undefined_reference_diagnostic`: `Undefined <kind> '<id>'` at the identifier. */
  function UndefinedDiagnostic(n: Node, id: string, ctx: ReferenceContext): Diagnostic
  {
    ServerError(NodeToRange(n), "Undefined " + Noun(ctx) + " '" + id + "'")
  }

  /** Where an identifier starts. */
  function StartOfNode(n: Node): Position { Position(n.startPoint.row, n.startPoint.column) }

  /**
   * Whether a name is defined, asked of a context, a name and a position.
   * The walks below take it as a parameter; `Definitions` is the one the
   * server uses.
   */
  type Definedness = (ReferenceContext, string, Position) -> bool

  function Definitions(scope: Scope): Definedness
  {
    (ctx, id, pos) => IsDefined(ctx, id, scope, pos)
  }

  /** The check at an identifier node: only a `$` name that is not defined is reported. */
  function CheckIdentifier(n: Node, src: string, defined: Definedness, ctx: ReferenceContext): seq<Diagnostic>
  {
    var id := NodeText(n, src);
    if !StartsWith(id, "$") || defined(ctx, id, StartOfNode(n)) then []
    else [UndefinedDiagnostic(n, id, ctx)]
  }

  /**
   * An identifier is reported exactly when it is a `$` name not defined in
   * its context, and then by one error naming the kind and the name.
   */
  lemma CheckIdentifierReports(n: Node, src: string, defined: Definedness, ctx: ReferenceContext)
    ensures var r := CheckIdentifier(n, src, defined, ctx);
      && (r == [] <==> !StartsWith(NodeText(n, src), "$") || defined(ctx, NodeText(n, src), StartOfNode(n)))
      && (r != [] ==>
            |r| == 1 && IsServerError(r[0]) && r[0].range == NodeToRange(n)
            && r[0].message == "Undefined " + Noun(ctx) + " '" + NodeText(n, src) + "'")
  {
  }

  /**
   * `find_undefined_identifiers`: checks the identifiers under `n`, but
   * in a branch does not look inside `expr` children.
   */
  function UndefinedIn(n: Node, src: string, defined: Definedness, ctx: ReferenceContext): seq<Diagnostic>
    decreases n, 1
  {
    if n.kind == IDENTIFIER then CheckIdentifier(n, src, defined, ctx)
    else if ctx == BranchRef && n.kind == EXPR then []
    else UndefinedInAll(n.children, src, defined, ctx)
  }

  function UndefinedInAll(xs: seq<Node>, src: string, defined: Definedness, ctx: ReferenceContext): seq<Diagnostic>
    decreases xs, 0
  {
    if xs == [] then []
    else UndefinedInAll(xs[..|xs| - 1], src, defined, ctx) + UndefinedIn(xs[|xs| - 1], src, defined, ctx)
  }

  /**
   * `walk_tree_for_undefined_references`: a classified node is checked;
   * the walk goes on below it only for a branch; an unclassified node
   * passes the walk on to its children.
   */
  function UndefinedRefs(n: Node, src: string, defined: Definedness): seq<Diagnostic>
    decreases n, 1
  {
    var ctx := DetermineReferenceContext(n, src);
    if ctx != UnknownRef then
      UndefinedIn(n, src, defined, ctx) + (if ctx == BranchRef then UndefinedRefsAll(n.children, src, defined) else [])
    else UndefinedRefsAll(n.children, src, defined)
  }

  function UndefinedRefsAll(xs: seq<Node>, src: string, defined: Definedness): seq<Diagnostic>
    decreases xs, 0
  {
    if xs == [] then []
    else UndefinedRefsAll(xs[..|xs| - 1], src, defined) + UndefinedRefs(xs[|xs| - 1], src, defined)
  }

  /** `d` reports the identifier node `m`: a `$` name not defined in context `ctx`. */
  ghost predicate Reports(d: Diagnostic, m: Node, src: string, defined: Definedness, ctx: ReferenceContext)
  {
    m.kind == IDENTIFIER && StartsWith(NodeText(m, src), "$")
    && !defined(ctx, NodeText(m, src), StartOfNode(m))
    && d == UndefinedDiagnostic(m, NodeText(m, src), ctx)
  }

  /** Every diagnostic of a check reports an undefined `$` identifier under the checked node. */
  lemma {:induction false} UndefinedInSound(n: Node, src: string, defined: Definedness, ctx: ReferenceContext)
    ensures forall d :: d in UndefinedIn(n, src, defined, ctx) ==>
      exists m :: m in PreOrder(n) && Reports(d, m, src, defined, ctx)
    decreases n, 1
  {
    if n.kind == IDENTIFIER {
      forall d | d in UndefinedIn(n, src, defined, ctx) ensures exists m :: m in PreOrder(n) && Reports(d, m, src, defined, ctx) {
        assert n in PreOrder(n) && Reports(d, n, src, defined, ctx);
      }
    } else if !(ctx == BranchRef && n.kind == EXPR) {
      UndefinedInAllSound(n.children, src, defined, ctx);
    }
  }

  lemma {:induction false} UndefinedInAllSound(xs: seq<Node>, src: string, defined: Definedness, ctx: ReferenceContext)
    ensures forall d :: d in UndefinedInAll(xs, src, defined, ctx) ==>
      exists m :: m in PreOrderAll(xs) && Reports(d, m, src, defined, ctx)
    decreases xs, 0
  {
    if xs != [] {
      var init, last := xs[..|xs| - 1], xs[|xs| - 1];
      UndefinedInAllSound(init, src, defined, ctx);
      UndefinedInSound(last, src, defined, ctx);
      PreOrderAllSnoc(xs);
    }
  }

  /**
   * Every diagnostic of the walk reports a `$` identifier somewhere in
   * the tree that is not defined in the context of a classified
   * instruction; numeric indices are never reported.
   */
  lemma {:induction false} UndefinedRefsSound(n: Node, src: string, defined: Definedness)
    ensures forall d :: d in UndefinedRefs(n, src, defined) ==>
      exists m, ctx :: m in PreOrder(n) && ctx != UnknownRef && Reports(d, m, src, defined, ctx)
    decreases n, 1
  {
    var ctx := DetermineReferenceContext(n, src);
    UndefinedRefsAllSound(n.children, src, defined);
    if ctx != UnknownRef {
      UndefinedInSound(n, src, defined, ctx);
    }
  }

  lemma {:induction false} UndefinedRefsAllSound(xs: seq<Node>, src: string, defined: Definedness)
    ensures forall d :: d in UndefinedRefsAll(xs, src, defined) ==>
      exists m, ctx :: m in PreOrderAll(xs) && ctx != UnknownRef && Reports(d, m, src, defined, ctx)
    decreases xs, 0
  {
    if xs != [] {
      UndefinedRefsAllSound(xs[..|xs| - 1], src, defined);
      UndefinedRefsSound(xs[|xs| - 1], src, defined);
      PreOrderAllSnoc(xs);
    }
  }

  /**
   * The identifier nodes a check of `n` in context `ctx` looks at: the
   * check stops at an identifier, and in a branch it does not look inside
   * an `expr` node.
   */
  ghost function CheckedIds(n: Node, ctx: ReferenceContext): seq<Node>
    decreases n, 1
  {
    if n.kind == IDENTIFIER then [n]
    else if ctx == BranchRef && n.kind == EXPR then []
    else CheckedIdsAll(n.children, ctx)
  }

  ghost function CheckedIdsAll(xs: seq<Node>, ctx: ReferenceContext): seq<Node>
    decreases xs, 0
  {
    if xs == [] then [] else CheckedIdsAll(xs[..|xs| - 1], ctx) + CheckedIds(xs[|xs| - 1], ctx)
  }

  /**
   * The nodes the walk reaches: every node that does not lie inside a
   * classified instruction other than a branch (the walk checks such an
   * instruction and does not go below it).
   */
  ghost function Visited(n: Node, src: string): seq<Node>
    decreases n, 1
  {
    var ctx := DetermineReferenceContext(n, src);
    [n] + (if ctx == UnknownRef || ctx == BranchRef then VisitedAll(n.children, src) else [])
  }

  ghost function VisitedAll(xs: seq<Node>, src: string): seq<Node>
    decreases xs, 0
  {
    if xs == [] then [] else VisitedAll(xs[..|xs| - 1], src) + Visited(xs[|xs| - 1], src)
  }

  /** The identifier `m` is a `$` name that is not defined in context `ctx`. */
  predicate Missed(m: Node, src: string, defined: Definedness, ctx: ReferenceContext)
  {
    StartsWith(NodeText(m, src), "$") && !defined(ctx, NodeText(m, src), StartOfNode(m))
  }

  /** Every identifier a check looks at that is an undefined `$` name is reported. */
  lemma {:induction false} UndefinedInComplete(n: Node, src: string, defined: Definedness, ctx: ReferenceContext)
    ensures forall m :: m in CheckedIds(n, ctx) && Missed(m, src, defined, ctx) ==>
      UndefinedDiagnostic(m, NodeText(m, src), ctx) in UndefinedIn(n, src, defined, ctx)
    decreases n, 1
  {
    if n.kind != IDENTIFIER && !(ctx == BranchRef && n.kind == EXPR) {
      UndefinedInAllComplete(n.children, src, defined, ctx);
    }
  }

  lemma {:induction false} UndefinedInAllComplete(xs: seq<Node>, src: string, defined: Definedness, ctx: ReferenceContext)
    ensures forall m :: m in CheckedIdsAll(xs, ctx) && Missed(m, src, defined, ctx) ==>
      UndefinedDiagnostic(m, NodeText(m, src), ctx) in UndefinedInAll(xs, src, defined, ctx)
    decreases xs, 0
  {
    if xs != [] {
      UndefinedInAllComplete(xs[..|xs| - 1], src, defined, ctx);
      UndefinedInComplete(xs[|xs| - 1], src, defined, ctx);
    }
  }

  /**
   * The converse of `UndefinedRefsSound`: for every classified instruction
   * the walk reaches, every identifier its check looks at that is a `$`
   * name undefined in the instruction's context is reported. Identifiers
   * under a branch's `expr` child, or inside an instruction already
   * checked as a non-branch, are the ones the walk does not look at.
   */
  lemma {:induction false} UndefinedRefsComplete(n: Node, src: string, defined: Definedness)
    ensures forall c, m :: c in Visited(n, src) && DetermineReferenceContext(c, src) != UnknownRef
                           && m in CheckedIds(c, DetermineReferenceContext(c, src))
                           && Missed(m, src, defined, DetermineReferenceContext(c, src)) ==>
      UndefinedDiagnostic(m, NodeText(m, src), DetermineReferenceContext(c, src)) in UndefinedRefs(n, src, defined)
    decreases n, 1
  {
    var ctx := DetermineReferenceContext(n, src);
    if ctx != UnknownRef {
      UndefinedInComplete(n, src, defined, ctx);
    }
    if ctx == UnknownRef || ctx == BranchRef {
      UndefinedRefsAllComplete(n.children, src, defined);
    }
  }

  lemma {:induction false} UndefinedRefsAllComplete(xs: seq<Node>, src: string, defined: Definedness)
    ensures forall c, m :: c in VisitedAll(xs, src) && DetermineReferenceContext(c, src) != UnknownRef
                           && m in CheckedIds(c, DetermineReferenceContext(c, src))
                           && Missed(m, src, defined, DetermineReferenceContext(c, src)) ==>
      UndefinedDiagnostic(m, NodeText(m, src), DetermineReferenceContext(c, src)) in UndefinedRefsAll(xs, src, defined)
    decreases xs, 0
  {
    if xs != [] {
      UndefinedRefsAllComplete(xs[..|xs| - 1], src, defined);
      UndefinedRefsComplete(xs[|xs| - 1], src, defined);
    }
  }

  // ---------------------------------------------------------------------
  // Arity checks
  // ---------------------------------------------------------------------

  /** What the arity table says about one instruction. */
  datatype Arity = Arity(
    isValid: nat -> bool,
    isValidOperands: nat -> bool,
    expectedMessage: string,
    expectedOperandsMessage: string)

  /** `.filter(|c| kinds.contains(c.kind())).count()`. */
  function CountKinds(xs: seq<Node>, kinds: set<string>): nat
  {
    if xs == [] then 0 else (if xs[0].kind in kinds then 1 else 0) + CountKinds(xs[1..], kinds)
  }

  const INSTRUCTION_LEAD := "Instruction '"

  /** `create_parameter_count_diagnostic`'s message: the count, then `parameter` or `parameters`. */
  function ParameterCountMessage(name: string, count: nat, expected: string): string
  {
    INSTRUCTION_LEAD + name + "' expects " + expected + " parameter(s), but got " + NatToString(count)
    + (if count == 1 then " parameter" else " parameters")
  }

  /** The message names the instruction, the expectation and the count, and agrees in number with the count. */
  lemma ParameterCountMessageShape(name: string, count: nat, expected: string)
    ensures var m := ParameterCountMessage(name, count, expected);
      && StartsWith(m, INSTRUCTION_LEAD)
      && StartsWith(m, INSTRUCTION_LEAD + name + "' expects " + expected + " parameter(s), but got " + NatToString(count))
      && EndsWith(m, if count == 1 then " parameter" else " parameters")
  {
    var lead := INSTRUCTION_LEAD + name + "' expects " + expected + " parameter(s), but got " + NatToString(count);
    var word := if count == 1 then " parameter" else " parameters";
    assert (lead + word)[..|lead|] == lead && (lead + word)[|lead|..] == word;
    assert lead[..|INSTRUCTION_LEAD|] == INSTRUCTION_LEAD;
  }

  /** `create_operand_count_diagnostic`'s message. */
  function OperandCountMessage(name: string, count: nat, expected: string): string
  {
    INSTRUCTION_LEAD + name + "' expects " + expected + ", but got " + NatToString(count)
  }

  /** Both arity messages open with the same lead. */
  lemma CountMessagesLead(name: string, count: nat, expected: string)
    ensures StartsWith(ParameterCountMessage(name, count, expected), INSTRUCTION_LEAD)
    ensures StartsWith(OperandCountMessage(name, count, expected), INSTRUCTION_LEAD)
  {
    ParameterCountMessageShape(name, count, expected);
    var m := OperandCountMessage(name, count, expected);
    assert m[..|INSTRUCTION_LEAD|] == INSTRUCTION_LEAD;
  }

  /** `validate_instruction_arity`: a diagnostic only for a listed instruction with a count it rejects. */
  function ValidateArity(name: string, count: nat, n: Node, arities: map<string, Arity>): seq<Diagnostic>
  {
    if name in arities && !arities[name].isValid(count) then
      [ServerError(NodeToRange(n), ParameterCountMessage(name, count, arities[name].expectedMessage))]
    else []
  }

  /**
   * Unknown instructions and accepted counts pass; a rejected count gives
   * one error at the instruction naming it and the count.
   */
  lemma ValidateArityReports(name: string, count: nat, n: Node, arities: map<string, Arity>)
    ensures var r := ValidateArity(name, count, n, arities);
      && (r != [] <==> name in arities && !arities[name].isValid(count))
      && (r != [] ==>
            |r| == 1 && IsServerError(r[0]) && r[0].range == NodeToRange(n)
            && r[0].message == ParameterCountMessage(name, count, arities[name].expectedMessage)
            && StartsWith(r[0].message, INSTRUCTION_LEAD))
  {
    if name in arities && !arities[name].isValid(count) {
      CountMessagesLead(name, count, arities[name].expectedMessage);
    }
  }

  /**
   * `check_instruction_parameter_count`: the first child's kind says what
   * counts as a parameter: `index` children after an indexed operator,
   * number children inside a constant, `index` or `expr` children after
   * a nullary operator.
   */
  function CheckInstructionParameterCount(n: Node, src: string, arities: map<string, Arity>): seq<Diagnostic>
  {
    if n.children == [] then []
    else
      var first := n.children[0];
      if first.kind == OP_INDEX || first.kind == OP_INDEX_OPT then
        ValidateArity(Trim(NodeText(first, src)), CountKinds(n.children[1..], {INDEX}), n, arities)
      else if first.kind == OP_CONST then
        if first.children == [] then []
        else ValidateArity(Trim(NodeText(first.children[0], src)), CountKinds(first.children[1..], {INT, FLOAT}), n, arities)
      else if first.kind == OP_NULLARY then
        ValidateArity(Trim(NodeText(first, src)), CountKinds(n.children[1..], {INDEX, EXPR}), n, arities)
      else []
  }

  /** The instruction name of a folded expression: its leading `instr_plain`'s operator. */
  function FoldedName(n: Node, src: string): Option<string>
  {
    if n.children == [] || n.children[0].kind != INSTR_PLAIN || n.children[0].children == [] then None
    else
      var op := n.children[0].children[0];
      if op.kind == OP_INDEX || op.kind == OP_INDEX_OPT || op.kind == OP_NULLARY then Some(Trim(NodeText(op, src)))
      else if op.kind == OP_CONST && op.children != [] then Some(Trim(NodeText(op.children[0], src)))
      else None
  }

  /** `check_folded_instruction_parameter_count`: the `expr` operands after the instruction. */
  function CheckFoldedInstructionParameterCount(n: Node, src: string, arities: map<string, Arity>): seq<Diagnostic>
  {
    match FoldedName(n, src)
    case None => []
    case Some(name) =>
      var count := CountKinds(n.children[1..], {EXPR});
      if name in arities && !arities[name].isValidOperands(count) then
        [ServerError(NodeToRange(n), OperandCountMessage(name, count, arities[name].expectedOperandsMessage))]
      else []
  }

  /** A folded instruction is reported exactly when its `expr` operand count is rejected. */
  lemma FoldedCheckReports(n: Node, src: string, arities: map<string, Arity>)
    ensures var r := CheckFoldedInstructionParameterCount(n, src, arities);
      && |r| <= 1
      && (r != [] <==>
            FoldedName(n, src).Some? && FoldedName(n, src).value in arities
            && !arities[FoldedName(n, src).value].isValidOperands(CountKinds(n.children[1..], {EXPR})))
  {
  }

  /**
   * `walk_tree_for_parameter_counts`: every visited node is checked; a
   * linear instruction is not entered, every other node is. The check is
   * a parameter so that the walk's shape is stated apart from what the
   * check at one node does; `ArityCheck` is the check the server runs.
   */
  function ParamCounts(n: Node, check: Node -> seq<Diagnostic>): seq<Diagnostic>
    decreases n, 1
  {
    check(n) + (if n.kind == INSTR_PLAIN then [] else ParamCountsAll(n.children, check))
  }

  function ParamCountsAll(xs: seq<Node>, check: Node -> seq<Diagnostic>): seq<Diagnostic>
    decreases xs, 0
  {
    if xs == [] then []
    else ParamCountsAll(xs[..|xs| - 1], check) + ParamCounts(xs[|xs| - 1], check)
  }

  /** The check the walk makes at each node it visits, against an arity table. */
  function ArityCheck(src: string, arities: map<string, Arity>): Node -> seq<Diagnostic>
  {
    m => NodeCounts(m, src, arities)
  }

  /** The check the walk makes at `n` itself. */
  function NodeCounts(n: Node, src: string, arities: map<string, Arity>): seq<Diagnostic>
  {
    if n.kind == INSTR_PLAIN then CheckInstructionParameterCount(n, src, arities)
    else if n.kind == EXPR1_PLAIN then CheckFoldedInstructionParameterCount(n, src, arities)
    else []
  }

  /** Only instructions are checked, and every report is an error at the checked node. */
  lemma NodeCountsShape(n: Node, src: string, arities: map<string, Arity>)
    ensures forall d :: d in NodeCounts(n, src, arities) ==>
      IsServerError(d) && StartsWith(d.message, INSTRUCTION_LEAD) && d.range == NodeToRange(n)
      && (n.kind == INSTR_PLAIN || n.kind == EXPR1_PLAIN)
  {
    var r := NodeCounts(n, src, arities);
    if r != [] {
      if n.kind == INSTR_PLAIN {
        var first := n.children[0];
        if first.kind == OP_INDEX || first.kind == OP_INDEX_OPT || first.kind == OP_NULLARY {
          var name := Trim(NodeText(first, src));
          ValidateArityReports(name, CountKinds(n.children[1..], if first.kind == OP_NULLARY then {INDEX, EXPR} else {INDEX}), n, arities);
        } else {
          var name := Trim(NodeText(first.children[0], src));
          ValidateArityReports(name, CountKinds(first.children[1..], {INT, FLOAT}), n, arities);
        }
      } else {
        var name := FoldedName(n, src).value;
        CountMessagesLead(name, CountKinds(n.children[1..], {EXPR}), arities[name].expectedOperandsMessage);
      }
    }
  }

  /**
   * Every arity diagnostic is an error at a linear or folded instruction
   * of the tree.
   */
  lemma {:induction false} ParamCountsSound(n: Node, src: string, arities: map<string, Arity>)
    ensures forall d :: d in ParamCounts(n, ArityCheck(src, arities)) ==>
      IsServerError(d) && StartsWith(d.message, INSTRUCTION_LEAD)
      && exists m :: m in PreOrder(n) && (m.kind == INSTR_PLAIN || m.kind == EXPR1_PLAIN) && d.range == NodeToRange(m)
    decreases n, 1
  {
    assert n in PreOrder(n);
    NodeCountsShape(n, src, arities);
    if n.kind != INSTR_PLAIN {
      ParamCountsAllSound(n.children, src, arities);
    }
  }

  lemma {:induction false} ParamCountsAllSound(xs: seq<Node>, src: string, arities: map<string, Arity>)
    ensures forall d :: d in ParamCountsAll(xs, ArityCheck(src, arities)) ==>
      IsServerError(d) && StartsWith(d.message, INSTRUCTION_LEAD)
      && exists m :: m in PreOrderAll(xs) && (m.kind == INSTR_PLAIN || m.kind == EXPR1_PLAIN) && d.range == NodeToRange(m)
    decreases xs, 0
  {
    if xs != [] {
      ParamCountsAllSound(xs[..|xs| - 1], src, arities);
      ParamCountsSound(xs[|xs| - 1], src, arities);
      PreOrderAllSnoc(xs);
    }
  }

  /** With nothing in the arity table, no count is ever reported. */
  lemma {:induction false} NoAritiesNoCounts(n: Node, src: string)
    ensures ParamCounts(n, ArityCheck(src, map[])) == []
    decreases n, 1
  {
    NoAritiesNoCountsAll(n.children, src);
  }

  lemma {:induction false} NoAritiesNoCountsAll(xs: seq<Node>, src: string)
    ensures ParamCountsAll(xs, ArityCheck(src, map[])) == []
    decreases xs, 0
  {
    if xs != [] {
      NoAritiesNoCountsAll(xs[..|xs| - 1], src);
      NoAritiesNoCounts(xs[|xs| - 1], src);
    }
  }

  // ---------------------------------------------------------------------
  // The walks
  // ---------------------------------------------------------------------

  /** `find_undefined_identifiers`, pushing into `diagnostics`. */
  method FindUndefinedIdentifiers(n: Node, src: string, defined: Definedness, ctx: ReferenceContext, diagnostics: seq<Diagnostic>)
    returns (out: seq<Diagnostic>)
    ensures out == diagnostics + UndefinedIn(n, src, defined, ctx)
    decreases n, 1
  {
    if n.kind == IDENTIFIER {
      out := diagnostics + CheckIdentifier(n, src, defined, ctx);
    } else if ctx == BranchRef && n.kind == EXPR {
      out := diagnostics;
    } else {
      out := FindInChildren(n, src, defined, ctx, diagnostics);
    }
  }

  /** The loop of `find_undefined_identifiers` over the children. */
  method FindInChildren(n: Node, src: string, defined: Definedness, ctx: ReferenceContext, diagnostics: seq<Diagnostic>)
    returns (out: seq<Diagnostic>)
    ensures out == diagnostics + UndefinedInAll(n.children, src, defined, ctx)
    decreases n, 0
  {
    out := diagnostics;
    var i := 0;
    while i < |n.children|
      invariant 0 <= i <= |n.children|
      invariant out == diagnostics + UndefinedInAll(n.children[..i], src, defined, ctx)
    {
      assert n.children[..i + 1][..i] == n.children[..i];
      out := FindUndefinedIdentifiers(n.children[i], src, defined, ctx, out);
      i := i + 1;
    }
    assert n.children[..i] == n.children;
  }

  /** `walk_tree_for_undefined_references`, pushing into `diagnostics`. */
  method WalkTreeForUndefinedReferences(n: Node, src: string, defined: Definedness, diagnostics: seq<Diagnostic>)
    returns (out: seq<Diagnostic>)
    ensures out == diagnostics + UndefinedRefs(n, src, defined)
    decreases n, 1
  {
    var ctx := DetermineReferenceContext(n, src);
    out := diagnostics;
    if ctx != UnknownRef {
      out := FindUndefinedIdentifiers(n, src, defined, ctx, out);
      if ctx != BranchRef {
        return;
      }
    }
    out := WalkChildrenForUndefined(n, src, defined, out);
  }

  /** The loop of `walk_tree_for_undefined_references` over the children. */
  method WalkChildrenForUndefined(n: Node, src: string, defined: Definedness, diagnostics: seq<Diagnostic>)
    returns (out: seq<Diagnostic>)
    ensures out == diagnostics + UndefinedRefsAll(n.children, src, defined)
    decreases n, 0
  {
    out := diagnostics;
    var i := 0;
    while i < |n.children|
      invariant 0 <= i <= |n.children|
      invariant out == diagnostics + UndefinedRefsAll(n.children[..i], src, defined)
    {
      assert n.children[..i + 1][..i] == n.children[..i];
      out := WalkTreeForUndefinedReferences(n.children[i], src, defined, out);
      i := i + 1;
    }
    assert n.children[..i] == n.children;
  }

  /** `walk_tree_for_parameter_counts`, pushing into `diagnostics`. */
  method WalkTreeForParameterCounts(n: Node, check: Node -> seq<Diagnostic>, diagnostics: seq<Diagnostic>)
    returns (out: seq<Diagnostic>)
    ensures out == diagnostics + ParamCounts(n, check)
    decreases n, 1
  {
    out := diagnostics + check(n);
    if n.kind == INSTR_PLAIN {
      return;
    }
    out := WalkChildrenForParameterCounts(n, check, out);
  }

  /** The loop of `walk_tree_for_parameter_counts` over the children. */
  method WalkChildrenForParameterCounts(n: Node, check: Node -> seq<Diagnostic>, diagnostics: seq<Diagnostic>)
    returns (out: seq<Diagnostic>)
    ensures out == diagnostics + ParamCountsAll(n.children, check)
    decreases n, 0
  {
    out := diagnostics;
    var i := 0;
    while i < |n.children|
      invariant 0 <= i <= |n.children|
      invariant out == diagnostics + ParamCountsAll(n.children[..i], check)
    {
      assert n.children[..i + 1][..i] == n.children[..i];
      out := WalkTreeForParameterCounts(n.children[i], check, out);
      i := i + 1;
    }
    assert n.children[..i] == n.children;
  }

  /** `provide_semantic_diagnostics`: the undefined-name walk, then the arity walk. */
  method ProvideSemanticDiagnostics(root: Node, src: string, table: SymbolTable, arities: map<string, Arity>)
    returns (diagnostics: seq<Diagnostic>)
    ensures diagnostics == UndefinedRefs(root, src, Definitions(ScopeOf(table))) + ParamCounts(root, ArityCheck(src, arities))
  {
    diagnostics := WalkTreeForUndefinedReferences(root, src, Definitions(ScopeOf(table)), []);
    diagnostics := WalkTreeForParameterCounts(root, ArityCheck(src, arities), diagnostics);
  }
}
