/**
 * Signature help on the shared lookup (src/features/signature/mod.rs):
 * the older provider's direct calls, plus indirect calls through a typed
 * function reference, `call_ref $t(` and `return_call_ref $t(`, whose
 * help is built from the function type `$t` with the reference itself as
 * a last, extra argument.
 */
module FeaturesSignature {
  import opened Wrappers
  import opened CoreTypes
  import opened Tree
  import opened Text
  import opened Symbols
  import U = Utils
  import H = Hover
  import S = Signature

  datatype CallType = Direct | CallRef | ReturnCallRef

  datatype CallInfo = CallInfo(name: string, argText: string, callType: CallType)

  // ---------------------------------------------------------------------
  // The call on the line
  // ---------------------------------------------------------------------

  /** `extract_name_from_call`: the text up to the first whitespace or `(`, unless that is empty. */
  function ExtractName(afterCall: string): (r: Option<string>)
    ensures r.None? <==> afterCall == [] || S.IsNameBreak(afterCall[0])
    ensures r.Some? ==>
      0 < |r.value| <= |afterCall| && r.value == afterCall[..|r.value|]
      && (forall i :: 0 <= i < |r.value| ==> !S.IsNameBreak(r.value[i]))
      && (|r.value| < |afterCall| ==> S.IsNameBreak(afterCall[|r.value|]))
  {
    var name := S.NameAtStart(afterCall);
    if name != "" then Some(name) else None
  }

  /** `keyword` occurs at `ci`, and `name` is what follows it. */
  predicate NameAfter(pattern: string, keyword: string, ci: nat, name: Option<string>)
  {
    OccursAt(pattern, keyword, ci) && name == ExtractName(TrimStart(pattern[ci + |keyword|..]))
  }

  /** The name after the last occurrence of `keyword` in the pattern. */
  function KeywordCall(pattern: string, keyword: string): Option<string>
  {
    match RFind(pattern, keyword)
    case None => None
    case Some(ci) => ExtractName(TrimStart(pattern[ci + |keyword|..]))
  }

  /** The text before `ci` ends like the tail of `return_call` or another `…_call`. */
  predicate AfterUnderscore(pattern: string, ci: nat)
    requires ci <= |pattern|
  {
    EndsWith(pattern[..ci], "return_") || EndsWith(pattern[..ci], "_")
  }

  /** The name after the last `call `, unless that `call ` follows an underscore. */
  function DirectCall(pattern: string): Option<string>
  {
    match RFind(pattern, "call ")
    case None => None
    case Some(ci) => if AfterUnderscore(pattern, ci) then None else ExtractName(TrimStart(pattern[ci + 5..]))
  }

  /** A keyword's name is read after the keyword's last occurrence, past any whitespace. */
  lemma NameFollowsLastKeyword(pattern: string, keyword: string)
    ensures KeywordCall(pattern, keyword).Some? ==>
      exists ci: nat :: (NameAfter(pattern, keyword, ci, KeywordCall(pattern, keyword))
                         && forall j :: ci < j <= |pattern| ==> !OccursAt(pattern, keyword, j))
  {
    if KeywordCall(pattern, keyword).Some? {
      var ci := RFind(pattern, keyword).value;
      assert NameAfter(pattern, keyword, ci, KeywordCall(pattern, keyword));
    }
  }

  /** A plain `call` counts only at its last occurrence, and only when no underscore comes right before it. */
  lemma NameFollowsLastDirectCall(pattern: string)
    ensures DirectCall(pattern).Some? ==>
      exists ci: nat :: (NameAfter(pattern, "call ", ci, DirectCall(pattern)) && ci <= |pattern| && !AfterUnderscore(pattern, ci)
                         && forall j :: ci < j <= |pattern| ==> !OccursAt(pattern, "call ", j))
  {
    if DirectCall(pattern).Some? {
      var ci := RFind(pattern, "call ").value;
      assert NameAfter(pattern, "call ", ci, DirectCall(pattern));
    }
  }

  /** The call before the open parenthesis at `p`: `return_call_ref`, then `call_ref`, then `call`. */
  function CallBeforeParen(prefix: string, p: nat): (r: Option<CallInfo>)
    requires p < |prefix|
    ensures r.Some? ==> r.value.argText == prefix[p + 1..] && r.value.name != ""
  {
    var pattern := S.CallPattern(prefix, p);
    var args := prefix[p + 1..];
    match KeywordCall(pattern, "return_call_ref ")
    case Some(n) => Some(CallInfo(n, args, ReturnCallRef))
    case None =>
      match KeywordCall(pattern, "call_ref ")
      case Some(n) => Some(CallInfo(n, args, CallRef))
      case None =>
        match DirectCall(pattern)
        case Some(n) => Some(CallInfo(n, args, Direct))
        case None => None
  }

  /** `find_function_call`: the nearest unclosed `(` and the call before it. */
  function CallFromLine(prefix: string): (r: Option<CallInfo>)
    ensures S.UnmatchedParen(prefix).None? ==> r.None?
    ensures r.Some? ==>
      var p := S.UnmatchedParen(prefix).value;
      p < |prefix| && prefix[p] == '(' && r.value.argText == prefix[p + 1..] && r.value.name != ""
  {
    match S.UnmatchedParen(prefix)
    case None => None
    case Some(p) => CallBeforeParen(prefix, p)
  }

  /**
   * The keyword decides, not its position: a `return_call_ref` with a
   * name anywhere before the parenthesis wins over any `call_ref`, and a
   * `call_ref` wins over any plain `call`.
   */
  lemma KeywordPrecedence(prefix: string, p: nat)
    requires p < |prefix|
    ensures KeywordCall(S.CallPattern(prefix, p), "return_call_ref ").Some? ==>
      CallBeforeParen(prefix, p).Some? && CallBeforeParen(prefix, p).value.callType == ReturnCallRef
    ensures KeywordCall(S.CallPattern(prefix, p), "return_call_ref ").None? && KeywordCall(S.CallPattern(prefix, p), "call_ref ").Some? ==>
      CallBeforeParen(prefix, p).Some? && CallBeforeParen(prefix, p).value.callType == CallRef
    ensures CallBeforeParen(prefix, p).Some? && CallBeforeParen(prefix, p).value.callType == Direct ==>
      KeywordCall(S.CallPattern(prefix, p), "return_call_ref ").None? && KeywordCall(S.CallPattern(prefix, p), "call_ref ").None?
      && DirectCall(S.CallPattern(prefix, p)) == Some(CallBeforeParen(prefix, p).value.name)
  {
  }

  /** A plain call found on the line is the call the older provider finds there. */
  lemma DirectAgreesWithOlderProvider(prefix: string)
    requires CallFromLine(prefix).Some? && CallFromLine(prefix).value.callType == Direct
    ensures S.CallFromLine(prefix) == Some(S.CallInfo(CallFromLine(prefix).value.name, CallFromLine(prefix).value.argText))
  {
    var p := S.UnmatchedParen(prefix).value;
    assert S.CallFromLine(prefix) == S.CallAfter(prefix, p, RFind(S.CallPattern(prefix, p), "call "));
  }

  /** An occurrence past the end of `m` in `m + t` is an occurrence in `t`. */
  lemma OccursInSuffix(m: string, t: string, p: string, k: nat)
    requires OccursAt(m + t, p, |m| + k)
    ensures OccursAt(t, p, k)
  {
    var s := m + t;
    assert s[|m|..] == t;
    assert t[k..k + |p|] == s[|m|..][k..k + |p|] == s[|m| + k..|m| + k + |p|];
  }

  /**
   * `return_call` is a tail call, but the underscore before its `call `
   * turns it down: whatever comes before it, a line whose last `call ` is
   * the one inside `return_call ` has no direct call.
   */
  lemma ReturnCallIsNotDirect(before: string, after: string)
    requires forall j :: 0 <= j <= |after| ==> !OccursAt(after, "call ", j)
    ensures DirectCall(before + "return_call " + after) == None
  {
    var s := before + "return_call " + after;
    var ci := |before| + 7;
    NoCallAfterReturnCall(before, after);
    assert s[ci..ci + 5] == "call ";
    assert OccursAt(s, "call ", ci);
    var r := RFind(s, "call ");
    assert r.Some? && !(r.value < ci) && !(r.value > ci);
    assert s[..ci] == before + "return_";
  }

  /** No `call ` of such a line starts after the one inside `return_call `. */
  lemma NoCallAfterReturnCall(before: string, after: string)
    requires forall j :: 0 <= j <= |after| ==> !OccursAt(after, "call ", j)
    ensures forall j :: |before| + 7 < j <= |before + "return_call " + after| ==>
      !OccursAt(before + "return_call " + after, "call ", j)
  {
    var m := before + "return_call ";
    var s := m + after;
    forall j | |before| + 7 < j <= |s|
      ensures !OccursAt(s, "call ", j)
    {
      if j < |m| {
        assert s[j] == "return_call "[j - |before|];
      } else if OccursAt(s, "call ", j) {
        OccursInSuffix(m, after, "call ", j - |m|);
      }
    }
  }

  /** `find_function_call`: the backward loop of the older provider, then the three keywords in turn. */
  method FindFunctionCall(prefix: string) returns (r: Option<CallInfo>)
    ensures r == CallFromLine(prefix)
  {
    var paren := S.FindUnmatchedParen(prefix);
    if paren.None? {
      return None;
    }
    r := CallBeforeParen(prefix, paren.value);
  }

  // ---------------------------------------------------------------------
  // The call in the tree
  // ---------------------------------------------------------------------

  /** The call an instruction's text makes; a plain `call` must not be any `call_…` form. */
  function TextCallType(text: string): (r: Option<CallType>)
    ensures r == Some(ReturnCallRef) <==> Contains(text, "return_call_ref ")
    ensures r == Some(CallRef) <==> !Contains(text, "return_call_ref ") && Contains(text, "call_ref ")
    ensures r == Some(Direct) ==> Contains(text, "call ") && !Contains(text, "call_")
    ensures r.None? ==> !Contains(text, "return_call_ref ") && !Contains(text, "call_ref ")
  {
    if Contains(text, "return_call_ref ") then Some(ReturnCallRef)
    else if Contains(text, "call_ref ") then Some(CallRef)
    else if Contains(text, "call ") && !Contains(text, "call_") then Some(Direct)
    else None
  }

  /** The call this node makes, if it is a call instruction with a callee. */
  function NodeCall(n: Node, document: string): (r: Option<CallInfo>)
    ensures r.Some? <==> S.IsInstruction(n) && TextCallType(NodeText(n, document)).Some? && S.Operands(n.children) != []
    ensures r.Some? ==>
      r.value.name == NodeText(S.Operands(n.children)[0], document)
      && r.value.callType == TextCallType(NodeText(n, document)).value
      && CountChar(r.value.argText, ',') == if |S.Operands(n.children)| >= 2 then |S.Operands(n.children)| - 2 else 0
  {
    if S.IsInstruction(n) && TextCallType(NodeText(n, document)).Some? then
      var ops := S.Operands(n.children);
      if ops == [] then None
      else Some(CallInfo(NodeText(ops[0], document), S.OperandCommas(|ops| - 1), TextCallType(NodeText(n, document)).value))
    else None
  }

  /** The first call along the chain from the node up to the root. */
  function CallFromChain(chain: seq<Node>, document: string): (r: Option<CallInfo>)
    ensures r.None? ==> forall k :: 0 <= k < |chain| ==> NodeCall(chain[k], document).None?
    ensures r.Some? ==> exists k :: 0 <= k < |chain| && r == NodeCall(chain[k], document)
  {
    if chain == [] then None
    else
      match NodeCall(chain[0], document)
      case Some(c) => Some(c)
      case None =>
        var rest := CallFromChain(chain[1..], document);
        assert rest.Some? ==> exists k :: 0 <= k < |chain[1..]| && rest == NodeCall(chain[1..][k], document);
        assert forall k :: 0 <= k < |chain[1..]| ==> chain[1..][k] == chain[k + 1];
        rest
  }

  /** `find_function_call_ast`: walk from the node up through its ancestors. */
  method FindFunctionCallAst(chain: seq<Node>, document: string) returns (r: Option<CallInfo>)
    ensures r == CallFromChain(chain, document)
  {
    var k := 0;
    while k < |chain|
      invariant 0 <= k <= |chain|
      invariant CallFromChain(chain[k..], document) == CallFromChain(chain, document)
    {
      var current := chain[k];
      assert chain[k..][1..] == chain[k + 1..];
      if S.IsInstruction(current) {
        var callType := TextCallType(NodeText(current, document));
        if callType.Some? {
          var name, argCount := S.ScanOperands(current, document);
          if name.Some? {
            var argText := if argCount > 0 then S.Commas(argCount - 1) else "";
            r := Some(CallInfo(name.value, argText, callType.value));
            assert r == NodeCall(chain[k..][0], document);
            return;
          }
        }
      }
      k := k + 1;
    }
    assert chain[k..] == [];
    r := None;
  }

  /** The call the cursor is in: from the tree when it finds one, else from the line before the cursor. */
  function CallAt(document: string, root: Node, pos: Position): Option<CallInfo>
  {
    var fromTree :=
      match U.NodeAtPosition(root, document, pos)
      case Some(chain) => CallFromChain(chain, document)
      case None => None;
    if fromTree.Some? then fromTree
    else
      match LineAt(document, pos.line)
      case None => None
      case Some(line) =>
        var cut := if pos.character < |line| then pos.character else |line|;
        CallFromLine(line[..cut])
  }

  method FindCallAt(document: string, root: Node, pos: Position) returns (r: Option<CallInfo>)
    ensures r == CallAt(document, root, pos)
  {
    r := None;
    var chain := U.NodeAtPosition(root, document, pos);
    if chain.Some? {
      r := FindFunctionCallAst(chain.value, document);
    }
    if r.None? {
      var line := LineAt(document, pos.line);
      if line.None? {
        return None;
      }
      var cut := if pos.character < |line.value| then pos.character else |line.value|;
      r := FindFunctionCall(line.value[..cut]);
    }
  }

  // ---------------------------------------------------------------------
  // The help
  // ---------------------------------------------------------------------

  /** A type named `$…` is looked up by name, a number by position; anything else names nothing. */
  function TypeCallee(table: SymbolTable, name: string): (r: Option<TypeDef>)
    reads table
    ensures table.Valid() && StartsWith(name, "$") ==> (r.Some? <==> Some(name) in TypeNames(table.types))
    ensures !StartsWith(name, "$") && r.Some? ==>
      ParseUnsigned(name, 10, USIZE_BOUND).Some? && ParseUnsigned(name, 10, USIZE_BOUND).value < |table.types|
      && r == Some(table.types[ParseUnsigned(name, 10, USIZE_BOUND).value])
  {
    if StartsWith(name, "$") then table.GetTypeByName(name)
    else
      match ParseUnsigned(name, 10, USIZE_BOUND)
      case Some(i) => table.GetTypeByIndex(i)
      case None => None
  }

  /** The instruction name the label shows; a direct call never reaches it. */
  function CallKind(callType: CallType): (r: string)
    ensures callType == ReturnCallRef <==> r == "return_call_ref"
  {
    if callType == ReturnCallRef then "return_call_ref" else "call_ref"
  }

  /** The types separated by spaces, or `none` when there are none. */
  function TypesOrNone(ts: seq<ValueType>): (r: string)
    ensures r == "none" <==> ts == [] || H.SpacedTypes(ts) == "none"
    ensures ts != [] ==> r == H.SpacedTypes(ts)
  {
    var spaced := H.SpacedTypes(ts);
    if spaced == "" then "none" else spaced
  }

  /** `(paramI T)` for the type's `i`-th parameter. */
  function IndexedParamLabel(i: nat, t: ValueType): (r: string)
    ensures StartsWith(r, "(param" + NatToString(i) + " ") && EndsWith(r, ToStr(t) + ")")
  {
    "(param" + NatToString(i) + " " + ToStr(t) + ")"
  }

  const FUNCREF_PARAMETER := S.ParameterInformation("(funcref)", Some("Function reference to call"))

  /** One `(paramI T)` label per parameter of the type, then the reference. */
  function CallRefInfos(params: seq<ValueType>): (r: seq<S.ParameterInformation>)
    ensures |r| == |params| + 1
    ensures forall i :: 0 <= i < |params| ==> r[i] == S.ParameterInformation(IndexedParamLabel(i, params[i]), None)
    ensures r[|params|] == FUNCREF_PARAMETER
  {
    seq(|params|, i requires 0 <= i < |params| => S.ParameterInformation(IndexedParamLabel(i, params[i]), None))
      + [FUNCREF_PARAMETER]
  }

  /** The parameter loop and the trailing reference argument. */
  method CallRefParameters(params: seq<ValueType>) returns (infos: seq<S.ParameterInformation>)
    ensures infos == CallRefInfos(params)
  {
    infos := [];
    var i := 0;
    while i < |params|
      invariant 0 <= i <= |params| && |infos| == i
      invariant forall j :: 0 <= j < i ==> infos[j] == S.ParameterInformation(IndexedParamLabel(j, params[j]), None)
    {
      infos := infos + [S.ParameterInformation(IndexedParamLabel(i, params[i]), None)];
      i := i + 1;
    }
    infos := infos + [FUNCREF_PARAMETER];
    assert forall j :: 0 <= j < |infos| ==> infos[j] == CallRefInfos(params)[j];
  }

  /** The type's name, or its index when it has none. */
  function TypeName(td: TypeDef): (r: string)
    ensures td.name.Some? ==> r == td.name.value
    ensures td.name.None? ==> r == NatToString(td.index) && |r| > 0 && AllDigits(r)
  {
    td.name.UnwrapOr(NatToString(td.index))
  }

  /** `(KIND NAME) (param …) (result …) + funcref`. */
  function CallRefLabel(kind: string, typeName: string, params: seq<ValueType>, results: seq<ValueType>): (r: string)
    ensures StartsWith(r, "(" + kind + " " + typeName + ")")
    ensures EndsWith(r, ") + funcref")
  {
    var head := "(" + kind + " " + typeName + ")";
    var tail := " (param " + TypesOrNone(params) + ") (result " + TypesOrNone(results);
    assert (head + (tail + ") + funcref"))[..|head|] == head;
    head + (tail + ") + funcref")
  }

  const INDIRECT_CALL_DOC := "Indirect call via typed function reference. The last argument must be a function reference of type "

  function CallRefDoc(typeName: string): string
  {
    INDIRECT_CALL_DOC + typeName + "."
  }

  /**
   * `provide_call_ref_signature` once the type is found: a function
   * type's parameters, one per `(paramI T)` label, then the reference;
   * any other type has no help.
   */
  function CallRefHelp(td: TypeDef, callType: CallType, argText: string): (r: Option<S.SignatureHelp>)
    ensures r.Some? <==> td.kind.Func?
    ensures r.Some? ==>
      |r.value.signatures| == 1 && r.value.activeSignature == 0
      && r.value.signatures[0].labelText == CallRefLabel(CallKind(callType), TypeName(td), td.kind.params, td.kind.results)
      && r.value.signatures[0].documentation == Some(CallRefDoc(TypeName(td)))
      && r.value.signatures[0].parameters == CallRefInfos(td.kind.params)
      && r.value.activeParameter == r.value.signatures[0].activeParameter == S.ActiveParameter(argText, |td.kind.params| + 1)
  {
    match td.kind
    case Func(params, results) =>
      var active := S.ActiveParameter(argText, |params| + 1);
      var info := S.SignatureInformation(
        CallRefLabel(CallKind(callType), TypeName(td), params, results), Some(CallRefDoc(TypeName(td))), CallRefInfos(params), active);
      Some(S.SignatureHelp([info], 0, active))
    case _ => None
  }

  /** The help `provide_call_ref_signature` builds for a function type. */
  method BuildCallRefHelp(td: TypeDef, callType: CallType, argText: string) returns (r: Option<S.SignatureHelp>)
    ensures r == CallRefHelp(td, callType, argText)
  {
    if !td.kind.Func? {
      return None;
    }
    var params := td.kind.params;
    var typeName := TypeName(td);
    var text := CallRefLabel(CallKind(callType), typeName, params, td.kind.results);
    var parameters := CallRefParameters(params);
    var active := S.ActiveParameter(argText, |parameters|);
    r := Some(S.SignatureHelp([S.SignatureInformation(text, Some(CallRefDoc(typeName)), parameters, active)], 0, active));
  }

  /** The help for a call: a direct call as the older provider gives it, an indirect one from its type. */
  function CallHelp(table: SymbolTable, call: CallInfo): (r: Option<S.SignatureHelp>)
    reads table
    ensures call.callType == Direct ==>
      (r.Some? <==> S.Callee(table, call.name).Some?)
      && (r.Some? ==> r.value == S.DirectHelp(S.Callee(table, call.name).value, call.argText))
    ensures call.callType != Direct ==>
      (r.Some? <==> TypeCallee(table, call.name).Some? && TypeCallee(table, call.name).value.kind.Func?)
      && (r.Some? ==> r == CallRefHelp(TypeCallee(table, call.name).value, call.callType, call.argText))
  {
    if call.callType == Direct then
      match S.Callee(table, call.name)
      case Some(f) => Some(S.DirectHelp(f, call.argText))
      case None => None
    else
      match TypeCallee(table, call.name)
      case Some(td) => CallRefHelp(td, call.callType, call.argText)
      case None => None
  }

  /**
   * An indirect call's help ends with the reference argument, and the
   * active parameter follows the commas typed up to one past that
   * reference: the clamp is to the number of parameters, not to the
   * last index.
   */
  lemma CallRefEndsWithReference(table: SymbolTable, call: CallInfo)
    requires call.callType != Direct && CallHelp(table, call).Some?
    ensures var h := CallHelp(table, call).value;
      var params := TypeCallee(table, call.name).value.kind.params;
      |h.signatures[0].parameters| == |params| + 1
      && h.signatures[0].parameters[|params|] == FUNCREF_PARAMETER
      && (CountChar(call.argText, ',') <= |params| + 1 ==> h.activeParameter == CountChar(call.argText, ','))
      && (CountChar(call.argText, ',') > |params| + 1 ==> h.activeParameter == |params| + 1)
  {
    var td := TypeCallee(table, call.name).value;
    assert CallHelp(table, call) == CallRefHelp(td, call.callType, call.argText);
  }

  /**
   * `provide_signature_help` of src/features/signature/mod.rs: the call
   * at the cursor and, for that call, the help of its kind.
   */
  method ProvideSignatureHelp(document: string, table: SymbolTable, root: Node, pos: Position) returns (r: Option<S.SignatureHelp>)
    ensures CallAt(document, root, pos).None? ==> r.None?
    ensures CallAt(document, root, pos).Some? ==> r == CallHelp(table, CallAt(document, root, pos).value)
  {
    var call := FindCallAt(document, root, pos);
    if call.None? {
      return None;
    }
    var info := call.value;
    if info.callType == Direct {
      var func := S.Callee(table, info.name);
      if func.None? {
        return None;
      }
      var help := S.BuildDirectHelp(func.value, info.argText);
      assert CallHelp(table, info) == Some(S.DirectHelp(func.value, info.argText));
      return Some(help);
    }
    var td := TypeCallee(table, info.name);
    if td.None? {
      return None;
    }
    assert CallHelp(table, info) == CallRefHelp(td.value, info.callType, info.argText);
    r := BuildCallRefHelp(td.value, info.callType, info.argText);
  }
}
