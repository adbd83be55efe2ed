/**
 * Signature help for direct calls (src/signature.rs): inside the argument
 * list of `call $f(…` or `call 3(…`, the callee's signature, one label per
 * parameter and the parameter the cursor is on.
 *
 * The call is found from the syntax tree when a call instruction encloses
 * the cursor, otherwise from the text of the line before the cursor.
 */
module Signature {
  import opened Wrappers
  import opened CoreTypes
  import opened Tree
  import opened Text
  import opened Symbols
  import U = Utils
  import H = Hover

  // ---------------------------------------------------------------------
  // The nearest unclosed parenthesis
  // ---------------------------------------------------------------------

  /** Closing minus opening parentheses in the suffix `s[j..]`. */
  function Balance(s: string, j: nat): int
    requires j <= |s|
    decreases |s| - j
  {
    if j == |s| then 0
    else (if s[j] == ')' then 1 else if s[j] == '(' then -1 else 0) + Balance(s, j + 1)
  }

  /** The backward scan from position `k`, with `depth` closing parentheses still unmatched. */
  function ScanBack(s: string, k: nat, depth: nat): (r: Option<nat>)
    requires k <= |s|
    ensures r.Some? ==> r.value < k && s[r.value] == '('
    decreases k
  {
    if k == 0 then None
    else if s[k - 1] == ')' then ScanBack(s, k - 1, depth + 1)
    else if s[k - 1] == '(' then (if depth == 0 then Some(k - 1) else ScanBack(s, k - 1, depth - 1))
    else ScanBack(s, k - 1, depth)
  }

  /** The backward scan of `find_function_call`, from the end of the text before the cursor. */
  function UnmatchedParen(s: string): Option<nat>
  {
    ScanBack(s, |s|, 0)
  }

  /** The scanned suffix `s[k..]` has `depth` more `)` than `(`, and no suffix of it has fewer `)`. */
  ghost predicate ScanState(s: string, k: nat, depth: nat)
    requires k <= |s|
  {
    depth == Balance(s, k) && forall j :: k <= j <= |s| ==> Balance(s, j) >= 0
  }

  lemma {:induction false} ScanBackFindsNearest(s: string, k: nat, depth: nat)
    requires k <= |s| && ScanState(s, k, depth)
    ensures ScanBack(s, k, depth).Some? ==>
      Balance(s, ScanBack(s, k, depth).value) < 0
      && forall j :: ScanBack(s, k, depth).value < j <= |s| ==> Balance(s, j) >= 0
    ensures ScanBack(s, k, depth).None? ==> forall j :: 0 <= j <= |s| ==> Balance(s, j) >= 0
    decreases k
  {
    if k > 0 {
      if s[k - 1] == ')' {
        assert ScanState(s, k - 1, depth + 1);
        ScanBackFindsNearest(s, k - 1, depth + 1);
      } else if s[k - 1] == '(' {
        if depth > 0 {
          assert ScanState(s, k - 1, depth - 1);
          ScanBackFindsNearest(s, k - 1, depth - 1);
        } else {
          assert ScanBack(s, k, depth) == Some(k - 1);
        }
      } else {
        assert ScanState(s, k - 1, depth);
        ScanBackFindsNearest(s, k - 1, depth);
      }
    }
  }

  /**
   * The scan stops at the nearest `(` that is not closed before the end:
   * the suffix after it is balanced, and every shorter suffix has at
   * least as many `)` as `(`. Without such a `(`, no suffix of the text
   * has more `(` than `)`.
   */
  lemma UnmatchedParenIsNearestOpen(s: string)
    ensures UnmatchedParen(s).Some? ==>
      var i := UnmatchedParen(s).value;
      i < |s| && s[i] == '(' && Balance(s, i + 1) == 0
      && forall j :: i < j <= |s| ==> Balance(s, j) >= 0
    ensures UnmatchedParen(s).None? ==> forall j :: 0 <= j <= |s| ==> Balance(s, j) >= 0
  {
    ScanBackFindsNearest(s, |s|, 0);
  }

  /** The backward loop of `find_function_call`. */
  method FindUnmatchedParen(s: string) returns (r: Option<nat>)
    ensures r == UnmatchedParen(s)
  {
    var depth: nat := 0;
    var i := |s|;
    while i > 0
      invariant 0 <= i <= |s|
      invariant ScanBack(s, i, depth) == UnmatchedParen(s)
    {
      i := i - 1;
      if s[i] == ')' {
        depth := depth + 1;
      } else if s[i] == '(' {
        if depth == 0 {
          return Some(i);
        }
        depth := depth - 1;
      }
    }
    return None;
  }

  // ---------------------------------------------------------------------
  // The call on the line
  // ---------------------------------------------------------------------

  datatype CallInfo = CallInfo(name: string, argText: string)

  predicate IsNameBreak(c: char) { IsWhitespace(c) || c == '(' }

  /** The text up to the first whitespace or `(`. */
  function NameAtStart(t: string): (r: string)
    ensures |r| <= |t| && r == t[..|r|]
    ensures forall i :: 0 <= i < |r| ==> !IsNameBreak(r[i])
    ensures |r| < |t| ==> IsNameBreak(t[|r|])
  {
    match FirstWhere(t, (c: char) => IsNameBreak(c))
    case Some(i) => t[..i]
    case None => t
  }

  /** The text before the open parenthesis, without trailing whitespace. */
  function CallPattern(prefix: string, p: nat): string
    requires p <= |prefix|
  {
    TrimEnd(prefix[..p])
  }

  /**
   * `find_function_call` of src/signature.rs: the name after the last
   * `call ` before the nearest unclosed `(`, and everything after that
   * parenthesis as the argument text.
   */
  function CallFromLine(prefix: string): Option<CallInfo>
  {
    match UnmatchedParen(prefix)
    case None => None
    case Some(p) => CallAfter(prefix, p, RFind(CallPattern(prefix, p), "call "))
  }

  /**
   * Without an unclosed `(` there is no call; a call found is named by a
   * non-empty run of name characters after a `call ` before that
   * parenthesis, and its arguments are everything after it.
   */
  lemma CallFromLineFindsCall(prefix: string)
    ensures UnmatchedParen(prefix).None? ==> CallFromLine(prefix).None?
    ensures CallFromLine(prefix).Some? ==>
      var r, p := CallFromLine(prefix).value, UnmatchedParen(prefix).value;
      p < |prefix| && prefix[p] == '(' && r.argText == prefix[p + 1..]
      && r.name != "" && (forall i :: 0 <= i < |r.name| ==> !IsNameBreak(r.name[i]))
      && exists ci :: OccursAt(CallPattern(prefix, p), "call ", ci)
                      && r.name == NameAtStart(TrimStart(CallPattern(prefix, p)[ci + 5..]))
  {
    if CallFromLine(prefix).Some? {
      var p := UnmatchedParen(prefix).value;
      var ci := RFind(CallPattern(prefix, p), "call ");
      assert CallFromLine(prefix) == CallAfter(prefix, p, ci);
      assert OccursAt(CallPattern(prefix, p), "call ", ci.value);
    }
  }

  /** The name after the `call ` found at `ci` in the pattern before the parenthesis at `p`. */
  function CallAfter(prefix: string, p: nat, ci: Option<nat>): Option<CallInfo>
    requires p < |prefix|
    requires ci.Some? ==> ci.value + 5 <= |CallPattern(prefix, p)|
  {
    match ci
    case None => None
    case Some(i) =>
      var name := NameAtStart(TrimStart(CallPattern(prefix, p)[i + 5..]));
      if name == "" then None else Some(CallInfo(name, prefix[p + 1..]))
  }

  /** `find_function_call`: the backward loop, then the name extraction. */
  method FindFunctionCall(prefix: string) returns (r: Option<CallInfo>)
    ensures r == CallFromLine(prefix)
  {
    var paren := FindUnmatchedParen(prefix);
    if paren.None? {
      return None;
    }
    var p := paren.value;
    var pattern := TrimEnd(prefix[..p]);
    var callIdx := RFind(pattern, "call ");
    assert CallFromLine(prefix) == CallAfter(prefix, p, callIdx);
    if callIdx.None? {
      return None;
    }
    var afterCall := TrimStart(pattern[callIdx.value + 5..]);
    var name := NameAtStart(afterCall);
    if name != "" {
      return Some(CallInfo(name, prefix[p + 1..]));
    }
    return None;
  }

  // ---------------------------------------------------------------------
  // The call in the tree
  // ---------------------------------------------------------------------

  /** An identifier or index child: the callee, then the operands. */
  predicate IsOperand(n: Node) { n.kind == "index" || n.kind == "identifier" }

  /** The identifier and index children, in order. */
  function Operands(xs: seq<Node>): (r: seq<Node>)
    ensures |r| <= |xs| && forall i :: 0 <= i < |r| ==> IsOperand(r[i])
  {
    if xs == [] then []
    else Operands(xs[..|xs| - 1]) + (if IsOperand(xs[|xs| - 1]) then [xs[|xs| - 1]] else [])
  }

  /** `n` commas. */
  function Commas(n: nat): (r: string)
    ensures |r| == n && CountChar(r, ',') == n
  {
    if n == 0 then "" else "," + Commas(n - 1)
  }

  /** The callee and the number of operands after it, as the children loop counts them. */
  method ScanOperands(n: Node, document: string) returns (name: Option<string>, argCount: nat)
    ensures var ops := Operands(n.children);
      name == (if ops == [] then None else Some(NodeText(ops[0], document)))
      && argCount == (if ops == [] then 0 else |ops| - 1)
  {
    name := None;
    argCount := 0;
    var cs := n.children;
    var i := 0;
    assert cs[..0] == [];
    while i < |cs|
      invariant 0 <= i <= |cs|
      invariant var ops := Operands(cs[..i]);
        name == (if ops == [] then None else Some(NodeText(ops[0], document)))
        && argCount == (if ops == [] then 0 else |ops| - 1)
    {
      assert cs[..i + 1][..i] == cs[..i];
      assert Operands(cs[..i + 1]) == Operands(cs[..i]) + (if IsOperand(cs[i]) then [cs[i]] else []);
      if IsOperand(cs[i]) {
        if name.None? {
          name := Some(NodeText(cs[i], document));
        } else {
          argCount := argCount + 1;
        }
      }
      i := i + 1;
    }
    assert cs[..|cs|] == cs;
  }

  /** The argument text the tree path makes: one comma fewer than the operands after the callee. */
  function OperandCommas(argCount: nat): (r: string)
    ensures CountChar(r, ',') == if argCount > 0 then argCount - 1 else 0
  {
    if argCount > 0 then Commas(argCount - 1) else ""
  }

  predicate IsInstruction(n: Node) { n.kind == "instr_plain" || n.kind == "expr1_plain" }

  /** The call this node makes, if it is a call instruction with a callee. */
  function NodeCall(n: Node, document: string): Option<CallInfo>
  {
    if IsInstruction(n) && Contains(NodeText(n, document), "call ") then
      var ops := Operands(n.children);
      if ops == [] then None
      else Some(CallInfo(NodeText(ops[0], document), OperandCommas(|ops| - 1)))
    else None
  }

  /**
   * A node makes a call exactly when it is an instruction whose text holds
   * `call ` and that has an operand; the callee is the first operand, and
   * the argument text has one comma fewer than the remaining operands.
   */
  lemma NodeCallShape(n: Node, document: string)
    ensures var r := NodeCall(n, document);
      && (r.Some? <==> IsInstruction(n) && Contains(NodeText(n, document), "call ") && Operands(n.children) != [])
      && (r.Some? ==> r.value.name == NodeText(Operands(n.children)[0], document))
      && (r.Some? ==> CountChar(r.value.argText, ',') == if |Operands(n.children)| >= 2 then |Operands(n.children)| - 2 else 0)
  {
  }

  /** `find_function_call_ast`: the first call along the chain from the node up to the root. */
  function CallFromChain(chain: seq<Node>, document: string): (r: Option<CallInfo>)
    ensures r.None? ==> forall k :: 0 <= k < |chain| ==> NodeCall(chain[k], document).None?
  {
    if chain == [] then None
    else
      match NodeCall(chain[0], document)
      case Some(c) => Some(c)
      case None => CallFromChain(chain[1..], document)
  }

  /** The call found is the one made by the innermost call instruction around the cursor. */
  lemma {:induction false} CallFromChainIsInnermost(chain: seq<Node>, document: string)
    requires CallFromChain(chain, document).Some?
    ensures exists k :: (0 <= k < |chain| && CallFromChain(chain, document) == NodeCall(chain[k], document)
      && forall j :: 0 <= j < k ==> NodeCall(chain[j], document).None?)
  {
    if NodeCall(chain[0], document).None? {
      CallFromChainIsInnermost(chain[1..], document);
      var k :| 0 <= k < |chain[1..]| && CallFromChain(chain[1..], document) == NodeCall(chain[1..][k], document)
               && forall j :: 0 <= j < k ==> NodeCall(chain[1..][j], document).None?;
      assert CallFromChain(chain, document) == NodeCall(chain[k + 1], document);
      assert forall j :: 0 <= j < k + 1 ==> NodeCall(chain[j], document).None? by {
        forall j | 0 <= j < k + 1 ensures NodeCall(chain[j], document).None? {
          if j > 0 {
            assert chain[j] == chain[1..][j - 1];
          }
        }
      }
    } else {
      assert CallFromChain(chain, document) == NodeCall(chain[0], document);
    }
  }

  /** `find_function_call_ast`: walk from the node up through its ancestors. */
  method FindFunctionCallAst(chain: seq<Node>, document: string) returns (r: Option<CallInfo>)
    ensures r == CallFromChain(chain, document)
  {
    var k := 0;
    while k < |chain|
      invariant 0 <= k <= |chain|
      invariant CallFromChain(chain[k..], document) == CallFromChain(chain, document)
    {
      var current := chain[k];
      assert chain[k..][1..] == chain[k + 1..];
      if IsInstruction(current) {
        var text := NodeText(current, document);
        if Contains(text, "call ") {
          var name, argCount := ScanOperands(current, document);
          if name.Some? {
            var argText := if argCount > 0 then Commas(argCount - 1) else "";
            r := Some(CallInfo(name.value, argText));
            assert r == NodeCall(chain[k..][0], document);
            return;
          }
        }
      }
      k := k + 1;
    }
    assert chain[k..] == [];
    r := None;
  }

  // ---------------------------------------------------------------------
  // The signature
  // ---------------------------------------------------------------------

  datatype ParameterInformation = ParameterInformation(labelText: string, documentation: Option<string>)

  datatype SignatureInformation = SignatureInformation(
    labelText: string, documentation: Option<string>, parameters: seq<ParameterInformation>, activeParameter: nat)

  datatype SignatureHelp = SignatureHelp(signatures: seq<SignatureInformation>, activeSignature: nat, activeParameter: nat)

  /** `(NAME T)` for a named parameter, `(param T)` otherwise. */
  function ParamLabel(p: Parameter): (r: string)
    ensures p.name.Some? ==> StartsWith(r, "(" + p.name.value + " ")
    ensures p.name.None? ==> StartsWith(r, "(param ")
    ensures EndsWith(r, ToStr(p.paramType) + ")")
  {
    if p.name.Some? then "(" + p.name.value + " " + ToStr(p.paramType) + ")"
    else "(param " + ToStr(p.paramType) + ")"
  }

  /** The parameter loop: one undocumented label per parameter, in order. */
  method ParameterInfos(ps: seq<Parameter>) returns (infos: seq<ParameterInformation>)
    ensures |infos| == |ps|
    ensures forall i :: 0 <= i < |ps| ==> infos[i] == ParameterInformation(ParamLabel(ps[i]), None)
  {
    infos := [];
    var i := 0;
    while i < |ps|
      invariant 0 <= i <= |ps| && |infos| == i
      invariant forall j :: 0 <= j < i ==> infos[j] == ParameterInformation(ParamLabel(ps[j]), None)
    {
      var text := if ps[i].name.Some? then "(" + ps[i].name.value + " " + ToStr(ps[i].paramType) + ")"
                   else "(param " + ToStr(ps[i].paramType) + ")";
      infos := infos + [ParameterInformation(text, None)];
      i := i + 1;
    }
  }

  /** A callee named `$…` is looked up by name, a number by position; anything else names nothing. */
  function Callee(table: SymbolTable, name: string): (r: Option<Function>)
    reads table
    ensures table.Valid() && StartsWith(name, "$") ==> (r.Some? <==> Some(name) in FunctionNames(table.functions))
    ensures !StartsWith(name, "$") && r.Some? ==>
      ParseUnsigned(name, 10, USIZE_BOUND).Some? && ParseUnsigned(name, 10, USIZE_BOUND).value < |table.functions|
      && r == Some(table.functions[ParseUnsigned(name, 10, USIZE_BOUND).value])
  {
    if StartsWith(name, "$") then table.GetFunctionByName(name)
    else
      match ParseUnsigned(name, 10, USIZE_BOUND)
      case Some(i) => table.GetFunctionByIndex(i)
      case None => None
  }

  /** The parameter the cursor is on: one per comma typed, at most the parameter count. */
  function ActiveParameter(argText: string, count: nat): (r: nat)
    ensures r <= count && r <= CountChar(argText, ',')
    ensures r == count || r == CountChar(argText, ',')
  {
    if CountChar(argText, ',') < count then CountChar(argText, ',') else count
  }

  /** The call the cursor is in: from the tree when it finds one, else from the line before the cursor. */
  function CallAt(document: string, root: Node, pos: Position): Option<CallInfo>
  {
    var fromTree :=
      match U.NodeAtPosition(root, document, pos)
      case Some(chain) => CallFromChain(chain, document)
      case None => None;
    if fromTree.Some? then fromTree
    else
      match LineAt(document, pos.line)
      case None => None
      case Some(line) =>
        var cut := if pos.character < |line| then pos.character else |line|;
        CallFromLine(line[..cut])
  }

  /** The help for a direct call to `f`: its signature, its parameter labels and the active one. */
  function DirectHelp(f: Function, argText: string): (r: SignatureHelp)
    ensures |r.signatures| == 1 && r.activeSignature == 0
    ensures r.signatures[0].labelText == H.FunctionSignature(f)
    ensures |r.signatures[0].parameters| == |f.parameters|
    ensures forall i :: 0 <= i < |f.parameters| ==> r.signatures[0].parameters[i].labelText == ParamLabel(f.parameters[i])
    ensures r.activeParameter == r.signatures[0].activeParameter == ActiveParameter(argText, |f.parameters|)
  {
    var active := ActiveParameter(argText, |f.parameters|);
    var infos := seq(|f.parameters|, i requires 0 <= i < |f.parameters| => ParameterInformation(ParamLabel(f.parameters[i]), None));
    SignatureHelp([SignatureInformation(H.FunctionSignature(f), None, infos, active)], 0, active)
  }

  /** The call lookup of `provide_signature_help`: the tree walk, then the line before the cursor. */
  method FindCallAt(document: string, root: Node, pos: Position) returns (r: Option<CallInfo>)
    ensures r == CallAt(document, root, pos)
  {
    r := None;
    var chain := U.NodeAtPosition(root, document, pos);
    if chain.Some? {
      r := FindFunctionCallAst(chain.value, document);
    }
    if r.None? {
      var line := LineAt(document, pos.line);
      if line.None? {
        return None;
      }
      var cut := if pos.character < |line.value| then pos.character else |line.value|;
      r := FindFunctionCall(line.value[..cut]);
    }
  }

  /** The help `provide_signature_help` builds for a direct call to `f`. */
  method BuildDirectHelp(f: Function, argText: string) returns (h: SignatureHelp)
    ensures h == DirectHelp(f, argText)
  {
    var signature := H.FormatFunctionSignature(f);
    var parameters := ParameterInfos(f.parameters);
    var active := ActiveParameter(argText, |f.parameters|);
    assert parameters == DirectHelp(f, argText).signatures[0].parameters;
    h := SignatureHelp([SignatureInformation(signature, None, parameters, active)], 0, active);
  }

  /**
   * `provide_signature_help` of src/signature.rs: the call at the
   * cursor, its callee, and that callee's signature.
   */
  method ProvideSignatureHelp(document: string, table: SymbolTable, root: Node, pos: Position) returns (r: Option<SignatureHelp>)
    ensures r.Some? <==> CallAt(document, root, pos).Some? && Callee(table, CallAt(document, root, pos).value.name).Some?
    ensures r.Some? ==>
      r.value == DirectHelp(Callee(table, CallAt(document, root, pos).value.name).value, CallAt(document, root, pos).value.argText)
  {
    var callInfo := FindCallAt(document, root, pos);
    if callInfo.None? {
      return None;
    }
    var func := Callee(table, callInfo.value.name);
    if func.None? {
      return None;
    }
    var help := BuildDirectHelp(func.value, callInfo.value.argText);
    r := Some(help);
  }
}
