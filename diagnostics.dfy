/**
 * Syntax diagnostics: one error diagnostic for every ERROR node and every
 * MISSING node of the tree, collected by a pre-order walk. The diagnostic
 * type defined here is shared by the semantic checks and the merge.
 */
module Diagnostics {
  import opened Wrappers
  import opened CoreTypes
  import opened Text
  import opened Tree

  datatype Severity = Error | Warning | Information | Hint

  /** The fields of an LSP diagnostic the server fills in; the others are always absent. */
  datatype Diagnostic = Diagnostic(range: Range, severity: Option<Severity>, source: Option<string>, message: string)

  const SOURCE := "wat-lsp"
  const UNEXPECTED_TOKEN := "Syntax error: unexpected token"
  const SYNTAX_ERROR_NEAR := "Syntax error near: "
  const ERROR_KIND := "ERROR"
  const MISSING_LEAD := "Missing "

  /** Nothing but whitespace. */
  predicate IsBlank(text: string)
  {
    forall i :: 0 <= i < |text| ==> IsWhitespace(text[i])
  }

  /** Every diagnostic the server makes is an error reported by `wat-lsp`. */
  predicate IsServerError(d: Diagnostic)
  {
    d.severity == Some(Error) && d.source == Some(SOURCE)
  }

  function ServerError(range: Range, message: string): (d: Diagnostic)
    ensures IsServerError(d) && d.range == range && d.message == message
  {
    Diagnostic(range, Some(Error), Some(SOURCE), message)
  }

  /** `text.lines().next().unwrap_or(text)`. */
  function FirstLine(text: string): (r: string)
    ensures StartsWith(text, r) && '\n' !in r
    ensures '\n' !in text ==> r == text
  {
    match FindChar(text, '\n')
    case None => text
    case Some(i) =>
      assert text[..i][..|StripCr(text[..i])|] == StripCr(text[..i]);
      StripCr(text[..i])
  }

  /** `Lines` agrees: the first line is the first of the text's lines. */
  lemma FirstLineIsFirstOfLines(text: string)
    requires text != []
    ensures |Lines(text)| > 0 && FirstLine(text) == Lines(text)[0]
  {
  }

  /**
   * The message of an ERROR node: a fixed one for blank text, otherwise
   * the text's first line after a fixed lead.
   */
  function ErrorMessage(text: string): string
  {
    if Trim(text) == "" then UNEXPECTED_TOKEN else SYNTAX_ERROR_NEAR + FirstLine(text)
  }

  /**
   * The fixed message is used exactly for blank text; any other message is
   * the lead followed by a newline-free prefix of the text.
   */
  lemma ErrorMessageShape(text: string)
    ensures var m := ErrorMessage(text);
      && (m == UNEXPECTED_TOKEN <==> IsBlank(text))
      && (m != UNEXPECTED_TOKEN ==>
            StartsWith(m, SYNTAX_ERROR_NEAR) && StartsWith(text, m[|SYNTAX_ERROR_NEAR|..]) && '\n' !in m[|SYNTAX_ERROR_NEAR|..])
  {
    TrimEmptyIff(text);
    if Trim(text) != "" {
      NearIsNotUnexpected(FirstLine(text));
    }
  }

  /** The two messages never coincide: they part at their thirteenth character. */
  lemma NearIsNotUnexpected(rest: string)
    ensures var m := SYNTAX_ERROR_NEAR + rest;
      m != UNEXPECTED_TOKEN && StartsWith(m, SYNTAX_ERROR_NEAR) && m[|SYNTAX_ERROR_NEAR|..] == rest
  {
    var m := SYNTAX_ERROR_NEAR + rest;
    assert m[..|SYNTAX_ERROR_NEAR|] == SYNTAX_ERROR_NEAR;
    assert m[12] != UNEXPECTED_TOKEN[12];
  }

  /** `create_error_diagnostic`. */
  function CreateErrorDiagnostic(n: Node, src: string): Diagnostic
  {
    ServerError(NodeToRange(n), ErrorMessage(NodeText(n, src)))
  }

  /** `create_missing_diagnostic`: `Missing <kind>`. */
  function CreateMissingDiagnostic(n: Node): Diagnostic
  {
    ServerError(NodeToRange(n), MISSING_LEAD + n.kind)
  }

  /** What one node contributes: an error diagnostic, then a missing one. */
  function NodeDiagnostics(n: Node, src: string): seq<Diagnostic>
  {
    (if n.kind == ERROR_KIND then [CreateErrorDiagnostic(n, src)] else [])
    + (if n.isMissing then [CreateMissingDiagnostic(n)] else [])
  }

  /** A node yields one diagnostic per flag it carries, each an error at the node's range. */
  lemma NodeDiagnosticsFlagged(n: Node, src: string)
    ensures |NodeDiagnostics(n, src)| == (if n.kind == ERROR_KIND then 1 else 0) + (if n.isMissing then 1 else 0)
    ensures forall d :: d in NodeDiagnostics(n, src) ==> IsServerError(d) && d.range == NodeToRange(n)
    ensures n.kind == ERROR_KIND ==> NodeDiagnostics(n, src)[0].message == ErrorMessage(NodeText(n, src))
    ensures n.isMissing ==> var d := NodeDiagnostics(n, src)[|NodeDiagnostics(n, src)| - 1];
      StartsWith(d.message, MISSING_LEAD) && d.message[|MISSING_LEAD|..] == n.kind
  {
    var m := MISSING_LEAD + n.kind;
    assert m[..|MISSING_LEAD|] == MISSING_LEAD;
  }

  /** The diagnostics `walk_tree_for_errors` pushes for `n` and its subtree. */
  function ErrorsIn(n: Node, src: string): seq<Diagnostic>
    decreases n, 1
  {
    NodeDiagnostics(n, src) + ErrorsInAll(n.children, src)
  }

  function ErrorsInAll(xs: seq<Node>, src: string): seq<Diagnostic>
    decreases xs, 0
  {
    if xs == [] then [] else ErrorsIn(xs[0], src) + ErrorsInAll(xs[1..], src)
  }

  /** The diagnostics of a list of nodes, each node's in turn. */
  function DiagnosticsOfNodes(xs: seq<Node>, src: string): seq<Diagnostic>
  {
    if xs == [] then [] else NodeDiagnostics(xs[0], src) + DiagnosticsOfNodes(xs[1..], src)
  }

  /** The number of ERROR nodes plus the number of MISSING nodes. */
  function FlaggedCount(xs: seq<Node>): nat
  {
    if xs == [] then 0
    else (if xs[0].kind == ERROR_KIND then 1 else 0) + (if xs[0].isMissing then 1 else 0) + FlaggedCount(xs[1..])
  }

  lemma {:induction false} ErrorsInAllAppend(xs: seq<Node>, x: Node, src: string)
    ensures ErrorsInAll(xs + [x], src) == ErrorsInAll(xs, src) + ErrorsIn(x, src)
  {
    if xs == [] {
      assert xs + [x] == [x];
      assert ErrorsInAll([x], src) == ErrorsIn(x, src) + ErrorsInAll([], src);
    } else {
      assert (xs + [x])[1..] == xs[1..] + [x];
      ErrorsInAllAppend(xs[1..], x, src);
    }
  }

  lemma {:induction false} DiagnosticsOfNodesAppend(xs: seq<Node>, ys: seq<Node>, src: string)
    ensures DiagnosticsOfNodes(xs + ys, src) == DiagnosticsOfNodes(xs, src) + DiagnosticsOfNodes(ys, src)
  {
    if xs == [] {
      assert xs + ys == ys;
    } else {
      assert (xs + ys)[1..] == xs[1..] + ys;
      DiagnosticsOfNodesAppend(xs[1..], ys, src);
    }
  }

  /**
   * The walk visits the nodes in pre-order: its diagnostics are, node by
   * node, those of the subtree's pre-order listing.
   */
  lemma {:induction false} ErrorsInPreOrder(n: Node, src: string)
    ensures ErrorsIn(n, src) == DiagnosticsOfNodes(PreOrder(n), src)
    decreases n, 1
  {
    ErrorsInAllPreOrder(n.children, src);
    DiagnosticsOfNodesAppend([n], PreOrderAll(n.children), src);
  }

  lemma {:induction false} ErrorsInAllPreOrder(xs: seq<Node>, src: string)
    ensures ErrorsInAll(xs, src) == DiagnosticsOfNodes(PreOrderAll(xs), src)
    decreases xs, 0
  {
    if xs != [] {
      ErrorsInPreOrder(xs[0], src);
      ErrorsInAllPreOrder(xs[1..], src);
      DiagnosticsOfNodesAppend(PreOrder(xs[0]), PreOrderAll(xs[1..]), src);
    }
  }

  /** One diagnostic per ERROR node and one per MISSING node, every one a server error. */
  lemma {:induction false} DiagnosticsOfNodesCount(xs: seq<Node>, src: string)
    ensures |DiagnosticsOfNodes(xs, src)| == FlaggedCount(xs)
    ensures forall d :: d in DiagnosticsOfNodes(xs, src) ==> IsServerError(d)
  {
    if xs != [] {
      NodeDiagnosticsFlagged(xs[0], src);
      DiagnosticsOfNodesCount(xs[1..], src);
    }
  }

  /** The whole walk: as many diagnostics as flagged nodes in the tree, all errors from `wat-lsp`. */
  lemma ErrorsInCount(n: Node, src: string)
    ensures |ErrorsIn(n, src)| == FlaggedCount(PreOrder(n))
    ensures forall d :: d in ErrorsIn(n, src) ==> IsServerError(d)
  {
    ErrorsInPreOrder(n, src);
    DiagnosticsOfNodesCount(PreOrder(n), src);
  }

  lemma {:induction false} NoFlaggedNoCount(xs: seq<Node>)
    requires forall i :: 0 <= i < |xs| ==> xs[i].kind != ERROR_KIND && !xs[i].isMissing
    ensures FlaggedCount(xs) == 0
  {
    if xs != [] {
      NoFlaggedNoCount(xs[1..]);
    }
  }

  /** A tree without ERROR and MISSING nodes gets no diagnostics. */
  lemma CleanTreeNoDiagnostics(n: Node, src: string)
    requires forall i :: 0 <= i < |PreOrder(n)| ==> PreOrder(n)[i].kind != ERROR_KIND && !PreOrder(n)[i].isMissing
    ensures ErrorsIn(n, src) == []
  {
    ErrorsInCount(n, src);
    NoFlaggedNoCount(PreOrder(n));
  }

  /** `walk_tree_for_errors`: pushes this node's diagnostics, then each child's, recursively. */
  method WalkTreeForErrors(n: Node, src: string, diagnostics: seq<Diagnostic>) returns (out: seq<Diagnostic>)
    ensures out == diagnostics + ErrorsIn(n, src)
    decreases n, 1
  {
    out := PushNodeDiagnostics(n, src, diagnostics);
    out := WalkChildrenForErrors(n, src, out);
    AppendAssoc(diagnostics, NodeDiagnostics(n, src), ErrorsInAll(n.children, src));
  }

  /** The two checks at one node. */
  method PushNodeDiagnostics(n: Node, src: string, diagnostics: seq<Diagnostic>) returns (out: seq<Diagnostic>)
    ensures out == diagnostics + NodeDiagnostics(n, src)
  {
    ghost var errors: seq<Diagnostic> := if n.kind == ERROR_KIND then [CreateErrorDiagnostic(n, src)] else [];
    ghost var missing: seq<Diagnostic> := if n.isMissing then [CreateMissingDiagnostic(n)] else [];
    out := diagnostics;
    if n.kind == ERROR_KIND {
      out := out + [CreateErrorDiagnostic(n, src)];
    } else {
      assert diagnostics + errors == diagnostics;
    }
    if n.isMissing {
      out := out + [CreateMissingDiagnostic(n)];
    } else {
      assert diagnostics + errors + missing == diagnostics + errors;
    }
    AppendAssoc(diagnostics, errors, missing);
  }

  /** The loop over the children of `n`. */
  method WalkChildrenForErrors(n: Node, src: string, diagnostics: seq<Diagnostic>) returns (out: seq<Diagnostic>)
    ensures out == diagnostics + ErrorsInAll(n.children, src)
    decreases n, 0
  {
    out := diagnostics;
    var i := 0;
    while i < |n.children|
      invariant 0 <= i <= |n.children|
      invariant out == diagnostics + ErrorsInAll(n.children[..i], src)
    {
      ErrorsInAllAppend(n.children[..i], n.children[i], src);
      assert n.children[..i + 1] == n.children[..i] + [n.children[i]];
      AppendAssoc(diagnostics, ErrorsInAll(n.children[..i], src), ErrorsIn(n.children[i], src));
      out := WalkTreeForErrors(n.children[i], src, out);
      i := i + 1;
    }
    assert n.children[..i] == n.children;
  }

  /** `provide_diagnostics`: the walk from the root into an empty list. */
  method ProvideDiagnostics(root: Node, src: string) returns (diagnostics: seq<Diagnostic>)
    ensures diagnostics == ErrorsIn(root, src)
  {
    diagnostics := WalkTreeForErrors(root, src, []);
  }
}
