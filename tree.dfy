/**
 * The concrete syntax tree the language server receives from its parser.
 * A node has a kind, a byte span, start and end points (zero-based row and
 * column), its children in source order and a flag for nodes the parser
 * inserted to recover from an error. The source text travels beside it.
 * There are no parent links: code that walks up from a node receives the
 * chain of its ancestors instead.
 */
module Tree {
  import opened Wrappers
  import opened CoreTypes

  datatype Point = Point(row: nat, column: nat)

  datatype Node = Node(
    kind: string,
    startByte: nat,
    endByte: nat,
    startPoint: Point,
    endPoint: Point,
    children: seq<Node>,
    isMissing: bool)

  /**
   * `&source[node.byte_range()]`. The parser always produces spans inside
   * the text; a span outside it reads as the empty text.
   */
  function NodeText(n: Node, src: string): (t: string)
    ensures n.startByte <= n.endByte <= |src| ==> t == src[n.startByte..n.endByte]
    ensures |t| == if n.startByte <= n.endByte <= |src| then n.endByte - n.startByte else 0
  {
    if n.startByte <= n.endByte <= |src| then src[n.startByte..n.endByte] else ""
  }

  /** `node_to_range`: start and end points as a line/character range. */
  function NodeToRange(n: Node): (r: Range)
    ensures r.start == Position(n.startPoint.row, n.startPoint.column)
    ensures r.end == Position(n.endPoint.row, n.endPoint.column)
  {
    FromCoords(n.startPoint.row, n.startPoint.column, n.endPoint.row, n.endPoint.column)
  }

  /** The position of the first child of kind `k`, if any. */
  function FirstChildOfKind(n: Node, k: string): (r: Option<nat>)
    ensures r.Some? ==> r.value < |n.children| && n.children[r.value].kind == k
    ensures r.Some? ==> forall j :: 0 <= j < r.value ==> n.children[j].kind != k
    ensures r.None? ==> forall j :: 0 <= j < |n.children| ==> n.children[j].kind != k
  {
    FirstOfKind(n.children, k)
  }

  function FirstOfKind(xs: seq<Node>, k: string): (r: Option<nat>)
    ensures r.Some? ==> r.value < |xs| && xs[r.value].kind == k
    ensures r.Some? ==> forall j :: 0 <= j < r.value ==> xs[j].kind != k
    ensures r.None? ==> forall j :: 0 <= j < |xs| ==> xs[j].kind != k
  {
    if xs == [] then None
    else if xs[0].kind == k then Some(0)
    else
      match FirstOfKind(xs[1..], k)
      case None => None
      case Some(i) => Some(i + 1)
  }

  /** `find_identifier_node`: the first child of kind `identifier`. */
  function FindIdentifierNode(n: Node): (r: Option<Node>)
    ensures r.Some? ==> r.value in n.children && r.value.kind == "identifier"
    ensures r.None? <==> forall c :: c in n.children ==> c.kind != "identifier"
  {
    match FirstChildOfKind(n, "identifier")
    case Some(i) => Some(n.children[i])
    case None => None
  }

  /** The children of kind `k`, in order. */
  function ChildrenOfKind(xs: seq<Node>, k: string): (r: seq<Node>)
    ensures forall c :: c in r ==> c in xs && c.kind == k
    ensures forall c :: c in xs && c.kind == k ==> c in r
    ensures |r| <= |xs|
  {
    if xs == [] then [] else (if xs[0].kind == k then [xs[0]] else []) + ChildrenOfKind(xs[1..], k)
  }

  /** The node and all its descendants, in pre-order. */
  function PreOrder(n: Node): (r: seq<Node>)
    ensures |r| > 0 && r[0] == n
    decreases n, 1
  {
    [n] + PreOrderAll(n.children)
  }

  function PreOrderAll(xs: seq<Node>): seq<Node>
    decreases xs, 0
  {
    if xs == [] then [] else PreOrder(xs[0]) + PreOrderAll(xs[1..])
  }

  lemma {:induction false} PreOrderAllAppend(xs: seq<Node>, ys: seq<Node>)
    ensures PreOrderAll(xs + ys) == PreOrderAll(xs) + PreOrderAll(ys)
  {
    if xs == [] {
      assert xs + ys == ys;
    } else {
      assert (xs + ys)[1..] == xs[1..] + ys;
      PreOrderAllAppend(xs[1..], ys);
    }
  }

  /** The listing of a sequence of nodes ends with the listing of its last node. */
  lemma {:induction false} PreOrderAllSnoc(xs: seq<Node>)
    requires xs != []
    ensures PreOrderAll(xs) == PreOrderAll(xs[..|xs| - 1]) + PreOrder(xs[|xs| - 1])
  {
    var init, last := xs[..|xs| - 1], xs[|xs| - 1];
    PreOrderOne(last);
    assert xs == init + [last];
    PreOrderAllAppend(init, [last]);
  }

  lemma PreOrderOne(x: Node)
    ensures PreOrderAll([x]) == PreOrder(x)
  {
    assert [x][1..] == [];
    assert PreOrderAll([x]) == PreOrder(x) + PreOrderAll([]);
  }
}
