/**
 * Protocol-independent positions, ranges and hover results
 * (src/core/types.rs). Lines and characters are zero-based; the source
 * stores them as `u32`, the model as unbounded naturals (a document has
 * fewer than 2^32 lines and columns, so the casts in the source never wrap).
 */
module CoreTypes {
  import opened Wrappers

  datatype Position = Position(line: nat, character: nat)

  datatype Range = Range(start: Position, end: Position)

  /** A markdown hover text with an optional range to highlight. */
  datatype HoverResult = HoverResult(contents: string, range: Option<Range>)

  /** The protocol library's own position and range types. */
  datatype LspPosition = LspPosition(line: nat, character: nat)
  datatype LspRange = LspRange(start: LspPosition, end: LspPosition)

  /** `Position::new`: stores exactly the given line and character. */
  function NewPosition(line: nat, character: nat): (p: Position)
    ensures p.line == line && p.character == character
  {
    Position(line, character)
  }

  /** `Range::from_coords`: the start is (a, b) and the end is (c, d). */
  function FromCoords(startLine: nat, startChar: nat, endLine: nat, endChar: nat): (r: Range)
    ensures r.start.line == startLine && r.start.character == startChar
    ensures r.end.line == endLine && r.end.character == endChar
  {
    Range(NewPosition(startLine, startChar), NewPosition(endLine, endChar))
  }

  /** `HoverResult::new`: no range. */
  function NewHover(contents: string): (h: HoverResult)
    ensures h.contents == contents && h.range.None?
  {
    HoverResult(contents, None)
  }

  /** `HoverResult::with_range`: the given range. */
  function HoverWithRange(contents: string, range: Range): (h: HoverResult)
    ensures h.contents == contents && h.range == Some(range)
  {
    HoverResult(contents, Some(range))
  }

  function PositionFromLsp(p: LspPosition): (r: Position)
    ensures r.line == p.line && r.character == p.character
  {
    Position(p.line, p.character)
  }

  function PositionToLsp(p: Position): (r: LspPosition)
    ensures r.line == p.line && r.character == p.character
  {
    LspPosition(p.line, p.character)
  }

  function RangeFromLsp(r: LspRange): (q: Range)
    ensures q.start == PositionFromLsp(r.start) && q.end == PositionFromLsp(r.end)
  {
    Range(PositionFromLsp(r.start), PositionFromLsp(r.end))
  }

  function RangeToLsp(r: Range): (q: LspRange)
    ensures q.start == PositionToLsp(r.start) && q.end == PositionToLsp(r.end)
  {
    LspRange(PositionToLsp(r.start), PositionToLsp(r.end))
  }

  /** The conversions in both directions are mutually inverse. */
  lemma ConversionsRoundTrip(p: Position, q: LspPosition, r: Range, s: LspRange)
    ensures PositionFromLsp(PositionToLsp(p)) == p
    ensures PositionToLsp(PositionFromLsp(q)) == q
    ensures RangeFromLsp(RangeToLsp(r)) == r
    ensures RangeToLsp(RangeFromLsp(s)) == s
  {
  }

  /** The ordering key used to sort diagnostics and references. */
  predicate StartLe(a: Range, b: Range)
  {
    a.start.line < b.start.line
    || (a.start.line == b.start.line && a.start.character <= b.start.character)
  }
}
