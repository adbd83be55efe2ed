/**
 * String helpers with the semantics of the Rust standard library calls the
 * language server makes (`starts_with`, `find`, `rfind`, `contains`,
 * `trim`, `lines`, `parse`). Text is treated as ASCII: one character is
 * one byte, `is_alphanumeric` and `is_whitespace` are their ASCII
 * restrictions.
 */
module Text {
  import opened Wrappers

  predicate IsDigit(c: char) { '0' <= c <= '9' }

  predicate IsAlpha(c: char) { ('a' <= c <= 'z') || ('A' <= c <= 'Z') }

  predicate IsAlnum(c: char) { IsDigit(c) || IsAlpha(c) }

  predicate IsHexDigit(c: char) { IsDigit(c) || ('a' <= c <= 'f') || ('A' <= c <= 'F') }

  /** `char::is_whitespace` on ASCII. */
  predicate IsWhitespace(c: char)
  {
    c == ' ' || c == '\t' || c == '\n' || c == '\r' || c == '\U{000B}' || c == '\U{000C}'
  }

  predicate AllDigits(s: string) { forall i :: 0 <= i < |s| ==> IsDigit(s[i]) }

  predicate StartsWith(s: string, p: string) { |p| <= |s| && s[..|p|] == p }

  predicate EndsWith(s: string, p: string) { |p| <= |s| && s[|s| - |p|..] == p }

  /** `p` occurs in `s` at position `i`. */
  predicate OccursAt(s: string, p: string, i: nat) { i + |p| <= |s| && s[i..i + |p|] == p }

  /** `str::find`: the first position where `p` occurs. */
  function Find(s: string, p: string): (r: Option<nat>)
    ensures r.Some? ==> OccursAt(s, p, r.value) && forall j :: 0 <= j < r.value ==> !OccursAt(s, p, j)
    ensures r.None? ==> forall j :: 0 <= j <= |s| ==> !OccursAt(s, p, j)
    decreases |s|
  {
    if |p| > |s| then None
    else if s[..|p|] == p then Some(0)
    else
      OccursShift(s, p);
      match Find(s[1..], p)
      case None => None
      case Some(k) => Some(k + 1)
  }

  /** `str::rfind`: the last position where `p` occurs. */
  function RFind(s: string, p: string): (r: Option<nat>)
    ensures r.Some? ==> OccursAt(s, p, r.value) && forall j :: r.value < j <= |s| ==> !OccursAt(s, p, j)
    ensures r.None? ==> forall j :: 0 <= j <= |s| ==> !OccursAt(s, p, j)
    decreases |s|
  {
    if |p| > |s| then None
    else if s[|s| - |p|..] == p then Some(|s| - |p|)
    else
      OccursDropLast(s, p);
      RFind(s[..|s| - 1], p)
  }

  lemma OccursShift(s: string, p: string)
    requires |s| > 0
    ensures forall j: nat :: 1 <= j ==> (OccursAt(s, p, j) <==> OccursAt(s[1..], p, j - 1))
  {
    forall j: nat | 1 <= j ensures OccursAt(s, p, j) <==> OccursAt(s[1..], p, j - 1) {
      if j + |p| <= |s| { assert s[1..][j - 1..j - 1 + |p|] == s[j..j + |p|]; }
    }
  }

  lemma OccursDropLast(s: string, p: string)
    requires |s| > 0
    ensures forall j: nat :: j + |p| < |s| ==> (OccursAt(s[..|s| - 1], p, j) <==> OccursAt(s, p, j))
  {
    forall j: nat | j + |p| < |s| ensures OccursAt(s[..|s| - 1], p, j) <==> OccursAt(s, p, j) {
      assert s[..|s| - 1][j..j + |p|] == s[j..j + |p|];
    }
  }

  predicate Contains(s: string, p: string) { Find(s, p).Some? }

  /** The first position holding character `c`. */
  function FindChar(s: string, c: char): (r: Option<nat>)
    ensures r.Some? ==> r.value < |s| && s[r.value] == c && forall j :: 0 <= j < r.value ==> s[j] != c
    ensures r.None? ==> forall j :: 0 <= j < |s| ==> s[j] != c
  {
    if |s| == 0 then None
    else if s[0] == c then Some(0)
    else
      match FindChar(s[1..], c)
      case None => None
      case Some(k) => Some(k + 1)
  }

  function TrimStart(s: string): (r: string)
    ensures |r| <= |s| && r == s[|s| - |r|..]
    ensures |r| > 0 ==> !IsWhitespace(r[0])
  {
    if |s| > 0 && IsWhitespace(s[0]) then TrimStart(s[1..]) else s
  }

  function TrimEnd(s: string): (r: string)
    ensures |r| <= |s| && r == s[..|r|]
    ensures |r| > 0 ==> !IsWhitespace(r[|r| - 1])
  {
    if |s| > 0 && IsWhitespace(s[|s| - 1]) then TrimEnd(s[..|s| - 1]) else s
  }

  function Trim(s: string): string { TrimEnd(TrimStart(s)) }

  /** What `TrimStart` drops is whitespace. */
  lemma {:induction false} TrimStartDropsWhitespace(s: string)
    ensures forall i :: 0 <= i < |s| - |TrimStart(s)| ==> IsWhitespace(s[i])
  {
    if |s| > 0 && IsWhitespace(s[0]) {
      TrimStartDropsWhitespace(s[1..]);
    }
  }

  /** What `TrimEnd` drops is whitespace. */
  lemma {:induction false} TrimEndDropsWhitespace(s: string)
    ensures forall i :: |TrimEnd(s)| <= i < |s| ==> IsWhitespace(s[i])
  {
    if |s| > 0 && IsWhitespace(s[|s| - 1]) {
      TrimEndDropsWhitespace(s[..|s| - 1]);
    }
  }

  /** A string trims to nothing exactly when every character is whitespace. */
  lemma TrimEmptyIff(s: string)
    ensures Trim(s) == "" <==> forall i :: 0 <= i < |s| ==> IsWhitespace(s[i])
  {
    var t := TrimStart(s);
    TrimStartDropsWhitespace(s);
    TrimEndDropsWhitespace(t);
    if |t| > 0 {
      assert t[0] == s[|s| - |t|];
    }
  }

  /** One line of `str::lines`: the text before a `\n`, minus one trailing `\r`. */
  function StripCr(line: string): string
  {
    if |line| > 0 && line[|line| - 1] == '\r' then line[..|line| - 1] else line
  }

  /**
   * `str::lines`: split at `\n`; a line ended by `\n` loses one trailing
   * `\r`; a final `\n` does not start an empty last line.
   */
  function Lines(s: string): (r: seq<string>)
    ensures s == [] <==> r == []
    decreases |s|
  {
    if s == [] then []
    else
      match FindChar(s, '\n')
      case None => [s]
      case Some(i) => [StripCr(s[..i])] + Lines(s[i + 1..])
  }

  lemma NoCrInSlice(s: string, from: nat, to: nat)
    requires '\r' !in s && from <= to <= |s|
    ensures '\r' !in s[from..to]
  {
    forall k | 0 <= k < to - from ensures s[from..to][k] != '\r' {
      assert s[from..to][k] == s[from + k];
    }
  }

  lemma NoCrInRest(s: string, from: nat)
    requires '\r' !in s && from <= |s|
    ensures '\r' !in s[from..]
  {
    forall k | 0 <= k < |s| - from ensures s[from..][k] != '\r' {
      assert s[from..][k] == s[from + k];
    }
  }

  /** Without carriage returns, the first line runs up to the first newline. */
  lemma FirstLine(s: string, i: nat, h: string)
    requires FindChar(s, '\n') == Some(i) && s[..i] == h && '\r' !in h
    ensures |Lines(s)| > 0 && Lines(s)[0] == h
  {
    if |h| > 0 {
      assert h[|h| - 1] in h;
    }
    assert StripCr(h) == h;
    assert Lines(s) == [StripCr(h)] + Lines(s[i + 1..]);
  }

  /** A text without newlines is a single line. */
  lemma SingleLine(s: string)
    requires s != [] && FindChar(s, '\n').None?
    ensures Lines(s) == [s]
  {
  }

  /** The lines after the first are the lines of the text after the first newline. */
  lemma LinesTail(s: string, i: nat, t: string)
    requires FindChar(s, '\n') == Some(i) && s[i + 1..] == t
    ensures |Lines(s)| > 0 && Lines(s)[1..] == Lines(t)
  {
    assert Lines(s) == [StripCr(s[..i])] + Lines(t);
  }

  /** `lines().nth(n)`. */
  function LineAt(s: string, n: nat): (r: Option<string>)
    ensures r.Some? <==> n < |Lines(s)|
    ensures r.Some? ==> r.value == Lines(s)[n]
  {
    var ls := Lines(s);
    if n < |ls| then Some(ls[n]) else None
  }

  /** Number of occurrences of `c`. */
  function CountChar(s: string, c: char): nat
  {
    if s == [] then 0 else (if s[0] == c then 1 else 0) + CountChar(s[1..], c)
  }

  lemma CountCharAppend(a: string, b: string, c: char)
    ensures CountChar(a + b, c) == CountChar(a, c) + CountChar(b, c)
  {
    if a == [] {
      assert a + b == b;
    } else {
      assert (a + b)[1..] == a[1..] + b;
      CountCharAppend(a[1..], b, c);
    }
  }

  /** `s.replace(c, "")`. */
  function RemoveChar(s: string, c: char): (r: string)
    ensures forall i :: 0 <= i < |r| ==> r[i] != c
    ensures |r| == |s| - CountChar(s, c)
  {
    if s == [] then [] else (if s[0] == c then [] else [s[0]]) + RemoveChar(s[1..], c)
  }

  /** `s.replace(c, with)` for a single character `c`. */
  function ReplaceChar(s: string, c: char, with: string): (r: string)
    ensures c !in s ==> r == s
  {
    if s == [] then [] else (if s[0] == c then with else [s[0]]) + ReplaceChar(s[1..], c, with)
  }

  /** Joins the parts with `sep` between neighbours (`join`). */
  function Join(parts: seq<string>, sep: string): (r: string)
    ensures parts == [] ==> r == ""
    ensures |parts| == 1 ==> r == parts[0]
  {
    if parts == [] then ""
    else if |parts| == 1 then parts[0]
    else parts[0] + sep + Join(parts[1..], sep)
  }

  function DigitValue(c: char): nat
  {
    if IsDigit(c) then (c as int - '0' as int) as nat
    else if 'a' <= c <= 'f' then (c as int - 'a' as int + 10) as nat
    else if 'A' <= c <= 'F' then (c as int - 'A' as int + 10) as nat
    else 0
  }

  predicate AllDigitsIn(s: string, radix: nat)
  {
    forall i :: 0 <= i < |s| ==> (if radix == 16 then IsHexDigit(s[i]) else IsDigit(s[i]))
  }

  /** The value of a digit string, most significant first. */
  function DigitsValue(s: string, radix: nat): nat
  {
    if s == [] then 0 else DigitsValue(s[..|s| - 1], radix) * radix + DigitValue(s[|s| - 1])
  }

  /**
   * `u32::from_str_radix` / `usize::from_str_radix` / `str::parse`: an
   * optional `+`, then at least one digit of the radix; the value must be
   * below `bound`.
   */
  function ParseUnsigned(s: string, radix: nat, bound: nat): (r: Option<nat>)
    ensures r.Some? ==> r.value < bound
    ensures r.Some? ==> |s| > 0
  {
    var digits := if |s| > 0 && s[0] == '+' then s[1..] else s;
    if |digits| > 0 && AllDigitsIn(digits, radix) && DigitsValue(digits, radix) < bound
    then Some(DigitsValue(digits, radix))
    else None
  }

  const U32_BOUND: nat := 0x1_0000_0000
  const USIZE_BOUND: nat := 0x1_0000_0000_0000_0000

  /** `text.parse::<u32>()`. */
  function ParseU32(s: string): Option<nat> { ParseUnsigned(s, 10, U32_BOUND) }

  /** Decimal digits of a natural number (`to_string`). */
  function NatToString(n: nat): (r: string)
    ensures |r| > 0 && AllDigits(r)
    decreases n
  {
    if n < 10 then [(('0' as int) + n) as char]
    else NatToString(n / 10) + [(('0' as int) + n % 10) as char]
  }

  lemma DigitsValueNatToString(n: nat)
    ensures DigitsValue(NatToString(n), 10) == n
    decreases n
  {
    var s := NatToString(n);
    if n >= 10 {
      DigitsValueNatToString(n / 10);
      assert s[..|s| - 1] == NatToString(n / 10);
    }
  }

  /** Printing a natural number and parsing it back gives the number. */
  lemma ParseNatToString(n: nat, bound: nat)
    requires n < bound
    ensures ParseUnsigned(NatToString(n), 10, bound) == Some(n)
  {
    DigitsValueNatToString(n);
  }
}
