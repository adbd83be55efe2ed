/**
 * Completion (src/completion.rs): what the text just before the cursor
 * ends with decides the list. A number with a type suffix expands to a
 * constant; `l$`, `l=$`, `g$` and `g=$` expand to local and global
 * accessors; `i32.` and the other prefixes list their instructions; a
 * `$` lists the names the line's context can use; `@` lists doc tags;
 * anything else non-blank lists the keywords. The first branch that
 * applies answers.
 */
module Completion {
  import opened Wrappers
  import opened CoreTypes
  import opened Text
  import opened Symbols
  import U = Utils
  import H = Hover

  datatype ItemKind = SnippetItem | KeywordItem | FunctionItem | VariableItem | ConstantItem

  /** A completion item; `snippet` marks an insert text with a `$0` placeholder. */
  datatype CompletionItem = CompletionItem(
    labelText: string, kind: ItemKind, detail: Option<string>,
    insertText: Option<string>, snippet: bool, documentation: Option<string>)

  /** `make_completion`: a keyword item with a detail line. */
  function MakeCompletion(name: string, detail: string): (r: CompletionItem)
    ensures r.labelText == name && r.kind == KeywordItem && r.detail == Some(detail)
    ensures r.insertText.None? && !r.snippet && r.documentation.None?
  {
    CompletionItem(name, KeywordItem, Some(detail), None, false, None)
  }

  /** One keyword item per (name, detail) pair, in order. */
  function Items(pairs: seq<(string, string)>): (r: seq<CompletionItem>)
    ensures |r| == |pairs|
    ensures forall i :: 0 <= i < |pairs| ==> r[i] == MakeCompletion(pairs[i].0, pairs[i].1)
  {
    seq(|pairs|, i requires 0 <= i < |pairs| => MakeCompletion(pairs[i].0, pairs[i].1))
  }

  // ---------------------------------------------------------------------
  // Number constants: `[0-9._]+(i|f)(32|64)` at the end of the prefix
  // ---------------------------------------------------------------------

  predicate IsNumberChar(c: char) { '0' <= c <= '9' || c == '.' || c == '_' }

  predicate IsNumericType(t: string) { t == "i32" || t == "i64" || t == "f32" || t == "f64" }

  /** The number of number characters at the end of `s`. */
  function TrailingNumberChars(s: string): (n: nat)
    ensures n <= |s|
    ensures forall i :: |s| - n <= i < |s| ==> IsNumberChar(s[i])
    ensures n < |s| ==> !IsNumberChar(s[|s| - n - 1])
  {
    if s != [] && IsNumberChar(s[|s| - 1]) then TrailingNumberChars(s[..|s| - 1]) + 1 else 0
  }

  /**
   * The regex's match at the end of the prefix: the whole run of number
   * characters before a numeric type suffix, as the leftmost match
   * takes it, and the suffix.
   */
  function NumberConst(prefix: string): (r: Option<(string, string)>)
    ensures r.Some? <==>
      |prefix| > 3 && IsNumericType(prefix[|prefix| - 3..]) && IsNumberChar(prefix[|prefix| - 4])
    ensures r.Some? ==>
      var number := r.value.0;
      var t := r.value.1;
      |number| > 0 && IsNumericType(t) && EndsWith(prefix, number + t)
      && (forall i :: 0 <= i < |number| ==> IsNumberChar(number[i]))
      && (|number| + 3 < |prefix| ==> !IsNumberChar(prefix[|prefix| - 3 - |number| - 1]))
  {
    if |prefix| < 3 || !IsNumericType(prefix[|prefix| - 3..]) then None
    else
      var body := prefix[..|prefix| - 3];
      var n := TrailingNumberChars(body);
      if n == 0 then None
      else
        var number := body[|body| - n..];
        assert prefix == body[..|body| - n] + (number + prefix[|prefix| - 3..]);
        Some((number, prefix[|prefix| - 3..]))
  }

  /** A run of number characters after a non-number character is counted whole. */
  lemma {:induction false} TrailingRunCounted(before: string, number: string)
    requires forall i :: 0 <= i < |number| ==> IsNumberChar(number[i])
    requires before == [] || !IsNumberChar(before[|before| - 1])
    ensures TrailingNumberChars(before + number) == |number|
  {
    if number == [] {
      assert before + number == before;
    } else {
      var s := before + number;
      assert s[..|s| - 1] == before + number[..|number| - 1];
      TrailingRunCounted(before, number[..|number| - 1]);
    }
  }

  /**
   * The constant written at the end of the prefix is the one read back: a
   * run of number characters, not preceded by another, followed by a
   * numeric type, matches with exactly that run and that type.
   */
  lemma NumberConstReadsWritten(before: string, number: string, t: string)
    requires |number| > 0 && forall i :: 0 <= i < |number| ==> IsNumberChar(number[i])
    requires IsNumericType(t)
    requires before == [] || !IsNumberChar(before[|before| - 1])
    ensures NumberConst(before + number + t) == Some((number, t))
  {
    var p := before + number + t;
    assert p[..|p| - 3] == before + number;
    assert p[|p| - 3..] == t;
    TrailingRunCounted(before, number);
    assert (before + number)[|before|..] == number;
  }

  /** `number.replace('_', "")`. */
  function RemoveUnderscores(s: string): (r: string)
    ensures |r| == |s| - CountChar(s, '_')
    ensures forall i :: 0 <= i < |r| ==> r[i] != '_'
  {
    if s == [] then ""
    else if s[0] == '_' then RemoveUnderscores(s[1..])
    else [s[0]] + RemoveUnderscores(s[1..])
  }

  /** The snippet for a typed number: `(T.const N)` with the underscores of N dropped. */
  function NumberItem(number: string, t: string): (r: CompletionItem)
    ensures r.labelText == number + t && r.kind == SnippetItem
    ensures r.insertText == Some("(" + t + ".const " + RemoveUnderscores(number) + ")")
    ensures r.detail == Some("Expand to: " + r.insertText.value)
  {
    var insert := "(" + t + ".const " + RemoveUnderscores(number) + ")";
    CompletionItem(number + t, SnippetItem, Some("Expand to: " + insert), Some(insert), false, None)
  }

  // ---------------------------------------------------------------------
  // Lists of named things
  // ---------------------------------------------------------------------

  /** One item per element that `name` gives a name to, in order. */
  function NamedItems<T>(xs: seq<T>, name: T -> Option<string>, mk: (T, string) -> CompletionItem): (r: seq<CompletionItem>)
    ensures |r| <= |xs|
  {
    if xs == [] then []
    else
      var last := xs[|xs| - 1];
      NamedItems(xs[..|xs| - 1], name, mk) + (if name(last).Some? then [mk(last, name(last).value)] else [])
  }

  /** Every item is made from a named element, and every named element makes an item. */
  lemma {:induction false} NamedItemsExact<T>(xs: seq<T>, name: T -> Option<string>, mk: (T, string) -> CompletionItem)
    ensures forall j :: 0 <= j < |NamedItems(xs, name, mk)| ==>
      exists i :: 0 <= i < |xs| && name(xs[i]).Some? && NamedItems(xs, name, mk)[j] == mk(xs[i], name(xs[i]).value)
    ensures forall i :: 0 <= i < |xs| && name(xs[i]).Some? ==> mk(xs[i], name(xs[i]).value) in NamedItems(xs, name, mk)
  {
    if xs != [] {
      var init := xs[..|xs| - 1];
      NamedItemsExact(init, name, mk);
      var r := NamedItems(xs, name, mk);
      var a := NamedItems(init, name, mk);
      var last := xs[|xs| - 1];
      assert r == a + (if name(last).Some? then [mk(last, name(last).value)] else []);
      forall j | 0 <= j < |r|
        ensures exists i :: 0 <= i < |xs| && name(xs[i]).Some? && r[j] == mk(xs[i], name(xs[i]).value)
      {
        if j < |a| {
          assert r[j] == a[j];
          var i :| 0 <= i < |init| && name(init[i]).Some? && a[j] == mk(init[i], name(init[i]).value);
          assert xs[i] == init[i];
        } else {
          assert name(last).Some? && r[j] == mk(last, name(last).value);
        }
      }
      forall i | 0 <= i < |xs| && name(xs[i]).Some?
        ensures mk(xs[i], name(xs[i]).value) in r
      {
        if i < |init| {
          assert xs[i] == init[i];
          var k :| 0 <= k < |a| && a[k] == mk(init[i], name(init[i]).value);
          assert r[k] == a[k];
        } else {
          assert xs[i] == last && r[|r| - 1] == mk(last, name(last).value);
        }
      }
    } else {
      assert NamedItems(xs, name, mk) == [];
    }
  }

  /** Appends the items for the named elements of `xs`, one element at a time. */
  method PushNamed<T>(acc: seq<CompletionItem>, xs: seq<T>, name: T -> Option<string>, mk: (T, string) -> CompletionItem)
    returns (out: seq<CompletionItem>)
    ensures out == acc + NamedItems(xs, name, mk)
  {
    out := acc;
    var i := 0;
    while i < |xs|
      invariant 0 <= i <= |xs|
      invariant out == acc + NamedItems(xs[..i], name, mk)
    {
      assert xs[..i + 1][..i] == xs[..i];
      if name(xs[i]).Some? {
        out := out + [mk(xs[i], name(xs[i]).value)];
      }
      i := i + 1;
    }
    assert xs[..i] == xs;
  }

  function ParamName(p: Parameter): Option<string> { p.name }
  function LocalName(v: Variable): Option<string> { v.name }
  function FunctionName(f: Function): Option<string> { f.name }
  function GlobalName(g: Global): Option<string> { g.name }
  /** Only mutable globals can be set. */
  function MutableGlobalName(g: Global): Option<string> { if g.isMutable then g.name else None }
  /** Every block is listed, named or not. */
  function BlockName(b: BlockLabel): Option<string> { Some(b.labelName) }

  /** The name without its first character, the `$`. */
  function DropDollar(name: string): (r: string)
    ensures |name| > 0 ==> r == name[1..]
  {
    if |name| > 0 then name[1..] else name
  }

  function ParamDetail(p: Parameter): string { "(param) " + ToStr(p.paramType) }
  function LocalDetail(v: Variable): string { "(local) " + ToStr(v.varType) }

  // `l$`: `(local.get NAME)`
  function LocalGetParam(p: Parameter, n: string): CompletionItem
  {
    var insert := "(local.get " + n + ")";
    CompletionItem("l" + n, SnippetItem, Some(ParamDetail(p)), Some(insert), false, Some("Expands to: " + insert))
  }
  function LocalGetLocal(v: Variable, n: string): CompletionItem
  {
    var insert := "(local.get " + n + ")";
    CompletionItem("l" + n, SnippetItem, Some(LocalDetail(v)), Some(insert), false, Some("Expands to: " + insert))
  }

  // `l=$`: `(local.set NAME $0)`
  function LocalSetParam(p: Parameter, n: string): CompletionItem
  {
    CompletionItem("l=" + n, SnippetItem, Some(ParamDetail(p)), Some("(local.set " + n + " $0)"), true, None)
  }
  function LocalSetLocal(v: Variable, n: string): CompletionItem
  {
    CompletionItem("l=" + n, SnippetItem, Some(LocalDetail(v)), Some("(local.set " + n + " $0)"), true, None)
  }

  // `g$` and `g=$`
  function GlobalGet(g: Global, n: string): CompletionItem
  {
    var insert := "(global.get " + n + ")";
    CompletionItem("g" + n, SnippetItem, Some("(global) " + ToStr(g.varType)), Some(insert), false, Some("Expands to: " + insert))
  }
  function GlobalSet(g: Global, n: string): CompletionItem
  {
    CompletionItem("g=" + n, SnippetItem, Some("(global mut) " + ToStr(g.varType)), Some("(global.set " + n + " $0)"), true, None)
  }

  // After a `$`, by context
  function ParamTypes(ps: seq<Parameter>): (r: seq<ValueType>)
    ensures |r| == |ps| && forall i :: 0 <= i < |ps| ==> r[i] == ps[i].paramType
  {
    seq(|ps|, i requires 0 <= i < |ps| => ps[i].paramType)
  }
  function OrText(s: string, fallback: string): string { if s == "" then fallback else s }
  function CallItem(f: Function, n: string): CompletionItem
  {
    var detail := "(" + OrText(H.SpacedTypes(ParamTypes(f.parameters)), "no params") + ") -> ("
                  + OrText(H.SpacedTypes(f.results), "no result") + ")";
    CompletionItem(DropDollar(n), FunctionItem, Some(detail), None, false, None)
  }
  function GlobalItem(g: Global, n: string): CompletionItem
  {
    var detail := "(global" + (if g.isMutable then " mut" else "") + ") " + ToStr(g.varType);
    CompletionItem(DropDollar(n), VariableItem, Some(detail), None, false, None)
  }
  function ParamItem(p: Parameter, n: string): CompletionItem
  {
    CompletionItem(DropDollar(n), VariableItem, Some(ParamDetail(p)), None, false, None)
  }
  function LocalItem(v: Variable, n: string): CompletionItem
  {
    CompletionItem(DropDollar(n), VariableItem, Some(LocalDetail(v)), None, false, None)
  }
  function BlockItem(b: BlockLabel, n: string): CompletionItem
  {
    CompletionItem(DropDollar(n), ConstantItem, Some(b.blockType + " at line " + NatToString(b.line + 1)), None, false, None)
  }
  function AnyFunctionItem(f: Function, n: string): CompletionItem
  {
    CompletionItem(DropDollar(n), FunctionItem, Some("function"), None, false, None)
  }
  function AnyGlobalItem(g: Global, n: string): CompletionItem
  {
    CompletionItem(DropDollar(n), VariableItem, Some("global"), None, false, None)
  }

  /** The named parameters and then the named locals of the function the position is in, if any. */
  function LocalsOf(
    f: Option<Function>, onParam: (Parameter, string) -> CompletionItem, onLocal: (Variable, string) -> CompletionItem)
    : seq<CompletionItem>
  {
    match f
    case None => []
    case Some(func) => NamedItems(func.parameters, ParamName, onParam) + NamedItems(func.locals, LocalName, onLocal)
  }

  /** The items a `$` gets in `context`, where `f` is the function the position is in. */
  function ContextItems(context: U.InstructionContext, table: SymbolTable, f: Option<Function>): seq<CompletionItem>
    reads table
  {
    match context
    case Call => NamedItems(table.functions, FunctionName, CallItem)
    case Global => NamedItems(table.globals, GlobalName, GlobalItem)
    case Local => LocalsOf(f, ParamItem, LocalItem)
    case Branch => if f.Some? then NamedItems(f.value.blocks, BlockName, BlockItem) else []
    case _ => NamedItems(table.functions, FunctionName, AnyFunctionItem) + NamedItems(table.globals, GlobalName, AnyGlobalItem)
  }

  /** The items after a `$`, by the context the line gives it. */
  function DollarItems(prefix: string, table: SymbolTable, pos: Position): seq<CompletionItem>
    reads table
  {
    ContextItems(U.DetermineContextFromLine(prefix), table, U.FindContainingFunction(table.functions, pos))
  }

  // ---------------------------------------------------------------------
  // Fixed lists
  // ---------------------------------------------------------------------

  const COMMON_OPS: seq<(string, string)> := [
    ("const", "Create constant value"), ("add", "Add two values"), ("sub", "Subtract two values"),
    ("mul", "Multiply two values"), ("eq", "Check equality"), ("ne", "Check inequality"),
    ("load", "Load from memory"), ("store", "Store to memory")]

  const INT_OPS: seq<(string, string)> := [
    ("div_s", "Signed division"), ("div_u", "Unsigned division"), ("rem_s", "Signed remainder"),
    ("rem_u", "Unsigned remainder"), ("and", "Bitwise AND"), ("or", "Bitwise OR"), ("xor", "Bitwise XOR"),
    ("shl", "Shift left"), ("shr_s", "Signed shift right"), ("shr_u", "Unsigned shift right"),
    ("rotl", "Rotate left"), ("rotr", "Rotate right"), ("clz", "Count leading zeros"),
    ("ctz", "Count trailing zeros"), ("popcnt", "Population count"), ("eqz", "Check if zero"),
    ("lt_s", "Signed less than"), ("lt_u", "Unsigned less than"), ("gt_s", "Signed greater than"),
    ("gt_u", "Unsigned greater than"), ("le_s", "Signed less or equal"), ("le_u", "Unsigned less or equal"),
    ("ge_s", "Signed greater or equal"), ("ge_u", "Unsigned greater or equal")]

  const FLOAT_OPS: seq<(string, string)> := [
    ("div", "Divide two values"), ("sqrt", "Square root"), ("min", "Minimum of two values"),
    ("max", "Maximum of two values"), ("abs", "Absolute value"), ("neg", "Negate value"),
    ("ceil", "Round up"), ("floor", "Round down"), ("trunc", "Round toward zero"),
    ("nearest", "Round to nearest"), ("copysign", "Copy sign"), ("lt", "Less than"),
    ("gt", "Greater than"), ("le", "Less or equal"), ("ge", "Greater or equal")]

  const LOCAL_OPS: seq<(string, string)> := [
    ("get", "Get local variable value"), ("set", "Set local variable value"), ("tee", "Set local and return value")]

  const GLOBAL_OPS: seq<(string, string)> := [
    ("get", "Get global variable value"), ("set", "Set global variable value")]

  const MEMORY_OPS: seq<(string, string)> := [
    ("size", "Get memory size in pages"), ("grow", "Grow memory by delta pages"), ("fill", "Fill memory region"),
    ("copy", "Copy memory region"), ("init", "Initialize memory from data segment")]

  const TABLE_OPS: seq<(string, string)> := [
    ("get", "Get table element"), ("set", "Set table element"), ("size", "Get table size"),
    ("grow", "Grow table"), ("fill", "Fill table entries"), ("copy", "Copy table elements"),
    ("init", "Initialize table from element segment")]

  const DOC_TAGS: seq<(string, string)> := [
    ("param", "Parameter documentation"), ("result", "Result documentation"),
    ("function", "Function documentation"), ("todo", "TODO marker")]

  const KEYWORDS: seq<(string, string)> := [
    ("func", "Function declaration"), ("param", "Function parameter"), ("result", "Function result"),
    ("local", "Local variable"), ("global", "Global variable"), ("block", "Block statement"),
    ("loop", "Loop statement"), ("if", "Conditional statement"), ("call", "Call function"),
    ("return", "Return from function"), ("drop", "Drop value from stack")]

  predicate StartsWithI(t: string) { |t| > 0 && t[0] == 'i' }

  /** `get_type_completions`: the common operations, then the integer or the float ones. */
  function TypeCompletions(typePrefix: string): (r: seq<CompletionItem>)
    ensures |r| == if StartsWithI(typePrefix) then 32 else 23
    ensures r[..8] == Items(COMMON_OPS)
  {
    Items(COMMON_OPS) + Items(if StartsWithI(typePrefix) then INT_OPS else FLOAT_OPS)
  }

  /** The push loops of `get_type_completions`. */
  method GetTypeCompletions(typePrefix: string) returns (r: seq<CompletionItem>)
    ensures r == TypeCompletions(typePrefix)
  {
    r := PushItems([], COMMON_OPS);
    if |typePrefix| > 0 && typePrefix[0] == 'i' {
      r := PushItems(r, INT_OPS);
    } else {
      r := PushItems(r, FLOAT_OPS);
    }
  }

  /** Appends one keyword item per pair. */
  method PushItems(acc: seq<CompletionItem>, pairs: seq<(string, string)>) returns (out: seq<CompletionItem>)
    ensures out == acc + Items(pairs)
  {
    out := acc;
    var i := 0;
    while i < |pairs|
      invariant 0 <= i <= |pairs|
      invariant out == acc + Items(pairs[..i])
    {
      out := out + [MakeCompletion(pairs[i].0, pairs[i].1)];
      i := i + 1;
    }
    assert pairs[..i] == pairs;
  }

  // ---------------------------------------------------------------------
  // The dispatch
  // ---------------------------------------------------------------------

  /** The branches of `provide_completion`, in order, on the text before the cursor. */
  function CompletionsFor(prefix: string, table: SymbolTable, pos: Position): seq<CompletionItem>
    reads table
  {
    var f := U.FindContainingFunction(table.functions, pos);
    if NumberConst(prefix).Some? then [NumberItem(NumberConst(prefix).value.0, NumberConst(prefix).value.1)]
    else if EndsWith(prefix, "l$") then LocalsOf(f, LocalGetParam, LocalGetLocal)
    else if EndsWith(prefix, "l=$") then LocalsOf(f, LocalSetParam, LocalSetLocal)
    else if EndsWith(prefix, "g$") then NamedItems(table.globals, GlobalName, GlobalGet)
    else if EndsWith(prefix, "g=$") then NamedItems(table.globals, MutableGlobalName, GlobalSet)
    else if EndsWith(prefix, "i32.") then TypeCompletions("i32")
    else if EndsWith(prefix, "i64.") then TypeCompletions("i64")
    else if EndsWith(prefix, "f32.") then TypeCompletions("f32")
    else if EndsWith(prefix, "f64.") then TypeCompletions("f64")
    else if EndsWith(prefix, "local.") then Items(LOCAL_OPS)
    else if EndsWith(prefix, "global.") then Items(GLOBAL_OPS)
    else if EndsWith(prefix, "memory.") then Items(MEMORY_OPS)
    else if EndsWith(prefix, "table.") then Items(TABLE_OPS)
    else if EndsWith(prefix, "$") then DollarItems(prefix, table, pos)
    else if EndsWith(prefix, "@") then Items(DOC_TAGS)
    else if Trim(prefix) != "" then Items(KEYWORDS)
    else []
  }

  /** The text of the cursor's line before the cursor, if the line exists. */
  function LinePrefix(document: string, pos: Position): (r: Option<string>)
    ensures r.Some? ==> LineAt(document, pos.line).Some? && StartsWith(LineAt(document, pos.line).value, r.value)
    ensures r.Some? ==> |r.value| == if pos.character < |LineAt(document, pos.line).value| then pos.character else |LineAt(document, pos.line).value|
    ensures r.None? <==> LineAt(document, pos.line).None?
  {
    match LineAt(document, pos.line)
    case None => None
    case Some(line) => Some(line[..if pos.character < |line| then pos.character else |line|])
  }

  /** `provide_completion`: no line, no items; otherwise the branches on the line's prefix. */
  function Completions(document: string, table: SymbolTable, pos: Position): (r: seq<CompletionItem>)
    reads table
    ensures LinePrefix(document, pos).None? ==> r == []
    ensures LinePrefix(document, pos).Some? ==> r == CompletionsFor(LinePrefix(document, pos).value, table, pos)
  {
    match LinePrefix(document, pos)
    case None => []
    case Some(prefix) => CompletionsFor(prefix, table, pos)
  }

  /** The local lists, parameters first, each through its push loop. */
  method PushLocals(
    f: Option<Function>, onParam: (Parameter, string) -> CompletionItem, onLocal: (Variable, string) -> CompletionItem)
    returns (out: seq<CompletionItem>)
    ensures out == LocalsOf(f, onParam, onLocal)
  {
    out := [];
    if f.Some? {
      out := PushNamed(out, f.value.parameters, ParamName, onParam);
      out := PushNamed(out, f.value.locals, LocalName, onLocal);
    }
  }

  /** The `$` branch: the line's context picks the lists. */
  method PushContextItems(context: U.InstructionContext, table: SymbolTable, f: Option<Function>) returns (out: seq<CompletionItem>)
    ensures out == ContextItems(context, table, f)
  {
    if context.Call? {
      out := PushNamed([], table.functions, FunctionName, CallItem);
    } else if context.Global? {
      out := PushNamed([], table.globals, GlobalName, GlobalItem);
    } else if context.Local? {
      out := PushLocals(f, ParamItem, LocalItem);
    } else if context.Branch? {
      out := PushBlocks(f);
    } else {
      out := PushAnyItems(table);
    }
  }

  /** The labels of the enclosing function's blocks. */
  method PushBlocks(f: Option<Function>) returns (out: seq<CompletionItem>)
    ensures out == if f.Some? then NamedItems(f.value.blocks, BlockName, BlockItem) else []
  {
    out := [];
    if f.Some? {
      out := PushNamed(out, f.value.blocks, BlockName, BlockItem);
    }
  }

  /** Every named function, then every named global. */
  method PushAnyItems(table: SymbolTable) returns (out: seq<CompletionItem>)
    ensures out == NamedItems(table.functions, FunctionName, AnyFunctionItem) + NamedItems(table.globals, GlobalName, AnyGlobalItem)
  {
    out := PushNamed([], table.functions, FunctionName, AnyFunctionItem);
    out := PushNamed(out, table.globals, GlobalName, AnyGlobalItem);
  }

  /** `provide_completion`: the branches in order, each returning what it pushed. */
  method ProvideCompletion(document: string, table: SymbolTable, pos: Position) returns (completions: seq<CompletionItem>)
    ensures completions == Completions(document, table, pos)
  {
    completions := [];
    var line := LineAt(document, pos.line);
    if line.None? {
      return;
    }
    var prefix := line.value[..if pos.character < |line.value| then pos.character else |line.value|];
    assert prefix == LinePrefix(document, pos).value;
    completions := ProvidePrefixCompletion(prefix, table, pos);
  }

  /** The branches of `provide_completion` once the prefix is cut. */
  method ProvidePrefixCompletion(prefix: string, table: SymbolTable, pos: Position) returns (completions: seq<CompletionItem>)
    ensures completions == CompletionsFor(prefix, table, pos)
  {
    completions := [];
    var number := NumberConst(prefix);
    if number.Some? {
      completions := completions + [NumberItem(number.value.0, number.value.1)];
      return;
    }
    var f := U.FindContainingFunction(table.functions, pos);
    if EndsWith(prefix, "l$") {
      completions := PushLocals(f, LocalGetParam, LocalGetLocal);
    } else if EndsWith(prefix, "l=$") {
      completions := PushLocals(f, LocalSetParam, LocalSetLocal);
    } else if EndsWith(prefix, "g$") {
      completions := PushNamed(completions, table.globals, GlobalName, GlobalGet);
    } else if EndsWith(prefix, "g=$") {
      completions := PushNamed(completions, table.globals, MutableGlobalName, GlobalSet);
    } else if EndsWith(prefix, "i32.") {
      completions := GetTypeCompletions("i32");
    } else if EndsWith(prefix, "i64.") {
      completions := GetTypeCompletions("i64");
    } else if EndsWith(prefix, "f32.") {
      completions := GetTypeCompletions("f32");
    } else if EndsWith(prefix, "f64.") {
      completions := GetTypeCompletions("f64");
    } else if EndsWith(prefix, "local.") {
      completions := PushItems(completions, LOCAL_OPS);
    } else if EndsWith(prefix, "global.") {
      completions := PushItems(completions, GLOBAL_OPS);
    } else if EndsWith(prefix, "memory.") {
      completions := PushItems(completions, MEMORY_OPS);
    } else if EndsWith(prefix, "table.") {
      completions := PushItems(completions, TABLE_OPS);
    } else if EndsWith(prefix, "$") {
      completions := PushContextItems(U.DetermineContextFromLine(prefix), table, f);
    } else if EndsWith(prefix, "@") {
      completions := PushItems(completions, DOC_TAGS);
    } else if Trim(prefix) != "" {
      completions := PushItems(completions, KEYWORDS);
    }
  }

  // ---------------------------------------------------------------------
  // Properties
  // ---------------------------------------------------------------------

  /** A typed number at the end of the prefix is answered by exactly one snippet. */
  lemma NumberWinsAlone(prefix: string, table: SymbolTable, pos: Position)
    requires NumberConst(prefix).Some?
    ensures var number := NumberConst(prefix).value.0;
      var t := NumberConst(prefix).value.1;
      CompletionsFor(prefix, table, pos) == [NumberItem(number, t)]
      && EndsWith(prefix, number + t)
  {
  }

  /** A blank string does not end with any text whose last character is not blank. */
  lemma BlankEndsWithNothing(s: string, p: string)
    requires forall i :: 0 <= i < |s| ==> IsWhitespace(s[i])
    requires |p| > 0 && !IsWhitespace(p[|p| - 1])
    ensures !EndsWith(s, p)
  {
  }

  /** A blank prefix gets no items at all. */
  lemma BlankPrefixGetsNothing(prefix: string, table: SymbolTable, pos: Position)
    requires forall i :: 0 <= i < |prefix| ==> IsWhitespace(prefix[i])
    ensures CompletionsFor(prefix, table, pos) == []
  {
    if |prefix| > 3 {
      assert !IsNumberChar(prefix[|prefix| - 4]);
    }
    BlankEndsWithNothing(prefix, "l$");
    BlankEndsWithNothing(prefix, "l=$");
    BlankEndsWithNothing(prefix, "g$");
    BlankEndsWithNothing(prefix, "g=$");
    BlankEndsWithNothing(prefix, "i32.");
    BlankEndsWithNothing(prefix, "i64.");
    BlankEndsWithNothing(prefix, "f32.");
    BlankEndsWithNothing(prefix, "f64.");
    BlankEndsWithNothing(prefix, "local.");
    BlankEndsWithNothing(prefix, "global.");
    BlankEndsWithNothing(prefix, "memory.");
    BlankEndsWithNothing(prefix, "table.");
    BlankEndsWithNothing(prefix, "$");
    BlankEndsWithNothing(prefix, "@");
    TrimEmptyIff(prefix);
  }

  /** `item` is the `global.set` snippet of the named mutable global `g`. */
  predicate SetsGlobal(item: CompletionItem, g: Global)
  {
    g.isMutable && g.name.Some? && item == GlobalSet(g, g.name.value)
  }

  /** `g=$` offers exactly the named mutable globals, each as a `global.set` snippet. */
  lemma GlobalSetOffersMutableOnly(prefix: string, table: SymbolTable, pos: Position)
    requires NumberConst(prefix).None? && EndsWith(prefix, "g=$")
    ensures var r := CompletionsFor(prefix, table, pos);
      (forall j :: 0 <= j < |r| ==> exists i :: 0 <= i < |table.globals| && SetsGlobal(r[j], table.globals[i]))
      && (forall i :: 0 <= i < |table.globals| && table.globals[i].isMutable && table.globals[i].name.Some? ==>
           GlobalSet(table.globals[i], table.globals[i].name.value) in r)
  {
    assert !EndsWith(prefix, "l$") && !EndsWith(prefix, "l=$") && !EndsWith(prefix, "g$") by {
      assert prefix[|prefix| - 2] == '=' && prefix[|prefix| - 3] == 'g';
    }
    var r := CompletionsFor(prefix, table, pos);
    assert r == NamedItems(table.globals, MutableGlobalName, GlobalSet);
    MutableGlobalsExact(table.globals);
    assert forall j :: 0 <= j < |r| ==> exists i :: 0 <= i < |table.globals| && SetsGlobal(r[j], table.globals[i]);
  }

  /** The `global.set` list holds exactly the named mutable globals. */
  lemma MutableGlobalsExact(globals: seq<Global>)
    ensures var r := NamedItems(globals, MutableGlobalName, GlobalSet);
      (forall j :: 0 <= j < |r| ==> exists i :: 0 <= i < |globals| && SetsGlobal(r[j], globals[i]))
      && (forall i :: 0 <= i < |globals| && globals[i].isMutable && globals[i].name.Some? ==>
           GlobalSet(globals[i], globals[i].name.value) in r)
  {
    var r := NamedItems(globals, MutableGlobalName, GlobalSet);
    NamedItemsExact(globals, MutableGlobalName, GlobalSet);
    forall j | 0 <= j < |r|
      ensures exists i :: 0 <= i < |globals| && SetsGlobal(r[j], globals[i])
    {
      var i :| 0 <= i < |globals| && MutableGlobalName(globals[i]).Some?
               && r[j] == GlobalSet(globals[i], MutableGlobalName(globals[i]).value);
      assert SetsGlobal(r[j], globals[i]);
    }
    forall i | 0 <= i < |globals| && globals[i].isMutable && globals[i].name.Some?
      ensures GlobalSet(globals[i], globals[i].name.value) in r
    {
      assert MutableGlobalName(globals[i]) == globals[i].name;
    }
  }

  /** `g$` offers every named global, mutable or not. */
  lemma GlobalGetOffersAllNamed(prefix: string, table: SymbolTable, pos: Position)
    requires NumberConst(prefix).None? && EndsWith(prefix, "g$")
    ensures forall i :: 0 <= i < |table.globals| && table.globals[i].name.Some? ==>
      GlobalGet(table.globals[i], table.globals[i].name.value) in CompletionsFor(prefix, table, pos)
  {
    assert !EndsWith(prefix, "l$") && !EndsWith(prefix, "l=$") by {
      assert prefix[|prefix| - 2] == 'g';
    }
    NamedItemsExact(table.globals, GlobalName, GlobalGet);
  }

  /** In a call context a `$` lists one function item per named function, without the `$`. */
  lemma CallContextListsFunctions(prefix: string, table: SymbolTable, pos: Position)
    requires U.DetermineContextFromLine(prefix) == U.Call
    ensures var r := DollarItems(prefix, table, pos);
      (forall j :: 0 <= j < |r| ==> (r[j].kind == FunctionItem
        && exists i :: (0 <= i < |table.functions| && table.functions[i].name.Some?
             && r[j].labelText == DropDollar(table.functions[i].name.value))))
      && (forall i :: 0 <= i < |table.functions| && table.functions[i].name.Some? ==>
           CallItem(table.functions[i], table.functions[i].name.value) in r)
  {
    var r := NamedItems(table.functions, FunctionName, CallItem);
    assert DollarItems(prefix, table, pos) == r;
    NamedItemsExact(table.functions, FunctionName, CallItem);
    forall j | 0 <= j < |r|
      ensures r[j].kind == FunctionItem
      ensures exists i :: (0 <= i < |table.functions| && table.functions[i].name.Some?
                           && r[j].labelText == DropDollar(table.functions[i].name.value))
    {
      var i :| 0 <= i < |table.functions| && FunctionName(table.functions[i]).Some?
               && r[j] == CallItem(table.functions[i], FunctionName(table.functions[i]).value);
    }
  }

  /** After `i32.` or `i64.` the 8 common and 24 integer operations; after `f32.` or `f64.` the 8 common and 15 float ones. */
  lemma TypePrefixCounts()
    ensures |TypeCompletions("i32")| == |TypeCompletions("i64")| == 32
    ensures |TypeCompletions("f32")| == |TypeCompletions("f64")| == 23
  {
    assert StartsWithI("i32") && StartsWithI("i64");
    assert !StartsWithI("f32") && !StartsWithI("f64");
  }
}
