/**
 * The browser entry point (src/wasm/api.rs): a `WatLSP` object holding the
 * current document and the symbol table the `wast`-based extractor built
 * for it, and its own helpers for the word under the cursor, definitions by
 * name and by index, and a whole-word reference search over the text.
 */
module WasmApi {
  import opened Wrappers
  import opened CoreTypes
  import opened Text
  import opened Symbols
  import U = Utils
  import L = SymbolLookup
  import R = References
  import W = WastParser

  // ---------------------------------------------------------------------
  // The word under the cursor
  // ---------------------------------------------------------------------

  /**
   * This file's `is_word_char`: alphanumerics and `_ $ .`. It is the shared
   * class of the utilities without `-`.
   */
  function IsWordChar(c: char): (r: bool)
    ensures r <==> U.IsWordChar(c) && c != '-'
  {
    IsAlnum(c) || c == '_' || c == '$' || c == '.'
  }

  /** `get_word_at_position` with this file's word class. */
  function WordAt(document: string, pos: Position): Option<string>
  {
    U.WordIn(document, pos, IsWordChar)
  }

  /** The two expanding loops of `get_word_at_position`. */
  method GetWordAtPosition(document: string, pos: Position) returns (r: Option<string>)
    ensures r == WordAt(document, pos)
  {
    r := U.WordAround(document, pos, IsWordChar);
  }

  /**
   * A word found here is non-empty, holds no `-`, and consists of
   * characters of the shared class, so the shared helper finds a word at
   * the same place.
   */
  lemma WordAtHasNoDash(document: string, pos: Position)
    ensures WordAt(document, pos).Some? ==>
      var w := WordAt(document, pos).value;
      |w| > 0 && '-' !in w && (forall k :: 0 <= k < |w| ==> U.IsWordChar(w[k]))
      && U.WordAt(document, pos).Some?
  {
    if WordAt(document, pos).Some? {
      var w := WordAt(document, pos).value;
      var line := LineAt(document, pos.line).value;
      var s: nat, e: nat :| U.MaximalWordAround(line, pos.character, s, e, IsWordChar) && w == line[s..e];
      forall k | 0 <= k < |w| ensures IsWordChar(w[k]) {
        assert w[k] == line[s + k];
      }
      if pos.character > 0 && IsWordChar(line[pos.character - 1]) {
        assert U.IsWordChar(line[pos.character - 1]);
      } else {
        assert U.IsWordChar(line[pos.character]);
      }
    }
  }

  // ---------------------------------------------------------------------
  // The function around a position
  // ---------------------------------------------------------------------

  /**
   * This file's `find_containing_function`: the first function whose lines
   * `line..=end_line` hold the position's line.
   */
  function FindContainingFunction(functions: seq<Function>, pos: Position): (r: Option<Function>)
    ensures r.Some? <==> exists i :: 0 <= i < |functions| && R.Spans(functions[i], pos.line)
    ensures r.Some? ==> exists i :: R.FirstSpanning(functions, pos.line, i) && r.value == functions[i]
  {
    match FirstWhere(functions, (f: Function) => R.Spans(f, pos.line))
    case None => None
    case Some(i) =>
      assert R.FirstSpanning(functions, pos.line, i);
      Some(functions[i])
  }

  // ---------------------------------------------------------------------
  // Definitions by name
  // ---------------------------------------------------------------------

  /** The function around `pos` has a parameter or a local called `word`. */
  predicate OwnerNames(word: string, owner: Option<Function>)
  {
    owner.Some? && (L.HasParam(word, owner.value) || L.HasLocal(word, owner.value))
  }

  /**
   * `find_symbol_definition`: functions, globals, the parameters and then
   * the locals of the function around `pos`, tables, memories, types and
   * tags, in that order. Whatever is found first answers with its range,
   * even when it has none; block labels and data and elem segments are
   * not searched.
   */
  function FindSymbolDefinition(word: string, table: SymbolTable, pos: Position): Option<Range>
    reads table
  {
    var owner := FindContainingFunction(table.functions, pos);
    if table.GetFunctionByName(word).Some? then table.GetFunctionByName(word).value.range
    else if table.GetGlobalByName(word).Some? then table.GetGlobalByName(word).value.range
    else if OwnerNames(word, owner) then L.FindLocalOrParamInFunction(word, owner.value)
    else if table.GetTableByName(word).Some? then table.GetTableByName(word).value.range
    else if table.GetMemoryByName(word).Some? then table.GetMemoryByName(word).value.range
    else if table.GetTypeByName(word).Some? then table.GetTypeByName(word).value.range
    else if table.GetTagByName(word).Some? then table.GetTagByName(word).value.range
    else None
  }

  /** Something this search looks at is called `word`. */
  predicate DeclaredHere(word: string, table: SymbolTable, pos: Position)
    reads table
  {
    Some(word) in FunctionNames(table.functions) || Some(word) in GlobalNames(table.globals)
    || OwnerNames(word, FindContainingFunction(table.functions, pos))
    || Some(word) in TableNames(table.tables) || Some(word) in MemoryNames(table.memories)
    || Some(word) in TypeNames(table.types) || Some(word) in TagNames(table.tags)
  }

  /**
   * A definition found for `word` is the range of something called `word`:
   * a module-level item, or a parameter or local of the function around
   * the position.
   */
  lemma SymbolDefinitionIsNamedWord(word: string, table: SymbolTable, pos: Position)
    requires table.Valid() && FindSymbolDefinition(word, table, pos).Some?
    ensures var rg := FindSymbolDefinition(word, table, pos).value;
      L.ModuleItemAt(word, table, rg)
      || (FindContainingFunction(table.functions, pos).Some?
          && L.ParamOrLocalAt(word, FindContainingFunction(table.functions, pos).value, rg))
  {
    var rg := FindSymbolDefinition(word, table, pos).value;
    L.FunctionOrGlobalAt(word, table, rg);
    L.TableOrMemoryAt(word, table, rg);
    L.TypeOrTagAt(word, table, rg);
  }

  /**
   * When every named item carries a range, a definition is found exactly
   * when something this search looks at is called `word`.
   */
  lemma SymbolDefinitionFoundIffDeclared(word: string, table: SymbolTable, pos: Position)
    requires table.Valid() && L.NamedHaveRanges(table)
    ensures FindSymbolDefinition(word, table, pos).Some? <==> DeclaredHere(word, table, pos)
  {
    var owner := FindContainingFunction(table.functions, pos);
    if table.GetFunctionByName(word).Some? {
      var i :| LastNamed(FunctionNames(table.functions), word, i) && table.GetFunctionByName(word) == Some(table.functions[i]);
      assert table.functions[i].name == FunctionNames(table.functions)[i];
    } else if table.GetGlobalByName(word).Some? {
      var i :| LastNamed(GlobalNames(table.globals), word, i) && table.GetGlobalByName(word) == Some(table.globals[i]);
      assert table.globals[i].name == GlobalNames(table.globals)[i];
    } else if OwnerNames(word, owner) {
      var i :| R.FirstSpanning(table.functions, pos.line, i) && owner.value == table.functions[i];
      assert L.FunctionRanged(table.functions[i]);
    } else {
      SymbolDefinitionFoundIffDeclaredLater(word, table, pos);
    }
  }

  /** The tables, memories, types and tags part of `SymbolDefinitionFoundIffDeclared`. */
  lemma SymbolDefinitionFoundIffDeclaredLater(word: string, table: SymbolTable, pos: Position)
    requires table.Valid() && L.NamedHaveRanges(table)
    requires table.GetFunctionByName(word).None? && table.GetGlobalByName(word).None?
    requires !OwnerNames(word, FindContainingFunction(table.functions, pos))
    ensures FindSymbolDefinition(word, table, pos).Some? <==> DeclaredHere(word, table, pos)
  {
    if table.GetTableByName(word).Some? {
      var i :| LastNamed(TableNames(table.tables), word, i) && table.GetTableByName(word) == Some(table.tables[i]);
      assert table.tables[i].name == TableNames(table.tables)[i];
    } else if table.GetMemoryByName(word).Some? {
      var i :| LastNamed(MemoryNames(table.memories), word, i) && table.GetMemoryByName(word) == Some(table.memories[i]);
      assert table.memories[i].name == MemoryNames(table.memories)[i];
    } else if table.GetTypeByName(word).Some? {
      var i :| LastNamed(TypeNames(table.types), word, i) && table.GetTypeByName(word) == Some(table.types[i]);
      assert table.types[i].name == TypeNames(table.types)[i];
    } else if table.GetTagByName(word).Some? {
      var i :| LastNamed(TagNames(table.tags), word, i) && table.GetTagByName(word) == Some(table.tags[i]);
      assert table.tags[i].name == TagNames(table.tags)[i];
    }
  }

  // ---------------------------------------------------------------------
  // Definitions by index
  // ---------------------------------------------------------------------

  /** The range of an entry of a function's local index space. */
  function SlotRange(slot: Option<R.LocalSlot>): Option<Range>
  {
    match slot
    case None => None
    case Some(ParamSlot(p)) => p.range
    case Some(VarSlot(v)) => v.range
  }

  /**
   * `find_index_definition`: the keyword on the cursor's line decides what
   * the index counts. A line containing `call` indexes the functions, else
   * one containing `global` the globals, else one containing `local` the
   * parameters and then the locals of the function around the position.
   */
  function FindIndexDefinition(index: nat, table: SymbolTable, document: string, pos: Position): (r: Option<Range>)
    reads table
    ensures LineAt(document, pos.line).None? ==> r.None?
    ensures LineAt(document, pos.line).Some? ==>
      var line := LineAt(document, pos.line).value;
      (Contains(line, "call") ==>
        r == if index < |table.functions| then table.functions[index].range else None)
      && (!Contains(line, "call") && Contains(line, "global") ==>
        r == if index < |table.globals| then table.globals[index].range else None)
      && (!Contains(line, "call") && !Contains(line, "global") && Contains(line, "local") ==>
        r == match FindContainingFunction(table.functions, pos)
             case None => None
             case Some(f) => SlotRange(R.LocalSpaceAt(f, index)))
      && (!Contains(line, "call") && !Contains(line, "global") && !Contains(line, "local") ==> r.None?)
  {
    match LineAt(document, pos.line)
    case None => None
    case Some(line) =>
      if Contains(line, "call") then
        (match table.GetFunctionByIndex(index) case Some(f) => f.range case None => None)
      else if Contains(line, "global") then
        (match table.GetGlobalByIndex(index) case Some(g) => g.range case None => None)
      else if Contains(line, "local") then
        (match FindContainingFunction(table.functions, pos)
         case None => None
         case Some(f) =>
           if index < |f.parameters| then f.parameters[index].range
           else if index - |f.parameters| < |f.locals| then f.locals[index - |f.parameters|].range
           else None)
      else None
  }

  /**
   * The index the extractor gives a function leads a `call` line back to
   * that function; the index of a parameter, or of a local plus the
   * parameter count, leads a `local` line inside the function back to it.
   */
  lemma IndexDefinitionRoundTrip(table: SymbolTable, document: string, pos: Position, i: nat, k: nat)
    requires LineAt(document, pos.line).Some?
    ensures var line := LineAt(document, pos.line).value;
      Contains(line, "call") && i < |table.functions| && table.functions[i].index == i ==>
        FindIndexDefinition(table.functions[i].index, table, document, pos) == table.functions[i].range
    ensures var line := LineAt(document, pos.line).value;
      var owner := FindContainingFunction(table.functions, pos);
      !Contains(line, "call") && !Contains(line, "global") && Contains(line, "local")
      && owner.Some? && R.PositionallyIndexed(owner.value) ==>
        (k < |owner.value.parameters| ==>
          FindIndexDefinition(owner.value.parameters[k].index, table, document, pos) == owner.value.parameters[k].range)
        && (k < |owner.value.locals| ==>
          FindIndexDefinition(owner.value.locals[k].index + |owner.value.parameters|, table, document, pos) == owner.value.locals[k].range)
  {
    var owner := FindContainingFunction(table.functions, pos);
    if owner.Some? && R.PositionallyIndexed(owner.value) {
      R.LocalSpaceRoundTrip(owner.value, k);
    }
  }

  // ---------------------------------------------------------------------
  // References by text search
  // ---------------------------------------------------------------------

  /** `word` matches `line` at `p` from the character `k` of `word` on, compared one character at a time. */
  predicate MatchesFrom(line: string, word: string, p: nat, k: nat)
    decreases |word| - k
  {
    k >= |word| || (p + k < |line| && line[p + k] == word[k] && MatchesFrom(line, word, p, k + 1))
  }

  /** `word` occurs in `line` at `p`. */
  predicate Occurs(line: string, word: string, p: nat)
  {
    p + |word| <= |line| && MatchesFrom(line, word, p, 0)
  }

  lemma {:induction false} MatchesFromAll(line: string, word: string, p: nat, k: nat)
    requires p + |word| <= |line|
    ensures MatchesFrom(line, word, p, k) <==> forall j :: k <= j < |word| ==> line[p + j] == word[j]
    decreases |word| - k
  {
    if k < |word| {
      MatchesFromAll(line, word, p, k + 1);
    }
  }

  /** The character-wise test agrees with the slice comparison of `str::find`. */
  lemma OccursIsOccursAt(line: string, word: string, p: nat)
    ensures Occurs(line, word, p) <==> OccursAt(line, word, p)
  {
    if p + |word| <= |line| {
      MatchesFromAll(line, word, p, 0);
      if OccursAt(line, word, p) {
        forall j | 0 <= j < |word| ensures line[p + j] == word[j] {
          assert line[p..p + |word|][j] == line[p + j];
        }
      }
    }
  }

  /** Neither neighbour of `line[p..p + |word|]` is a word character. */
  predicate Delimited(line: string, word: string, p: nat)
    requires p + |word| <= |line|
  {
    (p == 0 || !IsWordChar(line[p - 1]))
    && (p + |word| >= |line| || !IsWordChar(line[p + |word|]))
  }

  /** An occurrence of `word` at `p` whose neighbours are not word characters. */
  predicate WholeWordAt(line: string, word: string, p: nat)
  {
    Occurs(line, word, p) && Delimited(line, word, p)
  }

  /** The range of an occurrence at `p` on line `n`. */
  function RefAt(n: nat, p: nat, word: string): Range
  {
    FromCoords(n, p, n, p + |word|)
  }

  /** The whole-word occurrences on line `n` at columns `from` and after, left to right. */
  function LineRefsFrom(line: string, n: nat, word: string, from: nat): seq<Range>
    decreases |line| - from
  {
    if from >= |line| then []
    else HitAt(line, n, word, from) + LineRefsFrom(line, n, word, from + 1)
  }

  /** The occurrences on every line, line by line. */
  function RefsInLines(lines: seq<string>, word: string): seq<Range>
  {
    if lines == [] then []
    else RefsInLines(lines[..|lines| - 1], word) + LineRefsFrom(lines[|lines| - 1], |lines| - 1, word, 0)
  }

  /** `a` comes strictly before `b` in the text. */
  predicate Before(a: Position, b: Position)
  {
    a.line < b.line || (a.line == b.line && a.character < b.character)
  }

  predicate Ascending(rs: seq<Range>)
  {
    forall i, j :: 0 <= i < j < |rs| ==> Before(rs[i].start, rs[j].start)
  }

  /** `Vec::retain`: the references that do not start at `at`, in their order. */
  function Without(refs: seq<Range>, at: Position): (r: seq<Range>)
    ensures forall x :: x in r <==> x in refs && x.start != at
    ensures |r| <= |refs|
    ensures Ascending(refs) ==> Ascending(r)
  {
    if refs == [] then []
    else
      var rest := Without(refs[1..], at);
      assert Ascending(refs) ==> forall x :: x in rest ==> Before(refs[0].start, x.start) by {
        if Ascending(refs) {
          forall x | x in rest ensures Before(refs[0].start, x.start) {
            var j :| 0 <= j < |refs[1..]| && refs[1..][j] == x;
            assert refs[j + 1] == x;
          }
        }
      }
      if refs[0].start == at then rest else [refs[0]] + rest
  }

  /**
   * `find_symbol_references`: every whole-word occurrence of `word` on every
   * line; without the declaration, those starting where the definition
   * found from position (0, 0) starts are removed.
   */
  function SymbolReferences(word: string, table: SymbolTable, document: string, includeDeclaration: bool): seq<Range>
    reads table
  {
    var refs := RefsInLines(Lines(document), word);
    if !includeDeclaration && |refs| > 0 then
      match FindSymbolDefinition(word, table, Position(0, 0))
      case Some(def) => Without(refs, def.start)
      case None => refs
    else refs
  }

  /** `line[col..].find(word)` finds what occurs in `line` from `col` on. */
  lemma OccursInSuffix(line: string, word: string, col: nat, j: nat)
    requires col <= |line|
    ensures OccursAt(line[col..], word, j) <==> OccursAt(line, word, col + j)
  {
    if col + j + |word| <= |line| {
      assert line[col..][j..j + |word|] == line[col + j..col + j + |word|];
    }
  }

  /** The first occurrence of `word` in `line` at `from` or after. */
  function NextOccurrence(line: string, word: string, from: nat): (r: Option<nat>)
    ensures r.Some? ==> from <= r.value && Occurs(line, word, r.value)
    decreases |line| - from
  {
    if from + |word| > |line| then None
    else if Occurs(line, word, from) then Some(from)
    else NextOccurrence(line, word, from + 1)
  }

  /** `NextOccurrence` finds the first occurrence from `from`, and finds none when there is none. */
  lemma {:induction false} NextOccurrenceIsFirst(line: string, word: string, from: nat)
    ensures NextOccurrence(line, word, from).Some? ==>
      forall j :: from <= j < NextOccurrence(line, word, from).value ==> !Occurs(line, word, j)
    ensures NextOccurrence(line, word, from).None? ==> forall j :: from <= j ==> !Occurs(line, word, j)
    decreases |line| - from
  {
    if from + |word| <= |line| && !Occurs(line, word, from) {
      NextOccurrenceIsFirst(line, word, from + 1);
    }
  }

  /** `line[col..].find(word)` is the next occurrence from `col`, counted from `col`. */
  lemma FindInSuffix(line: string, word: string, col: nat)
    requires col <= |line|
    ensures Find(line[col..], word).None? <==> NextOccurrence(line, word, col).None?
    ensures Find(line[col..], word).Some? ==> col + Find(line[col..], word).value == NextOccurrence(line, word, col).value
  {
    NextOccurrenceIsFirst(line, word, col);
    forall j: nat ensures OccursAt(line[col..], word, j) <==> Occurs(line, word, col + j) {
      OccursInSuffix(line, word, col, j);
      OccursIsOccursAt(line, word, col + j);
    }
    var g := NextOccurrence(line, word, col);
    if g.Some? {
      assert OccursAt(line[col..], word, g.value - col);
    }
  }

  /**
   * The references from `from` on: none without a further occurrence,
   * else the next occurrence if it is a whole word, then those after it.
   */
  lemma {:induction false} RefsFromNextOccurrence(line: string, n: nat, word: string, from: nat)
    requires |word| > 0
    ensures NextOccurrence(line, word, from).None? ==> LineRefsFrom(line, n, word, from) == []
    ensures NextOccurrence(line, word, from).Some? ==>
      var a := NextOccurrence(line, word, from).value;
      LineRefsFrom(line, n, word, from) == HitAt(line, n, word, a) + LineRefsFrom(line, n, word, a + 1)
    decreases |line| - from
  {
    if from + |word| > |line| {
      NoRefsNearEnd(line, n, word, from);
    } else if !Occurs(line, word, from) {
      RefsFromNextOccurrence(line, n, word, from + 1);
      assert NextOccurrence(line, word, from) == NextOccurrence(line, word, from + 1);
      assert HitAt(line, n, word, from) == [];
      assert LineRefsFrom(line, n, word, from) == LineRefsFrom(line, n, word, from + 1);
    } else {
      assert NextOccurrence(line, word, from) == Some(from);
      assert LineRefsFrom(line, n, word, from) == HitAt(line, n, word, from) + LineRefsFrom(line, n, word, from + 1);
    }
  }

  /** Too close to the end of the line for `word` to fit: no references. */
  lemma {:induction false} NoRefsNearEnd(line: string, n: nat, word: string, from: nat)
    requires from + |word| > |line|
    ensures LineRefsFrom(line, n, word, from) == []
    decreases |line| - from
  {
    if from < |line| {
      NoRefsNearEnd(line, n, word, from + 1);
      assert HitAt(line, n, word, from) == [];
    }
  }

  /** The reference an occurrence at `p` contributes: itself if it is a whole word. */
  function HitAt(line: string, n: nat, word: string, p: nat): seq<Range>
  {
    if WholeWordAt(line, word, p) then [RefAt(n, p, word)] else []
  }

  /**
   * One round of the inner loop: `find` from `col`, then the whole-word
   * test on the occurrence found, if any.
   */
  method NextReference(line: string, n: nat, word: string, col: nat) returns (found: bool, hit: seq<Range>, abs: nat)
    requires col <= |line|
    ensures found <==> NextOccurrence(line, word, col).Some?
    ensures found ==> abs == NextOccurrence(line, word, col).value && hit == HitAt(line, n, word, abs)
  {
    var pos := Find(line[col..], word);
    FindInSuffix(line, word, col);
    if pos.None? {
      return false, [], 0;
    }
    found := true;
    abs := col + pos.value;
    var end := abs + |word|;
    var beforeOk := abs == 0 || !IsWordChar(line[abs - 1]);
    var afterOk := end >= |line| || !IsWordChar(line[end]);
    hit := if beforeOk && afterOk then [FromCoords(n, abs, n, end)] else [];
  }

  /** The search of one line, as the inner `while let` loop runs it. */
  method ReferencesInLine(line: string, n: nat, word: string) returns (rs: seq<Range>)
    requires |word| > 0
    ensures rs == LineRefsFrom(line, n, word, 0)
  {
    rs := [];
    var col: nat := 0;
    while true
      invariant col <= |line|
      invariant rs + LineRefsFrom(line, n, word, col) == LineRefsFrom(line, n, word, 0)
      decreases |line| - col
    {
      var found, hit, abs := NextReference(line, n, word, col);
      RefsFromNextOccurrence(line, n, word, col);
      if !found {
        assert rs + [] == rs;
        return;
      }
      AppendAssoc(rs, hit, LineRefsFrom(line, n, word, abs + 1));
      rs := rs + hit;
      col := abs + 1;
    }
  }

  /** The search over all lines, as the enumerated `for` loop runs it. */
  method FindSymbolReferences(word: string, table: SymbolTable, document: string, includeDeclaration: bool)
    returns (refs: seq<Range>)
    requires |word| > 0
    ensures refs == SymbolReferences(word, table, document, includeDeclaration)
  {
    var lines := Lines(document);
    refs := [];
    for n := 0 to |lines|
      invariant refs == RefsInLines(lines[..n], word)
    {
      var found := ReferencesInLine(lines[n], n, word);
      assert lines[..n + 1][..n] == lines[..n];
      refs := refs + found;
    }
    assert lines[..|lines|] == lines;
    if !includeDeclaration && |refs| > 0 {
      match FindSymbolDefinition(word, table, Position(0, 0)) {
        case Some(def) => refs := Without(refs, def.start);
        case None =>
      }
    }
  }

  /** The references of one line are exactly its whole-word occurrences from `from`. */
  lemma {:induction false} LineRefsAreWholeWords(line: string, n: nat, word: string, from: nat)
    requires |word| > 0
    ensures forall r :: r in LineRefsFrom(line, n, word, from) <==>
      exists p :: from <= p && WholeWordAt(line, word, p) && r == RefAt(n, p, word)
    decreases |line| - from
  {
    if from < |line| {
      LineRefsAreWholeWords(line, n, word, from + 1);
      var hit: seq<Range>, rest: seq<Range> := HitAt(line, n, word, from), LineRefsFrom(line, n, word, from + 1);
      assert LineRefsFrom(line, n, word, from) == hit + rest;
      forall r ensures r in hit + rest <==> exists p :: from <= p && WholeWordAt(line, word, p) && r == RefAt(n, p, word)
      {
        if exists p :: from <= p && WholeWordAt(line, word, p) && r == RefAt(n, p, word) {
          var p :| from <= p && WholeWordAt(line, word, p) && r == RefAt(n, p, word);
          if p > from {
            assert r in rest;
          } else {
            assert r in hit;
          }
        }
      }
    }
  }

  /** The references of one line lie on it, from column `from` on, in column order. */
  lemma {:induction false} LineRefsAscending(line: string, n: nat, word: string, from: nat)
    ensures forall r :: r in LineRefsFrom(line, n, word, from) ==> r.start.line == n && from <= r.start.character
    ensures Ascending(LineRefsFrom(line, n, word, from))
    decreases |line| - from
  {
    if from < |line| {
      LineRefsAscending(line, n, word, from + 1);
      var hit: seq<Range>, rest: seq<Range> := HitAt(line, n, word, from), LineRefsFrom(line, n, word, from + 1);
      assert LineRefsFrom(line, n, word, from) == hit + rest;
      forall i, j | 0 <= i < j < |hit + rest| ensures Before((hit + rest)[i].start, (hit + rest)[j].start) {
        if i < |hit| {
          assert (hit + rest)[j] in rest;
        } else {
          assert (hit + rest)[i] == rest[i - |hit|] && (hit + rest)[j] == rest[j - |hit|];
        }
      }
    }
  }

  /**
   * `find_symbol_references` before the declaration is removed: a range
   * is reported exactly when it covers a whole-word occurrence of `word`
   * on some line, and the ranges come in text order.
   */
  lemma {:induction false} RefsAreWholeWords(lines: seq<string>, word: string)
    requires |word| > 0
    ensures forall r :: r in RefsInLines(lines, word) <==>
      exists n, p :: 0 <= n < |lines| && WholeWordAt(lines[n], word, p) && r == RefAt(n, p, word)
    ensures forall r :: r in RefsInLines(lines, word) ==> r.start.line < |lines|
    ensures Ascending(RefsInLines(lines, word))
  {
    if lines != [] {
      var front := lines[..|lines| - 1];
      var last := |lines| - 1;
      RefsAreWholeWords(front, word);
      LineRefsAreWholeWords(lines[last], last, word, 0);
      LineRefsAscending(lines[last], last, word, 0);
      var a, b := RefsInLines(front, word), LineRefsFrom(lines[last], last, word, 0);
      assert RefsInLines(lines, word) == a + b;
      forall r ensures r in a + b <==>
        exists n, p :: 0 <= n < |lines| && WholeWordAt(lines[n], word, p) && r == RefAt(n, p, word)
      {
        if exists n, p :: 0 <= n < |lines| && WholeWordAt(lines[n], word, p) && r == RefAt(n, p, word) {
          var n, p :| 0 <= n < |lines| && WholeWordAt(lines[n], word, p) && r == RefAt(n, p, word);
          if n < last {
            assert lines[n] == front[n];
            assert r in a;
          } else {
            assert r in b;
          }
        }
        if r in a {
          var n, p :| 0 <= n < |front| && WholeWordAt(front[n], word, p) && r == RefAt(n, p, word);
          assert front[n] == lines[n];
        }
      }
      forall i, j | 0 <= i < j < |a + b| ensures Before((a + b)[i].start, (a + b)[j].start) {
        if i < |a| && j >= |a| {
          assert (a + b)[i] in a && (a + b)[j] in b;
        }
      }
    }
  }

  /**
   * What `find_symbol_references` reports: the whole-word occurrences of
   * `word`, in text order, minus, when the declaration is not wanted, every
   * one starting where the definition found from (0, 0) starts.
   */
  lemma SymbolReferencesReport(word: string, table: SymbolTable, document: string, includeDeclaration: bool)
    requires |word| > 0
    ensures var lines := Lines(document);
      var def := FindSymbolDefinition(word, table, Position(0, 0));
      forall r :: r in SymbolReferences(word, table, document, includeDeclaration) <==>
        (exists n, p :: 0 <= n < |lines| && WholeWordAt(lines[n], word, p) && r == RefAt(n, p, word))
        && (includeDeclaration || def.None? || r.start != def.value.start)
    ensures Ascending(SymbolReferences(word, table, document, includeDeclaration))
  {
    RefsAreWholeWords(Lines(document), word);
  }

  // ---------------------------------------------------------------------
  // The language server object
  // ---------------------------------------------------------------------

  /**
   * The `$name` branch of `provide_definition`: the definition found by
   * name, or else an empty range at the start of the line of the function,
   * or failing that the global, called `word`.
   */
  function DefinitionByName(word: string, table: SymbolTable, pos: Position): (r: Option<Range>)
    reads table
    ensures FindSymbolDefinition(word, table, pos).Some? ==> r == FindSymbolDefinition(word, table, pos)
    ensures r.Some? && FindSymbolDefinition(word, table, pos).None? ==>
      r.value.start == r.value.end && r.value.start.character == 0
    ensures table.Valid() ==>
      (r.Some? <==> FindSymbolDefinition(word, table, pos).Some?
                    || Some(word) in FunctionNames(table.functions) || Some(word) in GlobalNames(table.globals))
  {
    if FindSymbolDefinition(word, table, pos).Some? then FindSymbolDefinition(word, table, pos)
    else
      match table.GetFunctionByName(word)
      case Some(f) => Some(FromCoords(f.line, 0, f.line, 0))
      case None =>
        match table.GetGlobalByName(word)
        case Some(g) => Some(FromCoords(g.line, 0, g.line, 0))
        case None => None
  }

  /**
   * The numeric branch of `provide_definition`: a word that `parse::<usize>`
   * accepts is looked up as an index. A `$name` never reads as a number.
   */
  function IndexDefinitionOf(word: string, table: SymbolTable, document: string, pos: Position): (r: Option<Range>)
    reads table
    ensures StartsWith(word, "$") ==> r.None?
    ensures ParseUnsigned(word, 10, USIZE_BOUND).None? ==> r.None?
  {
    match ParseUnsigned(word, 10, USIZE_BOUND)
    case Some(index) =>
      assert word[0] != '$';
      FindIndexDefinition(index, table, document, pos)
    case None => None
  }

  /** The table holds exactly what a table built from nothing holds. */
  predicate EmptyTable(t: SymbolTable)
    reads t
  {
    W.Items(t) == W.NOTHING && t.dataSegments == [] && t.elemSegments == []
  }

  /** `WatLSP`: the document text, the symbol table once a parse has run, and the ready flag. */
  class WatLSP {
    var document: string
    var symbols: Option<SymbolTable>
    var ready: bool

    /** The objects the table state lives in. */
    function TableFrame(): set<object>
      reads this
    {
      if symbols.Some? then {symbols.value} else {}
    }

    ghost predicate Valid()
      reads this, TableFrame()
    {
      symbols.Some? ==> symbols.value.Valid()
    }

    /** `WatLSP::new`: no document, no table, not ready. */
    constructor ()
      ensures Valid()
      ensures document == "" && symbols == None && !ready
    {
      document := "";
      symbols := None;
      ready := false;
    }

    /** `initialize`: marks the server ready and reports success. */
    method Initialize() returns (ok: bool)
      modifies this`ready
      ensures ready && ok
    {
      ready := true;
      ok := true;
    }

    /**
     * `parse`: stores the document and, when the `wast` parse succeeds,
     * the table extracted from it. After a failure the previous table is
     * kept, or an empty one is installed when there was none.
     */
    method Parse(text: string, outcome: W.WastOutcome)
      requires Valid()
      modifies this`document, this`symbols
      ensures Valid() && document == text && symbols.Some?
      ensures outcome.Parsed? ==>
        fresh(symbols.value) && W.Items(symbols.value) == W.Contents(outcome.wat, text)
        && symbols.value.dataSegments == [] && symbols.value.elemSegments == []
      ensures !outcome.Parsed? && old(symbols).Some? ==> symbols == old(symbols)
      ensures !outcome.Parsed? && old(symbols).None? ==> fresh(symbols.value) && EmptyTable(symbols.value)
    {
      document := text;
      var result := W.ParseDocument(text, outcome);
      match result {
        case Ok(table) =>
          symbols := Some(table);
        case Err(_) =>
          if symbols.None? {
            var empty := new SymbolTable();
            symbols := Some(empty);
          }
      }
    }

    /**
     * `provide_definition`: a `$name` under the cursor gets its definition
     * by name; any other word that reads as a `usize` gets the definition
     * of that index.
     */
    function ProvideDefinition(pos: Position): (r: Option<Range>)
      reads this, TableFrame()
      ensures symbols.None? || WordAt(document, pos).None? ==> r.None?
      ensures symbols.Some? && WordAt(document, pos).Some? && StartsWith(WordAt(document, pos).value, "$") ==>
        r == DefinitionByName(WordAt(document, pos).value, symbols.value, pos)
    {
      match symbols
      case None => None
      case Some(t) =>
        match WordAt(document, pos)
        case None => None
        case Some(word) =>
          var byName := if StartsWith(word, "$") then DefinitionByName(word, t, pos) else None;
          if byName.Some? then byName else IndexDefinitionOf(word, t, document, pos)
    }

    /**
     * `provide_references`: only a `$name` under the cursor is searched
     * for; anything else, or no table yet, gives no references.
     */
    function ProvideReferences(pos: Position, includeDeclaration: bool): (r: seq<Range>)
      reads this, TableFrame()
      ensures symbols.None? || WordAt(document, pos).None? || !StartsWith(WordAt(document, pos).value, "$") ==> r == []
      ensures symbols.Some? && WordAt(document, pos).Some? && StartsWith(WordAt(document, pos).value, "$") ==>
        r == SymbolReferences(WordAt(document, pos).value, symbols.value, document, includeDeclaration)
    {
      match symbols
      case None => []
      case Some(t) =>
        match WordAt(document, pos)
        case None => []
        case Some(word) =>
          if StartsWith(word, "$") then SymbolReferences(word, t, document, includeDeclaration) else []
    }
  }
}
