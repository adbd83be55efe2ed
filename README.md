# wat-lsp in Dafny

A model of the symbol and scope engine of wat-lsp, a language server for the WebAssembly text format, with proofs about it.

Given a document, the server extracts a symbol table from its syntax tree. The table holds functions, globals, tables, memories, types, tags, data and element segments. Each function also carries its parameters, locals and labelled blocks.

Every kind of item is numbered in its own index space. Imports come first, and definitions continue from the import count. Parameters and locals share one space per function, parameters first. Block labels are addressed by relative depth, 0 being the innermost enclosing block.

On top of the table the model covers these queries:
- hover;
- go-to-definition, by `$name` or by numeric index;
- find-references, including the tree walk that keeps a stack of enclosing blocks;
- signature help, for direct calls and for `call_ref`;
- completion, including the `5i32`, `l$` and `g=$` shorthands;
- syntax and semantic diagnostics, and their merge.

It also covers two smaller parts:
- the browser build, which uses the `wast` crate's parser and its own small helpers;
- the build step that compiles the instruction documentation into a Rust table.

One Dafny module models one source file:

| module | source |
|---|---|
| CoreTypes | src/core/types.rs |
| Symbols | src/symbols.rs |
| Tree | the syntax tree the parser hands over |
| Parser, ParserRecords, ParserValues | src/parser.rs |
| Utils | src/utils.rs |
| References | src/references.rs |
| SymbolLookup | src/symbol_lookup.rs |
| Definition, FeaturesDefinition | src/definition.rs, src/features/definition/mod.rs |
| Hover | src/hover.rs |
| Signature, FeaturesSignature | src/signature.rs, src/features/signature/mod.rs |
| Completion | src/completion.rs |
| Diagnostics, SemanticDiagnostics, DiagnosticsMerge | src/diagnostics.rs, src/diagnostics/semantic_diagnostics.rs, src/diagnostics/mod.rs |
| WastParser, WasmApi | src/wast_parser.rs, src/wasm/api.rs |
| BuildDocs | build.rs |
| Sorting, Text, Wrappers | the Rust standard library calls these files make |

How each part is modelled:
- Code that fills or updates state is imperative Dafny. This covers the symbol table (a class), the extractors' loops, the reference walk, the diagnostics walks, the browser server object and the documentation compiler.
- Each such method is proved against a specification function. The properties the source promises are proved as lemmas about that function.
- Pure lookups and formatting are functions, each with its contract.

Three assumptions run through the model:
- Text is ASCII: a character is a byte.
- Positions are unbounded naturals rather than `u32`.
- The tree has no parent links. Code that walks up from a node receives the chain of its ancestors.

## Model

| member | source | states |
|---|---|---|
| CoreTypes.NewPosition | src/core/types.rs:18-23 | a position holds exactly the given line and character |
| CoreTypes.FromCoords | src/core/types.rs:37-42 | the range starts at (start line, start character) and ends at (end line, end character) |
| CoreTypes.NewHover | src/core/types.rs:55-60 | a hover with the given text and no range |
| CoreTypes.HoverWithRange | src/core/types.rs:62-67 | a hover with the given text and exactly the given range |
| CoreTypes.PositionFromLsp | src/core/types.rs:78-86 | conversion from the protocol position keeps line and character |
| CoreTypes.PositionToLsp | src/core/types.rs:88-96 | conversion to the protocol position keeps line and character |
| CoreTypes.RangeFromLsp | src/core/types.rs:98-106 | conversion from the protocol range converts both ends |
| CoreTypes.RangeToLsp | src/core/types.rs:108-116 | conversion to the protocol range converts both ends |
| CoreTypes.ConversionsRoundTrip | src/core/types.rs:78-116 | the four conversions are mutually inverse on positions and on ranges |
| Symbols.Parse | src/symbols.rs:19-29 | a string parses to a non-`Unknown` type exactly when it is one of the type keywords, and then it is that type's text |
| Symbols.ParseToStr | src/symbols.rs:19-41 | parsing the printed form of a type gives the type back for every type the enum declares, `Unknown` for the wider set |
| Symbols.ByIndex | src/symbols.rs:180-182 | a vector lookup is present exactly below the length and then returns the element at that position |
| Symbols.Record | src/symbols.rs:143-146 | recording an unnamed item leaves the map alone; a named one adds or overwrites only that name's entry with the position |
| Symbols.TracksLastAppend | src/symbols.rs:142-148 | appending and recording keeps the invariant that the map sends each name to the position of its last item |
| Symbols.ByNameFindsLast | src/symbols.rs:174-178 | with that invariant, by-name lookup succeeds exactly when some item has the name, and returns the last such item |
| Symbols.ByNameLookup | src/symbols.rs:174-178 | the same statement, conditional on the invariant |
| Symbols.ByNameAfterAdd | src/symbols.rs:142-148 | after an add, the added item's name finds the added item (a later duplicate wins) and every other name finds what it found before |
| Symbols.FunctionNames | src/symbols.rs:72-88 | the names of the functions, position by position |
| Symbols.GlobalNames | src/symbols.rs:90-100 | the names of the globals, position by position |
| Symbols.TableNames | src/symbols.rs:102-111 | the names of the tables, position by position |
| Symbols.MemoryNames | src/parser.rs:164 | the names of the memories, position by position |
| Symbols.TypeNames | src/symbols.rs:113-122 | the names of the types, position by position |
| Symbols.TagNames | src/parser.rs:164 | the names of the tags, position by position |
| Symbols.DataNames | src/parser.rs:1798 | the names of the data segments, position by position |
| Symbols.ElemNames | src/parser.rs:1798 | the names of the element segments, position by position |
| Symbols.SymbolTable.constructor | src/symbols.rs:138-140 | every vector and every name map of a new table is empty |
| Symbols.SymbolTable.AddFunction | src/symbols.rs:142-148 | the function is appended at the end, earlier ones unchanged; a named one is recorded at the old length, overwriting an earlier entry; the last-position invariant is kept |
| Symbols.SymbolTable.GetFunctionByIndex | src/symbols.rs:180-182 | present exactly when the index is below the length, and then the function at that index |
| Symbols.SymbolTable.GetFunctionByName | src/symbols.rs:174-178 | in a valid table, present exactly when some function has the name, and then the last function with that name |
| Symbols.SymbolTable.AddGlobal | src/symbols.rs:150-156 | as `AddFunction`, for globals |
| Symbols.SymbolTable.GetGlobalByIndex | src/symbols.rs:190-192 | as `GetFunctionByIndex`, for globals |
| Symbols.SymbolTable.GetGlobalByName | src/symbols.rs:184-188 | as `GetFunctionByName`, for globals |
| Symbols.SymbolTable.AddTable | src/symbols.rs:158-164 | as `AddFunction`, for tables |
| Symbols.SymbolTable.GetTableByIndex | src/symbols.rs:180-182 | as `GetFunctionByIndex`, for tables |
| Symbols.SymbolTable.GetTableByName | src/symbols.rs:194-198 | as `GetFunctionByName`, for tables |
| Symbols.SymbolTable.AddMemory | src/symbols.rs:142-148 | as `AddFunction`, for memories (the same pattern, as the parser's calls require) |
| Symbols.SymbolTable.GetMemoryByIndex | src/symbols.rs:180-182 | as `GetFunctionByIndex`, for memories |
| Symbols.SymbolTable.GetMemoryByName | src/symbols.rs:174-178 | as `GetFunctionByName`, for memories |
| Symbols.SymbolTable.AddType | src/symbols.rs:166-172 | as `AddFunction`, for types |
| Symbols.SymbolTable.GetTypeByIndex | src/symbols.rs:180-182 | as `GetFunctionByIndex`, for types |
| Symbols.SymbolTable.GetTypeByName | src/symbols.rs:200-202 | as `GetFunctionByName`, for types |
| Symbols.SymbolTable.AddTag | src/symbols.rs:142-148 | as `AddFunction`, for tags |
| Symbols.SymbolTable.GetTagByIndex | src/symbols.rs:180-182 | as `GetFunctionByIndex`, for tags |
| Symbols.SymbolTable.GetTagByName | src/symbols.rs:174-178 | as `GetFunctionByName`, for tags |
| Symbols.SymbolTable.AddData | src/symbols.rs:142-148 | as `AddFunction`, for data segments |
| Symbols.SymbolTable.GetDataByIndex | src/symbols.rs:180-182 | as `GetFunctionByIndex`, for data segments |
| Symbols.SymbolTable.GetDataByName | src/symbols.rs:174-178 | as `GetFunctionByName`, for data segments |
| Symbols.SymbolTable.AddElem | src/symbols.rs:142-148 | as `AddFunction`, for element segments |
| Symbols.SymbolTable.GetElemByIndex | src/symbols.rs:180-182 | as `GetFunctionByIndex`, for element segments |
| Symbols.SymbolTable.GetElemByName | src/symbols.rs:174-178 | as `GetFunctionByName`, for element segments |
| Parser.Collect | src/parser.rs:793-831 | a collection pass makes at most one record per child node |
| Parser.CollectBuilds | src/parser.rs:793-831 | every collected record is built by the kind's extractor from a node of one of the listed kinds, with the next index in line |
| Parser.CollectNumbered | src/parser.rs:793-831 | when the extractor stores the index it is given, the records carry `start`, `start + 1`, … in order |
| Parser.CollectCount | src/parser.rs:793-831 | one record per node of a listed kind: none lost, none added |
| Parser.AddImportedFunction | src/parser.rs:125-133 | an imported function descriptor appends one function numbered by the function counter and bumps only that counter |
| Parser.AddImportedGlobal | src/parser.rs:134-142 | an imported global descriptor appends one global numbered by the global counter and bumps only that counter |
| Parser.AddImportedTable | src/parser.rs:143-151 | an imported table descriptor appends one table numbered by the table counter and bumps only that counter |
| Parser.AddImportedMemory | src/parser.rs:152-160 | an imported memory descriptor appends one memory numbered by the memory counter and bumps only that counter |
| Parser.AddImportedTag | src/parser.rs:161-167 | an imported tag descriptor appends one tag numbered by the tag counter and bumps only that counter |
| Parser.AddImport | src/parser.rs:107-173 | one descriptor goes through the match: each list and counter advances exactly as the collection of its kind over one more descriptor |
| Parser.AddImportOfFunctionKind | src/parser.rs:125-151 | the function, global and table arms advance their lists and counters and leave the memory and tag counters alone |
| Parser.AddImportOfOtherKind | src/parser.rs:152-168 | the memory and tag arms advance their lists and counters and leave the other counters alone |
| Parser.ExtractImports | src/parser.rs:70-104 | every list gains exactly the imports of its kind in order, numbered from 0 by its own counter; types and segments are untouched; the counters returned are the import counts |
| Parser.GlobalsWithOffset | src/parser.rs:793-831 | the globals gain the defined globals in order, numbered on from the import count |
| Parser.TablesWithOffset | src/parser.rs:1264-1301 | the tables gain the defined tables in order, numbered on from the import count |
| Parser.MemoriesWithOffset | src/parser.rs:1388-1426 | the memories gain the defined memories in order, numbered on from the import count |
| Parser.TagsWithOffset | src/parser.rs:1505-1542 | the tags gain the defined tags in order, numbered on from the import count |
| Parser.DataSegments | src/parser.rs:1783-1817 | the data segments gain one segment per data field, numbered from 0 |
| Parser.ElemSegments | src/parser.rs:1863-1897 | the elem segments gain one segment per elem field, numbered from 0 |
| Parser.FuncStepNumbered | src/parser.rs:506-526 | keeping a function gives it the next index in line, so a skipped duplicate uses no index |
| Parser.DefinedFunctionsNumbered | src/parser.rs:483-558 | the kept functions are numbered `start`, `start + 1`, … without gaps |
| Parser.FuncStepSeen | src/parser.rs:514-524 | after one field the seen names and ranges are still exactly those of the kept functions |
| Parser.DefinedFunctionsSeen | src/parser.rs:483-558 | the seen names are exactly the kept functions' names, the seen ranges exactly the kept unnamed functions' byte ranges |
| Parser.DefinedFunctionsDistinct | src/parser.rs:483-558 | no two kept functions share a name, and no two kept unnamed functions share a byte range |
| Parser.DefinedFunctionsComplete | src/parser.rs:483-558 | only duplicates are dropped: every named function field's name is among the kept names |
| Parser.AddFunctionField | src/parser.rs:506-526 | one field of the loop advances the table, the seen sets and the index exactly as the specification over one more field |
| Parser.FunctionsWithOffset | src/parser.rs:483-558 | the functions gain exactly the kept defined functions, numbered on from the import count |
| Parser.SkipToClose | src/parser.rs:976-982 | the position returned is the first `)` at or after the start, or the end when there is none |
| Parser.RecEntryAt | src/parser.rs:940-982 | an entry of a rec group is read past its `type` keyword, its definition (if any) gets the given index, and the scan moves forward |
| Parser.RecScanNumbered | src/parser.rs:923-989 | the types of a rec group are numbered on from the given index in order |
| Parser.SkipToCloseLoop | src/parser.rs:976-979 | the inner skipping loop stops at the position the specification names |
| Parser.ReadRecDefinition | src/parser.rs:958-974 | a struct, array or field definition after the identifier becomes one type numbered by the counter; anything else adds nothing |
| Parser.ReadRecEntry | src/parser.rs:940-982 | one entry adds the type of its definition and resumes after the closing `)` |
| Parser.RecStep | src/parser.rs:936-986 | one turn of the loop moves forward and keeps table plus remaining scan equal to the scan from the start |
| Parser.ExtractRecTypes | src/parser.rs:923-989 | the types gain exactly the rec group's types, and the counter returned is one past the last index used |
| Parser.ConcatNumbered | src/parser.rs:35-58 | a run numbered from 0 followed by a run numbered on from its length is numbered from 0 throughout |
| Parser.TypesNumbered | src/parser.rs:881-920 | every type's index is its position, rec group members included |
| Parser.AddTypeField | src/parser.rs:890-917 | a type field or a rec group advances the types and the counter as the specification over one more field |
| Parser.ExtractTypes | src/parser.rs:881-920 | the types gain exactly the module's types, numbered from 0 |
| Parser.ImportsThenDefinitionsNumbered | src/parser.rs:35-58 | imports numbered from 0 followed by definitions numbered on from the import count are numbered by position |
| Parser.FunctionsNumbered | src/parser.rs:41-51 | imported then defined functions carry their position as index |
| Parser.GlobalsNumbered | src/parser.rs:41-46 | imported then defined globals carry their position as index |
| Parser.TablesNumbered | src/parser.rs:41-48 | imported then defined tables carry their position as index |
| Parser.MemoriesNumbered | src/parser.rs:41-49 | imported then defined memories carry their position as index |
| Parser.TagsNumbered | src/parser.rs:41-50 | imported then defined tags carry their position as index |
| Parser.DataNumbered | src/parser.rs:1783-1817 | data segments carry their position as index |
| Parser.ElemsNumbered | src/parser.rs:1863-1897 | elem segments carry their position as index |
| Parser.ExtractionNumbered | src/parser.rs:35-58 | in every list of the symbol table, imports first, each record's index is its position (the index spaces of section 2.5.1 of the WebAssembly Core Specification) |
| Parser.ExtractDefinitionsA | src/parser.rs:46-49 | the global, type, table and memory passes add exactly their definitions, numbered on from the import counts |
| Parser.ExtractDefinitionsB | src/parser.rs:50-55 | the tag, function, data and elem passes add exactly their definitions |
| Parser.Fill | src/parser.rs:35-58 | imports first, then every definition pass, each list gaining exactly its extraction |
| Parser.ExtractSymbols | src/parser.rs:35-58 | a fresh table holding exactly the extraction of the module |
| ParserRecords.NameOf | src/parser.rs:458-480 | a node declares a name exactly when it has an `identifier` child, and the name is that child's text; no name means no name range |
| ParserRecords.Rebase | src/parser.rs:199-205 | re-based parameters keep their count and each one's shifted index |
| ParserRecords.RebaseContiguous | src/parser.rs:198-218 | parameters appended after re-basing keep the whole list numbered 0, 1, 2, … |
| ParserRecords.ImportSignature | src/parser.rs:192-231 | reading the descriptor's children keeps the parameters numbered contiguously and never drops a parameter or result |
| ParserRecords.ImportedFunction | src/parser.rs:176-246 | an imported function has its index and declared name, contiguous parameters, no locals or blocks, and the descriptor's rows |
| ParserRecords.DefinedFunction | src/parser.rs:561-593 | a defined function has its index and declared name, contiguous parameters, locals numbered from 0, the labels of its block nodes in pre-order, and its row and byte span |
| ParserRecords.GlobalTypeFoldMut | src/parser.rs:849-865 | a global type is mutable exactly when it was already or one of its children is `global_type_mut` |
| ParserRecords.GlobalFoldMut | src/parser.rs:848-867 | the global's fold finds mutability exactly when some `global_type` child holds a `global_type_mut` |
| ParserRecords.GlobalOf | src/parser.rs:834-878 | a global has its index and declared name, is mutable exactly when a `global_type` child holds `global_type_mut`, has no initial value, and the node's row |
| ParserRecords.LimitsTypeFold | src/parser.rs:312-332 | only `limits` and `ref_type` children change the state; the reference type changes only where reference types are read |
| ParserRecords.TypeChildrenFold | src/parser.rs:309-334 | only children of the type kind change the state |
| ParserRecords.WrappedTypeFold | src/parser.rs:1304-1385 | only the wrapper or the type kind change the state of a defined table or memory |
| ParserRecords.UnwrappedReadsAsImported | src/parser.rs:1304-1385 | a defined table or memory without the wrapper reads like an imported one |
| ParserRecords.WrapperReadsAsImported | src/parser.rs:1304-1385 | a wrapper reads like an imported descriptor holding the wrapper's children |
| ParserRecords.ImportedTable | src/parser.rs:294-344 | an imported table has its index and name, and `funcref` with limits `(0, None)` when no `table_type` child says otherwise |
| ParserRecords.DefinedTable | src/parser.rs:1304-1385 | a defined table has its index and name, and the defaults when neither a table type nor its wrapper is present |
| ParserRecords.ImportedMemory | src/parser.rs:347-393 | an imported memory has its index and name, and limits `(0, None)` without a `memory_type` child |
| ParserRecords.DefinedMemory | src/parser.rs:1429-1502 | a defined memory has its index and name, and limits `(0, None)` without a memory type or its wrapper |
| ParserRecords.TagMemberTypesAgree | src/parser.rs:396-438 | without direct value-type children the imported and defined readings of a tag's parameters coincide |
| ParserRecords.TagParamsAgree | src/parser.rs:1545-1584 | imported and defined tags read the same parameters unless a parameter node holds a value type directly |
| ParserRecords.ImportedTag | src/parser.rs:396-438 | an imported tag has its index, name and the parameter types read from its descriptor |
| ParserRecords.DefinedTag | src/parser.rs:1545-1584 | a defined tag has its index, name and the parameter types read from its node |
| ParserRecords.FieldOf | src/parser.rs:1071-1091 | a field is mutable exactly when its text or a `mut` child marks it so, and is named exactly when it has an identifier child |
| ParserRecords.StructFields | src/parser.rs:1008-1019 | a struct has exactly one field per `field_type` child |
| ParserRecords.ArrayAccum | src/parser.rs:1094-1261 | an array read by `extract_type` is mutable exactly when it already was or some field's text marks it mutable |
| ParserRecords.ArrayLastField | src/parser.rs:1020-1036 | an array read inside a rec group is unchanged when there is no field |
| ParserRecords.TypeFieldFold | src/parser.rs:1094-1261 | reading a `type_field` never drops a parameter or result |
| ParserRecords.TypeFold | src/parser.rs:1094-1261 | reading a `module_field_type` never drops a parameter or result |
| ParserRecords.TypeFieldFoldKeepsFunc | src/parser.rs:1094-1261 | without a struct or array part a `type_field` stays a function type |
| ParserRecords.TypeFoldKeepsFunc | src/parser.rs:1094-1261 | without a struct or array part a type definition stays a function type |
| ParserRecords.TypeOf | src/parser.rs:1094-1261 | a type definition has its index and name; parameters or results make it a function type; otherwise the last struct or array part decides |
| ParserRecords.TypeFromSingleNode | src/parser.rs:992-1068 | a rec-group member gives a type exactly when its node is a struct, array or type field |
| ParserRecords.IdentifierInDataOrElem | src/parser.rs:1953-1974 | a name comes with its range and without one neither is set; with no identifier or index child there is no name |
| ParserRecords.ScanDataString | src/parser.rs:1825-1846 | the loop over the segment's characters computes the content and count the specification names |
| ParserRecords.ScanCountsEveryCharWithoutEscapes | src/parser.rs:1832-1846 | without a backslash every kept character is counted and no escape is pending |
| ParserRecords.ScanCountBounded | src/parser.rs:1832-1846 | the byte count never exceeds the content, because a backslash is kept but not counted |
| ParserRecords.ScanUnquoted | src/parser.rs:1832-1846 | text outside any quote contributes nothing |
| ParserRecords.DataSegmentOf | src/parser.rs:1820-1860 | a data segment has its index and name, is passive exactly when named, and counts at most its content |
| ParserRecords.ExtractDataSegment | src/parser.rs:1820-1860 | the loop version builds the segment the specification names |
| ParserRecords.NameEnd | src/parser.rs:1916-1919 | a `$` name ends at the first later character that is not alphanumeric, `_` or `-`, or at the end |
| ParserRecords.DollarNames | src/parser.rs:1925-1939 | every name read is a `$` name, and a text without `$` gives none |
| ParserRecords.ScanFuncNames | src/parser.rs:1928-1938 | the `while let` loop collects exactly the names the specification names |
| ParserRecords.ElemTableName | src/parser.rs:1912-1922 | a table name read is a `$` name, and none is read without `(table ` |
| ParserRecords.ElemSegmentOf | src/parser.rs:1900-1949 | an elem segment has its index, name and table name; without ` func ` it has no function names; every function name is a `$` name |
| ParserRecords.ExtractElemSegment | src/parser.rs:1900-1949 | the loop version builds the segment the specification names |
| ParserValues.SimpleTypeFromStr | src/parser.rs:1672-1693 | a keyword never reads as `Unknown` |
| ParserValues.SimpleTypeFromStrKeywords | src/parser.rs:1672-1693 | the lookup is defined exactly on the seventeen keywords, and the type found prints back as the keyword |
| ParserValues.SimpleTypeFromToStr | src/parser.rs:1672-1693 | every keyword type is found again from its printed text |
| ParserValues.LastParsedIndex | src/parser.rs:1716-1740 | the index used is the text of an `index` child that parses as a u32; none exactly when no `index` child parses |
| ParserValues.ConcreteRefType | src/parser.rs:1711-1756 | a numeric index gives `Ref`, or `RefNull` exactly when a `null` marker is present; a symbolic index gives `Structref`; nothing else comes out |
| ParserValues.RefTypeFromChildren | src/parser.rs:1704-1770 | a child that decides never decides `Unknown` |
| ParserValues.KeywordChildAfterFirstScan | src/parser.rs:1772-1777 | when the first loop finds nothing the second loop finds nothing either |
| ParserValues.RefTypeOf | src/parser.rs:1696-1780 | a reference type is never `Unknown`: a keyword text decides first, then the children, else `Funcref` |
| ParserValues.NumTypeFromChildren | src/parser.rs:1633-1651 | a numeric child that decides never decides `Unknown` |
| ParserValues.ValueTypeFromChildren | src/parser.rs:1617-1668 | a child that decides never decides `Unknown` |
| ParserValues.ValueTypeOfDecides | src/parser.rs:1592-1670 | a keyword text reads as the type printing as it; `Unknown` exactly when the text is no keyword and no child decides |
| ParserValues.ValueTypesOf | src/parser.rs:663-667 | one type per `value_type` child |
| ParserValues.ResultsOf | src/parser.rs:655-672 | without a `func_type_results` child there are no results |
| ParserValues.LastIdentifier | src/parser.rs:614-617 | a name is found exactly when there is an `identifier` child |
| ParserValues.LastValueType | src/parser.rs:618-621 | a type is found exactly when there is a `value_type` child |
| ParserValues.OneDecl | src/parser.rs:607-631 | a named declaration is dropped exactly when it has no value type, and otherwise has the last one |
| ParserValues.ManyDecls | src/parser.rs:632-646 | unnamed declarations carry neither a name nor a range |
| ParserValues.Number | src/parser.rs:596-652 | numbering keeps one record per declaration |
| ParserValues.NumberAt | src/parser.rs:596-652 | the record at a position is made from the declaration there with that position as index |
| ParserValues.ParamsOf | src/parser.rs:596-652 | the parameters are numbered 0, 1, 2, … in source order |
| ParserValues.LocalsOf | src/parser.rs:675-734 | the locals are numbered from 0 independently of the parameters, mutable, without initial value |
| ParserValues.ExtractParameters | src/parser.rs:596-652 | the nested loops compute the parameters the specification names, numbered by position |
| ParserValues.ExtractLocals | src/parser.rs:675-734 | the nested loops compute the locals the specification names, numbered by position |
| ParserValues.CollectDecls | src/parser.rs:602-650 | the walk over groups and members numbers every declaration by the running counter |
| ParserValues.CollectGroup | src/parser.rs:606-649 | one group adds its members' declarations and advances the counter by their number |
| ParserValues.CollectMember | src/parser.rs:607-648 | one member adds its declarations and advances the counter by their number |
| ParserValues.CollectMany | src/parser.rs:632-646 | an unnamed member adds one declaration per value type |
| ParserValues.ApplyLimits | src/parser.rs:316-328 | the first number read sets the minimum, every later one the maximum; no number leaves the limits alone |
| ParserValues.ApplyLimitsSnoc | src/parser.rs:316-328 | one more number sets the minimum when it is the first and the maximum otherwise |
| ParserValues.ReadLimits | src/parser.rs:313-328 | the loop with its `nat_index` counter computes the limits the specification names |
| ParserValues.BlockTypeName | src/parser.rs:766-773 | every labelled block kind names one of block, loop, if, try or try_table |
| ParserValues.LabelsOfNodesAppend | src/parser.rs:747-790 | labels distribute over concatenated node lists |
| ParserValues.BlocksArePreOrderLabels | src/parser.rs:737-790 | the labels are exactly those of the labelled block nodes of the subtree, in pre-order |
| ParserValues.BlocksAllArePreOrderLabels | src/parser.rs:787-789 | the same for a list of subtrees |
| ParserValues.VisitNodeForBlocks | src/parser.rs:747-790 | the recursive walk appends exactly the subtree's labels |
| Tree.NodeText | src/parser.rs:1587-1589 | a node's text is the slice of the source between its start and end byte, of exactly that length |
| Tree.NodeToRange | src/parser.rs:441-454 | a node's range runs from its start point to its end point |
| Tree.FindIdentifierNode | src/parser.rs:458-480 | the identifier found is a child of kind `identifier`; none exactly when no child has that kind |
| Utils.InstrTextContext | src/utils.rs:45-81 | a plain instruction's text never decides `General`, and any text containing `call` decides `Call` |
| Utils.NodeContext | src/utils.rs:45-122 | one node on the way up never decides `General` |
| Utils.WalkUpContext | src/utils.rs:41-130 | `General` exactly when no node of the chain decides; otherwise the innermost deciding node decides |
| Utils.RangeIndex | src/utils.rs:225-226 | the position found is the first index node with the given byte range |
| Utils.CatchScan | src/utils.rs:196-250 | a catch clause decides only `Tag` or `Branch`, or nothing |
| Utils.DetermineInstructionContext | src/utils.rs:32-133 | a catch clause decides first and only `Tag` or `Branch`; otherwise the walk up decides |
| Utils.TakeToken | src/utils.rs:144-146 | the leading token is a prefix without whitespace, ended by whitespace or the end |
| Utils.FirstToken | src/utils.rs:144-146 | the first token holds no whitespace |
| Utils.TokenContext | src/utils.rs:148-170 | type operations come first; `Call` needs a `call` prefix and excludes `call_indirect` and `call_ref`; `Branch` exactly for a `br` prefix that is not a type operation |
| Utils.DetermineInstructionContextAtNode | src/utils.rs:137-190 | a plain instruction is classified by its first token, `type_use` and reference types as `Type`, and only a catch clause otherwise decides |
| Utils.MatchIndices | src/utils.rs:315 | every index listed is an occurrence of the keyword at or after the start |
| Utils.OverlapGivesBorder | src/utils.rs:315 | two occurrences closer than the keyword's length make a border of the keyword |
| Utils.MatchIndicesComplete | src/utils.rs:315 | for a keyword without borders every occurrence is listed |
| Utils.LineContainsKeywordIff | src/utils.rs:314-348 | for a keyword without borders, the line contains it exactly when some occurrence has a valid character on both sides |
| Utils.DetermineContextFromLine | src/utils.rs:352-394 | `call` decides `Call` in both directions; `Function` needs `func` and no `call`; `General` only when no keyword is found |
| Utils.FindContainingFunction | src/utils.rs:398-406 | none exactly when every function starts after the line; otherwise the last function in table order starting on or before it |
| Utils.WordStart | src/utils.rs:431-433 | the start of the run of word characters ending at the column is maximal |
| Utils.WordEnd | src/utils.rs:436-438 | the end of the run of word characters starting at the column is maximal |
| Utils.WordIn | src/utils.rs:416-445 | none for a missing line or a column past its end; otherwise the maximal run of word characters around the column |
| Utils.WordAround | src/utils.rs:425-444 | the two loops compute the word the specification names |
| Utils.GetWordAtPosition | src/utils.rs:416-450 | the utilities' word lookup is the word specification with `is_word_char` as class |
| Utils.PositionToByte | src/utils.rs:453-471 | the loop computes the byte offset the specification names |
| Utils.ByteOffsetPointsAtCharacter | src/utils.rs:453-471 | on text without carriage returns the offset of a position inside a line addresses exactly that character |
| Utils.LastIndexOf | src/utils.rs:631-632 | the position found is the last occurrence of the character |
| Utils.CalculatePositionAfterEdit | src/utils.rs:615-636 | as written: no text keeps the position, text without newline moves the character, and the line advances by the number of newlines |
| Utils.PositionAfterEdit | src/utils.rs:615-636 | no text keeps the position; text without newline moves the character by its length |
| Utils.PositionAfterEditIsEnd | src/utils.rs:615-636 | inserting text at the end of a document ends at the end of the longer document |
| Utils.CalculatePositionAfterEditTrailingNewline | src/utils.rs:615-636 | as written, inserting `x` and a newline at (0, 0) reports (1, 1), while the text ends at (1, 0) |
| Utils.ApplyTextEdit | src/utils.rs:598-612 | the text before the start offset and after the end offset is kept, the new text sits between them, and the returned end position is the one `calculate_position_after_edit` computes as written |
| Utils.PickChild | src/utils.rs:536-558 | the child chosen touches the offset; it is the first enclosing one when any encloses it, otherwise the first touching one |
| Utils.DeepestPath | src/utils.rs:528-594 | a path exists exactly when the node touches the offset; it is an ancestor chain ending at the node, every member touches the offset, and no child of the deepest encloses it |
| Utils.NodeAtPosition | src/utils.rs:475-489 | a node is found exactly when the root touches the position's offset, with its chain of ancestors up to the root |
| Utils.InsideComment | src/utils.rs:500-524 | a node reports a comment only when it encloses the offset |
| Utils.InsideCommentFindsComment | src/utils.rs:500-524 | a position reported inside a comment lies in a comment node of the subtree |
| Utils.IsInsideComment | src/utils.rs:492-497 | a position reported inside a comment lies in a comment node of the tree |
| References.LocalSpaceAt | src/references.rs:464-489 | an index of the local space exists exactly below the parameter count plus the local count; parameters come first, locals follow shifted by the parameter count |
| References.LocalSpaceRoundTrip | src/references.rs:282-305 | the index a named lookup reports for a parameter or local leads the numeric lookup back to the same entry |
| References.IsInSameFunctionByLine | src/references.rs:65-77 | true exactly when the first function spanning the line is the target's function |
| References.DetermineContextFromLineRefs | src/references.rs:123-150 | `call` decides `Call` in both directions, `global` without `call` decides `Global`, `General` exactly when no keyword is found, and block, data and elem are never reported |
| References.ContextAt | src/references.rs:195-222 | without a node the line decides, and `General` comes out only when the line also says so |
| References.ParseNat | src/references.rs:1157-1163 | a number read is below the `usize` bound |
| References.ParseNatRoundTrip | src/references.rs:1157-1163 | a printed number reads back as itself, and a `0x` prefix reads hexadecimal |
| References.ResolveBlockByDepth | src/references.rs:958-965 | depth 0 is the innermost block; none exactly when the depth reaches past the stack |
| References.ResolveAfterPush | src/references.rs:958-965 | entering a block makes it depth 0 and moves every other block one level out |
| References.ExtractBlockLabel | src/references.rs:1049-1058 | a label exists exactly when the node has an identifier child |
| References.DepthCountsOutwards | src/references.rs:958-1015 | on the stack of enclosing blocks depth `d` names the `d`-th enclosing block counted outwards |
| References.BlockStackOf | src/references.rs:982-1015 | every block pushed is a labelled block node containing the target byte |
| References.BuildBlockStackRecursive | src/references.rs:982-1015 | the recursive walk appends exactly the blocks the specification names |
| References.NextNewline | src/references.rs:1022-1042 | the newline found is the first at or after the start |
| References.ScanFrom | src/references.rs:1018-1046 | the offset found lies between the line start and the end of the text |
| References.OffsetInRest | src/references.rs:1025-1037 | on the wanted line the offset is the character offset, limited by the end of the text |
| References.PositionToByte | src/references.rs:1018-1046 | the character walk computes the offset the specification names |
| References.ScanFromAgrees | src/references.rs:1018-1046 | on text without carriage returns and inside a line this conversion agrees with the shared one of the utilities |
| References.BuildBlockStackAtPosition | src/references.rs:968-979 | the stack holds the blocks containing the position's offset |
| References.NamedFunction | src/references.rs:265-273 | a function target exists exactly when the table finds the name, and carries that name |
| References.NamedGlobal | src/references.rs:274-281 | a global target exists exactly when the table finds the name, and carries that name |
| References.NamedTable | src/references.rs:401-408 | a table target exists exactly when the table finds the name, and carries that name |
| References.NamedMemory | src/references.rs:409-416 | a memory target exists exactly when the table finds the name, and carries that name |
| References.NamedType | src/references.rs:417-424 | a type target exists exactly when the table finds the name, and carries that name |
| References.NamedTag | src/references.rs:425-432 | a tag target exists exactly when the table finds the name, and carries that name |
| References.ParamOrLocalByName | src/references.rs:282-305 | a parameter named so wins; a local reports its index shifted past the parameters; none exactly when neither has the name |
| References.BlockByName | src/references.rs:306-318 | a label target exists exactly when some block of the function has the label, with that block's line |
| References.IdentifyNamedSymbol | src/references.rs:258-436 | every target found carries the word; each context allows only its own lookups; data and elem contexts find nothing |
| References.AnyNamed | src/references.rs:319-400 | in the Function/General order a function named so wins; every target found carries the word |
| References.IdentifyIndexedSymbol | src/references.rs:439-529 | a call index names the function at that position exactly when in range; a local index names the entry of the local space; a branch depth names the enclosing block |
| References.IdentifySymbolAtPosition | src/references.rs:195-255 | a target needs a word at the cursor that starts with `$` or is all digits, and a `$` word's target carries that name |
| References.MatchesTargetIdentifier | src/references.rs:745-834 | an identifier is an occurrence exactly when it stands in the target's context, carries its name and, for a parameter, local or label, lies in its function |
| References.MatchesTargetIndex | src/references.rs:837-955 | a number is an occurrence exactly when it stands in the target's context and equals its index (for a label the depth reaches it), inside its function where that matters |
| References.NodeHit | src/references.rs:651-661 | a node reports at most one location, in the searched document, with the node's range |
| References.IdentHitsInDocument | src/references.rs:673-742 | every hit below a node is in the searched document |
| References.FindReferenceIdentifiers | src/references.rs:673-742 | the recursive search appends exactly the hits the specification names |
| References.FindInChildren | src/references.rs:673-742 | the loop over the children appends their hits in order |
| References.ExportContext | src/references.rs:556-564 | an export descriptor gives a context exactly for the exportable kinds |
| References.WalkRefsInDocument | src/references.rs:567-648 | every location the walk reports is in the searched document |
| References.CheckExport | src/references.rs:567-648 | an export descriptor adds exactly its hits |
| References.CheckHere | src/references.rs:567-648 | the checks at a node add exactly its hits and decide whether to descend |
| References.WalkTreeForReferences | src/references.rs:567-648 | a block is pushed on entry and popped on every way out, so the stack comes back unchanged, and the results gain exactly the walk's hits |
| References.WalkChildren | src/references.rs:567-648 | the loop over the children keeps the stack and appends their hits in order |
| References.FindAllReferences | src/references.rs:532-553 | the references are the walk from the root with an empty stack |
| References.FunctionAt | src/references.rs:1061-1140 | the function found starts at the byte; none exactly when none does |
| References.DefinitionRange | src/references.rs:1061-1140 | a function's declaration is its table entry's range; a parameter's or local's lies in its function |
| References.GetDefinitionLocation | src/references.rs:1061-1140 | a location exists exactly when there is a URI and a declaration range, and is that range in that document |
| References.SortAndDedup | src/references.rs:178-189 | sorted by start position, no two neighbours with equal ranges, every input range kept, nothing added |
| References.Assemble | src/references.rs:170-191 | the declaration goes first when asked for and present, then sorting and de-duplication |
| References.ReferencesToTarget | src/references.rs:167-191 | the references of a known target are the walk's hits, assembled |
| References.ProvideReferences | src/references.rs:153-192 | nothing without a target; otherwise the assembled references of the target |
| SymbolLookup.FindParamInFunction | src/symbol_lookup.rs:97-101 | a parameter is found exactly when one has the name, and the one found has it |
| SymbolLookup.FindLocalInFunction | src/symbol_lookup.rs:105-109 | a local is found exactly when one has the name, and the one found has it |
| SymbolLookup.FindBlockInFunction | src/symbol_lookup.rs:128-130 | a block is found exactly when one has the label, and the one found has it |
| SymbolLookup.FindLocalOrParamInFunction | src/symbol_lookup.rs:81-93 | a parameter with the name decides even without a range; only without one are the locals searched; with every item ranged, a range is found exactly when a parameter or local has the name |
| SymbolLookup.FindBlockLabelInFunction | src/symbol_lookup.rs:122-124 | the first block with the label decides; with every block ranged, a range is found exactly when some block has the label |
| SymbolLookup.FindLocalOrParamRange | src/symbol_lookup.rs:71-78 | nothing outside a function; inside one, the search in the function containing the position |
| SymbolLookup.FindBlockLabelRange | src/symbol_lookup.rs:112-119 | nothing outside a function; inside one, the label search in the function containing the position |
| SymbolLookup.FunctionsComeFirst | src/symbol_lookup.rs:18-21 | a function with the name wins over everything else, and it is the last one declared |
| SymbolLookup.ScopeShadowsModuleItems | src/symbol_lookup.rs:28-36 | without a function or global of that name, a parameter, local or label of the enclosing function shadows every other module item |
| SymbolLookup.FunctionOrGlobalAt | src/symbol_lookup.rs:18-26 | the range of a function or global found by name is that of a module item called so |
| SymbolLookup.TableOrMemoryAt | src/symbol_lookup.rs:38-46 | the range of a table or memory found by name is that of a module item called so |
| SymbolLookup.TypeOrTagAt | src/symbol_lookup.rs:48-56 | the range of a type or tag found by name is that of a module item called so |
| SymbolLookup.SegmentAt | src/symbol_lookup.rs:58-66 | the range of a data or elem segment found by name is that of a module item called so |
| SymbolLookup.DefinitionIsNamedWord | src/symbol_lookup.rs:12-68 | a definition found for a word is the range of a module item or of an item of the enclosing function called so |
| SymbolLookup.FoundWhenDeclaredFirstHalf | src/symbol_lookup.rs:12-36 | a function, global or in-scope item with the name is always found when named items carry ranges |
| SymbolLookup.FoundWhenDeclaredSecondHalf | src/symbol_lookup.rs:38-66 | a table, memory, type, tag or segment with the name is always found when named items carry ranges |
| SymbolLookup.DefinitionFoundIffDeclared | src/symbol_lookup.rs:12-68 | when every named item carries its range, a definition is found exactly when something with the name is declared or in scope |
| SymbolLookup.FromInstructionContext | src/symbol_lookup.rs:181-197 | no index space exactly for branches, blocks and general positions; `Call` and `Function` both number functions |
| SymbolLookup.ToInstructionContext | src/symbol_lookup.rs:181-197 | every index space comes from some instruction context |
| SymbolLookup.FindIndexDefinitionRange | src/symbol_lookup.rs:134-162 | the range of the item at that position of the chosen space, none past its end; locals count the parameters first |
| SymbolLookup.FunctionIndexAgreesWithName | src/symbol_lookup.rs:12-162 | going to a function by position and by name lands on the same definition when the position is the last function with that name |
| SymbolLookup.ParamIndexAgreesWithName | src/symbol_lookup.rs:12-162 | a parameter reached by position in the local space and by name lands on the same definition, unless a function or global of the name comes first |
| SymbolLookup.LocalIndexAgreesWithName | src/symbol_lookup.rs:12-162 | the same for a local, shifted past the parameters |
| Definition.DefinitionContext | src/definition.rs:186-204 | without a node the cursor line decides; `General` comes out only when the line also says so; otherwise the node's own context stands |
| Definition.FunctionOrGlobalFound | src/definition.rs:208-225 | a call or global context finds only a function or global called so |
| Definition.TableOrMemoryFound | src/definition.rs:262-279 | a table or memory context finds only a table or memory called so |
| Definition.TypeOrTagFound | src/definition.rs:280-297 | a type or tag context finds only a type or tag called so |
| Definition.SegmentFound | src/definition.rs:379-396 | a data or elem context finds only a segment called so |
| Definition.SymbolDefinitionMatchesContext | src/definition.rs:174-400 | a definition found for a `$name` is the range of an item with that name of a kind its context allows |
| Definition.GeneralAgreesOutsideScope | src/definition.rs:320-378 | in a General context the search agrees with the shared lookup when the enclosing function declares nothing of that name |
| Definition.GeneralMissesScope | src/definition.rs:320-378 | a parameter, local or label only the enclosing function declares is not found in a General context, while the shared lookup finds it |
| Definition.FirstOnLine | src/definition.rs:46-171 | the element found has the name and starts on the line; none exactly when no element with the name starts there |
| Definition.OnLine | src/definition.rs:46-171 | a module item's range counts exactly when it starts on the line |
| Definition.InFunctionOnLine | src/definition.rs:46-171 | an item of the function found starts on the line and has the name |
| Definition.DefinitionAtCursor | src/definition.rs:46-171 | the cursor fallback reports only a range starting on the cursor line |
| Definition.AtCursorIsNamedWord | src/definition.rs:46-171 | the cursor fallback reports only something with the name: a module item other than a segment, or an item of the enclosing function |
| Definition.AtCursorFindsFunction | src/definition.rs:46-171 | on the line of a function's name the fallback finds that function, the last one with the name |
| Definition.IndexDefinitionRange | src/definition.rs:403-503 | only call, global, type, tag and local contexts resolve numbers, each by position in its index space; locals count after the parameters |
| Definition.LocationOf | src/definition.rs:52-52 | a location exists exactly when both range and URI do |
| Definition.ParseIndex | src/definition.rs:36-37 | an index is read only from a non-empty all-digit word |
| Definition.ProvideDefinition | src/definition.rs:13-43 | a definition is in the requested document, needs a word at the cursor, and comes from the symbol search, its cursor fallback, or the index search |
| FeaturesDefinition.SymbolDefinitionRange | src/features/definition/mod.rs:186-314 | outside a General context the search is the older provider's; in a General context it is the shared lookup, scope included |
| FeaturesDefinition.IndexDefinitionRange | src/features/definition/mod.rs:317-340 | nothing for a context without index space; otherwise the shared index lookup in that space |
| FeaturesDefinition.IndexExtendsOlderProvider | src/features/definition/mod.rs:317-340 | where the older provider finds an indexed definition this one finds the same, and it answers in more contexts |
| FeaturesDefinition.SymbolExtendsOlderProvider | src/features/definition/mod.rs:186-314 | where nothing in scope has the name, the named search agrees with the older provider |
| FeaturesDefinition.ProvideDefinition | src/features/definition/mod.rs:25-55 | a definition is in the requested document, needs a word at the cursor, and comes from the symbol search, its cursor fallback, or the index search |
| FeaturesDefinition.ContextLookupWins | src/features/definition/mod.rs:25-55 | a `$name` whose lookup in context succeeds is answered by that lookup whatever the cursor line holds |
| Hover.Fenced | src/hover.rs:117-117 | every hover text opens a `wat` code fence |
| Hover.ResultClause | src/hover.rs:637-643 | the result clause is empty exactly when there are no results |
| Hover.FormatFunctionSignature | src/hover.rs:622-647 | pushing the pieces one at a time builds the signature the specification names |
| Hover.PushParamClauses | src/hover.rs:629-635 | the parameter loop pushes one clause per parameter, in order |
| Hover.FormatParamClause | src/hover.rs:630-634 | one parameter's clause, named or unnamed |
| Hover.FormatResultTypes | src/hover.rs:639-641 | the result loop pushes a space and the type per result |
| Hover.FunctionSignatureClauses | src/hover.rs:622-647 | the signature holds one parenthesised clause per parameter and one result clause exactly when there are results, inside the `(func …)` pair, so its parentheses balance |
| Hover.ParamClausesParens | src/hover.rs:629-635 | the parameter clauses hold one parenthesis pair per parameter |
| Hover.ResultClauseParens | src/hover.rs:637-643 | the result clause holds one pair exactly when there are results |
| Hover.TypeTexts | src/hover.rs:287-326 | one text per type, in order |
| Hover.SpacedTypes | src/hover.rs:294-300 | the joined types are empty exactly when there are none |
| Hover.FormatTypeSignature | src/hover.rs:287-326 | a function type's clauses are pushed only when their joined text is non-empty, which is exactly when there are parameters or results |
| Hover.LimitsText | src/hover.rs:182-185 | the limits text starts with the minimum and is the minimum alone exactly when there is no maximum |
| Hover.DataPreview | src/hover.rs:247-251 | a content of at most 32 characters is shown whole; a longer one is cut to 32 and marked with `...` |
| Hover.ElemPreview | src/hover.rs:262-270 | at most four function names are shown; with more, the first four and the total count |
| Hover.TagParams | src/hover.rs:225-236 | a tag's parameter clause is empty exactly when it has no parameters |
| Hover.GlobalText | src/hover.rs:124-134 | a global's text is a code fence |
| Hover.LabelText | src/hover.rs:168-172 | a label's text reports its 1-based line |
| Hover.DataText | src/hover.rs:252-256 | a data segment's text is a code fence |
| Hover.FunctionHover | src/hover.rs:114-120 | a function hover exists exactly when a function has the name, and describes the last one |
| Hover.GlobalHover | src/hover.rs:122-136 | a global hover exists exactly when a global has the name, and describes the last one |
| Hover.TableHover | src/hover.rs:180-194 | a table hover exists exactly when a table has the name, and describes the last one |
| Hover.MemoryHover | src/hover.rs:196-208 | a memory hover exists exactly when a memory has the name, and describes the last one |
| Hover.TypeHover | src/hover.rs:210-221 | a type hover exists exactly when a type has the name, and describes the last one |
| Hover.TagHover | src/hover.rs:223-243 | a tag hover exists exactly when a tag has the name, and describes the last one |
| Hover.DataHover | src/hover.rs:245-258 | a data hover exists exactly when a data segment has the name, and describes the last one |
| Hover.ElemHover | src/hover.rs:260-277 | an elem hover exists exactly when an elem segment has the name, and describes the last one |
| Hover.ParamOrLocalHover | src/hover.rs:138-162 | the first parameter with the name, else the first local, as a code fence |
| Hover.LabelHover | src/hover.rs:164-178 | the first block with the label, as a code fence |
| Hover.TypeNameAt | src/hover.rs:482-488 | the `$name` read is a prefix of the rest made of name characters and ended by a non-name character or the end |
| Hover.FieldHover | src/hover.rs:491-503 | a field's text is a code fence |
| Hover.OpFieldHover | src/hover.rs:476-508 | a field used by a struct instruction is shown as a code fence |
| Hover.NearestTypeLine | src/hover.rs:515-517 | the line found is the last line before the cursor opening a named type definition |
| Hover.StructFieldHover | src/hover.rs:467-549 | a struct field hover is a code fence |
| Hover.HoverContext | src/hover.rs:86-112 | the context differs from the definition context only where a Block gives way to a Tag line |
| Hover.ScopeHover | src/hover.rs:374-406 | the owner's parameters, locals and labels, as a code fence |
| Hover.TryAllSymbolTypes | src/hover.rs:329-464 | the search through every kind answers with a code fence |
| Hover.SymbolHover | src/hover.rs:82-284 | the checks in order, the first hit answering, always with a code fence |
| Hover.CallContextSearch | src/hover.rs:114-194 | in a call, functions are searched and then tables |
| Hover.GeneralContextSearch | src/hover.rs:196-284 | in a General context memories are searched before everything else |
| Hover.GlobalContextSearch | src/hover.rs:122-136 | in a Global context only the globals are searched |
| Hover.LocalContextSearch | src/hover.rs:138-162 | in a Local context only the enclosing function's parameters and locals are searched |
| Hover.BranchContextSearch | src/hover.rs:164-178 | in a branch only the enclosing function's labels are searched |
| Hover.LabelHoverFindsFirst | src/hover.rs:164-178 | the first block with the label is described, with its 1-based line |
| Hover.IndexHover | src/hover.rs:551-620 | only call, global and local contexts answer; a call or global index answers exactly when in range |
| Hover.LocalSpaceHover | src/hover.rs:596-617 | an entry exists exactly below the parameter count plus the local count, parameters first |
| Hover.FunctionIndexAgreesWithName | src/hover.rs:551-620 | a function described by position in a call reads as when described by name |
| Hover.GlobalIndexAgreesWithName | src/hover.rs:551-620 | a global described by position reads as when described by name, except that the named text adds the initial value |
| Hover.GlobalTextExtendsIndexText | src/hover.rs:585-594 | the named global text extends the indexed one, and equals it without an initial value |
| Hover.ParamIndexAgreesWithName | src/hover.rs:596-617 | a parameter described by its position reads as when described by name |
| Hover.ProvideHoverCore | src/hover.rs:25-56 | nothing inside a comment; an instruction's documentation first; then a code fence for a `$name` or a number; no result carries a range |
| Signature.ScanBack | src/signature.rs:146-159 | the backward scan stops only at a `(` before the start position |
| Signature.ScanBackFindsNearest | src/signature.rs:146-159 | from a balanced state the scan finds the nearest unclosed `(`; finding none means no suffix has more `(` than `)` |
| Signature.UnmatchedParenIsNearestOpen | src/signature.rs:146-161 | the `(` found is the nearest one not closed before the end; without one no suffix of the text is unbalanced towards `(` |
| Signature.FindUnmatchedParen | src/signature.rs:140-159 | the loop with its depth counter finds the parenthesis the specification names |
| Signature.NameAtStart | src/signature.rs:174-178 | the name is the prefix up to the first whitespace or `(` |
| Signature.CallFromLineFindsCall | src/signature.rs:136-189 | without an unclosed `(` there is no call; a call found is named by a non-empty run after the last `call ` before that parenthesis, and its arguments are everything after it |
| Signature.FindFunctionCall | src/signature.rs:136-189 | the loop and the name extraction compute the call the specification names |
| Signature.Operands | src/signature.rs:93-107 | only identifier and index children count as operands |
| Signature.Commas | src/signature.rs:111-115 | the argument text holds exactly the requested number of commas |
| Signature.ScanOperands | src/signature.rs:89-107 | the children loop takes the first operand as callee and counts the rest |
| Signature.OperandCommas | src/signature.rs:111-115 | the argument text has one comma fewer than the operands after the callee, none without any |
| Signature.NodeCallShape | src/signature.rs:83-122 | a node makes a call exactly when it is a plain instruction whose text holds `call ` and it has an operand; the callee is the first operand |
| Signature.CallFromChain | src/signature.rs:75-134 | no call found means no node on the way up makes one |
| Signature.CallFromChainIsInnermost | src/signature.rs:75-134 | the call found is the one of the innermost call instruction around the cursor |
| Signature.FindFunctionCallAst | src/signature.rs:75-134 | the walk up computes the call the specification names |
| Signature.ParamLabel | src/signature.rs:43-47 | a named parameter is labelled with its name and type, an unnamed one with `param` and its type |
| Signature.ParameterInfos | src/signature.rs:41-52 | one undocumented label per parameter, in order |
| Signature.Callee | src/signature.rs:30-36 | a `$` callee is found exactly when a function has the name; a number names the function at that position |
| Signature.ActiveParameter | src/signature.rs:55-65 | the active parameter is the comma count, limited by the parameter count |
| Signature.DirectHelp | src/signature.rs:39-66 | one signature, active, labelled with the function's signature, one label per parameter, and the active parameter the same in both places |
| Signature.FindCallAt | src/signature.rs:16-27 | the tree walk is tried first, then the line before the cursor |
| Signature.BuildDirectHelp | src/signature.rs:39-66 | the help built is the one the specification names |
| Signature.ProvideSignatureHelp | src/signature.rs:9-67 | help exists exactly when a call is found and its callee resolves, and it is that callee's help |
| FeaturesSignature.ExtractName | src/features/signature/mod.rs:337-349 | a name is read exactly when the text after the keyword starts with a name character, and it is the run up to the first whitespace or `(` |
| FeaturesSignature.NameFollowsLastKeyword | src/features/signature/mod.rs:291-315 | a keyword's name is read after the keyword's last occurrence, past any whitespace |
| FeaturesSignature.NameFollowsLastDirectCall | src/features/signature/mod.rs:317-331 | a plain `call` counts only at its last occurrence and only when no underscore comes right before it |
| FeaturesSignature.CallBeforeParen | src/features/signature/mod.rs:286-333 | a call found before the parenthesis has a non-empty name and takes everything after the parenthesis as arguments |
| FeaturesSignature.CallFromLine | src/features/signature/mod.rs:257-334 | without an unclosed `(` there is no call; otherwise the call before the nearest one |
| FeaturesSignature.KeywordPrecedence | src/features/signature/mod.rs:291-331 | the keyword decides, not its position: `return_call_ref` wins over `call_ref`, which wins over a plain `call` |
| FeaturesSignature.DirectAgreesWithOlderProvider | src/features/signature/mod.rs:317-331 | a plain call found on the line is the call the older provider finds there |
| FeaturesSignature.ReturnCallIsNotDirect | src/features/signature/mod.rs:320-320 | whatever precedes it, a line whose last `call ` is the one inside `return_call ` has no direct call |
| FeaturesSignature.FindFunctionCall | src/features/signature/mod.rs:257-334 | the backward loop and the three keyword searches compute the call the specification names |
| FeaturesSignature.TextCallType | src/features/signature/mod.rs:197-205 | `return_call_ref` exactly when its text occurs; `call_ref` exactly when it occurs without the former; a plain call needs `call ` and no `call_` |
| FeaturesSignature.NodeCall | src/features/signature/mod.rs:193-245 | a node makes a call exactly when it is a plain instruction whose text names a call kind and it has an operand |
| FeaturesSignature.CallFromChain | src/features/signature/mod.rs:185-255 | the call found is made by a node of the chain; none means no node makes one |
| FeaturesSignature.FindFunctionCallAst | src/features/signature/mod.rs:185-255 | the walk up computes the call the specification names |
| FeaturesSignature.FindCallAt | src/features/signature/mod.rs:16-27 | the tree walk is tried first, then the line before the cursor |
| FeaturesSignature.TypeCallee | src/features/signature/mod.rs:88-94 | a `$` type is found exactly when a type has the name; a number names the type at that position |
| FeaturesSignature.CallKind | src/features/signature/mod.rs:103-107 | the label shows `return_call_ref` exactly for that kind |
| FeaturesSignature.TypesOrNone | src/features/signature/mod.rs:110-133 | the joined types, or `none` when there are none |
| FeaturesSignature.IndexedParamLabel | src/features/signature/mod.rs:138-143 | a parameter is labelled `param` with its position and its type |
| FeaturesSignature.CallRefInfos | src/features/signature/mod.rs:137-151 | one positional label per parameter of the type, then the reference argument |
| FeaturesSignature.CallRefParameters | src/features/signature/mod.rs:137-151 | the loop builds the labels the specification names |
| FeaturesSignature.TypeName | src/features/signature/mod.rs:108-109 | a type is shown by its name, or by its index when it has none |
| FeaturesSignature.CallRefLabel | src/features/signature/mod.rs:120-133 | the label starts with the call kind and the type, and ends with the reference argument |
| FeaturesSignature.CallRefHelp | src/features/signature/mod.rs:95-168 | help exists exactly for a function type: its parameters, then the reference |
| FeaturesSignature.BuildCallRefHelp | src/features/signature/mod.rs:95-168 | the help built is the one the specification names |
| FeaturesSignature.CallHelp | src/features/signature/mod.rs:29-80 | a direct call gets the older provider's help; an indirect one the help of its type |
| FeaturesSignature.CallRefEndsWithReference | src/features/signature/mod.rs:137-167 | an indirect call's help ends with the reference argument, and the active parameter is the comma count clamped to the number of labels, one past the reference's position |
| FeaturesSignature.ProvideSignatureHelp | src/features/signature/mod.rs:9-35 | no call, no help; otherwise the help of the call's kind |
| Completion.MakeCompletion | src/completion.rs:459-466 | a keyword item with the name as label and the detail line, nothing else |
| Completion.Items | src/completion.rs:443-457 | one keyword item per (name, detail) pair, in order |
| Completion.TrailingNumberChars | src/completion.rs:29-29 | the count is the maximal run of number characters at the end of the prefix |
| Completion.NumberConst | src/completion.rs:29-31 | a typed number matches exactly when the prefix ends with a numeric type suffix preceded by a non-empty run of number characters, which is the number taken |
| Completion.NumberConstReadsWritten | src/completion.rs:29-31 | a run of number characters not preceded by another, followed by `i32`, `i64`, `f32` or `f64`, is read back as exactly that number and that type |
| Completion.RemoveUnderscores | src/completion.rs:32-32 | the cleaned number has no underscore and is shorter by their count |
| Completion.NumberItem | src/completion.rs:29-42 | the snippet is labelled with number and type and expands to `(T.const N)` with the underscores dropped |
| Completion.NamedItems | src/completion.rs:48-79 | at most one item per element |
| Completion.NamedItemsExact | src/completion.rs:48-79 | every item is made from a named element, and every named element makes an item |
| Completion.PushNamed | src/completion.rs:48-79 | the push loop appends the items the specification names |
| Completion.DropDollar | src/completion.rs:226-230 | the name loses its first character, the `$` |
| Completion.TypeCompletions | src/completion.rs:367-441 | the 8 common operations come first, then 24 integer or 15 float ones |
| Completion.GetTypeCompletions | src/completion.rs:367-441 | the push loops build the list the specification names |
| Completion.PushItems | src/completion.rs:443-457 | one keyword item per pair is appended |
| Completion.LinePrefix | src/completion.rs:19-27 | the prefix is the start of the cursor's line cut at the cursor, none exactly when the line is missing |
| Completion.Completions | src/completion.rs:13-365 | no line, no items; otherwise the branches on the line's prefix |
| Completion.PushLocals | src/completion.rs:46-81 | parameters first, then locals, each named one making an item |
| Completion.PushContextItems | src/completion.rs:217-347 | the line's context picks the lists |
| Completion.PushBlocks | src/completion.rs:306-318 | one item per labelled block of the enclosing function, none outside a function |
| Completion.PushAnyItems | src/completion.rs:325-345 | every named function, then every named global |
| Completion.ProvideCompletion | src/completion.rs:13-365 | the branches in order compute the items the specification names |
| Completion.ProvidePrefixCompletion | src/completion.rs:29-364 | the branches after the prefix is cut compute the items the specification names |
| Completion.NumberWinsAlone | src/completion.rs:29-42 | a typed number at the end of the prefix is answered by exactly one snippet |
| Completion.BlankPrefixGetsNothing | src/completion.rs:360-364 | a blank prefix gets no items |
| Completion.GlobalSetOffersMutableOnly | src/completion.rs:139-155 | `g=$` offers exactly the named mutable globals, each as a `global.set` snippet |
| Completion.MutableGlobalsExact | src/completion.rs:139-155 | the `global.set` list holds exactly the named mutable globals |
| Completion.GlobalGetOffersAllNamed | src/completion.rs:118-135 | `g$` offers every named global, mutable or not |
| Completion.CallContextListsFunctions | src/completion.rs:217-262 | in a call context a `$` lists one item per named function, without the `$` |
| Completion.TypePrefixCounts | src/completion.rs:159-173 | after `i32.` or `i64.` 32 items, after `f32.` or `f64.` 23 |
| Diagnostics.ServerError | src/diagnostics.rs:43-52 | an error from `wat-lsp` with the given range and message |
| Diagnostics.FirstLine | src/diagnostics.rs:39-39 | the first line is a newline-free prefix of the text, the whole text when it has no newline |
| Diagnostics.FirstLineIsFirstOfLines | src/diagnostics.rs:39-39 | the first line is the first of the text's lines |
| Diagnostics.ErrorMessageShape | src/diagnostics.rs:36-40 | the fixed message is used exactly for blank text; any other message is the lead followed by a newline-free prefix of the text |
| Diagnostics.NearIsNotUnexpected | src/diagnostics.rs:36-40 | the two messages never coincide |
| Diagnostics.NodeDiagnosticsFlagged | src/diagnostics.rs:12-22 | a node yields one error per flag it carries, at its range: the syntax message for ERROR, then `Missing` with its kind for MISSING |
| Diagnostics.ErrorsInPreOrder | src/diagnostics.rs:12-29 | the walk's diagnostics are, node by node, those of the subtree's pre-order listing |
| Diagnostics.ErrorsInAllPreOrder | src/diagnostics.rs:25-28 | the same for the children in order |
| Diagnostics.DiagnosticsOfNodesCount | src/diagnostics.rs:12-22 | one diagnostic per ERROR node and one per MISSING node, each a server error |
| Diagnostics.ErrorsInCount | src/diagnostics.rs:5-29 | as many diagnostics as flagged nodes in the tree, all errors from `wat-lsp` |
| Diagnostics.CleanTreeNoDiagnostics | src/diagnostics.rs:5-29 | a tree without ERROR and MISSING nodes gets no diagnostics |
| Diagnostics.WalkTreeForErrors | src/diagnostics.rs:12-29 | the recursive walk appends exactly the subtree's diagnostics |
| Diagnostics.PushNodeDiagnostics | src/diagnostics.rs:13-22 | the two checks at a node append its diagnostics |
| Diagnostics.WalkChildrenForErrors | src/diagnostics.rs:25-28 | the loop over the children appends their diagnostics in order |
| Diagnostics.ProvideDiagnostics | src/diagnostics.rs:5-9 | the diagnostics are the walk from the root |
| DiagnosticsMerge.MergeAllDiagnostics | src/diagnostics/mod.rs:12-28 | the three lists appended, then sorted by start position |
| DiagnosticsMerge.MergeIsStableSortedPermutation | src/diagnostics/mod.rs:12-28 | the merged list holds exactly the input diagnostics, as many as the three lists together, in start order, with equal starts in their original order |
| Sorting.SortBySorted | src/diagnostics/mod.rs:19-26 | `sort_by` on a key orders by the key and keeps the same elements with their multiplicities |
| Sorting.SortByStable | src/diagnostics/mod.rs:19-26 | elements with equal keys keep their input order, as the stable `sort_by` promises |
| Sorting.DedupByNoAdjacent | src/references.rs:189-189 | after `dedup_by` no two neighbours have equal keys |
| Sorting.DedupBySubset | src/references.rs:189-189 | every element after `dedup_by` comes from the input |
| Sorting.DedupByCovers | src/references.rs:189-189 | every key of the input is kept by some element |
| Sorting.SortThenDedup | src/references.rs:178-189 | sorting and then dropping equal neighbours leaves a sorted list without adjacent duplicates that keeps every key of the input and holds nothing else |
| SemanticDiagnostics.ReferenceContextClassified | src/diagnostics/semantic_diagnostics.rs:60-87 | only instructions and type uses are classified; a type use is a type reference; branches win over calls; `call_indirect` is never a call |
| SemanticDiagnostics.AnyBlockLabelled | src/diagnostics/semantic_diagnostics.rs:124-134 | a label is defined exactly when some block's label, with or without the `$`, is the identifier |
| SemanticDiagnostics.AnyParamNamed | src/diagnostics/semantic_diagnostics.rs:139-152 | some parameter carries the name |
| SemanticDiagnostics.AnyLocalNamed | src/diagnostics/semantic_diagnostics.rs:139-152 | some local carries the name |
| SemanticDiagnostics.DefinedByName | src/diagnostics/semantic_diagnostics.rs:123-166 | with the name maps in step with the vectors, a call, global, table or type name is defined exactly when an item of that kind carries it |
| SemanticDiagnostics.ScopedNamesNeedAFunction | src/diagnostics/semantic_diagnostics.rs:124-152 | labels, parameters and locals outside every function are undefined |
| SemanticDiagnostics.CheckIdentifierReports | src/diagnostics/semantic_diagnostics.rs:108-173 | an identifier is reported exactly when it is a `$` name not defined in its context, by one error naming the kind and the name |
| SemanticDiagnostics.UndefinedInSound | src/diagnostics/semantic_diagnostics.rs:101-188 | every diagnostic of a check reports an undefined `$` identifier under the checked node |
| SemanticDiagnostics.UndefinedRefsSound | src/diagnostics/semantic_diagnostics.rs:32-57 | every diagnostic of the walk reports an undefined `$` identifier of a classified instruction; numeric indices are never reported |
| SemanticDiagnostics.UndefinedInComplete | src/diagnostics/semantic_diagnostics.rs:101-188 | every identifier a check looks at (not below another identifier, not under a branch's `expr`) that is a `$` name undefined in the check's context is reported |
| SemanticDiagnostics.UndefinedRefsComplete | src/diagnostics/semantic_diagnostics.rs:32-57 | for every classified instruction the walk reaches (it does not go below a non-branch instruction it has checked), every undefined `$` identifier its check looks at is reported in that instruction's context |
| SemanticDiagnostics.ParameterCountMessageShape | src/diagnostics/semantic_diagnostics.rs:423-453 | the message names the instruction, the expectation and the count, in the right grammatical number |
| SemanticDiagnostics.CountMessagesLead | src/diagnostics/semantic_diagnostics.rs:423-480 | both arity messages open with the same lead |
| SemanticDiagnostics.ValidateArityReports | src/diagnostics/semantic_diagnostics.rs:401-420 | unknown instructions and accepted counts pass; a rejected count gives one error at the instruction |
| SemanticDiagnostics.FoldedCheckReports | src/diagnostics/semantic_diagnostics.rs:338-398 | a folded instruction is reported exactly when its operand count is rejected |
| SemanticDiagnostics.NodeCountsShape | src/diagnostics/semantic_diagnostics.rs:254-273 | only instructions are checked, and every report is an error at the checked node |
| SemanticDiagnostics.ParamCountsSound | src/diagnostics/semantic_diagnostics.rs:254-273 | every arity diagnostic is an error at a linear or folded instruction of the tree |
| SemanticDiagnostics.NoAritiesNoCounts | src/diagnostics/semantic_diagnostics.rs:246-251 | with nothing in the arity table no count is ever reported |
| SemanticDiagnostics.FindUndefinedIdentifiers | src/diagnostics/semantic_diagnostics.rs:101-188 | the recursive search appends exactly the diagnostics the specification names |
| SemanticDiagnostics.FindInChildren | src/diagnostics/semantic_diagnostics.rs:184-187 | the loop over the children appends their diagnostics in order |
| SemanticDiagnostics.WalkTreeForUndefinedReferences | src/diagnostics/semantic_diagnostics.rs:32-57 | the walk appends exactly the diagnostics the specification names |
| SemanticDiagnostics.WalkChildrenForUndefined | src/diagnostics/semantic_diagnostics.rs:32-57 | the loop over the children appends their diagnostics in order |
| SemanticDiagnostics.WalkTreeForParameterCounts | src/diagnostics/semantic_diagnostics.rs:254-273 | the walk appends exactly the arity diagnostics the specification names |
| SemanticDiagnostics.WalkChildrenForParameterCounts | src/diagnostics/semantic_diagnostics.rs:254-273 | the loop over the children appends their diagnostics in order |
| SemanticDiagnostics.ProvideSemanticDiagnostics | src/diagnostics/semantic_diagnostics.rs:9-18 | the undefined-name diagnostics, then the arity diagnostics |
| WastParser.LineColCountsNewlines | src/wast_parser.rs:203-206 | a span's line is the number of newlines before its offset, its column the distance from that line's start |
| WastParser.LineColAlongLine | src/wast_parser.rs:203-206 | along a stretch without newlines the line stays and the column advances by the distance |
| WastParser.Dollar | src/wast_parser.rs:47 | a name is present exactly when the identifier is, and it is the identifier with a `$` in front |
| WastParser.IdToRange | src/wast_parser.rs:238-247 | the range starts at the identifier's position and spans `$` plus the name on the same line |
| WastParser.IdToRangeEndsAfterToken | src/wast_parser.rs:238-247 | when the text holds `$name` there, the range ends exactly where that token ends |
| WastParser.CloseFromIsFirstReturn | src/wast_parser.rs:214-229 | the paren scan stops at the first `)` that brings the depth to 0, and finds nothing when there is none |
| WastParser.CloseFromStaysOpen | src/wast_parser.rs:214-229 | from depth 1 or more the depth stays positive until the `)` the scan stops at |
| WastParser.LineThroughClose | src/wast_parser.rs:230-234 | the newline count up to the stopping `)` is that paren's line |
| WastParser.ScanEndLine | src/wast_parser.rs:209-235 | the loop returns the line of the scan's end offset (clamped to the text) |
| WastParser.FindFuncEndLine | src/wast_parser.rs:209-235 | as written: the scan from the function's span starts at depth 0 |
| WastParser.FuncEndLine | src/wast_parser.rs:209-235 | corrected: the scan starts at depth 1, inside the function's own paren |
| WastParser.FuncEndLineIsMatchingClose | src/wast_parser.rs:209-235 | the corrected scan ends on the line of the `)` matching the function's `(` |
| WastParser.FindFuncEndLineStopsEarly | src/wast_parser.rs:209-235 | for a function with a parameter list, the as-written scan ends on the parameter list's line, not the function's last line |
| WastParser.ExtractFuncTypeInfo | src/wast_parser.rs:250-281 | parameters of an inline type numbered 0, 1, … in order with name, type and range, and its results; nothing for a type reference or an import |
| WastParser.ExtractFuncLocals | src/wast_parser.rs:284-308 | locals numbered 0, 1, … in order, separately from the parameters; nothing for an imported function |
| WastParser.ItemOf | src/wast_parser.rs:46-194 | each field adds an item of its own kind carrying the counter of that kind; a defined function ends on the line `find_func_end_line` finds as written |
| WastParser.MakeItem | src/wast_parser.rs:113-138 | a defined function's item gets its end line from the as-written depth-0 scan, and its parameters and locals from the scans |
| WastParser.CollectNumbersEachKind | src/wast_parser.rs:36-197 | imports and definitions share one counter per kind: the k-th item of a kind has index k, one item per field of that kind |
| WastParser.CollectExtendsPrefix | src/wast_parser.rs:44-197 | fields only append, so an item keeps the index it was given |
| WastParser.AddFieldSizes | src/wast_parser.rs:44-197 | a field grows its own kind by one and leaves the others alone |
| WastParser.StoreItem | src/wast_parser.rs:53-160 | the item is appended to its kind's vector and nothing else changes |
| WastParser.StoreLaterItem | src/wast_parser.rs:92-193 | memories, types and tags are appended to their vectors and nothing else changes |
| WastParser.ExtractField | src/wast_parser.rs:45-195 | one arm of the match adds the field's item, numbered by its kind's counter |
| WastParser.ExtractSymbols | src/wast_parser.rs:20-200 | a component or a binary module gives an empty table; otherwise the table holds exactly the numbered items of the fields, and no data or element segments |
| WastParser.ParseDocument | src/wast_parser.rs:10-17 | buffer and parse errors become messages with their own lead; a parsed module goes to the extractor |
| WasmApi.IsWordChar | src/wasm/api.rs:317-319 | this file's word class is the shared one without `-` |
| WasmApi.GetWordAtPosition | src/wasm/api.rs:286-315 | the two expanding loops return the word the specification function picks |
| WasmApi.WordAtHasNoDash | src/wasm/api.rs:286-315 | a word found here is non-empty, holds no `-`, and the shared helper finds a word at the same place |
| WasmApi.FindContainingFunction | src/wasm/api.rs:625-633 | a function is found exactly when one spans the line, and it is the first such |
| WasmApi.SymbolDefinitionIsNamedWord | src/wasm/api.rs:493-544 | a definition found for a word is the range of a module item, parameter or local called that word |
| WasmApi.SymbolDefinitionFoundIffDeclared | src/wasm/api.rs:493-544 | with ranges on every named item, a definition is found exactly when something the search looks at carries the word |
| WasmApi.SymbolDefinitionFoundIffDeclaredLater | src/wasm/api.rs:513-541 | the tables, memories, types and tags part of the same equivalence |
| WasmApi.FindIndexDefinition | src/wasm/api.rs:546-574 | the first keyword on the line among `call`, `global`, `local` decides what the index counts; no line, no definition |
| WasmApi.IndexDefinitionRoundTrip | src/wasm/api.rs:546-574 | the index the extractor gave a function, parameter or local leads back to its range |
| WasmApi.OccursIsOccursAt | src/wasm/api.rs:587 | the character-wise occurrence test agrees with the slice comparison of `str::find` |
| WasmApi.Without | src/wasm/api.rs:615-618 | `retain` keeps exactly the references not starting at the definition, in order |
| WasmApi.OccursInSuffix | src/wasm/api.rs:587 | an occurrence in the suffix from `col` is an occurrence in the line shifted by `col` |
| WasmApi.NextOccurrence | src/wasm/api.rs:587-588 | the next occurrence lies at `from` or after and is an occurrence |
| WasmApi.NextOccurrenceIsFirst | src/wasm/api.rs:587-588 | it is the first one from `from`, and none is found when there is none |
| WasmApi.FindInSuffix | src/wasm/api.rs:587-588 | `find` on the suffix, shifted by `col`, is the next occurrence from `col` |
| WasmApi.RefsFromNextOccurrence | src/wasm/api.rs:587-607 | the references from `from`: the next occurrence when it is a whole word, then those after it |
| WasmApi.NoRefsNearEnd | src/wasm/api.rs:587 | too near the line's end for the word, no references |
| WasmApi.NextReference | src/wasm/api.rs:587-597 | one round of the inner loop finds the next occurrence and tests it as a whole word |
| WasmApi.ReferencesInLine | src/wasm/api.rs:586-607 | the inner loop collects the line's references |
| WasmApi.FindSymbolReferences | src/wasm/api.rs:576-623 | the loops compute the references of the specification |
| WasmApi.LineRefsAreWholeWords | src/wasm/api.rs:587-604 | a line's references are exactly its whole-word occurrences |
| WasmApi.LineRefsAscending | src/wasm/api.rs:586-607 | they lie on their line, in column order |
| WasmApi.RefsAreWholeWords | src/wasm/api.rs:585-608 | a range is reported exactly when it covers a whole-word occurrence on some line, in text order |
| WasmApi.SymbolReferencesReport | src/wasm/api.rs:576-623 | the whole-word occurrences in text order, less those at the definition's start when the declaration is not wanted |
| WasmApi.DefinitionByName | src/wasm/api.rs:132-143 | the definition by name, else the line start of the function or global called the word |
| WasmApi.IndexDefinitionOf | src/wasm/api.rs:146-150 | only a word that parses as a `usize` is looked up by index; a `$name` never is |
| WasmApi.WatLSP.constructor | src/wasm/api.rs:29-35 | no document, no table, not ready |
| WasmApi.WatLSP.Initialize | src/wasm/api.rs:38-41 | the server is ready and reports success |
| WasmApi.WatLSP.Parse | src/wasm/api.rs:50-64 | stores the document; a parsed module replaces the table; after a failure the old table stays, or an empty one is installed |
| WasmApi.WatLSP.ProvideDefinition | src/wasm/api.rs:117-153 | no table or no word gives nothing; a `$name` is looked up by name, then a number by index |
| WasmApi.WatLSP.ProvideReferences | src/wasm/api.rs:195-222 | only a `$name` under the cursor is searched for; otherwise no references |
| BuildDocs.NormaliseLineEndings | build.rs:73 | every CR LF pair becomes LF, and the text never grows |
| BuildDocs.NormaliseWithoutCr | build.rs:73 | a text without carriage returns is left as it is |
| BuildDocs.NormaliseUndoesCrLf | build.rs:72-73 | a text written with Windows line endings normalises back to its Unix form |
| BuildDocs.DropTrailingEmpty | build.rs:85-87 | what remains is a prefix ending in a non-empty line, and only empty lines were dropped |
| BuildDocs.SaveInstruction | build.rs:81-94 | the save step, trailing empty lines popped, matches the specification's save |
| BuildDocs.ReadLine | build.rs:96-145 | one pass of the loop body matches one step of the specification |
| BuildDocs.ReadLines | build.rs:96-145 | the loop over the lines runs the specification over them |
| BuildDocs.ParseInstructionDocs | build.rs:70-151 | normalise, read every line, save the last instruction: the table the specification gives |
| BuildDocs.TitleIsNoMarker | build.rs:133-136 | a `# title` line is not a fence, a separator or an instruction header |
| BuildDocs.HeaderReads | build.rs:126-130 | the header line of an entry reads as the entry's name |
| BuildDocs.PlainRun | build.rs:138-144 | plain lines inside an instruction only add to its kept lines |
| BuildDocs.KeptSkipsBlanks | build.rs:140-143 | blank lines before any content are skipped |
| BuildDocs.KeptAll | build.rs:140-143 | once something is kept every further line is kept |
| BuildDocs.SavedBetween | build.rs:81-94 | saving between instructions leaves an empty state holding the table |
| BuildDocs.HeaderStep | build.rs:125-131 | an entry's header read between instructions starts collecting that entry |
| BuildDocs.SeparatorStep | build.rs:119-123 | `---` outside a fence saves the instruction |
| BuildDocs.EntryRun | build.rs:96-145 | reading one well-formed entry between instructions records it in the table |
| BuildDocs.ParseDocument | build.rs:70-151 | a well-formed document, with Unix or Windows line endings, parses to exactly the table its entries describe |
| BuildDocs.InsideFence | build.rs:109-115 | inside an open fence every non-fence line is kept verbatim, markers included |
| BuildDocs.FencedBlock | build.rs:99-115 | a fenced block keeps its fences trimmed and its lines verbatim, and closes the fence afterwards |
| BuildDocs.StrLtIrreflexive | build.rs:164 | the key order is irreflexive |
| BuildDocs.StrLtAsymmetric | build.rs:164 | the key order is asymmetric |
| BuildDocs.StrLtTransitive | build.rs:164 | the key order is transitive |
| BuildDocs.StrLtTotal | build.rs:164 | any two different keys are ordered |
| BuildDocs.InsertKey | build.rs:164 | inserting a new key into an ascending list keeps it ascending and adds just that key |
| BuildDocs.SortKeys | build.rs:164 | sorting distinct keys gives them strictly ascending, the same keys |
| BuildDocs.SortedKeys | build.rs:163-164 | the table's keys in strictly ascending order, each once |
| BuildDocs.AscendingUnique | build.rs:163-164 | the order the keys were collected in does not matter: two ascending lists of the same keys are equal |
| BuildDocs.EscapeIsEscapeEach | build.rs:169-172 | the three `replace` passes escape each character on its own |
| BuildDocs.EscapeRoundTrip | build.rs:169-172 | reading the escaped text back gives the documentation; it holds no line break |
| BuildDocs.CollectKeys | build.rs:163 | every key of the table, each once |
| BuildDocs.PushInsertLines | build.rs:166-175 | one insert line per key, in order, appended to the code |
| BuildDocs.GenerateRustCode | build.rs:153-183 | the fixed header, one insert line per key in sorted order, then the fixed footer |

## Left out

These parts are left out entirely:
- src/main.rs, the protocol transport and request dispatch. They are I/O and concurrency.
- The tree-sitter facade and bindings. The tree they produce is the `Tree.Node` datatype, passed in with the source text.
- The native adapters and `wast_validator`. They call into the `wast` crate's validator. Its outcome is not part of this model.
- `compile_tree_sitter_grammar` and the file I/O of `main` in build.rs. They run the grammar generator and the C compiler and write files.
- The `wast` crate's parser. What it made of the text is an input (`WastParser.WastOutcome`). Its tree is reduced to the parts the extractor reads.
- In src/wasm/api.rs: `provide_diagnostics`, `validate_wat`, `provide_hover`, `provide_symbol_hover`, `provide_index_hover`, `debug_word_at`, `get_symbol_table_html` and the `*_to_js` converters. They format or marshal values for JavaScript. The lookups they are built on are modelled.
- The generated instruction documentation table and the instruction arity table. Each is a parameter of the functions that read it: `docs` and the arity map.

These are modelled differently from the source:
- `Url::parse` is represented by an optional URI. A URI it rejects is `None`, and no location is produced from it.
- Text is ASCII. `is_alphanumeric`, `is_whitespace`, `trim` and the regex class `\d` are their ASCII restrictions, and a character is a byte. Text outside ASCII is not modelled.
- Positions and indices are unbounded naturals. The source's `u32` casts are not modelled; they never wrap for a document of ordinary size.
- `Sorting.SortBy` models the standard library's stable `sort_by` as insertion sort. `Sorting.DedupBy` models `dedup_by`. Only their results are modelled, not their in-place update of the vector.
- `Completion` matches `NUMBER_CONST_REGEX` with hand-written code. The code takes the maximal run of digits, dots and underscores before an `i32`, `i64`, `f32` or `f64` at the end of the prefix, which is the match the regex finds there.
- The symbol table has all eight kinds the extractor fills (functions, globals, tables, memories, types, tags, data, elem). The src/symbols.rs in the repository declares four of them. The other four follow the same add-and-lookup pattern.
- `ValueType` has the wider set of variants parser.rs produces. `ToStr` of the variants that src/symbols.rs does not show is taken to be their WAT keyword.
- `FeaturesDefinition`: `determine_context_with_fallback` is not part of this model. It is taken to be the context of the node under the cursor, with the line fallback of src/definition.rs.
- `SemanticDiagnostics`: the tree walks are generic over the per-node check. The symbol table enters them as a value snapshot of its lookups (`Scope`).
- `Tree.NodeText` of a span outside the text is the empty text. The parser never produces such a span.
- `Text.Lines` models `str::lines`. It splits at `\n`, and a line ended by `\n` loses one trailing `\r`.
- WasmApi.FindSymbolReferences: requires a non-empty word. With an empty word the source's loop slices past the end of the line and panics. Its only caller passes a `$name`.
- WastParser.FindFuncEndLine: requires a non-empty text. The source indexes `source.len() - 1` and panics on an empty text.
- Utils.ApplyTextEdit: requires the two offsets to be ordered and inside the text. `replace_range` panics otherwise.
- WasmApi.IndexDefinitionOf: `parse::<usize>` is modelled with a 64-bit `usize`.
- Signature.DirectHelp: `crate::utils::format_function_signature` is not part of this model, because the src/utils.rs in the repository does not define it. The signature label is taken to be the text of the formatter in src/hover.rs:622-647 (`Hover.FormatFunctionSignature`). `FeaturesSignature.CallHelp` builds its direct-call help with the same member.
- Signature.ParamLabel: the `Display` text of a `ValueType` is not part of this model. It is taken to be `ValueType::to_str` (`Symbols.ToStr`).
- FeaturesSignature.IndexedParamLabel: the `Display` text of a `ValueType` is taken to be `Symbols.ToStr`, as for `Signature.ParamLabel`.
- Completion.PushLocals: the `Display` text of a `ValueType` in the details of parameters, locals and globals is taken to be `Symbols.ToStr`. The same holds for `Completion.PushContextItems`.

## Findings

| source | as written | input that shows it | evidently intended | confidence | as-written member | corrected member |
|---|---|---|---|---|---|---|
| src/utils.rs:615-636 | the new character is the length of the last element of `lines()`, which drops a trailing empty line | inserting `"x\n"` at (0, 0) reports (1, 1) | (1, 0), where the inserted text ends | not executed | Utils.CalculatePositionAfterEdit, Utils.CalculatePositionAfterEditTrailingNewline | Utils.PositionAfterEdit, Utils.PositionAfterEditIsEnd |
| src/wast_parser.rs:209-235 | the paren scan starts at depth 0 from the function's span, so the first `)` that closes a nested list ends it | `(func $f (param i32)\n  nop)`: the scan stops at offset 19 on line 0 | the `)` at offset 26 on line 1 that closes the function | not executed; relies on the `wast` crate placing a function's span at its `func` keyword | WastParser.FindFuncEndLine, WastParser.FindFuncEndLineStopsEarly | WastParser.FuncEndLine, WastParser.FuncEndLineIsMatchingClose |
