# Verification of the knowledge pipeline's algorithms

A Dafny model of the self-contained algorithms of the repository, with proofs of what they promise.
`dafny verify dfyconfig.toml` checks everything.

Each algorithm appears as the code writes it: loops that update variables are methods with loops,
`PermissionResolver` and the push handler are classes. A method is proved against a specification
function or predicate, and the promises are lemmas about that specification.

What a specification shares with the code it describes, such as what a quote, a bracket or a field is, has theorems of
its own with characters, constants and fields written out (`TypeQuotes`, `SqlGrammar`, `JsonReading`, `AssembleFields`
and others), so a change there cannot go unnoticed.

| modules | code | what is proved |
|---|---|---|
| `TypeText`, `TypeLexis`, `TypeGrammar`, `TypeTokens`, `TypeCanonicity`, `TypeShapes`, `TypeSplits`, `TypeTheorems`, `TypeReorder` | union canonicaliser | printed types that differ in the order of union members get one text |
| `TypeQuotes` | the same | the three quotes and the four bracket pairs, character by character |
| `TypeCanonTree`, `TypeCanonStands`, `TypeInjective`, `TypeRecovered`, `TypeCanonShapes`, `TypeBreaks`, `TypeLists`, `TypeComplete` | the same | and only they do: a normalised text determines the type |
| `TypeContexts`, `TypeReplace`, `TypeTails`, `TypeSeparators`, `TypeOrders`, `TypeBounds`, `TypeBoundOrders`, `TypeDefaults`, `TypeBranches`, `TypeWords`, `TypeExamples` | the same | exactly when the order shows after all, in every place of a larger type: before a separator, behind `extends` or `=`, between the two, in a nested conditional type |
| `TypeCanonOk`, `TypeGrowth`, `TypeIdempotence`, `TypeSecondPass`, `TypeConservation` | the same | doing it twice is doing it once exactly without blank brackets; nothing else is changed or lost |
| `StableJson`, `JsonOrder`, `JsonText`, `JsonReading`, `JsonComplete` | canonical JSON | sorted keys; JSON that denotes the value; equal text exactly for structurally equal values |
| `Regions`, `RegionsTokens`, `RegionsTheorems` | generated-region merge | which markers make a region; simultaneous splice, idempotent, human edits kept |
| `Chunker`, `ChunkBudget`, `ChunkBoundaries`, `ChunkSymbols` | token-budgeted chunking | every piece fits, nothing is lost; where the cuts are; which symbols are chunked and what a chunk holds |
| `SqlSplit`, `SqlGrammar` | SQL statement splitter | a semicolon separates exactly when no quote or comment is open; nothing is lost; a grammar of literals, comments and dollar quotes that covers every text |
| `Assemble`, `AssembleGraph`, `AssembleFields` | symbol graph assembly | unique ids, closed graph, exact reverse edges, conservation, what a name means, every field of a symbol |
| `Fusion`, `FusionScores`, `Diversify`, `DiversifyChoices`, `DiversifyCaps` | rank fusion, diversity | dominance; the scores and the top of the list; what each choice is worth; module caps whenever they can be kept |
| `Expansion`, `ExpansionTheorems`, `ExpansionOrder` | context selection | budgets, fairness; the queues and the rounds are one greedy pass in a fixed order |
| `Dedupe`, `Clusters`, `ClustersTheorems`, `ClusterFields` | near-duplicate clusters | a metric; covering and packing; which member leads and what is served |
| `Permissions`, `PermissionAnswers`, `PermissionRuns` | permission cache | what each call answers, refuses and caches; safety of every answer in every run |
| `Webhooks`, `PushAnswers` | push debounce | which pushes count; one timer per key, no push lost, spacing |
| `Iban`, `IbanSwaps`, `Luhn`, `LuhnSchemes` | check digits | the loop is the standard's sum; exactly which errors are caught; the assigned card ranges |
| `Markdown`, `MarkdownLines` | section parsing | a partition of the lines, fences respected; what a line, a fence and a heading are |
| `Strings`, `StringOrder`, `Numbers` | shared | white space, sorting, joining, decimals |

Where the code and its comments disagree, the model follows the code:

- `packages/ir/src/hash.ts:14-16` says that only undefined values are dropped. Assigning to
  `out["__proto__"]` sets a prototype, so that key is dropped too (`JsonComplete.ProtoIsLost`).
- `packages/chunking/src/chunker.ts:306-307` promises a fitting piece for every budget. The floor of
  256 characters breaks it below 74 tokens, and only there (`ChunkBudget.ContractHoldsFrom74`).
- `packages/analyzer-typescript/src/type-text.ts:1-16` promises one order for every union. The grammar's trees
  are types as the code reads them; of those the promise holds, and two texts agree exactly when their trees
  are the same but for the order of members (`TypeComplete.Complete`). Where the code reads a text otherwise
  than TypeScript does, a union in it may show its order:
  - A separator at the end belongs to what stands before it (`type-text.ts:162-169`). After anything but a union
    that is harmless (`TypeSeparators.SeparatorKept`). After a union, two orders agree exactly when the members
    next to the separator normalise alike, wherever the union stands, so also in the braces of an object type
    (`TypeSeparators.LastMemberDecides`): `{m: b|a;}` (`TypeExamples.ObjectTypeShows`).
  - A bound or default has no separator of its own, so `T extends A | B` is read as a union of `T extends A` and
    `B`: two orders agree exactly when their first members normalise alike (`TypeBounds.FirstMemberDecides`,
    `TypeExamples.BoundShows`, `TypeExamples.DefaultShows`). The same holds for every text that binds tighter,
    such as `x is A | B`. Any other bound is put in order (`TypeBounds.BoundCanonicity`).
  - With a default or branches behind a bound, as in `T extends A | B = C`, both decide: the orders agree exactly
    when the first members and the last ones do (`TypeDefaults.BoundWithDefaultDecides`,
    `TypeExamples.BoundWithDefaultShows`).
  - Of a conditional type in the true branch of another, the code takes the inner colon for the outer one
    (`type-text.ts:187-194`). The inner false branch is read as the name of a label and keeps its order
    (`TypeBranches.FalseBranchAsWritten`, `TypeExamples.NestedBranchShows`); of a union in the inner true branch the
    first member decides (`TypeBranches.TrueBranchDecides`).
- `type-text.ts:29-30` says that only the order of members changes. White space alone between brackets
  doubles on every pass (`TypeIdempotence.Idempotence`); a member that ends in `=`, moved before
  a `>`, becomes an arrow (`TypeSecondPass.EqualsShows`); and a separator that sorting moves into a union makes
  a list for the second pass, which drops a bar (`TypeSecondPass.CutUnionShows`).
- `apps/api/src/auth.ts:147-150` says that a wildcard revocation denies everything. It denies the
  organisation's present repositories (`PermissionRuns.WildcardEmpties`), so one that has left the
  organisation stays permitted within the cache lifetime (`PermissionRuns.WildcardMissesDepartedRepo`).
- The cached entry holds the clearance it was loaded with (`apps/api/src/auth.ts:124,141`), so a lowered clearance
  stays in force for the cache lifetime (`PermissionRuns.LoweredClearanceStays`).
- `packages/chunking/src/dedupe.ts:80-83` promises a representative from a module with a package name.
  `pickRepresentative` (144-150) looks at whether a chunk is generated, at its length and at its id, and
  nowhere at a package name (`Clusters.Representative`).

## Model

| member | source | states |
|---|---|---|
| TypeTheorems.Canonicity | packages/analyzer-typescript/src/type-text.ts:37-89 | two printings of one type that differ in the order of union members at any depth, and in the spacing of members, normalise to the same text |
| TypeComplete.Complete | packages/analyzer-typescript/src/type-text.ts:37-89 | and types of the grammar that differ otherwise do not: one normalised text if and only if the same type up to the order and the spacing of union members |
| TypeTheorems.NormalisesText | packages/analyzer-typescript/src/type-text.ts:37-89 | every printed tree of the grammar is read back as that tree: the result is the tree printed with sorted unions |
| TypeTheorems.Normalises | packages/analyzer-typescript/src/type-text.ts:41-89 | the same for the recursive step, by precedence level |
| TypeTheorems.KeepPadded | packages/analyzer-typescript/src/type-text.ts:179-184 | a fragment keeps its surrounding white space and has its body normalised |
| TypeGrammar.SameExpect | packages/analyzer-typescript/src/type-text.ts:71-79 | the expected text does not depend on the order of union members |
| TypeReorder.AnyOrderNormalisesAlike | packages/analyzer-typescript/src/type-text.ts:71-79 | every rearrangement of a union without a separator at a member's end, spaced in any way, with or without a leading bar, is again in the grammar and normalises to the same text |
| TypeInjective.ShowInjective | packages/analyzer-typescript/src/type-text.ts:226-288 | a well-bracketed text has one reading as tokens |
| TypeInjective.CutUnique | packages/analyzer-typescript/src/type-text.ts:226-247 | and one cut at its first top-level separator |
| TypeRecovered.UnionRecovered | packages/analyzer-typescript/src/type-text.ts:71-79 | splitting a normalised union gives back its members' normalised texts |
| TypeBreaks.CanonCuts | packages/analyzer-typescript/src/type-text.ts:162-169 | in the normalised text of anything but a list, a separator stands at the end or before a bar, where sorting moved it |
| TypeContexts.Everywhere | packages/analyzer-typescript/src/type-text.ts:37-89 | two types in one place of a larger type, at any depth: the larger texts normalise alike if and only if the two do |
| TypeReplace.ContextReplaced | packages/analyzer-typescript/src/type-text.ts:37-89 | what fits a place in a larger type may be replaced there by any type that reads as well, and the whole is again in the grammar |
| TypeTails.TailOk | packages/analyzer-typescript/src/type-text.ts:162-169 | a separator, default or other text behind a type is read as part of the type's last text, and that tree is in the grammar |
| TypeSeparators.SeparatorKept | packages/analyzer-typescript/src/type-text.ts:162-169 | when no union stands at the right end, a separator after a type is copied behind the type's normalised text; only the padding of a last intersection member moves |
| TypeSeparators.SeparatorCopied | packages/analyzer-typescript/src/type-text.ts:162-169 | without white space before it, the separator is all that is added |
| TypeSeparators.LastMemberDecides | packages/analyzer-typescript/src/type-text.ts:71-79 | in every place of a larger type: when a union stands at the right end, two printings with a separator or other text after them, and with the same white space between, agree if and only if the members next to that text normalise alike |
| TypeOrders.AllOrdersAgree | packages/analyzer-typescript/src/type-text.ts:71-79 | in every place: all orders of that union with the same white space before the separator agree if and only if all its members normalise alike |
| TypeExamples.TrailingSeparatorShows | packages/analyzer-typescript/src/type-text.ts:162-169 | the two orders of the union of `a` and `b`, with a semicolon after it, normalise to different texts |
| TypeExamples.ObjectTypeShows | packages/analyzer-typescript/src/type-text.ts:162-169 | and so do they as the type of a member in the braces of an object type |
| TypeBounds.BoundCanonicity | packages/analyzer-typescript/src/type-text.ts:37-89 | behind a head such as `T extends ` or `T = `, a type that is no union is read as the same type with the head in its first text, so its unions are put in order |
| TypeBounds.FirstMemberDecides | packages/analyzer-typescript/src/type-text.ts:71-79 | in every place of a larger type: two orders of a union behind a head agree if and only if the members written first normalise alike |
| TypeBoundOrders.AllBoundOrdersAgree | packages/analyzer-typescript/src/type-text.ts:71-79 | in every place: all orders of it agree if and only if all its members normalise alike |
| TypeBoundOrders.BarKeepsApart | packages/analyzer-typescript/src/type-text.ts:221-223 | with a bar before the first member every order gives the same text |
| TypeDefaults.BoundWithDefaultDecides | packages/analyzer-typescript/src/type-text.ts:71-79 | in every place: two orders of a bound with a default or with branches behind it agree if and only if the first members do and the last members do |
| TypeExamples.BoundShows | packages/analyzer-typescript/src/type-text.ts:71-79 | the two orders of the union of `a` and `b` behind `t extends` normalise to different texts |
| TypeExamples.DefaultShows | packages/analyzer-typescript/src/type-text.ts:71-79 | and so do the two orders behind `t =` |
| TypeExamples.BoundWithDefaultShows | packages/analyzer-typescript/src/type-text.ts:71-79 | and so do two orders with the same first member before a default |
| TypeBranches.NestedReads | packages/analyzer-typescript/src/type-text.ts:187-194 | a conditional type in a true branch is printed by another tree of the grammar, which takes the inner colon for the outer one |
| TypeBranches.FalseBranchAsWritten | packages/analyzer-typescript/src/type-text.ts:187-194 | two printings of the inner false branch agree if and only if they are written alike outside brackets and agree inside them |
| TypeBranches.TrueBranchDecides | packages/analyzer-typescript/src/type-text.ts:187-194 | two orders of a union in the inner true branch agree if and only if the members written first normalise alike |
| TypeExamples.NestedBranchShows | packages/analyzer-typescript/src/type-text.ts:187-194 | both orders of a union in an inner false branch come out as written |
| TypeIdempotence.Idempotence | packages/analyzer-typescript/src/type-text.ts:37-89 | normalising twice is normalising once if and only if no bracket holds white space alone; each pass adds twice as much as there is of it |
| TypeCanonStands.CanonStands | packages/analyzer-typescript/src/type-text.ts:41-89 | the normalised text is the printed text of the type's canonical tree |
| TypeCanonOk.CanonOk | packages/analyzer-typescript/src/type-text.ts:41-89 | that tree is in the grammar when sorting moves no separator into a union |
| TypeGrowth.Grows | packages/analyzer-typescript/src/type-text.ts:108-117 | how much longer the next pass makes it |
| TypeIdempotence.BlankBracketGrows | packages/analyzer-typescript/src/type-text.ts:108-117 | white space alone between brackets is doubled |
| TypeSecondPass.EqualsShows | packages/analyzer-typescript/src/type-text.ts:97-106 | a text whose first pass moves a member that ends in `=` before a `>` and whose second pass changes it again |
| TypeSecondPass.CutUnionShows | packages/analyzer-typescript/src/type-text.ts:132-171 | a text whose first pass moves a separator into a union and whose second pass drops a bar |
| TypeConservation.Conserves | packages/analyzer-typescript/src/type-text.ts:37-123 | on every text at all, each character other than white space, bar and ampersand occurs as often after as before |
| TypeSplits.MembersFound | packages/analyzer-typescript/src/type-text.ts:196-224 | splitting finds the printed members of a union or intersection, trimmed, in order |
| TypeCanonicity.NotConditional | packages/analyzer-typescript/src/type-text.ts:187-194 | text without a colon at the top level is not read as a conditional type |
| TypeTheorems.LabelNotConditional | packages/analyzer-typescript/src/type-text.ts:186-194 | a labelled member, optional or not, is not read as a conditional type |
| TypeTheorems.ConditionalFound | packages/analyzer-typescript/src/type-text.ts:187-194 | a conditional type is cut at its first question mark and the colon that follows |
| TypeSplits.ListFound | packages/analyzer-typescript/src/type-text.ts:132-161 | a printed list is split into its parts and its separators, both exactly as written |
| TypeSplits.ListRead | packages/analyzer-typescript/src/type-text.ts:132-171 | and a separator at the end, with the white space around it, stays with the last part |
| TypeText.SplitListingRejoins | packages/analyzer-typescript/src/type-text.ts:132-171 | parts and separators put together are the text, and the parts of a real list are shorter than it, so the recursion ends |
| TypeLexis.FindSkips | packages/analyzer-typescript/src/type-text.ts:226-247 | a top-level search passes over every well-bracketed token that does not match |
| TypeLexis.CloseSkips | packages/analyzer-typescript/src/type-text.ts:265-288 | looking for a closing bracket passes over everything well bracketed inside |
| TypeLexis.DescendsAll | packages/analyzer-typescript/src/type-text.ts:91-123 | descending rewrites the inside of every bracketed region and copies the rest |
| TypeText.EndOfString | packages/analyzer-typescript/src/type-text.ts:253-263 | the loop finds the end of a quotation, backslash escapes skipped |
| TypeText.IndexOfTop | packages/analyzer-typescript/src/type-text.ts:227-247 | the loop finds the first occurrence at bracket depth zero, or -1 |
| TypeText.Matching | packages/analyzer-typescript/src/type-text.ts:265-288 | the loop finds the bracket that closes the given one |
| TypeText.SplitOn | packages/analyzer-typescript/src/type-text.ts:196-224 | the loop computes the trimmed nonempty pieces between top-level separators |
| TypeText.SplitList | packages/analyzer-typescript/src/type-text.ts:132-171 | the loop computes the listing, a blank last part glued |
| TypeText.Descend | packages/analyzer-typescript/src/type-text.ts:92-123 | the loop computes the text with the inside of each region rewritten |
| TypeQuotes.QuotationKept | packages/analyzer-typescript/src/type-text.ts:249-263 | any value between two double quotes, single quotes or backquotes is copied as it stands |
| TypeQuotes.QuotationsSorted | packages/analyzer-typescript/src/type-text.ts:71-79 | a union of such values comes out in code-unit order, and no value is taken apart, whatever separators or brackets stand in it |
| TypeQuotes.MembersSorted | packages/analyzer-typescript/src/type-text.ts:71-79 | any members between bars come out normalised, in code-unit order, with a bar between spaces |
| TypeQuotes.QuotationIsMember | packages/analyzer-typescript/src/type-text.ts:196-224 | a value between quotes is one member |
| TypeQuotes.BracketedIsMember | packages/analyzer-typescript/src/type-text.ts:33-34 | a type between braces, parentheses, square or angle brackets is one member, normalised inside |
| TypeQuotes.BracketsSort | packages/analyzer-typescript/src/type-text.ts:33-34 | between any of the four pairs a union of two words is put in order |
| TypeQuotes.WordKept | packages/analyzer-typescript/src/type-text.ts:91-123 | text without quotes, brackets, separators and the other marks of the code is copied |
| TypeQuotes.BlankKept | packages/analyzer-typescript/src/type-text.ts:37-39 | so is white space alone |
| StringOrder.WhiteSpaceIs | packages/analyzer-typescript/src/type-text.ts:38 | what the trimming takes for white space, by code unit |
| JsonComplete.CompleteInvariant | packages/ir/src/hash.ts:18-32 | two values have the same text if and only if they are structurally equal, key order, undefined-valued keys and the key `__proto__` aside |
| JsonComplete.ProtoIsLost | packages/ir/src/hash.ts:26-30 | an object with only the key `__proto__` has the text of the empty object |
| JsonText.TextInjective | packages/ir/src/hash.ts:19 | the printed text determines the value, an undefined element reading as null |
| JsonComplete.AlikeSorts | packages/ir/src/hash.ts:22-32 | structurally equal values sort to values with the same text |
| JsonComplete.SortsAlike | packages/ir/src/hash.ts:22-32 | values that sort to the same text are structurally equal |
| StableJson.SortObject | packages/ir/src/hash.ts:25-31 | the loop fills the sorted object key by key |
| StableJson.FillEnumerates | packages/ir/src/hash.ts:26-30 | the sorted object lists array-index keys first and ascending, as a JavaScript object does |
| JsonOrder.KeysInOrder | packages/ir/src/hash.ts:25-31 | the sorted object lists its array-index keys first, by number, and then the other keys in code-unit order |
| JsonOrder.FieldsKept | packages/ir/src/hash.ts:26-30 | it has exactly the keys with a value, `__proto__` aside, each with its sorted value |
| JsonOrder.IndexIs | packages/ir/src/hash.ts:26 | an array index is the decimal numeral of a number below 2^32 - 1 |
| JsonReading.TextDenotes | packages/ir/src/hash.ts:18-20 | the printed text, read by the grammar of RFC 8259, is the value |
| JsonReading.EscapeShape | packages/ir/src/hash.ts:19 | only quotes, backslashes and control characters are escaped, by two characters or six |
| StringOrder.OrderIs | packages/ir/src/hash.ts:27 | a string comes first that is the beginning of the other or holds the smaller code unit at the first difference |
| Strings.Sort | packages/ir/src/hash.ts:27 | sorting gives an ascending arrangement of the same strings |
| Strings.SortedUnique | packages/ir/src/hash.ts:27 | there is only one such arrangement |
| RegionsTheorems.MergeIsSplice | packages/docgen/src/regions.ts:90-129 | back-to-front replacement is a simultaneous splice of whole regions; other text stays, but for white space at the end when something is appended |
| RegionsTheorems.MergeIdempotent | packages/docgen/src/regions.ts:90-129 | merging the same contents twice is merging them once |
| RegionsTheorems.HumanEditsSurvive | packages/docgen/src/regions.ts:103-118 | without force an edited region comes out unchanged; an unedited one holds its new content between two newlines, without white space at the content's end, and the hash of that content |
| RegionsTheorems.NewsAreAppended | packages/docgen/src/regions.ts:120-124 | after the old regions stands one for each content that had none, in the order of the map: two newlines, and the content between newlines, with its hash |
| RegionsTheorems.FreshIsUnedited | packages/docgen/src/regions.ts:63-70 | a freshly rendered region never reads as edited |
| RegionsTokens.HashIs | packages/docgen/src/regions.ts:147-149 | a hash is that of the text without white space around it |
| RegionsTokens.TrimEndIs | packages/docgen/src/regions.ts:67 | trimming takes all white space at the end and nothing else |
| RegionsTheorems.ParsesBack | packages/docgen/src/regions.ts:35-61 | a document of matched regions parses to exactly those regions at their offsets |
| Regions.RegionsAccounted | packages/docgen/src/regions.ts:98-128 | which id is in which list, and in which order: replaced, preserved and orphaned list each region once under its fate; appended are exactly the generated ids that no region has, once each |
| RegionsTokens.FateIs | packages/docgen/src/regions.ts:103-126 | orphaned, preserved or replaced: by new content, human edit and force alone, and alike in the lists and in the document |
| RegionsTokens.GetIs | packages/docgen/src/regions.ts:105 | the new content of an id |
| Regions.ParseRegions | packages/docgen/src/regions.ts:35-61 | the loop finds each start marker with the first end marker of its id after it |
| RegionsTokens.RegionsAre | packages/docgen/src/regions.ts:35-61 | of any document, nested and crossing markers included: a region for exactly those start markers that have an end marker of their id behind them, up to the first one, from front to back; edited when the recorded hash is not that of the content |
| Regions.SpliceRegions | packages/docgen/src/regions.ts:102-118 | the first loop's document and its lists of replaced and preserved ids |
| Regions.AppendGenerated | packages/docgen/src/regions.ts:120-124 | the second loop's document and its list of appended ids |
| Regions.MergeRegions | packages/docgen/src/regions.ts:90-129 | the merged document and all four lists |
| ChunkBudget.ContractHoldsFrom74 | packages/chunking/src/chunker.ts:309-324 | every piece of every text fits the budget if and only if the budget is at least 74 |
| ChunkBudget.ChunksFit | packages/chunking/src/chunker.ts:76-149 | from the least limit on, which depends on the digits of the part numbers, every chunk fits, split or not, preamble and part marker included |
| ChunkBudget.LeastChunkLimit | packages/chunking/src/chunker.ts:76-149 | for symbols of fewer than 10^d parts every chunk fits if and only if the limit is at least 2 * ceil((542 + 4d) / 7) - 1, one less when that division leaves one: 155 for d = 1, 159 for d = 4, 169 for d = 13 |
| ChunkBudget.LeastLimitIs | packages/chunking/src/chunker.ts:120-149 | exactly from that limit on the fullest part fits |
| ChunkBudget.BudgetPiecesCover | packages/chunking/src/chunker.ts:309-392 | the pieces fall into groups, one per run of lines, that restore the runs; the runs, overlaps aside, are the text's lines in order |
| ChunkBudget.StatementRunsCover | packages/chunking/src/chunker.ts:355-392 | each run is a tail of the run before it followed by the next lines, none left out |
| ChunkBudget.OverlapIsEnough | packages/chunking/src/chunker.ts:379-384 | the overlap is the shortest tail of a run with the wanted tokens, or the whole run |
| ChunkBudget.RefineRejoins | packages/chunking/src/chunker.ts:312-321 | the pieces of an oversized piece restore it |
| Chunker.LinePiecesRejoin | packages/chunking/src/chunker.ts:326-344 | the pieces joined by newlines are the text |
| Chunker.WindowsTile | packages/chunking/src/chunker.ts:346-353 | the windows laid end to end are the text, none longer than the window |
| ChunkBudget.FloorBreaksSmallBudget | packages/chunking/src/chunker.ts:346-353 | below 74 tokens a line of 256 characters comes out too big |
| ChunkBudget.SplitToBudget | packages/chunking/src/chunker.ts:309-324 | the nested loops compute the refined pieces |
| ChunkBudget.ChunkSymbols | packages/chunking/src/chunker.ts:76-149 | the loop emits the chunks of every symbol that is not skipped |
| ChunkSymbols.NoChunks | packages/chunking/src/chunker.ts:81-87 | a restricted symbol, an enum member, and a field or property without a doc comment have no chunk |
| ChunkSymbols.SomeChunk | packages/chunking/src/chunker.ts:80-148 | every other symbol has at least one |
| ChunkSymbols.OthersLeaveNoTrace | packages/chunking/src/chunker.ts:80-148 | a list is chunked as the list without the symbols that have none |
| ChunkSymbols.FullTextIs | packages/chunking/src/chunker.ts:93-94 | the text of a symbol: header, facts and source, a blank line between |
| ChunkSymbols.DivideKeeps | packages/chunking/src/chunker.ts:113-128 | what repeats and what is split are together that text; what repeats fits half the limit |
| ChunkSymbols.ChunksHold | packages/chunking/src/chunker.ts:96-145 | a fitting symbol is one chunk with its whole text; any other has one chunk per piece, with the repeated part, the part line and the piece |
| ChunkSymbols.EstimateIsCeiling | packages/chunking/src/chunker.ts:394-403 | the estimate is the least number of tokens of three and a half characters that holds the text |
| ChunkBoundaries.CutAtStatements | packages/chunking/src/chunker.ts:355-392 | the text is cut after the first line, each time, that ends a statement outside every bracket once the run holds enough tokens, and nowhere else |
| ChunkBoundaries.CutAtLines | packages/chunking/src/chunker.ts:326-344 | the lines of an oversized piece are put together as long as they fit |
| ChunkBoundaries.DepthIs | packages/chunking/src/chunker.ts:370-373 | the depth grows by the opening brackets of a line and falls by the closing ones |
| ChunkBoundaries.EndsAre | packages/chunking/src/chunker.ts:376 | a line ends a statement that has a semicolon or a closing brace before the white space at its end |
| ChunkBoundaries.LinesAre | packages/chunking/src/chunker.ts:360 | the lines hold no line feed and are the text with line feeds between them |
| ChunkBoundaries.WindowIs | packages/chunking/src/chunker.ts:347-349 | the size of a window |
| ChunkBoundaries.WindowAt | packages/chunking/src/chunker.ts:350-352 | the windows are the consecutive slices of that size, the last one possibly shorter |
| Chunker.SplitAtStatementBoundaries | packages/chunking/src/chunker.ts:355-392 | the loop with bracket depth and overlap computes the runs |
| Chunker.SplitAtLineBoundaries | packages/chunking/src/chunker.ts:326-344 | the loop computes the runs of lines |
| Chunker.SplitByCharacterWindow | packages/chunking/src/chunker.ts:346-353 | the loop computes the windows |
| SqlSplit.SeparatesExactly | packages/db/src/migrate.ts:132-214 | a semicolon after a text separates it from every other text if and only if its scan ends outside every comment, quote and dollar quote |
| SqlSplit.Homomorphism | packages/db/src/migrate.ts:132-214 | then the statements of the whole are those of the two sides |
| SqlSplit.OpenTextSwallows | packages/db/src/migrate.ts:132-214 | a text that ends inside a comment or quote swallows what follows |
| SqlSplit.NothingLost | packages/db/src/migrate.ts:195-213 | the pieces with the semicolons put back are the text; the statements are the text without base-mode semicolons, up to white space |
| SqlSplit.DollarBlockIsWhole | packages/db/src/migrate.ts:128-131 | a dollar-quoted block is one statement whatever it holds |
| SqlSplit.SplitStatements | packages/db/src/migrate.ts:132-214 | the loop with its four mode variables computes the trimmed nonempty pieces between base-mode semicolons |
| SqlGrammar.EveryTextParses | packages/db/src/migrate.ts:132-214 | every text is a sequence of semicolons, plain characters, literals, line and block comments and dollar quotes, the last one possibly not closed |
| SqlGrammar.StatementsAre | packages/db/src/migrate.ts:132-214 | the statements of such a text are the runs between its semicolons, trimmed, blank ones left out |
| SqlGrammar.SeparatesWhenClosed | packages/db/src/migrate.ts:132-214 | a semicolon after a text separates it from every other if and only if its last element is closed |
| SqlGrammar.LiteralIsOne | packages/db/src/migrate.ts:167-175 | a value between single quotes, its own quotes doubled, is one statement |
| SqlGrammar.RemarkIsOne | packages/db/src/migrate.ts:144-148 | so is a comment from two dashes to the end of its line |
| SqlGrammar.BlockIsOne | packages/db/src/migrate.ts:149-157 | and a comment from slash and star to the first star and slash, which may share the opening star |
| SqlSplit.ReadOne | packages/db/src/migrate.ts:144-194 | one step of the automaton, lookahead and jumps included |
| AssembleGraph.AssembleRepository | packages/ir/src/assemble.ts:44-236 | ids are unique, edges and parents stay in the graph, `usedBy` is the sorted inverse of calls and references, module totals and drop notes add up to the symbols supplied |
| AssembleFields.SymbolIs | packages/ir/src/assemble.ts:78-181 | each symbol of the graph is a supplied one, under the id of its key, language, kind, qualified name and overload; calls, implemented, extended and referenced names resolve into their own lists and the rest are reported with their kind |
| AssembleFields.StagedAt | packages/ir/src/assemble.ts:50-97 | symbols are staged module after module in the order supplied |
| AssembleFields.CountIs | packages/ir/src/assemble.ts:114-127 | the count of unresolved names is what the symbols report beyond what they came with |
| AssembleGraph.KeptIsClosed | packages/ir/src/assemble.ts:111-127 | every resolved edge and parent names a retained symbol |
| AssembleGraph.ResolveMeans | packages/ir/src/assemble.ts:89-95 | a name means the last symbol of its own module with it, else the first of any module |
| AssembleGraph.DroppedIffTwin | packages/ir/src/assemble.ts:183-204 | with injective ids a symbol is dropped exactly when an earlier one of its module has the same identity |
| AssembleGraph.OneSymbolPerId | packages/ir/src/assemble.ts:194-206 | retained ids are distinct and are all the ids supplied |
| AssembleGraph.FirstWins | packages/ir/src/assemble.ts:192-204 | a retained symbol stands first among its namesakes |
| AssembleGraph.RetainedPlusDropped | packages/ir/src/assemble.ts:196-204 | per module, retained and dropped symbols are the resolved ones |
| AssembleGraph.ModuleTotal | packages/ir/src/assemble.ts:220-233 | with distinct module ids they are the symbols the module supplied |
| AssembleGraph.WeakestDepth | packages/ir/src/assemble.ts:243-248 | the depth is that of some symbol and no deeper than any |
| Assemble.StageAndIndex | packages/ir/src/assemble.ts:50-97 | the first pass stages every symbol and builds the name index |
| Assemble.ResolveList | packages/ir/src/assemble.ts:114-127 | resolved ids in order, the other names reported and counted |
| Assemble.NamesAccounted | packages/ir/src/assemble.ts:115-127 | every name is either resolved or reported |
| Assemble.ResolveAll | packages/ir/src/assemble.ts:99-181 | the second pass over all staged symbols |
| Assemble.Deduplicate | packages/ir/src/assemble.ts:194-206 | the loop keeps the first symbol per id and counts drops per module |
| Assemble.LinkUsedBy | packages/ir/src/assemble.ts:208-218 | in-place reverse edges list exactly the users, once each, in order |
| AssembleGraph.FinishModules | packages/ir/src/assemble.ts:220-233 | each module's count, depth, languages and drop note |
| Fusion.FusionRespectsDominance | packages/retrieval/src/fusion.ts:30-48 | if every arm that lists b lists a earlier, a precedes b in the fused order and no limit keeps b without a |
| Fusion.SortOrders | packages/retrieval/src/fusion.ts:44-45 | higher scores come first, equal scores keep their order |
| Fusion.ReciprocalRankFusion | packages/retrieval/src/fusion.ts:30-48 | the accumulating loops compute each chunk's score and the ranked list |
| FusionScores.ScoreIs | packages/retrieval/src/fusion.ts:37-42 | a score is the sum of weight over constant plus rank, over all arms and mentions |
| FusionScores.FusedAre | packages/retrieval/src/fusion.ts:44-47 | each returned chunk is listed by an arm, stands once with its total, numbered from one; scores do not rise |
| FusionScores.TopScores | packages/retrieval/src/fusion.ts:44-47 | a listed chunk is missing only when the list is full of chunks that score as much or more |
| Diversify.Select | packages/retrieval/src/fusion.ts:68-120 | each choice is the open chunk with the highest score, the earliest of equals; when no module is open, the earliest left |
| DiversifyChoices.ChoiceIs | packages/retrieval/src/fusion.ts:82-117 | while a chunk has room under its cap, the chosen one has room, is worth the most, and stands first among equals; when none has, the first one left is chosen |
| DiversifyChoices.WorthIs | packages/retrieval/src/fusion.ts:93-96 | what a chunk is worth: relevance, lowered for generated code, against the likeness to the most similar chosen chunk |
| DiversifyChoices.SameKey | packages/retrieval/src/fusion.ts:89 | which chunks share a cap |
| Diversify.FindBest | packages/retrieval/src/fusion.ts:83-102 | the inner loop finds that chunk or reports that all are capped |
| Diversify.FindMaxSimilarity | packages/retrieval/src/fusion.ts:127-140 | the largest similarity to a selected chunk, at least zero |
| DiversifyCaps.CapsHold | packages/retrieval/src/fusion.ts:78-119 | min(limit, n) different inputs; no module over its cap when the caps allow enough chunks, else a capped part of exactly what they allow and then the rest in input order |
| DiversifyCaps.OutputKeepsCaps | packages/retrieval/src/fusion.ts:78-119 | the returned chunks: their number, and no module over its cap among all of them or among the first ones that the caps allow |
| DiversifyCaps.OpenChoicesFit | packages/retrieval/src/fusion.ts:104-111 | choices stay within what the caps allow while a module is open, and have used it up when none is |
| ExpansionTheorems.ExpansionIsBounded | packages/retrieval/src/expansion.ts:67-156 | the token share is kept, no seed and no symbol is served twice, each seed gets at most its allowance and at most one per round |
| ExpansionTheorems.TurnIsUsed | packages/retrieval/src/expansion.ts:110-150 | a neighbour whose turn came is present at the end or does not fit what is left |
| ExpansionOrder.RoundsTake | packages/retrieval/src/expansion.ts:110-151 | serving in rounds is one greedy pass over the first neighbour of every queue, then the second of every queue, and so on: present ones are passed over, those that do not fit are counted, the others served |
| ExpansionOrder.QueueIs | packages/retrieval/src/expansion.ts:88-106 | a queue holds the wanted neighbours by place of the relation, then centrality, then as listed; one is missing only when the queue is full of neighbours that come first |
| ExpansionOrder.DropsAre | packages/retrieval/src/expansion.ts:90-100 | the filter counts, for every seed, the neighbours that are there already and the others that are too central |
| ExpansionOrder.TextIs | packages/retrieval/src/expansion.ts:162-178 | the lines of a rendered neighbour |
| ExpansionOrder.KeptAre | packages/retrieval/src/expansion.ts:191-204 | the primary chunks kept are those that fit in turn, and the first in any case |
| ExpansionOrder.ShareIs | packages/retrieval/src/expansion.ts:72 | a share of the budget is rounded down |
| ExpansionTheorems.ExpandWithBudget | packages/retrieval/src/expansion.ts:67-156 | the served chunks, tokens and drop counts after whole rounds, ended by the budget or by empty queues |
| ExpansionTheorems.NeighboursAccounted | packages/retrieval/src/expansion.ts:88-101 | every neighbour is wanted, already there or too central |
| Expansion.ServeRounds | packages/retrieval/src/expansion.ts:110-151 | after r full rounds each queue has advanced min(r, its length) |
| Expansion.SortByRank | packages/retrieval/src/expansion.ts:101-105 | candidates by relation priority, then by centrality |
| Expansion.QueueOf | packages/retrieval/src/expansion.ts:88-106 | at most the allowance, ranked, no seed and nothing too central |
| ExpansionTheorems.PrimaryFits | packages/retrieval/src/expansion.ts:187-207 | an order-preserving partition whose kept part fits unless the first chunk alone does not, and then is that chunk alone |
| ExpansionTheorems.FitPrimaryToBudget | packages/retrieval/src/expansion.ts:187-207 | the loop computes that partition |
| ExpansionTheorems.ContextFits | packages/retrieval/src/expansion.ts:72-207 | both shares together stay within the whole budget unless a single oversized first chunk is kept |
| ClustersTheorems.CoveringAndPacking | packages/chunking/src/dedupe.ts:97-114 | members within the threshold of their leader and twice it of each other, leaders further apart |
| ClustersTheorems.EveryChunkIsGrouped | packages/chunking/src/dedupe.ts:97-114 | each eligible chunk is in a group |
| ClustersTheorems.GroupsAreDisjoint | packages/chunking/src/dedupe.ts:95-110 | groups share no chunk and list none twice |
| ClustersTheorems.OneRepresentativeEach | packages/chunking/src/dedupe.ts:114-139 | of each cluster exactly the preferred member is served |
| ClustersTheorems.AssignedTo | packages/chunking/src/dedupe.ts:125 | a member is assigned its own cluster's id |
| ClusterFields.ClustersAre | packages/chunking/src/dedupe.ts:97-133 | the clusters are those of the groups with two members or more, in their order; each lists its members in order, their modules by first occurrence, and the member that leads |
| ClusterFields.RepresentativeLeads | packages/chunking/src/dedupe.ts:144-150 | the representative: written by hand before generated, then more tokens, then the smaller id, the first of equals |
| ClusterFields.ServedAre | packages/chunking/src/dedupe.ts:135-139 | served are the leading member of each cluster and every supplied chunk that is in none |
| Dedupe.DistanceIsMetric | packages/chunking/src/dedupe.ts:44-52 | zero only for equal fingerprints, symmetric, triangle inequality |
| Dedupe.DistanceCounts | packages/chunking/src/dedupe.ts:44-52 | the number of places where the bits differ: the last one and those before it |
| Dedupe.HammingDistance | packages/chunking/src/dedupe.ts:44-52 | the shifting loop counts the differing bits |
| Clusters.ClusterChunks | packages/chunking/src/dedupe.ts:85-142 | clusters, assignments and representatives of the greedy groups |
| Clusters.GatherMembers | packages/chunking/src/dedupe.ts:100-110 | the inner loop gathers the unseen chunks within the threshold |
| Clusters.Representative | packages/chunking/src/dedupe.ts:144-150 | a member that no member is preferred to |
| PermissionRuns.NothingRevokedIsPermitted | apps/api/src/auth.ts:117-128 | in every run, while grants stay inside the organisation, no answer holds a repository revoked at that moment, and a wildcard leaves nothing |
| PermissionRuns.AnswersArePastGrants | apps/api/src/auth.ts:88-128 | in every run an answer is the grants of one moment, minus current denials, with the clearance the same principal asked with then: within the cache lifetime the moment the entry was loaded; otherwise, with a readable database, the present one; else the entry's, until the hard expiry |
| PermissionRuns.LoweredClearanceStays | apps/api/src/auth.ts:95-124 | a run in which a clearance is lowered and the next answer, within the cache lifetime, still carries the old one |
| PermissionRuns.WildcardEmpties | apps/api/src/auth.ts:147-169 | a wildcard empties an answer if and only if the granted repositories are the organisation's present ones |
| PermissionRuns.WildcardMissesDepartedRepo | apps/api/src/auth.ts:95-128 | a run in which a wildcard is active and the answer still holds a repository that has left the organisation |
| PermissionRuns.RunsKeepCache | apps/api/src/auth.ts:60-115 | every cache entry was loaded by an earlier internal call of a principal with its key, from the database as it was then, and no event since has touched it |
| PermissionRuns.ShareAKey | apps/api/src/auth.ts:91 | which principals share a cache key: equal ones, and those whose organisation's id runs on past a colon into the front of the other's id, so the run theorems ask for organisation ids without colons |
| Permissions.PermissionResolver.Resolve | apps/api/src/auth.ts:70-128 | the new cache and the answer of one call |
| PermissionAnswers.ExternalAnswer | apps/api/src/auth.ts:76-86 | the external corpus: public clearance, no repository, the cache untouched |
| PermissionAnswers.WhenRefused | apps/api/src/auth.ts:95-118 | access is refused exactly when no fresh entry may be used, the grants cannot be read and no entry is within the hard expiry; the call fails exactly when only the revocations cannot be read |
| PermissionAnswers.WhatIsAnswered | apps/api/src/auth.ts:117-127 | the answer names the repositories of the entry or of the database that are not denied, and the clearance of the same origin |
| PermissionAnswers.WhatIsCached | apps/api/src/auth.ts:99-101 | the cache changes exactly when the database is asked and answers, and only in the principal's entry |
| PermissionAnswers.DeniedAre | apps/api/src/auth.ts:151-169 | denied are the repositories that an active revocation names, or with a wildcard all of the organisation's |
| Permissions.PermissionResolver.Load | apps/api/src/auth.ts:130-145 | the grants with their time stamps, or failure |
| Permissions.PermissionResolver.Invalidate | apps/api/src/auth.ts:172-174 | exactly one key leaves the cache |
| Permissions.PermissionResolver.InvalidateAll | apps/api/src/auth.ts:176-178 | the cache is empty |
| Webhooks.EveryRunHolds | apps/api/src/routes/webhooks.ts:146-205 | in every run, timely or not: live timers and pending keys one to one, no push lost, runs of one key a window apart |
| Webhooks.QuietMeansOneRun | apps/api/src/routes/webhooks.ts:146-205 | when due timers have run, a key's timer has run since its last push exactly if it was quiet for a window, and then once |
| Webhooks.OneLiveTimer | apps/api/src/routes/webhooks.ts:178-203 | two live timers never belong to one key |
| Webhooks.RunIsLate | apps/api/src/routes/webhooks.ts:182-200 | no timer runs before its window is over |
| Webhooks.PushHandler.HandlePush | apps/api/src/routes/webhooks.ts:149-206 | the reply and the new pending map and timers; an ignored push changes nothing |
| Webhooks.PushHandler.RunTimer | apps/api/src/routes/webhooks.ts:182-183 | a timer that runs is spent and its key forgotten |
| PushAnswers.ReplyIs | apps/api/src/routes/webhooks.ts:154-178 | accepted are the pushes to main, master or a tag with a remote and a commit that is not all zeros, of a registered repository; for each other push, which reply it gets |
| PushAnswers.AcceptedPush | apps/api/src/routes/webhooks.ts:178-203 | an accepted push leaves its commit pending with one new timer a minute ahead, stops the old one, and touches nothing else |
| PushAnswers.IgnoredPush | apps/api/src/routes/webhooks.ts:159-176 | any other push changes nothing |
| PushAnswers.TimerRuns | apps/api/src/routes/webhooks.ts:182-200 | a live timer can run from its due time on and not before; its key is then no longer pending, other keys and timers are as they were |
| Webhooks.KeyIsRepoAndRef | apps/api/src/routes/webhooks.ts:178 | a key stands for one repository and one ref |
| Iban.SubstitutionCaught | packages/scanner/src/scanner.ts:133-143 | no two accepted strings of any length differ in one character of the same kind |
| Iban.SwapChangesRemainder | packages/scanner/src/scanner.ts:133-143 | a swap of neighbours in the stream keeps the remainder if and only if they are equal, or are B and 1, M and 2, or X and 3 |
| IbanSwaps.SwapDecides | packages/scanner/src/scanner.ts:133-143 | an accepted value with any two neighbours exchanged is accepted again if and only if the exchange is missed: such a pair, or the fourth and fifth characters under the next two conditions |
| IbanSwaps.SameKindFourth | packages/scanner/src/scanner.ts:135 | two digits or two letters there, which the rearrangement puts first and last: missed if and only if they are equal or the digits between them and of one of them are a multiple of 96 in number |
| IbanSwaps.MixedFourth | packages/scanner/src/scanner.ts:135 | a letter and a digit there: missed if and only if what lies between them has one certain remainder of the 97 |
| IbanSwaps.OneEvery96 | packages/scanner/src/scanner.ts:140 | a power of ten is 1 modulo 97 if and only if its exponent is a multiple of 96 |
| IbanSwaps.CapturedSwapDecides | packages/scanner/src/rules.ts:201 | among the values that the rule's pattern captures, an exchange of any two neighbours is missed if and only if they are equal, or are B and 1, M and 2, or X and 3 |
| IbanSwaps.FourthShows | packages/scanner/src/scanner.ts:133-143 | two accepted strings, outside the pattern, that differ by another exchange at the fourth place |
| Iban.PlausibleIsOneMod97 | packages/scanner/src/scanner.ts:133-143 | accepted are exactly the values whose rearranged, expanded number is 1 modulo 97 |
| Iban.ShownIs | packages/scanner/src/scanner.ts:137-139 | letters expand to 10 up to 35, in their order, digits to themselves |
| Iban.RemainderHasSign | packages/scanner/src/scanner.ts:140 | a remainder has the sign of what is divided, which shows for characters below the digits |
| Iban.StreamIsWhole | packages/scanner/src/scanner.ts:136-141 | the streamed remainder is that of the whole number |
| Iban.IsPlausibleIban | packages/scanner/src/scanner.ts:133-143 | the loop over characters computes the streamed remainder |
| Iban.FeedDigits | packages/scanner/src/scanner.ts:137-140 | the inner loop feeds one digit, or the two of a letter |
| Luhn.WrongDigitCaught | packages/scanner/src/entropy.ts:71-89 | two accepted digit strings never differ in exactly one digit |
| Luhn.SwapCaught | packages/scanner/src/entropy.ts:71-89 | nor by one swap of neighbours other than 0 with 9 |
| Luhn.SwapChangesSum | packages/scanner/src/entropy.ts:77-88 | a swap keeps the check sum if and only if the digits are equal or are 0 and 9 |
| Luhn.IsLuhnValid | packages/scanner/src/entropy.ts:71-143 | length, first digit, issuer and check sum, computed from the right |
| LuhnSchemes.ValidIs | packages/scanner/src/entropy.ts:71-89 | accepted are the candidates whose digits are 13 to 19, do not start with zero, lie in an assigned range and have a standard sum divisible by ten |
| LuhnSchemes.DigitsOneMore | packages/scanner/src/entropy.ts:72 | everything but the ten digits is dropped |
| LuhnSchemes.KnownIssuers | packages/scanner/src/entropy.ts:108-143 | the known issuers are a table of lengths and prefix ranges |
| LuhnSchemes.SumIsLuhn | packages/scanner/src/entropy.ts:77-88 | the loop's sum is that of ISO/IEC 7812: every second digit from the right doubled, its digits added |
| Markdown.ParseMarkdownSections | packages/documents/src/markdown.ts:12-50 | each section is the trimmed content of exactly its lines, between headings; sections ascend; every line that is neither blank nor a heading is in one |
| Markdown.SectionsAreDetermined | packages/documents/src/markdown.ts:12-50 | no other list of sections satisfies that contract, so it fixes the result |
| Markdown.Flush | packages/documents/src/markdown.ts:21-25 | closing a section reports it unless it is blank, and keeps all of that |
| Markdown.OneSectionEach | packages/documents/src/markdown.ts:27-48 | no line is in two sections |
| Markdown.FencedLinesStay | packages/documents/src/markdown.ts:29-38 | a line inside a fence never starts a section |
| Markdown.FenceLasts | packages/documents/src/markdown.ts:29-37 | a fence stays open until a line with its own marker character |
| MarkdownLines.HeadingIs | packages/documents/src/markdown.ts:38 | a line is a heading exactly when it reads as one to six hashes, white space, a title and a closing run; of several readings the title that starts last counts, and of those the shortest |
| MarkdownLines.FenceIs | packages/documents/src/markdown.ts:29 | a fence is white space and three backquotes or three tildes |
| MarkdownLines.CrLfGoes | packages/documents/src/markdown.ts:13 | at the first carriage return with a line feed behind it the carriage return goes, and the rest is read the same way |
| MarkdownLines.UnixStays | packages/documents/src/markdown.ts:13 | text without such a pair is left alone |

## Left out

- Characters are single code units in code-unit order; iterating a string by code point is not distinguished from that.
- TypeTheorems.Canonicity: stated for trees as the code reads them. Texts that TypeScript reads otherwise have theorems of their own for a separator, a bound, a default and one conditional type in a true branch; for deeper nesting, and for a union before `extends` with another behind it, only `TypeComplete.Complete` says when two texts agree.
- TypeComplete.Complete: like the conditions derived from it, excludes trees with a union member that ends in `=`, which no TypeScript type does.
- TypeSeparators.LastMemberDecides: says nothing of two printings with different white space before the separator.
- TypeReorder.AnyOrderNormalisesAlike: a union with a separator at its last member's end is excluded; `TypeOrders.AllOrdersAgree` gives its condition.
- TypeIdempotence.Idempotence: excludes union members that end in `=` (`TypeSecondPass.EqualsShows`), and unions in which sorting moves the last member, with a separator at its end, before another (`TypeSecondPass.CutUnionShows`).
- JsonComplete.CompleteInvariant: numbers are integers; `toJSON`, dates, functions, symbols and inherited properties are not values of the model.
- JsonReading.TextDenotes: surrogates are not characters of the model, so the escapes for lone ones are left out.
- ChunkBudget.ChunksFit: a chunk's header and facts are given texts, and fewer than 10^13 parts are assumed: with longer numbers a part marker exceeds the tokens set aside for it.
- Chunker.SplitByCharacterWindow: the window size is the exact rational value; rounding of the floating-point product is not modelled.
- Regions: markers are tokens, so the spelling of the marker comments, and ids or hashes that the patterns do not match, are outside the model; a hash is an injective function of the trimmed content.
- RegionsTheorems.MergeIdempotent: stated for documents whose regions are matched and disjoint, with contents free of markers; nested or crossing markers are not covered.
- AssembleGraph.AssembleRepository: signatures, doc hashes, modifiers, source references and sensitivity are copied or hashed elsewhere and not modelled; module keys are given.
- AssembleGraph.ResolveMeans: assumes module ids of one length and names that do not start with a module id and two colons.
- Fusion.ReciprocalRankFusion: scores are exact, and a candidate whose constant and rank add up to zero is excluded, where the code divides by zero.
- Diversify.Select: scores are exact and similarity is any function of two ids; tokenising chunk text is left out.
- Expansion: fields that a served chunk copies unchanged are left out; token shares are exact products.
- Clusters: fingerprints are given, the cluster's hash is any function of its sorted ids, locale order is any order given by a position per id; SimHash is left out.
- Permissions: each call sees one database state and one clock; the calls' interleaving inside `resolve`, SQL and row-level security are left out.
- Webhooks: a push is one step, its repository lookup included; what the timer's job does after it starts, and signature checks, are left out.
- Iban.StreamIsWhole: stated for digits and capital letters, which is what the rule's pattern captures.
- Markdown.ParseMarkdownSections: stripping inline markup from a title is any function.
- Language models, rerankers, network, files, CLI, web and admin routes, and the remaining regex-based text code are not modelled.
