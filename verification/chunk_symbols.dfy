/** Which symbols of packages/chunking/src/chunker.ts are chunked, and what their chunks hold. */
module ChunkSymbols {
  import opened Strings
  import opened Numbers
  import opened Chunker
  import opened ChunkBudget

  // ---------- Which symbols ----------

  /** Nothing of a restricted symbol reaches a chunk, nor of one that is retrieved through its parent. */
  lemma {:induction false} NoChunks(symbol: Symbol, maxTokens: nat, overlapTokens: nat)
    requires symbol.restricted || symbol.kind == EnumMember || (symbol.kind == FieldOrProperty && !symbol.hasDocComment)
    ensures SymbolChunks(symbol, maxTokens, overlapTokens) == []
  {
    hide PiecesOf, FullText;
  }

  /** Every other symbol has at least one chunk. */
  lemma {:induction false} SomeChunk(symbol: Symbol, maxTokens: nat, overlapTokens: nat)
    requires !symbol.restricted && (symbol.kind == Other || (symbol.kind == FieldOrProperty && symbol.hasDocComment))
    ensures SymbolChunks(symbol, maxTokens, overlapTokens) != []
  {
    hide FullText, BudgetPieces;
    var (preamble, splittable) := Divide(symbol, maxTokens);
    PiecesExist(splittable, PieceBudget(preamble, maxTokens), overlapTokens);
  }

  lemma {:induction false} PiecesExist(text: string, maxTokens: nat, overlapTokens: nat)
    ensures BudgetPieces(text, maxTokens, overlapTokens) != []
  {
    hide RefineAll, StatementPieces;
    PiecesNonempty(text, maxTokens, overlapTokens);
  }

  /** The symbols without the restricted ones, and without those that are retrieved through their parents. */
  function Embeddable(symbols: seq<Symbol>): seq<Symbol> {
    if symbols == [] then []
    else
      var (symbol, rest) := (symbols[0], Embeddable(symbols[1..]));
      if symbol.restricted || symbol.kind == EnumMember || (symbol.kind == FieldOrProperty && !symbol.hasDocComment) then rest
      else [symbol] + rest
  }

  /** A list is chunked as if the others were not in it. */
  lemma {:induction false} OthersLeaveNoTrace(symbols: seq<Symbol>, maxTokens: nat, overlapTokens: nat)
    ensures AllChunks(symbols, maxTokens, overlapTokens) == AllChunks(Embeddable(symbols), maxTokens, overlapTokens)
  {
    hide SymbolChunks;
    if symbols == [] {
    } else {
      OthersLeaveNoTrace(symbols[1..], maxTokens, overlapTokens);
      var symbol := symbols[0];
      if symbol.restricted || symbol.kind == EnumMember || (symbol.kind == FieldOrProperty && !symbol.hasDocComment) {
        NoChunks(symbol, maxTokens, overlapTokens);
      } else {
        assert Embeddable(symbols)[1..] == Embeddable(symbols[1..]);
      }
    }
  }

  // ---------- What a chunk holds ----------

  /** The parts that are not empty, a blank line between them. */
  function Blocks(a: string, b: string): string { if a == "" then b else if b == "" then a else a + "\n\n" + b }

  lemma {:induction false} BlocksAre(a: string, b: string)
    ensures JoinBlocks([a, b]) == Blocks(a, b)
  {
    assert [a, b][1..] == [b] && [b][1..] == [] && NonEmpty([b]) == if b == "" then [] else [b];
    if a != "" && b != "" {
      assert NonEmpty([a, b]) == [a, b];
      assert Join([a, b], "\n\n") == a + "\n\n" + Join([b], "\n\n");
    }
  }

  /** Header, facts and source in that order; a blank line follows a header even when nothing else does. */
  lemma {:induction false} FullTextIs(symbol: Symbol)
    ensures var body := Blocks(symbol.facts, if symbol.source.Some? then symbol.source.value else "");
      FullText(symbol) == if symbol.header == "" then body else symbol.header + "\n\n" + body
  {
    hide JoinBlocks;
    BlocksAre(symbol.facts, if symbol.source.Some? then symbol.source.value else "");
  }

  /** What repeats and what is split are together the header, the facts and the source, in that order. As much
      repeats as fits half the limit; without a source the facts are split. */
  lemma {:induction false} DivideKeeps(symbol: Symbol, maxTokens: nat)
    ensures var (preamble, splittable) := Divide(symbol, maxTokens);
      var source := if symbol.source.Some? then symbol.source.value else "";
      || (preamble == Blocks(symbol.header, symbol.facts) && splittable == source && source != "")
      || (preamble == symbol.header && splittable == Blocks(symbol.facts, source)
          && (source == "" || EstimateTokens(Blocks(symbol.header, symbol.facts)) > maxTokens / 2))
      || (preamble == "" && splittable == FullText(symbol) && EstimateTokens(symbol.header) > maxTokens / 2)
  {
    hide JoinBlocks, FullText, EstimateTokens;
    BlocksAre(symbol.header, symbol.facts);
    BlocksAre(symbol.facts, SourceText(symbol));
  }

  /** The limit less what repeats and twelve tokens for the part line, and sixty-four at the least. */
  function Room(preamble: string, maxTokens: nat): nat {
    if maxTokens <= EstimateTokens(preamble) + 76 then 64 else maxTokens - EstimateTokens(preamble) - 12
  }

  lemma {:induction false} RoomIs(preamble: string, maxTokens: nat)
    ensures PieceBudget(preamble, maxTokens) == Room(preamble, maxTokens)
  {
  }

  /** A symbol that fits is one chunk with its whole text. One that does not is a chunk for each piece: what
      repeats, a blank line, a line with the piece's number and the number of pieces, and the piece. */
  lemma {:induction false} ChunksHold(symbol: Symbol, maxTokens: nat, overlapTokens: nat, k: nat)
    requires k < |SymbolChunks(symbol, maxTokens, overlapTokens)|
    ensures var chunks := SymbolChunks(symbol, maxTokens, overlapTokens);
      && chunks[k].ordinal == k && chunks[k].tokenCount == EstimateTokens(chunks[k].content)
      && (EstimateTokens(FullText(symbol)) <= maxTokens ==> |chunks| == 1 && chunks[k].content == FullText(symbol))
      && (EstimateTokens(FullText(symbol)) > maxTokens ==>
            var (preamble, splittable) := Divide(symbol, maxTokens);
            var pieces := BudgetPieces(splittable, Room(preamble, maxTokens), overlapTokens);
            && |chunks| == |pieces|
            && chunks[k].content == Blocks(preamble, "// part " + Decimal(k + 1) + " of " + Decimal(|pieces|) + "\n" + pieces[k]))
  {
    hide FullText, BudgetPieces, EstimateTokens, Divide, Decimal, JoinBlocks, Room, PieceBudget;
    RoomIs(Divide(symbol, maxTokens).0, maxTokens);
    if EstimateTokens(FullText(symbol)) > maxTokens {
      var preamble := Divide(symbol, maxTokens).0;
      var pieces := PiecesOf(symbol, maxTokens, overlapTokens);
      BlocksAre(preamble, "// part " + Decimal(k + 1) + " of " + Decimal(|pieces|) + "\n" + pieces[k]);
    }
  }

  /** The estimate is the least whole number of tokens of three and a half characters that holds the text. */
  lemma {:induction false} EstimateIsCeiling(text: string)
    ensures var tokens := EstimateTokens(text);
      2 * |text| <= 7 * tokens && (tokens > 0 ==> 7 * (tokens - 1) < 2 * |text|) && (text == "" ==> tokens == 0)
  {
  }
}
