/** The helpers of the Playwright scraper's app module: the brace/bracket
    balancer used as a best-effort JSON repair, the overlapping character
    chunker, and the loop of `perform_scrape` that merges the per-chunk results. */
module App {
  import opened Text
  import opened Json
  import opened Tally

  // ---------------------------------------------------------------------------
  // JSON fix helpers
  // ---------------------------------------------------------------------------

  /** How many `close` characters are missing for the `open` characters of `s`,
      counting occurrences only (not nesting). */
  function Deficit(s: string, open: char, close: char): nat
  {
    if Count(s, open) > Count(s, close) then Count(s, open) - Count(s, close) else 0
  }

  /** A string whose closers already match or outnumber its openers, for braces
      and for brackets separately. */
  predicate Closed(s: string)
  {
    Count(s, '{') <= Count(s, '}') && Count(s, '[') <= Count(s, ']')
  }

  /** `balance_json_string`: append the missing `}` and then the missing `]`. */
  function BalanceJsonString(brokenJson: string): string
  {
    var openBrace, closeBrace := Count(brokenJson, '{'), Count(brokenJson, '}');
    var openBracket, closeBracket := Count(brokenJson, '['), Count(brokenJson, ']');
    var withBraces :=
      if openBrace > closeBrace then brokenJson + Repeat('}', openBrace - closeBrace) else brokenJson;
    if openBracket > closeBracket then withBraces + Repeat(']', openBracket - closeBracket)
    else withBraces
  }

  /** The balanced string is the input, then exactly the missing number of `}`,
      then exactly the missing number of `]`, and nothing else. */
  lemma BalanceShape(s: string)
    ensures var r, braces, brackets := BalanceJsonString(s), Deficit(s, '{', '}'), Deficit(s, '[', ']');
      && |r| == |s| + braces + brackets
      && r[..|s|] == s
      && (forall i :: |s| <= i < |s| + braces ==> r[i] == '}')
      && (forall i :: |s| + braces <= i < |r| ==> r[i] == ']')
  {
  }

  /** Counting closers after balancing: the openers are untouched, closers now
      match or outnumber them, and they match exactly for each kind whose openers
      had not been outnumbered by closers. */
  lemma BalanceCloses(s: string)
    ensures var r := BalanceJsonString(s);
      && Count(r, '{') == Count(s, '{') && Count(r, '[') == Count(s, '[')
      && Closed(r)
      && (Count(s, '{') >= Count(s, '}') ==> Count(r, '{') == Count(r, '}'))
      && (Count(s, '[') >= Count(s, ']') ==> Count(r, '[') == Count(r, ']'))
  {
    var braces, brackets := Deficit(s, '{', '}'), Deficit(s, '[', ']');
    var t := s + Repeat('}', braces);
    var r := t + Repeat(']', brackets);
    assert BalanceJsonString(s) == r;
    CountAppend(s, Repeat('}', braces), '{');
    CountAppend(s, Repeat('}', braces), '}');
    CountAppend(s, Repeat('}', braces), '[');
    CountAppend(s, Repeat('}', braces), ']');
    CountAppend(t, Repeat(']', brackets), '{');
    CountAppend(t, Repeat(']', brackets), '}');
    CountAppend(t, Repeat(']', brackets), '[');
    CountAppend(t, Repeat(']', brackets), ']');
    CountRepeat('}', braces, '{');
    CountRepeat('}', braces, '}');
    CountRepeat('}', braces, '[');
    CountRepeat('}', braces, ']');
    CountRepeat(']', brackets, '{');
    CountRepeat(']', brackets, '}');
    CountRepeat(']', brackets, '[');
    CountRepeat(']', brackets, ']');
  }

  /** Balancing changes a string exactly when some opener kind outnumbers its
      closers. */
  lemma BalanceUnchangedIffClosed(s: string)
    ensures BalanceJsonString(s) == s <==> Closed(s)
  {
    BalanceShape(s);
  }

  /** Balancing is idempotent. */
  lemma BalanceIdempotent(s: string)
    ensures BalanceJsonString(BalanceJsonString(s)) == BalanceJsonString(s)
  {
    BalanceCloses(s);
    BalanceUnchangedIffClosed(BalanceJsonString(s));
  }

  /** `best_effort_json_fix`: decode the balanced string; a decode error yields
      None (`Null`), it is never raised. */
  function BestEffortJsonFix(brokenJson: string, loads: Decoder): Json
  {
    match loads(BalanceJsonString(brokenJson))
    case Some(v) => v
    case None => Null
  }

  /** The repair decodes the balanced text, not the original: on a closed input it
      is the plain decode, and re-balancing first makes no difference. */
  lemma BestEffortFixDecodesBalanced(s: string, loads: Decoder)
    ensures Closed(s) ==> BestEffortJsonFix(s, loads) == (if loads(s).Some? then loads(s).value else Null)
    ensures BestEffortJsonFix(BalanceJsonString(s), loads) == BestEffortJsonFix(s, loads)
    ensures loads(BalanceJsonString(s)).None? ==> BestEffortJsonFix(s, loads) == Null
  {
    BalanceUnchangedIffClosed(s);
    BalanceIdempotent(s);
  }

  // ---------------------------------------------------------------------------
  // Overlapping character chunks
  // ---------------------------------------------------------------------------

  /** The chunks `process_in_chunks` emits from offset `start` on: one chunk of at
      most `chunkSize` characters at every `start + k * (chunkSize - overlap)`
      below the length of the content. */
  function Chunks(content: string, chunkSize: nat, overlap: nat, start: nat): seq<string>
    requires overlap < chunkSize
    decreases |content| - start
  {
    if start >= |content| then []
    else
      [content[start..Min(|content|, start + chunkSize)]]
      + Chunks(content, chunkSize, overlap, start + (chunkSize - overlap))
  }

  /** `process_in_chunks`. The loop only advances when the overlap is smaller than
      the chunk size, which is needed whenever there is content to split. */
  method ProcessInChunks(content: string, chunkSize: nat, overlap: nat) returns (chunks: seq<string>)
    requires content == [] || overlap < chunkSize
    ensures content == [] ==> chunks == []
    ensures content != [] ==> chunks == Chunks(content, chunkSize, overlap, 0)
  {
    chunks := [];
    var start: nat := 0;
    var length := |content|;
    while start < length
      invariant content == [] ==> chunks == []
      invariant content != [] ==>
        chunks + Chunks(content, chunkSize, overlap, start) == Chunks(content, chunkSize, overlap, 0)
      decreases length - start
    {
      var end := Min(length, start + chunkSize);
      var chunk := content[start..end];
      chunks := chunks + [chunk];
      start := start + (chunkSize - overlap);
    }
  }

  /** Where chunk `i` starts when chunking from `start` with the given step. */
  function Offset(start: int, chunkSize: nat, overlap: nat, i: nat): int
    decreases i
  {
    if i == 0 then start else Offset(start + (chunkSize - overlap), chunkSize, overlap, i - 1)
  }

  /** Chunk `i` starts `i` steps after `start`. */
  lemma {:induction false} OffsetFormula(start: int, chunkSize: nat, overlap: nat, i: nat)
    ensures Offset(start, chunkSize, overlap, i) == start + i * (chunkSize - overlap)
    decreases i
  {
    if i > 0 {
      OffsetFormula(start + (chunkSize - overlap), chunkSize, overlap, i - 1);
      assert (i - 1) * (chunkSize - overlap) + (chunkSize - overlap) == i * (chunkSize - overlap);
    }
  }

  /** One step of `Chunks`: the chunk at `start`, then the chunks one step on. */
  lemma ChunksStep(content: string, chunkSize: nat, overlap: nat, start: nat)
    requires overlap < chunkSize && start < |content|
    ensures Chunks(content, chunkSize, overlap, start)
            == [content[start..Min(|content|, start + chunkSize)]]
               + Chunks(content, chunkSize, overlap, start + (chunkSize - overlap))
  {
  }

  /** Chunk `i` is the slice `[start + i*step, min(len, start + i*step + chunkSize))`
      and starts inside the content; every chunk is non-empty and at most
      `chunkSize` long. */
  lemma {:induction false} ChunkAt(content: string, chunkSize: nat, overlap: nat, start: nat, i: nat)
    requires overlap < chunkSize
    requires i < |Chunks(content, chunkSize, overlap, start)|
    ensures var from := Offset(start, chunkSize, overlap, i);
      && 0 <= from < |content|
      && Chunks(content, chunkSize, overlap, start)[i] == content[from..Min(|content|, from + chunkSize)]
      && 0 < |Chunks(content, chunkSize, overlap, start)[i]| <= chunkSize
    decreases |content| - start
  {
    var step := chunkSize - overlap;
    var ch := Chunks(content, chunkSize, overlap, start);
    ChunksStep(content, chunkSize, overlap, start);
    if i > 0 {
      var rest := Chunks(content, chunkSize, overlap, start + step);
      assert ch[i] == rest[i - 1];
      ChunkAt(content, chunkSize, overlap, start + step, i - 1);
    }
  }

  /** Each offset is one step after the one before. */
  lemma {:induction false} OffsetNext(start: int, chunkSize: nat, overlap: nat, i: nat)
    ensures Offset(start, chunkSize, overlap, i + 1) == Offset(start, chunkSize, overlap, i) + (chunkSize - overlap)
    decreases i
  {
    if i > 0 {
      OffsetNext(start + (chunkSize - overlap), chunkSize, overlap, i - 1);
    }
  }

  /** There is one chunk per offset below the length: the offset after the last
      chunk is at or past the end. */
  lemma {:induction false} ChunkCount(content: string, chunkSize: nat, overlap: nat, start: nat)
    requires overlap < chunkSize
    ensures Offset(start, chunkSize, overlap, |Chunks(content, chunkSize, overlap, start)|) >= |content|
    decreases |content| - start
  {
    if start < |content| {
      ChunksStep(content, chunkSize, overlap, start);
      ChunkCount(content, chunkSize, overlap, start + (chunkSize - overlap));
    }
  }

  /** The last chunk starts at the last offset and runs to the end of the
      content. */
  lemma LastChunkReachesEnd(content: string, chunkSize: nat, overlap: nat, start: nat)
    requires overlap < chunkSize && start < |content|
    ensures var ch := Chunks(content, chunkSize, overlap, start);
      && |ch| > 0 && 0 <= Offset(start, chunkSize, overlap, |ch| - 1) < |content|
      && ch[|ch| - 1] == content[Offset(start, chunkSize, overlap, |ch| - 1)..]
  {
    var ch := Chunks(content, chunkSize, overlap, start);
    ChunksStep(content, chunkSize, overlap, start);
    var n := |ch|;
    ChunkAt(content, chunkSize, overlap, start, n - 1);
    ChunkCount(content, chunkSize, overlap, start);
    OffsetNext(start, chunkSize, overlap, n - 1);
  }

  /** Each chunk's first `step` characters, with the last chunk taken whole. */
  function Reassemble(chunks: seq<string>, step: nat): string
  {
    if chunks == [] then ""
    else if |chunks| == 1 then chunks[0]
    else chunks[0][..Min(step, |chunks[0]|)] + Reassemble(chunks[1..], step)
  }

  /** The chunks cover the content without gaps: their non-overlapping heads put
      the content back together exactly. */
  lemma {:induction false} ReassembleChunks(content: string, chunkSize: nat, overlap: nat, start: nat)
    requires overlap < chunkSize && start <= |content|
    ensures Reassemble(Chunks(content, chunkSize, overlap, start), chunkSize - overlap) == content[start..]
    decreases |content| - start
  {
    var step := chunkSize - overlap;
    if start < |content| {
      var next := start + step;
      var end := Min(|content|, start + chunkSize);
      ChunksStep(content, chunkSize, overlap, start);
      if next >= |content| {
        assert Chunks(content, chunkSize, overlap, next) == [];
        assert content[start..end] == content[start..];
      } else {
        var rest := Chunks(content, chunkSize, overlap, next);
        ReassembleChunks(content, chunkSize, overlap, next);
        ChunksStep(content, chunkSize, overlap, next);
        ReassembleCons(content[start..end], rest, step);
        assert content[start..end][..step] == content[start..next];
        assert content[start..] == content[start..next] + content[next..];
      }
    }
  }

  /** One step of `Reassemble` in front of a non-empty rest. */
  lemma ReassembleCons(first: string, rest: seq<string>, step: nat)
    requires rest != []
    ensures Reassemble([first] + rest, step) == first[..Min(step, |first|)] + Reassemble(rest, step)
  {
    assert ([first] + rest)[1..] == rest;
  }

  /** A content that fits in one step is a single chunk. */
  lemma ShortContentSingleChunk(content: string, chunkSize: nat, overlap: nat)
    requires overlap < chunkSize && 0 < |content| <= chunkSize - overlap
    ensures Chunks(content, chunkSize, overlap, 0) == [content]
  {
    assert Chunks(content, chunkSize, overlap, chunkSize - overlap) == [];
    assert content[0..|content|] == content;
  }

  // Finding: content no longer than a chunk is still split when it is longer
  // than one step; every later chunk lies inside the first.

  /** As written: a content of length at most `chunkSize` but above the step comes
      back as the whole content followed by its tail from offset `step`. */
  lemma ShortContentRepeatsTail(content: string, chunkSize: nat, overlap: nat)
    requires overlap < chunkSize && chunkSize - overlap < |content| <= chunkSize
    ensures var ch := Chunks(content, chunkSize, overlap, 0);
      |ch| >= 2 && ch[0] == content && ch[1] == content[chunkSize - overlap..]
  {
    var step := chunkSize - overlap;
    assert Chunks(content, chunkSize, overlap, 0)[1..] == Chunks(content, chunkSize, overlap, step);
  }

  lemma TailExample()
    ensures Chunks("abc", 3, 2, 0) == ["abc", "bc", "c"]
  {
    assert Chunks("abc", 3, 2, 3) == [];
    assert "abc"[2..3] == "c" && "abc"[1..3] == "bc" && "abc"[0..3] == "abc";
    assert Chunks("abc", 3, 2, 2) == ["c"];
    assert Min(3, 4) == 3 && Min(3, 3) == 3;
    assert Chunks("abc", 3, 2, 1) == ["bc", "c"];
  }

  /** Corrected: stop as soon as a chunk reaches the end of the content. */
  function ChunksToEnd(content: string, chunkSize: nat, overlap: nat, start: nat): seq<string>
    requires overlap < chunkSize
    decreases |content| - start
  {
    if start >= |content| then []
    else
      var end := Min(|content|, start + chunkSize);
      [content[start..end]]
      + (if end == |content| then [] else ChunksToEnd(content, chunkSize, overlap, start + (chunkSize - overlap)))
  }

  /** One step of `ChunksToEnd`. */
  lemma ChunksToEndStep(content: string, chunkSize: nat, overlap: nat, start: nat)
    requires overlap < chunkSize && start < |content|
    ensures var end := Min(|content|, start + chunkSize);
      ChunksToEnd(content, chunkSize, overlap, start)
        == [content[start..end]]
           + (if end == |content| then [] else ChunksToEnd(content, chunkSize, overlap, start + (chunkSize - overlap)))
  {
  }

  /** The corrected chunking emits a prefix of the original's chunks. */
  lemma {:induction false} ChunksToEndPrefix(content: string, chunkSize: nat, overlap: nat, start: nat)
    requires overlap < chunkSize
    ensures ChunksToEnd(content, chunkSize, overlap, start) <= Chunks(content, chunkSize, overlap, start)
    decreases |content| - start
  {
    if start < |content| {
      var next := start + (chunkSize - overlap);
      ChunksToEndStep(content, chunkSize, overlap, start);
      ChunksStep(content, chunkSize, overlap, start);
      if Min(|content|, start + chunkSize) < |content| {
        ChunksToEndPrefix(content, chunkSize, overlap, next);
      }
    }
  }

  /** The corrected chunks still put the content back together. */
  lemma {:induction false} ChunksToEndReassemble(content: string, chunkSize: nat, overlap: nat, start: nat)
    requires overlap < chunkSize && start <= |content|
    ensures Reassemble(ChunksToEnd(content, chunkSize, overlap, start), chunkSize - overlap) == content[start..]
    decreases |content| - start
  {
    var step := chunkSize - overlap;
    if start < |content| {
      var next := start + step;
      var end := Min(|content|, start + chunkSize);
      ChunksToEndStep(content, chunkSize, overlap, start);
      if end < |content| {
        ChunksToEndReassemble(content, chunkSize, overlap, next);
        var rest := ChunksToEnd(content, chunkSize, overlap, next);
        ChunksToEndStep(content, chunkSize, overlap, next);
        assert content[start..end][..step] == content[start..next];
        assert content[start..] == content[start..next] + content[next..];
      } else {
        assert content[start..end] == content[start..];
      }
    }
  }

  /** Only the last corrected chunk reaches the end of the content: every chunk
      before it ends strictly inside. */
  lemma {:induction false} ChunksToEndStops(content: string, chunkSize: nat, overlap: nat, start: nat)
    requires overlap < chunkSize
    ensures var fixed := ChunksToEnd(content, chunkSize, overlap, start);
      forall i :: 0 <= i < |fixed| - 1 ==> Offset(start, chunkSize, overlap, i) + chunkSize < |content|
    decreases |content| - start
  {
    if start < |content| {
      var next := start + (chunkSize - overlap);
      var fixed := ChunksToEnd(content, chunkSize, overlap, start);
      ChunksToEndStep(content, chunkSize, overlap, start);
      if Min(|content|, start + chunkSize) < |content| {
        ChunksToEndStops(content, chunkSize, overlap, next);
        var rest := ChunksToEnd(content, chunkSize, overlap, next);
        forall i | 0 < i < |fixed| - 1
          ensures Offset(start, chunkSize, overlap, i) + chunkSize < |content|
        {
          assert i - 1 < |rest| - 1;
        }
      }
    }
  }

  /** A content that fits in one chunk is a single corrected chunk. */
  lemma ChunksToEndSingle(content: string, chunkSize: nat, overlap: nat)
    requires overlap < chunkSize && 0 < |content| <= chunkSize
    ensures ChunksToEnd(content, chunkSize, overlap, 0) == [content]
  {
    ChunksToEndStep(content, chunkSize, overlap, 0);
    assert content[0..|content|] == content;
  }

  // Finding: the sliders admit an overlap at least as large as the chunk size.

  /** The values the two sliders can produce (chunk size 1000..20000 by 500,
      overlap 100..2000 by 100). */
  predicate SliderSettings(chunkSize: int, overlap: int)
  {
    && 1000 <= chunkSize <= 20000 && (chunkSize - 1000) % 500 == 0
    && 100 <= overlap <= 2000 && overlap % 100 == 0
  }

  /** The value of `start` in `process_in_chunks` after `k` passes of its loop. */
  function StartAfter(chunkSize: int, overlap: int, k: nat): int
  {
    if k == 0 then 0 else StartAfter(chunkSize, overlap, k - 1) + (chunkSize - overlap)
  }

  /** As written: with the sliders at chunk size 1000 and overlap 2000, `start`
      never becomes positive, so `start < len(content)` holds forever for any
      non-empty content and the loop does not end. */
  lemma {:induction false} SlidersAllowStall(k: nat)
    ensures SliderSettings(1000, 2000)
    ensures StartAfter(1000, 2000, k) <= 0
  {
    if k > 0 {
      SlidersAllowStall(k - 1);
    }
  }

  // ---------------------------------------------------------------------------
  // perform_scrape: merging per-chunk results
  // ---------------------------------------------------------------------------

  /** What `format_data` returned for one chunk: the result dictionary and its
      token counts. */
  datatype ChunkResult = ChunkResult(data: Listing, tokens: TokenCounts)

  /** The outcome of the `format_data` call for one chunk: its result, or the
      exception it raised (ValueError, the decode error, TypeError), which
      leaves `perform_scrape` before any later chunk is sent. */
  type ChunkOutcome = Result<ChunkResult>

  /** One pass of the loop: a raised exception ends the run; otherwise extend by
      `listings` when present, and add the chunk's token counts, a missing count
      counting as 0. */
  function ChunkStep(outcome: ChunkOutcome): (r: Result<Tally>)
    ensures outcome.Err? ==> r == Err(outcome.error)
    ensures outcome.Ok? && ListingsKey !in outcome.value.data ==> r.Ok? && r.value.listings == []
    ensures r.Ok? ==> (outcome.Ok?
                       && r.value.inputTokens == Get(outcome.value.tokens, InputTokensKey)
                       && r.value.outputTokens == Get(outcome.value.tokens, OutputTokensKey))
  {
    match outcome
    case Err(e) => Err(e)
    case Ok(result) =>
      match Contribution(Obj(result.data))
      case Err(e) => Err(e)
      case Ok(items) => Ok(Tally(items, Get(result.tokens, InputTokensKey), Get(result.tokens, OutputTokensKey)))
  }

  /** `ChunkStep` of a returned result, read as the loop body reads it: look up
      `listings`, extend. */
  lemma ChunkStepLookup(result: ChunkResult)
    ensures var tokens := (Get(result.tokens, InputTokensKey), Get(result.tokens, OutputTokensKey));
      ChunkStep(Ok(result)) ==
        if ListingsKey !in result.data then Ok(Tally([], tokens.0, tokens.1))
        else match ExtendBy(result.data[ListingsKey])
          case Err(e) => Err(e)
          case Ok(items) => Ok(Tally(items, tokens.0, tokens.1))
  {
  }

  /** The step of every chunk's outcome, in order. Each step is reached through
      its outcome, so that only the chunk at hand is ever unfolded. */
  function ChunkSteps(outcomes: seq<ChunkOutcome>): (steps: seq<Result<Tally>>)
    ensures |steps| == |outcomes|
    ensures forall i {:trigger outcomes[i]} :: 0 <= i < |outcomes| ==> steps[i] == ChunkStep(outcomes[i])
  {
    if outcomes == [] then []
    else
      var rest := ChunkSteps(outcomes[1..]);
      assert forall i :: 0 < i < |outcomes| ==> outcomes[i] == outcomes[1..][i - 1];
      [ChunkStep(outcomes[0])] + rest
  }

  /** One pass of the loop up to the counts: the `format_data` call's outcome,
      then extend by the chunk's `listings` when it has them. */
  method ReadChunkResult(outcome: ChunkOutcome) returns (r: Result<Tally>)
    ensures r == ChunkStep(outcome)
  {
    if outcome.Err? {
      return Err(outcome.error);
    }
    var chunkResult := outcome.value;
    ChunkStepLookup(chunkResult);
    var added: seq<Json> := [];
    if ListingsKey in chunkResult.data {
      var extension := ExtendBy(chunkResult.data[ListingsKey]);
      if extension.Err? {
        return Err(extension.error);
      }
      added := extension.value;
    }
    return Ok(Tally(added, Get(chunkResult.tokens, InputTokensKey), Get(chunkResult.tokens, OutputTokensKey)));
  }

  /** The two `+=` lines of the loop: add a chunk's counts to the totals, a
      missing count adding 0. */
  method AddTokenCounts(totalTokens: TokenCounts, tokensCount: TokenCounts, ghost before: Tally, ghost chunk: Tally)
    returns (r: TokenCounts)
    requires totalTokens == Counts(before.inputTokens, before.outputTokens)
    requires chunk.inputTokens == Get(tokensCount, InputTokensKey)
    requires chunk.outputTokens == Get(tokensCount, OutputTokensKey)
    ensures r == Counts(Combine(before, chunk).inputTokens, Combine(before, chunk).outputTokens)
  {
    var inputTokens := Get(tokensCount, InputTokensKey);
    var outputTokens := Get(tokensCount, OutputTokensKey);
    CountsUpdate(before.inputTokens, before.outputTokens,
                 before.inputTokens + inputTokens, before.outputTokens + outputTokens);
    r := totalTokens[InputTokensKey := totalTokens[InputTokensKey] + inputTokens];
    r := r[OutputTokensKey := r[OutputTokensKey] + outputTokens];
  }

  /** The loop of `perform_scrape` over the chunks' `format_data` outcomes: the
      combined `{"listings": ...}` and the `total_tokens` dictionary, or the
      first exception, raised by `format_data` or by `extend`. */
  method CombineChunkResults(outcomes: seq<ChunkOutcome>) returns (r: Result<(Json, TokenCounts)>)
    ensures match Fold(ChunkSteps(outcomes))
      case Ok(t) => r == Ok((ListingsObject(t.listings), Counts(t.inputTokens, t.outputTokens)))
      case Err(e) => r == Err(e)
  {
    var steps := ChunkSteps(outcomes);
    var combinedListings: seq<Json> := [];
    var totalTokens := Counts(0, 0);
    ghost var acc := Empty;
    for i := 0 to |outcomes|
      invariant Fold(steps[..i]) == Ok(acc)
      invariant combinedListings == acc.listings
      invariant totalTokens == Counts(acc.inputTokens, acc.outputTokens)
    {
      var chunk := ReadChunkResult(outcomes[i]);
      if chunk.Err? {
        FoldStopsAt(steps, i);
        return Err(chunk.error);
      }
      FoldSnoc(steps, i, chunk.value);
      combinedListings := combinedListings + chunk.value.listings;
      totalTokens := AddTokenCounts(totalTokens, outcomes[i].value.tokens, acc, chunk.value);
      acc := Combine(acc, chunk.value);
    }
    assert steps[..|outcomes|] == steps;
    return Ok((ListingsObject(combinedListings), totalTokens));
  }

  /** When every `format_data` call returns and every result that has `listings`
      holds an array there, the merge succeeds with the in-order concatenation of
      those arrays and the sums of the chunks' counts; the totals of any prefix of
      the chunks are no larger. */
  lemma {:induction false} CombineCollectsEveryChunk(outcomes: seq<ChunkOutcome>, k: nat)
    requires forall i :: 0 <= i < |outcomes| ==> outcomes[i].Ok?
    requires forall i :: 0 <= i < |outcomes| && ListingsKey in outcomes[i].value.data ==>
               outcomes[i].value.data[ListingsKey].Arr?
    requires k <= |outcomes|
    ensures AllOk(ChunkSteps(outcomes))
    ensures var ts := Values(ChunkSteps(outcomes));
      && (forall i :: 0 <= i < |outcomes| ==>
            ts[i].listings == (if ListingsKey in outcomes[i].value.data
                               then outcomes[i].value.data[ListingsKey].items else []))
      && Fold(ChunkSteps(outcomes)) == Ok(Tally(AllListings(ts), TotalInput(ts), TotalOutput(ts)))
    ensures var p, w := Fold(ChunkSteps(outcomes)[..k]), Fold(ChunkSteps(outcomes));
      p.Ok? && p.value.inputTokens <= w.value.inputTokens && p.value.outputTokens <= w.value.outputTokens
  {
    var steps := ChunkSteps(outcomes);
    forall i | 0 <= i < |steps| ensures steps[i].Ok? {
      assert steps[i] == ChunkStep(outcomes[i]);
    }
    FoldAllOk(steps);
    FoldMonotone(steps, k);
  }

  /** A `format_data` exception on chunk `i`, after every earlier chunk went
      through, ends the whole run with that exception: nothing gathered so far
      is returned. */
  lemma CombineStopsAtRaisingChunk(outcomes: seq<ChunkOutcome>, i: nat)
    requires i < |outcomes| && outcomes[i].Err?
    requires forall k :: 0 <= k < i ==> ChunkStep(outcomes[k]).Ok?
    ensures Fold(ChunkSteps(outcomes)) == Err(outcomes[i].error)
  {
    var steps := ChunkSteps(outcomes);
    assert steps[i] == ChunkStep(outcomes[i]);
    forall k | 0 <= k < i ensures steps[k].Ok? {
      assert steps[k] == ChunkStep(outcomes[k]);
    }
    FoldFirstError(steps, i);
  }
}
