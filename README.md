# DealHunter extraction helpers in Dafny

This project models the string, list and dictionary logic around the DealHunter
scraper's LLM extraction pipeline. Both versions of the pipeline are covered:
the Playwright one (`task4/`) and the Selenium one (`task4_with_selenium/`).
Page fetching, the language models, the JSON decoders and the tokenizer are
taken as given functions. The model covers what the code does with their results:

- **`task4/app.py`** (module `App`):
  - the brace/bracket balancer `balance_json_string` and the repair `best_effort_json_fix`;
  - the overlapping character chunker `process_in_chunks`, a `while` loop;
  - the loop of `perform_scrape` that merges every chunk's `listings` and adds up
    the `total_tokens` dictionary.
- **`task4/scraper.py`** (module `Scraper`):
  - `create_dynamic_schema`, which fills the per-field properties in a loop;
  - `postprocess_listings`, which updates a list of listings in place
    (an `array` here) with nested loops;
  - the four branches of `format_data`, including Gemini's single repair attempt
    and the `final_json["listings"]` post-processing step;
  - `calculate_price`, where a model missing from the price table raises KeyError.
- **`task4_with_selenium/scraper.py`** (module `SeleniumScraper`):
  - `build_prompts`;
  - `chunk_text_by_tokens`, over an abstract token sequence;
  - `extract_json`, with its span selection and two fallbacks;
  - the `format_data` dispatch and the three `_format_with_*` loops;
  - `calculate_price`, where an unknown model costs 0.0.
- **Shared modules**:
  - `Text`: Python's `count`, `*`, `join`, `find`/`rfind`, slicing and `strip`;
  - `Json`: decoded values and Python's exceptions;
  - `Tally`: the left fold that every accumulation loop computes.

Each loop is a Dafny method proved against a specification function: `Chunks`,
`TokenChunks`, `Fold` over per-chunk steps, `Normalize` and `ProcessAll`, and
`FormatDataSpec`. The properties are lemmas about those functions.

A Python exception becomes `Err(..)` of a `Result`. JSON `null`, i.e. Python's
None, is `Null`. A decoder is a function returning `None` when it raises.

## Model

| member | source | states |
|---|---|---|
| Text.Find | DealHunter-Scraper-for-Deals-and-Offers_Feb_2025-sivamohan_musidipalli/task4_with_selenium/scraper.py:156 | `text.find("{")`: -1 exactly when the character is absent, otherwise the index of its first occurrence |
| Text.RFind | DealHunter-Scraper-for-Deals-and-Offers_Feb_2025-sivamohan_musidipalli/task4_with_selenium/scraper.py:157 | `text.rfind("}")`: -1 exactly when the character is absent, otherwise the index of its last occurrence |
| Text.SliceBound | DealHunter-Scraper-for-Deals-and-Offers_Feb_2025-sivamohan_musidipalli/task4_with_selenium/scraper.py:158 | Python's slice bound normalisation: in-range bounds are kept, a negative bound no further back than the length counts from the end, a bound past the end becomes the length, and one further back than minus the length becomes 0 |
| Text.PySlice | DealHunter-Scraper-for-Deals-and-Offers_Feb_2025-sivamohan_musidipalli/task4_with_selenium/scraper.py:158 | `s[start:end]` with both bounds normalised by Text.SliceBound is never longer than `s`; SeleniumScraper.SpanBetweenBraces and SpanWithoutOpenBrace state the span it takes |
| Text.Strip | DealHunter-Scraper-for-Deals-and-Offers_Feb_2025-sivamohan_musidipalli/task4_with_selenium/scraper.py:154 | reference for `strip`; Text.StripIsTrim and Text.StripIdempotent state what it leaves |
| Text.StripIsTrim | DealHunter-Scraper-for-Deals-and-Offers_Feb_2025-sivamohan_musidipalli/task4_with_selenium/scraper.py:154 | `strip` leaves one contiguous piece of its input; everything removed from either end satisfies the strip predicate, and the piece neither starts nor ends with such a character |
| Text.TrimStartFacts | DealHunter-Scraper-for-Deals-and-Offers_Feb_2025-sivamohan_musidipalli/task4_with_selenium/scraper.py:154 | stripping the front drops a leading run of stripped characters and leaves the rest of the text as it was |
| Text.TrimEndFacts | DealHunter-Scraper-for-Deals-and-Offers_Feb_2025-sivamohan_musidipalli/task4_with_selenium/scraper.py:154 | stripping the end drops a trailing run of stripped characters and leaves the rest of the text as it was |
| Text.StripIdempotent | DealHunter-Scraper-for-Deals-and-Offers_Feb_2025-sivamohan_musidipalli/task4_with_selenium/scraper.py:154 | stripping an already stripped text changes nothing |
| Text.Join | DealHunter-Scraper-for-Deals-and-Offers_Feb_2025-sivamohan_musidipalli/task4_with_selenium/scraper.py:111 | reference for `sep.join(xs)`; Text.JoinPiece, JoinGap and JoinLast state where each piece and each separator lies |
| Text.JoinPiece | DealHunter-Scraper-for-Deals-and-Offers_Feb_2025-sivamohan_musidipalli/task4_with_selenium/scraper.py:111 | `", ".join`: each piece sits in the joined string at its offset |
| Text.JoinGap | DealHunter-Scraper-for-Deals-and-Offers_Feb_2025-sivamohan_musidipalli/task4_with_selenium/scraper.py:111 | `", ".join`: exactly one separator lies between two neighbouring pieces |
| Text.JoinLast | DealHunter-Scraper-for-Deals-and-Offers_Feb_2025-sivamohan_musidipalli/task4_with_selenium/scraper.py:119 | `", ".join`: the last piece ends the joined string |
| Text.Count | DealHunter-Scraper-for-Deals-and-Offers_Feb_2025-sivamohan_musidipalli/task4/app.py:30-33 | reference for `s.count(c)`; Text.CountRepeat and App.BalanceCloses state the counts the balancer relies on |
| Text.Repeat | DealHunter-Scraper-for-Deals-and-Offers_Feb_2025-sivamohan_musidipalli/task4/app.py:35-37 | reference for `c * n`; Text.CountRepeat states how many of each character it holds, which App.BalanceCloses relies on |
| Text.CountRepeat | DealHunter-Scraper-for-Deals-and-Offers_Feb_2025-sivamohan_musidipalli/task4/app.py:34-37 | `"}" * n` holds n closers and no other bracket character |
| Json.Get | DealHunter-Scraper-for-Deals-and-Offers_Feb_2025-sivamohan_musidipalli/task4/app.py:126-127 | reference for `tokens_count.get(key, 0)`; App.ChunkStep states the counts the loop reads with it, and Json.CountsUpdate the sums it keeps |
| Json.CountsUpdate | DealHunter-Scraper-for-Deals-and-Offers_Feb_2025-sivamohan_musidipalli/task4/app.py:126-127 | the two `+=` updates of `total_tokens` give the dictionary of the two new sums |
| Json.ListingsLookup | DealHunter-Scraper-for-Deals-and-Offers_Feb_2025-sivamohan_musidipalli/task4_with_selenium/scraper.py:241-242 | `"listings" in parsed` then `parsed["listings"]`: a dictionary never raises and yields its value exactly when it holds the key; a list raises TypeError exactly when it holds the string "listings", a string exactly when it contains "listings"; None, numbers and booleans always raise TypeError; TypeError is the only error |
| Json.ExtendBy | DealHunter-Scraper-for-Deals-and-Offers_Feb_2025-sivamohan_musidipalli/task4_with_selenium/scraper.py:242 | `list.extend(value)` appends exactly an array's items, or a string's characters one by one, in order; every other value raises TypeError |
| Json.Contribution | DealHunter-Scraper-for-Deals-and-Offers_Feb_2025-sivamohan_musidipalli/task4_with_selenium/scraper.py:241-242 | a dictionary without `listings` adds nothing, one holding an array adds exactly that array, and the only error is TypeError |
| Tally.Fold | DealHunter-Scraper-for-Deals-and-Offers_Feb_2025-sivamohan_musidipalli/task4_with_selenium/scraper.py:220-242 | reference for every accumulation loop, taken chunk by chunk from the left; Tally.FoldAllOk, FoldFirstError, FoldOkIffAllOk, FoldMonotone and TotalsOrderIndependent state its result |
| Tally.FoldAllOk | DealHunter-Scraper-for-Deals-and-Offers_Feb_2025-sivamohan_musidipalli/task4_with_selenium/scraper.py:216-244 | when no chunk fails, the accumulation loop gathers the in-order concatenation of every chunk's listings and the sums of their token counts |
| Tally.FoldFirstError | DealHunter-Scraper-for-Deals-and-Offers_Feb_2025-sivamohan_musidipalli/task4_with_selenium/scraper.py:220-242 | the first failing chunk decides the run's error |
| Tally.FoldSnoc | DealHunter-Scraper-for-Deals-and-Offers_Feb_2025-sivamohan_musidipalli/task4_with_selenium/scraper.py:236-242 | one more successful chunk extends the run by exactly that chunk's listings and counts |
| Tally.FoldStopsAt | DealHunter-Scraper-for-Deals-and-Offers_Feb_2025-sivamohan_musidipalli/task4_with_selenium/scraper.py:220-242 | a failing chunk after a successful prefix ends the run with that chunk's error |
| Tally.FoldOkIffAllOk | DealHunter-Scraper-for-Deals-and-Offers_Feb_2025-sivamohan_musidipalli/task4_with_selenium/scraper.py:220-242 | a run fails exactly when one of its chunks fails |
| Tally.FoldMonotone | DealHunter-Scraper-for-Deals-and-Offers_Feb_2025-sivamohan_musidipalli/task4/app.py:116-127 | every prefix of a successful run succeeds with a prefix of its listings and token totals no larger than the final ones |
| Tally.TotalsOrderIndependent | DealHunter-Scraper-for-Deals-and-Offers_Feb_2025-sivamohan_musidipalli/task4/app.py:126-127 | the token totals do not depend on the order of the chunks: any rearrangement of the same per-chunk counts gives the same sums |
| App.BalanceJsonString | DealHunter-Scraper-for-Deals-and-Offers_Feb_2025-sivamohan_musidipalli/task4/app.py:29-38 | reference for `balance_json_string`; App.BalanceShape, BalanceCloses, BalanceUnchangedIffClosed and BalanceIdempotent state what it returns |
| App.BalanceShape | DealHunter-Scraper-for-Deals-and-Offers_Feb_2025-sivamohan_musidipalli/task4/app.py:29-38 | the result is the input unchanged as a prefix, then exactly max(0, opens - closes) `}` characters, then exactly max(0, opens - closes) `]` characters, and nothing else |
| App.BalanceCloses | DealHunter-Scraper-for-Deals-and-Offers_Feb_2025-sivamohan_musidipalli/task4/app.py:30-37 | balancing keeps the opener counts, leaves no kind with more openers than closers, and makes them equal wherever the openers had not been outnumbered |
| App.BalanceUnchangedIffClosed | DealHunter-Scraper-for-Deals-and-Offers_Feb_2025-sivamohan_musidipalli/task4/app.py:33-38 | the input comes back unchanged exactly when, for both kinds, the closers already match or outnumber the openers |
| App.BalanceIdempotent | DealHunter-Scraper-for-Deals-and-Offers_Feb_2025-sivamohan_musidipalli/task4/app.py:29-38 | balancing a balanced string changes nothing |
| App.BestEffortJsonFix | DealHunter-Scraper-for-Deals-and-Offers_Feb_2025-sivamohan_musidipalli/task4/app.py:40-45 | reference for `best_effort_json_fix`; App.BestEffortFixDecodesBalanced states what it returns |
| App.BestEffortFixDecodesBalanced | DealHunter-Scraper-for-Deals-and-Offers_Feb_2025-sivamohan_musidipalli/task4/app.py:40-45 | the repair is the decode of the balanced string, not of the original; a decode failure gives None and is never raised; on an already closed input it is the plain decode |
| App.Chunks | DealHunter-Scraper-for-Deals-and-Offers_Feb_2025-sivamohan_musidipalli/task4/app.py:54-58 | reference for the chunks the `while` loop emits from an offset; App.ChunkAt, ChunkCount, LastChunkReachesEnd and ReassembleChunks state what they are, and App.ProcessInChunks computes them |
| App.ProcessInChunks | DealHunter-Scraper-for-Deals-and-Offers_Feb_2025-sivamohan_musidipalli/task4/app.py:50-59 | the `while` loop returns `[]` for empty content and otherwise exactly the chunks at every step below the length; it needs `overlap < chunk_size` only when there is content |
| App.OffsetFormula | DealHunter-Scraper-for-Deals-and-Offers_Feb_2025-sivamohan_musidipalli/task4/app.py:54-58 | chunk i starts at `i * (chunk_size - overlap)` |
| App.ChunkAt | DealHunter-Scraper-for-Deals-and-Offers_Feb_2025-sivamohan_musidipalli/task4/app.py:54-57 | chunk i is `content[i*step : min(len, i*step + chunk_size)]`, starts inside the content, is non-empty and at most `chunk_size` long |
| App.ChunkCount | DealHunter-Scraper-for-Deals-and-Offers_Feb_2025-sivamohan_musidipalli/task4/app.py:54-58 | the loop stops at the first offset at or past the end of the content |
| App.LastChunkReachesEnd | DealHunter-Scraper-for-Deals-and-Offers_Feb_2025-sivamohan_musidipalli/task4/app.py:54-58 | the last chunk runs to the end of the content |
| App.ReassembleChunks | DealHunter-Scraper-for-Deals-and-Offers_Feb_2025-sivamohan_musidipalli/task4/app.py:53-58 | the first `step` characters of each chunk, with the last chunk taken whole, concatenate back to the content |
| App.ShortContentSingleChunk | DealHunter-Scraper-for-Deals-and-Offers_Feb_2025-sivamohan_musidipalli/task4/app.py:50-59 | content no longer than one step is returned as the single chunk `[content]` |
| App.ShortContentRepeatsTail | DealHunter-Scraper-for-Deals-and-Offers_Feb_2025-sivamohan_musidipalli/task4/app.py:54-58 | as written, content no longer than `chunk_size` but longer than one step comes back as the whole content followed by its tail from the step on |
| App.TailExample | DealHunter-Scraper-for-Deals-and-Offers_Feb_2025-sivamohan_musidipalli/task4/app.py:50-59 | as written, `process_in_chunks("abc", 3, 2)` is `["abc", "bc", "c"]` |
| App.ChunksToEndPrefix | DealHunter-Scraper-for-Deals-and-Offers_Feb_2025-sivamohan_musidipalli/task4/app.py:54-58 | the corrected chunker, which stops once a chunk reaches the end, emits a prefix of the original's chunks |
| App.ChunksToEndReassemble | DealHunter-Scraper-for-Deals-and-Offers_Feb_2025-sivamohan_musidipalli/task4/app.py:53-58 | the corrected chunks still concatenate back to the content |
| App.ChunksToEndStops | DealHunter-Scraper-for-Deals-and-Offers_Feb_2025-sivamohan_musidipalli/task4/app.py:54-58 | in the corrected chunking only the last chunk reaches the end of the content |
| App.ChunksToEndSingle | DealHunter-Scraper-for-Deals-and-Offers_Feb_2025-sivamohan_musidipalli/task4/app.py:50-59 | with the correction, content no longer than `chunk_size` is the single chunk `[content]` |
| App.SlidersAllowStall | DealHunter-Scraper-for-Deals-and-Offers_Feb_2025-sivamohan_musidipalli/task4/app.py:71-84 | the slider values chunk size 1000 and overlap 2000 are allowed, and with them `start` never becomes positive, so the loop never ends on non-empty content |
| App.ChunkStep | DealHunter-Scraper-for-Deals-and-Offers_Feb_2025-sivamohan_musidipalli/task4/app.py:116-127 | one pass of the merge loop: an exception raised by the chunk's `format_data` call is the pass's error; a returned result without `listings` adds no listings; a successful pass adds the chunk's counts with missing ones as 0 |
| App.ChunkSteps | DealHunter-Scraper-for-Deals-and-Offers_Feb_2025-sivamohan_musidipalli/task4/app.py:116-127 | one step per chunk's `format_data` outcome, in order, each being that chunk's pass of the loop |
| App.ReadChunkResult | DealHunter-Scraper-for-Deals-and-Offers_Feb_2025-sivamohan_musidipalli/task4/app.py:117-124 | the `format_data` outcome and the `if "listings" in chunk_result: extend` lines compute exactly the chunk's pass of the loop, up to the counts |
| App.AddTokenCounts | DealHunter-Scraper-for-Deals-and-Offers_Feb_2025-sivamohan_musidipalli/task4/app.py:126-127 | the two `+=` lines turn the totals so far into the totals including this chunk |
| App.CombineChunkResults | DealHunter-Scraper-for-Deals-and-Offers_Feb_2025-sivamohan_musidipalli/task4/app.py:113-129 | the merge loop returns `{"listings": ...}` with the run's listings and the `total_tokens` dictionary of its sums, or the first exception, whether raised by a chunk's `format_data` call or by `extend` |
| App.CombineCollectsEveryChunk | DealHunter-Scraper-for-Deals-and-Offers_Feb_2025-sivamohan_musidipalli/task4/app.py:113-129 | when every `format_data` call returns and every `listings` value is a list, the merge succeeds with the in-order concatenation of the lists of the chunks that have the key (the others add nothing), the sums of the counts, and totals that never decrease along the chunks |
| App.CombineStopsAtRaisingChunk | DealHunter-Scraper-for-Deals-and-Offers_Feb_2025-sivamohan_musidipalli/task4/app.py:116-122 | a `format_data` exception on a chunk after successful passes ends the whole run with that exception, and nothing gathered so far is returned |
| Scraper.CreateDynamicSchema | DealHunter-Scraper-for-Deals-and-Offers_Feb_2025-sivamohan_musidipalli/task4/scraper.py:45-68 | the schema requires `listings`, types it as an array of objects whose `properties` has exactly the field names, each `{"type": "string"}`, and whose `required` is the field list in order |
| Scraper.RequiredFields | DealHunter-Scraper-for-Deals-and-Offers_Feb_2025-sivamohan_musidipalli/task4/scraper.py:62 | the `required` list of a listing is the field names in their order |
| Scraper.NormalizedMeetsSchema | DealHunter-Scraper-for-Deals-and-Offers_Feb_2025-sivamohan_musidipalli/task4/scraper.py:78-81 | after post-processing, a listing has every field the schema requires |
| Scraper.Normalize | DealHunter-Scraper-for-Deals-and-Offers_Feb_2025-sivamohan_musidipalli/task4/scraper.py:79-81 | a dictionary listing gains exactly the missing fields, each with value ""; present keys, including extra ones, keep their values |
| Scraper.NormalizeIdempotent | DealHunter-Scraper-for-Deals-and-Offers_Feb_2025-sivamohan_musidipalli/task4/scraper.py:79-81 | normalising twice is normalising once |
| Scraper.NormalizeStep | DealHunter-Scraper-for-Deals-and-Offers_Feb_2025-sivamohan_musidipalli/task4/scraper.py:79-81 | one pass of the inner loop adds the field with "" when it is missing and changes nothing otherwise |
| Scraper.NormalizeKeepsComplete | DealHunter-Scraper-for-Deals-and-Offers_Feb_2025-sivamohan_musidipalli/task4/scraper.py:79-81 | a listing is left unchanged exactly when it already has every field |
| Scraper.ProcessItem | DealHunter-Scraper-for-Deals-and-Offers_Feb_2025-sivamohan_musidipalli/task4/scraper.py:79-81 | a dictionary always succeeds: it gains exactly the missing fields, each with "", and every key it had keeps its value; any other item comes back unchanged exactly when every `in` test finds the field, and raises TypeError otherwise |
| Scraper.PostprocessItem | DealHunter-Scraper-for-Deals-and-Offers_Feb_2025-sivamohan_musidipalli/task4/scraper.py:79-81 | the inner `for` loop over the fields computes exactly the processing of one item |
| Scraper.ProcessAll | DealHunter-Scraper-for-Deals-and-Offers_Feb_2025-sivamohan_musidipalli/task4/scraper.py:78-82 | the list succeeds exactly when every item does, keeps its length and order, and then every dictionary in it has every field while every other item is unchanged; the only error is TypeError |
| Scraper.PostprocessListings | DealHunter-Scraper-for-Deals-and-Offers_Feb_2025-sivamohan_musidipalli/task4/scraper.py:74-82 | the list is updated in place with its length and order unchanged: on success it holds every processed item, and on TypeError the items before the first failing one are processed and the rest are untouched |
| Scraper.ProcessItemIdempotent | DealHunter-Scraper-for-Deals-and-Offers_Feb_2025-sivamohan_musidipalli/task4/scraper.py:78-81 | post-processing an item twice is post-processing it once |
| Scraper.ProcessListingsValue | DealHunter-Scraper-for-Deals-and-Offers_Feb_2025-sivamohan_musidipalli/task4/scraper.py:194 | a list is processed item by item; iterating a string or a dictionary leaves it unchanged or raises; None, numbers and booleans cannot be iterated and raise |
| Scraper.Finish | DealHunter-Scraper-for-Deals-and-Offers_Feb_2025-sivamohan_musidipalli/task4/scraper.py:193-196 | reference for the post-processing step ending every branch; Scraper.FinishShape, FinishNormalizesListings, FinishIdempotent and FinishErrors state it, and Scraper.FinishListings computes it |
| Scraper.FinishListings | DealHunter-Scraper-for-Deals-and-Offers_Feb_2025-sivamohan_musidipalli/task4/scraper.py:193-196 | the `if "listings" in final_json` step sets `listings` to the processed value or to `[]` |
| Scraper.FinishShape | DealHunter-Scraper-for-Deals-and-Offers_Feb_2025-sivamohan_musidipalli/task4/scraper.py:193-196 | a successful step keeps every other key and value and sets `listings` to the processed list when present and to `[]` when not |
| Scraper.FinishNormalizesListings | DealHunter-Scraper-for-Deals-and-Offers_Feb_2025-sivamohan_musidipalli/task4/scraper.py:193-196 | when `listings` is a list of dictionaries the step succeeds and every listing afterwards has every field and keeps its own values |
| Scraper.FinishIdempotent | DealHunter-Scraper-for-Deals-and-Offers_Feb_2025-sivamohan_musidipalli/task4/scraper.py:193-196 | post-processing a post-processed result changes nothing |
| Scraper.FinishErrors | DealHunter-Scraper-for-Deals-and-Offers_Feb_2025-sivamohan_musidipalli/task4/scraper.py:193-196 | post-processing only ever raises TypeError |
| Scraper.FixPrompt | DealHunter-Scraper-for-Deals-and-Offers_Feb_2025-sivamohan_musidipalli/task4/scraper.py:146-156 | reference for the prompt `fix_json_output` sends: the system message, a newline, the user message and the data, the fixed request to correct the JSON, and `\nBroken JSON:\n` followed by the broken text; Scraper.GeminiRepairOnlyOnFailure states when it is sent |
| Scraper.GeminiPrompt | DealHunter-Scraper-for-Deals-and-Offers_Feb_2025-sivamohan_musidipalli/task4/scraper.py:215 | reference for the Gemini prompt `SYSTEM_MESSAGE + "\n" + USER_MESSAGE + data`; Scraper.GeminiOutput and GeminiFallbacks state what its completion gives |
| Scraper.GeminiJson | DealHunter-Scraper-for-Deals-and-Offers_Feb_2025-sivamohan_musidipalli/task4/scraper.py:224-245 | reference for what the Gemini branch holds before post-processing; Scraper.GeminiReply computes it, and GeminiFallbacks and GeminiRepairOnlyOnFailure state its cases |
| Scraper.ModelOutput | DealHunter-Scraper-for-Deals-and-Offers_Feb_2025-sivamohan_musidipalli/task4/scraper.py:161-306 | reference for each branch's result and counts before post-processing; Scraper.UnsupportedModelRaises, ChatDecodeFailureRaises and GeminiOutput state its cases |
| Scraper.FormatDataSpec | DealHunter-Scraper-for-Deals-and-Offers_Feb_2025-sivamohan_musidipalli/task4/scraper.py:161-306 | reference for `format_data`; Scraper.FormatData computes it, and FormatDataListingsComplete, UnsupportedModelRaises and ChatDecodeFailureRaises state what it returns |
| Scraper.FormatData | DealHunter-Scraper-for-Deals-and-Offers_Feb_2025-sivamohan_musidipalli/task4/scraper.py:161-306 | the four-branch dispatch returns each branch's post-processed result and token counts, raises the decode error for an undecodable Llama or Groq reply, and raises ValueError for other models |
| Scraper.GeminiReply | DealHunter-Scraper-for-Deals-and-Offers_Feb_2025-sivamohan_musidipalli/task4/scraper.py:224-245 | the Gemini reply handling, with at most one repair call, holds exactly the decoded or repaired JSON, or `{"listings": []}` |
| Scraper.UnsupportedModelRaises | DealHunter-Scraper-for-Deals-and-Offers_Feb_2025-sivamohan_musidipalli/task4/scraper.py:305-306 | ValueError is raised exactly for the models outside the four branches |
| Scraper.FormatDataListingsComplete | DealHunter-Scraper-for-Deals-and-Offers_Feb_2025-sivamohan_musidipalli/task4/scraper.py:193-302 | every successful result is a dictionary with `listings`, and when that is a list every dictionary in it has every field |
| Scraper.GeminiFallbacks | DealHunter-Scraper-for-Deals-and-Offers_Feb_2025-sivamohan_musidipalli/task4/scraper.py:218-252 | a restricted or textless reply, or one whose direct and repaired decodes both fail or give null, gives `{"listings": []}`; the counts always come from the first call |
| Scraper.GeminiOutput | DealHunter-Scraper-for-Deals-and-Offers_Feb_2025-sivamohan_musidipalli/task4/scraper.py:215-222 | the Gemini branch's counts are the usage of its first call |
| Scraper.FinishEmpty | DealHunter-Scraper-for-Deals-and-Offers_Feb_2025-sivamohan_musidipalli/task4/scraper.py:245-251 | post-processing leaves `{"listings": []}` as it is |
| Scraper.GeminiRepairOnlyOnFailure | DealHunter-Scraper-for-Deals-and-Offers_Feb_2025-sivamohan_musidipalli/task4/scraper.py:230-242 | at most one repair call is made, and only after the direct decode fails: the repair back end cannot change the result otherwise |
| Scraper.ChatDecodeFailureRaises | DealHunter-Scraper-for-Deals-and-Offers_Feb_2025-sivamohan_musidipalli/task4/scraper.py:257-303 | for Llama and Groq, an undecodable reply is exactly when the decode error escapes |
| Scraper.CalculatePrice | DealHunter-Scraper-for-Deals-and-Offers_Feb_2025-sivamohan_musidipalli/task4/scraper.py:330-336 | a model without a price entry raises KeyError; otherwise the counts are passed through with missing ones as 0, and the cost is input count times input rate plus output count times output rate |
| Scraper.PriceAdditive | DealHunter-Scraper-for-Deals-and-Offers_Feb_2025-sivamohan_musidipalli/task4/scraper.py:333-335 | the cost of summed counts is the sum of the costs |
| Scraper.PriceNonNegative | DealHunter-Scraper-for-Deals-and-Offers_Feb_2025-sivamohan_musidipalli/task4/scraper.py:333-335 | with non-negative rates the cost is not negative |
| SeleniumScraper.BuildPrompts | DealHunter-Scraper-for-Deals-and-Offers_Feb_2025-sivamohan_musidipalli/task4_with_selenium/scraper.py:108-125 | reference for `build_prompts`; SeleniumScraper.SystemMessageShape, SystemMessagePlacesFields and UserMessagePlacesFields state the two messages |
| SeleniumScraper.QuoteAll | DealHunter-Scraper-for-Deals-and-Offers_Feb_2025-sivamohan_musidipalli/task4_with_selenium/scraper.py:111 | reference for the pieces `'"f":""'` of the example listing, one per field; SeleniumScraper.SystemMessagePlacesFields and SystemMessageShape state where they land in the system message |
| SeleniumScraper.SystemMessagePlacesFields | DealHunter-Scraper-for-Deals-and-Offers_Feb_2025-sivamohan_musidipalli/task4_with_selenium/scraper.py:111-116 | each quoted field appears in the system message's example listing, in field order |
| SeleniumScraper.UserMessagePlacesFields | DealHunter-Scraper-for-Deals-and-Offers_Feb_2025-sivamohan_musidipalli/task4_with_selenium/scraper.py:119-123 | each field appears by name in the user message, in field order |
| SeleniumScraper.SystemMessageShape | DealHunter-Scraper-for-Deals-and-Offers_Feb_2025-sivamohan_musidipalli/task4_with_selenium/scraper.py:113-116 | the system message has the fixed head ending in `{"listings":[{`, then exactly the joined quoted fields, then `}]}` and a newline |
| SeleniumScraper.TokenChunks | DealHunter-Scraper-for-Deals-and-Offers_Feb_2025-sivamohan_musidipalli/task4_with_selenium/scraper.py:139-147 | reference for the token slices of the `while` loop; SeleniumScraper.TokenChunksFlatten, TokenChunksSizes, TokenChunksCount and TokenChunksEmpty state them, and ChunkTextByTokens computes their decodes |
| SeleniumScraper.TokenChunksFlatten | DealHunter-Scraper-for-Deals-and-Offers_Feb_2025-sivamohan_musidipalli/task4_with_selenium/scraper.py:139-147 | the token chunks are consecutive and non-overlapping: together they are exactly the tokens |
| SeleniumScraper.TokenChunksSizes | DealHunter-Scraper-for-Deals-and-Offers_Feb_2025-sivamohan_musidipalli/task4_with_selenium/scraper.py:141-146 | every chunk is non-empty and all but the last hold exactly `max_chunk_tokens` tokens |
| SeleniumScraper.TokenChunksCount | DealHunter-Scraper-for-Deals-and-Offers_Feb_2025-sivamohan_musidipalli/task4_with_selenium/scraper.py:141-146 | the number of chunks is the ceiling of the token count over `max_chunk_tokens` |
| SeleniumScraper.TokenChunksEmpty | DealHunter-Scraper-for-Deals-and-Offers_Feb_2025-sivamohan_musidipalli/task4_with_selenium/scraper.py:139-141 | no tokens give no chunks |
| SeleniumScraper.DecodeAll | DealHunter-Scraper-for-Deals-and-Offers_Feb_2025-sivamohan_musidipalli/task4_with_selenium/scraper.py:144-145 | each chunk's text is the decode of its tokens, in order |
| SeleniumScraper.ChunkTextByTokens | DealHunter-Scraper-for-Deals-and-Offers_Feb_2025-sivamohan_musidipalli/task4_with_selenium/scraper.py:130-147 | the `while` loop returns exactly the decoded token chunks, in order |
| SeleniumScraper.Cleaned | DealHunter-Scraper-for-Deals-and-Offers_Feb_2025-sivamohan_musidipalli/task4_with_selenium/scraper.py:154 | reference for ``text.strip("`").strip()``; SeleniumScraper.CleanedIsStripped states what it leaves |
| SeleniumScraper.JsonSpan | DealHunter-Scraper-for-Deals-and-Offers_Feb_2025-sivamohan_musidipalli/task4_with_selenium/scraper.py:156-158 | reference for the brace span; SeleniumScraper.SpanBetweenBraces and SpanWithoutOpenBrace state what it is |
| SeleniumScraper.ExtractJson | DealHunter-Scraper-for-Deals-and-Offers_Feb_2025-sivamohan_musidipalli/task4_with_selenium/scraper.py:152-164 | reference for `extract_json`; SeleniumScraper.ExtractJsonFallsThrough and RawTextContributesNothing state its fallbacks |
| SeleniumScraper.SpanBetweenBraces | DealHunter-Scraper-for-Deals-and-Offers_Feb_2025-sivamohan_musidipalli/task4_with_selenium/scraper.py:156-158 | with a `{` before a later `}`, the span runs from the first `{` through the last `}` inclusive |
| SeleniumScraper.SpanWithoutOpenBrace | DealHunter-Scraper-for-Deals-and-Offers_Feb_2025-sivamohan_musidipalli/task4_with_selenium/scraper.py:156-158 | without a `{` (find gives -1), or with no `}` after it, the span is "" or "}" |
| SeleniumScraper.ExtractJsonFallsThrough | DealHunter-Scraper-for-Deals-and-Offers_Feb_2025-sivamohan_musidipalli/task4_with_selenium/scraper.py:155-164 | so a strict decoder that rejects those spans always hands over to the tolerant decode of the whole text, and then to `{"listings": [], "raw_text": text}` |
| SeleniumScraper.CleanedIsStripped | DealHunter-Scraper-for-Deals-and-Offers_Feb_2025-sivamohan_musidipalli/task4_with_selenium/scraper.py:154 | the text the decoders see neither starts nor ends with whitespace |
| SeleniumScraper.RawTextContributesNothing | DealHunter-Scraper-for-Deals-and-Offers_Feb_2025-sivamohan_musidipalli/task4_with_selenium/scraper.py:164 | the fallback result adds no listings and never fails |
| SeleniumScraper.MaxChunkTokens | DealHunter-Scraper-for-Deals-and-Offers_Feb_2025-sivamohan_musidipalli/task4_with_selenium/scraper.py:215-296 | reference for the chunk limits the three loops pass: 2000 tokens for OpenAI (line 215) and 2500 for Gemini and Groq (lines 260 and 296); SeleniumScraper.TokenChunksSizes and TokenChunksCount state what the limit does |
| SeleniumScraper.RequestFor | DealHunter-Scraper-for-Deals-and-Offers_Feb_2025-sivamohan_musidipalli/task4_with_selenium/scraper.py:221-302 | reference for what each loop sends with chunk i: OpenAI's system message and `user_message + "\n" + chunk` (lines 227-228), and for Gemini and Groq the single prompt `system\nuser\nchunk` (lines 266 and 302); SeleniumScraper.RunCollectsEveryChunk and ProviderCollectsEveryChunk tie each chunk's step to the reply to this request |
| SeleniumScraper.UsageCount | DealHunter-Scraper-for-Deals-and-Offers_Feb_2025-sivamohan_musidipalli/task4_with_selenium/scraper.py:232-234 | reference for reading one usage count (`getattr(..., 0)` for Gemini at lines 270-271); SeleniumScraper.ReplyStep and GeminiIgnoresMissingUsage state what it allows |
| SeleniumScraper.ParsedReply | DealHunter-Scraper-for-Deals-and-Offers_Feb_2025-sivamohan_musidipalli/task4_with_selenium/scraper.py:239-240 | reference for the extracted JSON of a reply (stripped first for Gemini and Groq, lines 275-276 and 310-311); SeleniumScraper.ReplyStep and ProviderCollectsEveryChunk state what the loop takes from it |
| SeleniumScraper.ReplyStep | DealHunter-Scraper-for-Deals-and-Offers_Feb_2025-sivamohan_musidipalli/task4_with_selenium/scraper.py:232-242 | a reply is usable exactly when its counts can be read (always for Gemini, only when both are present for OpenAI and Groq) and its `listings` can be extended by; a usable reply adds its usage counts, missing Gemini ones as 0, and, when the extracted JSON is a dictionary whose `listings` is a list, exactly that list, or nothing without the key |
| SeleniumScraper.ProviderSteps | DealHunter-Scraper-for-Deals-and-Offers_Feb_2025-sivamohan_musidipalli/task4_with_selenium/scraper.py:220-242 | reference for what every chunk's reply adds, in chunk order; SeleniumScraper.SendChunks computes its fold, and RunCollectsEveryChunk and ProviderCollectsEveryChunk tie each step to its chunk's reply |
| SeleniumScraper.ReadReply | DealHunter-Scraper-for-Deals-and-Offers_Feb_2025-sivamohan_musidipalli/task4_with_selenium/scraper.py:232-242 | the loop body computes exactly what one chunk's reply adds to the run |
| SeleniumScraper.SendChunk | DealHunter-Scraper-for-Deals-and-Offers_Feb_2025-sivamohan_musidipalli/task4_with_selenium/scraper.py:221-242 | one iteration sends chunk i and returns its step |
| SeleniumScraper.SendChunks | DealHunter-Scraper-for-Deals-and-Offers_Feb_2025-sivamohan_musidipalli/task4_with_selenium/scraper.py:220-242 | the `for` loop over the chunks computes exactly the fold of their steps |
| SeleniumScraper.FormatWithProvider | DealHunter-Scraper-for-Deals-and-Offers_Feb_2025-sivamohan_musidipalli/task4_with_selenium/scraper.py:211-251 | a provider function chunks the text, runs the loop and returns the dumped `{"listings": ...}` with the summed counts, or the first chunk's error |
| SeleniumScraper.RunCollectsEveryChunk | DealHunter-Scraper-for-Deals-and-Offers_Feb_2025-sivamohan_musidipalli/task4_with_selenium/scraper.py:216-251 | when every reply is usable, the run returns the in-order concatenation of every chunk's listings with the summed counts, and chunk i's part holds its reply's usage counts (missing ones as 0) and its extracted JSON's `listings` list, or nothing without the key |
| SeleniumScraper.ProviderCollectsEveryChunk | DealHunter-Scraper-for-Deals-and-Offers_Feb_2025-sivamohan_musidipalli/task4_with_selenium/scraper.py:216-251 | when every reply has its usage counts (or the provider is Gemini) and its extracted JSON is a dictionary whose `listings`, if any, is a list, the run succeeds; chunk i adds exactly that list (or nothing without the key) and its reply's counts, and the result is the dumped concatenation with the summed counts |
| SeleniumScraper.RunFailsAtFirstBadChunk | DealHunter-Scraper-for-Deals-and-Offers_Feb_2025-sivamohan_musidipalli/task4_with_selenium/scraper.py:220-242 | a run fails with the first unusable chunk's error |
| SeleniumScraper.EmptyDataRun | DealHunter-Scraper-for-Deals-and-Offers_Feb_2025-sivamohan_musidipalli/task4_with_selenium/scraper.py:139-147 | text without tokens makes no calls and returns empty listings and zero counts |
| SeleniumScraper.ProviderFor | DealHunter-Scraper-for-Deals-and-Offers_Feb_2025-sivamohan_musidipalli/task4_with_selenium/scraper.py:186-206 | reference for the dispatch on the model name: "openai-gpt-3.5", "gemini-2.0-flash" and "groq-llama" select their provider and any other name none; SeleniumScraper.FormatDataDispatch states that exactly the names of the price table reach a provider |
| SeleniumScraper.FormatDataSpec | DealHunter-Scraper-for-Deals-and-Offers_Feb_2025-sivamohan_musidipalli/task4_with_selenium/scraper.py:169-206 | reference for `format_data`; SeleniumScraper.FormatData computes it, and FormatDataDispatch, RunCollectsEveryChunk, ProviderCollectsEveryChunk, RunFailsAtFirstBadChunk and EmptyDataRun state what it returns |
| SeleniumScraper.FormatData | DealHunter-Scraper-for-Deals-and-Offers_Feb_2025-sivamohan_musidipalli/task4_with_selenium/scraper.py:169-206 | the dispatch calls the provider function of the chosen model and returns the empty result for any other name |
| SeleniumScraper.FormatDataDispatch | DealHunter-Scraper-for-Deals-and-Offers_Feb_2025-sivamohan_musidipalli/task4_with_selenium/scraper.py:186-206 | exactly the three models of the price table reach a provider, and any other name returns `("", {0, 0})` |
| SeleniumScraper.GeminiIgnoresMissingUsage | DealHunter-Scraper-for-Deals-and-Offers_Feb_2025-sivamohan_musidipalli/task4_with_selenium/scraper.py:270-271 | Gemini's loop never fails on a missing usage count |
| SeleniumScraper.CalculatePrice | DealHunter-Scraper-for-Deals-and-Offers_Feb_2025-sivamohan_musidipalli/task4_with_selenium/scraper.py:363-371 | counts are passed through with missing ones as 0; a model of the price table costs input count times input rate plus output count times output rate, any other model 0.0, and no cost is negative |
| SeleniumScraper.PriceFacts | DealHunter-Scraper-for-Deals-and-Offers_Feb_2025-sivamohan_musidipalli/task4_with_selenium/scraper.py:32-36 | the `PRICING` table (the constant `SeleniumScraper.Pricing`): Groq costs nothing, Gemini's output tokens cost three times its input tokens, and the cost of summed counts is the sum of the costs |

## Left out

- Page fetching, HTML clean-up, markdown conversion, file saving, pandas and Excel output, the Streamlit UIs and the asyncio setup are all I/O. They are not part of this model.
- The language-model clients are function-typed fields of `Scraper.Backends` and `SeleniumScraper.Services`: OpenAI's parse call, Gemini, its repair call, LM Studio, Groq and the Selenium version's three providers. A reply is whatever the field returns for the request built from the prompt.
- `fix_json_output` is modelled as its prompt (`Scraper.FixPrompt`) handed to the repair back end. The network call itself is that back end.
- `json.loads`, `demjson3.decode`, `json.dumps` and tiktoken's encode, decode and length are function parameters. No JSON parser or tokenizer is written here.
- Pydantic's dynamic models are only the field list they are built from. `create_dynamic_listing_model` and `create_listings_container_model` generate types at run time.
- OpenAI's schema-validated reply is its list of listing dictionaries. Validation happens in the client library.
- Floating-point rounding: rates and costs are exact `real` numbers, and JSON numbers are integers.
- The `task4` price table lives in an `assets` module outside this model. `Scraper.CalculatePrice` therefore takes it as a parameter.
- Dictionary insertion order: JSON objects are unordered maps. Python's normaliser appends the missing fields after the existing keys, and that order reaches the string `json.dumps` returns in the Selenium `format_data` and the OpenAI output-token count in `task4`. The model takes `dumps` and the token length as functions of the unordered value, so it does not capture how key order changes them. Dictionary order also matters for `Json.ExtendBy` below.
- Json.ExtendBy: Python's `list.extend` on a dictionary appends its keys in insertion order. The unordered map cannot give that order, so a dictionary under `listings` is reported as TypeError.
- Gemini's `completion.text` is taken as present in the Selenium loop, although the client raises when the reply has no text. Groq's `completion["text"]` is taken as present too.
- `print` calls have no effect on the results and are left out. The Gemini branch of `task4` also calls `model_obj.count_tokens(prompt)` and never uses the result. That call goes over the network and can raise; the model leaves the call out, so it does not capture that failure.
- `task4/chunk_processor.py` wraps a LangChain splitter and is not part of this model. The same holds for the week1/week2 scrapers and `geminiapikeywork.py`.
- The Selenium `format_data` ignores its two model-class parameters, and the model drops them.
- Scraper.Backends: `task4` configures the Gemini model, and so its repair call, with the schema of `create_dynamic_schema(field_list)`, and it gives OpenAI the container model built from the fields. The back-end fields of the model receive neither the schema nor the field list. A reply therefore cannot depend on the requested fields, and `Scraper.CreateDynamicSchema` is not connected to `Scraper.FormatData`.
- Default arguments are not modelled: `chunk_size=3000` and `overlap=300` of `process_in_chunks`, and `model_name="gpt-3.5-turbo"` and `max_chunk_tokens=2500` of `chunk_text_by_tokens`. Every call the model covers passes the sizes explicitly. The tokenizer that the model name selects is the `Tokenizer` parameter.
- Python updates each listing dictionary in place, and `PostprocessListings` models this by reassigning the array slot to the updated value. A dictionary that appears twice in the list, or is shared with another variable, is not modelled as shared.
- App.CombineChunkResults: the `format_data` outcome of every chunk is an input sequence, and the loop reads the outcome of chunk i in pass i. Python makes the call in pass i, so after an exception the later chunks are never sent. The model states that the run ends with that exception, but it does not capture that the later calls are not made. The model follows the code here: one raising chunk ends `perform_scrape`, although the design intends that one failing chunk does not end the run.
- Some loop bodies are written as helper methods (`App.ReadChunkResult`, `App.AddTokenCounts`, `SeleniumScraper.SendChunk`, `SeleniumScraper.ReadReply`, `Scraper.GeminiReply`). The statements are the source's, grouped so that each iteration is proved on its own.

## Findings

| source | as written | input that shows it | evidently intended | confidence | as-written member | corrected member |
|---|---|---|---|---|---|---|
| DealHunter-Scraper-for-Deals-and-Offers_Feb_2025-sivamohan_musidipalli/task4/app.py:54-58 | The loop keeps going while `start < len(content)`, even after a chunk has reached the end, so the tail of the content is sent again as extra chunks lying inside the previous one. | `process_in_chunks("abc", 3, 2)` gives `["abc", "bc", "c"]`, although the content fits one chunk. | Stop once a chunk reaches the end, so content no longer than `chunk_size` is one chunk. | not executed | App.TailExample | App.ChunksToEndSingle |
| DealHunter-Scraper-for-Deals-and-Offers_Feb_2025-sivamohan_musidipalli/task4/app.py:71-84 | The sliders allow an overlap of up to 2000 with a chunk size down to 1000, and `process_in_chunks` then moves `start` backwards and never ends. | Chunk size 1000 with overlap 2000, on any non-empty page. | The overlap stays below the chunk size, which `process_in_chunks` needs to advance. | not executed | App.SlidersAllowStall | App.ProcessInChunks |
