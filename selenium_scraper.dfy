/** The Selenium scraper's extraction helpers: the prompts built from the field
    list, the non-overlapping token chunker, `extract_json` with its fallbacks,
    the per-provider loops that send every chunk and merge the replies, and the
    cost estimate with its built-in price table. */
module SeleniumScraper {
  import opened Text
  import opened Json
  import opened Tally

  // ---------------------------------------------------------------------------
  // build_prompts
  // ---------------------------------------------------------------------------

  /** One field in the example structure: `"f":""`. */
  function Quote(field: string): string
  {
    "\"" + field + "\":\"\""
  }

  function QuoteAll(fields: seq<string>): (r: seq<string>)
    ensures |r| == |fields| && forall i :: 0 <= i < |fields| ==> r[i] == Quote(fields[i])
  {
    seq(|fields|, i requires 0 <= i < |fields| => Quote(fields[i]))
  }

  /** The system message up to the example listing's fields. */
  const SystemHead: string :=
    "You are an intelligent text extraction assistant.\n"
    + "Return only valid JSON with no markdown or extra text.\n"
    + "Structure: {\"listings\":[{"
  const SystemTail: string := "}]}\n"
  const UserHead: string := "\nExtract the following fields from the text: "
  const UserTail: string := "\nReturn them in the JSON structure above. \n"

  /** `build_prompts`: the system message, embedding an example listing with
      every field, and the user message naming the fields. */
  function BuildPrompts(fields: seq<string>): (string, string)
  {
    (SystemHead + Join(QuoteAll(fields), ", ") + SystemTail,
     UserHead + Join(fields, ", ") + UserTail)
  }

  /** Piece `i` of a joined list keeps its place, shifted by `|head|`, once
      `head` and `tail` are put around the join. */
  lemma FramedPiece(head: string, xs: seq<string>, sep: string, tail: string, i: nat)
    requires i < |xs|
    ensures OccursAt(xs[i], head + Join(xs, sep) + tail, |head| + JoinOffset(xs, sep, i))
  {
    JoinPiece(xs, sep, i);
    PieceInFrame(head, Join(xs, sep), tail, JoinOffset(xs, sep, i), |xs[i]|);
  }

  /** A piece of `body` keeps its place, shifted by `|head|`, once `head` and
      `tail` are put around it. */
  lemma PieceInFrame(head: string, body: string, tail: string, o: nat, n: nat)
    requires o + n <= |body|
    ensures |head| + o + n <= |head + body + tail|
    ensures (head + body + tail)[|head| + o..|head| + o + n] == body[o..o + n]
  {
    assert head + body + tail == head + (body + tail);
    SliceAfterPrefix(head, body + tail, o, o + n);
    assert (body + tail)[o..o + n] == body[o..o + n];
  }

  /** Field `i` appears, quoted and with an empty value, inside the example
      listing of the system message, after field `i - 1`. */
  lemma SystemMessagePlacesFields(fields: seq<string>, i: nat)
    requires i < |fields|
    ensures OccursAt(Quote(fields[i]), BuildPrompts(fields).0, |SystemHead| + JoinOffset(QuoteAll(fields), ", ", i))
    ensures i + 1 < |fields| ==>
      JoinOffset(QuoteAll(fields), ", ", i) + |Quote(fields[i])| < JoinOffset(QuoteAll(fields), ", ", i + 1)
  {
    FramedPiece(SystemHead, QuoteAll(fields), ", ", SystemTail, i);
    if i + 1 < |fields| {
      JoinGap(QuoteAll(fields), ", ", i);
    }
  }

  /** Field `i` appears by name in the user message, after field `i - 1`. */
  lemma UserMessagePlacesFields(fields: seq<string>, i: nat)
    requires i < |fields|
    ensures OccursAt(fields[i], BuildPrompts(fields).1, |UserHead| + JoinOffset(fields, ", ", i))
    ensures i + 1 < |fields| ==> JoinOffset(fields, ", ", i) + |fields[i]| < JoinOffset(fields, ", ", i + 1)
  {
    FramedPiece(UserHead, fields, ", ", UserTail, i);
    if i + 1 < |fields| {
      JoinGap(fields, ", ", i);
    }
  }

  /** The example listing is exactly the quoted fields between `{` and `}`: the
      system message ends with `{"listings":[{` + fields + `}]}` and a newline. */
  lemma SystemMessageShape(fields: seq<string>)
    ensures var system := BuildPrompts(fields).0;
      && |system| == |SystemHead| + |Join(QuoteAll(fields), ", ")| + |SystemTail|
      && system[|SystemHead| - 1] == '{'
      && system[|SystemHead| - 14..|SystemHead|] == "{\"listings\":[{"
      && system[|system| - |SystemTail|..] == "}]}\n"
      && system[|SystemHead|..|system| - |SystemTail|] == Join(QuoteAll(fields), ", ")
  {
    var body := Join(QuoteAll(fields), ", ");
    var system := SystemHead + body + SystemTail;
    assert system[|SystemHead| - 14..|SystemHead|] == SystemHead[|SystemHead| - 14..];
    assert system[|SystemHead|..|system| - |SystemTail|] == body;
    assert system[|system| - |SystemTail|..] == SystemTail;
  }

  // ---------------------------------------------------------------------------
  // chunk_text_by_tokens
  // ---------------------------------------------------------------------------

  type Token = nat

  /** The token-level chunks from offset `start`: consecutive slices of
      `maxChunkTokens` tokens, the last one possibly shorter. */
  function TokenChunks(tokens: seq<Token>, maxChunkTokens: nat, start: nat): seq<seq<Token>>
    requires tokens == [] || maxChunkTokens > 0
    decreases |tokens| - start
  {
    if start >= |tokens| then []
    else [tokens[start..Min(|tokens|, start + maxChunkTokens)]] + TokenChunks(tokens, maxChunkTokens, start + maxChunkTokens)
  }

  function Flatten(chunks: seq<seq<Token>>): seq<Token>
  {
    if chunks == [] then [] else chunks[0] + Flatten(chunks[1..])
  }

  /** One step of `TokenChunks`: a full chunk from `start`, then the rest. */
  lemma TokenChunksStep(tokens: seq<Token>, maxChunkTokens: nat, start: nat)
    requires maxChunkTokens > 0 && start + maxChunkTokens < |tokens|
    ensures TokenChunks(tokens, maxChunkTokens, start)
            == [tokens[start..start + maxChunkTokens]] + TokenChunks(tokens, maxChunkTokens, start + maxChunkTokens)
  {
  }

  /** The last step of `TokenChunks`: what is left from `start` fits one chunk. */
  lemma TokenChunksLast(tokens: seq<Token>, maxChunkTokens: nat, start: nat)
    requires maxChunkTokens > 0 && start < |tokens| <= start + maxChunkTokens
    ensures TokenChunks(tokens, maxChunkTokens, start) == [tokens[start..]]
  {
    assert TokenChunks(tokens, maxChunkTokens, start + maxChunkTokens) == [];
    assert tokens[start..Min(|tokens|, start + maxChunkTokens)] == tokens[start..];
    assert [tokens[start..]] + [] == [tokens[start..]];
  }

  /** The chunks are consecutive and non-overlapping: together they are exactly
      the tokens from `start` on. */
  lemma {:induction false} TokenChunksFlatten(tokens: seq<Token>, maxChunkTokens: nat, start: nat)
    requires maxChunkTokens > 0 && start <= |tokens|
    ensures Flatten(TokenChunks(tokens, maxChunkTokens, start)) == tokens[start..]
    decreases |tokens| - start
  {
    if start < |tokens| {
      var next := start + maxChunkTokens;
      if next >= |tokens| {
        TokenChunksLast(tokens, maxChunkTokens, start);
        assert Flatten([tokens[start..]]) == tokens[start..] + Flatten([]);
      } else {
        TokenChunksStep(tokens, maxChunkTokens, start);
        TokenChunksFlatten(tokens, maxChunkTokens, next);
        var chunks := TokenChunks(tokens, maxChunkTokens, start);
        assert chunks[1..] == TokenChunks(tokens, maxChunkTokens, next);
        assert tokens[start..] == tokens[start..next] + tokens[next..];
      }
    }
  }

  /** Every chunk is non-empty and all but the last hold exactly
      `maxChunkTokens` tokens. */
  lemma {:induction false} TokenChunksSizes(tokens: seq<Token>, maxChunkTokens: nat, start: nat)
    requires maxChunkTokens > 0
    ensures var chunks := TokenChunks(tokens, maxChunkTokens, start);
      && (forall i :: 0 <= i < |chunks| ==> 0 < |chunks[i]| <= maxChunkTokens)
      && (forall i :: 0 <= i < |chunks| - 1 ==> |chunks[i]| == maxChunkTokens)
    decreases |tokens| - start
  {
    if start < |tokens| {
      if start + maxChunkTokens >= |tokens| {
        TokenChunksLast(tokens, maxChunkTokens, start);
      } else {
        TokenChunksStep(tokens, maxChunkTokens, start);
        TokenChunksSizes(tokens, maxChunkTokens, start + maxChunkTokens);
      }
    }
  }

  /** The number `n` of chunks is the least with `n * maxChunkTokens` covering
      the tokens from `start`. */
  lemma {:induction false} TokenChunksCount(tokens: seq<Token>, maxChunkTokens: nat, start: nat)
    requires maxChunkTokens > 0 && start <= |tokens|
    ensures var n := |TokenChunks(tokens, maxChunkTokens, start)|;
      && (start < |tokens| ==> (n - 1) * maxChunkTokens < |tokens| - start)
      && |tokens| - start <= n * maxChunkTokens
    decreases |tokens| - start
  {
    if start < |tokens| {
      var next := start + maxChunkTokens;
      if next >= |tokens| {
        TokenChunksLast(tokens, maxChunkTokens, start);
      } else {
        TokenChunksStep(tokens, maxChunkTokens, start);
        TokenChunksCount(tokens, maxChunkTokens, next);
        var m := |TokenChunks(tokens, maxChunkTokens, next)|;
        assert (m + 1) * maxChunkTokens == m * maxChunkTokens + maxChunkTokens;
        assert m * maxChunkTokens == (m - 1) * maxChunkTokens + maxChunkTokens;
      }
    }
  }

  /** No tokens, no chunks. */
  lemma TokenChunksEmpty(maxChunkTokens: nat)
    ensures TokenChunks([], maxChunkTokens, 0) == []
  {
  }

  /** The texts of the chunks, in order. */
  function DecodeAll(decode: seq<Token> -> string, chunks: seq<seq<Token>>): (r: seq<string>)
    ensures |r| == |chunks| && forall i :: 0 <= i < |chunks| ==> r[i] == decode(chunks[i])
  {
    if chunks == [] then [] else [decode(chunks[0])] + DecodeAll(decode, chunks[1..])
  }

  /** The tokenizer: `encoder.encode` and `encoder.decode`. */
  datatype Tokenizer = Tokenizer(encode: string -> seq<Token>, decode: seq<Token> -> string)

  /** `chunk_text_by_tokens`. The loop only advances when chunks may hold at least
      one token, which matters whenever the text has tokens. */
  method ChunkTextByTokens(text: string, maxChunkTokens: nat, tokenizer: Tokenizer) returns (chunks: seq<string>)
    requires tokenizer.encode(text) == [] || maxChunkTokens > 0
    ensures chunks == DecodeAll(tokenizer.decode, TokenChunks(tokenizer.encode(text), maxChunkTokens, 0))
  {
    var tokens := tokenizer.encode(text);
    chunks := [];
    var start := 0;
    while start < |tokens|
      invariant chunks + DecodeAll(tokenizer.decode, TokenChunks(tokens, maxChunkTokens, start))
                == DecodeAll(tokenizer.decode, TokenChunks(tokens, maxChunkTokens, 0))
      decreases |tokens| - start
    {
      var end := start + maxChunkTokens;
      var chunkTokens := tokens[start..Min(end, |tokens|)];
      var chunkText := tokenizer.decode(chunkTokens);
      var rest := TokenChunks(tokens, maxChunkTokens, end);
      assert TokenChunks(tokens, maxChunkTokens, start) == [chunkTokens] + rest;
      assert ([chunkTokens] + rest)[1..] == rest;
      chunks := chunks + [chunkText];
      start := end;
    }
  }

  // ---------------------------------------------------------------------------
  // extract_json
  // ---------------------------------------------------------------------------

  /** The text `extract_json` works on: backticks stripped from both ends, then
      whitespace. */
  function Cleaned(text: string): string
  {
    Strip(Strip(text, IsBacktick), IsPySpace)
  }

  /** `text[text.find("{"):text.rfind("}") + 1]` */
  function JsonSpan(text: string): string
  {
    PySlice(text, Find(text, '{'), RFind(text, '}') + 1)
  }

  /** The fallback result: no listings and the cleaned text. */
  function RawTextResult(text: string): Json
  {
    Obj(map[ListingsKey := Arr([]), "raw_text" := Str(text)])
  }

  /** `extract_json`: the strict decode of the brace span, else the tolerant
      decode of the whole cleaned text, else the raw-text fallback. It never
      raises. */
  function ExtractJson(text: string, strict: Decoder, tolerant: Decoder): Json
  {
    var cleaned := Cleaned(text);
    match strict(JsonSpan(cleaned))
    case Some(v) => v
    case None =>
      match tolerant(cleaned)
      case Some(v) => v
      case None => RawTextResult(cleaned)
  }

  /** When the text has a `{` and a later `}`, the span runs from the first `{`
      through the last `}`, inclusive. */
  lemma SpanBetweenBraces(text: string)
    requires '{' in text && '}' in text && Find(text, '{') < RFind(text, '}')
    ensures var open, close := Find(text, '{'), RFind(text, '}');
      && JsonSpan(text) == text[open..close + 1]
      && JsonSpan(text)[0] == '{' && JsonSpan(text)[|JsonSpan(text)| - 1] == '}'
      && '{' !in text[..open] && '}' !in text[close + 1..]
  {
    var open, close := Find(text, '{'), RFind(text, '}');
    assert JsonSpan(text) == PySlice(text, open, close + 1);
    BraceSpan(text, open, close);
  }

  /** A slice from a `{` through a later `}` starts and ends with them. */
  lemma BraceSpan(text: string, open: int, close: int)
    requires 0 <= open < close < |text| && text[open] == '{' && text[close] == '}'
    ensures var span := PySlice(text, open, close + 1);
      && span == text[open..close + 1] && span[0] == '{' && span[|span| - 1] == '}'
  {
  }

  /** Without a `{` (find gives -1, which slices from the last character), or
      with no `}` after the first `{`, the span is "" or "}": never an object. */
  lemma SpanWithoutOpenBrace(text: string)
    requires '{' !in text || '}' !in text || RFind(text, '}') < Find(text, '{')
    ensures JsonSpan(text) == "" || JsonSpan(text) == "}"
  {
    var open, close := Find(text, '{'), RFind(text, '}');
    if '{' !in text && |text| > 0 && close + 1 == |text| {
      assert JsonSpan(text) == text[|text| - 1..|text|];
    }
  }

  /** So with a strict decoder that rejects "" and "}", a text without a usable
      brace span always goes on to the fallbacks, and when those fail too the
      result carries the cleaned text and no listings. */
  lemma ExtractJsonFallsThrough(text: string, strict: Decoder, tolerant: Decoder)
    requires strict("") == None && strict("}") == None
    requires var t := Cleaned(text); '{' !in t || '}' !in t || RFind(t, '}') < Find(t, '{')
    ensures ExtractJson(text, strict, tolerant)
            == if tolerant(Cleaned(text)).Some? then tolerant(Cleaned(text)).value else RawTextResult(Cleaned(text))
  {
    SpanWithoutOpenBrace(Cleaned(text));
  }

  /** The text the decoders and the fallback see has nothing left to strip. */
  lemma CleanedIsStripped(text: string)
    ensures var t := Cleaned(text); t == [] || (!IsPySpace(t[0]) && !IsPySpace(t[|t| - 1]))
    ensures Strip(Cleaned(text), IsPySpace) == Cleaned(text)
  {
    StripIsTrim(Strip(text, IsBacktick), IsPySpace);
    StripIdempotent(Strip(text, IsBacktick), IsPySpace);
  }

  /** The fallback object always has `listings`, so a chunk that gets it adds
      nothing and does not fail. */
  lemma RawTextContributesNothing(text: string)
    ensures Contribution(RawTextResult(text)) == Ok([])
  {
  }

  // ---------------------------------------------------------------------------
  // format_data and the per-provider loops
  // ---------------------------------------------------------------------------

  datatype Provider = OpenAI | Gemini | Groq

  /** The chunk size each provider's loop passes to `chunk_text_by_tokens`. */
  function MaxChunkTokens(provider: Provider): nat
  {
    if provider == OpenAI then 2000 else 2500
  }

  /** A request: chat messages (OpenAI) or a single text prompt. */
  datatype Request = ChatMessages(system: string, user: string) | TextPrompt(prompt: string)

  function RequestFor(provider: Provider, system: string, user: string, chunk: string): Request
  {
    if provider == OpenAI then ChatMessages(system, user + "\n" + chunk)
    else TextPrompt(system + "\n" + user + "\n" + chunk)
  }

  /** A reply's text and its usage counts, each present or missing. */
  datatype Reply = Reply(text: string, promptTokens: Option<nat>, completionTokens: Option<nat>)

  /** Everything the loops reach outside themselves. */
  datatype Services = Services(
    tokenizer: Tokenizer,
    strict: Decoder,            // json.loads
    tolerant: Decoder,          // demjson3.decode
    dumps: Json -> string,      // json.dumps(..., indent=4)
    openAi: Request -> Reply,
    gemini: Request -> Reply,
    groq: Request -> Reply)

  function Call(env: Services, provider: Provider, request: Request): Reply
  {
    match provider
    case OpenAI => env.openAi(request)
    case Gemini => env.gemini(request)
    case Groq => env.groq(request)
  }

  /** A usage count: Gemini reads a missing one as 0, the others raise KeyError. */
  function UsageCount(provider: Provider, count: Option<nat>, key: string): Result<nat>
  {
    match count
    case Some(n) => Ok(n)
    case None => if provider == Gemini then Ok(0) else Err(KeyError(key))
  }

  /** The extracted JSON of a reply's text; Gemini and Groq strip it first. */
  function ParsedReply(provider: Provider, text: string, strict: Decoder, tolerant: Decoder): Json
  {
    ExtractJson(if provider == OpenAI then text else Strip(text, IsPySpace), strict, tolerant)
  }

  /** A usage count as Gemini's `getattr(..., 0)` reads it: a missing one is 0. */
  function OrZero(count: Option<nat>): nat
  {
    if count.Some? then count.value else 0
  }

  /** An extracted JSON whose `listings`, if any, is a list: exactly the replies
      whose listings the loop can take over item by item. */
  predicate HasListingsList(parsed: Json)
  {
    parsed.Obj? && (ListingsKey in parsed.fields ==> parsed.fields[ListingsKey].Arr?)
  }

  /** The listings such a reply contributes: its `listings` list, or none. */
  function ListingsList(parsed: Json): seq<Json>
    requires HasListingsList(parsed)
  {
    if ListingsKey in parsed.fields then parsed.fields[ListingsKey].items else []
  }

  /** What one chunk's reply adds to the run: its usage counts and the listings
      of its extracted JSON, when that has any. The reply is usable exactly when
      its counts can be read (always for Gemini, only when both are present for
      OpenAI and Groq) and its `listings` can be extended by. */
  function ReplyStep(provider: Provider, reply: Reply, strict: Decoder, tolerant: Decoder): (r: Result<Tally>)
    ensures provider == Gemini && r.Ok? ==>
      r.value.inputTokens == (if reply.promptTokens.Some? then reply.promptTokens.value else 0)
      && r.value.outputTokens == (if reply.completionTokens.Some? then reply.completionTokens.value else 0)
    ensures provider != Gemini && (reply.promptTokens.None? || reply.completionTokens.None?) ==> r.Err?
    ensures r.Ok? <==> (provider == Gemini || (reply.promptTokens.Some? && reply.completionTokens.Some?))
                       && Contribution(ParsedReply(provider, reply.text, strict, tolerant)).Ok?
    ensures r.Ok? ==> r.value.inputTokens == OrZero(reply.promptTokens)
                      && r.value.outputTokens == OrZero(reply.completionTokens)
    ensures var parsed := ParsedReply(provider, reply.text, strict, tolerant);
      r.Ok? && HasListingsList(parsed) ==> r.value.listings == ListingsList(parsed)
  {
    match UsageCount(provider, reply.promptTokens, "prompt_tokens")
    case Err(e) => Err(e)
    case Ok(input) =>
      match UsageCount(provider, reply.completionTokens, "completion_tokens")
      case Err(e) => Err(e)
      case Ok(output) =>
        match Contribution(ParsedReply(provider, reply.text, strict, tolerant))
        case Err(e) => Err(e)
        case Ok(items) => Ok(Tally(items, input, output))
  }

  /** The chunk texts a provider's loop iterates over. */
  function TextChunks(provider: Provider, data: string, env: Services): seq<string>
  {
    DecodeAll(env.tokenizer.decode, TokenChunks(env.tokenizer.encode(data), MaxChunkTokens(provider), 0))
  }

  function ProviderSteps(provider: Provider, system: string, user: string, chunks: seq<string>, env: Services)
    : (steps: seq<Result<Tally>>)
    ensures |steps| == |chunks|
    ensures forall i :: 0 <= i < |chunks| ==>
      steps[i] == ReplyStep(provider, Call(env, provider, RequestFor(provider, system, user, chunks[i])),
                            env.strict, env.tolerant)
  {
    seq(|chunks|, i requires 0 <= i < |chunks| =>
      ReplyStep(provider, Call(env, provider, RequestFor(provider, system, user, chunks[i])), env.strict, env.tolerant))
  }

  /** A run's result: the dumped `{"listings": ...}` and the summed counts. */
  function RunResult(run: Result<Tally>, env: Services): Result<(string, TokenCounts)>
  {
    match run
    case Err(e) => Err(e)
    case Ok(t) => Ok((env.dumps(ListingsObject(t.listings)), Counts(t.inputTokens, t.outputTokens)))
  }

  /** The body of each provider loop for one reply: read the usage counts, extract
      the JSON, and take its `listings` when it has them. */
  method ReadReply(provider: Provider, reply: Reply, strict: Decoder, tolerant: Decoder) returns (r: Result<Tally>)
    ensures r == ReplyStep(provider, reply, strict, tolerant)
  {
    ContributionSteps(ParsedReply(provider, reply.text, strict, tolerant));
    var promptTokens := UsageCount(provider, reply.promptTokens, "prompt_tokens");
    if promptTokens.Err? {
      return Err(promptTokens.error);
    }
    var completionTokens := UsageCount(provider, reply.completionTokens, "completion_tokens");
    if completionTokens.Err? {
      return Err(completionTokens.error);
    }
    var parsedChunk := ParsedReply(provider, reply.text, strict, tolerant);
    var listings: seq<Json> := [];
    var lookup := ListingsLookup(parsedChunk);
    if lookup.Err? {
      return Err(lookup.error);
    }
    if lookup.value.Some? {
      var extension := ExtendBy(lookup.value.value);
      if extension.Err? {
        return Err(extension.error);
      }
      listings := extension.value;
    }
    return Ok(Tally(listings, promptTokens.value, completionTokens.value));
  }

  /** `steps` holds, chunk by chunk, what each chunk's reply adds to the run.
      Each step is reached through the request that produced it, so that only the
      chunk at hand is ever unfolded. */
  ghost predicate StepsOf(steps: seq<Result<Tally>>, provider: Provider, system: string, user: string,
                          chunks: seq<string>, env: Services)
  {
    && |steps| == |chunks|
    && forall k {:trigger Call(env, provider, RequestFor(provider, system, user, chunks[k]))} ::
         0 <= k < |chunks| ==>
           steps[k] == ReplyStep(provider, Call(env, provider, RequestFor(provider, system, user, chunks[k])),
                                 env.strict, env.tolerant)
  }

  /** One iteration: send chunk `i` to the provider and read its reply. */
  method SendChunk(provider: Provider, system: string, user: string, textChunks: seq<string>, env: Services,
                   ghost steps: seq<Result<Tally>>, i: nat)
    returns (r: Result<Tally>)
    requires i < |textChunks| && StepsOf(steps, provider, system, user, textChunks, env)
    ensures r == steps[i]
  {
    var reply := Call(env, provider, RequestFor(provider, system, user, textChunks[i]));
    r := ReadReply(provider, reply, env.strict, env.tolerant);
  }

  /** The loop of each provider function: send every chunk, extend
      `all_listings` and add up the usage counts. */
  method SendChunks(provider: Provider, system: string, user: string, textChunks: seq<string>, env: Services,
                    ghost steps: seq<Result<Tally>>)
    returns (r: Result<Tally>)
    requires StepsOf(steps, provider, system, user, textChunks, env)
    ensures r == Fold(steps)
  {
    var allListings: seq<Json> := [];
    var totalInputTokens: nat := 0;
    var totalOutputTokens: nat := 0;
    for i := 0 to |textChunks|
      invariant Fold(steps[..i]) == Ok(Tally(allListings, totalInputTokens, totalOutputTokens))
    {
      var chunkTally := SendChunk(provider, system, user, textChunks, env, steps, i);
      if chunkTally.Err? {
        FoldStopsAt(steps, i);
        return Err(chunkTally.error);
      }
      FoldSnoc(steps, i, chunkTally.value);
      totalInputTokens := totalInputTokens + chunkTally.value.inputTokens;
      totalOutputTokens := totalOutputTokens + chunkTally.value.outputTokens;
      allListings := allListings + chunkTally.value.listings;
    }
    assert steps[..|textChunks|] == steps;
    return Ok(Tally(allListings, totalInputTokens, totalOutputTokens));
  }

  /** `_format_with_openai`, `_format_with_gemini`, `_format_with_groq`: chunk
      the text, run the loop, dump `{"listings": all_listings}`. */
  method FormatWithProvider(provider: Provider, data: string, system: string, user: string, env: Services)
    returns (r: Result<(string, TokenCounts)>)
    ensures r == RunResult(Fold(ProviderSteps(provider, system, user, TextChunks(provider, data, env), env)), env)
  {
    var textChunks := ChunkTextByTokens(data, MaxChunkTokens(provider), env.tokenizer);
    var run := SendChunks(provider, system, user, textChunks, env, ProviderSteps(provider, system, user, textChunks, env));
    if run.Err? {
      return Err(run.error);
    }
    var finalJson := ListingsObject(run.value.listings);
    return Ok((env.dumps(finalJson), Counts(run.value.inputTokens, run.value.outputTokens)));
  }

  /** When every chunk's reply is usable, a run returns the dumped concatenation
      of every chunk's listings in chunk order, with the summed counts. */
  lemma RunCollectsEveryChunk(provider: Provider, system: string, user: string, chunks: seq<string>, env: Services)
    requires AllOk(ProviderSteps(provider, system, user, chunks, env))
    ensures var ts := Values(ProviderSteps(provider, system, user, chunks, env));
      RunResult(Fold(ProviderSteps(provider, system, user, chunks, env)), env)
        == Ok((env.dumps(ListingsObject(AllListings(ts))), Counts(TotalInput(ts), TotalOutput(ts))))
    ensures var ts := Values(ProviderSteps(provider, system, user, chunks, env));
      forall i :: 0 <= i < |chunks| ==>
        var reply := Call(env, provider, RequestFor(provider, system, user, chunks[i]));
        && ts[i].inputTokens == OrZero(reply.promptTokens)
        && ts[i].outputTokens == OrZero(reply.completionTokens)
        && (HasListingsList(ParsedReply(provider, reply.text, env.strict, env.tolerant)) ==>
              ts[i].listings == ListingsList(ParsedReply(provider, reply.text, env.strict, env.tolerant)))
  {
    FoldAllOk(ProviderSteps(provider, system, user, chunks, env));
  }

  /** When every reply has its usage counts (or the provider is Gemini) and a
      `listings` list or none, the run succeeds: chunk `i` adds exactly the
      `listings` list of its extracted JSON, or nothing without the key, and the
      counts are the sums of the replies' usage. */
  lemma {:induction false} ProviderCollectsEveryChunk(provider: Provider, system: string, user: string,
                                                      chunks: seq<string>, env: Services)
    requires forall i :: 0 <= i < |chunks| ==>
      var reply := Call(env, provider, RequestFor(provider, system, user, chunks[i]));
      && (provider == Gemini || (reply.promptTokens.Some? && reply.completionTokens.Some?))
      && HasListingsList(ParsedReply(provider, reply.text, env.strict, env.tolerant))
    ensures AllOk(ProviderSteps(provider, system, user, chunks, env))
    ensures var ts := Values(ProviderSteps(provider, system, user, chunks, env));
      && (forall i :: 0 <= i < |chunks| ==>
            var reply := Call(env, provider, RequestFor(provider, system, user, chunks[i]));
            ts[i] == Tally(ListingsList(ParsedReply(provider, reply.text, env.strict, env.tolerant)),
                           OrZero(reply.promptTokens), OrZero(reply.completionTokens)))
      && RunResult(Fold(ProviderSteps(provider, system, user, chunks, env)), env)
           == Ok((env.dumps(ListingsObject(AllListings(ts))), Counts(TotalInput(ts), TotalOutput(ts))))
  {
    var steps := ProviderSteps(provider, system, user, chunks, env);
    forall i | 0 <= i < |chunks| ensures steps[i].Ok? {
      var reply := Call(env, provider, RequestFor(provider, system, user, chunks[i]));
      assert steps[i] == ReplyStep(provider, reply, env.strict, env.tolerant);
    }
    RunCollectsEveryChunk(provider, system, user, chunks, env);
  }

  /** A run fails exactly when some chunk's reply is unusable, and then with the
      first such chunk's error; for OpenAI and Groq a reply missing a usage count
      is unusable. */
  lemma RunFailsAtFirstBadChunk(provider: Provider, system: string, user: string, chunks: seq<string>,
                                env: Services, i: nat)
    requires i < |chunks|
    requires forall k :: 0 <= k < i ==> ProviderSteps(provider, system, user, chunks, env)[k].Ok?
    requires ProviderSteps(provider, system, user, chunks, env)[i].Err?
    ensures RunResult(Fold(ProviderSteps(provider, system, user, chunks, env)), env)
            == Err(ProviderSteps(provider, system, user, chunks, env)[i].error)
  {
    FoldFirstError(ProviderSteps(provider, system, user, chunks, env), i);
  }

  /** Text without tokens makes no calls and returns an empty listings document
      and zero counts. */
  lemma EmptyDataRun(provider: Provider, data: string, system: string, user: string, env: Services)
    requires env.tokenizer.encode(data) == []
    ensures RunResult(Fold(ProviderSteps(provider, system, user, TextChunks(provider, data, env), env)), env)
            == Ok((env.dumps(ListingsObject([])), Counts(0, 0)))
  {
    assert TextChunks(provider, data, env) == [];
  }

  /** The provider each model name selects. */
  function ProviderFor(model: string): Option<Provider>
  {
    if model == "openai-gpt-3.5" then Some(OpenAI)
    else if model == "gemini-2.0-flash" then Some(Gemini)
    else if model == "groq-llama" then Some(Groq)
    else None
  }

  /** `format_data`: an unknown model returns an empty string and zero counts. */
  function FormatDataSpec(data: string, model: string, fields: seq<string>, env: Services)
    : Result<(string, TokenCounts)>
  {
    var (system, user) := BuildPrompts(fields);
    match ProviderFor(model)
    case None => Ok(("", Counts(0, 0)))
    case Some(p) => RunResult(Fold(ProviderSteps(p, system, user, TextChunks(p, data, env), env)), env)
  }

  method FormatData(data: string, selectedModel: string, fields: seq<string>, env: Services)
    returns (r: Result<(string, TokenCounts)>)
    ensures r == FormatDataSpec(data, selectedModel, fields, env)
  {
    var (systemMessage, userMessage) := BuildPrompts(fields);
    if selectedModel == "openai-gpt-3.5" {
      r := FormatWithProvider(OpenAI, data, systemMessage, userMessage, env);
    } else if selectedModel == "gemini-2.0-flash" {
      r := FormatWithProvider(Gemini, data, systemMessage, userMessage, env);
    } else if selectedModel == "groq-llama" {
      r := FormatWithProvider(Groq, data, systemMessage, userMessage, env);
    } else {
      r := Ok(("", Counts(0, 0)));
    }
  }

  /** Only the three models of the price table reach a provider; any other name
      returns the empty result. */
  lemma FormatDataDispatch(data: string, model: string, fields: seq<string>, env: Services)
    ensures ProviderFor(model).None? <==> model !in Pricing
    ensures ProviderFor(model).None? ==> FormatDataSpec(data, model, fields, env) == Ok(("", Counts(0, 0)))
  {
  }

  /** Gemini's loop never fails on a missing usage count. */
  lemma GeminiIgnoresMissingUsage(reply: Reply, strict: Decoder, tolerant: Decoder)
    ensures var r := ReplyStep(Gemini, reply, strict, tolerant);
      r.Err? ==> r.error == TypeError
  {
  }

  // ---------------------------------------------------------------------------
  // calculate_price
  // ---------------------------------------------------------------------------

  const Pricing: map<string, Rates> := map[
    "openai-gpt-3.5" := Rates(0.001, 0.001),
    "gemini-2.0-flash" := Rates(0.0001, 0.0003),
    "groq-llama" := Rates(0.0, 0.0)
  ]

  /** `calculate_price`: the counts (missing ones read as 0) and their cost; a
      model outside the table costs nothing. */
  function CalculatePrice(tokenCounts: TokenCounts, model: string): (r: (nat, nat, real))
    ensures r.0 == Get(tokenCounts, InputTokensKey) && r.1 == Get(tokenCounts, OutputTokensKey)
    ensures model !in Pricing ==> r.2 == 0.0
    ensures model in Pricing ==> r.2 == r.0 as real * Pricing[model].input + r.1 as real * Pricing[model].output
    ensures r.2 >= 0.0
  {
    var inputTokens := Get(tokenCounts, InputTokensKey);
    var outputTokens := Get(tokenCounts, OutputTokensKey);
    if model !in Pricing then (inputTokens, outputTokens, 0.0)
    else (inputTokens, outputTokens, inputTokens as real * Pricing[model].input + outputTokens as real * Pricing[model].output)
  }

  /** Groq costs nothing; Gemini's output tokens cost three times its input
      tokens; and the cost of a run is the sum of the costs of its parts. */
  lemma PriceFacts(a: TokenCounts, b: TokenCounts, model: string)
    ensures CalculatePrice(a, "groq-llama").2 == 0.0
    ensures CalculatePrice(Counts(0, 1), "gemini-2.0-flash").2 == 3.0 * CalculatePrice(Counts(1, 0), "gemini-2.0-flash").2
    ensures var sum := Counts(Get(a, InputTokensKey) + Get(b, InputTokensKey),
                              Get(a, OutputTokensKey) + Get(b, OutputTokensKey));
      CalculatePrice(sum, model).2 == CalculatePrice(a, model).2 + CalculatePrice(b, model).2
  {
  }
}
