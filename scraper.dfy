/** The Playwright scraper's extraction helpers: the strict schema handed to
    Gemini, the field normaliser applied to every listing, the dispatch of
    `format_data` over the four model back ends with Gemini's one repair attempt,
    and the cost estimate. */
module Scraper {
  import opened Text
  import opened Json

  // ---------------------------------------------------------------------------
  // create_dynamic_schema
  // ---------------------------------------------------------------------------

  const TypeKey: string := "type"
  const PropertiesKey: string := "properties"
  const RequiredKey: string := "required"
  const ItemsKey: string := "items"

  /** `{"type": "string"}` */
  const StringType: Json := Obj(map[TypeKey := Str("string")])

  /** The field names as a JSON array of strings, in order. */
  function StrList(names: seq<string>): (r: seq<Json>)
    ensures |r| == |names| && forall i :: 0 <= i < |names| ==> r[i] == Str(names[i])
  {
    seq(|names|, i requires 0 <= i < |names| => Str(names[i]))
  }

  /** A schema describing `{"listings": [ {field: string, ...}, ... ]}` in which
      every listing must carry every one of `fields`, as strings. */
  predicate IsListingsSchema(schema: Json, fields: seq<string>)
  {
    && schema.Obj? && schema.fields.Keys == {TypeKey, PropertiesKey, RequiredKey}
    && schema.fields[TypeKey] == Str("object")
    && schema.fields[RequiredKey] == Arr([Str(ListingsKey)])
    && var props := schema.fields[PropertiesKey];
    && props.Obj? && props.fields.Keys == {ListingsKey}
    && var listings := props.fields[ListingsKey];
    && listings.Obj? && listings.fields.Keys == {TypeKey, ItemsKey}
    && listings.fields[TypeKey] == Str("array")
    && var item := listings.fields[ItemsKey];
    && item.Obj? && item.fields.Keys == {TypeKey, PropertiesKey, RequiredKey}
    && item.fields[TypeKey] == Str("object")
    && item.fields[RequiredKey] == Arr(StrList(fields))
    && item.fields[PropertiesKey].Obj?
    && item.fields[PropertiesKey].fields.Keys == (set f | f in fields)
    && (forall f :: f in fields ==> item.fields[PropertiesKey].fields[f] == StringType)
  }

  /** `create_dynamic_schema`: the per-field properties are filled in a loop. */
  method CreateDynamicSchema(fieldNames: seq<string>) returns (schema: Json)
    ensures IsListingsSchema(schema, fieldNames)
  {
    var schemaProperties: map<string, Json> := map[];
    for i := 0 to |fieldNames|
      invariant schemaProperties.Keys == set f | f in fieldNames[..i]
      invariant forall f :: f in schemaProperties ==> schemaProperties[f] == StringType
    {
      assert fieldNames[..i + 1] == fieldNames[..i] + [fieldNames[i]];
      schemaProperties := schemaProperties[fieldNames[i] := StringType];
    }
    assert fieldNames[..|fieldNames|] == fieldNames;
    var item := Obj(map[TypeKey := Str("object"),
                        PropertiesKey := Obj(schemaProperties),
                        RequiredKey := Arr(StrList(fieldNames))]);
    var listings := Obj(map[TypeKey := Str("array"), ItemsKey := item]);
    schema := Obj(map[TypeKey := Str("object"),
                      PropertiesKey := Obj(map[ListingsKey := listings]),
                      RequiredKey := Arr([Str(ListingsKey)])]);
  }

  /** The field names a listings schema requires of every listing. */
  function RequiredFields(schema: Json, fields: seq<string>): (r: seq<Json>)
    requires IsListingsSchema(schema, fields)
    ensures r == StrList(fields)
  {
    schema.fields[PropertiesKey].fields[ListingsKey].fields[ItemsKey].fields[RequiredKey].items
  }

  // ---------------------------------------------------------------------------
  // postprocess_listings
  // ---------------------------------------------------------------------------

  /** A dictionary listing after the inner loop: every missing field added with
      value "", everything already present kept as it was. */
  function Normalize(m: Listing, fields: seq<string>): (r: Listing)
    ensures r.Keys == m.Keys + set f | f in fields
    ensures forall k :: k in m ==> r[k] == m[k]
    ensures forall f :: f in fields && f !in m ==> r[f] == Str("")
  {
    m + map f | f in fields && f !in m :: Str("")
  }

  /** Normalising is idempotent. */
  lemma NormalizeIdempotent(m: Listing, fields: seq<string>)
    ensures Normalize(Normalize(m, fields), fields) == Normalize(m, fields)
  {
  }

  /** Normalising by one more field adds that field, with "", when it is still
      missing, and changes nothing otherwise. */
  lemma NormalizeStep(m: Listing, fields: seq<string>, f: string)
    ensures var n := Normalize(m, fields);
      Normalize(m, fields + [f]) == if f in n then n else n[f := Str("")]
  {
    var n := Normalize(m, fields);
    var e := Normalize(m, fields + [f]);
    if f in n {
      assert e.Keys == n.Keys;
    } else {
      assert e.Keys == n[f := Str("")].Keys;
    }
  }

  /** A listing that already has every field is left exactly as it is. */
  lemma NormalizeKeepsComplete(m: Listing, fields: seq<string>)
    ensures Normalize(m, fields) == m <==> forall f :: f in fields ==> f in m
  {
    if forall f :: f in fields ==> f in m {
      assert Normalize(m, fields).Keys == m.Keys;
    }
  }

  /** After normalising, every field the schema requires is a key of the listing. */
  lemma NormalizedMeetsSchema(schema: Json, m: Listing, fields: seq<string>)
    requires IsListingsSchema(schema, fields)
    ensures forall r :: r in RequiredFields(schema, fields) ==> r.Str? && r.s in Normalize(m, fields)
  {
  }

  /** Whether `if field not in item: item[field] = ""` goes through for an item
      that is not a dictionary: for a string, the field must be one of its
      substrings; for a list, one of its elements; for anything else the `in`
      test itself raises. */
  predicate Tolerates(item: Json, field: string)
  {
    match item
    case Obj(_) => true
    case Str(s) => IsSubstring(field, s)
    case Arr(xs) => Str(field) in xs
    case _ => false
  }

  /** The inner loop of `postprocess_listings` on one item. Dictionaries are
      normalised; other items come back unchanged or raise TypeError. */
  function ProcessItem(item: Json, fields: seq<string>): (r: Result<Json>)
    ensures item.Obj? ==> r.Ok? && r.value.Obj?
    ensures item.Obj? ==> r.value.fields.Keys == item.fields.Keys + set f | f in fields
    ensures item.Obj? ==> forall k :: k in item.fields ==> r.value.fields[k] == item.fields[k]
    ensures item.Obj? ==> forall f :: f in fields && f !in item.fields ==> r.value.fields[f] == Str("")
    ensures !item.Obj? ==> (r.Ok? <==> forall f :: f in fields ==> Tolerates(item, f))
    ensures !item.Obj? && r.Ok? ==> r.value == item
    ensures r.Err? ==> r.error == TypeError
  {
    if item.Obj? then Ok(Obj(Normalize(item.fields, fields)))
    else if forall f :: f in fields ==> Tolerates(item, f) then Ok(item)
    else Err(TypeError)
  }

  /** The inner loop, field by field. */
  method PostprocessItem(item: Json, fieldNames: seq<string>) returns (r: Result<Json>)
    ensures r == ProcessItem(item, fieldNames)
  {
    if item.Obj? {
      var m := item.fields;
      for j := 0 to |fieldNames|
        invariant m == Normalize(item.fields, fieldNames[..j])
      {
        var field := fieldNames[j];
        assert fieldNames[..j + 1] == fieldNames[..j] + [field];
        NormalizeStep(item.fields, fieldNames[..j], field);
        if field !in m {
          m := m[field := Str("")];
        }
      }
      assert fieldNames[..|fieldNames|] == fieldNames;
      return Ok(Obj(m));
    }
    for j := 0 to |fieldNames|
      invariant forall f :: f in fieldNames[..j] ==> Tolerates(item, f)
    {
      assert fieldNames[..j + 1] == fieldNames[..j] + [fieldNames[j]];
      if !Tolerates(item, fieldNames[j]) {
        return Err(TypeError);
      }
    }
    assert fieldNames[..|fieldNames|] == fieldNames;
    return Ok(item);
  }

  /** The whole `postprocess_listings` on a list: every item processed, or
      TypeError as soon as one item raises. */
  function ProcessAll(items: seq<Json>, fields: seq<string>): (r: Result<seq<Json>>)
    ensures r.Ok? <==> forall i :: 0 <= i < |items| ==> ProcessItem(items[i], fields).Ok?
    ensures r.Ok? ==> |r.value| == |items|
                      && forall i :: 0 <= i < |items| ==> ProcessItem(items[i], fields) == Ok(r.value[i])
    ensures r.Ok? ==> forall i :: 0 <= i < |items| && items[i].Obj? ==>
                        r.value[i].Obj? && forall f :: f in fields ==> f in r.value[i].fields
    ensures r.Ok? ==> forall i :: 0 <= i < |items| && !items[i].Obj? ==> r.value[i] == items[i]
    ensures r.Err? ==> r.error == TypeError
  {
    if forall i :: 0 <= i < |items| ==> ProcessItem(items[i], fields).Ok? then
      Ok(seq(|items|, i requires 0 <= i < |items| && ProcessItem(items[i], fields).Ok? =>
                        ProcessItem(items[i], fields).value))
    else Err(TypeError)
  }

  /** `postprocess_listings` on a list, updating its items in place. The list
      keeps its length and order; when an item raises, the items before it have
      been processed and the rest are untouched. */
  method PostprocessListings(listings: array<Json>, fieldNames: seq<string>) returns (r: Result<()>)
    modifies listings
    ensures r.Ok? <==> ProcessAll(old(listings[..]), fieldNames).Ok?
    ensures r.Ok? ==> listings[..] == ProcessAll(old(listings[..]), fieldNames).value
    ensures r.Err? ==> r.error == TypeError
    ensures r.Err? ==> exists i :: (
              && 0 <= i < listings.Length
              && ProcessItem(old(listings[i]), fieldNames).Err?
              && (forall k :: 0 <= k < i ==> ProcessItem(old(listings[k]), fieldNames) == Ok(listings[k]))
              && (forall k :: i <= k < listings.Length ==> listings[k] == old(listings[k])))
  {
    for i := 0 to listings.Length
      invariant forall k :: 0 <= k < i ==> ProcessItem(old(listings[k]), fieldNames) == Ok(listings[k])
      invariant forall k :: i <= k < listings.Length ==> listings[k] == old(listings[k])
    {
      var item := PostprocessItem(listings[i], fieldNames);
      if item.Err? {
        assert ProcessItem(old(listings[i]), fieldNames).Err?;
        return Err(TypeError);
      }
      listings[i] := item.value;
    }
    return Ok(());
  }

  /** A processed item is processed again to itself. */
  lemma ProcessItemIdempotent(item: Json, fields: seq<string>)
    requires ProcessItem(item, fields).Ok?
    ensures ProcessItem(ProcessItem(item, fields).value, fields) == ProcessItem(item, fields)
  {
    if item.Obj? {
      NormalizeIdempotent(item.fields, fields);
    }
  }

  /** `postprocess_listings` applied to whatever `final_json["listings"]` holds:
      a list is processed item by item; iterating a string visits its characters
      and iterating a dictionary its keys, neither of which can be updated, so
      those come back unchanged or raise; other values cannot be iterated. */
  function ProcessListingsValue(value: Json, fields: seq<string>): (r: Result<Json>)
    ensures value.Arr? ==> (r.Ok? <==> ProcessAll(value.items, fields).Ok?)
    ensures value.Arr? && r.Ok? ==> r.value == Arr(ProcessAll(value.items, fields).value)
    ensures !value.Arr? && r.Ok? ==> r.value == value
    ensures (value.Null? || value.Bool? || value.Num?) ==> r.Err?
  {
    match value
    case Arr(items) =>
      (match ProcessAll(items, fields)
       case Ok(processed) => Ok(Arr(processed))
       case Err(e) => Err(e))
    case Str(s) =>
      if forall i :: 0 <= i < |s| ==> ProcessItem(Str([s[i]]), fields).Ok? then Ok(value) else Err(TypeError)
    case Obj(m) =>
      if forall k :: k in m ==> ProcessItem(Str(k), fields).Ok? then Ok(value) else Err(TypeError)
    case _ => Err(TypeError)
  }

  /** The post-processing step ending every branch of `format_data`:
      `final_json["listings"]` becomes the processed listings when the key is
      present and `[]` otherwise. Only a dictionary supports that assignment. */
  function Finish(finalJson: Json, fields: seq<string>): Result<Json>
  {
    match finalJson
    case Obj(m) =>
      if ListingsKey in m then
        match ProcessListingsValue(m[ListingsKey], fields)
        case Ok(v) => Ok(Obj(m[ListingsKey := v]))
        case Err(e) => Err(e)
      else Ok(Obj(m[ListingsKey := Arr([])]))
    case _ => Err(TypeError)
  }

  /** `Finish` as the source performs it, on a fresh list for the listings. */
  method FinishListings(finalJson: Json, fieldNames: seq<string>) returns (r: Result<Json>)
    ensures r == Finish(finalJson, fieldNames)
  {
    if !finalJson.Obj? {
      return Err(TypeError);
    }
    var m := finalJson.fields;
    if ListingsKey !in m {
      return Ok(Obj(m[ListingsKey := Arr([])]));
    }
    var value := m[ListingsKey];
    if value.Arr? {
      var items := value.items;
      var listings := new Json[|items|](i requires 0 <= i < |items| => items[i]);
      assert listings[..] == items;
      var outcome := PostprocessListings(listings, fieldNames);
      if outcome.Err? {
        return Err(TypeError);
      }
      return Ok(Obj(m[ListingsKey := Arr(listings[..])]));
    }
    var processed := ProcessListingsValue(value, fieldNames);
    if processed.Err? {
      return Err(processed.error);
    }
    return Ok(Obj(m[ListingsKey := processed.value]));
  }

  /** A successful post-processing step keeps every other key and value, and
      sets `listings` to the processed value when present and to `[]` when not. */
  lemma FinishShape(finalJson: Json, fields: seq<string>)
    requires Finish(finalJson, fields).Ok?
    ensures var out := Finish(finalJson, fields).value;
      && finalJson.Obj? && out.Obj?
      && out.fields.Keys == finalJson.fields.Keys + {ListingsKey}
      && (forall k :: k in finalJson.fields && k != ListingsKey ==> out.fields[k] == finalJson.fields[k])
      && (ListingsKey !in finalJson.fields ==> out.fields[ListingsKey] == Arr([]))
      && (ListingsKey in finalJson.fields ==>
            ProcessListingsValue(finalJson.fields[ListingsKey], fields) == Ok(out.fields[ListingsKey]))
  {
  }

  /** When `listings` is a list of dictionaries the step cannot fail, and every
      listing afterwards has every field, keeping its own values. */
  lemma FinishNormalizesListings(m: Listing, fields: seq<string>)
    requires ListingsKey in m && m[ListingsKey].Arr?
    requires forall x :: x in m[ListingsKey].items ==> x.Obj?
    ensures Finish(Obj(m), fields).Ok?
    ensures var out := Finish(Obj(m), fields).value.fields[ListingsKey];
      var items := m[ListingsKey].items;
      && out.Arr? && |out.items| == |items|
      && forall i :: 0 <= i < |items| ==> out.items[i] == Obj(Normalize(items[i].fields, fields))
  {
    var items := m[ListingsKey].items;
    assert forall i :: 0 <= i < |items| ==> items[i].Obj? by {
      forall i | 0 <= i < |items| ensures items[i].Obj? {
        assert items[i] in items;
      }
    }
  }

  /** Post-processing twice is post-processing once. */
  lemma FinishIdempotent(finalJson: Json, fields: seq<string>)
    requires Finish(finalJson, fields).Ok?
    ensures Finish(Finish(finalJson, fields).value, fields) == Finish(finalJson, fields)
  {
    var m := finalJson.fields;
    var out := Finish(finalJson, fields).value;
    if ListingsKey in m {
      var v := m[ListingsKey];
      var p := ProcessListingsValue(v, fields).value;
      if v.Arr? {
        var processed := ProcessAll(v.items, fields).value;
        forall i | 0 <= i < |processed|
          ensures ProcessItem(processed[i], fields) == Ok(processed[i])
        {
          ProcessItemIdempotent(v.items[i], fields);
        }
        var again := ProcessAll(processed, fields);
        assert again.Ok?;
        assert again.value == processed;
      }
      assert ProcessListingsValue(p, fields) == Ok(p);
      assert out.fields == m[ListingsKey := p];
      assert out.fields[ListingsKey := p] == out.fields;
    } else {
      assert ProcessAll([], fields) == Ok([]);
      assert out.fields[ListingsKey := Arr([])] == out.fields;
    }
  }

  // ---------------------------------------------------------------------------
  // format_data
  // ---------------------------------------------------------------------------

  const OpenAiModels: seq<string> := ["gpt-4o-mini", "gpt-4o-2024-08-06"]
  const GeminiModel: string := "gemini-2.0-flash"
  const LlamaModel: string := "Llama3.1 8B"
  const GroqModel: string := "Groq Llama3.1 70b"

  predicate Supported(model: string)
  {
    model in OpenAiModels || model == GeminiModel || model == LlamaModel || model == GroqModel
  }

  /** A chat request: model name, system message, user message. */
  datatype ChatRequest = ChatRequest(model: string, system: string, user: string)

  /** A chat completion's first message and its usage counts. */
  datatype ChatCompletion = ChatCompletion(content: string, promptTokens: nat, completionTokens: nat)

  /** A Gemini completion: its `finish_reason` attribute if any, its `text`
      attribute if any, and its usage metadata. */
  datatype GeminiCompletion =
    GeminiCompletion(finishReason: Option<int>, text: Option<string>, promptTokens: nat, candidatesTokens: nat)

  /** Everything `format_data` reaches outside itself: the prompt constants and
      model names from the assets module, the model back ends, the tokenizer
      length and the JSON codec. */
  datatype Backends = Backends(
    systemMessage: string,
    userMessage: string,
    llamaFullName: string,
    groqFullName: string,
    openAiParse: ChatRequest -> seq<Listing>,    // the listings of the schema-validated reply
    tokenLength: (string, string) -> nat,        // len(tiktoken encoding_for_model(m).encode(text))
    dumps: Json -> string,
    gemini: string -> GeminiCompletion,
    geminiFix: string -> string,                 // generate_content(prompt).text
    localChat: ChatRequest -> ChatCompletion,
    groqChat: ChatRequest -> ChatCompletion,
    loads: Decoder)

  /** The prompt `fix_json_output` sends with the broken text. */
  function FixPrompt(env: Backends, data: string, brokenJson: string): string
  {
    env.systemMessage + "\n" + env.userMessage + data
    + "\nThe JSON above is invalid or incomplete. "
    + "Please correct it and output only valid JSON with no additional text."
    + "\nBroken JSON:\n" + brokenJson
  }

  /** The Gemini prompt for one chunk. */
  function GeminiPrompt(env: Backends, data: string): string
  {
    env.systemMessage + "\n" + env.userMessage + data
  }

  /** What the Gemini branch holds in `final_json` before post-processing: the
      decode of the reply, else the decode of one repaired reply, else (also when
      the decode is JSON null, or the reply was restricted or had no text)
      `{"listings": []}`. */
  function GeminiJson(env: Backends, data: string): Json
  {
    var completion := env.gemini(GeminiPrompt(env, data));
    if completion.finishReason == Some(4) || completion.text.None? then ListingsObject([])
    else
      var outputText := completion.text.value;
      var decoded :=
        match env.loads(outputText)
        case Some(v) => Some(v)
        case None => env.loads(env.geminiFix(FixPrompt(env, data, outputText)));
      if decoded.None? || decoded.value == Null then ListingsObject([]) else decoded.value
  }

  function AsObjects(listings: seq<Listing>): (r: seq<Json>)
    ensures |r| == |listings| && forall i :: 0 <= i < |listings| ==> r[i] == Obj(listings[i])
  {
    seq(|listings|, i requires 0 <= i < |listings| => Obj(listings[i]))
  }

  /** What each branch of `format_data` holds before its post-processing step,
      with its token counts; an unsupported model raises ValueError, and an
      undecodable Llama or Groq reply raises the decode error. */
  function ModelOutput(data: string, fieldList: seq<string>, model: string, env: Backends)
    : Result<(Json, TokenCounts)>
  {
    var userContent := env.userMessage + data;
    if model in OpenAiModels then
      var parsed := ListingsObject(AsObjects(env.openAiParse(ChatRequest(model, env.systemMessage, userContent))));
      Ok((parsed, Counts(env.tokenLength(model, userContent), env.tokenLength(model, env.dumps(parsed)))))
    else if model == GeminiModel then
      var completion := env.gemini(GeminiPrompt(env, data));
      Ok((GeminiJson(env, data), Counts(completion.promptTokens, completion.candidatesTokens)))
    else if model == LlamaModel || model == GroqModel then
      var completion :=
        if model == LlamaModel then env.localChat(ChatRequest(env.llamaFullName, env.systemMessage, userContent))
        else env.groqChat(ChatRequest(env.groqFullName, env.systemMessage, userContent));
      match env.loads(completion.content)
      case None => Err(DecodeError)
      case Some(parsed) => Ok((parsed, Counts(completion.promptTokens, completion.completionTokens)))
    else Err(UnsupportedModel(model))
  }

  /** `format_data`: the branch's result after post-processing, with its counts. */
  function FormatDataSpec(data: string, fieldList: seq<string>, model: string, env: Backends)
    : Result<(Json, TokenCounts)>
  {
    match ModelOutput(data, fieldList, model, env)
    case Err(e) => Err(e)
    case Ok((raw, counts)) =>
      match Finish(raw, fieldList)
      case Err(e) => Err(e)
      case Ok(out) => Ok((out, counts))
  }

  method FormatData(data: string, fieldList: seq<string>, selectedModel: string, env: Backends)
    returns (r: Result<(Json, TokenCounts)>)
    ensures r == FormatDataSpec(data, fieldList, selectedModel, env)
  {
    var finalJson: Json;
    var tokenCounts: TokenCounts;
    var userContent := env.userMessage + data;
    if selectedModel in OpenAiModels {
      var parsed := env.openAiParse(ChatRequest(selectedModel, env.systemMessage, userContent));
      finalJson := ListingsObject(AsObjects(parsed));
      tokenCounts := Counts(env.tokenLength(selectedModel, userContent),
                            env.tokenLength(selectedModel, env.dumps(finalJson)));
    } else if selectedModel == GeminiModel {
      var completion := env.gemini(GeminiPrompt(env, data));
      tokenCounts := Counts(completion.promptTokens, completion.candidatesTokens);
      finalJson := GeminiReply(data, env, completion);
    } else if selectedModel == LlamaModel || selectedModel == GroqModel {
      var completion: ChatCompletion;
      if selectedModel == LlamaModel {
        completion := env.localChat(ChatRequest(env.llamaFullName, env.systemMessage, userContent));
      } else {
        completion := env.groqChat(ChatRequest(env.groqFullName, env.systemMessage, userContent));
      }
      var parsed := env.loads(completion.content);
      if parsed.None? {
        return Err(DecodeError);
      }
      finalJson := parsed.value;
      tokenCounts := Counts(completion.promptTokens, completion.completionTokens);
    } else {
      return Err(UnsupportedModel(selectedModel));
    }
    var finished := FinishListings(finalJson, fieldList);
    if finished.Err? {
      return Err(finished.error);
    }
    return Ok((finished.value, tokenCounts));
  }

  /** The Gemini branch's handling of its reply, with the one repair call. */
  method GeminiReply(data: string, env: Backends, completion: GeminiCompletion) returns (finalJson: Json)
    requires completion == env.gemini(GeminiPrompt(env, data))
    ensures finalJson == GeminiJson(env, data)
  {
    if completion.finishReason == Some(4) || completion.text.None? {
      finalJson := ListingsObject([]);
    } else {
      var outputText := completion.text.value;
      var decoded := env.loads(outputText);
      if decoded.None? {
        var fixedOutput := env.geminiFix(FixPrompt(env, data, outputText));
        decoded := env.loads(fixedOutput);
      }
      if decoded.None? || decoded.value == Null {
        finalJson := ListingsObject([]);
      } else {
        finalJson := decoded.value;
      }
    }
  }

  /** ValueError is raised exactly for the models outside the four branches. */
  lemma UnsupportedModelRaises(data: string, fieldList: seq<string>, model: string, env: Backends)
    ensures var r := FormatDataSpec(data, fieldList, model, env);
      (r.Err? && r.error.UnsupportedModel?) <==> !Supported(model)
    ensures !Supported(model) ==> FormatDataSpec(data, fieldList, model, env) == Err(UnsupportedModel(model))
  {
    var r := FormatDataSpec(data, fieldList, model, env);
    if Supported(model) && r.Err? {
      var raw := ModelOutput(data, fieldList, model, env);
      if raw.Ok? {
        FinishErrors(raw.value.0, fieldList);
      }
    }
  }

  /** Post-processing only ever raises TypeError. */
  lemma FinishErrors(finalJson: Json, fields: seq<string>)
    ensures Finish(finalJson, fields).Err? ==> Finish(finalJson, fields).error == TypeError
  {
  }

  /** Every successful `format_data` result is a dictionary with `listings`, and
      when that holds a list, each dictionary in it has every field. */
  lemma FormatDataListingsComplete(data: string, fieldList: seq<string>, model: string, env: Backends)
    requires FormatDataSpec(data, fieldList, model, env).Ok?
    ensures var out := FormatDataSpec(data, fieldList, model, env).value.0;
      && out.Obj? && ListingsKey in out.fields
      && (out.fields[ListingsKey].Arr? ==>
            forall x, f :: x in out.fields[ListingsKey].items && x.Obj? && f in fieldList ==> f in x.fields)
  {
    var raw := ModelOutput(data, fieldList, model, env).value.0;
    FinishShape(raw, fieldList);
    var out := Finish(raw, fieldList).value;
    if ListingsKey in raw.fields && out.fields[ListingsKey].Arr? {
      var v := raw.fields[ListingsKey];
      var items := out.fields[ListingsKey].items;
      forall x, f | x in items && x.Obj? && f in fieldList
        ensures f in x.fields
      {
        var i :| 0 <= i < |items| && items[i] == x;
        assert ProcessItem(v.items[i], fieldList) == Ok(x);
      }
    }
  }

  /** Gemini: a restricted or textless reply, and a reply whose direct and
      repaired decodes both fail (or give null), each give `{"listings": []}`;
      the counts always come from the first call. */
  lemma GeminiFallbacks(data: string, fieldList: seq<string>, env: Backends)
    ensures var c := env.gemini(GeminiPrompt(env, data));
      var r := FormatDataSpec(data, fieldList, GeminiModel, env);
      && (r.Ok? ==> r.value.1 == Counts(c.promptTokens, c.candidatesTokens))
      && ((c.finishReason == Some(4) || c.text.None?) ==>
            r == Ok((ListingsObject([]), Counts(c.promptTokens, c.candidatesTokens))))
      && ((c.finishReason != Some(4) && c.text.Some?
           && env.loads(c.text.value) == None
           && env.loads(env.geminiFix(FixPrompt(env, data, c.text.value))) in {None, Some(Null)}) ==>
            r == Ok((ListingsObject([]), Counts(c.promptTokens, c.candidatesTokens))))
  {
    GeminiOutput(data, fieldList, env);
    FinishEmpty(fieldList);
  }

  /** The Gemini branch holds `GeminiJson` with the counts of its first call. */
  lemma GeminiOutput(data: string, fieldList: seq<string>, env: Backends)
    ensures var c := env.gemini(GeminiPrompt(env, data));
      ModelOutput(data, fieldList, GeminiModel, env)
        == Ok((GeminiJson(env, data), Counts(c.promptTokens, c.candidatesTokens)))
  {
    assert GeminiModel !in OpenAiModels;
  }

  /** Post-processing leaves `{"listings": []}` as it is. */
  lemma FinishEmpty(fields: seq<string>)
    ensures Finish(ListingsObject([]), fields) == Ok(ListingsObject([]))
  {
    assert ProcessAll([], fields) == Ok([]);
    assert ListingsObject([]).fields[ListingsKey := Arr([])] == ListingsObject([]).fields;
  }

  /** Gemini makes at most one repair call, and only when the direct decode fails:
      the repair back end matters only through its reply to this reply's fix
      prompt, and not at all when the reply decodes. */
  lemma GeminiRepairOnlyOnFailure(data: string, fieldList: seq<string>, env: Backends, fix: string -> string)
    ensures var c := env.gemini(GeminiPrompt(env, data));
      var other := env.(geminiFix := fix);
      && ((c.text.Some? && env.loads(c.text.value).Some?) ==>
            FormatDataSpec(data, fieldList, GeminiModel, other) == FormatDataSpec(data, fieldList, GeminiModel, env))
      && ((c.text.Some? && fix(FixPrompt(env, data, c.text.value)) == env.geminiFix(FixPrompt(env, data, c.text.value))) ==>
            FormatDataSpec(data, fieldList, GeminiModel, other) == FormatDataSpec(data, fieldList, GeminiModel, env))
  {
    var other := env.(geminiFix := fix);
    assert GeminiPrompt(other, data) == GeminiPrompt(env, data);
    var c := env.gemini(GeminiPrompt(env, data));
    if c.text.Some? {
      assert FixPrompt(other, data, c.text.value) == FixPrompt(env, data, c.text.value);
    }
    GeminiOutput(data, fieldList, env);
    GeminiOutput(data, fieldList, other);
    if c.text.Some? && (env.loads(c.text.value).Some?
                        || fix(FixPrompt(env, data, c.text.value)) == env.geminiFix(FixPrompt(env, data, c.text.value))) {
      assert GeminiJson(other, data) == GeminiJson(env, data);
      assert ModelOutput(data, fieldList, GeminiModel, other) == ModelOutput(data, fieldList, GeminiModel, env);
    }
  }

  /** Llama and Groq raise the decode error on an undecodable reply, before any
      post-processing. */
  lemma ChatDecodeFailureRaises(data: string, fieldList: seq<string>, model: string, env: Backends)
    requires model == LlamaModel || model == GroqModel
    ensures var request := ChatRequest(if model == LlamaModel then env.llamaFullName else env.groqFullName,
                                       env.systemMessage, env.userMessage + data);
      var c := if model == LlamaModel then env.localChat(request) else env.groqChat(request);
      env.loads(c.content).None? <==> FormatDataSpec(data, fieldList, model, env) == Err(DecodeError)
  {
    assert model !in OpenAiModels && model != GeminiModel;
    var r := ModelOutput(data, fieldList, model, env);
    if r.Ok? {
      FinishErrors(r.value.0, fieldList);
    }
  }

  // ---------------------------------------------------------------------------
  // calculate_price
  // ---------------------------------------------------------------------------

  /** `calculate_price`: the counts (missing ones read as 0) and their cost; a
      model without a price entry raises KeyError. */
  function CalculatePrice(tokenCounts: TokenCounts, model: string, pricing: map<string, Rates>)
    : (r: Result<(nat, nat, real)>)
    ensures r.Ok? <==> model in pricing
    ensures r.Err? ==> r.error == KeyError(model)
    ensures r.Ok? ==> r.value.0 == Get(tokenCounts, InputTokensKey) && r.value.1 == Get(tokenCounts, OutputTokensKey)
    ensures r.Ok? ==> r.value.2 == r.value.0 as real * pricing[model].input + r.value.1 as real * pricing[model].output
  {
    var inputTokenCount := Get(tokenCounts, InputTokensKey);
    var outputTokenCount := Get(tokenCounts, OutputTokensKey);
    if model !in pricing then Err(KeyError(model))
    else
      var inputCost := inputTokenCount as real * pricing[model].input;
      var outputCost := outputTokenCount as real * pricing[model].output;
      Ok((inputTokenCount, outputTokenCount, inputCost + outputCost))
  }

  /** Pricing a whole run is pricing its parts: the cost of summed counts is the
      sum of the costs. */
  lemma PriceAdditive(a: TokenCounts, b: TokenCounts, model: string, pricing: map<string, Rates>)
    requires model in pricing
    ensures var sum := Counts(Get(a, InputTokensKey) + Get(b, InputTokensKey),
                              Get(a, OutputTokensKey) + Get(b, OutputTokensKey));
      CalculatePrice(sum, model, pricing).value.2
        == CalculatePrice(a, model, pricing).value.2 + CalculatePrice(b, model, pricing).value.2
  {
  }

  /** With non-negative rates no count costs less than nothing. */
  lemma PriceNonNegative(a: TokenCounts, model: string, pricing: map<string, Rates>)
    requires model in pricing && pricing[model].input >= 0.0 && pricing[model].output >= 0.0
    ensures CalculatePrice(a, model, pricing).value.2 >= 0.0
  {
  }
}
