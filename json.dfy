/** Decoded JSON values, Python's failure modes, and the `listings` lookups that
    the scrapers perform on decoded model output. */
module Json {
  import opened Text

  datatype Option<+T> = None | Some(value: T)

  datatype Result<+T> = Ok(value: T) | Err(error: Error)

  /** The Python exceptions that can escape the modelled code. */
  datatype Error =
    | UnsupportedModel(model: string)  // ValueError raised by format_data
    | DecodeError                      // json.JSONDecodeError left uncaught
    | TypeError                        // `in`, indexing or iteration on the wrong kind of value
    | KeyError(key: string)            // subscript of a missing dictionary key

  /** A decoded JSON document. `Null` is Python's None; numbers are kept integral. */
  datatype Json =
    | Null
    | Bool(b: bool)
    | Num(n: int)
    | Str(s: string)
    | Arr(items: seq<Json>)
    | Obj(fields: map<string, Json>)

  /** One extracted record: a flat dictionary from field name to value. */
  type Listing = map<string, Json>

  /** A JSON decoder (json.loads, demjson3.decode): None when it raises. */
  type Decoder = string -> Option<Json>

  /** One model's price per token, as in the PRICING tables. */
  datatype Rates = Rates(input: real, output: real)

  /** Token-count dictionaries such as {"input_tokens": .., "output_tokens": ..}. */
  type TokenCounts = map<string, nat>

  const ListingsKey: string := "listings"
  const InputTokensKey: string := "input_tokens"
  const OutputTokensKey: string := "output_tokens"

  /** `counts.get(key, 0)` */
  function Get(counts: TokenCounts, key: string): (r: nat)
    ensures key in counts ==> r == counts[key]
    ensures key !in counts ==> r == 0
  {
    if key in counts then counts[key] else 0
  }

  function Counts(input: nat, output: nat): (r: TokenCounts)
    ensures Get(r, InputTokensKey) == input && Get(r, OutputTokensKey) == output
  {
    map[InputTokensKey := input, OutputTokensKey := output]
  }

  /** Adding to both counts of a `Counts` dictionary in place. */
  lemma CountsUpdate(a: nat, b: nat, x: nat, y: nat)
    ensures Counts(a, b)[InputTokensKey] == a && Counts(a, b)[OutputTokensKey] == b
    ensures Counts(a, b)[InputTokensKey := x][OutputTokensKey := y] == Counts(x, y)
  {
    assert InputTokensKey != OutputTokensKey by { assert |InputTokensKey| != |OutputTokensKey|; }
  }

  /** `{"listings": items}` */
  function ListingsObject(items: seq<Json>): (r: Json)
    ensures r.Obj? && r.fields.Keys == {ListingsKey} && r.fields[ListingsKey] == Arr(items)
  {
    Obj(map[ListingsKey := Arr(items)])
  }

  /** Python's `"listings" in value` followed, when true, by `value["listings"]`:
      Ok(None) when the key is absent, Ok(Some(v)) when a dictionary holds it,
      Err(TypeError) when the membership test or the subscript raises. */
  function ListingsLookup(value: Json): (r: Result<Option<Json>>)
    ensures value.Obj? ==> r.Ok?
    ensures r.Ok? && r.value.Some? <==> value.Obj? && ListingsKey in value.fields
    ensures r.Ok? && r.value.Some? ==> r.value.value == value.fields[ListingsKey]
    ensures value.Arr? ==> (r.Err? <==> Str(ListingsKey) in value.items)
    ensures value.Str? ==> (r.Err? <==> IsSubstring(ListingsKey, value.s))
    ensures (value.Null? || value.Bool? || value.Num?) ==> r == Err(TypeError)
    ensures r.Err? ==> r.error == TypeError
  {
    match value
    case Obj(m) => if ListingsKey in m then Ok(Some(m[ListingsKey])) else Ok(None)
    case Arr(xs) => if Str(ListingsKey) in xs then Err(TypeError) else Ok(None)
    case Str(s) => if IsSubstring(ListingsKey, s) then Err(TypeError) else Ok(None)
    case _ => Err(TypeError)
  }

  /** The elements that `list.extend(value)` appends: an array's items, a string's
      characters. Python would append a dictionary's keys in insertion order;
      the unordered map keeps no order, so a dictionary is reported as TypeError
      here, like every value that cannot be iterated. */
  function ExtendBy(value: Json): (r: Result<seq<Json>>)
    ensures value.Arr? ==> r == Ok(value.items)
    ensures value.Str? ==> r.Ok? && |r.value| == |value.s|
                           && forall i :: 0 <= i < |value.s| ==> r.value[i] == Str([value.s[i]])
    ensures r.Ok? <==> value.Arr? || value.Str?
    ensures r.Err? ==> r.error == TypeError
  {
    match value
    case Arr(xs) => Ok(xs)
    case Str(s) => Ok(seq(|s|, i requires 0 <= i < |s| => Str([s[i]])))
    case _ => Err(TypeError)
  }

  /** What one parsed chunk adds to `all_listings`:
      `if "listings" in parsed: all_listings.extend(parsed["listings"])`. */
  function Contribution(parsed: Json): (r: Result<seq<Json>>)
    ensures parsed.Obj? && ListingsKey !in parsed.fields ==> r == Ok([])
    ensures (parsed.Obj? && ListingsKey in parsed.fields && parsed.fields[ListingsKey].Arr?)
              ==> r == Ok(parsed.fields[ListingsKey].items)
    ensures r.Err? ==> r.error == TypeError
  {
    match ListingsLookup(parsed)
    case Err(e) => Err(e)
    case Ok(None) => Ok([])
    case Ok(Some(v)) => ExtendBy(v)
  }

  /** `Contribution` as the loops compute it: the membership test, then extend. */
  lemma ContributionSteps(parsed: Json)
    ensures Contribution(parsed) ==
      match ListingsLookup(parsed)
      case Err(e) => Err(e)
      case Ok(None) => Ok([])
      case Ok(Some(v)) => ExtendBy(v)
  {
  }
}
