/** The `fetch` handler of the search worker (apps/semsearch/src/index.ts):
    a guard chain on the request, then one embedding call and one index
    query whose matches are returned as they are. The request body's
    `request.json()` outcome, the embedding model and the vector index are
    inputs. */
module SemsearchWorker {

  import opened JsValues
  import opened SemsearchClient

  const EmbeddingModel := "@cf/google/embeddinggemma-300m"
  const TopK := 10

  const MethodNotAllowedText := "Method Not Allowed"
  const InvalidJsonText := "Invalid JSON body"
  const InvalidMessageText := "Missing or invalid \"message\" field"

  /** An incoming request: its method (`verb`), and what `request.json()` gives. */
  datatype Request = Request(verb: string, body: ParseResult)

  /** The options of the index query. */
  datatype QueryOptions = QueryOptions(topK: nat, returnMetadata: string)

  const SearchOptions := QueryOptions(TopK, "all")

  datatype ResponseBody = Text(text: string) | MatchesJson(matches: seq<VectorizeMatch>)

  /** What the handler ends in: a response, or an exception it does not
      catch (the platform then answers with an internal error). */
  datatype Outcome = Respond(status: nat, body: ResponseBody) | Uncaught(error: TypeError)

  /** `data[0]`: `None` (`undefined`) when `data` is empty. */
  function FirstVector<V>(data: seq<V>): (r: Option<V>)
    ensures r.None? <==> data == []
    ensures r.Some? ==> r.value == data[0]
  {
    if data == [] then None else Some(data[0])
  }

  /** The search of a valid query: embed exactly `[query]`, then ask the
      index for the 10 nearest vectors with all their metadata. `embed`
      stands for `env.AI.run(model, { text })` and gives the `data`
      vectors; `search` stands for `env.VECTORIZE.query(vector, options)`
      and gives its `matches`. */
  function Search<V>(query: string, embed: (string, seq<string>) -> seq<V>,
                     search: (Option<V>, QueryOptions) -> seq<VectorizeMatch>): (r: Outcome)
    ensures r.Respond? && r.status == 200 && r.body.MatchesJson?
    ensures r.body.matches == search(FirstVector(embed(EmbeddingModel, [query])), QueryOptions(10, "all"))
  {
    Respond(200, MatchesJson(search(FirstVector(embed(EmbeddingModel, [query])), SearchOptions)))
  }

  /** `!query || typeof query !== 'string'` is false: the property is a
      non-empty string. */
  predicate IsQuery(v: Option<JsonValue>) {
    v.Some? && v.value.JString? && v.value.s != ""
  }

  /** `IsQuery` is the guard: a truthy property whose type is string. */
  lemma IsQueryIsGuard(v: Option<JsonValue>)
    ensures IsQuery(v) <==> TruthyField(v) && v.value.JString?
  {
  }

  /** The handler as written: reading `body.message` happens outside the
      `try`, so a body that parses to `null` throws a TypeError. */
  function FetchAsWritten<V>(request: Request, embed: (string, seq<string>) -> seq<V>,
                             search: (Option<V>, QueryOptions) -> seq<VectorizeMatch>): (r: Outcome)
    ensures r.Uncaught? <==> request.verb == "POST" && request.body == Ok(JNull)
    ensures request.verb != "POST" ==> r == Respond(405, Text(MethodNotAllowedText))
  {
    if request.verb != "POST" then Respond(405, Text(MethodNotAllowedText))
    else
      match request.body
      case Err(_) => Respond(400, Text(InvalidJsonText))
      case Ok(body) =>
        match Property(body, "message")
        case Err(e) => Uncaught(e)
        case Ok(message) =>
          if !IsQuery(message) then Respond(400, Text(InvalidMessageText))
          else Search(message.value.s, embed, search)
  }

  /** The `message` of a parsed body, with `null` treated like any other
      body that has no such member. */
  function MessageOf(body: JsonValue): (r: Option<JsonValue>)
    ensures r.Some? ==> body.JObject?
    ensures body.JObject? ==> r == Lookup(body.members, "message")
  {
    if body.JObject? then Lookup(body.members, "message") else None
  }

  /** The handler as intended: the guards in order (method, then JSON,
      then message), each answering with its own status and text, and the
      search only for a non-empty string message. Every request gets a
      response. */
  function Fetch<V>(request: Request, embed: (string, seq<string>) -> seq<V>,
                    search: (Option<V>, QueryOptions) -> seq<VectorizeMatch>): (r: Outcome)
    ensures r.Respond?
    ensures request.verb != "POST" ==> r == Respond(405, Text(MethodNotAllowedText))
    ensures request.verb == "POST" && request.body.Err? ==> r == Respond(400, Text(InvalidJsonText))
    ensures request.verb == "POST" && request.body.Ok? && !IsQuery(MessageOf(request.body.value))
            ==> r == Respond(400, Text(InvalidMessageText))
    ensures r.status == 200 <==> request.verb == "POST" && request.body.Ok? && IsQuery(MessageOf(request.body.value))
    ensures r.status == 200 ==>
      r.body == MatchesJson(search(FirstVector(embed(EmbeddingModel, [MessageOf(request.body.value).value.s])), QueryOptions(10, "all")))
  {
    if request.verb != "POST" then Respond(405, Text(MethodNotAllowedText))
    else
      match request.body
      case Err(_) => Respond(400, Text(InvalidJsonText))
      case Ok(body) =>
        var message := MessageOf(body);
        if !IsQuery(message) then Respond(400, Text(InvalidMessageText))
        else Search(message.value.s, embed, search)
  }

  /** A POST whose body is the JSON text `null` escapes the handler as
      written, where a 400 answer was meant. */
  lemma NullBodyEscapes<V>(embed: (string, seq<string>) -> seq<V>,
                           search: (Option<V>, QueryOptions) -> seq<VectorizeMatch>)
    ensures FetchAsWritten(Request("POST", Ok(JNull)), embed, search) == Uncaught(NullPropertyRead("message"))
    ensures Fetch(Request("POST", Ok(JNull)), embed, search) == Respond(400, Text(InvalidMessageText))
  {
  }

  /** On every other request the handler as written and as intended agree. */
  lemma AgreesBesideNullBody<V>(request: Request, embed: (string, seq<string>) -> seq<V>,
                                search: (Option<V>, QueryOptions) -> seq<VectorizeMatch>)
    requires !(request.verb == "POST" && request.body == Ok(JNull))
    ensures FetchAsWritten(request, embed, search) == Fetch(request, embed, search)
  {
  }
}
