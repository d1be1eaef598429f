/**
 * What both generations of the tool-result formatters share: the payload sits at
 * `result["data"]["results"]`, an exception inside a parser's `try` becomes a
 * one-key error dict `{"error": prefix + str(e)}` instead of propagating, and the
 * vector parsers build the same one-field record.
 */
module ComposioResults {
  import opened PyJson

  /** `composio_result.get("data", {}).get("results", {})`. */
  function SearchData(composio: Json): (r: Result<Json>)
    ensures !composio.JObj? ==> r == Raise(AttributeError)
    ensures composio.JObj? && !Binds(composio.fields, "data") ==> r == Ok(JObj([]))
  {
    var data :- GetOr(composio, "data", JObj([]));
    GetOr(data, "results", JObj([]))
  }

  /** What a guarded parser returns: the record it dumps, or the error dict, whose
    * text is `prefix` followed by the exception's message (not modelled). */
  datatype Reply<+T> = Dumped(record: T) | ErrorDict(prefix: string, cause: Exc)

  /** `try: ... except Exception as e: return {"error": prefix + str(e)}`. */
  function Guard<T>(body: Result<T>, prefix: string): (r: Reply<T>)
    ensures r.Dumped? <==> body.Ok?
    ensures body.Ok? ==> r.record == body.value
    ensures body.Raise? ==> r.prefix == prefix && r.cause == body.exc
  {
    match body
    case Ok(v) => Dumped(v)
    case Raise(e) => ErrorDict(prefix, e)
  }

  /** `VectorSearchResults`, the same in both schema files: one required `str`. */
  datatype VectorSearchResults = VectorSearchResults(title: string)

  /** `VectorSearchResults(title=item.get("movie"))`: the title must be a string. */
  function VectorOf(item: Json): (r: Result<VectorSearchResults>)
    ensures r.Ok? <==> item.JObj? && Field(item, "movie").JStr?
    ensures r.Ok? ==> r.value.title == Field(item, "movie").s
  {
    var movie :- Get(item, "movie");
    var title :- AsStr(movie);
    Ok(VectorSearchResults(title))
  }
}
