/**
 * The second generation of tool-result formatters,
 * backend/app/chat/utils/formaters.py: every parser returns `{"results": [...]}`,
 * one record per input entry in input order, with no "empty becomes None" rule.
 *
 * `NewsSearchResults` and `VectorSearchResults` have required `str` fields and
 * accept nothing but strings there. `FinanceSearchResults` and
 * `EventSearchResults` are defined from the fields the parsers pass; their field
 * types are not known, so they hold the raw values unvalidated.
 */
module UtilsFormatters {
  import opened PyJson
  import opened ComposioResults

  /** `SearchResults(results=...)`, dumped as `{"results": [...]}`. */
  datatype Results<+T> = Results(results: seq<T>)

  datatype FinanceSearchResults = FinanceSearchResults(
    extractedPrice: Json, link: Json, name: Json, price: Json,
    movement: Json, percentage: Json, stock: Json)

  datatype NewsSearchResults = NewsSearchResults(
    title: string, date: string, snippet: string, link: string,
    source: string, favicon: string, position: string)

  datatype EventSearchResults = EventSearchResults(
    title: Json, date: string, address: string, description: Json, image: Json, link: Json)

  /** The one error text of all three guarded parsers. */
  const NewsPrefix := "Failed to parse COMPOSIO news search results: "

  // ---------------------------------------------------------------------------
  // Finance search
  // ---------------------------------------------------------------------------

  /** One item of the first `discover_more` section: `extracted_price` and `stock`
    * are both the item's `title`, and `price_movement` must be a dict. */
  function FinanceOf(item: Json): (r: Result<FinanceSearchResults>)
    ensures r.Ok? <==> item.JObj? && Field(item, "price_movement").JObj?
  {
    if !item.JObj? then Raise(AttributeError)
    else
      // `item.get("price_movement").get(...)`: only a dict has `.get`.
      var movement := Field(item, "price_movement");
      if !movement.JObj? then Raise(AttributeError)
      else Ok(FinanceSearchResults(
        extractedPrice := Field(item, "title"), link := Field(item, "link"),
        name := Field(item, "name"), price := Field(item, "price"),
        movement := Field(movement, "movement"), percentage := Field(movement, "percentage"),
        stock := Field(item, "title")))
  }

  /** The items of the first `discover_more` entry; `{}` stands in for a missing
    * `discover_more`, so that case is a `KeyError`. */
  function FinanceItems(composio: Json): Result<Json> {
    var data :- SearchData(composio);
    var discover :- GetOr(data, "discover_more", JObj([]));
    var first :- Index0(discover);
    GetOr(first, "items", JArr([]))
  }

  function FinanceBody(composio: Json): Result<Results<FinanceSearchResults>> {
    var items :- FinanceItems(composio);
    var records :- ForEach(items, FinanceOf);
    Ok(Results(records))
  }

  /** `parse_composio_finance_search_results`. */
  function ParseFinance(composio: Json): Reply<Results<FinanceSearchResults>> {
    Guard(FinanceBody(composio), NewsPrefix)
  }

  method ParseComposioFinanceSearchResults(composio: Json) returns (r: Reply<Results<FinanceSearchResults>>)
    ensures r == ParseFinance(composio)
  {
    var items := FinanceItems(composio);
    if items.Raise? {
      return ErrorDict(NewsPrefix, items.exc);
    }
    var xs := Iter(items.value);
    if xs.Raise? {
      return ErrorDict(NewsPrefix, xs.exc);
    }
    var results := MapLoop(xs.value, FinanceOf);
    if results.Raise? {
      return ErrorDict(NewsPrefix, results.exc);
    }
    r := Dumped(Results(results.value));
  }

  /** Only the first `discover_more` entry is read: two payloads whose
    * `discover_more` lists start with the same entry give the same reply. */
  lemma FinanceReadsFirstSectionOnly(c1: Json, c2: Json, data1: Json, data2: Json,
                                     section: Json, rest1: seq<Json>, rest2: seq<Json>)
    requires SearchData(c1) == Ok(data1) && data1.JObj?
    requires SearchData(c2) == Ok(data2) && data2.JObj?
    requires Field(data1, "discover_more") == JArr([section] + rest1)
    requires Field(data2, "discover_more") == JArr([section] + rest2)
    ensures ParseFinance(c1) == ParseFinance(c2)
  {
    assert Binds(data1.fields, "discover_more") by {
      assert Field(data1, "discover_more") != JNull;
    }
    assert Binds(data2.fields, "discover_more") by {
      assert Field(data2, "discover_more") != JNull;
    }
  }

  /** A missing `discover_more` is a `KeyError` and an empty one an `IndexError`;
    * either way the reply is the error dict. */
  lemma FinanceNeedsDiscoverMore(composio: Json, data: Json)
    requires SearchData(composio) == Ok(data) && data.JObj?
    ensures !Binds(data.fields, "discover_more") ==> ParseFinance(composio) == ErrorDict(NewsPrefix, KeyError)
    ensures Field(data, "discover_more") == JArr([]) ==> ParseFinance(composio) == ErrorDict(NewsPrefix, IndexError)
  {
    if Field(data, "discover_more") == JArr([]) {
      assert Binds(data.fields, "discover_more");
    }
  }

  /** Every finance record copies its item, in order, with the title in both
    * `extracted_price` and `stock`; an item whose `price_movement` is missing (or not
    * a dict) makes the whole reply the error dict. */
  lemma FinanceRecords(composio: Json, items: seq<Json>)
    requires FinanceItems(composio) == Ok(JArr(items))
    ensures ParseFinance(composio).Dumped? <==>
              forall i :: 0 <= i < |items| ==> items[i].JObj? && Field(items[i], "price_movement").JObj?
    ensures ParseFinance(composio).Dumped? ==>
              var rs := ParseFinance(composio).record.results;
              && |rs| == |items|
              && forall i :: 0 <= i < |items| ==>
                   && rs[i].extractedPrice == Field(items[i], "title")
                   && rs[i].stock == Field(items[i], "title")
                   && rs[i].link == Field(items[i], "link")
                   && rs[i].name == Field(items[i], "name")
                   && rs[i].price == Field(items[i], "price")
                   && rs[i].movement == Field(Field(items[i], "price_movement"), "movement")
                   && rs[i].percentage == Field(Field(items[i], "price_movement"), "percentage")
    ensures forall i :: 0 <= i < |items| && items[i].JObj? && !Binds(items[i].fields, "price_movement") ==>
              ParseFinance(composio) == ErrorDict(NewsPrefix, AttributeError)
  {
    var built := MapItems(items, FinanceOf);
    forall i | 0 <= i < |items| && items[i].JObj? && !Binds(items[i].fields, "price_movement")
      ensures ParseFinance(composio) == ErrorDict(NewsPrefix, AttributeError)
    {
      assert FinanceOf(items[i]).Raise?;
      var k :| 0 <= k < |items| && FinanceOf(items[k]) == Raise(built.exc);
      assert !items[k].JObj? || !Field(items[k], "price_movement").JObj?;
    }
  }

  // ---------------------------------------------------------------------------
  // News search
  // ---------------------------------------------------------------------------

  /** One `news_results` entry; all seven fields must be strings. */
  function NewsOf(item: Json): (r: Result<NewsSearchResults>)
    ensures r.Ok? <==> item.JObj? && NewsFieldsAreStrings(item)
    ensures r.Raise? ==> r.exc == (if item.JObj? then ValidationError else AttributeError)
  {
    if !item.JObj? then Raise(AttributeError)
    else
      var title :- AsStr(Field(item, "title"));
      var date :- AsStr(Field(item, "date"));
      var snippet :- AsStr(Field(item, "snippet"));
      var link :- AsStr(Field(item, "link"));
      var source :- AsStr(Field(item, "source"));
      var favicon :- AsStr(Field(item, "favicon"));
      var position :- AsStr(Field(item, "position"));
      Ok(NewsSearchResults(title, date, snippet, link, source, favicon, position))
  }

  predicate NewsFieldsAreStrings(item: Json)
    requires item.JObj?
  {
    && Field(item, "title").JStr? && Field(item, "date").JStr? && Field(item, "snippet").JStr?
    && Field(item, "link").JStr? && Field(item, "source").JStr? && Field(item, "favicon").JStr?
    && Field(item, "position").JStr?
  }

  function NewsBody(composio: Json): Result<Results<NewsSearchResults>> {
    var data :- SearchData(composio);
    var newsData :- GetOr(data, "news_results", JArr([]));
    var news :- ForEach(newsData, NewsOf);
    Ok(Results(news))
  }

  /** `parse_composio_news_search_results`. */
  function ParseNews(composio: Json): Reply<Results<NewsSearchResults>> {
    Guard(NewsBody(composio), NewsPrefix)
  }

  method ParseComposioNewsSearchResults(composio: Json) returns (r: Reply<Results<NewsSearchResults>>)
    ensures r == ParseNews(composio)
  {
    var data := SearchData(composio);
    if data.Raise? {
      return ErrorDict(NewsPrefix, data.exc);
    }
    var newsData := GetOr(data.value, "news_results", JArr([]));
    if newsData.Raise? {
      return ErrorDict(NewsPrefix, newsData.exc);
    }
    var xs := Iter(newsData.value);
    if xs.Raise? {
      return ErrorDict(NewsPrefix, xs.exc);
    }
    var news := MapLoop(xs.value, NewsOf);
    if news.Raise? {
      return ErrorDict(NewsPrefix, news.exc);
    }
    r := Dumped(Results(news.value));
  }

  /** News entries map one to one, in order, onto records; no entries give `[]`; an
    * entry with a field that is not a string (a numeric `position`, a missing
    * `favicon`) makes the reply the error dict. */
  lemma NewsMirrors(composio: Json, data: Json, items: seq<Json>)
    requires SearchData(composio) == Ok(data) && data.JObj?
    requires Iter(Lookup(data.fields, "news_results").GetOr(JArr([]))) == Ok(items)
    ensures items == [] ==> ParseNews(composio) == Dumped(Results([]))
    ensures ParseNews(composio).Dumped? <==> forall i :: 0 <= i < |items| ==> NewsOf(items[i]).Ok?
    ensures ParseNews(composio).Dumped? ==>
              |ParseNews(composio).record.results| == |items| &&
              forall i :: 0 <= i < |items| ==> NewsOf(items[i]) == Ok(ParseNews(composio).record.results[i])
    ensures ParseNews(composio).ErrorDict? ==> ParseNews(composio).cause in {AttributeError, ValidationError}
  {
    var news := MapItems(items, NewsOf);
    if news.Raise? {
      var k :| 0 <= k < |items| && NewsOf(items[k]) == Raise(news.exc);
    }
  }

  // ---------------------------------------------------------------------------
  // Event search
  // ---------------------------------------------------------------------------

  /** One `event_results` entry, with `date` and `address` each joined from their
    * parts with `""`. */
  function EventOf(item: Json): (r: Result<EventSearchResults>)
    ensures r.Ok? <==> item.JObj? && Join(Field(item, "date")).Ok? && Join(Field(item, "address")).Ok?
    ensures r.Ok? ==> r.value.date == Join(Field(item, "date")).value
    ensures r.Ok? ==> r.value.address == Join(Field(item, "address")).value
  {
    if !item.JObj? then Raise(AttributeError)
    else
      var date :- Join(Field(item, "date"));
      var address :- Join(Field(item, "address"));
      Ok(EventSearchResults(
        Field(item, "title"), date, address, Field(item, "description"), Field(item, "image"), Field(item, "link")))
  }

  function EventBody(composio: Json): Result<Results<EventSearchResults>> {
    var data :- SearchData(composio);
    var eventData :- GetOr(data, "event_results", JArr([]));
    var events :- ForEach(eventData, EventOf);
    Ok(Results(events))
  }

  /** `parse_composio_event_search_results`. */
  function ParseEvents(composio: Json): Reply<Results<EventSearchResults>> {
    Guard(EventBody(composio), NewsPrefix)
  }

  method ParseComposioEventSearchResults(composio: Json) returns (r: Reply<Results<EventSearchResults>>)
    ensures r == ParseEvents(composio)
  {
    var data := SearchData(composio);
    if data.Raise? {
      return ErrorDict(NewsPrefix, data.exc);
    }
    var eventData := GetOr(data.value, "event_results", JArr([]));
    if eventData.Raise? {
      return ErrorDict(NewsPrefix, eventData.exc);
    }
    var xs := Iter(eventData.value);
    if xs.Raise? {
      return ErrorDict(NewsPrefix, xs.exc);
    }
    var events := MapLoop(xs.value, EventOf);
    if events.Raise? {
      return ErrorDict(NewsPrefix, events.exc);
    }
    r := Dumped(Results(events.value));
  }

  /** One record per event, in order, whose `date` and `address` are the
    * concatenations of the entry's string lists. */
  lemma EventsJoined(composio: Json, data: Json, items: seq<Json>)
    requires SearchData(composio) == Ok(data) && data.JObj?
    requires Iter(Lookup(data.fields, "event_results").GetOr(JArr([]))) == Ok(items)
    requires forall i :: 0 <= i < |items| ==>
               && items[i].JObj?
               && Field(items[i], "date").JArr? && AllStrings(Field(items[i], "date").items)
               && Field(items[i], "address").JArr? && AllStrings(Field(items[i], "address").items)
    ensures ParseEvents(composio).Dumped?
    ensures var rs := ParseEvents(composio).record.results;
            && |rs| == |items|
            && forall i :: 0 <= i < |items| ==>
                 && rs[i].date == Concat(Field(items[i], "date").items)
                 && rs[i].address == Concat(Field(items[i], "address").items)
                 && rs[i].title == Field(items[i], "title")
  {
    forall i | 0 <= i < |items|
      ensures EventOf(items[i]).Ok?
    {
      JoinOfStrings(Field(items[i], "date"));
      JoinOfStrings(Field(items[i], "address"));
    }
  }

  // ---------------------------------------------------------------------------
  // Vector search
  // ---------------------------------------------------------------------------

  /** `parse_vector_search_results`: one record per item; nothing is caught. */
  function ParseVector(result: Json): Result<Results<VectorSearchResults>> {
    var items :- Iter(result);
    var movies :- MapItems(items, VectorOf);
    Ok(Results(movies))
  }

  method ParseVectorSearchResults(result: Json) returns (r: Result<Results<VectorSearchResults>>)
    ensures r == ParseVector(result)
  {
    var items := Iter(result);
    if items.Raise? {
      return Raise(items.exc);
    }
    var movies := MapLoop(items.value, VectorOf);
    if movies.Raise? {
      return Raise(movies.exc);
    }
    r := Ok(Results(movies.value));
  }

  /** The vector reply holds every item's title, in order, and exists exactly when
    * every item is a dict whose `movie` is a string; the empty list gives `[]`. */
  lemma VectorMirrors(items: seq<Json>)
    ensures ParseVector(JArr(items)).Ok? <==>
              forall i :: 0 <= i < |items| ==> items[i].JObj? && Field(items[i], "movie").JStr?
    ensures ParseVector(JArr(items)).Ok? ==>
              var ms := ParseVector(JArr(items)).value.results;
              |ms| == |items| && forall i :: 0 <= i < |items| ==> ms[i].title == Field(items[i], "movie").s
    ensures ParseVector(JArr([])) == Ok(Results([]))
  {
    var movies := MapItems(items, VectorOf);
    if movies.Ok? {
      forall i | 0 <= i < |items|
        ensures movies.value[i].title == Field(items[i], "movie").s
      {
        assert VectorOf(items[i]) == Ok(movies.value[i]);
      }
    }
  }
}
