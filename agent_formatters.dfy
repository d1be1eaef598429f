/**
 * The first generation of tool-result formatters,
 * backend/app/chat/agent/utils/formaters.py: each parser turns a raw Composio
 * search payload into a `UnifiedSearchResponse` (general search, finance, news,
 * events) or a `VectorSearchResults` (vector search).
 *
 * The record types are defined from the fields the parsers pass. Their field types
 * are not known, so fields hold the raw values and nothing is validated; the
 * vector parser's `VectorSearchResults` is shared with the second generation. A
 * record stands for its `model_dump()`.
 */
module AgentFormatters {
  import opened Wrappers
  import opened PyJson
  import opened ComposioResults
  import OD = OrderedDict

  datatype OrganicResult = OrganicResult(
    title: Json := JNull, link: Json := JNull, displayedLink: Json := JNull,
    snippet: Json := JNull, source: Json := JNull, date: Json := JNull,
    favicon: Json := JNull, position: Json := JNull, redirectLink: Json := JNull,
    address: Json := JNull, description: Json := JNull, image: Json := JNull)

  datatype ForumAnswer = ForumAnswer(link: Json, snippet: Json, extensions: Json)

  datatype ForumResult = ForumResult(
    title: Json, link: Json, source: Json, date: Json, extensions: Json, answers: seq<ForumAnswer>)

  /** `AIPreviewResult()`, built with no fields. */
  datatype AIPreviewResult = AIPreviewResult

  datatype PriceMovement = PriceMovement(movement: Json, percentage: Json, value: Json)

  datatype MarketResult = MarketResult(
    name: Json, link: Json, stock: Json, price: Json,
    priceMovement: Option<PriceMovement>, serpapiLink: Json, region: Option<string>)

  /** `markets`: result lists by region, in insertion order. */
  type Markets = OD.Dict<string, seq<MarketResult>>

  datatype SearchResults = SearchResults(
    aiOverview: Option<AIPreviewResult> := None,
    organicResults: Option<seq<OrganicResult>> := None,
    discussionsAndForums: Option<seq<ForumResult>> := None,
    markets: Option<Markets> := None)

  datatype UnifiedSearchResponse = UnifiedSearchResponse(searchResults: SearchResults)

  const SearchPrefix := "Failed to parse COMPOSIO search results: "
  const FinancePrefix := "Failed to parse COMPOSIO finance search results: "
  const NewsPrefix := "Failed to parse COMPOSIO news search results: "

  /** `d.get(key, default)` on a value known to be a dict. */
  function FieldOr(d: Json, key: string, default: Json): Json
    requires d.JObj?
  {
    Lookup(d.fields, key).GetOr(default)
  }

  /** `xs if xs else None`: None for an empty list, else the list itself. */
  function NoneIfEmpty<T>(xs: seq<T>): (r: Option<seq<T>>)
    ensures r.None? <==> xs == []
    ensures r.Some? ==> r.value == xs
  {
    if xs == [] then None else Some(xs)
  }

  // ---------------------------------------------------------------------------
  // General search
  // ---------------------------------------------------------------------------

  /** One `organic_results` entry, copied field for field; only a dict has `.get`. */
  function OrganicOfSearch(item: Json): Result<OrganicResult> {
    if !item.JObj? then Raise(AttributeError)
    else Ok(OrganicResult(
      title := Field(item, "title"), link := Field(item, "link"),
      displayedLink := Field(item, "displayed_link"), snippet := Field(item, "snippet"),
      source := Field(item, "source"), date := Field(item, "date"),
      favicon := Field(item, "favicon"), position := Field(item, "position"),
      redirectLink := Field(item, "redirect_link")))
  }

  function AnswerOf(answer: Json): Result<ForumAnswer> {
    if !answer.JObj? then Raise(AttributeError)
    else Ok(ForumAnswer(Field(answer, "link"), Field(answer, "snippet"), Field(answer, "extensions")))
  }

  /** One forum entry with its answers; a missing `extensions` is `[]`. */
  function ForumOf(forum: Json): Result<ForumResult> {
    if !forum.JObj? then Raise(AttributeError)
    else
      var answers :- ForEach(FieldOr(forum, "answers", JArr([])), AnswerOf);
      Ok(ForumResult(Field(forum, "title"), Field(forum, "link"), Field(forum, "source"),
                     Field(forum, "date"), FieldOr(forum, "extensions", JArr([])), answers))
  }

  function SearchBody(composio: Json): Result<UnifiedSearchResponse> {
    var data :- SearchData(composio);
    var overview :- Get(data, "ai_overview");
    var organicData :- GetOr(data, "organic_results", JArr([]));
    var organic :- ForEach(organicData, OrganicOfSearch);
    var forumData :- GetOr(data, "discussions_and_forums", JArr([]));
    var forums :- ForEach(forumData, ForumOf);
    Ok(UnifiedSearchResponse(SearchResults(
      if Truthy(overview) then Some(AIPreviewResult) else None,
      NoneIfEmpty(organic), NoneIfEmpty(forums), None)))
  }

  /** `parse_composio_search_results`. */
  function ParseSearch(composio: Json): Reply<UnifiedSearchResponse> {
    Guard(SearchBody(composio), SearchPrefix)
  }

  /** The forum loop, with the loop over each forum's answers inside it. */
  method ForumsLoop(forumData: seq<Json>) returns (r: Result<seq<ForumResult>>)
    ensures r == MapItems(forumData, ForumOf)
  {
    var forums: seq<ForumResult> := [];
    var i := 0;
    while i < |forumData|
      invariant 0 <= i <= |forumData|
      invariant MapItems(forumData[..i], ForumOf) == Ok(forums)
    {
      assert forumData[..i + 1][..i] == forumData[..i];
      var forum := forumData[i];
      if !forum.JObj? {
        MapItemsKeepsFailure(forumData, i + 1, ForumOf);
        return Raise(AttributeError);
      }
      var answerData := Iter(FieldOr(forum, "answers", JArr([])));
      if answerData.Raise? {
        MapItemsKeepsFailure(forumData, i + 1, ForumOf);
        return Raise(answerData.exc);
      }
      var answers := MapLoop(answerData.value, AnswerOf);
      if answers.Raise? {
        MapItemsKeepsFailure(forumData, i + 1, ForumOf);
        return Raise(answers.exc);
      }
      var result := ForumResult(Field(forum, "title"), Field(forum, "link"), Field(forum, "source"),
                                Field(forum, "date"), FieldOr(forum, "extensions", JArr([])), answers.value);
      forums := forums + [result];
      i := i + 1;
    }
    assert forumData[..|forumData|] == forumData;
    r := Ok(forums);
  }

  method ParseComposioSearchResults(composio: Json) returns (r: Reply<UnifiedSearchResponse>)
    ensures r == ParseSearch(composio)
  {
    var data := SearchData(composio);
    if data.Raise? {
      return ErrorDict(SearchPrefix, data.exc);
    }
    var overview := Get(data.value, "ai_overview");
    if overview.Raise? {
      return ErrorDict(SearchPrefix, overview.exc);
    }
    var aiOverview: Option<AIPreviewResult> := None;
    if Truthy(overview.value) {
      aiOverview := Some(AIPreviewResult);
    }
    var organicData := Iter(FieldOr(data.value, "organic_results", JArr([])));
    if organicData.Raise? {
      return ErrorDict(SearchPrefix, organicData.exc);
    }
    var organic := MapLoop(organicData.value, OrganicOfSearch);
    if organic.Raise? {
      return ErrorDict(SearchPrefix, organic.exc);
    }
    var forumData := Iter(FieldOr(data.value, "discussions_and_forums", JArr([])));
    if forumData.Raise? {
      return ErrorDict(SearchPrefix, forumData.exc);
    }
    var forums := ForumsLoop(forumData.value);
    if forums.Raise? {
      return ErrorDict(SearchPrefix, forums.exc);
    }
    r := Dumped(UnifiedSearchResponse(SearchResults(
      aiOverview, NoneIfEmpty(organic.value), NoneIfEmpty(forums.value), None)));
  }

  /** Every organic record copies its input entry, in order; the list is `None`
    * exactly when there were no entries. */
  lemma SearchOrganicMirrors(composio: Json, data: Json, items: seq<Json>)
    requires SearchData(composio) == Ok(data) && data.JObj?
    requires Iter(FieldOr(data, "organic_results", JArr([]))) == Ok(items)
    requires ParseSearch(composio).Dumped?
    ensures var o := ParseSearch(composio).record.searchResults.organicResults;
            && (o.None? <==> items == [])
            && (o.Some? ==> |o.value| == |items|)
            && (o.Some? ==>
                 forall i :: 0 <= i < |items| ==>
                   && items[i].JObj?
                   && o.value[i].title == Field(items[i], "title")
                   && o.value[i].link == Field(items[i], "link")
                   && o.value[i].displayedLink == Field(items[i], "displayed_link")
                   && o.value[i].snippet == Field(items[i], "snippet")
                   && o.value[i].source == Field(items[i], "source")
                   && o.value[i].date == Field(items[i], "date")
                   && o.value[i].favicon == Field(items[i], "favicon")
                   && o.value[i].position == Field(items[i], "position")
                   && o.value[i].redirectLink == Field(items[i], "redirect_link"))
  {
    var organic := MapItems(items, OrganicOfSearch);
    assert organic.Ok?;
    forall i | 0 <= i < |items|
      ensures items[i].JObj?
    {
      assert OrganicOfSearch(items[i]).Ok?;
    }
  }

  /** Each forum record carries that forum's answers in order, and `[]` for a missing
    * `extensions`; the forum list is `None` exactly when there were no forums. */
  lemma SearchForumsMirror(composio: Json, data: Json, forums: seq<Json>)
    requires SearchData(composio) == Ok(data) && data.JObj?
    requires Iter(FieldOr(data, "discussions_and_forums", JArr([]))) == Ok(forums)
    requires ParseSearch(composio).Dumped?
    ensures var f := ParseSearch(composio).record.searchResults.discussionsAndForums;
            && (f.None? <==> forums == [])
            && (f.Some? ==> |f.value| == |forums|)
            && (f.Some? ==>
                 forall i :: 0 <= i < |forums| ==>
                   && forums[i].JObj?
                   && ForEach(FieldOr(forums[i], "answers", JArr([])), AnswerOf) == Ok(f.value[i].answers)
                   && (!Binds(forums[i].fields, "extensions") ==> f.value[i].extensions == JArr([])))
  {
    var built := MapItems(forums, ForumOf);
    assert built.Ok?;
    forall i | 0 <= i < |forums|
      ensures forums[i].JObj?
    {
      assert ForumOf(forums[i]).Ok?;
    }
  }

  /** `ai_overview` is an empty preview exactly when the input's is truthy, and
    * general search never reports markets. */
  lemma SearchOverview(composio: Json, data: Json)
    requires SearchData(composio) == Ok(data) && data.JObj?
    requires ParseSearch(composio).Dumped?
    ensures var s := ParseSearch(composio).record.searchResults;
            && (s.aiOverview == Some(AIPreviewResult) <==> Truthy(Field(data, "ai_overview")))
            && (s.aiOverview.None? <==> !Truthy(Field(data, "ai_overview")))
            && s.markets.None?
  {
    var body := SearchBody(composio);
    assert body.Ok? && ParseSearch(composio).record == body.value;
    var overview := Field(data, "ai_overview");
    assert Get(data, "ai_overview") == Ok(overview);
    var organicData := GetOr(data, "organic_results", JArr([]));
    assert organicData.Ok?;
    var organic := ForEach(organicData.value, OrganicOfSearch);
    assert organic.Ok?;
    var forumData := GetOr(data, "discussions_and_forums", JArr([]));
    assert forumData.Ok?;
    var forums := ForEach(forumData.value, ForumOf);
    assert forums.Ok?;
    assert body.value.searchResults == SearchResults(
      if Truthy(overview) then Some(AIPreviewResult) else None,
      NoneIfEmpty(organic.value), NoneIfEmpty(forums.value), None);
  }

  /** An organic entry that is not a dict turns the whole result into the error dict. */
  lemma SearchRejectsNonDictEntry(composio: Json, data: Json, items: seq<Json>, k: nat)
    requires SearchData(composio) == Ok(data) && data.JObj?
    requires Iter(FieldOr(data, "organic_results", JArr([]))) == Ok(items)
    requires k < |items| && !items[k].JObj?
    ensures ParseSearch(composio) == ErrorDict(SearchPrefix, AttributeError)
  {
    assert OrganicOfSearch(items[k]).Raise?;
    var organic := MapItems(items, OrganicOfSearch);
    assert organic.Raise?;
    var i :| 0 <= i < |items| && OrganicOfSearch(items[i]) == Raise(organic.exc);
  }

  // ---------------------------------------------------------------------------
  // Finance search
  // ---------------------------------------------------------------------------

  /** The regions read from `markets`. */
  const ValidRegions := ["asia", "crypto", "currencies", "europe", "futures", "us"]

  /** `price_str.replace(",", "").replace("$", "")`. */
  function StripPrice(s: string): (r: string)
    ensures forall i :: 0 <= i < |r| ==> r[i] != ',' && r[i] != '$'
    ensures |r| <= |s|
    decreases |s|
  {
    if s == [] then ""
    else
      var init := StripPrice(s[..|s| - 1]);
      var c := s[|s| - 1];
      if c == ',' || c == '$' then init else init + [c]
  }

  /** `create_market_result`'s price: `extracted_price` when it is not None; else a
    * number (or bool) under `price` as a float, a string under `price` parsed after
    * stripping, and None otherwise or when the string does not parse. */
  function PriceOf(item: Json, parseFloat: string -> Option<real>): Json
    requires item.JObj?
  {
    var extracted := Field(item, "extracted_price");
    if extracted != JNull || !Binds(item.fields, "price") then extracted
    else
      match Field(item, "price")
      case JNum(n) => JNum(n)
      case JBool(b) => JNum(if b then 1.0 else 0.0)
      case JStr(s) => (match parseFloat(StripPrice(s)) case Some(x) => JNum(x) case None => JNull)
      case _ => JNull
  }

  /** `create_market_result(item, region)`. */
  function MarketResultOf(item: Json, region: string, parseFloat: string -> Option<real>): (r: MarketResult)
    requires item.JObj?
    ensures r.region == Some(region)
    ensures r.name == Field(item, "name") && r.link == Field(item, "link")
    ensures r.stock == Field(item, "stock") && r.serpapiLink == Field(item, "serpapi_link")
    ensures r.price == PriceOf(item, parseFloat)
    ensures r.priceMovement.Some? <==> Field(item, "price_movement").JObj?
    ensures r.priceMovement.Some? ==>
              var m := Field(item, "price_movement");
              r.priceMovement.value == PriceMovement(Field(m, "movement"), Field(m, "percentage"), Field(m, "value"))
  {
    var movement := Field(item, "price_movement");
    MarketResult(
      Field(item, "name"), Field(item, "link"), Field(item, "stock"), PriceOf(item, parseFloat),
      if movement.JObj? then Some(PriceMovement(Field(movement, "movement"), Field(movement, "percentage"), Field(movement, "value")))
      else None,
      Field(item, "serpapi_link"), Some(region))
  }

  /** The dict items of a list, in order. */
  function Dicts(xs: seq<Json>): (r: seq<Json>)
    ensures forall i :: 0 <= i < |r| ==> r[i].JObj?
    ensures |r| <= |xs|
    decreases |xs|
  {
    if xs == [] then []
    else Dicts(xs[..|xs| - 1]) + (if xs[|xs| - 1].JObj? then [xs[|xs| - 1]] else [])
  }

  /** The inner loop over a region's items: one market result per dict item. */
  function RegionResults(items: seq<Json>, region: string, parseFloat: string -> Option<real>): (r: seq<MarketResult>)
    ensures forall i :: 0 <= i < |r| ==> r[i].region == Some(region)
    decreases |items|
  {
    if items == [] then []
    else
      var init := RegionResults(items[..|items| - 1], region, parseFloat);
      var item := items[|items| - 1];
      if item.JObj? then init + [MarketResultOf(item, region, parseFloat)] else init
  }

  /** The outer loop over `markets.items()`: a known region with a list of items gets
    * its non-empty result list; every other entry is skipped. */
  function RegionMarkets(fields: seq<(string, Json)>, parseFloat: string -> Option<real>): (m: Markets)
    ensures OD.Valid(m)
    decreases |fields|
  {
    if fields == [] then OD.Empty()
    else
      var m := RegionMarkets(fields[..|fields| - 1], parseFloat);
      var (region, items) := fields[|fields| - 1];
      if region in ValidRegions && items.JArr? then
        var results := RegionResults(items.items, region, parseFloat);
        if results != [] then OD.Set(m, region, results) else m
      else m
  }

  /** The loop over `discover_more`: the dict items of every dict section whose
    * `items` is a list, in order, as `featured` results. */
  function FeaturedResults(sections: seq<Json>, parseFloat: string -> Option<real>): (r: seq<MarketResult>)
    ensures forall i :: 0 <= i < |r| ==> r[i].region == Some("featured")
    decreases |sections|
  {
    if sections == [] then []
    else
      var init := FeaturedResults(sections[..|sections| - 1], parseFloat);
      var section := sections[|sections| - 1];
      if section.JObj? && FieldOr(section, "items", JArr([])).JArr?
      then init + RegionResults(FieldOr(section, "items", JArr([])).items, "featured", parseFloat)
      else init
  }

  /** `markets` after both loops. */
  function AllMarkets(data: Json, parseFloat: string -> Option<real>): (m: Markets)
    requires data.JObj? && FieldOr(data, "markets", JObj([])).JObj?
    ensures OD.Valid(m)
  {
    var m := RegionMarkets(FieldOr(data, "markets", JObj([])).fields, parseFloat);
    var discover := FieldOr(data, "discover_more", JArr([]));
    var featured := if discover.JArr? then FeaturedResults(discover.items, parseFloat) else [];
    if featured != [] then OD.Set(m, "featured", featured) else m
  }

  function FinanceBody(composio: Json, parseFloat: string -> Option<real>): Result<UnifiedSearchResponse> {
    var data :- SearchData(composio);
    var marketsData :- GetOr(data, "markets", JObj([]));
    // `markets_data.items()` exists only on a dict.
    if !marketsData.JObj? then Raise(AttributeError)
    else
      var m := AllMarkets(data, parseFloat);
      Ok(UnifiedSearchResponse(SearchResults(None, None, None, if OD.NonEmpty(m) then Some(m) else None)))
  }

  /** `parse_composio_finance_search_results`, with `float(str)` as `parseFloat`. */
  function ParseFinance(composio: Json, parseFloat: string -> Option<real>): Reply<UnifiedSearchResponse> {
    Guard(FinanceBody(composio, parseFloat), FinancePrefix)
  }

  /** One more item extends the region's results by its record, if it is a dict. */
  lemma RegionResultsNext(items: seq<Json>, i: nat, region: string, parseFloat: string -> Option<real>)
    requires i < |items|
    ensures RegionResults(items[..i + 1], region, parseFloat) ==
              RegionResults(items[..i], region, parseFloat) +
              (if items[i].JObj? then [MarketResultOf(items[i], region, parseFloat)] else [])
  {
    assert items[..i + 1][..i] == items[..i];
  }

  /** The loop over one item list, skipping items that are not dicts. */
  method ItemsLoop(items: seq<Json>, region: string, parseFloat: string -> Option<real>)
    returns (results: seq<MarketResult>)
    ensures results == RegionResults(items, region, parseFloat)
  {
    results := [];
    var i := 0;
    while i < |items|
      invariant 0 <= i <= |items|
      invariant results == RegionResults(items[..i], region, parseFloat)
    {
      RegionResultsNext(items, i, region, parseFloat);
      if items[i].JObj? {
        results := results + [MarketResultOf(items[i], region, parseFloat)];
      }
      i := i + 1;
    }
    assert items[..|items|] == items;
  }

  /** The loop over `markets.items()`. */
  method RegionsLoop(fields: seq<(string, Json)>, parseFloat: string -> Option<real>) returns (markets: Markets)
    ensures markets == RegionMarkets(fields, parseFloat)
  {
    markets := OD.Empty();
    var i := 0;
    while i < |fields|
      invariant 0 <= i <= |fields|
      invariant markets == RegionMarkets(fields[..i], parseFloat)
    {
      assert fields[..i + 1][..i] == fields[..i];
      var (region, items) := fields[i];
      if region in ValidRegions && items.JArr? {
        var results := ItemsLoop(items.items, region, parseFloat);
        if results != [] {
          markets := OD.Set(markets, region, results);
        }
      }
      i := i + 1;
    }
    assert fields[..|fields|] == fields;
  }

  /** The loop over `discover_more`. */
  method FeaturedLoop(sections: seq<Json>, parseFloat: string -> Option<real>) returns (featured: seq<MarketResult>)
    ensures featured == FeaturedResults(sections, parseFloat)
  {
    featured := [];
    var j := 0;
    while j < |sections|
      invariant 0 <= j <= |sections|
      invariant featured == FeaturedResults(sections[..j], parseFloat)
    {
      assert sections[..j + 1][..j] == sections[..j];
      var section := sections[j];
      if section.JObj? {
        var items := FieldOr(section, "items", JArr([]));
        if items.JArr? {
          var results := ItemsLoop(items.items, "featured", parseFloat);
          featured := featured + results;
        }
      }
      j := j + 1;
    }
    assert sections[..|sections|] == sections;
  }

  method ParseComposioFinanceSearchResults(composio: Json, parseFloat: string -> Option<real>)
    returns (r: Reply<UnifiedSearchResponse>)
    ensures r == ParseFinance(composio, parseFloat)
  {
    var data := SearchData(composio);
    if data.Raise? {
      return ErrorDict(FinancePrefix, data.exc);
    }
    if !data.value.JObj? {
      return ErrorDict(FinancePrefix, AttributeError);
    }
    var marketsData := FieldOr(data.value, "markets", JObj([]));
    if !marketsData.JObj? {
      return ErrorDict(FinancePrefix, AttributeError);
    }
    var markets := RegionsLoop(marketsData.fields, parseFloat);
    var discover := FieldOr(data.value, "discover_more", JArr([]));
    if discover.JArr? {
      var featured := FeaturedLoop(discover.items, parseFloat);
      if featured != [] {
        markets := OD.Set(markets, "featured", featured);
      }
    }
    r := Dumped(UnifiedSearchResponse(SearchResults(None, None, None,
      if OD.NonEmpty(markets) then Some(markets) else None)));
  }

  /** Everything `RegionMarkets` keeps is a known region with a non-empty list of
    * results tagged with that region. */
  lemma {:induction false} RegionMarketsShape(fields: seq<(string, Json)>, parseFloat: string -> Option<real>)
    ensures var m := RegionMarkets(fields, parseFloat);
            forall k :: k in m.entries ==>
              && k in ValidRegions
              && m.entries[k] != []
              && forall i :: 0 <= i < |m.entries[k]| ==> m.entries[k][i].region == Some(k)
    decreases |fields|
  {
    if fields != [] {
      RegionMarketsShape(fields[..|fields| - 1], parseFloat);
    }
  }

  /** A `markets` entry the region loop keeps: a known region whose value is a list
    * holding at least one dict. */
  predicate KeptRegion(region: string, items: Json) {
    region in ValidRegions && items.JArr? && Dicts(items.items) != []
  }

  /** The keys of a Python dict are distinct. */
  predicate DistinctKeys(fields: seq<(string, Json)>) {
    forall i, j :: 0 <= i < j < |fields| ==> fields[i].0 != fields[j].0
  }

  /** A region is kept exactly when its entry is a known region with a list holding
    * a dict, and it is then bound to that list's market results. */
  lemma {:induction false} RegionMarketsEntries(fields: seq<(string, Json)>, k: string, parseFloat: string -> Option<real>)
    requires DistinctKeys(fields)
    ensures var m := RegionMarkets(fields, parseFloat);
            && (k in m.entries <==> exists j :: 0 <= j < |fields| && fields[j].0 == k && KeptRegion(k, fields[j].1))
            && forall j :: 0 <= j < |fields| && fields[j].0 == k && k in m.entries ==>
                 fields[j].1.JArr? && m.entries[k] == RegionResults(fields[j].1.items, k, parseFloat)
    decreases |fields|
  {
    if fields != [] {
      var n := |fields| - 1;
      var pre := fields[..n];
      assert forall j :: 0 <= j < n ==> pre[j] == fields[j];
      RegionMarketsEntries(pre, k, parseFloat);
      assert EntriesRule(pre, k, parseFloat);
      if fields[n].0 == k {
        EntriesRuleAtKey(fields, k, parseFloat);
      } else {
        EntriesRuleOtherKey(fields, k, parseFloat);
      }
    }
  }

  /** What `RegionMarketsEntries` states about `k`. */
  predicate EntriesRule(fields: seq<(string, Json)>, k: string, parseFloat: string -> Option<real>) {
    var m := RegionMarkets(fields, parseFloat);
    && (k in m.entries <==> exists j :: 0 <= j < |fields| && fields[j].0 == k && KeptRegion(k, fields[j].1))
    && forall j :: 0 <= j < |fields| && fields[j].0 == k && k in m.entries ==>
         fields[j].1.JArr? && m.entries[k] == RegionResults(fields[j].1.items, k, parseFloat)
  }

  /** The step where the last key is `k`: by distinctness it is its only binding. */
  lemma EntriesRuleAtKey(fields: seq<(string, Json)>, k: string, parseFloat: string -> Option<real>)
    requires fields != [] && DistinctKeys(fields) && fields[|fields| - 1].0 == k
    requires EntriesRule(fields[..|fields| - 1], k, parseFloat)
    ensures EntriesRule(fields, k, parseFloat)
  {
    var n := |fields| - 1;
    var pre := fields[..n];
    assert forall j :: 0 <= j < n ==> pre[j] == fields[j];
    RegionMarketsLast(fields, parseFloat);
    assert forall j :: 0 <= j < n ==> fields[j].0 != k;
    assert k !in RegionMarkets(pre, parseFloat).entries;
    var m1 := RegionMarkets(fields, parseFloat).entries;
    assert k in m1 <==> KeptRegion(k, fields[n].1);
    assert forall j :: 0 <= j < |fields| && fields[j].0 == k ==> j == n;
  }

  /** The step where the last key is not `k`: nothing about `k` changes. */
  lemma EntriesRuleOtherKey(fields: seq<(string, Json)>, k: string, parseFloat: string -> Option<real>)
    requires fields != [] && fields[|fields| - 1].0 != k
    requires EntriesRule(fields[..|fields| - 1], k, parseFloat)
    ensures EntriesRule(fields, k, parseFloat)
  {
    var n := |fields| - 1;
    var pre := fields[..n];
    assert forall j :: 0 <= j < n ==> pre[j] == fields[j];
    RegionMarketsLast(fields, parseFloat);
    var m0 := RegionMarkets(pre, parseFloat).entries;
    var m1 := RegionMarkets(fields, parseFloat).entries;
    assert k in m1 <==> k in m0;
    assert k in m1 ==> m1[k] == m0[k];
    BindingsBeforeLast(fields, k);
  }

  /** When the last key is not `k`, the bindings of `k` are those of the prefix. */
  lemma BindingsBeforeLast(fields: seq<(string, Json)>, k: string)
    requires fields != [] && fields[|fields| - 1].0 != k
    ensures var pre := fields[..|fields| - 1];
            && ((exists j :: 0 <= j < |fields| && fields[j].0 == k && KeptRegion(k, fields[j].1)) <==>
                (exists j :: 0 <= j < |pre| && pre[j].0 == k && KeptRegion(k, pre[j].1)))
            && forall j :: 0 <= j < |fields| && fields[j].0 == k ==> j < |pre| && pre[j] == fields[j]
  {
    var pre := fields[..|fields| - 1];
    if j :| 0 <= j < |pre| && pre[j].0 == k && KeptRegion(k, pre[j].1) {
      assert fields[j] == pre[j];
    }
  }

  /** The last `markets` entry either binds its region to its results or is skipped. */
  lemma RegionMarketsLast(fields: seq<(string, Json)>, parseFloat: string -> Option<real>)
    requires fields != []
    ensures var (region, items) := fields[|fields| - 1];
            var m := RegionMarkets(fields[..|fields| - 1], parseFloat).entries;
            RegionMarkets(fields, parseFloat).entries ==
              if KeptRegion(region, items) then m[region := RegionResults(items.items, region, parseFloat)] else m
  {
    var (region, items) := fields[|fields| - 1];
    if items.JArr? {
      RegionResultsMirror(items.items, region, parseFloat);
    }
  }

  /** The finance result's markets: keys are known regions or `featured`, each with a
    * non-empty list of results tagged with its key. */
  lemma FinanceMarketsShape(composio: Json, parseFloat: string -> Option<real>)
    requires ParseFinance(composio, parseFloat).Dumped?
    ensures var s := ParseFinance(composio, parseFloat).record.searchResults;
            && s.aiOverview.None? && s.organicResults.None? && s.discussionsAndForums.None?
            && (s.markets.Some? ==>
                 && OD.NonEmpty(s.markets.value)
                 && forall k :: k in s.markets.value.entries ==>
                      && (k in ValidRegions || k == "featured")
                      && s.markets.value.entries[k] != []
                      && forall i :: 0 <= i < |s.markets.value.entries[k]| ==>
                           s.markets.value.entries[k][i].region == Some(k))
  {
    var data := SearchData(composio).value;
    RegionMarketsShape(FieldOr(data, "markets", JObj([])).fields, parseFloat);
  }

  /** With a dict `data` and a dict `markets`, the parser succeeds; `featured` holds
    * exactly the featured results of `discover_more` when there are any and is absent
    * otherwise, and `markets` is None exactly when neither a region nor `featured`
    * survived. */
  lemma FinanceFeatured(composio: Json, data: Json, parseFloat: string -> Option<real>)
    requires SearchData(composio) == Ok(data) && data.JObj?
    requires FieldOr(data, "markets", JObj([])).JObj?
    ensures ParseFinance(composio, parseFloat).Dumped?
    ensures var markets := ParseFinance(composio, parseFloat).record.searchResults.markets;
            var discover := FieldOr(data, "discover_more", JArr([]));
            var featured := if discover.JArr? then FeaturedResults(discover.items, parseFloat) else [];
            var regions := RegionMarkets(FieldOr(data, "markets", JObj([])).fields, parseFloat);
            && (markets.None? <==> featured == [] && regions.entries == map[])
            && (featured != [] ==> markets.Some? && "featured" in markets.value.entries &&
                                   markets.value.entries["featured"] == featured)
            && (featured == [] && markets.Some? ==> "featured" !in markets.value.entries)
  {
    var all := AllMarkets(data, parseFloat);
    AllMarketsFeatured(data, parseFloat);
    assert FinanceBody(composio, parseFloat) ==
           Ok(UnifiedSearchResponse(SearchResults(None, None, None, if OD.NonEmpty(all) then Some(all) else None)));
  }

  /** Every key but `featured` of the finance result's markets comes from the region
    * loop: present exactly when its `markets` entry is kept, holding that entry's
    * market results. */
  lemma FinanceRegions(composio: Json, data: Json, k: string, parseFloat: string -> Option<real>)
    requires SearchData(composio) == Ok(data) && data.JObj?
    requires FieldOr(data, "markets", JObj([])).JObj? && DistinctKeys(FieldOr(data, "markets", JObj([])).fields)
    requires k != "featured"
    ensures var markets := ParseFinance(composio, parseFloat).record.searchResults.markets;
            var fields := FieldOr(data, "markets", JObj([])).fields;
            && ((markets.Some? && k in markets.value.entries) <==>
                exists j :: 0 <= j < |fields| && fields[j].0 == k && KeptRegion(k, fields[j].1))
            && forall j :: 0 <= j < |fields| && fields[j].0 == k && markets.Some? && k in markets.value.entries ==>
                 fields[j].1.JArr? && markets.value.entries[k] == RegionResults(fields[j].1.items, k, parseFloat)
  {
    var fields := FieldOr(data, "markets", JObj([])).fields;
    var all := AllMarkets(data, parseFloat);
    var regions := RegionMarkets(fields, parseFloat);
    FinanceFeatured(composio, data, parseFloat);
    assert FinanceBody(composio, parseFloat) ==
           Ok(UnifiedSearchResponse(SearchResults(None, None, None, if OD.NonEmpty(all) then Some(all) else None)));
    RegionMarketsEntries(fields, k, parseFloat);
    assert (k in all.entries <==> k in regions.entries) && (k in all.entries ==> all.entries[k] == regions.entries[k]);
    OD.NonEmptyIffEntries(all);
  }

  /** `markets` after both loops is non-empty exactly when a region or `featured`
    * contributed, and holds `featured` exactly when that list is non-empty. */
  lemma AllMarketsFeatured(data: Json, parseFloat: string -> Option<real>)
    requires data.JObj? && FieldOr(data, "markets", JObj([])).JObj?
    ensures var all := AllMarkets(data, parseFloat);
            var discover := FieldOr(data, "discover_more", JArr([]));
            var featured := if discover.JArr? then FeaturedResults(discover.items, parseFloat) else [];
            var regions := RegionMarkets(FieldOr(data, "markets", JObj([])).fields, parseFloat);
            && (OD.NonEmpty(all) <==> featured != [] || regions.entries != map[])
            && (featured != [] ==> "featured" in all.entries && all.entries["featured"] == featured)
            && (featured == [] ==> "featured" !in all.entries)
  {
    var regions := RegionMarkets(FieldOr(data, "markets", JObj([])).fields, parseFloat);
    RegionMarketsShape(FieldOr(data, "markets", JObj([])).fields, parseFloat);
    OD.NonEmptyIffEntries(regions);
    OD.NonEmptyIffEntries(AllMarkets(data, parseFloat));
  }

  /** A region's results are its dict items, in order, each turned into a market result. */
  lemma {:induction false} RegionResultsMirror(items: seq<Json>, region: string, parseFloat: string -> Option<real>)
    ensures var r := RegionResults(items, region, parseFloat);
            && |r| == |Dicts(items)|
            && forall i :: 0 <= i < |r| ==> r[i] == MarketResultOf(Dicts(items)[i], region, parseFloat)
    decreases |items|
  {
    if items != [] {
      RegionResultsMirror(items[..|items| - 1], region, parseFloat);
    }
  }

  /** A string price is parsed with every `,` and `$` removed and the other
    * characters kept in order. */
  lemma {:induction false} StripPriceSplits(a: string, b: string)
    ensures StripPrice(a + b) == StripPrice(a) + StripPrice(b)
    decreases |b|
  {
    if b == [] {
      assert a + b == a;
    } else {
      assert (a + b)[..|a + b| - 1] == a + b[..|b| - 1];
      StripPriceSplits(a, b[..|b| - 1]);
    }
  }

  /** A string with neither `,` nor `$` is parsed as it is. */
  lemma {:induction false} StripPriceKeepsClean(s: string)
    requires Clean(s)
    ensures StripPrice(s) == s
    decreases |s|
  {
    if s != [] {
      StripPriceKeepsClean(s[..|s| - 1]);
    }
  }

  /** The price rules of `create_market_result`: `extracted_price` wins unless None;
    * otherwise only a number, a bool or a parseable string under `price` gives a
    * price, always a float. */
  lemma PriceRules(item: Json, parseFloat: string -> Option<real>)
    requires item.JObj?
    ensures Field(item, "extracted_price") != JNull ==> PriceOf(item, parseFloat) == Field(item, "extracted_price")
    ensures Field(item, "extracted_price") == JNull ==>
              (PriceOf(item, parseFloat) == JNull || PriceOf(item, parseFloat).JNum?)
    ensures Field(item, "extracted_price") == JNull && !Binds(item.fields, "price") ==> PriceOf(item, parseFloat) == JNull
    ensures forall n: real :: Field(item, "extracted_price") == JNull && Field(item, "price") == JNum(n) ==>
              PriceOf(item, parseFloat) == JNum(n)
    ensures forall b: bool :: Field(item, "extracted_price") == JNull && Field(item, "price") == JBool(b) ==>
              PriceOf(item, parseFloat) == JNum(if b then 1.0 else 0.0)
    ensures forall s: string :: Field(item, "extracted_price") == JNull && Field(item, "price") == JStr(s) ==>
              PriceOf(item, parseFloat) == (match parseFloat(StripPrice(s)) case Some(x) => JNum(x) case None => JNull)
    ensures var p := Field(item, "price");
            Field(item, "extracted_price") == JNull && !p.JNum? && !p.JBool? && !p.JStr? ==> PriceOf(item, parseFloat) == JNull
    ensures forall a: string, b: string ::
              Clean(a) && Clean(b) && Field(item, "extracted_price") == JNull && Field(item, "price") == JStr("$" + a + "," + b) ==>
              PriceOf(item, parseFloat) == (match parseFloat(a + b) case Some(x) => JNum(x) case None => JNull)
  {
    if Field(item, "extracted_price") == JNull && Field(item, "price") != JNull {
      assert Binds(item.fields, "price");
    }
    forall a: string, b: string | Clean(a) && Clean(b) && Field(item, "extracted_price") == JNull && Field(item, "price") == JStr("$" + a + "," + b)
      ensures PriceOf(item, parseFloat) == (match parseFloat(a + b) case Some(x) => JNum(x) case None => JNull)
    {
      assert Binds(item.fields, "price");
      StripDollarAndComma(a, b);
    }
  }

  /** Neither `,` nor `$`. */
  predicate Clean(s: string) {
    forall i :: 0 <= i < |s| ==> s[i] != ',' && s[i] != '$'
  }

  /** `"$1,234.5"` is read as `"1234.5"`: the currency sign and the thousands
    * separator are dropped and the digits kept. */
  lemma StripDollarAndComma(a: string, b: string)
    requires Clean(a) && Clean(b)
    ensures StripPrice("$" + a + "," + b) == a + b
  {
    StripPriceSplits("$" + a + ",", b);
    StripPriceSplits("$" + a, ",");
    StripPriceSplits("$", a);
    StripPriceKeepsClean(a);
    StripPriceKeepsClean(b);
    assert StripPrice(",") == StripPrice("") by { assert ","[..0] == ""; }
    assert StripPrice("$") == StripPrice("") by { assert "$"[..0] == ""; }
  }

  // ---------------------------------------------------------------------------
  // News and event search
  // ---------------------------------------------------------------------------

  function OrganicOfNews(item: Json): Result<OrganicResult> {
    if !item.JObj? then Raise(AttributeError)
    else Ok(OrganicResult(
      title := Field(item, "title"), date := Field(item, "date"), snippet := Field(item, "snippet"),
      link := Field(item, "link"), source := Field(item, "source"),
      favicon := Field(item, "favicon"), position := Field(item, "position")))
  }

  function NewsBody(composio: Json): Result<UnifiedSearchResponse> {
    var data :- SearchData(composio);
    var newsData :- GetOr(data, "news_results", JArr([]));
    var organic :- ForEach(newsData, OrganicOfNews);
    Ok(UnifiedSearchResponse(SearchResults(None, NoneIfEmpty(organic), None, None)))
  }

  /** `parse_composio_news_search_results`. */
  function ParseNews(composio: Json): Reply<UnifiedSearchResponse> {
    Guard(NewsBody(composio), NewsPrefix)
  }

  method ParseComposioNewsSearchResults(composio: Json) returns (r: Reply<UnifiedSearchResponse>)
    ensures r == ParseNews(composio)
  {
    var data := SearchData(composio);
    if data.Raise? {
      return ErrorDict(NewsPrefix, data.exc);
    }
    if !data.value.JObj? {
      return ErrorDict(NewsPrefix, AttributeError);
    }
    var newsData := Iter(FieldOr(data.value, "news_results", JArr([])));
    if newsData.Raise? {
      return ErrorDict(NewsPrefix, newsData.exc);
    }
    var organic := MapLoop(newsData.value, OrganicOfNews);
    if organic.Raise? {
      return ErrorDict(NewsPrefix, organic.exc);
    }
    r := Dumped(UnifiedSearchResponse(SearchResults(None, NoneIfEmpty(organic.value), None, None)));
  }

  /** News entries map one to one, in order, onto organic records, `None` when there
    * are none; the other sections are `None`. */
  lemma NewsMirrors(composio: Json, data: Json, items: seq<Json>)
    requires SearchData(composio) == Ok(data) && data.JObj?
    requires Iter(FieldOr(data, "news_results", JArr([]))) == Ok(items)
    requires ParseNews(composio).Dumped?
    ensures var s := ParseNews(composio).record.searchResults;
            && s.aiOverview.None? && s.discussionsAndForums.None? && s.markets.None?
            && (s.organicResults.None? <==> items == [])
            && (s.organicResults.Some? ==> |s.organicResults.value| == |items|)
            && (s.organicResults.Some? ==>
                 forall i :: 0 <= i < |items| ==> OrganicOfNews(items[i]) == Ok(s.organicResults.value[i]))
  {
  }

  /** One `event_results` entry; `date` and `address` are the concatenations of their
    * string parts, and anything but a string or a list of strings there raises. */
  function OrganicOfEvent(item: Json): Result<OrganicResult> {
    if !item.JObj? then Raise(AttributeError)
    else
      var date :- Join(Field(item, "date"));
      var address :- Join(Field(item, "address"));
      Ok(OrganicResult(
        title := Field(item, "title"), date := JStr(date), address := JStr(address),
        description := Field(item, "description"), image := Field(item, "image"),
        link := Field(item, "link")))
  }

  function EventBody(composio: Json): Result<UnifiedSearchResponse> {
    var data :- SearchData(composio);
    var eventData :- GetOr(data, "event_results", JArr([]));
    var organic :- ForEach(eventData, OrganicOfEvent);
    Ok(UnifiedSearchResponse(SearchResults(organicResults := NoneIfEmpty(organic))))
  }

  /** `parse_composio_event_search_results`; its error text says "news". */
  function ParseEvents(composio: Json): Reply<UnifiedSearchResponse> {
    Guard(EventBody(composio), NewsPrefix)
  }

  method ParseComposioEventSearchResults(composio: Json) returns (r: Reply<UnifiedSearchResponse>)
    ensures r == ParseEvents(composio)
  {
    var data := SearchData(composio);
    if data.Raise? {
      return ErrorDict(NewsPrefix, data.exc);
    }
    if !data.value.JObj? {
      return ErrorDict(NewsPrefix, AttributeError);
    }
    var eventData := Iter(FieldOr(data.value, "event_results", JArr([])));
    if eventData.Raise? {
      return ErrorDict(NewsPrefix, eventData.exc);
    }
    var organic := MapLoop(eventData.value, OrganicOfEvent);
    if organic.Raise? {
      return ErrorDict(NewsPrefix, organic.exc);
    }
    r := Dumped(UnifiedSearchResponse(SearchResults(organicResults := NoneIfEmpty(organic.value))));
  }

  /** An event's `date` and `address` are the concatenations of its string lists, and
    * an event without a `date` turns the whole result into the error dict. */
  lemma EventJoins(item: Json, dateParts: seq<Json>, addressParts: seq<Json>)
    requires item.JObj?
    requires Field(item, "date") == JArr(dateParts) && AllStrings(dateParts)
    requires Field(item, "address") == JArr(addressParts) && AllStrings(addressParts)
    ensures OrganicOfEvent(item).Ok?
    ensures OrganicOfEvent(item).value.date == JStr(Concat(dateParts))
    ensures OrganicOfEvent(item).value.address == JStr(Concat(addressParts))
  {
    JoinOfStrings(JArr(dateParts));
    JoinOfStrings(JArr(addressParts));
  }

  lemma EventWithoutDateFails(composio: Json, data: Json, items: seq<Json>, k: nat)
    requires SearchData(composio) == Ok(data) && data.JObj?
    requires Iter(FieldOr(data, "event_results", JArr([]))) == Ok(items)
    requires k < |items| && items[k].JObj? && !Binds(items[k].fields, "date")
    ensures ParseEvents(composio).ErrorDict? && ParseEvents(composio).prefix == NewsPrefix
  {
    JoinOfStrings(JNull);
    assert OrganicOfEvent(items[k]).Raise?;
  }

  // ---------------------------------------------------------------------------
  // Vector search
  // ---------------------------------------------------------------------------

  /** `parse_vector_search_results`: every item is built, and the last record is
    * returned; with no items the loop variable is never bound. Nothing is caught. */
  function ParseVector(result: Json): Result<VectorSearchResults> {
    var items :- Iter(result);
    var records :- MapItems(items, VectorOf);
    if records == [] then Raise(UnboundLocalError) else Ok(records[|records| - 1])
  }

  method ParseVectorSearchResults(result: Json) returns (r: Result<VectorSearchResults>)
    ensures r == ParseVector(result)
  {
    var items := Iter(result);
    if items.Raise? {
      return Raise(items.exc);
    }
    var xs := items.value;
    var last: Option<VectorSearchResults> := None;
    var i := 0;
    while i < |xs|
      invariant 0 <= i <= |xs|
      invariant forall j :: 0 <= j < i ==> VectorOf(xs[j]).Ok?
      invariant last.None? <==> i == 0
      invariant i > 0 ==> last == Some(VectorOf(xs[i - 1]).value)
    {
      var record := VectorOf(xs[i]);
      if record.Raise? {
        MapItemsFirstFailure(xs, i, VectorOf);
        return Raise(record.exc);
      }
      last := Some(record.value);
      i := i + 1;
    }
    if last.None? {
      return Raise(UnboundLocalError);
    }
    r := Ok(last.value);
  }

  /** The vector parser succeeds exactly when there is at least one item and every
    * item is a dict whose `movie` is a string; it then returns the last title only. */
  lemma VectorLastOnly(items: seq<Json>)
    ensures ParseVector(JArr(items)).Ok? <==>
              items != [] && forall i :: 0 <= i < |items| ==> items[i].JObj? && Field(items[i], "movie").JStr?
    ensures ParseVector(JArr(items)).Ok? ==> ParseVector(JArr(items)).value.title == Field(items[|items| - 1], "movie").s
    ensures items == [] ==> ParseVector(JArr(items)) == Raise(UnboundLocalError)
  {
    var records := MapItems(items, VectorOf);
    if records.Ok? && items != [] {
      assert VectorOf(items[|items| - 1]) == Ok(records.value[|items| - 1]);
    }
    if items != [] && forall i :: 0 <= i < |items| ==> items[i].JObj? && Field(items[i], "movie").JStr? {
      assert forall i :: 0 <= i < |items| ==> VectorOf(items[i]).Ok?;
    }
    if records.Raise? {
      var k :| 0 <= k < |items| && VectorOf(items[k]) == Raise(records.exc);
      assert !(items[k].JObj? && Field(items[k], "movie").JStr?);
    }
  }
}
