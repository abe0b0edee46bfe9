/** The `bing_search` tool: Bing Web Search API v7 over GET. */
module BingSearch {
  import opened Wrappers
  import opened JsonValue
  import opened Text
  import opened Decimal
  import opened PercentEncoding
  import opened ArgValues
  import opened Query
  import opened Render
  import opened Mcp

  const ToolName := "bing_search"
  const BaseUrl := "https://api.bing.microsoft.com/v7.0/search"
  const KeyHeader := "Ocp-Apim-Subscription-Key"

  /** The query parameters in the order the adapter may emit them. */
  const Order := ["q", "count", "offset", "mkt", "safeSearch", "freshness", "responseFilter", "setLang"]

  // ---------------------------------------------------------------------------
  // Query parameters
  // ---------------------------------------------------------------------------

  const SafeSearchLevels := {"Off", "Moderate", "Strict"}
  const FreshnessPeriods := {"Day", "Week", "Month"}

  /** A named period goes through as is, a date range ("..") is encoded, anything else is dropped. */
  function FreshnessValue(args: Args): (r: Option<string>)
    ensures r.Some? ==> '&' !in r.value
  {
    var v := Arg(args, "freshness");
    if !v.Str? then None
    else if v.s in FreshnessPeriods then Some(v.s)
    else if Contains(v.s, "..") then Some(Encode(v.s))
    else None
  }

  /** The declared parameters, in the order the adapter pushes them. */
  function Slots(query: string, args: Args): seq<Slot> {
    [ Slot("q", Some(Encode(query))),
      Slot("count", IntBetween(args, "count", 1, 50)),
      Slot("offset", NonNegative(args, "offset")),
      Slot("mkt", Encoded(args, "mkt")),
      Slot("safeSearch", Choice(args, "safe_search", SafeSearchLevels)),
      Slot("freshness", FreshnessValue(args)),
      Slot("responseFilter", Encoded(args, "response_filter")),
      Slot("setLang", Encoded(args, "set_lang")) ]
  }

  /** The parameters sent, in the order they are pushed. */
  function QueryParams(query: string, args: Args): seq<Param> {
    Flatten(Slots(query, args))
  }

  function Url(query: string, args: Args): string {
    BaseUrl + "?" + QueryString(QueryParams(query, args))
  }

  function Request(query: string, apiKey: string, args: Args): HttpRequest {
    HttpRequest("GET", Url(query, args), map[KeyHeader := apiKey], None)
  }

  method PushFreshness(ps: seq<Param>, args: Args) returns (r: seq<Param>)
    ensures r == Push(ps, Slot("freshness", FreshnessValue(args)))
  {
    r := ps;
    var freshness := Arg(args, "freshness");
    if freshness.Str? {
      if freshness.s in FreshnessPeriods {
        r := r + [Param("freshness", freshness.s)];
      } else if Contains(freshness.s, "..") {
        r := r + [Param("freshness", Encode(freshness.s))];
      }
    }
  }

  method BuildQueryParams(query: string, args: Args) returns (ps: seq<Param>)
    ensures ps == QueryParams(query, args)
  {
    ghost var slots := Slots(query, args);
    ps := [Param("q", Encode(query))];
    assert ps == Filled(slots, 1);
    ps := PushIntBetween(ps, args, "count", "count", 1, 50);
    FilledNext(slots, 1, Slot("count", IntBetween(args, "count", 1, 50)));
    ps := PushNonNegative(ps, args, "offset", "offset");
    FilledNext(slots, 2, Slot("offset", NonNegative(args, "offset")));
    ps := PushEncoded(ps, args, "mkt", "mkt");
    FilledNext(slots, 3, Slot("mkt", Encoded(args, "mkt")));
    ps := PushChoice(ps, args, "safe_search", "safeSearch", SafeSearchLevels);
    FilledNext(slots, 4, Slot("safeSearch", Choice(args, "safe_search", SafeSearchLevels)));
    ps := PushFreshness(ps, args);
    FilledNext(slots, 5, Slot("freshness", FreshnessValue(args)));
    ps := PushEncoded(ps, args, "response_filter", "responseFilter");
    FilledNext(slots, 6, Slot("responseFilter", Encoded(args, "response_filter")));
    ps := PushEncoded(ps, args, "set_lang", "setLang");
    FilledNext(slots, 7, Slot("setLang", Encoded(args, "set_lang")));
    assert |slots| == 8;
  }

  lemma OrderNames()
    ensures Distinct(Order) && forall k :: 0 <= k < |Order| ==> '&' !in Order[k]
  {
  }

  /** The table declares exactly `Order`, and every slot is free of '&'. */
  lemma SlotsShape(query: string, args: Args)
    ensures SlotNames(Slots(query, args)) == Order && Distinct(Order)
    ensures forall k :: 0 <= k < |Slots(query, args)| ==> PlainSlot(Slots(query, args)[k])
  {
    OrderNames();
    var slots := Slots(query, args);
    assert SlotNames(slots) == Order;
    forall k | 0 <= k < |slots| ensures PlainSlot(slots[k]) {
      assert slots[k].name == Order[k];
      if k == 4 {
        assert forall s | s in SafeSearchLevels :: '&' !in s;
      }
    }
  }

  /** What a declared parameter name finds is what its slot holds. */
  lemma LookupSlot(query: string, args: Args, k: nat)
    requires k < |Order|
    ensures Lookup(QueryParams(query, args), Order[k]) == Slots(query, args)[k].value
  {
    SlotsShape(query, args);
    LookupFlatten(Slots(query, args), k);
  }

  /** `count` is sent iff it is an integer in [1, 50], `offset` iff it is a non-negative integer. */
  lemma NumericParams(query: string, args: Args)
    ensures var c := AsI64(Arg(args, "count"));
      Lookup(QueryParams(query, args), "count") == if c.Some? && 1 <= c.value <= 50 then Some(IntToString(c.value)) else None
    ensures var o := AsI64(Arg(args, "offset"));
      Lookup(QueryParams(query, args), "offset") == if o.Some? && o.value >= 0 then Some(IntToString(o.value)) else None
  {
    LookupSlot(query, args, 1);
    LookupSlot(query, args, 2);
  }

  /**
    * `safeSearch` is sent only for Off, Moderate or Strict; `freshness` goes
    * through unencoded for Day, Week or Month, encoded when it holds "..",
    * and is dropped otherwise.
    */
  lemma EnumeratedParams(query: string, args: Args)
    ensures var v := Arg(args, "safe_search");
      Lookup(QueryParams(query, args), "safeSearch")
        == if v.Str? && v.s in SafeSearchLevels then Some(v.s) else None
    ensures var v := Arg(args, "freshness");
      Lookup(QueryParams(query, args), "freshness")
        == if !v.Str? then None
           else if v.s in FreshnessPeriods then Some(v.s)
           else if Contains(v.s, "..") then Some(Encode(v.s))
           else None
  {
    LookupSlot(query, args, 4);
    LookupSlot(query, args, 5);
  }

  /** The query is always sent, encoded; `mkt`, `responseFilter` and `setLang` are sent, encoded, whenever they are strings. */
  lemma FreeTextParams(query: string, args: Args)
    ensures Lookup(QueryParams(query, args), "q") == Some(Encode(query))
    ensures var v := Arg(args, "mkt");
      Lookup(QueryParams(query, args), "mkt") == if v.Str? then Some(Encode(v.s)) else None
    ensures var v := Arg(args, "response_filter");
      Lookup(QueryParams(query, args), "responseFilter") == if v.Str? then Some(Encode(v.s)) else None
    ensures var v := Arg(args, "set_lang");
      Lookup(QueryParams(query, args), "setLang") == if v.Str? then Some(Encode(v.s)) else None
  {
    LookupSlot(query, args, 0);
    LookupSlot(query, args, 3);
    LookupSlot(query, args, 6);
    LookupSlot(query, args, 7);
  }

  /**
    * The query string starts with `q=<encoded query>`, the other parameters
    * follow in declaration order, and splitting it at '&' gives back exactly
    * the `name=value` pairs.
    */
  lemma QueryStringLayout(query: string, args: Args)
    ensures |QueryParams(query, args)| >= 1 && QueryParams(query, args)[0] == Param("q", Encode(query))
    ensures IsSubsequence(Names(QueryParams(query, args)), Order)
    ensures Split(QueryString(QueryParams(query, args)), '&') == Texts(QueryParams(query, args))
  {
    var slots := Slots(query, args);
    SlotsShape(query, args);
    FlattenHead(slots);
    FlattenFollowsOrder(slots);
    TableSplits(slots);
  }

  // ---------------------------------------------------------------------------
  // Rendering a parsed response
  // ---------------------------------------------------------------------------

  /** The estimate, whether the API sent it as a string or as an integer. */
  function TotalLines(total: Json): seq<string> {
    if total.Str? then ["Total Results: " + total.s]
    else if AsI64(total).Some? then ["Total Results: " + IntToString(AsI64(total).value)]
    else []
  }

  /** One web result: a numbered rule, each field that is a string, a blank line. */
  function ResultBlock(result: Json, n: nat): (r: seq<string>)
    ensures |r| >= 2 && r[0] == NatToString(n) + ". " + Repeat('=', 50) && r[|r| - 1] == ""
  {
    [NatToString(n) + ". " + Repeat('=', 50)]
      + Labeled("Title: ", At(result, "name"))
      + Labeled("URL: ", At(result, "url"))
      + Labeled("Display URL: ", At(result, "displayUrl"))
      + Labeled("Snippet: ", At(result, "snippet"))
      + Labeled("Last Crawled: ", At(result, "dateLastCrawled"))
      + [""]
  }

  function WebResultsLines(value: Json): seq<string> {
    if !value.Arr? then []
    else if value.items == [] then ["No search results found."]
    else ["", "Web Search Results:", ""] + Numbered(value.items, 1, ResultBlock)
  }

  function SummaryLines(webPages: Json): seq<string> {
    TotalLines(At(webPages, "totalEstimatedMatches")) + Labeled("Search URL: ", At(webPages, "webSearchUrl"))
  }

  function WebPagesLines(webPages: Json): seq<string> {
    SummaryLines(webPages) + WebResultsLines(At(webPages, "value"))
  }

  /** Only the first suggestion is consulted. */
  function SpellingLines(suggestions: Json): seq<string> {
    var v := At(suggestions, "value");
    if v.Arr? && v.items != [] && At(v.items[0], "text").Str? then ["", "Did you mean: " + At(v.items[0], "text").s]
    else []
  }

  /** A related search is numbered by its position in the list, shown only if its text is a string. */
  function RelatedLine(related: Json, n: nat): seq<string> {
    Labeled(NatToString(n) + ". ", At(related, "text"))
  }

  function RelatedLines(relatedSearches: Json): seq<string> {
    var v := At(relatedSearches, "value");
    if v.Arr? && v.items != [] then ["", "Related Searches:"] + Numbered(v.items, 1, RelatedLine) else []
  }

  /** The text lines of a successful response, before they are joined. */
  function Lines(response: Json): seq<string> {
    WebPagesLines(At(response, "webPages"))
      + SpellingLines(At(response, "spellSuggestions"))
      + RelatedLines(At(response, "relatedSearches"))
  }

  /** The pushes for one web result, in the order the loop body makes them. */
  method RenderResult(result: Json, n: nat) returns (block: seq<string>)
    ensures block == ResultBlock(result, n)
  {
    block := [NatToString(n) + ". " + Repeat('=', 50)];
    block := PushLabeled(block, "Title: ", At(result, "name"));
    block := PushLabeled(block, "URL: ", At(result, "url"));
    block := PushLabeled(block, "Display URL: ", At(result, "displayUrl"));
    block := PushLabeled(block, "Snippet: ", At(result, "snippet"));
    block := PushLabeled(block, "Last Crawled: ", At(result, "dateLastCrawled"));
    block := block + [""];
  }

  method RenderResults(results: seq<Json>) returns (lines: seq<string>)
    ensures lines == Numbered(results, 1, ResultBlock)
  {
    lines := [];
    for i := 0 to |results|
      invariant lines == Numbered(results[..i], 1, ResultBlock)
    {
      var block := RenderResult(results[i], i + 1);
      NumberedStep(results, i, 1, ResultBlock);
      lines := lines + block;
    }
    assert results[..|results|] == results;
  }

  method RenderRelated(related: seq<Json>) returns (lines: seq<string>)
    ensures lines == Numbered(related, 1, RelatedLine)
  {
    lines := [];
    for i := 0 to |related|
      invariant lines == Numbered(related[..i], 1, RelatedLine)
    {
      var block := PushLabeled([], NatToString(i + 1) + ". ", At(related[i], "text"));
      NumberedStep(related, i, 1, RelatedLine);
      lines := lines + block;
    }
    assert related[..|related|] == related;
  }

  method RenderWebPages(webPages: Json) returns (lines: seq<string>)
    ensures lines == WebPagesLines(webPages)
  {
    lines := [];
    var total := At(webPages, "totalEstimatedMatches");
    if total.Str? {
      lines := lines + ["Total Results: " + total.s];
    } else if AsI64(total).Some? {
      lines := lines + ["Total Results: " + IntToString(AsI64(total).value)];
    }
    assert lines == TotalLines(total);
    lines := PushLabeled(lines, "Search URL: ", At(webPages, "webSearchUrl"));
    var value := At(webPages, "value");
    if value.Arr? {
      if value.items == [] {
        lines := lines + ["No search results found."];
      } else {
        var blocks := RenderResults(value.items);
        lines := lines + (["", "Web Search Results:", ""] + blocks);
      }
    }
  }

  method RenderLines(response: Json) returns (lines: seq<string>)
    ensures lines == Lines(response)
  {
    lines := RenderWebPages(At(response, "webPages"));
    var suggestions := At(At(response, "spellSuggestions"), "value");
    if suggestions.Arr? && suggestions.items != [] {
      var text := At(suggestions.items[0], "text");
      if text.Str? {
        lines := lines + ["", "Did you mean: " + text.s];
      }
    }
    assert lines == WebPagesLines(At(response, "webPages")) + SpellingLines(At(response, "spellSuggestions"));
    var related := At(At(response, "relatedSearches"), "value");
    if related.Arr? && related.items != [] {
      var relatedLines := RenderRelated(related.items);
      lines := lines + (["", "Related Searches:"] + relatedLines);
    }
  }

  /** Whatever the web-results section shows, the whole output shows. */
  lemma WebResultsShown(response: Json, part: seq<string>)
    requires Contains(WebResultsLines(At(At(response, "webPages"), "value")), part)
    ensures Contains(Lines(response), part)
  {
    var w := At(response, "webPages");
    ContainsRight(SummaryLines(w), WebResultsLines(At(w, "value")), part);
    ContainsLeft(WebPagesLines(w), SpellingLines(At(response, "spellSuggestions")), part);
    ContainsLeft(WebPagesLines(w) + SpellingLines(At(response, "spellSuggestions")),
                 RelatedLines(At(response, "relatedSearches")), part);
  }

  /** An empty result list is reported as such. */
  lemma EmptyResultsPlaceholder(response: Json)
    requires At(At(response, "webPages"), "value") == Arr([])
    ensures Contains(Lines(response), ["No search results found."])
  {
    assert WebResultsLines(Arr([]))[0..1] == ["No search results found."];
    WebResultsShown(response, ["No search results found."]);
  }

  /** Result `k` of a list is rendered, unbroken, after the results heading. */
  lemma ResultInSection(items: seq<Json>, k: nat)
    requires k < |items|
    ensures Contains(WebResultsLines(Arr(items)), ResultBlock(items[k], k + 1))
  {
    NumberedContains(items, 1, ResultBlock, k);
    ContainsRight(["", "Web Search Results:", ""], Numbered(items, 1, ResultBlock), ResultBlock(items[k], k + 1));
  }

  /**
    * Result `k` of a non-empty list appears as one unbroken block, which
    * (by `ResultBlock`'s contract) starts with its 1-based number and a
    * 50-character rule and ends with a blank line.
    */
  lemma ResultBlockPlacement(response: Json, k: nat)
    requires At(At(response, "webPages"), "value").Arr?
    requires k < |At(At(response, "webPages"), "value").items|
    ensures Contains(Lines(response), ResultBlock(At(At(response, "webPages"), "value").items[k], k + 1))
  {
    var items := At(At(response, "webPages"), "value").items;
    ResultInSection(items, k);
    WebResultsShown(response, ResultBlock(items[k], k + 1));
  }

  /** "Did you mean" quotes the first suggestion and nothing else; a first suggestion without text suppresses it. */
  lemma DidYouMeanFirst(response: Json)
    requires At(At(response, "spellSuggestions"), "value").Arr?
    requires At(At(response, "spellSuggestions"), "value").items != []
    ensures var first := At(At(response, "spellSuggestions"), "value").items[0];
      && (At(first, "text").Str? ==>
            && SpellingLines(At(response, "spellSuggestions")) == ["", "Did you mean: " + At(first, "text").s]
            && Contains(Lines(response), ["", "Did you mean: " + At(first, "text").s]))
      && (!At(first, "text").Str? ==> SpellingLines(At(response, "spellSuggestions")) == [])
  {
    var first := At(At(response, "spellSuggestions"), "value").items[0];
    if At(first, "text").Str? {
      var shown := ["", "Did you mean: " + At(first, "text").s];
      assert SpellingLines(At(response, "spellSuggestions"))[0..2] == shown;
      ContainsRight(WebPagesLines(At(response, "webPages")), SpellingLines(At(response, "spellSuggestions")), shown);
      ContainsLeft(WebPagesLines(At(response, "webPages")) + SpellingLines(At(response, "spellSuggestions")),
                   RelatedLines(At(response, "relatedSearches")), shown);
    }
  }

  /** The related search at index k, if it has text, is listed as "<k+1>. <text>". */
  lemma RelatedNumbering(response: Json, k: nat)
    requires At(At(response, "relatedSearches"), "value").Arr?
    requires k < |At(At(response, "relatedSearches"), "value").items|
    requires At(At(At(response, "relatedSearches"), "value").items[k], "text").Str?
    ensures Contains(Lines(response),
                     [NatToString(k + 1) + ". " + At(At(At(response, "relatedSearches"), "value").items[k], "text").s])
  {
    var items := At(At(response, "relatedSearches"), "value").items;
    NumberedContains(items, 1, RelatedLine, k);
    ContainsRight(["", "Related Searches:"], Numbered(items, 1, RelatedLine), RelatedLine(items[k], k + 1));
    ContainsRight(WebPagesLines(At(response, "webPages")) + SpellingLines(At(response, "spellSuggestions")),
                  RelatedLines(At(response, "relatedSearches")), RelatedLine(items[k], k + 1));
  }

  // ---------------------------------------------------------------------------
  // The tool
  // ---------------------------------------------------------------------------

  /**
    * What `bing_search` answers: the first required argument that is missing,
    * else the classified outcome of the single request it sends.
    */
  predicate Answers(args: Args, transport: HttpRequest -> Outcome, r: CallToolResult) {
    var query := RequiredString(args, "query");
    var apiKey := RequiredString(args, "api_key");
    if query.None? then r == ErrorResult(MissingParameter("query"))
    else if apiKey.None? then r == ErrorResult(MissingParameter("api_key"))
    else r == Respond(transport(Request(query.value, apiKey.value, args)), Lines)
  }

  method Search(args: Args, transport: HttpRequest -> Outcome) returns (r: CallToolResult)
    ensures Answers(args, transport, r)
  {
    var query := RequiredString(args, "query");
    if query.None? {
      return ErrorResult(MissingParameter("query"));
    }
    var apiKey := RequiredString(args, "api_key");
    if apiKey.None? {
      return ErrorResult(MissingParameter("api_key"));
    }
    var ps := BuildQueryParams(query.value, args);
    var url := BaseUrl + "?" + QueryString(ps);
    var outcome := transport(HttpRequest("GET", url, map[KeyHeader := apiKey.value], None));
    if outcome.Response? && Succeeded(outcome.status) && outcome.parsed.Success? {
      var lines := RenderLines(outcome.parsed.value);
      r := TextResult(Join(lines, "\n"));
    } else {
      r := Respond(outcome, Lines);
    }
  }

  method Call(name: string, args: Args, transport: HttpRequest -> Outcome) returns (r: CallToolResult)
    ensures name == ToolName ==> Answers(args, transport, r)
    ensures name != ToolName ==> r == UnknownTool(name) && IsError(r)
  {
    if name == ToolName {
      r := Search(args, transport);
    } else {
      r := UnknownTool(name);
    }
  }
}
