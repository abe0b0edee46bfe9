/** The `google_search` tool: Google Custom Search JSON API over GET, credentials in the query. */
module GoogleSearch {
  import opened Wrappers
  import opened JsonValue
  import opened Text
  import opened Decimal
  import opened PercentEncoding
  import opened ArgValues
  import opened Query
  import opened Render
  import opened Mcp

  const ToolName := "google_search"
  const BaseUrl := "https://www.googleapis.com/customsearch/v1"
  const SafeLevels := {"active", "off"}
  const SearchTypes := {"image"}

  /** The query parameters in the order the adapter may emit them. */
  const Order := ["key", "cx", "q", "num", "start", "safe", "lr", "gl", "cr", "dateRestrict", "siteSearch", "searchType"]

  // ---------------------------------------------------------------------------
  // Query parameters
  // ---------------------------------------------------------------------------

  /** The declared parameters, in the order the adapter pushes them; key and engine id go unencoded. */
  function Slots(query: string, apiKey: string, engineId: string, args: Args): seq<Slot> {
    [ Slot("key", Some(apiKey)),
      Slot("cx", Some(engineId)),
      Slot("q", Some(Encode(query))),
      Slot("num", IntBetween(args, "num", 1, 10)),
      Slot("start", IntBetween(args, "start", 1, 91)),
      Slot("safe", Choice(args, "safe", SafeLevels)),
      Slot("lr", Encoded(args, "lr")),
      Slot("gl", Encoded(args, "gl")),
      Slot("cr", Encoded(args, "cr")),
      Slot("dateRestrict", Encoded(args, "date_restrict")),
      Slot("siteSearch", Encoded(args, "site_search")),
      Slot("searchType", Choice(args, "search_type", SearchTypes)) ]
  }

  function QueryParams(query: string, apiKey: string, engineId: string, args: Args): seq<Param> {
    Flatten(Slots(query, apiKey, engineId, args))
  }

  function Url(query: string, apiKey: string, engineId: string, args: Args): string {
    BaseUrl + "?" + QueryString(QueryParams(query, apiKey, engineId, args))
  }

  /** No headers: the key travels in the query string. */
  function Request(query: string, apiKey: string, engineId: string, args: Args): HttpRequest {
    HttpRequest("GET", Url(query, apiKey, engineId, args), map[], None)
  }

  method BuildQueryParams(query: string, apiKey: string, engineId: string, args: Args) returns (ps: seq<Param>)
    ensures ps == QueryParams(query, apiKey, engineId, args)
  {
    ghost var slots := Slots(query, apiKey, engineId, args);
    ps := [Param("key", apiKey), Param("cx", engineId), Param("q", Encode(query))];
    assert ps == Filled(slots, 3);
    ps := PushIntBetween(ps, args, "num", "num", 1, 10);
    FilledNext(slots, 3, Slot("num", IntBetween(args, "num", 1, 10)));
    ps := PushIntBetween(ps, args, "start", "start", 1, 91);
    FilledNext(slots, 4, Slot("start", IntBetween(args, "start", 1, 91)));
    ps := PushChoice(ps, args, "safe", "safe", SafeLevels);
    FilledNext(slots, 5, Slot("safe", Choice(args, "safe", SafeLevels)));
    ps := PushEncoded(ps, args, "lr", "lr");
    FilledNext(slots, 6, Slot("lr", Encoded(args, "lr")));
    ps := PushEncoded(ps, args, "gl", "gl");
    FilledNext(slots, 7, Slot("gl", Encoded(args, "gl")));
    ps := PushEncoded(ps, args, "cr", "cr");
    FilledNext(slots, 8, Slot("cr", Encoded(args, "cr")));
    ps := PushEncoded(ps, args, "date_restrict", "dateRestrict");
    FilledNext(slots, 9, Slot("dateRestrict", Encoded(args, "date_restrict")));
    ps := PushEncoded(ps, args, "site_search", "siteSearch");
    FilledNext(slots, 10, Slot("siteSearch", Encoded(args, "site_search")));
    ps := PushChoice(ps, args, "search_type", "searchType", SearchTypes);
    FilledNext(slots, 11, Slot("searchType", Choice(args, "search_type", SearchTypes)));
    assert |slots| == 12;
  }

  lemma OrderNames()
    ensures Distinct(Order) && forall k :: 0 <= k < |Order| ==> '&' !in Order[k]
  {
  }

  /** The table declares exactly `Order`; every slot but the unencoded credentials is free of '&'. */
  lemma SlotsShape(query: string, apiKey: string, engineId: string, args: Args)
    ensures SlotNames(Slots(query, apiKey, engineId, args)) == Order && Distinct(Order)
    ensures forall k :: 2 <= k < |Slots(query, apiKey, engineId, args)| ==> PlainSlot(Slots(query, apiKey, engineId, args)[k])
  {
    OrderNames();
    var slots := Slots(query, apiKey, engineId, args);
    assert SlotNames(slots) == Order;
    forall k | 2 <= k < |slots| ensures PlainSlot(slots[k]) {
      assert slots[k].name == Order[k];
      if k == 5 || k == 11 {
        assert forall s | s in SafeLevels + SearchTypes :: '&' !in s;
      }
    }
  }

  /** What a declared parameter name finds is what its slot holds. */
  lemma LookupSlot(query: string, apiKey: string, engineId: string, args: Args, k: nat)
    requires k < |Order|
    ensures Lookup(QueryParams(query, apiKey, engineId, args), Order[k]) == Slots(query, apiKey, engineId, args)[k].value
  {
    SlotsShape(query, apiKey, engineId, args);
    LookupFlatten(Slots(query, apiKey, engineId, args), k);
  }

  /** The list always opens with `key`, `cx` and `q`, and only `q` is percent-encoded. */
  lemma LeadingParams(query: string, apiKey: string, engineId: string, args: Args)
    ensures |QueryParams(query, apiKey, engineId, args)| >= 3
    ensures QueryParams(query, apiKey, engineId, args)[..3] == [Param("key", apiKey), Param("cx", engineId), Param("q", Encode(query))]
  {
    var slots := Slots(query, apiKey, engineId, args);
    assert Filled(slots, 3) == [Param("key", apiKey), Param("cx", engineId), Param("q", Encode(query))];
    FilledPrefix(slots, 3, |slots|);
  }

  /** `num` is sent iff it is an integer in [1, 10], `start` iff it is an integer in [1, 91]. */
  lemma NumericParams(query: string, apiKey: string, engineId: string, args: Args)
    ensures var n := AsI64(Arg(args, "num"));
      Lookup(QueryParams(query, apiKey, engineId, args), "num") == if n.Some? && 1 <= n.value <= 10 then Some(IntToString(n.value)) else None
    ensures var s := AsI64(Arg(args, "start"));
      Lookup(QueryParams(query, apiKey, engineId, args), "start") == if s.Some? && 1 <= s.value <= 91 then Some(IntToString(s.value)) else None
  {
    LookupSlot(query, apiKey, engineId, args, 3);
    LookupSlot(query, apiKey, engineId, args, 4);
  }

  /** `safe` is sent only as active or off, `searchType` only as image, both unencoded. */
  lemma EnumeratedParams(query: string, apiKey: string, engineId: string, args: Args)
    ensures var v := Arg(args, "safe");
      Lookup(QueryParams(query, apiKey, engineId, args), "safe") == if v.Str? && v.s in {"active", "off"} then Some(v.s) else None
    ensures var v := Arg(args, "search_type");
      Lookup(QueryParams(query, apiKey, engineId, args), "searchType") == if v == Str("image") then Some("image") else None
  {
    LookupSlot(query, apiKey, engineId, args, 5);
    LookupSlot(query, apiKey, engineId, args, 11);
  }

  /** `lr`, `gl`, `cr`, `dateRestrict` and `siteSearch` are sent, encoded, whenever they are strings, even empty ones. */
  lemma FreeTextParams(query: string, apiKey: string, engineId: string, args: Args)
    ensures forall key | key in {"lr", "gl", "cr"} ::
      Lookup(QueryParams(query, apiKey, engineId, args), key) == if Arg(args, key).Str? then Some(Encode(Arg(args, key).s)) else None
    ensures var v := Arg(args, "date_restrict");
      Lookup(QueryParams(query, apiKey, engineId, args), "dateRestrict") == if v.Str? then Some(Encode(v.s)) else None
    ensures var v := Arg(args, "site_search");
      Lookup(QueryParams(query, apiKey, engineId, args), "siteSearch") == if v.Str? then Some(Encode(v.s)) else None
  {
    LookupSlot(query, apiKey, engineId, args, 6);
    LookupSlot(query, apiKey, engineId, args, 7);
    LookupSlot(query, apiKey, engineId, args, 8);
    LookupSlot(query, apiKey, engineId, args, 9);
    LookupSlot(query, apiKey, engineId, args, 10);
  }

  /**
    * Parameters follow declaration order; splitting the query string at '&'
    * gives back exactly the `name=value` pairs, provided the unencoded key and
    * engine id hold no '&' themselves.
    */
  lemma QueryStringLayout(query: string, apiKey: string, engineId: string, args: Args)
    ensures IsSubsequence(Names(QueryParams(query, apiKey, engineId, args)), Order)
    ensures '&' !in apiKey && '&' !in engineId ==>
      Split(QueryString(QueryParams(query, apiKey, engineId, args)), '&') == Texts(QueryParams(query, apiKey, engineId, args))
  {
    var slots := Slots(query, apiKey, engineId, args);
    SlotsShape(query, apiKey, engineId, args);
    FlattenFollowsOrder(slots);
    if '&' !in apiKey && '&' !in engineId {
      assert PlainSlot(slots[0]) && PlainSlot(slots[1]);
      FlattenHead(slots);
      TableSplits(slots);
    }
  }

  // ---------------------------------------------------------------------------
  // Rendering a parsed response
  // ---------------------------------------------------------------------------

  /** The formatted totals, each only when the API sent it as a string. */
  function SummaryLines(info: Json): seq<string> {
    var time := At(info, "formattedSearchTime");
    Labeled("Total Results: ", At(info, "formattedTotalResults"))
      + (if time.Str? then ["Search Time: " + time.s + " seconds"] else [])
  }

  /** One search result: a numbered rule, each field that is a string, a blank line. */
  function ResultBlock(item: Json, n: nat): (r: seq<string>)
    ensures |r| >= 2 && r[0] == NatToString(n) + ". " + Repeat('=', 50) && r[|r| - 1] == ""
  {
    [NatToString(n) + ". " + Repeat('=', 50)]
      + Labeled("Title: ", At(item, "title"))
      + Labeled("URL: ", At(item, "link"))
      + Labeled("Display Link: ", At(item, "displayLink"))
      + Labeled("Snippet: ", At(item, "snippet"))
      + [""]
  }

  function ItemsLines(items: Json): seq<string> {
    if !items.Arr? then []
    else if items.items == [] then ["No search results found."]
    else ["", "Search Results:", ""] + Numbered(items.items, 1, ResultBlock)
  }

  function SpellingLines(spelling: Json): seq<string> {
    var c := At(spelling, "correctedQuery");
    if c.Str? then ["", "Did you mean: " + c.s] else []
  }

  /** The text lines of a successful response, before they are joined. */
  function Lines(response: Json): seq<string> {
    SummaryLines(At(response, "searchInformation"))
      + ItemsLines(At(response, "items"))
      + SpellingLines(At(response, "spelling"))
  }

  /** The pushes for one search result, in the order the loop body makes them. */
  method RenderResult(item: Json, n: nat) returns (block: seq<string>)
    ensures block == ResultBlock(item, n)
  {
    block := [NatToString(n) + ". " + Repeat('=', 50)];
    block := PushLabeled(block, "Title: ", At(item, "title"));
    block := PushLabeled(block, "URL: ", At(item, "link"));
    block := PushLabeled(block, "Display Link: ", At(item, "displayLink"));
    block := PushLabeled(block, "Snippet: ", At(item, "snippet"));
    block := block + [""];
  }

  method RenderResults(items: seq<Json>) returns (lines: seq<string>)
    ensures lines == Numbered(items, 1, ResultBlock)
  {
    lines := [];
    for i := 0 to |items|
      invariant lines == Numbered(items[..i], 1, ResultBlock)
    {
      var block := RenderResult(items[i], i + 1);
      NumberedStep(items, i, 1, ResultBlock);
      lines := lines + block;
    }
    assert items[..|items|] == items;
  }

  method RenderLines(response: Json) returns (lines: seq<string>)
    ensures lines == Lines(response)
  {
    var info := At(response, "searchInformation");
    lines := PushLabeled([], "Total Results: ", At(info, "formattedTotalResults"));
    var time := At(info, "formattedSearchTime");
    if time.Str? {
      lines := lines + ["Search Time: " + time.s + " seconds"];
    }
    assert lines == SummaryLines(info);
    var items := At(response, "items");
    if items.Arr? {
      if items.items == [] {
        lines := lines + ["No search results found."];
      } else {
        var blocks := RenderResults(items.items);
        lines := lines + (["", "Search Results:", ""] + blocks);
      }
    }
    assert lines == SummaryLines(info) + ItemsLines(items);
    var corrected := At(At(response, "spelling"), "correctedQuery");
    if corrected.Str? {
      lines := lines + ["", "Did you mean: " + corrected.s];
    }
  }

  /** The totals come first: a string `formattedTotalResults` is the first line. */
  lemma TotalsFirst(response: Json)
    requires At(At(response, "searchInformation"), "formattedTotalResults").Str?
    ensures Lines(response)[0] == "Total Results: " + At(At(response, "searchInformation"), "formattedTotalResults").s
  {
  }

  /**
    * The summary comes before the results: the output opens with the summary
    * lines, and a string `formattedSearchTime` is the line right after the
    * totals line (the first line when the totals are absent).
    */
  lemma SearchTimeNext(response: Json)
    ensures var info := At(response, "searchInformation");
      |Lines(response)| >= |SummaryLines(info)| && Lines(response)[..|SummaryLines(info)|] == SummaryLines(info)
    ensures var info := At(response, "searchInformation");
      var time := At(info, "formattedSearchTime");
      var k := |Labeled("Total Results: ", At(info, "formattedTotalResults"))|;
      time.Str? ==> |Lines(response)| > k && Lines(response)[k] == "Search Time: " + time.s + " seconds"
  {
    var info := At(response, "searchInformation");
    var rest := ItemsLines(At(response, "items")) + SpellingLines(At(response, "spelling"));
    assert Lines(response) == SummaryLines(info) + rest;
    assert (SummaryLines(info) + rest)[..|SummaryLines(info)|] == SummaryLines(info);
  }

  /** The spelling suggestion, when a string, closes the output, after every result. */
  lemma SpellingLast(response: Json)
    requires At(At(response, "spelling"), "correctedQuery").Str?
    ensures var lines := Lines(response);
      |lines| >= 2 && lines[|lines| - 2..] == ["", "Did you mean: " + At(At(response, "spelling"), "correctedQuery").s]
  {
    var front := SummaryLines(At(response, "searchInformation")) + ItemsLines(At(response, "items"));
    var tail := SpellingLines(At(response, "spelling"));
    assert (front + tail)[|front|..] == tail;
  }

  /** Whatever the results section shows, the whole output shows. */
  lemma ItemsShown(response: Json, part: seq<string>)
    requires Contains(ItemsLines(At(response, "items")), part)
    ensures Contains(Lines(response), part)
  {
    ContainsRight(SummaryLines(At(response, "searchInformation")), ItemsLines(At(response, "items")), part);
    ContainsLeft(SummaryLines(At(response, "searchInformation")) + ItemsLines(At(response, "items")),
                 SpellingLines(At(response, "spelling")), part);
  }

  /** An empty item list is reported as such. */
  lemma EmptyResultsPlaceholder(response: Json)
    requires At(response, "items") == Arr([])
    ensures Contains(Lines(response), ["No search results found."])
  {
    assert ItemsLines(Arr([]))[0..1] == ["No search results found."];
    ItemsShown(response, ["No search results found."]);
  }

  /** Result `k` of a list is rendered, unbroken, after the results heading. */
  lemma ResultInSection(items: seq<Json>, k: nat)
    requires k < |items|
    ensures Contains(ItemsLines(Arr(items)), ResultBlock(items[k], k + 1))
  {
    NumberedContains(items, 1, ResultBlock, k);
    ContainsRight(["", "Search Results:", ""], Numbered(items, 1, ResultBlock), ResultBlock(items[k], k + 1));
  }

  /**
    * Item `k` appears as one unbroken block, which (by `ResultBlock`'s
    * contract) starts with its 1-based number and a 50-character rule and
    * ends with a blank line.
    */
  lemma ResultBlockPlacement(response: Json, k: nat)
    requires At(response, "items").Arr? && k < |At(response, "items").items|
    ensures Contains(Lines(response), ResultBlock(At(response, "items").items[k], k + 1))
  {
    var items := At(response, "items").items;
    ResultInSection(items, k);
    ItemsShown(response, ResultBlock(items[k], k + 1));
  }

  // ---------------------------------------------------------------------------
  // The tool
  // ---------------------------------------------------------------------------

  /**
    * What `google_search` answers: the first of query, api_key and
    * search_engine_id that is missing, else the classified outcome of the
    * single request it sends.
    */
  predicate Answers(args: Args, transport: HttpRequest -> Outcome, r: CallToolResult) {
    var query := RequiredString(args, "query");
    var apiKey := RequiredString(args, "api_key");
    var engineId := RequiredString(args, "search_engine_id");
    if query.None? then r == ErrorResult(MissingParameter("query"))
    else if apiKey.None? then r == ErrorResult(MissingParameter("api_key"))
    else if engineId.None? then r == ErrorResult(MissingParameter("search_engine_id"))
    else r == Respond(transport(Request(query.value, apiKey.value, engineId.value, args)), Lines)
  }

  method Search(args: Args, transport: HttpRequest -> Outcome) returns (r: CallToolResult)
    ensures Answers(args, transport, r)
  {
    var query := RequiredString(args, "query");
    if query.None? {
      return ErrorResult(MissingParameter("query"));
    }
    var apiKey := RequiredString(args, "api_key");
    if apiKey.None? {
      return ErrorResult(MissingParameter("api_key"));
    }
    var engineId := RequiredString(args, "search_engine_id");
    if engineId.None? {
      return ErrorResult(MissingParameter("search_engine_id"));
    }
    var ps := BuildQueryParams(query.value, apiKey.value, engineId.value, args);
    var url := BaseUrl + "?" + QueryString(ps);
    var outcome := transport(HttpRequest("GET", url, map[], None));
    if outcome.Response? && Succeeded(outcome.status) && outcome.parsed.Success? {
      var lines := RenderLines(outcome.parsed.value);
      r := TextResult(Join(lines, "\n"));
    } else {
      r := Respond(outcome, Lines);
    }
  }

  method Call(name: string, args: Args, transport: HttpRequest -> Outcome) returns (r: CallToolResult)
    ensures name == ToolName ==> Answers(args, transport, r)
    ensures name != ToolName ==> r == UnknownTool(name) && IsError(r)
  {
    if name == ToolName {
      r := Search(args, transport);
    } else {
      r := UnknownTool(name);
    }
  }
}
