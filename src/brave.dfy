/** The `brave_search` tool: Brave Web Search API over GET. */
module BraveSearch {
  import opened Wrappers
  import opened JsonValue
  import opened Text
  import opened Decimal
  import opened PercentEncoding
  import opened ArgValues
  import opened Query
  import opened Render
  import opened Mcp

  const ToolName := "brave_search"
  const BaseUrl := "https://api.search.brave.com/res/v1/web/search"
  const TokenHeader := "X-Subscription-Token"

  /** The query parameters in the order the adapter may emit them. */
  const Order := ["q", "count", "offset", "country", "search_lang", "ui_lang", "safesearch", "freshness", "result_filter"]

  // ---------------------------------------------------------------------------
  // Query parameters
  // ---------------------------------------------------------------------------

  const SafeSearchLevels := {"strict", "moderate", "off"}
  /** Past day, week, month or year. */
  const FreshnessPeriods := {"pd", "pw", "pm", "py"}

  /** The declared parameters, in the order the adapter pushes them. */
  function Slots(query: string, args: Args): seq<Slot> {
    [ Slot("q", Some(Encode(query))),
      Slot("count", IntBetween(args, "count", 1, 20)),
      Slot("offset", NonNegative(args, "offset")),
      Slot("country", NonEmptyEncoded(args, "country")),
      Slot("search_lang", NonEmptyEncoded(args, "search_lang")),
      Slot("ui_lang", NonEmptyEncoded(args, "ui_lang")),
      Slot("safesearch", Choice(args, "safesearch", SafeSearchLevels)),
      Slot("freshness", Choice(args, "freshness", FreshnessPeriods)),
      Slot("result_filter", NonEmptyEncoded(args, "result_filter")) ]
  }

  /** The parameters sent, in the order they are pushed. */
  function QueryParams(query: string, args: Args): seq<Param> {
    Flatten(Slots(query, args))
  }

  function Url(query: string, args: Args): string {
    BaseUrl + "?" + QueryString(QueryParams(query, args))
  }

  function Request(query: string, apiKey: string, args: Args): HttpRequest {
    HttpRequest("GET", Url(query, args), map[TokenHeader := apiKey], None)
  }

  method BuildQueryParams(query: string, args: Args) returns (ps: seq<Param>)
    ensures ps == QueryParams(query, args)
  {
    ghost var slots := Slots(query, args);
    ps := [Param("q", Encode(query))];
    assert ps == Filled(slots, 1);
    ps := PushIntBetween(ps, args, "count", "count", 1, 20);
    FilledNext(slots, 1, Slot("count", IntBetween(args, "count", 1, 20)));
    ps := PushNonNegative(ps, args, "offset", "offset");
    FilledNext(slots, 2, Slot("offset", NonNegative(args, "offset")));
    ps := PushNonEmptyEncoded(ps, args, "country", "country");
    FilledNext(slots, 3, Slot("country", NonEmptyEncoded(args, "country")));
    ps := PushNonEmptyEncoded(ps, args, "search_lang", "search_lang");
    FilledNext(slots, 4, Slot("search_lang", NonEmptyEncoded(args, "search_lang")));
    ps := PushNonEmptyEncoded(ps, args, "ui_lang", "ui_lang");
    FilledNext(slots, 5, Slot("ui_lang", NonEmptyEncoded(args, "ui_lang")));
    ps := PushChoice(ps, args, "safesearch", "safesearch", SafeSearchLevels);
    FilledNext(slots, 6, Slot("safesearch", Choice(args, "safesearch", SafeSearchLevels)));
    ps := PushChoice(ps, args, "freshness", "freshness", FreshnessPeriods);
    FilledNext(slots, 7, Slot("freshness", Choice(args, "freshness", FreshnessPeriods)));
    ps := PushNonEmptyEncoded(ps, args, "result_filter", "result_filter");
    FilledNext(slots, 8, Slot("result_filter", NonEmptyEncoded(args, "result_filter")));
    assert |slots| == 9;
  }

  lemma OrderNames()
    ensures Distinct(Order) && forall k :: 0 <= k < |Order| ==> '&' !in Order[k]
  {
  }

  /** The table declares exactly `Order`, and every slot is free of '&'. */
  lemma SlotsShape(query: string, args: Args)
    ensures SlotNames(Slots(query, args)) == Order && Distinct(Order)
    ensures forall k :: 0 <= k < |Slots(query, args)| ==> PlainSlot(Slots(query, args)[k])
  {
    OrderNames();
    var slots := Slots(query, args);
    assert SlotNames(slots) == Order;
    forall k | 0 <= k < |slots| ensures PlainSlot(slots[k]) {
      assert slots[k].name == Order[k];
      if k == 6 || k == 7 {
        assert forall s | s in SafeSearchLevels + FreshnessPeriods :: '&' !in s;
      }
    }
  }

  /** What a declared parameter name finds is what its slot holds. */
  lemma LookupSlot(query: string, args: Args, k: nat)
    requires k < |Order|
    ensures Lookup(QueryParams(query, args), Order[k]) == Slots(query, args)[k].value
  {
    SlotsShape(query, args);
    LookupFlatten(Slots(query, args), k);
  }

  /** `count` is sent iff it is an integer in [1, 20], `offset` iff it is a non-negative integer. */
  lemma NumericParams(query: string, args: Args)
    ensures var c := AsI64(Arg(args, "count"));
      Lookup(QueryParams(query, args), "count") == if c.Some? && 1 <= c.value <= 20 then Some(IntToString(c.value)) else None
    ensures var o := AsI64(Arg(args, "offset"));
      Lookup(QueryParams(query, args), "offset") == if o.Some? && o.value >= 0 then Some(IntToString(o.value)) else None
  {
    LookupSlot(query, args, 1);
    LookupSlot(query, args, 2);
  }

  /** `safesearch` and `freshness` go through unencoded, and only with one of their listed values. */
  lemma EnumeratedParams(query: string, args: Args)
    ensures var v := Arg(args, "safesearch");
      Lookup(QueryParams(query, args), "safesearch")
        == if v.Str? && v.s in SafeSearchLevels then Some(v.s) else None
    ensures var v := Arg(args, "freshness");
      Lookup(QueryParams(query, args), "freshness")
        == if v.Str? && v.s in FreshnessPeriods then Some(v.s) else None
  {
    LookupSlot(query, args, 6);
    LookupSlot(query, args, 7);
  }

  /** The query is always sent, encoded; the free-text options are sent, encoded, only when non-empty strings. */
  lemma FreeTextParams(query: string, args: Args)
    ensures Lookup(QueryParams(query, args), "q") == Some(Encode(query))
    ensures forall key | key in {"country", "search_lang", "ui_lang", "result_filter"} ::
      var v := Arg(args, key);
      Lookup(QueryParams(query, args), key) == if v.Str? && v.s != "" then Some(Encode(v.s)) else None
  {
    LookupSlot(query, args, 0);
    LookupSlot(query, args, 3);
    LookupSlot(query, args, 4);
    LookupSlot(query, args, 5);
    LookupSlot(query, args, 8);
  }

  /**
    * The query string starts with `q=<encoded query>`, the other parameters
    * follow in declaration order, and splitting it at '&' gives back exactly
    * the `name=value` pairs.
    */
  lemma QueryStringLayout(query: string, args: Args)
    ensures |QueryParams(query, args)| >= 1 && QueryParams(query, args)[0] == Param("q", Encode(query))
    ensures IsSubsequence(Names(QueryParams(query, args)), Order)
    ensures Split(QueryString(QueryParams(query, args)), '&') == Texts(QueryParams(query, args))
  {
    var slots := Slots(query, args);
    SlotsShape(query, args);
    FlattenHead(slots);
    FlattenFollowsOrder(slots);
    TableSplits(slots);
  }

  // ---------------------------------------------------------------------------
  // Rendering a parsed response
  // ---------------------------------------------------------------------------

  /** The query as the API understood it, echoed first. */
  function QueryLines(response: Json): seq<string> {
    Labeled("Query: ", At(At(response, "query"), "original"))
  }

  /** One web result: a numbered rule, each field that is a string, a blank line. */
  function ResultBlock(result: Json, n: nat): (r: seq<string>)
    ensures |r| >= 2 && r[0] == NatToString(n) + ". " + Repeat('=', 50) && r[|r| - 1] == ""
  {
    [NatToString(n) + ". " + Repeat('=', 50)]
      + Labeled("Title: ", At(result, "title"))
      + Labeled("URL: ", At(result, "url"))
      + Labeled("Description: ", At(result, "description"))
      + Labeled("Page Age: ", At(result, "page_age"))
      + [""]
  }

  function WebResultsLines(results: Json): seq<string> {
    if !results.Arr? then []
    else if results.items == [] then ["No search results found."]
    else ["", "Search Results:", ""] + Numbered(results.items, 1, ResultBlock)
  }

  /** One discussion: a numbered shorter rule, its title and URL when strings, a blank line. */
  function DiscussionBlock(discussion: Json, n: nat): (r: seq<string>)
    ensures |r| >= 2 && r[0] == "Discussion " + NatToString(n) + ". " + Repeat('-', 30) && r[|r| - 1] == ""
  {
    ["Discussion " + NatToString(n) + ". " + Repeat('-', 30)]
      + Labeled("Title: ", At(discussion, "title"))
      + Labeled("URL: ", At(discussion, "url"))
      + [""]
  }

  /** At most the first three discussions; an empty or missing list adds nothing. */
  function DiscussionLines(results: Json): seq<string> {
    if results.Arr? && results.items != [] then ["", "Discussion Results:", ""] + Numbered(Take(results.items, 3), 1, DiscussionBlock)
    else []
  }

  /** The text lines of a successful response, before they are joined. */
  function Lines(response: Json): seq<string> {
    QueryLines(response)
      + WebResultsLines(At(At(response, "web"), "results"))
      + DiscussionLines(At(At(response, "discussions"), "results"))
  }

  /** The pushes for one web result, in the order the loop body makes them. */
  method RenderResult(result: Json, n: nat) returns (block: seq<string>)
    ensures block == ResultBlock(result, n)
  {
    block := [NatToString(n) + ". " + Repeat('=', 50)];
    block := PushLabeled(block, "Title: ", At(result, "title"));
    block := PushLabeled(block, "URL: ", At(result, "url"));
    block := PushLabeled(block, "Description: ", At(result, "description"));
    block := PushLabeled(block, "Page Age: ", At(result, "page_age"));
    block := block + [""];
  }

  method RenderResults(results: seq<Json>) returns (lines: seq<string>)
    ensures lines == Numbered(results, 1, ResultBlock)
  {
    lines := [];
    for i := 0 to |results|
      invariant lines == Numbered(results[..i], 1, ResultBlock)
    {
      var block := RenderResult(results[i], i + 1);
      NumberedStep(results, i, 1, ResultBlock);
      lines := lines + block;
    }
    assert results[..|results|] == results;
  }

  /** `iter().take(3).enumerate()`: the loop stops after the third discussion. */
  method RenderDiscussions(discussions: seq<Json>) returns (lines: seq<string>)
    ensures lines == Numbered(Take(discussions, 3), 1, DiscussionBlock)
  {
    var shown := Take(discussions, 3);
    lines := [];
    for i := 0 to |shown|
      invariant lines == Numbered(shown[..i], 1, DiscussionBlock)
    {
      var block := ["Discussion " + NatToString(i + 1) + ". " + Repeat('-', 30)];
      block := PushLabeled(block, "Title: ", At(shown[i], "title"));
      block := PushLabeled(block, "URL: ", At(shown[i], "url"));
      block := block + [""];
      assert block == DiscussionBlock(shown[i], i + 1);
      NumberedStep(shown, i, 1, DiscussionBlock);
      lines := lines + block;
    }
    assert shown[..|shown|] == shown;
  }

  /** The web-results section: nothing, the placeholder, or the heading and every result. */
  method RenderWebResults(results: Json) returns (lines: seq<string>)
    ensures lines == WebResultsLines(results)
  {
    lines := [];
    if results.Arr? {
      if results.items == [] {
        lines := ["No search results found."];
      } else {
        var blocks := RenderResults(results.items);
        lines := ["", "Search Results:", ""] + blocks;
      }
    }
  }

  /** The discussions section, when the list is present and non-empty. */
  method RenderDiscussionSection(discussions: Json) returns (lines: seq<string>)
    ensures lines == DiscussionLines(discussions)
  {
    lines := [];
    if discussions.Arr? && discussions.items != [] {
      var blocks := RenderDiscussions(discussions.items);
      lines := ["", "Discussion Results:", ""] + blocks;
    }
  }

  method RenderLines(response: Json) returns (lines: seq<string>)
    ensures lines == Lines(response)
  {
    lines := PushLabeled([], "Query: ", At(At(response, "query"), "original"));
    var web := RenderWebResults(At(At(response, "web"), "results"));
    lines := lines + web;
    var discussions := RenderDiscussionSection(At(At(response, "discussions"), "results"));
    lines := lines + discussions;
  }

  /** When the API echoes the query as a string, it is the first line. */
  lemma QueryFirst(response: Json)
    requires At(At(response, "query"), "original").Str?
    ensures Lines(response)[0] == "Query: " + At(At(response, "query"), "original").s
  {
  }

  /** Whatever the web-results section shows, the whole output shows. */
  lemma WebResultsShown(response: Json, part: seq<string>)
    requires Contains(WebResultsLines(At(At(response, "web"), "results")), part)
    ensures Contains(Lines(response), part)
  {
    ContainsRight(QueryLines(response), WebResultsLines(At(At(response, "web"), "results")), part);
    ContainsLeft(QueryLines(response) + WebResultsLines(At(At(response, "web"), "results")),
                 DiscussionLines(At(At(response, "discussions"), "results")), part);
  }

  /** An empty result list is reported as such. */
  lemma EmptyResultsPlaceholder(response: Json)
    requires At(At(response, "web"), "results") == Arr([])
    ensures Contains(Lines(response), ["No search results found."])
  {
    assert WebResultsLines(Arr([]))[0..1] == ["No search results found."];
    WebResultsShown(response, ["No search results found."]);
  }

  /** Result `k` of a list is rendered, unbroken, after the results heading. */
  lemma ResultInSection(items: seq<Json>, k: nat)
    requires k < |items|
    ensures Contains(WebResultsLines(Arr(items)), ResultBlock(items[k], k + 1))
  {
    NumberedContains(items, 1, ResultBlock, k);
    ContainsRight(["", "Search Results:", ""], Numbered(items, 1, ResultBlock), ResultBlock(items[k], k + 1));
  }

  /**
    * Result `k` appears as one unbroken block, which (by `ResultBlock`'s
    * contract) starts with its 1-based number and a 50-character rule and
    * ends with a blank line.
    */
  lemma ResultBlockPlacement(response: Json, k: nat)
    requires At(At(response, "web"), "results").Arr?
    requires k < |At(At(response, "web"), "results").items|
    ensures Contains(Lines(response), ResultBlock(At(At(response, "web"), "results").items[k], k + 1))
  {
    var items := At(At(response, "web"), "results").items;
    ResultInSection(items, k);
    WebResultsShown(response, ResultBlock(items[k], k + 1));
  }

  /** Each of the first three discussions is shown, numbered from 1. */
  lemma DiscussionPlacement(response: Json, k: nat)
    requires At(At(response, "discussions"), "results").Arr?
    requires k < |At(At(response, "discussions"), "results").items| && k < 3
    ensures Contains(Lines(response), DiscussionBlock(At(At(response, "discussions"), "results").items[k], k + 1))
  {
    var items := At(At(response, "discussions"), "results").items;
    var shown := Take(items, 3);
    assert shown[k] == items[k];
    NumberedContains(shown, 1, DiscussionBlock, k);
    ContainsRight(["", "Discussion Results:", ""], Numbered(shown, 1, DiscussionBlock), DiscussionBlock(items[k], k + 1));
    ContainsRight(QueryLines(response) + WebResultsLines(At(At(response, "web"), "results")),
                  DiscussionLines(At(At(response, "discussions"), "results")), DiscussionBlock(items[k], k + 1));
  }

  /** Discussions after the third never change the output. */
  lemma LaterDiscussionsIgnored(first: seq<Json>, rest: seq<Json>)
    requires |first| == 3
    ensures DiscussionLines(Arr(first + rest)) == DiscussionLines(Arr(first))
  {
    assert Take(first + rest, 3) == first;
  }

  // ---------------------------------------------------------------------------
  // The tool
  // ---------------------------------------------------------------------------

  /**
    * What `brave_search` answers: the first required argument that is missing,
    * else the classified outcome of the single request it sends.
    */
  predicate Answers(args: Args, transport: HttpRequest -> Outcome, r: CallToolResult) {
    var query := RequiredString(args, "query");
    var apiKey := RequiredString(args, "api_key");
    if query.None? then r == ErrorResult(MissingParameter("query"))
    else if apiKey.None? then r == ErrorResult(MissingParameter("api_key"))
    else r == Respond(transport(Request(query.value, apiKey.value, args)), Lines)
  }

  method Search(args: Args, transport: HttpRequest -> Outcome) returns (r: CallToolResult)
    ensures Answers(args, transport, r)
  {
    var query := RequiredString(args, "query");
    if query.None? {
      return ErrorResult(MissingParameter("query"));
    }
    var apiKey := RequiredString(args, "api_key");
    if apiKey.None? {
      return ErrorResult(MissingParameter("api_key"));
    }
    var ps := BuildQueryParams(query.value, args);
    var url := BaseUrl + "?" + QueryString(ps);
    var outcome := transport(HttpRequest("GET", url, map[TokenHeader := apiKey.value], None));
    if outcome.Response? && Succeeded(outcome.status) && outcome.parsed.Success? {
      var lines := RenderLines(outcome.parsed.value);
      r := TextResult(Join(lines, "\n"));
    } else {
      r := Respond(outcome, Lines);
    }
  }

  method Call(name: string, args: Args, transport: HttpRequest -> Outcome) returns (r: CallToolResult)
    ensures name == ToolName ==> Answers(args, transport, r)
    ensures name != ToolName ==> r == UnknownTool(name) && IsError(r)
  {
    if name == ToolName {
      r := Search(args, transport);
    } else {
      r := UnknownTool(name);
    }
  }
}
