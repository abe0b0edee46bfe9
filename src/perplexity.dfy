/** The `perplexity_search` tool: Perplexity's chat-completions API over POST with a JSON body. */
module PerplexitySearch {
  import opened Wrappers
  import opened JsonValue
  import opened Text
  import opened Decimal
  import opened Render
  import opened Mcp

  const ToolName := "perplexity_search"
  const BaseUrl := "https://api.perplexity.ai/chat/completions"
  const Models := {"sonar-pro", "sonar-reasoning", "sonar-deep-research"}
  const Recencies := {"month", "week", "day", "hour"}
  const NoResponse := "No response generated for the query."

  // ---------------------------------------------------------------------------
  // The request body
  // ---------------------------------------------------------------------------

  function ChatMessage(role: string, content: string): Json {
    Obj(map["role" := Str(role), "content" := Str(content)])
  }

  /** The conversation sent: an optional non-empty system message, then the user's query. */
  function Messages(query: string, args: Args): (r: seq<Json>)
    ensures 1 <= |r| <= 2 && r[|r| - 1] == ChatMessage("user", query)
    ensures var s := Arg(args, "system_message");
      (|r| == 2 <==> s.Str? && s.s != "") && (|r| == 2 ==> r[0] == ChatMessage("system", s.s))
  {
    var s := Arg(args, "system_message");
    if s.Str? && s.s != "" then [ChatMessage("system", s.s), ChatMessage("user", query)]
    else [ChatMessage("user", query)]
  }

  /** The fields of the request body. */
  datatype Body = Body(
    model: string,
    messages: seq<Json>,
    maxTokens: int,
    temperature: real,
    topP: real,
    returnCitations: bool,
    returnImages: bool,
    returnRelatedQuestions: bool,
    searchRecencyFilter: string)
  {
    /** The body as it goes on the wire (serde_json's map, so key order is irrelevant). */
    function ToJson(): Json {
      Obj(map[
        "model" := Str(model),
        "messages" := Arr(messages),
        "max_tokens" := Int(maxTokens),
        "temperature" := Float(temperature),
        "top_p" := Float(topP),
        "return_citations" := Bool(returnCitations),
        "return_images" := Bool(returnImages),
        "return_related_questions" := Bool(returnRelatedQuestions),
        "search_recency_filter" := Str(searchRecencyFilter)])
    }
  }

  function Defaults(messages: seq<Json>): Body {
    Body("sonar-pro", messages, 1000, 0.2, 0.9, true, false, false, "month")
  }

  /** The model argument when it names a listed model, else the default. */
  function ModelOr(args: Args, default: string): (r: string)
    ensures default in Models ==> r in Models
  {
    var v := Arg(args, "model");
    if v.Str? && v.s in Models then v.s else default
  }

  /** The `max_tokens` argument when it is an `i64` in 1..4096, else the default. */
  function MaxTokensOr(args: Args, default: int): (r: int)
    ensures 1 <= default <= 4096 ==> 1 <= r <= 4096
  {
    var v := AsI64(Arg(args, "max_tokens"));
    if v.Some? && 1 <= v.value <= 4096 then v.value else default
  }

  /** The temperature argument when it is a number in [0, 2], else the default. */
  function TemperatureOr(args: Args, default: real): (r: real)
    ensures 0.0 <= default <= 2.0 ==> 0.0 <= r <= 2.0
  {
    var v := AsF64(Arg(args, "temperature"));
    if v.Some? && 0.0 <= v.value <= 2.0 then v.value else default
  }

  /** The recency argument when it is a listed period, else the default. */
  function RecencyOr(args: Args, default: string): (r: string)
    ensures default in Recencies ==> r in Recencies
  {
    var v := Arg(args, "search_recency_filter");
    if v.Str? && v.s in Recencies then v.s else default
  }

  /** A boolean argument when it is one, else the default. */
  function BoolOr(args: Args, key: string, default: bool): (r: bool)
    ensures Arg(args, key).Bool? ==> r == Arg(args, key).b
    ensures !Arg(args, key).Bool? ==> r == default
  {
    var v := Arg(args, key);
    if v.Bool? then v.b else default
  }

  /** The defaults, each overwritten by its argument when that argument passes its check. */
  function RequestBody(query: string, args: Args): Body {
    var d := Defaults(Messages(query, args));
    d.(model := ModelOr(args, d.model),
       maxTokens := MaxTokensOr(args, d.maxTokens),
       temperature := TemperatureOr(args, d.temperature),
       searchRecencyFilter := RecencyOr(args, d.searchRecencyFilter),
       returnCitations := BoolOr(args, "return_citations", d.returnCitations),
       returnImages := BoolOr(args, "return_images", d.returnImages),
       returnRelatedQuestions := BoolOr(args, "return_related_questions", d.returnRelatedQuestions))
  }

  /** Bearer authentication and a JSON content type. */
  function Headers(apiKey: string): map<string, string> {
    map["Authorization" := "Bearer " + apiKey, "Content-Type" := "application/json"]
  }

  function Request(query: string, apiKey: string, args: Args): HttpRequest {
    HttpRequest("POST", BaseUrl, Headers(apiKey), Some(RequestBody(query, args).ToJson()))
  }

  /** One POST to the chat-completions endpoint, authenticated as "Bearer <api_key>", carrying the body as JSON. */
  lemma RequestShape(query: string, apiKey: string, args: Args)
    ensures var req := Request(query, apiKey, args);
      && req.verb == "POST" && req.url == BaseUrl
      && req.headers.Keys == {"Authorization", "Content-Type"}
      && req.headers["Authorization"] == "Bearer " + apiKey
      && req.headers["Content-Type"] == "application/json"
      && req.body == Some(RequestBody(query, args).ToJson())
  {
  }

  method BuildMessages(query: string, args: Args) returns (messages: seq<Json>)
    ensures messages == Messages(query, args)
  {
    messages := [ChatMessage("user", query)];
    var system := Arg(args, "system_message");
    if system.Str? && system.s != "" {
      messages := [ChatMessage("system", system.s)] + messages;
    }
  }

  /** The checked overrides: each is written over its default only when it passes its check. */
  method ApplyChecked(body0: Body, args: Args) returns (body: Body)
    ensures body == body0.(model := ModelOr(args, body0.model), maxTokens := MaxTokensOr(args, body0.maxTokens),
                           temperature := TemperatureOr(args, body0.temperature),
                           searchRecencyFilter := RecencyOr(args, body0.searchRecencyFilter))
  {
    body := body0;
    var model := Arg(args, "model");
    if model.Str? && model.s in Models {
      body := body.(model := model.s);
    }
    var tokens := AsI64(Arg(args, "max_tokens"));
    if tokens.Some? && 1 <= tokens.value <= 4096 {
      body := body.(maxTokens := tokens.value);
    }
    var temperature := AsF64(Arg(args, "temperature"));
    if temperature.Some? && 0.0 <= temperature.value <= 2.0 {
      body := body.(temperature := temperature.value);
    }
    var recency := Arg(args, "search_recency_filter");
    if recency.Str? && recency.s in Recencies {
      body := body.(searchRecencyFilter := recency.s);
    }
  }

  /** The three flags: any boolean argument replaces its default, unchecked. */
  method ApplyFlags(body0: Body, args: Args) returns (body: Body)
    ensures body == body0.(returnCitations := BoolOr(args, "return_citations", body0.returnCitations),
                           returnImages := BoolOr(args, "return_images", body0.returnImages),
                           returnRelatedQuestions := BoolOr(args, "return_related_questions", body0.returnRelatedQuestions))
  {
    body := body0;
    var citations := Arg(args, "return_citations");
    if citations.Bool? {
      body := body.(returnCitations := citations.b);
    }
    var images := Arg(args, "return_images");
    if images.Bool? {
      body := body.(returnImages := images.b);
    }
    var related := Arg(args, "return_related_questions");
    if related.Bool? {
      body := body.(returnRelatedQuestions := related.b);
    }
  }

  /** The default body, then one in-place overwrite per optional argument that passes its check. */
  method BuildBody(query: string, args: Args) returns (body: Body)
    ensures body == RequestBody(query, args)
  {
    var messages := BuildMessages(query, args);
    body := Defaults(messages);
    body := ApplyChecked(body, args);
    body := ApplyFlags(body, args);
  }

  /**
    * Whatever the arguments, the body is one the API accepts: a listed model,
    * 1..4096 tokens, a temperature in [0, 2], top_p 0.9 and a listed recency.
    */
  lemma BodyAlwaysValid(query: string, args: Args)
    ensures var b := RequestBody(query, args);
      && b.model in Models
      && 1 <= b.maxTokens <= 4096
      && 0.0 <= b.temperature <= 2.0
      && b.topP == 0.9
      && b.searchRecencyFilter in Recencies
      && b.messages == Messages(query, args)
  {
  }

  /** With no optional argument, the body is exactly the defaults. */
  lemma NoOptionsGiveDefaults(query: string, args: Args)
    requires forall key | key in args :: key in {"query", "api_key"}
    ensures RequestBody(query, args) == Defaults([ChatMessage("user", query)])
  {
    var optional := ["system_message", "model", "max_tokens", "temperature", "search_recency_filter",
                     "return_citations", "return_images", "return_related_questions"];
    forall k | 0 <= k < |optional| ensures optional[k] !in args {
    }
  }

  /** An argument that fails its check leaves its field at the default; one that passes sets it. */
  lemma ValidatedOverrides(query: string, args: Args)
    ensures var v := Arg(args, "model");
      RequestBody(query, args).model == if v.Str? && v.s in Models then v.s else "sonar-pro"
    ensures var v := AsI64(Arg(args, "max_tokens"));
      RequestBody(query, args).maxTokens == if v.Some? && 1 <= v.value <= 4096 then v.value else 1000
    ensures var v := AsF64(Arg(args, "temperature"));
      RequestBody(query, args).temperature == if v.Some? && 0.0 <= v.value <= 2.0 then v.value else 0.2
    ensures var v := Arg(args, "search_recency_filter");
      RequestBody(query, args).searchRecencyFilter == if v.Str? && v.s in Recencies then v.s else "month"
  {
  }

  /** The three flags take any boolean argument as is, unchecked, and otherwise keep their defaults. */
  lemma FlagsPassThrough(query: string, args: Args)
    ensures Arg(args, "return_citations").Bool? ==> RequestBody(query, args).returnCitations == Arg(args, "return_citations").b
    ensures Arg(args, "return_images").Bool? ==> RequestBody(query, args).returnImages == Arg(args, "return_images").b
    ensures Arg(args, "return_related_questions").Bool? ==>
              RequestBody(query, args).returnRelatedQuestions == Arg(args, "return_related_questions").b
    ensures !Arg(args, "return_citations").Bool? ==> RequestBody(query, args).returnCitations
    ensures !Arg(args, "return_images").Bool? ==> !RequestBody(query, args).returnImages
    ensures !Arg(args, "return_related_questions").Bool? ==> !RequestBody(query, args).returnRelatedQuestions
  {
  }

  // ---------------------------------------------------------------------------
  // Rendering a parsed response
  // ---------------------------------------------------------------------------

  /** The first choice's message content, when it is a string. */
  function ResponseLines(response: Json): seq<string> {
    var choices := At(response, "choices");
    if choices.Arr? && choices.items != [] && At(At(choices.items[0], "message"), "content").Str? then
      ["Response:", At(At(choices.items[0], "message"), "content").s, ""]
    else []
  }

  /** A citation keeps its position's number even when earlier ones were skipped as non-strings. */
  function CitationLine(citation: Json, n: nat): seq<string> {
    Labeled(NatToString(n) + ". ", citation)
  }

  function CitationLines(response: Json): seq<string> {
    var v := At(response, "citations");
    if v.Arr? && v.items != [] then ["Sources:"] + Numbered(v.items, 1, CitationLine) + [""] else []
  }

  function ResultEntry(result: Json, n: nat): seq<string> {
    [NatToString(n) + "."]
      + Labeled("   Title: ", At(result, "title"))
      + Labeled("   URL: ", At(result, "url"))
      + Labeled("   Snippet: ", At(result, "snippet"))
      + Labeled("   Date: ", At(result, "date"))
      + [""]
  }

  /** Only the first five search results are shown. */
  function SearchResultLines(response: Json): seq<string> {
    var v := At(response, "search_results");
    if v.Arr? && v.items != [] then ["Search Results:", ""] + Numbered(Take(v.items, 5), 1, ResultEntry) else []
  }

  /** A token count, when it is an `i64`. */
  function CountLine(caption: string, v: Json): seq<string> {
    var n := AsI64(v);
    if n.Some? then [caption + IntToString(n.value)] else []
  }

  /**
    * The usage block, whenever the key is present (even as `null`); the cost
    * is printed by `formatCost`, Rust's `{:.4}` formatting of an `f64`.
    */
  function UsageLines(response: Json, formatCost: real -> string): seq<string> {
    if Has(response, "usage") then
      var usage := At(response, "usage");
      var cost := AsF64(At(At(usage, "cost"), "total_cost"));
      ["Usage Information:"]
        + CountLine("   Prompt tokens: ", At(usage, "prompt_tokens"))
        + CountLine("   Completion tokens: ", At(usage, "completion_tokens"))
        + CountLine("   Total tokens: ", At(usage, "total_tokens"))
        + (if cost.Some? then ["   Total cost: $" + formatCost(cost.value)] else [])
        + [""]
    else []
  }

  function Sections(response: Json, formatCost: real -> string): seq<string> {
    ResponseLines(response) + CitationLines(response) + SearchResultLines(response) + UsageLines(response, formatCost)
  }

  /** The text lines of a successful response, before they are joined. */
  function Lines(response: Json, formatCost: real -> string): seq<string> {
    var s := Sections(response, formatCost);
    if s == [] then [NoResponse] else s
  }

  method RenderCitations(citations: seq<Json>) returns (lines: seq<string>)
    ensures lines == Numbered(citations, 1, CitationLine)
  {
    lines := [];
    for i := 0 to |citations|
      invariant lines == Numbered(citations[..i], 1, CitationLine)
    {
      var line := PushLabeled([], NatToString(i + 1) + ". ", citations[i]);
      NumberedStep(citations, i, 1, CitationLine);
      lines := lines + line;
    }
    assert citations[..|citations|] == citations;
  }

  /** `iter().take(5).enumerate()`: the loop stops after the fifth result. */
  method RenderSearchResults(results: seq<Json>) returns (lines: seq<string>)
    ensures lines == Numbered(Take(results, 5), 1, ResultEntry)
  {
    var shown := Take(results, 5);
    lines := [];
    for i := 0 to |shown|
      invariant lines == Numbered(shown[..i], 1, ResultEntry)
    {
      var entry := [NatToString(i + 1) + "."];
      entry := PushLabeled(entry, "   Title: ", At(shown[i], "title"));
      entry := PushLabeled(entry, "   URL: ", At(shown[i], "url"));
      entry := PushLabeled(entry, "   Snippet: ", At(shown[i], "snippet"));
      entry := PushLabeled(entry, "   Date: ", At(shown[i], "date"));
      entry := entry + [""];
      NumberedStep(shown, i, 1, ResultEntry);
      lines := lines + entry;
    }
    assert shown[..|shown|] == shown;
  }

  method RenderUsage(response: Json, formatCost: real -> string) returns (lines: seq<string>)
    requires Has(response, "usage")
    ensures lines == UsageLines(response, formatCost)
  {
    var usage := At(response, "usage");
    lines := ["Usage Information:"];
    lines := lines + CountLine("   Prompt tokens: ", At(usage, "prompt_tokens"));
    lines := lines + CountLine("   Completion tokens: ", At(usage, "completion_tokens"));
    lines := lines + CountLine("   Total tokens: ", At(usage, "total_tokens"));
    var cost := AsF64(At(At(usage, "cost"), "total_cost"));
    if cost.Some? {
      lines := lines + ["   Total cost: $" + formatCost(cost.value)];
    }
    lines := lines + [""];
  }

  method RenderLines(response: Json, formatCost: real -> string) returns (lines: seq<string>)
    ensures lines == Lines(response, formatCost)
  {
    lines := [];
    var choices := At(response, "choices");
    if choices.Arr? && choices.items != [] {
      var content := At(At(choices.items[0], "message"), "content");
      if content.Str? {
        lines := ["Response:", content.s, ""];
      }
    }
    assert lines == ResponseLines(response);
    var citations := At(response, "citations");
    if citations.Arr? && citations.items != [] {
      var numbered := RenderCitations(citations.items);
      lines := lines + (["Sources:"] + numbered + [""]);
    }
    assert lines == ResponseLines(response) + CitationLines(response);
    var results := At(response, "search_results");
    if results.Arr? && results.items != [] {
      var entries := RenderSearchResults(results.items);
      lines := lines + (["Search Results:", ""] + entries);
    }
    assert lines == ResponseLines(response) + CitationLines(response) + SearchResultLines(response);
    if Has(response, "usage") {
      var usage := RenderUsage(response, formatCost);
      lines := lines + usage;
    }
    assert lines == Sections(response, formatCost);
    if lines == [] {
      lines := [NoResponse];
    }
  }

  /** The placeholder is the whole output exactly when no section produced a line. */
  lemma PlaceholderExactlyWhenEmpty(response: Json, formatCost: real -> string)
    ensures Lines(response, formatCost) == [NoResponse] <==> Sections(response, formatCost) == []
    ensures Lines(response, formatCost) != []
  {
    var s := Sections(response, formatCost);
    assert |s| == |ResponseLines(response)| + |CitationLines(response)| + |SearchResultLines(response)|
                  + |UsageLines(response, formatCost)|;
  }

  /** Whatever the sections show, the output shows. */
  lemma SectionsShown(response: Json, formatCost: real -> string, part: seq<string>)
    requires Contains(Sections(response, formatCost), part)
    ensures Contains(Lines(response, formatCost), part)
  {
    if Sections(response, formatCost) == [] {
      assert Lines(response, formatCost)[0..0] == part;
    }
  }

  /** Citation `k`, when a string, is listed as "<k+1>. <citation>" under "Sources:". */
  lemma CitationNumbering(response: Json, formatCost: real -> string, k: nat)
    requires At(response, "citations").Arr? && k < |At(response, "citations").items|
    requires At(response, "citations").items[k].Str?
    ensures Contains(Lines(response, formatCost), [NatToString(k + 1) + ". " + At(response, "citations").items[k].s])
  {
    var items := At(response, "citations").items;
    var line := CitationLine(items[k], k + 1);
    NumberedContains(items, 1, CitationLine, k);
    ContainsRight(["Sources:"], Numbered(items, 1, CitationLine), line);
    ContainsLeft(["Sources:"] + Numbered(items, 1, CitationLine), [""], line);
    ContainsRight(ResponseLines(response), CitationLines(response), line);
    ContainsLeft(ResponseLines(response) + CitationLines(response), SearchResultLines(response), line);
    ContainsLeft(ResponseLines(response) + CitationLines(response) + SearchResultLines(response),
                 UsageLines(response, formatCost), line);
    SectionsShown(response, formatCost, line);
  }

  /** Search results after the fifth never change the output. */
  lemma LaterResultsIgnored(response: Json, first: seq<Json>, rest: seq<Json>)
    requires |first| == 5
    requires response.Obj?
    ensures var cut := Obj(response.fields["search_results" := Arr(first)]);
      SearchResultLines(Obj(response.fields["search_results" := Arr(first + rest)])) == SearchResultLines(cut)
  {
    assert Take(first + rest, 5) == first;
  }

  /** Each of the first five search results is shown, numbered from 1. */
  lemma SearchResultPlacement(response: Json, formatCost: real -> string, k: nat)
    requires At(response, "search_results").Arr?
    requires k < |At(response, "search_results").items| && k < 5
    ensures Contains(Lines(response, formatCost), ResultEntry(At(response, "search_results").items[k], k + 1))
  {
    var items := At(response, "search_results").items;
    var shown := Take(items, 5);
    var entry := ResultEntry(items[k], k + 1);
    assert shown[k] == items[k];
    NumberedContains(shown, 1, ResultEntry, k);
    ContainsRight(["Search Results:", ""], Numbered(shown, 1, ResultEntry), entry);
    ContainsRight(ResponseLines(response) + CitationLines(response), SearchResultLines(response), entry);
    ContainsLeft(ResponseLines(response) + CitationLines(response) + SearchResultLines(response),
                 UsageLines(response, formatCost), entry);
    SectionsShown(response, formatCost, entry);
  }

  /** "Usage Information:" appears exactly when the response has a `usage` key, whatever its value. */
  lemma UsageWhenPresent(response: Json, formatCost: real -> string)
    ensures UsageLines(response, formatCost) != [] <==> Has(response, "usage")
    ensures Has(response, "usage") ==> Contains(Lines(response, formatCost), ["Usage Information:"])
  {
    if Has(response, "usage") {
      var usage := UsageLines(response, formatCost);
      assert usage[0..1] == ["Usage Information:"];
      ContainsRight(ResponseLines(response) + CitationLines(response) + SearchResultLines(response), usage, ["Usage Information:"]);
      SectionsShown(response, formatCost, ["Usage Information:"]);
    }
  }

  // ---------------------------------------------------------------------------
  // The tool
  // ---------------------------------------------------------------------------

  /**
    * What `perplexity_search` answers: the first required argument that is
    * missing, else the classified outcome of the single POST it sends.
    */
  predicate Answers(args: Args, transport: HttpRequest -> Outcome, formatCost: real -> string, r: CallToolResult) {
    var query := RequiredString(args, "query");
    var apiKey := RequiredString(args, "api_key");
    if query.None? then r == ErrorResult(MissingParameter("query"))
    else if apiKey.None? then r == ErrorResult(MissingParameter("api_key"))
    else r == Respond(transport(Request(query.value, apiKey.value, args)), (j: Json) => Lines(j, formatCost))
  }

  method Search(args: Args, transport: HttpRequest -> Outcome, formatCost: real -> string) returns (r: CallToolResult)
    ensures Answers(args, transport, formatCost, r)
  {
    var query := RequiredString(args, "query");
    if query.None? {
      return ErrorResult(MissingParameter("query"));
    }
    var apiKey := RequiredString(args, "api_key");
    if apiKey.None? {
      return ErrorResult(MissingParameter("api_key"));
    }
    var body := BuildBody(query.value, args);
    var headers := map["Authorization" := "Bearer " + apiKey.value, "Content-Type" := "application/json"];
    var outcome := transport(HttpRequest("POST", BaseUrl, headers, Some(body.ToJson())));
    if outcome.Response? && Succeeded(outcome.status) && outcome.parsed.Success? {
      var lines := RenderLines(outcome.parsed.value, formatCost);
      r := TextResult(Join(lines, "\n"));
    } else {
      r := Respond(outcome, (j: Json) => Lines(j, formatCost));
    }
  }

  method Call(name: string, args: Args, transport: HttpRequest -> Outcome, formatCost: real -> string) returns (r: CallToolResult)
    ensures name == ToolName ==> Answers(args, transport, formatCost, r)
    ensures name != ToolName ==> r == UnknownTool(name) && IsError(r)
  {
    if name == ToolName {
      r := Search(args, transport, formatCost);
    } else {
      r := UnknownTool(name);
    }
  }
}
