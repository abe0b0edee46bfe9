/** The `duckduckgo_search` tool: DuckDuckGo's Instant Answer API over GET, without credentials. */
module DuckDuckGoSearch {
  import opened Wrappers
  import opened JsonValue
  import opened Text
  import opened Decimal
  import opened PercentEncoding
  import opened Query
  import opened Render
  import opened Mcp

  const ToolName := "duckduckgo_search"
  const BaseUrl := "https://api.duckduckgo.com/"
  const Formats := {"json", "xml"}
  const NoResults := "No results found for the query."

  /** The query parameters in the order the adapter may emit them. */
  const Order := ["q", "format", "pretty", "no_html", "no_redirect", "skip_disambig"]

  // ---------------------------------------------------------------------------
  // Query parameters
  // ---------------------------------------------------------------------------

  /** The reserved second parameter: `json` unless the argument asks for json or xml. */
  function FormatValue(args: Args): (r: string)
    ensures r in Formats
  {
    var v := Arg(args, "format");
    if v.Str? && v.s in Formats then v.s else "json"
  }

  /** A flag is sent, as `1`, only when the argument is the boolean `true`. */
  function Flag(args: Args, key: string): (r: Option<string>)
    ensures r.Some? <==> Arg(args, key) == Bool(true)
    ensures r.Some? ==> r.value == "1"
  {
    if Arg(args, key) == Bool(true) then Some("1") else None
  }

  /** The declared parameters, in list order; `q` and `format` are always present. */
  function Slots(query: string, args: Args): seq<Slot> {
    [ Slot("q", Some(Encode(query))),
      Slot("format", Some(FormatValue(args))),
      Slot("pretty", Flag(args, "pretty")),
      Slot("no_html", Flag(args, "no_html")),
      Slot("no_redirect", Flag(args, "no_redirect")),
      Slot("skip_disambig", Flag(args, "skip_disambig")) ]
  }

  function QueryParams(query: string, args: Args): seq<Param> {
    Flatten(Slots(query, args))
  }

  function Url(query: string, args: Args): string {
    BaseUrl + "?" + QueryString(QueryParams(query, args))
  }

  /** No key, no headers: the API is public. */
  function Request(query: string, args: Args): HttpRequest {
    HttpRequest("GET", Url(query, args), map[], None)
  }

  /** `if let Some(Bool(b)) = args.get(key) { if *b { push("<key>=1") } }` */
  method PushFlag(ps: seq<Param>, args: Args, key: string) returns (r: seq<Param>)
    ensures r == Push(ps, Slot(key, Flag(args, key)))
  {
    r := ps;
    var v := Arg(args, key);
    if v.Bool? && v.b {
      r := r + [Param(key, "1")];
    }
  }

  method BuildQueryParams(query: string, args: Args) returns (ps: seq<Param>)
    ensures ps == QueryParams(query, args)
  {
    ghost var slots := Slots(query, args);
    ps := [Param("q", Encode(query)), Param("format", "json")];
    var format := Arg(args, "format");
    if format.Str? && format.s in Formats {
      ps := ps[1 := Param("format", format.s)];
    }
    assert ps == Filled(slots, 2);
    ps := PushFlag(ps, args, "pretty");
    FilledNext(slots, 2, Slot("pretty", Flag(args, "pretty")));
    ps := PushFlag(ps, args, "no_html");
    FilledNext(slots, 3, Slot("no_html", Flag(args, "no_html")));
    ps := PushFlag(ps, args, "no_redirect");
    FilledNext(slots, 4, Slot("no_redirect", Flag(args, "no_redirect")));
    ps := PushFlag(ps, args, "skip_disambig");
    FilledNext(slots, 5, Slot("skip_disambig", Flag(args, "skip_disambig")));
    assert |slots| == 6;
  }

  lemma OrderNames()
    ensures Distinct(Order) && forall k :: 0 <= k < |Order| ==> '&' !in Order[k]
  {
  }

  /** The table declares exactly `Order`, and every slot is free of '&'. */
  lemma SlotsShape(query: string, args: Args)
    ensures SlotNames(Slots(query, args)) == Order && Distinct(Order)
    ensures forall k :: 0 <= k < |Slots(query, args)| ==> PlainSlot(Slots(query, args)[k])
  {
    OrderNames();
    var slots := Slots(query, args);
    assert SlotNames(slots) == Order;
    forall k | 0 <= k < |slots| ensures PlainSlot(slots[k]) {
      assert slots[k].name == Order[k];
      if k == 1 {
        assert forall s | s in Formats :: '&' !in s;
      }
    }
  }

  /**
    * The list always opens with `q=<encoded query>` and `format=<json|xml>`:
    * a `format` argument replaces the second entry and never adds one.
    */
  lemma ReservedFormatSlot(query: string, args: Args)
    ensures |QueryParams(query, args)| >= 2
    ensures QueryParams(query, args)[..2] == [Param("q", Encode(query)), Param("format", FormatValue(args))]
    ensures var v := Arg(args, "format");
      FormatValue(args) == if v.Str? && v.s in {"json", "xml"} then v.s else "json"
  {
    var slots := Slots(query, args);
    assert Filled(slots, 2) == [Param("q", Encode(query)), Param("format", FormatValue(args))];
    FilledPrefix(slots, 2, |slots|);
  }

  /** Each flag is sent as `<name>=1` exactly when its argument is `true`. */
  lemma FlagParams(query: string, args: Args, k: nat)
    requires 2 <= k < |Order|
    ensures Lookup(QueryParams(query, args), Order[k]) == if Arg(args, Order[k]) == Bool(true) then Some("1") else None
  {
    SlotsShape(query, args);
    LookupFlatten(Slots(query, args), k);
  }

  /**
    * The other parameters follow in declaration order, and splitting the
    * query string at '&' gives back exactly the `name=value` pairs.
    */
  lemma QueryStringLayout(query: string, args: Args)
    ensures IsSubsequence(Names(QueryParams(query, args)), Order)
    ensures Split(QueryString(QueryParams(query, args)), '&') == Texts(QueryParams(query, args))
  {
    var slots := Slots(query, args);
    SlotsShape(query, args);
    FlattenFollowsOrder(slots);
    FlattenHead(slots);
    TableSplits(slots);
  }

  /** The parameters for `{query: "rust", no_html: true}`: the query, the default format, the one flag set. */
  lemma NoHtmlExampleParams()
    ensures QueryParams("rust", map["query" := Str("rust"), "no_html" := Bool(true)])
         == [Param("q", "rust"), Param("format", "json"), Param("no_html", "1")]
  {
    var args := map["query" := Str("rust"), "no_html" := Bool(true)];
    EncodeKeepsUnreserved("rust");
    var slots := Slots("rust", args);
    assert slots == [Slot("q", Some("rust")), Slot("format", Some("json")), Slot("pretty", None),
                     Slot("no_html", Some("1")), Slot("no_redirect", None), Slot("skip_disambig", None)];
    var q, f, n := Param("q", "rust"), Param("format", "json"), Param("no_html", "1");
    assert Filled(slots, 2) == [q, f];
    assert Filled(slots, 4) == [q, f, n];
    assert Filled(slots, 5) == [q, f, n];
    assert Filled(slots, 6) == [q, f, n];
    assert |slots| == 6;
  }

  lemma NoHtmlExampleTexts()
    ensures Texts(QueryParams("rust", map["query" := Str("rust"), "no_html" := Bool(true)]))
         == ["q=rust", "format=json", "no_html=1"]
  {
    NoHtmlExampleParams();
    var q, f, n := Param("q", "rust"), Param("format", "json"), Param("no_html", "1");
    assert q.Text() == "q=rust";
    assert f.Text() == "format=json";
    assert n.Text() == "no_html=1";
    assert Texts([q, f, n]) == [q.Text(), f.Text(), n.Text()];
  }

  /** `{query: "rust", no_html: true}` asks for `q=rust&format=json&no_html=1`. */
  lemma NoHtmlExample()
    ensures QueryString(QueryParams("rust", map["query" := Str("rust"), "no_html" := Bool(true)]))
         == "q=rust" + "&" + ("format=json" + "&" + "no_html=1")
  {
    NoHtmlExampleTexts();
  }

  // ---------------------------------------------------------------------------
  // Rendering a parsed response
  // ---------------------------------------------------------------------------

  /** A non-empty string field. */
  predicate NonEmptyText(v: Json) {
    v.Str? && v.s != ""
  }

  /** The heading, preceded by the query exactly as the caller typed it. */
  function HeadingLines(response: Json, query: string): seq<string> {
    var h := At(response, "Heading");
    if h.Str? then ["Query: " + query, "Heading: " + h.s, ""] else []
  }

  function AbstractLines(response: Json): seq<string> {
    var a := At(response, "AbstractText");
    if NonEmptyText(a) then
      ["Instant Answer:", a.s, ""]
        + Labeled("Source: ", At(response, "AbstractSource"))
        + Labeled("URL: ", At(response, "AbstractURL"))
        + [""]
    else []
  }

  function DirectAnswerLines(response: Json): seq<string> {
    var a := At(response, "Answer");
    if NonEmptyText(a) then ["Answer:", a.s, ""] else []
  }

  function DefinitionLines(response: Json): seq<string> {
    var d := At(response, "Definition");
    if NonEmptyText(d) then
      ["Definition:", d.s]
        + Labeled("Definition Source: ", At(response, "DefinitionSource"))
        + Labeled("Definition URL: ", At(response, "DefinitionURL"))
        + [""]
    else []
  }

  /** A topic's own text entry, its site-relative URL made absolute. */
  function TopicText(topic: Json, n: nat): seq<string> {
    var t := At(topic, "Text");
    if t.Str? then [NatToString(n) + ". " + t.s] + Labeled("   URL: https://duckduckgo.com", At(topic, "FirstURL")) + [""]
    else []
  }

  /** An entry of a topic group, indented and numbered within its group. */
  function NestedTopic(topic: Json, n: nat): seq<string> {
    var t := At(topic, "Text");
    if t.Str? then ["   " + NatToString(n) + ". " + t.s] + Labeled("      URL: https://duckduckgo.com", At(topic, "FirstURL"))
    else []
  }

  function NestedLines(topics: Json): seq<string> {
    if topics.Arr? then Numbered(topics.items, 1, NestedTopic) else []
  }

  /** A related topic: its text entry, its category name, its group's entries, a blank line. */
  function TopicBlock(topic: Json, n: nat): seq<string> {
    TopicText(topic, n) + Labeled("Category: ", At(topic, "Name")) + NestedLines(At(topic, "Topics")) + [""]
  }

  function TopicLines(response: Json): seq<string> {
    var v := At(response, "RelatedTopics");
    if v.Arr? && v.items != [] then ["Related Topics:", ""] + Numbered(v.items, 1, TopicBlock) else []
  }

  function ResultEntry(result: Json, n: nat): seq<string> {
    [NatToString(n) + "."]
      + Labeled("   Text: ", At(result, "Text"))
      + Labeled("   URL: https://duckduckgo.com", At(result, "FirstURL"))
      + [""]
  }

  function ResultLines(response: Json): seq<string> {
    var v := At(response, "Results");
    if v.Arr? && v.items != [] then ["Search Results:", ""] + Numbered(v.items, 1, ResultEntry) else []
  }

  /** The instant answer, the direct answer and the definition, in that order. */
  function AnswerLines(response: Json): seq<string> {
    AbstractLines(response) + DirectAnswerLines(response) + DefinitionLines(response)
  }

  /** The sections, in order, before the placeholder check. */
  function Sections(response: Json, query: string): seq<string> {
    HeadingLines(response, query) + AnswerLines(response) + TopicLines(response) + ResultLines(response)
  }

  /** The text lines of a successful response, before they are joined. */
  function Lines(response: Json, query: string): seq<string> {
    var s := Sections(response, query);
    if s == [] then [NoResults] else s
  }

  method RenderNested(topics: seq<Json>) returns (lines: seq<string>)
    ensures lines == Numbered(topics, 1, NestedTopic)
  {
    lines := [];
    for i := 0 to |topics|
      invariant lines == Numbered(topics[..i], 1, NestedTopic)
    {
      var entry := [];
      var text := At(topics[i], "Text");
      if text.Str? {
        entry := ["   " + NatToString(i + 1) + ". " + text.s];
        entry := PushLabeled(entry, "      URL: https://duckduckgo.com", At(topics[i], "FirstURL"));
      }
      assert entry == NestedTopic(topics[i], i + 1);
      NumberedStep(topics, i, 1, NestedTopic);
      lines := lines + entry;
    }
    assert topics[..|topics|] == topics;
  }

  /** The body of the outer topic loop. */
  method RenderTopic(topic: Json, n: nat) returns (block: seq<string>)
    ensures block == TopicBlock(topic, n)
  {
    block := [];
    var text := At(topic, "Text");
    if text.Str? {
      block := [NatToString(n) + ". " + text.s];
      block := PushLabeled(block, "   URL: https://duckduckgo.com", At(topic, "FirstURL"));
      block := block + [""];
    }
    assert block == TopicText(topic, n);
    block := PushLabeled(block, "Category: ", At(topic, "Name"));
    var nested := At(topic, "Topics");
    if nested.Arr? {
      var entries := RenderNested(nested.items);
      block := block + entries;
    }
    block := block + [""];
  }

  method RenderTopics(topics: seq<Json>) returns (lines: seq<string>)
    ensures lines == Numbered(topics, 1, TopicBlock)
  {
    lines := [];
    for i := 0 to |topics|
      invariant lines == Numbered(topics[..i], 1, TopicBlock)
    {
      var block := RenderTopic(topics[i], i + 1);
      NumberedStep(topics, i, 1, TopicBlock);
      lines := lines + block;
    }
    assert topics[..|topics|] == topics;
  }

  method RenderResults(results: seq<Json>) returns (lines: seq<string>)
    ensures lines == Numbered(results, 1, ResultEntry)
  {
    lines := [];
    for i := 0 to |results|
      invariant lines == Numbered(results[..i], 1, ResultEntry)
    {
      var entry := [NatToString(i + 1) + "."];
      entry := PushLabeled(entry, "   Text: ", At(results[i], "Text"));
      entry := PushLabeled(entry, "   URL: https://duckduckgo.com", At(results[i], "FirstURL"));
      entry := entry + [""];
      NumberedStep(results, i, 1, ResultEntry);
      lines := lines + entry;
    }
    assert results[..|results|] == results;
  }

  /** The instant answer, answer and definition sections, in that order. */
  method RenderAnswers(response: Json) returns (lines: seq<string>)
    ensures lines == AnswerLines(response)
  {
    lines := [];
    var abstractText := At(response, "AbstractText");
    if abstractText.Str? && abstractText.s != "" {
      lines := ["Instant Answer:", abstractText.s, ""];
      lines := PushLabeled(lines, "Source: ", At(response, "AbstractSource"));
      lines := PushLabeled(lines, "URL: ", At(response, "AbstractURL"));
      lines := lines + [""];
    }
    assert lines == AbstractLines(response);
    var answer := At(response, "Answer");
    if answer.Str? && answer.s != "" {
      lines := lines + ["Answer:", answer.s, ""];
    }
    assert lines == AbstractLines(response) + DirectAnswerLines(response);
    var definition := At(response, "Definition");
    if definition.Str? && definition.s != "" {
      var section := ["Definition:", definition.s];
      section := PushLabeled(section, "Definition Source: ", At(response, "DefinitionSource"));
      section := PushLabeled(section, "Definition URL: ", At(response, "DefinitionURL"));
      lines := lines + (section + [""]);
    }
  }

  method RenderLines(response: Json, query: string) returns (lines: seq<string>)
    ensures lines == Lines(response, query)
  {
    lines := [];
    var heading := At(response, "Heading");
    if heading.Str? {
      lines := ["Query: " + query, "Heading: " + heading.s, ""];
    }
    assert lines == HeadingLines(response, query);
    var answers := RenderAnswers(response);
    lines := lines + answers;
    assert lines == HeadingLines(response, query) + AnswerLines(response);
    var topics := At(response, "RelatedTopics");
    if topics.Arr? && topics.items != [] {
      var blocks := RenderTopics(topics.items);
      lines := lines + (["Related Topics:", ""] + blocks);
    }
    assert lines == HeadingLines(response, query) + AnswerLines(response) + TopicLines(response);
    var results := At(response, "Results");
    if results.Arr? && results.items != [] {
      var entries := RenderResults(results.items);
      lines := lines + (["Search Results:", ""] + entries);
    }
    assert lines == Sections(response, query);
    if lines == [] {
      lines := [NoResults];
    }
  }

  /** Every section is empty or has at least two lines. */
  lemma SectionSizes(response: Json, query: string)
    ensures |HeadingLines(response, query)| != 1 && |AnswerLines(response)| != 1
    ensures |TopicLines(response)| != 1 && |ResultLines(response)| != 1
  {
    assert |AnswerLines(response)| == |AbstractLines(response)| + |DirectAnswerLines(response)| + |DefinitionLines(response)|;
  }

  /**
    * The placeholder is the whole output exactly when no section produced a
    * line; and the output is never empty.
    */
  lemma PlaceholderExactlyWhenEmpty(response: Json, query: string)
    ensures Lines(response, query) == [NoResults] <==> Sections(response, query) == []
    ensures Lines(response, query) != []
  {
    SectionSizes(response, query);
    var s := Sections(response, query);
    assert |s| == |HeadingLines(response, query)| + |AnswerLines(response)| + |TopicLines(response)| + |ResultLines(response)|;
  }

  /** When the API returns a string heading, the output opens with the caller's query and that heading. */
  lemma HeadingFirst(response: Json, query: string)
    requires At(response, "Heading").Str?
    ensures Lines(response, query)[..2] == ["Query: " + query, "Heading: " + At(response, "Heading").s]
  {
    var s := Sections(response, query);
    assert s[..3] == HeadingLines(response, query);
  }

  /** Whatever the sections show, the output shows. */
  lemma SectionsShown(response: Json, query: string, part: seq<string>)
    requires Contains(Sections(response, query), part)
    ensures Contains(Lines(response, query), part)
  {
    if Sections(response, query) == [] {
      assert Lines(response, query)[0..0] == part;
    }
  }

  /** Whatever the answer sections show, the output shows. */
  lemma AnswersShown(response: Json, query: string, part: seq<string>)
    requires Contains(AnswerLines(response), part)
    ensures Contains(Lines(response, query), part)
  {
    ContainsRight(HeadingLines(response, query), AnswerLines(response), part);
    ContainsLeft(HeadingLines(response, query) + AnswerLines(response), TopicLines(response), part);
    ContainsLeft(HeadingLines(response, query) + AnswerLines(response) + TopicLines(response), ResultLines(response), part);
    SectionsShown(response, query, part);
  }

  /** Whatever the topics section shows, the output shows. */
  lemma TopicsShown(response: Json, query: string, part: seq<string>)
    requires Contains(TopicLines(response), part)
    ensures Contains(Lines(response, query), part)
  {
    ContainsRight(HeadingLines(response, query) + AnswerLines(response), TopicLines(response), part);
    ContainsLeft(HeadingLines(response, query) + AnswerLines(response) + TopicLines(response), ResultLines(response), part);
    SectionsShown(response, query, part);
  }

  /** Whatever the results section shows, the output shows. */
  lemma ResultsShown(response: Json, query: string, part: seq<string>)
    requires Contains(ResultLines(response), part)
    ensures Contains(Lines(response, query), part)
  {
    ContainsRight(HeadingLines(response, query) + AnswerLines(response) + TopicLines(response), ResultLines(response), part);
    SectionsShown(response, query, part);
  }

  /** The instant answer, under its heading, exactly when its text is a non-empty string. */
  lemma InstantAnswerShown(response: Json, query: string)
    ensures AbstractLines(response) != [] <==> NonEmptyText(At(response, "AbstractText"))
    ensures NonEmptyText(At(response, "AbstractText")) ==>
      Contains(Lines(response, query), ["Instant Answer:", At(response, "AbstractText").s])
  {
    if NonEmptyText(At(response, "AbstractText")) {
      var shown := ["Instant Answer:", At(response, "AbstractText").s];
      assert AbstractLines(response)[0..2] == shown;
      ContainsLeft(AbstractLines(response), DirectAnswerLines(response), shown);
      ContainsLeft(AbstractLines(response) + DirectAnswerLines(response), DefinitionLines(response), shown);
      AnswersShown(response, query, shown);
    }
  }

  /** The direct answer, under its heading, exactly when its text is a non-empty string. */
  lemma DirectAnswerShown(response: Json, query: string)
    ensures DirectAnswerLines(response) != [] <==> NonEmptyText(At(response, "Answer"))
    ensures NonEmptyText(At(response, "Answer")) ==>
      Contains(Lines(response, query), ["Answer:", At(response, "Answer").s])
  {
    if NonEmptyText(At(response, "Answer")) {
      var shown := ["Answer:", At(response, "Answer").s];
      assert DirectAnswerLines(response)[0..2] == shown;
      ContainsRight(AbstractLines(response), DirectAnswerLines(response), shown);
      ContainsLeft(AbstractLines(response) + DirectAnswerLines(response), DefinitionLines(response), shown);
      AnswersShown(response, query, shown);
    }
  }

  /** The definition, under its heading, exactly when its text is a non-empty string. */
  lemma DefinitionShown(response: Json, query: string)
    ensures DefinitionLines(response) != [] <==> NonEmptyText(At(response, "Definition"))
    ensures NonEmptyText(At(response, "Definition")) ==>
      Contains(Lines(response, query), ["Definition:", At(response, "Definition").s])
  {
    if NonEmptyText(At(response, "Definition")) {
      var shown := ["Definition:", At(response, "Definition").s];
      assert DefinitionLines(response)[0..2] == shown;
      ContainsRight(AbstractLines(response) + DirectAnswerLines(response), DefinitionLines(response), shown);
      AnswersShown(response, query, shown);
    }
  }

  /** Whatever the block of related topic `k` shows, the output shows. */
  lemma TopicBlockShown(response: Json, query: string, k: nat, part: seq<string>)
    requires At(response, "RelatedTopics").Arr? && k < |At(response, "RelatedTopics").items|
    requires Contains(TopicBlock(At(response, "RelatedTopics").items[k], k + 1), part)
    ensures Contains(Lines(response, query), part)
  {
    var items := At(response, "RelatedTopics").items;
    NumberedContains(items, 1, TopicBlock, k);
    ContainsTransitive(Numbered(items, 1, TopicBlock), TopicBlock(items[k], k + 1), part);
    ContainsRight(["Related Topics:", ""], Numbered(items, 1, TopicBlock), part);
    TopicsShown(response, query, part);
  }

  /**
    * Related topic `k` with a string text is listed as "<k+1>. <text>",
    * followed by its FirstURL made absolute on duckduckgo.com when that is a string.
    */
  lemma TopicEntry(response: Json, query: string, k: nat)
    requires At(response, "RelatedTopics").Arr? && k < |At(response, "RelatedTopics").items|
    requires At(At(response, "RelatedTopics").items[k], "Text").Str?
    requires At(At(response, "RelatedTopics").items[k], "FirstURL").Str?
    ensures var topic := At(response, "RelatedTopics").items[k];
      Contains(Lines(response, query),
               [NatToString(k + 1) + ". " + At(topic, "Text").s,
                "   URL: https://duckduckgo.com" + At(topic, "FirstURL").s])
  {
    var topic := At(response, "RelatedTopics").items[k];
    var entry := [NatToString(k + 1) + ". " + At(topic, "Text").s, "   URL: https://duckduckgo.com" + At(topic, "FirstURL").s];
    var text := TopicText(topic, k + 1);
    var category := Labeled("Category: ", At(topic, "Name"));
    var nested := NestedLines(At(topic, "Topics"));
    assert text[0..2] == entry;
    ContainsLeft(text, category, entry);
    ContainsLeft(text + category, nested, entry);
    ContainsLeft(text + category + nested, [""], entry);
    TopicBlockShown(response, query, k, entry);
  }

  /** Inside a topic group, entry `j` with a string text is numbered `j+1`, counting from 1 in every group. */
  lemma NestedEntry(response: Json, query: string, k: nat, j: nat)
    requires At(response, "RelatedTopics").Arr? && k < |At(response, "RelatedTopics").items|
    requires At(At(response, "RelatedTopics").items[k], "Topics").Arr?
    requires j < |At(At(response, "RelatedTopics").items[k], "Topics").items|
    requires At(At(At(response, "RelatedTopics").items[k], "Topics").items[j], "Text").Str?
    ensures Contains(Lines(response, query),
      ["   " + NatToString(j + 1) + ". " + At(At(At(response, "RelatedTopics").items[k], "Topics").items[j], "Text").s])
  {
    var topic := At(response, "RelatedTopics").items[k];
    var nested := At(topic, "Topics").items;
    var line := ["   " + NatToString(j + 1) + ". " + At(nested[j], "Text").s];
    assert NestedTopic(nested[j], j + 1)[0..1] == line;
    NumberedContains(nested, 1, NestedTopic, j);
    ContainsTransitive(Numbered(nested, 1, NestedTopic), NestedTopic(nested[j], j + 1), line);
    var front := TopicText(topic, k + 1) + Labeled("Category: ", At(topic, "Name"));
    ContainsRight(front, NestedLines(At(topic, "Topics")), line);
    ContainsLeft(front + NestedLines(At(topic, "Topics")), [""], line);
    TopicBlockShown(response, query, k, line);
  }

  /**
    * Nested entry `j` with a string text and a string FirstURL is listed as
    * "   <j+1>. <text>" followed by its FirstURL made absolute on duckduckgo.com.
    */
  lemma NestedUrl(response: Json, query: string, k: nat, j: nat)
    requires At(response, "RelatedTopics").Arr? && k < |At(response, "RelatedTopics").items|
    requires At(At(response, "RelatedTopics").items[k], "Topics").Arr?
    requires j < |At(At(response, "RelatedTopics").items[k], "Topics").items|
    requires At(At(At(response, "RelatedTopics").items[k], "Topics").items[j], "Text").Str?
    requires At(At(At(response, "RelatedTopics").items[k], "Topics").items[j], "FirstURL").Str?
    ensures var entry := At(At(response, "RelatedTopics").items[k], "Topics").items[j];
      Contains(Lines(response, query),
               ["   " + NatToString(j + 1) + ". " + At(entry, "Text").s,
                "      URL: https://duckduckgo.com" + At(entry, "FirstURL").s])
  {
    var topic := At(response, "RelatedTopics").items[k];
    var nested := At(topic, "Topics").items;
    var piece := NestedTopic(nested[j], j + 1);
    NumberedContains(nested, 1, NestedTopic, j);
    var front := TopicText(topic, k + 1) + Labeled("Category: ", At(topic, "Name"));
    ContainsRight(front, NestedLines(At(topic, "Topics")), piece);
    ContainsLeft(front + NestedLines(At(topic, "Topics")), [""], piece);
    TopicBlockShown(response, query, k, piece);
  }

  /**
    * Search result `k` is shown as one piece: its number `k+1`, its text when
    * that is a string, and its own FirstURL made absolute on duckduckgo.com.
    */
  lemma ResultUrl(response: Json, query: string, k: nat)
    requires At(response, "Results").Arr? && k < |At(response, "Results").items|
    requires At(At(response, "Results").items[k], "FirstURL").Str?
    ensures var result := At(response, "Results").items[k];
      Contains(Lines(response, query),
               [NatToString(k + 1) + "."]
                 + Labeled("   Text: ", At(result, "Text"))
                 + ["   URL: https://duckduckgo.com" + At(result, "FirstURL").s])
  {
    var items := At(response, "Results").items;
    var result := items[k];
    var piece := [NatToString(k + 1) + "."]
                   + Labeled("   Text: ", At(result, "Text"))
                   + Labeled("   URL: https://duckduckgo.com", At(result, "FirstURL"));
    assert ResultEntry(result, k + 1) == piece + [""];
    assert ResultEntry(result, k + 1)[0..|piece|] == piece;
    NumberedContains(items, 1, ResultEntry, k);
    ContainsRight(["Search Results:", ""], Numbered(items, 1, ResultEntry), ResultEntry(result, k + 1));
    ResultsShown(response, query, ResultEntry(result, k + 1));
    ContainsTransitive(Lines(response, query), ResultEntry(result, k + 1), piece);
  }

  // ---------------------------------------------------------------------------
  // The tool
  // ---------------------------------------------------------------------------

  /** What `duckduckgo_search` answers: a missing query, or the classified outcome of its single request. */
  predicate Answers(args: Args, transport: HttpRequest -> Outcome, r: CallToolResult) {
    var query := RequiredString(args, "query");
    if query.None? then r == ErrorResult(MissingParameter("query"))
    else r == Respond(transport(Request(query.value, args)), (j: Json) => Lines(j, query.value))
  }

  method Search(args: Args, transport: HttpRequest -> Outcome) returns (r: CallToolResult)
    ensures Answers(args, transport, r)
  {
    var query := RequiredString(args, "query");
    if query.None? {
      return ErrorResult(MissingParameter("query"));
    }
    var ps := BuildQueryParams(query.value, args);
    var url := BaseUrl + "?" + QueryString(ps);
    var outcome := transport(HttpRequest("GET", url, map[], None));
    if outcome.Response? && Succeeded(outcome.status) && outcome.parsed.Success? {
      var lines := RenderLines(outcome.parsed.value, query.value);
      r := TextResult(Join(lines, "\n"));
    } else {
      r := Respond(outcome, (j: Json) => Lines(j, query.value));
    }
  }

  method Call(name: string, args: Args, transport: HttpRequest -> Outcome) returns (r: CallToolResult)
    ensures name == ToolName ==> Answers(args, transport, r)
    ensures name != ToolName ==> r == UnknownTool(name) && IsError(r)
  {
    if name == ToolName {
      r := Search(args, transport);
    } else {
      r := UnknownTool(name);
    }
  }
}
