# hyper-mcp plugin adapters in Dafny

This project models the tool handlers of seven hyper-mcp plugins. Each plugin is a WebAssembly module that the hyper-mcp
host loads and calls with a tool name and a JSON argument map:

- **Web-search adapters (Rust).** Bing, Brave, DuckDuckGo, Google and Perplexity each:
  - validate the required arguments;
  - build one HTTP request (a GET with a query string, or a POST with a JSON body for Perplexity) from the optional
    arguments that pass their checks;
  - classify what comes back: a transport failure, a non-2xx status, a body that does not parse, or a parsed body
    that is rendered into text lines joined by newlines.
- **`sequentialthinking` (Go).** It validates one "thought", appends it to the process-wide history (and to its
  branch, when the thought names both a branch point and a branch id), and answers with a summary of the session.
- **OpenProject (Go).** Project and work-package ("task") handlers. Each one turns its arguments into one call of
  the OpenProject REST API and reports a summary line followed by the raw response body.

How the model is laid out:

- Shared modules:
  - `JsonValue`: decoded JSON and serde/Go accessors;
  - `Decimal`: integer formatting;
  - `Text`: join, split, containment;
  - `PercentEncoding`: the `urlencoding` rule;
  - `Query`: query parameters as a declared table of optional slots;
  - `ArgValues`: the per-argument checks;
  - `Render`: numbered blocks;
  - `Mcp`: tool results, HTTP requests and outcomes.
- One module per plugin.
- How the source's in-place code is modelled:
  - Loops and in-place pushes (`query_params.push`, `results_text_parts.push`, `messages.insert(0, …)`,
    `request_body[…] = …`, `params += …`, `updatePayload[…] = …`) are methods. Each is proved equal to a
    specification function, and the properties are lemmas about those functions.
  - The Go globals `thoughtHistory` and `branches` are the fields of the class `SequentialThinking.Thinking`.
- The HTTP engine is a function parameter (`transport`). A handler that answers without consulting it sends
  nothing.

## Model

| member | source | states |
|---|---|---|
| JsonValue.At | examples/plugins/bing-search/src/lib.rs:147-164 | a lookup yields something other than null only when the value is an object holding the key, and then it yields that field |
| JsonValue.AsI64 | examples/plugins/bing-search/src/lib.rs:78-80 | `as_i64` succeeds exactly for integers within the signed 64-bit range, and returns the integer itself |
| JsonValue.AsF64 | examples/plugins/perplexity-search/src/lib.rs:117-118 | `as_f64` succeeds exactly for numbers, integer or not, and returns the number's value as a real |
| JsonValue.Truncate | examples/plugins/sequentialthinking/main.go:241 | Go's `int(f)` rounds toward zero: the result is within one of `f`, on the side of zero |
| Decimal.NatToString | examples/plugins/bing-search/src/lib.rs:81 | a decimal numeral is non-empty, all digits, and has no leading zero |
| Decimal.NatToStringRoundTrip | examples/plugins/bing-search/src/lib.rs:81 | reading the numeral back gives the number |
| Decimal.NatToStringInjective | examples/plugins/bing-search/src/lib.rs:81 | distinct numbers have distinct numerals |
| Text.Join | examples/plugins/bing-search/src/lib.rs:130 | joining no parts gives "" and joining one part gives that part |
| Text.SplitJoin | examples/plugins/bing-search/src/lib.rs:130-131 | splitting a join at its separator gives back the parts, when no part holds the separator |
| PercentEncoding.Encode | examples/plugins/bing-search/src/lib.rs:75 | the encoding holds only URL-safe characters, never '&' or '=' |
| PercentEncoding.EncodeKeepsUnreserved | examples/plugins/bing-search/src/lib.rs:75 | a string of unreserved characters encodes to itself |
| Query.FlattenFollowsOrder | examples/plugins/bing-search/src/lib.rs:75-127 | the parameters pushed appear in declaration order, each at most once |
| Query.LookupFlatten | examples/plugins/bing-search/src/lib.rs:75-127 | looking up a declared name in the pushed parameters finds exactly what its slot holds |
| Query.QueryStringSplits | examples/plugins/bing-search/src/lib.rs:130 | the `&`-joined query string splits back into the parameters, when no parameter holds '&' |
| ArgValues.IntBetween | examples/plugins/bing-search/src/lib.rs:78-84 | a bounded integer argument is kept only when it is an `i64` within the bounds, and its numeral never holds '&' |
| ArgValues.Choice | examples/plugins/bing-search/src/lib.rs:98-105 | an enumerated argument is kept only when it is one of the allowed values |
| Render.NumberedConcat | examples/plugins/bing-search/src/lib.rs:174-224 | rendering two lists in turn equals rendering their concatenation, with numbering continued |
| Render.NumberedContains | examples/plugins/bing-search/src/lib.rs:174-224 | every item's block appears unbroken in the rendering, with the item's position as its number |
| Mcp.RequiredString | examples/plugins/bing-search/src/lib.rs:36-72 | a required argument is accepted exactly when it is a non-empty string |
| Mcp.Respond | examples/plugins/bing-search/src/lib.rs:138-328 | the result is an error exactly when the transport failed, the status is outside 200..299, or the body does not parse. Each error quotes its cause (and the status and body); a success is the rendered lines joined by newlines, as `text/plain` |
| Mcp.PlainResult | examples/plugins/openproject/tools.go:187-198 | a Go success leaves `IsError` unset and carries one text part per string, in order |
| BingSearch.FreshnessValue | examples/plugins/bing-search/src/lib.rs:107-119 | freshness is sent only as a named period or, encoded, as a range containing ".." |
| BingSearch.BuildQueryParams | examples/plugins/bing-search/src/lib.rs:75-127 | the pushes build exactly the specified parameter list |
| BingSearch.SlotsShape | examples/plugins/bing-search/src/lib.rs:75-127 | the parameters are declared once each, in push order, and none can hold '&' |
| BingSearch.NumericParams | examples/plugins/bing-search/src/lib.rs:78-92 | `count` is sent iff it is an integer in [1,50]; `offset` iff it is a non-negative integer |
| BingSearch.EnumeratedParams | examples/plugins/bing-search/src/lib.rs:98-119 | `safeSearch` is sent iff it is Off, Moderate or Strict; freshness follows the named-period-or-range rule |
| BingSearch.FreeTextParams | examples/plugins/bing-search/src/lib.rs:75-127 | the query is always sent, encoded; `mkt`, `responseFilter` and `setLang` are sent, encoded, whenever they are strings |
| BingSearch.QueryStringLayout | examples/plugins/bing-search/src/lib.rs:75-131 | `q` comes first, the names follow the declared order, and the query string splits back into the parameters |
| BingSearch.RenderResults | examples/plugins/bing-search/src/lib.rs:174-224 | the result loop produces every result's block in order, numbered from 1 |
| BingSearch.RenderLines | examples/plugins/bing-search/src/lib.rs:144-272 | the pushes produce exactly the specified lines |
| BingSearch.ResultBlock | examples/plugins/bing-search/src/lib.rs:175-223 | a result block opens with "<n>. " and 50 '=' and ends with a blank line |
| BingSearch.EmptyResultsPlaceholder | examples/plugins/bing-search/src/lib.rs:166-168 | an empty result list is reported as "No search results found." |
| BingSearch.ResultBlockPlacement | examples/plugins/bing-search/src/lib.rs:164-224 | the result at index k is shown, unbroken, as block number k+1 |
| BingSearch.DidYouMeanFirst | examples/plugins/bing-search/src/lib.rs:231-249 | the spelling section is exactly a blank line and "Did you mean: <text>" of the first suggestion when its text is a string (and that pair appears in the output); otherwise it is empty. Later suggestions never appear |
| BingSearch.RelatedNumbering | examples/plugins/bing-search/src/lib.rs:252-272 | a related search with text is listed as "<index+1>. <text>" |
| BingSearch.Search | examples/plugins/bing-search/src/lib.rs:28-329 | the answer is the first failing required argument, or else the classified outcome of one GET carrying the key header |
| BingSearch.Call | examples/plugins/bing-search/src/lib.rs:12-26 | `bing_search` is served; any other name is the error "Unknown tool: <name>" |
| BraveSearch.BuildQueryParams | examples/plugins/brave-search/src/lib.rs:75-135 | the pushes build exactly the specified parameter list |
| BraveSearch.SlotsShape | examples/plugins/brave-search/src/lib.rs:75-135 | the parameters are declared once each, in push order, and none can hold '&' |
| BraveSearch.NumericParams | examples/plugins/brave-search/src/lib.rs:78-92 | `count` is sent iff it is an integer in [1,20]; `offset` iff it is a non-negative integer |
| BraveSearch.EnumeratedParams | examples/plugins/brave-search/src/lib.rs:112-128 | `safesearch` and `freshness` are sent only with one of their listed values |
| BraveSearch.FreeTextParams | examples/plugins/brave-search/src/lib.rs:94-135 | country, search_lang, ui_lang and result_filter are sent, encoded, exactly when they are non-empty strings |
| BraveSearch.QueryStringLayout | examples/plugins/brave-search/src/lib.rs:75-138 | `q` comes first, the names follow the declared order, and the query string splits back into the parameters |
| BraveSearch.QueryFirst | examples/plugins/brave-search/src/lib.rs:154-161 | the echoed original query is the first line |
| BraveSearch.ResultBlockPlacement | examples/plugins/brave-search/src/lib.rs:163-215 | the web result at index k is shown as block number k+1 |
| BraveSearch.EmptyResultsPlaceholder | examples/plugins/brave-search/src/lib.rs:166-168 | an empty result list is reported as "No search results found." |
| BraveSearch.DiscussionPlacement | examples/plugins/brave-search/src/lib.rs:218-252 | each of the first three discussions is shown as "Discussion <k+1>." with 30 '-' |
| BraveSearch.LaterDiscussionsIgnored | examples/plugins/brave-search/src/lib.rs:226 | discussions after the third never change the output |
| BraveSearch.RenderDiscussions | examples/plugins/brave-search/src/lib.rs:226-250 | the `take(3)` loop renders exactly the first three discussions, numbered from 1 |
| BraveSearch.RenderLines | examples/plugins/brave-search/src/lib.rs:151-252 | the pushes produce exactly the specified lines |
| BraveSearch.Search | examples/plugins/brave-search/src/lib.rs:28-310 | the first failing required argument, or else the classified outcome of one GET carrying `X-Subscription-Token` |
| BraveSearch.Call | examples/plugins/brave-search/src/lib.rs:12-26 | `brave_search` is served; any other name is "Unknown tool: <name>" |
| DuckDuckGoSearch.FormatValue | examples/plugins/duckduckgo-search/src/lib.rs:51-64 | the format is always json or xml |
| DuckDuckGoSearch.Flag | examples/plugins/duckduckgo-search/src/lib.rs:66-89 | a flag is sent, as "1", exactly when its argument is boolean true |
| DuckDuckGoSearch.BuildQueryParams | examples/plugins/duckduckgo-search/src/lib.rs:51-89 | the initial list, the in-place overwrite of entry 1 and the pushes build exactly the specified list |
| DuckDuckGoSearch.ReservedFormatSlot | examples/plugins/duckduckgo-search/src/lib.rs:51-64 | the list always starts with `q` and then `format`; `format` is json unless xml was asked for |
| DuckDuckGoSearch.FlagParams | examples/plugins/duckduckgo-search/src/lib.rs:66-89 | each of pretty, no_html, no_redirect and skip_disambig is present as "1" iff its argument is `true` |
| DuckDuckGoSearch.QueryStringLayout | examples/plugins/duckduckgo-search/src/lib.rs:51-92 | the names follow the declared order, and the query string splits back into the parameters |
| DuckDuckGoSearch.NoHtmlExample | examples/plugins/duckduckgo-search/src/lib.rs:51-91 | `{query:"rust", no_html:true}` gives `q=rust&format=json&no_html=1` |
| DuckDuckGoSearch.HeadingFirst | examples/plugins/duckduckgo-search/src/lib.rs:106-112 | with a string Heading, the output opens with "Query: <query>" and then "Heading: <heading>" |
| DuckDuckGoSearch.InstantAnswerShown | examples/plugins/duckduckgo-search/src/lib.rs:115-136 | the Instant Answer section exists iff AbstractText is a non-empty string, and then it is shown |
| DuckDuckGoSearch.DirectAnswerShown | examples/plugins/duckduckgo-search/src/lib.rs:139-147 | the Answer section exists iff Answer is a non-empty string, and then it is shown |
| DuckDuckGoSearch.DefinitionShown | examples/plugins/duckduckgo-search/src/lib.rs:150-170 | the Definition section exists iff Definition is a non-empty string, and then it is shown |
| DuckDuckGoSearch.TopicEntry | examples/plugins/duckduckgo-search/src/lib.rs:179-192 | topic k with text and URL is shown as "<k+1>. <text>", then its URL prefixed with https://duckduckgo.com |
| DuckDuckGoSearch.NestedEntry | examples/plugins/duckduckgo-search/src/lib.rs:197-217 | nested topic j of a category is numbered j+1, again from 1 in every category |
| DuckDuckGoSearch.NestedUrl | examples/plugins/duckduckgo-search/src/lib.rs:197-217 | a nested entry with string text and URL is "   <j+1>. <text>" followed directly by its URL prefixed with https://duckduckgo.com |
| DuckDuckGoSearch.ResultUrl | examples/plugins/duckduckgo-search/src/lib.rs:227-250 | result k appears as one piece: its number k+1, its text when that is a string, then its own FirstURL prefixed with https://duckduckgo.com |
| DuckDuckGoSearch.PlaceholderExactlyWhenEmpty | examples/plugins/duckduckgo-search/src/lib.rs:255-257 | the output is exactly "No results found for the query." iff no section produced a line |
| DuckDuckGoSearch.RenderTopics | examples/plugins/duckduckgo-search/src/lib.rs:179-219 | the topic loop, with its nested loop, renders every topic block in order |
| DuckDuckGoSearch.RenderLines | examples/plugins/duckduckgo-search/src/lib.rs:104-257 | the pushes produce exactly the specified lines |
| DuckDuckGoSearch.Search | examples/plugins/duckduckgo-search/src/lib.rs:27-309 | a missing query is an error; otherwise the classified outcome of one GET with no key |
| DuckDuckGoSearch.Call | examples/plugins/duckduckgo-search/src/lib.rs:11-25 | `duckduckgo_search` is served; any other name is "Unknown tool: <name>" |
| GoogleSearch.BuildQueryParams | examples/plugins/google-search/src/lib.rs:92-152 | the pushes build exactly the specified parameter list |
| GoogleSearch.LeadingParams | examples/plugins/google-search/src/lib.rs:92-96 | the first three parameters are always key, cx and q, and only q is encoded |
| GoogleSearch.NumericParams | examples/plugins/google-search/src/lib.rs:99-113 | `num` is sent only in [1,10] and `start` only in [1,91] |
| GoogleSearch.EnumeratedParams | examples/plugins/google-search/src/lib.rs:115-151 | `safe` only as active or off; `searchType` only as exactly image |
| GoogleSearch.FreeTextParams | examples/plugins/google-search/src/lib.rs:124-142 | lr, gl, cr, dateRestrict and siteSearch are sent, encoded, whenever they are strings, even empty ones |
| GoogleSearch.QueryStringLayout | examples/plugins/google-search/src/lib.rs:92-155 | the names follow the declared order; the query string splits back into the parameters when neither the key nor the engine id holds '&' |
| GoogleSearch.TotalsFirst | examples/plugins/google-search/src/lib.rs:169-182 | "Total Results" is the first line when it is present |
| GoogleSearch.SearchTimeNext | examples/plugins/google-search/src/lib.rs:169-182 | the output opens with the summary lines; a string search time is "Search Time: <t> seconds", right after the totals line, or first when the totals are absent |
| GoogleSearch.EmptyResultsPlaceholder | examples/plugins/google-search/src/lib.rs:185-188 | an empty items array is reported as "No search results found." |
| GoogleSearch.ResultBlockPlacement | examples/plugins/google-search/src/lib.rs:185-234 | item k is shown as block number k+1 |
| GoogleSearch.SpellingLast | examples/plugins/google-search/src/lib.rs:237-245 | "Did you mean" is the last line when the corrected query is present |
| GoogleSearch.RenderLines | examples/plugins/google-search/src/lib.rs:166-245 | the pushes produce exactly the specified lines |
| GoogleSearch.Search | examples/plugins/google-search/src/lib.rs:28-302 | query, api_key and search_engine_id are checked in that order, and the first failure is reported; otherwise the classified outcome of one GET |
| GoogleSearch.Call | examples/plugins/google-search/src/lib.rs:12-26 | `google_search` is served; any other name is "Unknown tool: <name>" |
| PerplexitySearch.Messages | examples/plugins/perplexity-search/src/lib.rs:68-83 | the messages always end with the user query; a system message comes first exactly when one is given non-empty, so there are 1 or 2 |
| PerplexitySearch.BuildMessages | examples/plugins/perplexity-search/src/lib.rs:68-83 | the `insert(0, …)` code builds exactly those messages |
| PerplexitySearch.BuildBody | examples/plugins/perplexity-search/src/lib.rs:85-148 | the defaults followed by the in-place overwrites give exactly the specified body |
| PerplexitySearch.BodyAlwaysValid | examples/plugins/perplexity-search/src/lib.rs:85-133 | whatever the arguments, the body holds a listed model, 1..4096 tokens, a temperature in [0,2], top_p 0.9 and a listed recency |
| PerplexitySearch.NoOptionsGiveDefaults | examples/plugins/perplexity-search/src/lib.rs:85-95 | without optional arguments the body is sonar-pro / 1000 / 0.2 / 0.9 / true / false / false / month |
| PerplexitySearch.ValidatedOverrides | examples/plugins/perplexity-search/src/lib.rs:98-133 | each checked field takes its argument when the argument passes the check, and otherwise keeps its default |
| PerplexitySearch.FlagsPassThrough | examples/plugins/perplexity-search/src/lib.rs:136-148 | the three flags take any boolean argument unchecked, and otherwise keep their defaults |
| PerplexitySearch.RequestShape | examples/plugins/perplexity-search/src/lib.rs:150-156 | one POST to the endpoint, with "Authorization: Bearer <api_key>" and a JSON content type |
| PerplexitySearch.CitationNumbering | examples/plugins/perplexity-search/src/lib.rs:182-194 | citation k, when it is a string, is listed as "<k+1>. <citation>" |
| PerplexitySearch.SearchResultPlacement | examples/plugins/perplexity-search/src/lib.rs:197-234 | each of the first five results is shown, numbered from 1 |
| PerplexitySearch.LaterResultsIgnored | examples/plugins/perplexity-search/src/lib.rs:203 | results after the fifth never change the output |
| PerplexitySearch.UsageWhenPresent | examples/plugins/perplexity-search/src/lib.rs:237-268 | "Usage Information:" appears iff the response has a `usage` key, even a null one |
| PerplexitySearch.PlaceholderExactlyWhenEmpty | examples/plugins/perplexity-search/src/lib.rs:270-273 | the output is exactly "No response generated for the query." iff no section produced a line |
| PerplexitySearch.RenderSearchResults | examples/plugins/perplexity-search/src/lib.rs:203-232 | the `take(5)` loop renders exactly the first five results |
| PerplexitySearch.RenderLines | examples/plugins/perplexity-search/src/lib.rs:164-273 | the pushes produce exactly the specified lines |
| PerplexitySearch.Search | examples/plugins/perplexity-search/src/lib.rs:27-326 | query and then api_key must be non-empty strings; otherwise the classified outcome of the POST |
| PerplexitySearch.Call | examples/plugins/perplexity-search/src/lib.rs:11-25 | `perplexity_search` is served; any other name is "Unknown tool: <name>" |
| SequentialThinking.Validate | examples/plugins/sequentialthinking/main.go:227-279 | a thought is accepted iff it is a non-empty string, both numbers are numbers and `nextThoughtNeeded` is a boolean; the accepted fields are the arguments |
| SequentialThinking.ValidationOrder | examples/plugins/sequentialthinking/main.go:231-253 | the checks run in order, and the first failure names the error |
| SequentialThinking.OptionalFields | examples/plugins/sequentialthinking/main.go:255-276 | each optional field is set exactly when its argument has the expected JSON type |
| SequentialThinking.ValidateThoughtData | examples/plugins/sequentialthinking/main.go:227-279 | filling the record step by step with early returns gives exactly the specified verdict |
| SequentialThinking.Prefix | examples/plugins/sequentialthinking/main.go:285-300 | Revision when `isRevision` is true, else Branch when `branchFromThought` is set, else Thought |
| SequentialThinking.RevisionContext | examples/plugins/sequentialthinking/main.go:285-300 | the "(revising thought N)" context appears only for a revision that names N; otherwise it is empty or the branch context |
| SequentialThinking.FormatThought | examples/plugins/sequentialthinking/main.go:302-305 | the framed text contains the header and the thought |
| SequentialThinking.HeaderLayout | examples/plugins/sequentialthinking/main.go:302 | the header opens with the prefix, followed by " <number>/<total>" |
| SequentialThinking.Adjusted | examples/plugins/sequentialthinking/main.go:178-180 | the estimate becomes max(thoughtNumber, totalThoughts) and nothing else changes |
| SequentialThinking.InvalidLeavesSessionUnchanged | examples/plugins/sequentialthinking/main.go:166-175 | an invalid thought is the error "Error: <reason>" and leaves history and branches unchanged |
| SequentialThinking.ValidThoughtRecorded | examples/plugins/sequentialthinking/main.go:177-224 | a valid thought grows the history by exactly one, at the end; the reply is not an error and reports the new length |
| SequentialThinking.BranchUpdate | examples/plugins/sequentialthinking/main.go:186-191 | only a thought with both `branchFromThought` and `branchId` touches the branches; its branch grows by it and the other branches stay as they were |
| SequentialThinking.ProcessPreservesConsistency | examples/plugins/sequentialthinking/main.go:164-225 | every call keeps the invariant: estimates cover numbers, and each branch holds exactly the history's thoughts with its id, in order |
| SequentialThinking.Thinking.GetBranchNames | examples/plugins/sequentialthinking/main.go:308-314 | the names are exactly the branch ids, each listed once |
| SequentialThinking.Thinking.ProcessThought | examples/plugins/sequentialthinking/main.go:164-225 | the globals and the reply become what the session function describes, and the session invariant (estimates cover numbers, each branch is its thoughts of the history in order) holds after every call |
| SequentialThinking.Thinking.Call | examples/plugins/sequentialthinking/main.go:124-140 | `sequentialthinking` is processed; any other name is "Unknown tool <name>" and leaves the globals untouched; the session invariant is kept |
| OpenProject.Checked | examples/plugins/openproject/main.go:86-91 | a status of 400 or more is the error "HTTP error: <status> - <body>"; any other status yields the body |
| OpenProject.Finish | examples/plugins/openproject/tools.go:161-198 | the client's error, the decoder's error and the summary's own error are errors in that order; otherwise two parts, the summary and then the raw body |
| OpenProject.Pagination | examples/plugins/openproject/tools.go:245-257 | the suffix is empty exactly when neither pageSize nor offset is a number |
| OpenProject.BuildPagination | examples/plugins/openproject/tools.go:245-257 | appending "<param>&" and cutting the last character gives exactly the `&`-joined parameters after "?" |
| OpenProject.PaginationForms | examples/plugins/openproject/tools.go:245-257 | the four forms: "", "?pageSize=N", "?offset=M", "?pageSize=N&offset=M" |
| OpenProject.NoTrailingAmpersand | examples/plugins/openproject/tools.go:255-257 | a non-empty suffix starts with '?' and never ends with '&' |
| OpenProject.CreateProjectCall | examples/plugins/openproject/tools.go:150-161 | name, identifier and description are always posted to /projects, as "" when missing |
| OpenProject.Count | examples/plugins/openproject/tools.go:281-305 | a missing `_embedded` or `_embedded.elements` is an error; otherwise the text reports the number of elements and the total |
| OpenProject.ProjectPatch | examples/plugins/openproject/tools.go:326-334 | the update holds each of name and description that is a string, and nothing else |
| OpenProject.BuildProjectPatch | examples/plugins/openproject/tools.go:326-334 | filling the payload in place gives exactly that update |
| OpenProject.UpdateProjectNeedsAField | examples/plugins/openproject/tools.go:336-345 | with neither field a string, the update is refused with the same answer whatever the server would say |
| OpenProject.UpdateProjectSends | examples/plugins/openproject/tools.go:347-383 | otherwise the patch goes to /projects/<projectId> |
| OpenProject.DeleteAsWritten | examples/plugins/openproject/tools.go:386-416 | the delete handler as written: "not found" only for the exact error text "HTTP error: 404" |
| OpenProject.HttpErrorIsNeverBare404 | examples/plugins/openproject/main.go:88 | the client's error text is never exactly "HTTP error: 404" |
| OpenProject.AsWrittenNotFoundIsError | examples/plugins/openproject/tools.go:391-407 | as written, a 404 reply is reported as an error |
| OpenProject.Delete | examples/plugins/openproject/tools.go:386-416 | corrected: a 404 is the non-error "not found" message, other statuses of 400 or more are errors, and everything else is success |
| OpenProject.DeleteAgreesOffNotFound | examples/plugins/openproject/tools.go:386-416 | away from 404, the corrected and the written handler answer alike |
| OpenProject.TaskBody | examples/plugins/openproject/tools.go:425-443 | subject and links are always present; the description is `{"raw": …}` and present exactly when non-empty |
| OpenProject.TasksPath | examples/plugins/openproject/tools.go:538-543 | /projects/<id>/work_packages iff projectId is a non-empty string, else /work_packages |
| OpenProject.ListReportsCount | examples/plugins/openproject/tools.go:550-610 | a listed success reports the element count and the raw body; a reply without `_embedded` is an error |
| OpenProject.TaskPatch | examples/plugins/openproject/tools.go:615-639 | none without a numeric lockVersion; otherwise lockVersion plus each of subject and description (as `{"raw": …}`) that is a string |
| OpenProject.BuildTaskPatch | examples/plugins/openproject/tools.go:615-639 | checking first and then filling in place gives exactly that update |
| OpenProject.UpdateTaskChecks | examples/plugins/openproject/tools.go:615-650 | a non-numeric lockVersion, then the absence of both fields, are refused before anything is sent |
| OpenProject.UpdateTaskSends | examples/plugins/openproject/tools.go:642-652 | with a numeric lock version and a field, the patch holds the lock version and at least one field, and goes by PATCH to /work_packages/<taskId>, reported through the shared result handling |
| OpenProject.Call | examples/plugins/openproject/main.go:112-141 | each of the ten tool names goes to its own handler, the deletes to the handlers as written; any other name is "Unknown tool <name>" |
| OpenProject.CallDeleteTask | examples/plugins/openproject/tools.go:691-721 | through the dispatcher, a task delete answered with 404 is the error "Error deleting task: HTTP error: 404 - <body>"; every other status gets the corrected handler's answer |
| OpenProject.CallDeleteProject | examples/plugins/openproject/tools.go:386-416 | through the dispatcher, a project delete answered with 404 is the error "Error deleting project: HTTP error: 404 - <body>"; every other status gets the corrected handler's answer |

## Left out

- HTTP engines:
  - `http::request` and `pdk.NewHTTPRequest(…).Send()` are a function parameter returning the status, the body and
    the parser's verdict.
  - OpenProject's URL assembly and Basic-auth header (base64 of "apikey:<key>") are not modelled. A call is its
    verb, its path relative to `/api/<version>`, and its JSON body.
- OpenProject client start-up: `initOpenProjectClient` and the `pdk.GetConfig` lookups (with its "Failed to
  initialize" error) are not modelled. `Call` takes the configured API version as a parameter.
- JSON parsing and serialisation:
  - `serde_json::from_str`, `json.Unmarshal`, `to_string`, `json.Marshal` and `MarshalIndent` are not modelled; a
    parse result is an input.
  - The sequential-thinking reply is a `Summary` value handed to a `marshal` parameter. Its failure branch
    (main.go:208-217) cannot happen for these field types and is not modelled.
- Percent-encoding: `urlencoding::encode` is a foreign crate. `PercentEncoding.Encode` implements its documented
  rule: unreserved ASCII is kept, and every other UTF-8 byte becomes %XX. Only the properties the adapters rely on
  are proved.
- PerplexitySearch.UsageLines: the `${:.4}` formatting of the cost is a parameter (`formatCost`). Only the line's
  presence and its prefix are modelled.
- Floating point: JSON floats are `real`. The temperature check is a `real` range check, and `int(float64)`
  truncation toward zero is exact, not limited to the `int` range.
- OpenProject.Finish: Go's `%s`/`%v` rendering of decoded response fields is a `Fmt` parameter.
- SequentialThinking.Thinking.GetBranchNames: Go map iteration order is unspecified. The reply carries the branch
  names as a set.
- Logging (`pdk.Log`) and `String::from_utf8_lossy` are not modelled. The Go type-assertion panic on a non-map
  argument value is not modelled either; arguments are always a map.
- The `describe` / `Describe` schema tables, `prop` and `propWithDefault` are static data and are not modelled.
- OpenProject.Call: the get-project and get-task handlers are modelled through `Finish` with no properties of
  their own.

## Findings

| source | as written | input that shows it | evidently intended | confidence | as-written member | corrected member |
|---|---|---|---|---|---|---|
| examples/plugins/openproject/tools.go:391-399 | a delete reports "not found" only when the client's error text equals "HTTP error: 404", but main.go:88 always formats "HTTP error: %d - %s", so that branch is unreachable | DELETE answered with status 404 and body "" gives the error "Error deleting task: HTTP error: 404 - " | a 404 reply means the item is already gone, reported without `IsError` | not executed | OpenProject.AsWrittenNotFoundIsError | OpenProject.Delete |

`OpenProject.Call` dispatches the delete tools to the handlers as the program has them (`DeleteAsWritten`).
`OpenProject.CallDeleteTask` and `OpenProject.CallDeleteProject` state where that differs from the corrected
`OpenProject.Delete`: only on status 404.
