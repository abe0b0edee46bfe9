/**
  * The tool-call envelope the plugins return, the HTTP exchange as the adapters
  * see it, and the outcome classification every web-search adapter shares.
  */
module Mcp {
  import opened Wrappers
  import opened JsonValue
  import opened Text
  import opened Decimal

  /** One text content part (the only kind the adapters produce). */
  datatype Content = Content(text: Option<string>, mimeType: Option<string>)

  datatype CallToolResult = CallToolResult(isError: Option<bool>, content: seq<Content>)

  /** `is_error: Some(true)` with one text part and no MIME type. */
  function ErrorResult(message: string): CallToolResult {
    CallToolResult(Some(true), [Content(Some(message), None)])
  }

  /** A successful search: `is_error: None`, one `text/plain` part. */
  function TextResult(text: string): CallToolResult {
    CallToolResult(None, [Content(Some(text), Some("text/plain"))])
  }

  /** A Go plugin's reply that succeeded: `IsError` unset, one text part per string, no MIME type. */
  function PlainResult(texts: seq<string>): (r: CallToolResult)
    ensures r.isError == None && |r.content| == |texts|
    ensures forall i | 0 <= i < |texts| :: r.content[i] == Content(Some(texts[i]), None)
  {
    CallToolResult(None, seq(|texts|, i requires 0 <= i < |texts| => Content(Some(texts[i]), None)))
  }

  predicate IsError(r: CallToolResult) {
    r.isError == Some(true)
  }

  /** The text of the single content part of a result. */
  predicate SaysExactly(r: CallToolResult, text: string) {
    |r.content| == 1 && r.content[0].text == Some(text)
  }

  /** The request an adapter hands to the host's HTTP engine. */
  datatype HttpRequest = HttpRequest(
    verb: string,
    url: string,
    headers: map<string, string>,
    body: Option<Json>)

  /**
    * What came back: a transport failure, or a status and body together with the
    * result of parsing that body as JSON (the parser is not part of this model).
    */
  datatype Outcome =
    | TransportError(message: string)
    | Response(status: int, body: string, parsed: Result<Json, string>)

  predicate Succeeded(status: int) {
    200 <= status < 300
  }

  /** "Missing or invalid required parameter: <field> (must be non-empty string)" */
  function MissingParameter(field: string): string {
    "Missing or invalid required parameter: " + field + " (must be non-empty string)"
  }

  /** `Some(s)` exactly when the argument is present as a non-empty JSON string. */
  function RequiredString(args: Args, key: string): (r: Option<string>)
    ensures r.Some? <==> key in args && args[key].Str? && args[key].s != ""
    ensures r.Some? ==> r.value == args[key].s
  {
    match Arg(args, key)
    case Str(s) => if s != "" then Some(s) else None
    case _ => None
  }

  /** The reply of a Rust adapter to a tool name it does not serve. */
  function UnknownTool(name: string): CallToolResult {
    ErrorResult("Unknown tool: " + name)
  }

  /**
    * The shared tail of every web-search adapter: a transport failure, a status
    * outside 200..299 and an unparseable body are errors that quote what went
    * wrong; a parsed 2xx body is rendered and its lines joined by newlines.
    */
  function Respond(outcome: Outcome, render: Json -> seq<string>): (r: CallToolResult)
    ensures |r.content| == 1 && r.content[0].text.Some?
    ensures r.isError == None <==> outcome.Response? && Succeeded(outcome.status) && outcome.parsed.Success?
    ensures r.isError != None ==> IsError(r) && r.content[0].mimeType == None
    ensures outcome.TransportError? ==> Contains(r.content[0].text.value, outcome.message)
    ensures outcome.Response? && !Succeeded(outcome.status) ==>
              Contains(r.content[0].text.value, IntToString(outcome.status)) && Contains(r.content[0].text.value, outcome.body)
    ensures outcome.Response? && Succeeded(outcome.status) && outcome.parsed.Failure? ==>
              Contains(r.content[0].text.value, outcome.parsed.error) && Contains(r.content[0].text.value, outcome.body)
    ensures r.isError == None ==>
              r.content[0] == Content(Some(Join(render(outcome.parsed.value), "\n")), Some("text/plain"))
  {
    match outcome
    case TransportError(e) =>
      var m := "HTTP request failed: " + e;
      ContainsPiece("HTTP request failed: ", e, "");
      assert "HTTP request failed: " + e + "" == m;
      ErrorResult(m)
    case Response(status, body, parsed) =>
      if !Succeeded(status) then
        var m := "API request failed with status " + IntToString(status) + ": " + body;
        ContainsPiece("API request failed with status ", IntToString(status), ": " + body);
        assert "API request failed with status " + IntToString(status) + (": " + body) == m;
        ContainsPiece("API request failed with status " + IntToString(status) + ": ", body, "");
        assert "API request failed with status " + IntToString(status) + ": " + body + "" == m;
        ErrorResult(m)
      else
        match parsed
        case Failure(e) =>
          var m := "Failed to parse API response JSON: " + e + ". Body: " + body;
          ContainsPiece("Failed to parse API response JSON: ", e, ". Body: " + body);
          assert "Failed to parse API response JSON: " + e + (". Body: " + body) == m;
          ContainsPiece("Failed to parse API response JSON: " + e + ". Body: ", body, "");
          assert "Failed to parse API response JSON: " + e + ". Body: " + body + "" == m;
          ErrorResult(m)
        case Success(j) =>
          TextResult(Join(render(j), "\n"))
  }
}
