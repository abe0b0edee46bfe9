/**
  * The Go OpenProject plugin: project and work-package ("task") handlers that
  * turn tool arguments into one call of the OpenProject REST API each and
  * report the outcome as a summary line followed by the raw response body.
  */
module OpenProject {
  import opened Wrappers
  import opened JsonValue
  import opened Text
  import opened Decimal
  import opened Mcp

  const CreateProjectTool := "openproject-create-project"
  const GetProjectTool := "openproject-get-project"
  const ListProjectsTool := "openproject-list-projects"
  const UpdateProjectTool := "openproject-update-project"
  const DeleteProjectTool := "openproject-delete-project"
  const CreateTaskTool := "openproject-create-task"
  const GetTaskTool := "openproject-get-task"
  const ListTasksTool := "openproject-list-tasks"
  const UpdateTaskTool := "openproject-update-task"
  const DeleteTaskTool := "openproject-delete-task"

  // ---------------------------------------------------------------------------
  // The client
  // ---------------------------------------------------------------------------

  /** One API call, with its path relative to "<base-url>/api/<version>". */
  datatype ApiCall = ApiCall(verb: string, path: string, body: Option<Json>)

  /**
    * What the host answers: the status, the raw body, and that body decoded
    * into a JSON object (the decoder is not part of this model, only its verdict).
    */
  datatype Reply = Reply(status: int, body: string, decoded: Result<map<string, Json>, string>)

  /** Go's `fmt` rendering of a decoded value under the `%s` and `%v` verbs. */
  datatype Fmt = Fmt(s: Json -> string, v: Json -> string)

  /** The client's error for a status of 400 or more. */
  function HttpError(status: int, body: string): string {
    "HTTP error: " + IntToString(status) + " - " + body
  }

  /** `OpenProjectClient.Request` once the reply is in: 400 and above are errors, the rest the body. */
  function Checked(reply: Reply): (r: Result<string, string>)
    ensures r.Failure? <==> reply.status >= 400
    ensures r.Success? ==> r.value == reply.body
    ensures r.Failure? ==> r.error == HttpError(reply.status, reply.body)
  {
    if reply.status >= 400 then Failure(HttpError(reply.status, reply.body)) else Success(reply.body)
  }

  /** `args[key].(string)` with the ok ignored: a missing or non-string argument reads as "". */
  function StrArg(args: Args, key: string): (r: string)
    ensures Arg(args, key).Str? ==> r == Arg(args, key).s
    ensures !Arg(args, key).Str? ==> r == ""
  {
    var v := Arg(args, key);
    if v.Str? then v.s else ""
  }

  /** A field of the decoded response; a missing one is Go's nil. */
  function Field(m: map<string, Json>, key: string): Json {
    if key in m then m[key] else Null
  }

  /**
    * The tail every handler but delete shares: the client's error, then the
    * decoder's, then the summary's own; otherwise two text parts, the summary
    * followed by the raw response body.
    */
  function Finish(reply: Reply, action: string, summarize: map<string, Json> -> Result<string, string>): (r: CallToolResult)
    ensures reply.status >= 400 ==> r == ErrorResult("Error " + action + ": " + HttpError(reply.status, reply.body))
    ensures reply.status < 400 && reply.decoded.Failure? ==> r == ErrorResult("Error parsing response: " + reply.decoded.error)
    ensures reply.status < 400 && reply.decoded.Success? && summarize(reply.decoded.value).Failure? ==>
              r == ErrorResult(summarize(reply.decoded.value).error)
    ensures !IsError(r) <==> reply.status < 400 && reply.decoded.Success? && summarize(reply.decoded.value).Success?
    ensures !IsError(r) ==> r == PlainResult([summarize(reply.decoded.value).value, reply.body])
  {
    match Checked(reply)
    case Failure(e) => ErrorResult("Error " + action + ": " + e)
    case Success(body) =>
      match reply.decoded
      case Failure(e) => ErrorResult("Error parsing response: " + e)
      case Success(m) =>
        match summarize(m)
        case Failure(e) => ErrorResult(e)
        case Success(text) => PlainResult([text, body])
  }

  // ---------------------------------------------------------------------------
  // Pagination
  // ---------------------------------------------------------------------------

  /** The page-size and offset parameters, each present when its argument is a number. */
  function PageParts(args: Args): (r: seq<string>)
    ensures |r| <= 2
  {
    var pageSize := Arg(args, "pageSize");
    var offset := Arg(args, "offset");
    (if IsNumber(pageSize) then ["pageSize=" + IntToString(GoInt(pageSize))] else [])
      + (if IsNumber(offset) then ["offset=" + IntToString(GoInt(offset))] else [])
  }

  /** The query suffix of a list URL: nothing at all, or "?" and the parameters joined by "&". */
  function Pagination(args: Args): (r: string)
    ensures r == "" <==> PageParts(args) == []
  {
    var parts := PageParts(args);
    if parts == [] then "" else "?" + Join(parts, "&")
  }

  /** Cutting the last character off "<p>&" for each parameter `p` leaves the parameters joined by "&". */
  lemma {:induction false} CutLastSeparator(parts: seq<string>)
    requires parts != []
    ensures var written := Terminated(parts);
      |written| > 0 && written[..|written| - 1] == Join(parts, "&")
  {
    if |parts| > 1 {
      CutLastSeparator(parts[1..]);
      var rest := Terminated(parts[1..]);
      assert Terminated(parts) == parts[0] + "&" + rest;
      assert (parts[0] + "&" + rest)[..|parts[0]| + 1 + |rest| - 1] == parts[0] + "&" + rest[..|rest| - 1];
    }
  }

  /** Every parameter followed by "&", as the handlers accumulate them. */
  function Terminated(parts: seq<string>): (r: string)
    ensures parts == [] <==> r == ""
  {
    if parts == [] then "" else parts[0] + "&" + Terminated(parts[1..])
  }

  /** Writing one more parameter adds it and its "&" at the end. */
  lemma {:induction false} TerminatedAppend(parts: seq<string>, p: string)
    ensures Terminated(parts + [p]) == Terminated(parts) + p + "&"
  {
    if parts == [] {
      assert Terminated([p]) == p + "&" + Terminated([]);
    } else {
      assert (parts + [p])[1..] == parts[1..] + [p];
      TerminatedAppend(parts[1..], p);
    }
  }

  /** Each parameter is written with a trailing "&", and the last "&" is cut off before use. */
  method BuildPagination(args: Args) returns (query: string)
    ensures query == Pagination(args)
  {
    var params := "";
    ghost var written: seq<string> := [];
    var pageSize := Arg(args, "pageSize");
    if IsNumber(pageSize) {
      var p := "pageSize=" + IntToString(GoInt(pageSize));
      params := params + p + "&";
      TerminatedAppend(written, p);
      written := written + [p];
    }
    assert params == Terminated(written);
    var offset := Arg(args, "offset");
    if IsNumber(offset) {
      var p := "offset=" + IntToString(GoInt(offset));
      params := params + p + "&";
      TerminatedAppend(written, p);
      written := written + [p];
    }
    assert written == PageParts(args);
    query := "";
    if params != "" {
      CutLastSeparator(written);
      query := "?" + params[..|params| - 1];
    }
  }

  /** The four shapes of the suffix: no "?" without parameters, page size before offset, no trailing "&". */
  lemma PaginationForms(args: Args)
    ensures var p := Arg(args, "pageSize");
      var o := Arg(args, "offset");
      && (!IsNumber(p) && !IsNumber(o) ==> Pagination(args) == "")
      && (IsNumber(p) && !IsNumber(o) ==> Pagination(args) == "?" + "pageSize=" + IntToString(GoInt(p)))
      && (!IsNumber(p) && IsNumber(o) ==> Pagination(args) == "?" + "offset=" + IntToString(GoInt(o)))
      && (IsNumber(p) && IsNumber(o) ==>
            Pagination(args) == "?" + ("pageSize=" + IntToString(GoInt(p)) + "&" + "offset=" + IntToString(GoInt(o))))
  {
    var p := Arg(args, "pageSize");
    var o := Arg(args, "offset");
    var parts := PageParts(args);
    if IsNumber(p) && IsNumber(o) {
      assert parts == ["pageSize=" + IntToString(GoInt(p)), "offset=" + IntToString(GoInt(o))];
      assert Join(parts, "&") == parts[0] + "&" + Join(parts[1..], "&");
      assert parts[0] + "&" + parts[1] == "pageSize=" + IntToString(GoInt(p)) + "&" + "offset=" + IntToString(GoInt(o));
    }
  }

  /** A non-empty suffix starts with "?" and ends with a digit of the last number, never with "&". */
  lemma NoTrailingAmpersand(args: Args)
    ensures var q := Pagination(args);
      q != "" ==> q[0] == '?' && q[|q| - 1] != '&'
  {
    var q := Pagination(args);
    var parts := PageParts(args);
    if q != "" {
      var last := if IsNumber(Arg(args, "offset")) then Arg(args, "offset") else Arg(args, "pageSize");
      var numeral := IntToString(GoInt(last));
      PaginationForms(args);
      IntToStringChars(GoInt(last));
      assert q[|q| - 1] == numeral[|numeral| - 1];
    }
  }

  // ---------------------------------------------------------------------------
  // Projects
  // ---------------------------------------------------------------------------

  /** `createProject`: name, identifier and description are always sent, as "" when missing. */
  function CreateProjectCall(args: Args): (c: ApiCall)
    ensures c.verb == "POST" && c.path == "/projects" && c.body.Some?
    ensures c.body.value == Obj(map["name" := Str(StrArg(args, "name")),
                                   "identifier" := Str(StrArg(args, "identifier")),
                                   "description" := Str(StrArg(args, "description"))])
  {
    ApiCall("POST", "/projects", Some(Obj(map[
      "name" := Str(StrArg(args, "name")),
      "identifier" := Str(StrArg(args, "identifier")),
      "description" := Str(StrArg(args, "description"))])))
  }

  function CreateProject(args: Args, transport: ApiCall -> Reply, f: Fmt): CallToolResult {
    Finish(transport(CreateProjectCall(args)), "creating project",
      (m: map<string, Json>) =>
        Success("Successfully created project: " + f.s(Field(m, "name")) + " (ID: " + f.v(Field(m, "id")) + ")"))
  }

  function GetProject(args: Args, transport: ApiCall -> Reply, f: Fmt): CallToolResult {
    Finish(transport(ApiCall("GET", "/projects/" + StrArg(args, "projectId"), None)), "getting project",
      (m: map<string, Json>) => Success("Successfully retrieved project: " + f.s(Field(m, "name"))))
  }

  /** The count of a list reply: the number of `_embedded.elements`, or an error when either level is missing. */
  function Count(m: map<string, Json>, noun: string, f: Fmt): (r: Result<string, string>)
    ensures !Field(m, "_embedded").Obj? ==> r == Failure("Error: Unexpected response format from OpenProject API")
    ensures Field(m, "_embedded").Obj? && !At(Field(m, "_embedded"), "elements").Arr? ==>
              r == Failure("Error: Unable to extract " + noun + " from response")
    ensures r.Success? <==> Field(m, "_embedded").Obj? && At(Field(m, "_embedded"), "elements").Arr?
    ensures r.Success? ==>
              r.value == "Successfully retrieved " + NatToString(|At(Field(m, "_embedded"), "elements").items|)
                         + " " + noun + " (Total: " + f.v(Field(m, "total")) + ")"
  {
    var embedded := Field(m, "_embedded");
    if !embedded.Obj? then Failure("Error: Unexpected response format from OpenProject API")
    else
      var elements := At(embedded, "elements");
      if !elements.Arr? then Failure("Error: Unable to extract " + noun + " from response")
      else Success("Successfully retrieved " + NatToString(|elements.items|) + " " + noun
                   + " (Total: " + f.v(Field(m, "total")) + ")")
  }

  function ListProjectsCall(args: Args): ApiCall {
    ApiCall("GET", "/projects" + Pagination(args), None)
  }

  function ListProjects(args: Args, transport: ApiCall -> Reply, f: Fmt): CallToolResult {
    Finish(transport(ListProjectsCall(args)), "listing projects", (m: map<string, Json>) => Count(m, "projects", f))
  }

  /** The project update: each of `name` and `description` that is a string, and nothing else. */
  function ProjectPatch(args: Args): (r: map<string, Json>)
    ensures r.Keys <= {"name", "description"}
    ensures "name" in r <==> Arg(args, "name").Str?
    ensures "description" in r <==> Arg(args, "description").Str?
    ensures forall key | key in r :: r[key] == Arg(args, key)
  {
    var name := Arg(args, "name");
    var description := Arg(args, "description");
    var withName: map<string, Json> := if name.Str? then map["name" := name] else map[];
    if description.Str? then withName["description" := description] else withName
  }

  /** `updatePayload` is filled in place, one optional field at a time. */
  method BuildProjectPatch(args: Args) returns (payload: map<string, Json>)
    ensures payload == ProjectPatch(args)
  {
    payload := map[];
    var name := Arg(args, "name");
    if name.Str? {
      payload := payload["name" := Str(name.s)];
    }
    var description := Arg(args, "description");
    if description.Str? {
      payload := payload["description" := Str(description.s)];
    }
  }

  const NoProjectFields := "Error: No fields provided to update for the project"

  function UpdateProject(args: Args, transport: ApiCall -> Reply, f: Fmt): CallToolResult {
    var patch := ProjectPatch(args);
    if |patch| == 0 then ErrorResult(NoProjectFields)
    else
      Finish(transport(ApiCall("PATCH", "/projects/" + StrArg(args, "projectId"), Some(Obj(patch)))), "updating project",
        (m: map<string, Json>) => Success("Successfully updated project: " + f.s(Field(m, "name"))))
  }

  /**
    * Without a string `name` or `description` the update is refused, and the
    * answer does not depend on the server: nothing was sent.
    */
  lemma UpdateProjectNeedsAField(args: Args, transport: ApiCall -> Reply, other: ApiCall -> Reply, f: Fmt)
    requires !Arg(args, "name").Str? && !Arg(args, "description").Str?
    ensures UpdateProject(args, transport, f) == ErrorResult(NoProjectFields)
    ensures UpdateProject(args, transport, f) == UpdateProject(args, other, f)
  {
    assert ProjectPatch(args).Keys == {};
  }

  /** With a string `name` or `description`, exactly those are patched at "/projects/<projectId>". */
  lemma UpdateProjectSends(args: Args, transport: ApiCall -> Reply, f: Fmt)
    requires Arg(args, "name").Str? || Arg(args, "description").Str?
    ensures var call := ApiCall("PATCH", "/projects/" + StrArg(args, "projectId"), Some(Obj(ProjectPatch(args))));
      UpdateProject(args, transport, f) ==
        Finish(transport(call), "updating project",
               (m: map<string, Json>) => Success("Successfully updated project: " + f.s(Field(m, "name"))))
  {
    var patch := ProjectPatch(args);
    if Arg(args, "name").Str? {
      assert "name" in patch;
    } else {
      assert "description" in patch;
    }
  }

  // ---------------------------------------------------------------------------
  // Deletion, and the unreachable not-found branch
  // ---------------------------------------------------------------------------

  function NotFound(kind: string, id: string): string {
    kind + " with ID " + id + " not found. It might have already been deleted."
  }

  function Deleted(noun: string, id: string): string {
    "Successfully deleted " + noun + " with ID: " + id
  }

  /** The delete handlers as written: "not found" only when the client's error text is exactly "HTTP error: 404". */
  function DeleteAsWritten(kind: string, noun: string, id: string, reply: Reply): CallToolResult {
    match Checked(reply)
    case Failure(e) =>
      if e == "HTTP error: 404" then PlainResult([NotFound(kind, id)])
      else ErrorResult("Error deleting " + noun + ": " + e)
    case Success(_) => PlainResult([Deleted(noun, id)])
  }

  /** The client's error always carries " - " and the body after the status, so it is never exactly "HTTP error: 404". */
  lemma HttpErrorIsNeverBare404(status: int, body: string)
    ensures HttpError(status, body) != "HTTP error: 404"
  {
    assert |HttpError(status, body)| >= |"HTTP error: "| + 1 + |" - "|;
  }

  /** As written, deleting something already gone (status 404) is reported as an error. */
  lemma AsWrittenNotFoundIsError(kind: string, noun: string, id: string, body: string, decoded: Result<map<string, Json>, string>)
    ensures var r := DeleteAsWritten(kind, noun, id, Reply(404, body, decoded));
      IsError(r) && r == ErrorResult("Error deleting " + noun + ": " + HttpError(404, body))
  {
    HttpErrorIsNeverBare404(404, body);
  }

  /**
    * The delete handlers as evidently intended: a 404 means the item is
    * already gone, which is not an error; any other status of 400 or more is.
    */
  function Delete(kind: string, noun: string, id: string, reply: Reply): (r: CallToolResult)
    ensures IsError(r) <==> reply.status >= 400 && reply.status != 404
    ensures reply.status == 404 ==> r == PlainResult([NotFound(kind, id)])
    ensures reply.status < 400 ==> r == PlainResult([Deleted(noun, id)])
    ensures IsError(r) ==> r == ErrorResult("Error deleting " + noun + ": " + HttpError(reply.status, reply.body))
  {
    if reply.status == 404 then PlainResult([NotFound(kind, id)])
    else
      match Checked(reply)
      case Failure(e) => ErrorResult("Error deleting " + noun + ": " + e)
      case Success(_) => PlainResult([Deleted(noun, id)])
  }

  /** Away from 404 the corrected handler answers exactly as the written one. */
  lemma DeleteAgreesOffNotFound(kind: string, noun: string, id: string, reply: Reply)
    requires reply.status != 404
    ensures Delete(kind, noun, id, reply) == DeleteAsWritten(kind, noun, id, reply)
  {
    if reply.status >= 400 {
      HttpErrorIsNeverBare404(reply.status, reply.body);
    }
  }

  /** `deleteProject` as the program runs it, with the unreachable not-found branch. */
  function DeleteProject(args: Args, transport: ApiCall -> Reply): CallToolResult {
    var id := StrArg(args, "projectId");
    DeleteAsWritten("Project", "project", id, transport(ApiCall("DELETE", "/projects/" + id, None)))
  }

  /** `deleteTask` as the program runs it, with the unreachable not-found branch. */
  function DeleteTask(args: Args, transport: ApiCall -> Reply): CallToolResult {
    var id := StrArg(args, "taskId");
    DeleteAsWritten("Task", "task", id, transport(ApiCall("DELETE", "/work_packages/" + id, None)))
  }

  // ---------------------------------------------------------------------------
  // Tasks (work packages)
  // ---------------------------------------------------------------------------

  /** The new work package: subject and links always, the description as `{"raw": …}` only when non-empty. */
  function TaskBody(args: Args, apiVersion: string): (r: Json)
    ensures r.Obj? && "subject" in r.fields && "_links" in r.fields
    ensures r.fields["subject"] == Str(StrArg(args, "subject"))
    ensures r.fields["_links"] == Obj(map[
              "project" := Obj(map["href" := Str("/api/" + apiVersion + "/projects/" + StrArg(args, "projectId"))]),
              "type" := Obj(map["href" := Str(StrArg(args, "type"))])])
    ensures "description" in r.fields <==> StrArg(args, "description") != ""
    ensures "description" in r.fields ==> r.fields["description"] == Obj(map["raw" := Str(StrArg(args, "description"))])
    ensures r.fields.Keys <= {"subject", "_links", "description"}
  {
    var links := Obj(map[
      "project" := Obj(map["href" := Str("/api/" + apiVersion + "/projects/" + StrArg(args, "projectId"))]),
      "type" := Obj(map["href" := Str(StrArg(args, "type"))])]);
    var body := map["subject" := Str(StrArg(args, "subject")), "_links" := links];
    var description := StrArg(args, "description");
    if description != "" then Obj(body["description" := Obj(map["raw" := Str(description)])]) else Obj(body)
  }

  function CreateTask(args: Args, transport: ApiCall -> Reply, f: Fmt, apiVersion: string): CallToolResult {
    var projectId := StrArg(args, "projectId");
    Finish(transport(ApiCall("POST", "/projects/" + projectId + "/work_packages", Some(TaskBody(args, apiVersion)))),
      "creating task",
      (m: map<string, Json>) =>
        Success("Successfully created task: " + f.s(Field(m, "subject")) + " (ID: " + f.v(Field(m, "id"))
                + ") in project " + projectId))
  }

  function GetTask(args: Args, transport: ApiCall -> Reply, f: Fmt): CallToolResult {
    Finish(transport(ApiCall("GET", "/work_packages/" + StrArg(args, "taskId"), None)), "getting task",
      (m: map<string, Json>) => Success("Successfully retrieved task: " + f.s(Field(m, "subject"))))
  }

  /** A project's work packages when `projectId` is a non-empty string, else all of them. */
  function TasksPath(args: Args): (r: string)
    ensures var p := Arg(args, "projectId");
      (p.Str? && p.s != "" ==> r == "/projects/" + p.s + "/work_packages")
      && (!(p.Str? && p.s != "") ==> r == "/work_packages")
  {
    var p := Arg(args, "projectId");
    if p.Str? && p.s != "" then "/projects/" + p.s + "/work_packages" else "/work_packages"
  }

  function ListTasksCall(args: Args): ApiCall {
    ApiCall("GET", TasksPath(args) + Pagination(args), None)
  }

  function ListTasks(args: Args, transport: ApiCall -> Reply, f: Fmt): CallToolResult {
    Finish(transport(ListTasksCall(args)), "listing tasks", (m: map<string, Json>) => Count(m, "tasks", f))
  }

  /**
    * A list reply is an error exactly when the call failed, the body did not
    * decode, or `_embedded.elements` is missing; otherwise its first part
    * reports how many elements came back.
    */
  lemma ListReportsCount(args: Args, transport: ApiCall -> Reply, f: Fmt)
    ensures var reply := transport(ListTasksCall(args));
      var r := ListTasks(args, transport, f);
      && (reply.status < 400 && reply.decoded.Success? && Field(reply.decoded.value, "_embedded").Obj?
            && At(Field(reply.decoded.value, "_embedded"), "elements").Arr? ==>
            && |r.content| == 2 && r.content[1].text == Some(reply.body)
            && r.content[0].text == Some("Successfully retrieved "
                 + NatToString(|At(Field(reply.decoded.value, "_embedded"), "elements").items|)
                 + " " + "tasks" + " (Total: " + f.v(Field(reply.decoded.value, "total")) + ")"))
      && (reply.status < 400 && reply.decoded.Success? && !Field(reply.decoded.value, "_embedded").Obj? ==>
            r == ErrorResult("Error: Unexpected response format from OpenProject API"))
  {
    var reply := transport(ListTasksCall(args));
    var summarize := (m: map<string, Json>) => Count(m, "tasks", f);
    if reply.status < 400 && reply.decoded.Success? && summarize(reply.decoded.value).Success? {
      var text := summarize(reply.decoded.value).value;
      assert ListTasks(args, transport, f) == PlainResult([text, reply.body]);
    }
  }

  /**
    * The task update, or `None` when `lockVersion` is not a number: the lock
    * version, plus each of `subject` and `description` that is a string.
    */
  function TaskPatch(args: Args): (r: Option<map<string, Json>>)
    ensures r.None? <==> !IsNumber(Arg(args, "lockVersion"))
    ensures r.Some? ==>
              && r.value.Keys <= {"lockVersion", "subject", "description"}
              && "lockVersion" in r.value && r.value["lockVersion"] == Int(GoInt(Arg(args, "lockVersion")))
              && ("subject" in r.value <==> Arg(args, "subject").Str?)
              && ("subject" in r.value ==> r.value["subject"] == Arg(args, "subject"))
              && ("description" in r.value <==> Arg(args, "description").Str?)
              && ("description" in r.value ==> r.value["description"] == Obj(map["raw" := Arg(args, "description")]))
  {
    var lockVersion := Arg(args, "lockVersion");
    if !IsNumber(lockVersion) then None
    else
      var subject := Arg(args, "subject");
      var description := Arg(args, "description");
      var base := map["lockVersion" := Int(GoInt(lockVersion))];
      var withSubject := if subject.Str? then base["subject" := subject] else base;
      Some(if description.Str? then withSubject["description" := Obj(map["raw" := description])] else withSubject)
  }

  /** The lock version is checked first; then `updatePayload` is filled in place. */
  method BuildTaskPatch(args: Args) returns (r: Option<map<string, Json>>)
    ensures r == TaskPatch(args)
  {
    var lockVersion := Arg(args, "lockVersion");
    if !IsNumber(lockVersion) {
      return None;
    }
    var payload := map["lockVersion" := Int(GoInt(lockVersion))];
    var subject := Arg(args, "subject");
    if subject.Str? {
      payload := payload["subject" := Str(subject.s)];
    }
    var description := Arg(args, "description");
    if description.Str? {
      payload := payload["description" := Obj(map["raw" := Str(description.s)])];
    }
    return Some(payload);
  }

  const NoLockVersion := "Error: lockVersion is required to update a task"
  const NoTaskFields := "Error: No fields (besides lockVersion) provided to update for the task"

  function UpdateTask(args: Args, transport: ApiCall -> Reply, f: Fmt): CallToolResult {
    match TaskPatch(args)
    case None => ErrorResult(NoLockVersion)
    case Some(patch) =>
      if |patch| <= 1 then ErrorResult(NoTaskFields)
      else
        Finish(transport(ApiCall("PATCH", "/work_packages/" + StrArg(args, "taskId"), Some(Obj(patch)))), "updating task",
          (m: map<string, Json>) => Success("Successfully updated task: " + f.s(Field(m, "subject"))))
  }

  /**
    * A task update is refused, before anything is sent, when `lockVersion` is
    * not a number, and otherwise when neither `subject` nor `description` is a string.
    */
  lemma UpdateTaskChecks(args: Args, transport: ApiCall -> Reply, other: ApiCall -> Reply, f: Fmt)
    ensures !IsNumber(Arg(args, "lockVersion")) ==> UpdateTask(args, transport, f) == ErrorResult(NoLockVersion)
    ensures IsNumber(Arg(args, "lockVersion")) && !Arg(args, "subject").Str? && !Arg(args, "description").Str? ==>
              UpdateTask(args, transport, f) == ErrorResult(NoTaskFields)
    ensures !IsNumber(Arg(args, "lockVersion")) || (!Arg(args, "subject").Str? && !Arg(args, "description").Str?) ==>
              UpdateTask(args, transport, f) == UpdateTask(args, other, f)
  {
    var patch := TaskPatch(args);
    if patch.Some? && !Arg(args, "subject").Str? && !Arg(args, "description").Str? {
      assert patch.value.Keys == {"lockVersion"};
    }
  }

  /**
    * With a numeric lock version and a field to change, the patch (the lock
    * version and at least one field) is sent by PATCH to /work_packages/<taskId>.
    */
  lemma UpdateTaskSends(args: Args, transport: ApiCall -> Reply, f: Fmt)
    requires IsNumber(Arg(args, "lockVersion"))
    requires Arg(args, "subject").Str? || Arg(args, "description").Str?
    ensures TaskPatch(args).Some? && |TaskPatch(args).value| >= 2
    ensures var call := ApiCall("PATCH", "/work_packages/" + StrArg(args, "taskId"), Some(Obj(TaskPatch(args).value)));
      UpdateTask(args, transport, f) ==
        Finish(transport(call), "updating task",
               (m: map<string, Json>) => Success("Successfully updated task: " + f.s(Field(m, "subject"))))
  {
    var patch := TaskPatch(args).value;
    if Arg(args, "subject").Str? {
      assert {"lockVersion", "subject"} <= patch.Keys;
      assert |{"lockVersion", "subject"}| == 2;
    } else {
      assert {"lockVersion", "description"} <= patch.Keys;
      assert |{"lockVersion", "description"}| == 2;
    }
    assert |patch| == |patch.Keys|;
  }

  // ---------------------------------------------------------------------------
  // Dispatch
  // ---------------------------------------------------------------------------

  const ToolNames := {CreateProjectTool, GetProjectTool, ListProjectsTool, UpdateProjectTool, DeleteProjectTool,
                      CreateTaskTool, GetTaskTool, ListTasksTool, UpdateTaskTool, DeleteTaskTool}

  /** `Call` with the client already configured for `apiVersion`. */
  function Call(name: string, args: Args, transport: ApiCall -> Reply, f: Fmt, apiVersion: string): (r: CallToolResult)
    ensures name !in ToolNames ==> r == ErrorResult("Unknown tool " + name)
    ensures name == CreateProjectTool ==> r == CreateProject(args, transport, f)
    ensures name == GetProjectTool ==> r == GetProject(args, transport, f)
    ensures name == ListProjectsTool ==> r == ListProjects(args, transport, f)
    ensures name == UpdateProjectTool ==> r == UpdateProject(args, transport, f)
    ensures name == DeleteProjectTool ==> r == DeleteProject(args, transport)
    ensures name == CreateTaskTool ==> r == CreateTask(args, transport, f, apiVersion)
    ensures name == GetTaskTool ==> r == GetTask(args, transport, f)
    ensures name == ListTasksTool ==> r == ListTasks(args, transport, f)
    ensures name == UpdateTaskTool ==> r == UpdateTask(args, transport, f)
    ensures name == DeleteTaskTool ==> r == DeleteTask(args, transport)
  {
    if name == CreateProjectTool then CreateProject(args, transport, f)
    else if name == GetProjectTool then GetProject(args, transport, f)
    else if name == ListProjectsTool then ListProjects(args, transport, f)
    else if name == UpdateProjectTool then UpdateProject(args, transport, f)
    else if name == DeleteProjectTool then DeleteProject(args, transport)
    else if name == CreateTaskTool then CreateTask(args, transport, f, apiVersion)
    else if name == GetTaskTool then GetTask(args, transport, f)
    else if name == ListTasksTool then ListTasks(args, transport, f)
    else if name == UpdateTaskTool then UpdateTask(args, transport, f)
    else if name == DeleteTaskTool then DeleteTask(args, transport)
    else ErrorResult("Unknown tool " + name)
  }

  /**
    * Through the dispatcher, deleting a task the server no longer has (status
    * 404) is reported as an error, as the program does; on every other status
    * the answer is the corrected handler's.
    */
  lemma CallDeleteTask(args: Args, transport: ApiCall -> Reply, f: Fmt, apiVersion: string)
    ensures var id := StrArg(args, "taskId");
      var reply := transport(ApiCall("DELETE", "/work_packages/" + id, None));
      var r := Call(DeleteTaskTool, args, transport, f, apiVersion);
      && (reply.status == 404 ==> r == ErrorResult("Error deleting task: " + HttpError(404, reply.body)))
      && (reply.status != 404 ==> r == Delete("Task", "task", id, reply))
  {
    var id := StrArg(args, "taskId");
    var reply := transport(ApiCall("DELETE", "/work_packages/" + id, None));
    if reply.status == 404 {
      assert reply == Reply(404, reply.body, reply.decoded);
      AsWrittenNotFoundIsError("Task", "task", id, reply.body, reply.decoded);
      assert "Error deleting " + "task" + ": " + HttpError(404, reply.body)
          == "Error deleting task: " + HttpError(404, reply.body);
    } else {
      DeleteAgreesOffNotFound("Task", "task", id, reply);
    }
  }

  /** The same for projects: a 404 is an error through the dispatcher, and every other status agrees with `Delete`. */
  lemma CallDeleteProject(args: Args, transport: ApiCall -> Reply, f: Fmt, apiVersion: string)
    ensures var id := StrArg(args, "projectId");
      var reply := transport(ApiCall("DELETE", "/projects/" + id, None));
      var r := Call(DeleteProjectTool, args, transport, f, apiVersion);
      && (reply.status == 404 ==> r == ErrorResult("Error deleting project: " + HttpError(404, reply.body)))
      && (reply.status != 404 ==> r == Delete("Project", "project", id, reply))
  {
    var id := StrArg(args, "projectId");
    var reply := transport(ApiCall("DELETE", "/projects/" + id, None));
    if reply.status == 404 {
      assert reply == Reply(404, reply.body, reply.decoded);
      AsWrittenNotFoundIsError("Project", "project", id, reply.body, reply.decoded);
      assert "Error deleting " + "project" + ": " + HttpError(404, reply.body)
          == "Error deleting project: " + HttpError(404, reply.body);
    } else {
      DeleteAgreesOffNotFound("Project", "project", id, reply);
    }
  }
}
