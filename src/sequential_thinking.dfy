/**
  * The Go `sequentialthinking` plugin: validates one thought, records it in the
  * process-wide history (and in its branch, when it opens or continues one),
  * and replies with a summary of the session so far.
  */
module SequentialThinking {
  import opened Wrappers
  import opened JsonValue
  import opened Text
  import opened Decimal
  import opened Mcp

  const ToolName := "sequentialthinking"

  /** A validated thought; each `Option` field is a pointer that is nil unless its argument had the right type. */
  datatype ThoughtData = ThoughtData(
    thought: string,
    thoughtNumber: int,
    totalThoughts: int,
    nextThoughtNeeded: bool,
    isRevision: Option<bool>,
    revisesThought: Option<int>,
    branchFromThought: Option<int>,
    branchId: Option<string>,
    needsMoreThoughts: Option<bool>)

  // ---------------------------------------------------------------------------
  // Validation
  // ---------------------------------------------------------------------------

  const ThoughtError := "invalid thought: must be a string"
  const ThoughtNumberError := "invalid thoughtNumber: must be a number"
  const TotalThoughtsError := "invalid totalThoughts: must be a number"
  const NextThoughtNeededError := "invalid nextThoughtNeeded: must be a boolean"

  /** An optional boolean: set exactly when the argument is a JSON boolean. */
  function OptBool(args: Args, key: string): (r: Option<bool>)
    ensures r.Some? <==> Arg(args, key).Bool?
    ensures r.Some? ==> r.value == Arg(args, key).b
  {
    var v := Arg(args, key);
    if v.Bool? then Some(v.b) else None
  }

  /** An optional integer: set exactly when the argument is a number, truncated as Go's `int(f)` does. */
  function OptInt(args: Args, key: string): (r: Option<int>)
    ensures r.Some? <==> IsNumber(Arg(args, key))
    ensures r.Some? ==> r.value == GoInt(Arg(args, key))
  {
    var v := Arg(args, key);
    if IsNumber(v) then Some(GoInt(v)) else None
  }

  /** An optional string: set exactly when the argument is a string, even an empty one. */
  function OptString(args: Args, key: string): (r: Option<string>)
    ensures r.Some? <==> Arg(args, key).Str?
    ensures r.Some? ==> r.value == Arg(args, key).s
  {
    var v := Arg(args, key);
    if v.Str? then Some(v.s) else None
  }

  /** The four required arguments are checked in order; the first that fails names the error. */
  function Validate(args: Args): (r: Result<ThoughtData, string>)
    ensures r.Success? <==>
              && Arg(args, "thought").Str? && Arg(args, "thought").s != ""
              && IsNumber(Arg(args, "thoughtNumber")) && IsNumber(Arg(args, "totalThoughts"))
              && Arg(args, "nextThoughtNeeded").Bool?
    ensures !(Arg(args, "thought").Str? && Arg(args, "thought").s != "") ==> r == Failure(ThoughtError)
    ensures r.Success? ==>
              && r.value.thought == Arg(args, "thought").s
              && r.value.thoughtNumber == GoInt(Arg(args, "thoughtNumber"))
              && r.value.totalThoughts == GoInt(Arg(args, "totalThoughts"))
              && r.value.nextThoughtNeeded == Arg(args, "nextThoughtNeeded").b
  {
    var thought := Arg(args, "thought");
    var thoughtNumber := Arg(args, "thoughtNumber");
    var totalThoughts := Arg(args, "totalThoughts");
    var next := Arg(args, "nextThoughtNeeded");
    if !thought.Str? || thought.s == "" then Failure(ThoughtError)
    else if !IsNumber(thoughtNumber) then Failure(ThoughtNumberError)
    else if !IsNumber(totalThoughts) then Failure(TotalThoughtsError)
    else if !next.Bool? then Failure(NextThoughtNeededError)
    else Success(ThoughtData(
      thought.s, GoInt(thoughtNumber), GoInt(totalThoughts), next.b,
      OptBool(args, "isRevision"), OptInt(args, "revisesThought"), OptInt(args, "branchFromThought"),
      OptString(args, "branchId"), OptBool(args, "needsMoreThoughts")))
  }

  /** The error of each required argument is reported only when all those before it passed. */
  lemma ValidationOrder(args: Args)
    requires Arg(args, "thought").Str? && Arg(args, "thought").s != ""
    ensures !IsNumber(Arg(args, "thoughtNumber")) ==> Validate(args) == Failure(ThoughtNumberError)
    ensures IsNumber(Arg(args, "thoughtNumber")) && !IsNumber(Arg(args, "totalThoughts")) ==>
              Validate(args) == Failure(TotalThoughtsError)
    ensures (IsNumber(Arg(args, "thoughtNumber")) && IsNumber(Arg(args, "totalThoughts"))
              && !Arg(args, "nextThoughtNeeded").Bool?) ==> Validate(args) == Failure(NextThoughtNeededError)
  {
  }

  /** Each optional field is set exactly when its argument has the expected JSON type. */
  lemma OptionalFields(args: Args)
    requires Validate(args).Success?
    ensures var d := Validate(args).value;
      && (d.isRevision.Some? <==> Arg(args, "isRevision").Bool?)
      && (d.revisesThought.Some? <==> IsNumber(Arg(args, "revisesThought")))
      && (d.branchFromThought.Some? <==> IsNumber(Arg(args, "branchFromThought")))
      && (d.branchId.Some? <==> Arg(args, "branchId").Str?)
      && (d.needsMoreThoughts.Some? <==> Arg(args, "needsMoreThoughts").Bool?)
  {
  }

  /** `validateThoughtData`: the record is filled one field at a time, returning at the first bad argument. */
  method ValidateThoughtData(args: Args) returns (r: Result<ThoughtData, string>)
    ensures r == Validate(args)
  {
    var data := ThoughtData("", 0, 0, false, None, None, None, None, None);
    var thought := Arg(args, "thought");
    if !thought.Str? || thought.s == "" {
      return Failure(ThoughtError);
    }
    data := data.(thought := thought.s);
    var thoughtNumber := Arg(args, "thoughtNumber");
    if !IsNumber(thoughtNumber) {
      return Failure(ThoughtNumberError);
    }
    data := data.(thoughtNumber := GoInt(thoughtNumber));
    var totalThoughts := Arg(args, "totalThoughts");
    if !IsNumber(totalThoughts) {
      return Failure(TotalThoughtsError);
    }
    data := data.(totalThoughts := GoInt(totalThoughts));
    var next := Arg(args, "nextThoughtNeeded");
    if !next.Bool? {
      return Failure(NextThoughtNeededError);
    }
    data := data.(nextThoughtNeeded := next.b);
    var isRevision := Arg(args, "isRevision");
    if isRevision.Bool? {
      data := data.(isRevision := Some(isRevision.b));
    }
    var revises := Arg(args, "revisesThought");
    if IsNumber(revises) {
      data := data.(revisesThought := Some(GoInt(revises)));
    }
    var branchFrom := Arg(args, "branchFromThought");
    if IsNumber(branchFrom) {
      data := data.(branchFromThought := Some(GoInt(branchFrom)));
    }
    var branchId := Arg(args, "branchId");
    if branchId.Str? {
      data := data.(branchId := Some(branchId.s));
    }
    var needsMore := Arg(args, "needsMoreThoughts");
    if needsMore.Bool? {
      data := data.(needsMoreThoughts := Some(needsMore.b));
    }
    return Success(data);
  }

  // ---------------------------------------------------------------------------
  // Formatting (the text goes to the host's log only)
  // ---------------------------------------------------------------------------

  const RevisionPrefix := "\U{1F504} Revision"
  const BranchPrefix := "\U{1F33F} Branch"
  const ThoughtPrefix := "\U{1F4AD} Thought"

  /** A revision wins over a branch, and a branch over a plain thought. */
  function Prefix(d: ThoughtData): (r: string)
    ensures d.isRevision == Some(true) ==> r == RevisionPrefix
    ensures d.isRevision != Some(true) && d.branchFromThought.Some? ==> r == BranchPrefix
    ensures d.isRevision != Some(true) && d.branchFromThought.None? ==> r == ThoughtPrefix
  {
    if d.isRevision == Some(true) then RevisionPrefix
    else if d.branchFromThought.Some? then BranchPrefix
    else ThoughtPrefix
  }

  /** What follows "n/total": the revised thought, the branch point and id (empty when unset), or nothing. */
  function Context(d: ThoughtData): string {
    if d.isRevision == Some(true) then
      if d.revisesThought.Some? then " (revising thought " + IntToString(d.revisesThought.value) + ")" else ""
    else if d.branchFromThought.Some? then
      " (from thought " + IntToString(d.branchFromThought.value) + ", ID: "
        + (if d.branchId.Some? then d.branchId.value else "") + ")"
    else ""
  }

  function Header(d: ThoughtData): string {
    Prefix(d) + " " + IntToString(d.thoughtNumber) + "/" + IntToString(d.totalThoughts) + Context(d)
  }

  /** `formatThought`: a framed header line above the thought itself. */
  function FormatThought(d: ThoughtData): (r: string)
    ensures Contains(r, Header(d)) && Contains(r, d.thought)
  {
    ContainsPiece("\n=== " + Header(d) + " ===\n", d.thought, "\n================");
    ContainsPiece("\n=== ", Header(d), " ===\n");
    ContainsLeft("\n=== " + Header(d) + " ===\n", d.thought, Header(d));
    ContainsLeft("\n=== " + Header(d) + " ===\n" + d.thought, "\n================", Header(d));
    "\n=== " + Header(d) + " ===\n" + d.thought + "\n================"
  }

  /** The header opens with the prefix, followed by "<number>/<total>". */
  lemma HeaderLayout(d: ThoughtData)
    ensures Header(d)[..|Prefix(d)|] == Prefix(d)
    ensures Contains(Header(d), " " + IntToString(d.thoughtNumber) + "/" + IntToString(d.totalThoughts))
  {
    var n := IntToString(d.thoughtNumber);
    var t := IntToString(d.totalThoughts);
    assert Header(d) == Prefix(d) + (" " + n + "/" + t + Context(d));
    assert Header(d) == Prefix(d) + (" " + n + "/" + t) + Context(d);
    ContainsPiece(Prefix(d), " " + n + "/" + t, Context(d));
  }

  /**
    * The "(revising thought N)" context is shown exactly for a revision that
    * names the thought it revises; a revision that names none has no context.
    */
  lemma RevisionContext(d: ThoughtData)
    ensures d.isRevision == Some(true) && d.revisesThought.Some? ==>
              Context(d) == " (revising thought " + IntToString(d.revisesThought.value) + ")"
    ensures d.isRevision == Some(true) && d.revisesThought.None? ==> Context(d) == ""
    ensures d.isRevision != Some(true) && d.branchFromThought.None? ==> Context(d) == ""
    ensures d.isRevision != Some(true) && d.branchFromThought.Some? ==> Context(d)[..15] == " (from thought "
  {
  }

  // ---------------------------------------------------------------------------
  // The session
  // ---------------------------------------------------------------------------

  /** What the plugin keeps between calls: every accepted thought, and the thoughts of each branch. */
  datatype Session = Session(history: seq<ThoughtData>, branches: map<string, seq<ThoughtData>>)

  /** The reply to an accepted thought, before `json.MarshalIndent` (branch names are a set: Go map order). */
  datatype Summary = Summary(
    thoughtNumber: int,
    totalThoughts: int,
    nextThoughtNeeded: bool,
    branches: set<string>,
    thoughtHistoryLength: nat)

  /** A thought numbered past the estimate raises the estimate to its number. */
  function Adjusted(d: ThoughtData): (r: ThoughtData)
    ensures r.totalThoughts == if d.thoughtNumber > d.totalThoughts then d.thoughtNumber else d.totalThoughts
    ensures r.totalThoughts >= r.thoughtNumber
    ensures r == d.(totalThoughts := r.totalThoughts)
  {
    if d.thoughtNumber > d.totalThoughts then d.(totalThoughts := d.thoughtNumber) else d
  }

  /** A thought joins a branch only when it carries both the branch point and the branch id. */
  predicate Branches(d: ThoughtData) {
    d.branchFromThought.Some? && d.branchId.Some?
  }

  /** The thoughts recorded so far under `id` (a missing key reads as Go's nil slice). */
  function BranchOf(s: Session, id: string): seq<ThoughtData> {
    if id in s.branches then s.branches[id] else []
  }

  /** The session after recording an accepted (already adjusted) thought. */
  function Record(s: Session, d: ThoughtData): Session {
    Session(
      s.history + [d],
      if Branches(d) then s.branches[d.branchId.value := BranchOf(s, d.branchId.value) + [d]] else s.branches)
  }

  /** `processThought` on a session: the new session and the reply, given how the host marshals a summary. */
  function Process(s: Session, args: Args, marshal: Summary -> string): (Session, CallToolResult) {
    match Validate(args)
    case Failure(e) => (s, ErrorResult("Error: " + e))
    case Success(d) =>
      var t := Record(s, Adjusted(d));
      var summary := Summary(Adjusted(d).thoughtNumber, Adjusted(d).totalThoughts, d.nextThoughtNeeded,
                             t.branches.Keys, |t.history|);
      (t, PlainResult([marshal(summary)]))
  }

  /** An invalid thought is an error that quotes the validation message and leaves the session untouched. */
  lemma InvalidLeavesSessionUnchanged(s: Session, args: Args, marshal: Summary -> string)
    requires Validate(args).Failure?
    ensures Process(s, args, marshal).0 == s
    ensures IsError(Process(s, args, marshal).1)
    ensures Process(s, args, marshal).1 == ErrorResult("Error: " + Validate(args).error)
  {
  }

  /**
    * A valid thought is appended to the history, exactly once and at the end,
    * with its estimate raised to at least its number; the reply reports the
    * new history length, never an error.
    */
  lemma ValidThoughtRecorded(s: Session, args: Args, marshal: Summary -> string)
    requires Validate(args).Success?
    ensures var (t, r) := Process(s, args, marshal);
      var d := Validate(args).value;
      && |t.history| == |s.history| + 1
      && t.history[..|s.history|] == s.history
      && t.history[|s.history|] == Adjusted(d)
      && t.history[|s.history|].totalThoughts == (if d.thoughtNumber > d.totalThoughts then d.thoughtNumber else d.totalThoughts)
      && !IsError(r)
      && r == PlainResult([marshal(Summary(d.thoughtNumber, Adjusted(d).totalThoughts, d.nextThoughtNeeded,
                                           t.branches.Keys, |t.history|))])
  {
  }

  /**
    * Only a thought with both `branchFromThought` and `branchId` touches the
    * branches, and then only its own branch, which grows by that thought.
    */
  lemma BranchUpdate(s: Session, args: Args, marshal: Summary -> string)
    requires Validate(args).Success?
    ensures var t := Process(s, args, marshal).0;
      var d := Validate(args).value;
      && (!Branches(d) ==> t.branches == s.branches)
      && (Branches(d) ==>
            && t.branches.Keys == s.branches.Keys + {d.branchId.value}
            && t.branches[d.branchId.value] == BranchOf(s, d.branchId.value) + [Adjusted(d)]
            && (forall id | id in s.branches && id != d.branchId.value :: t.branches[id] == s.branches[id]))
  {
  }

  /**
    * The session's invariant: every recorded thought's estimate covers its
    * number, and each branch holds, in order of arrival, exactly the history's
    * branching thoughts that carry its id.
    */
  ghost predicate Consistent(s: Session) {
    && (forall i | 0 <= i < |s.history| :: s.history[i].totalThoughts >= s.history[i].thoughtNumber)
    && (forall id | id in s.branches :: s.branches[id] == OfBranch(s.history, id) && s.branches[id] != [])
    && (forall i | 0 <= i < |s.history| && Branches(s.history[i]) :: s.history[i].branchId.value in s.branches)
  }

  /** The thoughts of `history` that belong to branch `id`, in order. */
  function OfBranch(history: seq<ThoughtData>, id: string): (r: seq<ThoughtData>)
    ensures |r| <= |history|
  {
    if history == [] then []
    else
      var last := history[|history| - 1];
      OfBranch(history[..|history| - 1], id) + (if Branches(last) && last.branchId.value == id then [last] else [])
  }

  lemma OfBranchAppend(history: seq<ThoughtData>, d: ThoughtData, id: string)
    ensures OfBranch(history + [d], id) == OfBranch(history, id) + (if Branches(d) && d.branchId.value == id then [d] else [])
  {
    assert (history + [d])[..|history|] == history;
  }

  /** No history, no branches. */
  lemma EmptySessionConsistent()
    ensures Consistent(Session([], map[]))
  {
  }

  /** Processing a thought, valid or not, keeps the session consistent. */
  lemma ProcessPreservesConsistency(s: Session, args: Args, marshal: Summary -> string)
    requires Consistent(s)
    ensures Consistent(Process(s, args, marshal).0)
  {
    if Validate(args).Success? {
      var d := Adjusted(Validate(args).value);
      var t := Record(s, d);
      forall id | id in t.branches
        ensures t.branches[id] == OfBranch(t.history, id) && t.branches[id] != []
      {
        OfBranchAppend(s.history, d, id);
        if !(Branches(d) && d.branchId.value == id) {
          assert id in s.branches;
        } else if id !in s.branches {
          assert OfBranch(s.history, id) == [] by {
            if OfBranch(s.history, id) != [] {
              OfBranchMember(s.history, id);
            }
          }
        }
      }
      forall i | 0 <= i < |t.history| && Branches(t.history[i])
        ensures t.history[i].branchId.value in t.branches
      {
        if i < |s.history| {
          assert t.history[i] == s.history[i];
        }
      }
    }
  }

  /** A non-empty branch list comes from a branching thought of the history that carries that id. */
  lemma {:induction false} OfBranchMember(history: seq<ThoughtData>, id: string)
    requires OfBranch(history, id) != []
    ensures exists i | 0 <= i < |history| :: Branches(history[i]) && history[i].branchId.value == id
  {
    var last := history[|history| - 1];
    if Branches(last) && last.branchId.value == id {
      assert Branches(history[|history| - 1]);
    } else {
      OfBranchMember(history[..|history| - 1], id);
      var i :| 0 <= i < |history| - 1 && Branches(history[..|history| - 1][i]) && history[..|history| - 1][i].branchId.value == id;
      assert history[i] == history[..|history| - 1][i];
    }
  }

  // ---------------------------------------------------------------------------
  // The plugin's global state
  // ---------------------------------------------------------------------------

  /** The globals `thoughtHistory` and `branches`, live across calls. */
  class Thinking {
    var history: seq<ThoughtData>
    var branches: map<string, seq<ThoughtData>>

    function State(): Session
      reads this
    {
      Session(history, branches)
    }

    /** `init`: an empty history and no branches. */
    constructor()
      ensures history == [] && branches == map[]
      ensures Consistent(State())
    {
      history := [];
      branches := map[];
    }

    /** `getBranchNames`: one entry per branch, each once (the order, Go's map order, is not fixed). */
    method GetBranchNames() returns (names: seq<string>)
      ensures |names| == |branches|
      ensures forall n :: n in names <==> n in branches
      ensures forall i, j | 0 <= i < j < |names| :: names[i] != names[j]
    {
      names := [];
      var rest := branches.Keys;
      while rest != {}
        invariant rest <= branches.Keys
        invariant forall n :: n in names <==> n in branches.Keys - rest
        invariant forall i, j | 0 <= i < j < |names| :: names[i] != names[j]
        invariant |names| + |rest| == |branches.Keys|
        decreases rest
      {
        var n :| n in rest;
        assert n !in names;
        names := names + [n];
        rest := rest - {n};
      }
      assert |branches.Keys| == |branches|;
    }

    /** Appends an accepted thought to the history and, when it branches, to its branch. */
    method Append(d: ThoughtData)
      modifies this
      ensures State() == Record(old(State()), d)
    {
      history := history + [d];
      if d.branchFromThought.Some? && d.branchId.Some? {
        var id := d.branchId.value;
        if id !in branches {
          branches := branches[id := []];
        }
        branches := branches[id := branches[id] + [d]];
      }
    }

    /** `processThought`: the globals become the session `Process` describes, and so does the reply. */
    method ProcessThought(args: Args, marshal: Summary -> string) returns (r: CallToolResult)
      requires Consistent(State())
      modifies this
      ensures State() == Process(old(State()), args, marshal).0
      ensures r == Process(old(State()), args, marshal).1
      ensures Consistent(State())
    {
      ProcessPreservesConsistency(State(), args, marshal);
      var checked := ValidateThoughtData(args);
      if checked.Failure? {
        return ErrorResult("Error: " + checked.error);
      }
      var d := checked.value;
      if d.thoughtNumber > d.totalThoughts {
        d := d.(totalThoughts := d.thoughtNumber);
      }
      assert d == Adjusted(checked.value);
      Append(d);
      var names := GetBranchNames();
      assert (set n | n in names) == branches.Keys;
      var summary := Summary(d.thoughtNumber, d.totalThoughts, d.nextThoughtNeeded, set n | n in names, |history|);
      r := PlainResult([marshal(summary)]);
    }

    /** `Call`: the one tool, or "Unknown tool <name>" with the globals untouched. */
    method Call(name: string, args: Args, marshal: Summary -> string) returns (r: CallToolResult)
      requires Consistent(State())
      modifies this
      ensures Consistent(State())
      ensures name == ToolName ==>
                State() == Process(old(State()), args, marshal).0 && r == Process(old(State()), args, marshal).1
      ensures name != ToolName ==> unchanged(this) && r == ErrorResult("Unknown tool " + name)
    {
      if name == ToolName {
        r := ProcessThought(args, marshal);
      } else {
        r := ErrorResult("Unknown tool " + name);
      }
    }
  }
}
