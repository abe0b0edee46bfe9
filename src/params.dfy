/**
  * How the GET adapters turn an optional tool argument into the value of a
  * query parameter: `Some(text)` when the adapter pushes the parameter, `None`
  * when it skips it. None of these values can contain '&'. Each kind of
  * argument comes with the `if let ... { query_params.push(...) }` step the
  * adapters write for it, proved to push exactly that slot.
  */
module ArgValues {
  import opened Wrappers
  import opened JsonValue
  import opened Decimal
  import opened PercentEncoding
  import opened Query

  /** An integer argument in `[lo, hi]`, in decimal. */
  function IntBetween(args: Args, key: string, lo: int, hi: int): (r: Option<string>)
    ensures r.Some? ==> '&' !in r.value
  {
    var n := AsI64(Arg(args, key));
    if n.Some? && lo <= n.value <= hi then IntToStringChars(n.value); Some(IntToString(n.value)) else None
  }

  /** A non-negative integer argument, in decimal. */
  function NonNegative(args: Args, key: string): (r: Option<string>)
    ensures r.Some? ==> '&' !in r.value
  {
    var n := AsI64(Arg(args, key));
    if n.Some? && n.value >= 0 then IntToStringChars(n.value); Some(IntToString(n.value)) else None
  }

  /** A string argument, percent-encoded. */
  function Encoded(args: Args, key: string): (r: Option<string>)
    ensures r.Some? ==> '&' !in r.value
  {
    var v := Arg(args, key);
    if v.Str? then Some(Encode(v.s)) else None
  }

  /** A non-empty string argument, percent-encoded. */
  function NonEmptyEncoded(args: Args, key: string): (r: Option<string>)
    ensures r.Some? ==> '&' !in r.value
  {
    var v := Arg(args, key);
    if v.Str? && v.s != "" then Some(Encode(v.s)) else None
  }

  /** A string argument that is one of `allowed`, sent as is. */
  function Choice(args: Args, key: string, allowed: set<string>): (r: Option<string>)
    ensures r.Some? ==> r.value in allowed
  {
    var v := Arg(args, key);
    if v.Str? && v.s in allowed then Some(v.s) else None
  }

  method PushIntBetween(ps: seq<Param>, args: Args, key: string, name: string, lo: int, hi: int) returns (r: seq<Param>)
    ensures r == Push(ps, Slot(name, IntBetween(args, key, lo, hi)))
  {
    r := ps;
    var n := AsI64(Arg(args, key));
    if n.Some? && lo <= n.value <= hi {
      r := r + [Param(name, IntToString(n.value))];
    }
  }

  method PushNonNegative(ps: seq<Param>, args: Args, key: string, name: string) returns (r: seq<Param>)
    ensures r == Push(ps, Slot(name, NonNegative(args, key)))
  {
    r := ps;
    var n := AsI64(Arg(args, key));
    if n.Some? && n.value >= 0 {
      r := r + [Param(name, IntToString(n.value))];
    }
  }

  method PushEncoded(ps: seq<Param>, args: Args, key: string, name: string) returns (r: seq<Param>)
    ensures r == Push(ps, Slot(name, Encoded(args, key)))
  {
    r := ps;
    var v := Arg(args, key);
    if v.Str? {
      r := r + [Param(name, Encode(v.s))];
    }
  }

  method PushNonEmptyEncoded(ps: seq<Param>, args: Args, key: string, name: string) returns (r: seq<Param>)
    ensures r == Push(ps, Slot(name, NonEmptyEncoded(args, key)))
  {
    r := ps;
    var v := Arg(args, key);
    if v.Str? && v.s != "" {
      r := r + [Param(name, Encode(v.s))];
    }
  }

  /** `match s.as_str() { "a" | "b" => push, _ => {} }` */
  method PushChoice(ps: seq<Param>, args: Args, key: string, name: string, allowed: set<string>) returns (r: seq<Param>)
    ensures r == Push(ps, Slot(name, Choice(args, key, allowed)))
  {
    r := ps;
    var v := Arg(args, key);
    if v.Str? && v.s in allowed {
      r := r + [Param(name, v.s)];
    }
  }
}
