/**
  * Query strings of the GET adapters. Each adapter declares its parameters as a
  * slot table, one slot per parameter name in declaration order, each holding
  * the value to send or nothing; the query string is the filled slots, in
  * table order, as `name=value` texts joined by '&'.
  */
module Query {
  import opened Wrappers
  import opened Text

  datatype Param = Param(name: string, value: string) {
    /** `format!("{}={}", name, value)` */
    function Text(): string {
      name + "=" + value
    }
  }

  /** One declared parameter and the value sent for it, if any. */
  datatype Slot = Slot(name: string, value: Option<string>)

  /** `query_params.push(...)` when the slot is filled. */
  function Push(ps: seq<Param>, slot: Slot): seq<Param> {
    if slot.value.Some? then ps + [Param(slot.name, slot.value.value)] else ps
  }

  /** The parameters of the first `k` slots of a table, in table order. */
  function Filled(slots: seq<Slot>, k: nat): seq<Param>
    requires k <= |slots|
    decreases k
  {
    if k == 0 then [] else Push(Filled(slots, k - 1), slots[k - 1])
  }

  /** One more slot of the table: what an adapter's next `if let ... push` adds. */
  lemma FilledNext(slots: seq<Slot>, k: nat, slot: Slot)
    requires k < |slots| && slots[k] == slot
    ensures Filled(slots, k + 1) == Push(Filled(slots, k), slot)
  {
  }

  /** Later slots only append: the parameters of the first `j` slots are a prefix of those of the first `k`. */
  lemma {:induction false} FilledPrefix(slots: seq<Slot>, j: nat, k: nat)
    requires j <= k <= |slots|
    ensures |Filled(slots, j)| <= |Filled(slots, k)|
    ensures Filled(slots, k)[..|Filled(slots, j)|] == Filled(slots, j)
    decreases k
  {
    if j < k {
      FilledPrefix(slots, j, k - 1);
      var p := Filled(slots, k - 1);
      assert p == Filled(slots, k)[..|p|];
    }
  }

  /** The parameters of a whole table. */
  function Flatten(slots: seq<Slot>): seq<Param> {
    Filled(slots, |slots|)
  }

  /** The indices of the filled slots among the first `k`, in increasing order. */
  function FilledSlots(slots: seq<Slot>, k: nat): seq<nat>
    requires k <= |slots|
    decreases k
  {
    if k == 0 then []
    else
      var rest := FilledSlots(slots, k - 1);
      if slots[k - 1].value.Some? then rest + [k - 1] else rest
  }

  /** The declared names of a table, in declaration order. */
  function SlotNames(slots: seq<Slot>): (r: seq<string>)
    ensures |r| == |slots| && forall k :: 0 <= k < |slots| ==> r[k] == slots[k].name
  {
    seq(|slots|, k requires 0 <= k < |slots| => slots[k].name)
  }

  function Names(ps: seq<Param>): (r: seq<string>)
    ensures |r| == |ps| && forall i :: 0 <= i < |ps| ==> r[i] == ps[i].name
  {
    seq(|ps|, i requires 0 <= i < |ps| => ps[i].name)
  }

  function Texts(ps: seq<Param>): (r: seq<string>)
    ensures |r| == |ps| && forall i :: 0 <= i < |ps| ==> r[i] == ps[i].Text()
  {
    seq(|ps|, i requires 0 <= i < |ps| => ps[i].Text())
  }

  /** `query_params.join("&")` */
  function QueryString(ps: seq<Param>): string {
    Join(Texts(ps), "&")
  }

  /** The value of the first parameter called `name`, if any. */
  function Lookup(ps: seq<Param>, name: string): Option<string>
    decreases |ps|
  {
    if ps == [] then None
    else if ps[0].name == name then Some(ps[0].value)
    else Lookup(ps[1..], name)
  }

  predicate Distinct(names: seq<string>) {
    forall i, j :: 0 <= i < j < |names| ==> names[i] != names[j]
  }

  /** `a` is `b` with some elements left out, the rest kept in order; `pos` says where each element of `a` sits in `b`. */
  predicate Embeds(pos: seq<nat>, a: seq<string>, b: seq<string>) {
    && |pos| == |a|
    && (forall i :: 0 <= i < |pos| ==> pos[i] < |b| && a[i] == b[pos[i]])
    && (forall i, j :: 0 <= i < j < |pos| ==> pos[i] < pos[j])
  }

  ghost predicate IsSubsequence(a: seq<string>, b: seq<string>) {
    exists pos :: Embeds(pos, a, b)
  }

  /** A slot whose name and value are free of the parameter separator. */
  predicate PlainSlot(slot: Slot) {
    '&' !in slot.name && (slot.value.Some? ==> '&' !in slot.value.value)
  }

  /** The i-th parameter comes from the i-th filled slot. */
  lemma {:induction false} FilledPositions(slots: seq<Slot>, k: nat)
    requires k <= |slots|
    ensures |FilledSlots(slots, k)| == |Filled(slots, k)|
    ensures forall i :: 0 <= i < |Filled(slots, k)| ==>
              && FilledSlots(slots, k)[i] < k
              && slots[FilledSlots(slots, k)[i]].name == Filled(slots, k)[i].name
              && slots[FilledSlots(slots, k)[i]].value == Some(Filled(slots, k)[i].value)
    ensures forall i, j :: 0 <= i < j < |FilledSlots(slots, k)| ==> FilledSlots(slots, k)[i] < FilledSlots(slots, k)[j]
    decreases k
  {
    if k > 0 {
      FilledPositions(slots, k - 1);
    }
  }

  /** The parameter names follow the declaration order. */
  lemma FlattenFollowsOrder(slots: seq<Slot>)
    ensures IsSubsequence(Names(Flatten(slots)), SlotNames(slots))
  {
    FilledPositions(slots, |slots|);
    assert Embeds(FilledSlots(slots, |slots|), Names(Flatten(slots)), SlotNames(slots));
  }

  /** Every filled slot among the first `k` is listed. */
  lemma {:induction false} FilledSlotsComplete(slots: seq<Slot>, k: nat, m: nat)
    requires k <= |slots| && m < k && slots[m].value.Some?
    ensures m in FilledSlots(slots, k)
    decreases k
  {
    if m < k - 1 {
      FilledSlotsComplete(slots, k - 1, m);
    }
  }

  /** A table whose first slot is filled yields that parameter first. */
  lemma FlattenHead(slots: seq<Slot>)
    requires |slots| > 0 && slots[0].value.Some?
    ensures |Flatten(slots)| > 0 && Flatten(slots)[0] == Param(slots[0].name, slots[0].value.value)
  {
    var n := |slots|;
    FilledPositions(slots, n);
    FilledSlotsComplete(slots, n, 0);
    var f := FilledSlots(slots, n);
    var i :| 0 <= i < |f| && f[i] == 0;
  }

  lemma {:induction false} LookupAppend(a: seq<Param>, b: seq<Param>, name: string)
    ensures Lookup(a + b, name) == if Lookup(a, name).Some? then Lookup(a, name) else Lookup(b, name)
    decreases |a|
  {
    if a == [] {
      assert a + b == b;
    } else {
      LookupAppend(a[1..], b, name);
      assert (a + b)[0] == a[0];
      assert (a + b)[1..] == a[1..] + b;
    }
  }

  /** Among the first `n` slots, looking up a declared name finds exactly what its slot holds. */
  lemma {:induction false} LookupFilled(slots: seq<Slot>, k: nat, n: nat)
    requires Distinct(SlotNames(slots)) && k < |slots| && n <= |slots|
    ensures Lookup(Filled(slots, n), slots[k].name) == if k < n then slots[k].value else None
    decreases n
  {
    if n > 0 {
      var last := slots[n - 1];
      LookupFilled(slots, k, n - 1);
      if last.value.Some? {
        LookupAppend(Filled(slots, n - 1), [Param(last.name, last.value.value)], slots[k].name);
        if k != n - 1 {
          assert SlotNames(slots)[k] != SlotNames(slots)[n - 1];
        }
      }
    }
  }

  /** Looking up a declared name finds exactly the value its slot holds, or nothing when the slot is empty. */
  lemma LookupFlatten(slots: seq<Slot>, k: nat)
    requires Distinct(SlotNames(slots)) && k < |slots|
    ensures Lookup(Flatten(slots), slots[k].name) == slots[k].value
  {
    LookupFilled(slots, k, |slots|);
  }

  /** A query string splits back into its parameters when no parameter text contains '&'. */
  lemma QueryStringSplits(ps: seq<Param>)
    requires |ps| >= 1
    requires forall i :: 0 <= i < |ps| ==> '&' !in ps[i].Text()
    ensures Split(QueryString(ps), '&') == Texts(ps)
  {
    SplitJoin(Texts(ps), '&');
  }

  /** Splitting the query string of a table of plain slots at '&' gives back each `name=value` text. */
  lemma TableSplits(slots: seq<Slot>)
    requires |Flatten(slots)| >= 1
    requires forall k :: 0 <= k < |slots| ==> PlainSlot(slots[k])
    ensures Split(QueryString(Flatten(slots)), '&') == Texts(Flatten(slots))
  {
    var ps := Flatten(slots);
    FilledPositions(slots, |slots|);
    forall i | 0 <= i < |ps| ensures '&' !in ps[i].Text() {
      var k := FilledSlots(slots, |slots|)[i];
      assert PlainSlot(slots[k]);
    }
    QueryStringSplits(ps);
  }
}
