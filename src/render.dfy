/**
  * Shared shape of the adapters' text output: a list of items rendered one block
  * per item, each block told its 1-based position.
  */
module Render {
  import opened JsonValue
  import opened Text

  /** `if let Some(s) = v.as_str() { push(format!("<caption>{}", s)) }` */
  function Labeled(caption: string, v: Json): (r: seq<string>)
    ensures v.Str? ==> r == [caption + v.s]
    ensures !v.Str? <==> r == []
  {
    if v.Str? then [caption + v.s] else []
  }

  /** Appends the captioned value when it is a string, as the adapters' `if let Some(s) = v.as_str()` pushes do. */
  method PushLabeled(lines: seq<string>, caption: string, v: Json) returns (r: seq<string>)
    ensures r == lines + Labeled(caption, v)
  {
    r := lines;
    if v.Str? {
      r := r + [caption + v.s];
    }
  }

  /** The blocks of `items`, the first one numbered `first`, concatenated in order. */
  function Numbered<T>(items: seq<T>, first: nat, block: (T, nat) -> seq<string>): seq<string>
    decreases |items|
  {
    if items == [] then []
    else Numbered(items[..|items| - 1], first, block) + block(items[|items| - 1], first + |items| - 1)
  }

  /** `iter().take(n)` */
  function Take<T>(items: seq<T>, n: nat): (r: seq<T>)
    ensures |r| == if |items| <= n then |items| else n
    ensures r == items[..|r|]
  {
    if |items| <= n then items else items[..n]
  }

  lemma NumberedAppend<T>(items: seq<T>, x: T, first: nat, block: (T, nat) -> seq<string>)
    ensures Numbered(items + [x], first, block) == Numbered(items, first, block) + block(x, first + |items|)
  {
    assert (items + [x])[..|items|] == items;
  }

  /** One more loop iteration: the prefix grows by one item and the rendering by its block. */
  lemma NumberedStep<T>(items: seq<T>, i: nat, first: nat, block: (T, nat) -> seq<string>)
    requires i < |items|
    ensures Numbered(items[..i + 1], first, block) == Numbered(items[..i], first, block) + block(items[i], first + i)
  {
    assert items[..i + 1] == items[..i] + [items[i]];
    NumberedAppend(items[..i], items[i], first, block);
  }

  lemma {:induction false} NumberedConcat<T>(a: seq<T>, b: seq<T>, first: nat, block: (T, nat) -> seq<string>)
    ensures Numbered(a + b, first, block) == Numbered(a, first, block) + Numbered(b, first + |a|, block)
    decreases |b|
  {
    if b == [] {
      assert a + b == a;
    } else {
      var init, x := b[..|b| - 1], b[|b| - 1];
      calc {
        Numbered(a + b, first, block);
        == { assert a + b == (a + init) + [x]; NumberedAppend(a + init, x, first, block); }
        Numbered(a + init, first, block) + block(x, first + |a| + |init|);
        == { NumberedConcat(a, init, first, block); }
        Numbered(a, first, block) + Numbered(init, first + |a|, block) + block(x, first + |a| + |init|);
        ==
        Numbered(a, first, block) + (Numbered(init, first + |a|, block) + block(x, first + |a| + |init|));
        == { assert b == init + [x]; NumberedAppend(init, x, first + |a|, block); }
        Numbered(a, first, block) + Numbered(b, first + |a|, block);
      }
    }
  }

  /** Item `k` is rendered as its own block, numbered `first + k`, between the earlier and the later items. */
  lemma NumberedAt<T>(items: seq<T>, first: nat, block: (T, nat) -> seq<string>, k: nat)
    requires k < |items|
    ensures Numbered(items, first, block)
         == Numbered(items[..k], first, block) + block(items[k], first + k) + Numbered(items[k + 1..], first + k + 1, block)
  {
    assert items == (items[..k] + [items[k]]) + items[k + 1..];
    NumberedConcat(items[..k] + [items[k]], items[k + 1..], first, block);
    NumberedAppend(items[..k], items[k], first, block);
  }

  /** Every item's block appears, unbroken, in the rendering. */
  lemma NumberedContains<T>(items: seq<T>, first: nat, block: (T, nat) -> seq<string>, k: nat)
    requires k < |items|
    ensures Contains(Numbered(items, first, block), block(items[k], first + k))
  {
    NumberedAt(items, first, block, k);
    ContainsPiece(Numbered(items[..k], first, block), block(items[k], first + k), Numbered(items[k + 1..], first + k + 1, block));
  }
}
