/** Sequence shapes the song is built from: one element per count, counting
    down, and a list of blocks laid end to end. */
module Lists {
  import opened Text

  /** `f` applied to `starting`, `starting - 1`, ..., `ending`, in that order:
      Integer#downto followed by Enumerable#map. */
  function Countdown<T>(f: int -> T, starting: int, ending: int): (r: seq<T>)
    requires ending <= starting
    ensures |r| == starting - ending + 1
    decreases starting - ending
  {
    if ending == starting then [f(starting)]
    else Countdown(f, starting, ending + 1) + [f(ending)]
  }

  /** The i-th element is `f` applied to the i-th count, `starting - i`. */
  lemma {:induction false} CountdownAt<T>(f: int -> T, starting: int, ending: int, i: nat)
    requires ending <= starting && i <= starting - ending
    ensures Countdown(f, starting, ending)[i] == f(starting - i)
    decreases starting - ending
  {
    if ending < starting && i < starting - ending {
      CountdownAt(f, starting, ending + 1, i);
    }
  }

  /** Joining a countdown of one is its only element; each further count
      adds a separator and its element at the end. */
  lemma JoinCountdownStep(f: int -> string, sep: string, starting: int, ending: int)
    requires ending <= starting
    ensures ending == starting ==> Join(Countdown(f, starting, ending), sep) == f(starting)
    ensures ending < starting ==>
      Join(Countdown(f, starting, ending), sep) == Join(Countdown(f, starting, ending + 1), sep) + sep + f(ending)
  {
    if ending < starting {
      var r := Countdown(f, starting, ending);
      assert r[..|r| - 1] == Countdown(f, starting, ending + 1);
    }
  }

  /** The blocks laid end to end. */
  function Flatten<T>(blocks: seq<seq<T>>): (r: seq<T>)
  {
    if blocks == [] then [] else Flatten(blocks[..|blocks| - 1]) + blocks[|blocks| - 1]
  }

  /** Solver step for the nonlinear product: one more row of `width`
      adds `width` elements. */
  lemma RowStep(width: nat, n: nat)
    ensures width * n + width == width * (n + 1)
  {
  }

  /** Element `j` of row `i` comes before the end of `n` rows when `i < n`. */
  lemma RowBound(width: nat, i: nat, n: nat, j: nat)
    requires i < n && j < width
    ensures width * i + j < width * n
  {
    var rest: nat := n - i - 1;
    assert width * n == width * i + width * rest + width;
    assert width * rest >= 0;
  }

  /** With every block `width` long, the blocks laid end to end are
      `width` times as many elements. */
  lemma {:induction false} FlattenLength<T>(blocks: seq<seq<T>>, width: nat)
    requires forall b :: 0 <= b < |blocks| ==> |blocks[b]| == width
    ensures |Flatten(blocks)| == width * |blocks|
    decreases |blocks|
  {
    if blocks != [] {
      FlattenLength(blocks[..|blocks| - 1], width);
      RowStep(width, |blocks| - 1);
    }
  }

  /** With every block `width` long, element `j` of block `i` sits at
      `width * i + j`. */
  lemma {:induction false} FlattenAt<T>(blocks: seq<seq<T>>, width: nat, i: nat, j: nat)
    requires forall b :: 0 <= b < |blocks| ==> |blocks[b]| == width
    requires i < |blocks| && j < width
    ensures width * i + j < |Flatten(blocks)|
    ensures Flatten(blocks)[width * i + j] == blocks[i][j]
    decreases |blocks|
  {
    FlattenLength(blocks, width);
    RowBound(width, i, |blocks|, j);
    var init := blocks[..|blocks| - 1];
    FlattenLength(init, width);
    if i < |blocks| - 1 {
      FlattenAt(init, width, i, j);
    } else {
      assert width * i == |Flatten(init)|;
    }
  }

  /** Whatever holds of every element of every block holds of every element
      of the flattened list. */
  lemma {:induction false} FlattenAll<T>(blocks: seq<seq<T>>, p: T -> bool)
    requires forall b, k :: 0 <= b < |blocks| && 0 <= k < |blocks[b]| ==> p(blocks[b][k])
    ensures forall k :: 0 <= k < |Flatten(blocks)| ==> p(Flatten(blocks)[k])
    decreases |blocks|
  {
    if blocks != [] {
      FlattenAll(blocks[..|blocks| - 1], p);
    }
  }

  /** Joining the flattened blocks is joining the joined blocks, when no
      block is empty. */
  lemma {:induction false} JoinFlatten(texts: seq<string>, blocks: seq<seq<string>>, sep: string)
    requires |texts| == |blocks|
    requires forall b :: 0 <= b < |blocks| ==> blocks[b] != [] && texts[b] == Join(blocks[b], sep)
    ensures Join(texts, sep) == Join(Flatten(blocks), sep)
    decreases |blocks|
  {
    if |blocks| > 1 {
      var n := |blocks| - 1;
      JoinFlatten(texts[..n], blocks[..n], sep);
      assert blocks[..n][n - 1] == blocks[n - 1] != [];
      JoinConcat(Flatten(blocks[..n]), blocks[n], sep);
    } else if |blocks| == 1 {
      assert Flatten(blocks) == Flatten(blocks[..0]) + blocks[0] == blocks[0];
    }
  }

  /** Counting down to blocks of one width and laying them end to end puts
      element `j` of the block for `starting - i` at `width * i + j`. */
  lemma FlattenCountdownAt<T>(f: int -> seq<T>, width: nat, starting: int, ending: int, i: nat, j: nat)
    requires forall c :: |f(c)| == width
    requires ending <= starting && i <= starting - ending && j < width
    ensures |Flatten(Countdown(f, starting, ending))| == width * (starting - ending + 1)
    ensures width * i + j < width * (starting - ending + 1)
    ensures Flatten(Countdown(f, starting, ending))[width * i + j] == f(starting - i)[j]
  {
    var blocks := Countdown(f, starting, ending);
    forall b | 0 <= b < |blocks|
      ensures |blocks[b]| == width
    {
      CountdownAt(f, starting, ending, b);
    }
    FlattenLength(blocks, width);
    FlattenAt(blocks, width, i, j);
    CountdownAt(f, starting, ending, i);
  }

  /** Counting down with `f` and joining gives the same text as counting
      down with `g`, laying the blocks end to end and joining, when every
      `f(c)` is the join of the non-empty block `g(c)`. */
  lemma JoinFlattenCountdown(f: int -> string, g: int -> seq<string>, sep: string, starting: int, ending: int)
    requires forall c :: g(c) != [] && f(c) == Join(g(c), sep)
    requires ending <= starting
    ensures Join(Countdown(f, starting, ending), sep) == Join(Flatten(Countdown(g, starting, ending)), sep)
  {
    var texts, blocks := Countdown(f, starting, ending), Countdown(g, starting, ending);
    forall b | 0 <= b < |blocks|
      ensures blocks[b] != [] && texts[b] == Join(blocks[b], sep)
    {
      CountdownAt(f, starting, ending, b);
      CountdownAt(g, starting, ending, b);
    }
    JoinFlatten(texts, blocks, sep);
  }

  /** What holds of every element of every block `g(c)` holds of every
      element of the blocks counted down and laid end to end. */
  lemma FlattenCountdownAll<T>(g: int -> seq<T>, p: T -> bool, starting: int, ending: int)
    requires forall c, k :: 0 <= k < |g(c)| ==> p(g(c)[k])
    requires ending <= starting
    ensures forall k :: 0 <= k < |Flatten(Countdown(g, starting, ending))| ==>
      p(Flatten(Countdown(g, starting, ending))[k])
  {
    var blocks := Countdown(g, starting, ending);
    forall b, k | 0 <= b < |blocks| && 0 <= k < |blocks[b]|
      ensures p(blocks[b][k])
    {
      CountdownAt(g, starting, ending, b);
    }
    FlattenAll(blocks, p);
  }
}
