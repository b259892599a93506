/**
 * The list-building loop shape the agent uses throughout: walk a list,
 * append zero or one output per element (`for i, x in enumerate(xs): if ...:
 * out.append(...)`).
 */
module Seqs {
  import opened Wrappers

  /** Zero or one output as a list. */
  function AsSeq<U>(o: Option<U>): seq<U> {
    match o
    case Some(y) => [y]
    case None => []
  }

  /** The outputs of the first `n` elements, in order; `f` sees the 0-based index. */
  function FilterMapUpTo<T, U>(f: (nat, T) -> Option<U>, xs: seq<T>, n: nat): (r: seq<U>)
    requires n <= |xs|
    ensures |r| <= n
  {
    if n == 0 then []
    else FilterMapUpTo(f, xs, n - 1) + AsSeq(f(n - 1, xs[n - 1]))
  }

  /** One more element adds its output, if any. */
  lemma FilterMapNext<T, U>(f: (nat, T) -> Option<U>, xs: seq<T>, i: nat)
    requires i < |xs|
    ensures FilterMapUpTo(f, xs, i + 1) == FilterMapUpTo(f, xs, i) + AsSeq(f(i, xs[i]))
  {
  }

  function FilterMap<T, U>(f: (nat, T) -> Option<U>, xs: seq<T>): seq<U> {
    FilterMapUpTo(f, xs, |xs|)
  }

  /** The first `limit` outputs (all of them when there are fewer). */
  function TakeOutputs<T, U>(f: (nat, T) -> Option<U>, xs: seq<T>, limit: nat): (r: seq<U>)
    ensures |r| <= limit
  {
    var all := FilterMap(f, xs);
    if |all| <= limit then all else all[..limit]
  }

  /** The list-building loop that stops once it holds `limit` outputs
      (`out.append(y); if len(out) >= limit: break`). */
  method CollectOutputs<T, U>(f: (nat, T) -> Option<U>, xs: seq<T>, limit: nat) returns (out: seq<U>)
    requires limit > 0
    ensures out == TakeOutputs(f, xs, limit)
  {
    out := [];
    var i := 0;
    while i < |xs|
      invariant 0 <= i <= |xs|
      invariant out == FilterMapUpTo(f, xs, i) && |out| < limit
    {
      out := out + AsSeq(f(i, xs[i]));
      if |out| >= limit {
        FilterMapPrefix(f, xs, i + 1, |xs|);
        return;
      }
      i := i + 1;
    }
  }

  /** The outputs keep the elements' order: those of a longer prefix extend those of a shorter one. */
  lemma {:induction false} FilterMapPrefix<T, U>(f: (nat, T) -> Option<U>, xs: seq<T>, n: nat, m: nat)
    requires n <= m <= |xs|
    ensures |FilterMapUpTo(f, xs, n)| <= |FilterMapUpTo(f, xs, m)|
    ensures FilterMapUpTo(f, xs, m)[..|FilterMapUpTo(f, xs, n)|] == FilterMapUpTo(f, xs, n)
    decreases m - n
  {
    if n < m {
      FilterMapPrefix(f, xs, n, m - 1);
      var a := FilterMapUpTo(f, xs, m - 1);
      var k := |FilterMapUpTo(f, xs, n)|;
      assert FilterMapUpTo(f, xs, m)[..k] == a[..k];
    }
  }

  /** An element's output sits right after the outputs of the elements before it. */
  lemma FilterMapAt<T, U>(f: (nat, T) -> Option<U>, xs: seq<T>, n: nat, i: nat)
    requires i < n <= |xs| && f(i, xs[i]).Some?
    ensures |FilterMapUpTo(f, xs, i)| < |FilterMapUpTo(f, xs, n)|
    ensures FilterMapUpTo(f, xs, n)[|FilterMapUpTo(f, xs, i)|] == f(i, xs[i]).value
  {
    FilterMapPrefix(f, xs, i + 1, n);
    FilterMapNext(f, xs, i);
  }

  /** Every output comes from some element. */
  lemma {:induction false} FilterMapFrom<T, U>(f: (nat, T) -> Option<U>, xs: seq<T>, n: nat, y: U) returns (i: nat)
    requires n <= |xs| && y in FilterMapUpTo(f, xs, n)
    ensures i < n && f(i, xs[i]) == Some(y)
  {
    if y in FilterMapUpTo(f, xs, n - 1) {
      i := FilterMapFrom(f, xs, n - 1, y);
    } else {
      i := n - 1;
    }
  }

  /** Every element with an output contributes it. */
  lemma {:induction false} FilterMapHas<T, U>(f: (nat, T) -> Option<U>, xs: seq<T>, n: nat, i: nat)
    requires n <= |xs| && i < n && f(i, xs[i]).Some?
    ensures f(i, xs[i]).value in FilterMapUpTo(f, xs, n)
  {
    if i < n - 1 {
      FilterMapHas(f, xs, n - 1, i);
    }
  }

  /** Exactly the elements' outputs, in both directions. */
  lemma FilterMapMembers<T, U>(f: (nat, T) -> Option<U>, xs: seq<T>, y: U)
    ensures y in FilterMap(f, xs) <==> exists i :: 0 <= i < |xs| && f(i, xs[i]) == Some(y)
  {
    if y in FilterMap(f, xs) {
      var i := FilterMapFrom(f, xs, |xs|, y);
    }
    if exists i :: 0 <= i < |xs| && f(i, xs[i]) == Some(y) {
      var i :| 0 <= i < |xs| && f(i, xs[i]) == Some(y);
      FilterMapHas(f, xs, |xs|, i);
    }
  }

  /** When every element has an output there is one output per element. */
  lemma {:induction false} FilterMapTotal<T, U>(f: (nat, T) -> Option<U>, xs: seq<T>, n: nat)
    requires n <= |xs| && forall i :: 0 <= i < n ==> f(i, xs[i]).Some?
    ensures |FilterMapUpTo(f, xs, n)| == n
  {
    if n > 0 {
      FilterMapTotal(f, xs, n - 1);
    }
  }

  /** The outputs of a prefix depend on that prefix only. */
  lemma {:induction false} FilterMapSamePrefix<T, U>(f: (nat, T) -> Option<U>, xs: seq<T>, ys: seq<T>, n: nat)
    requires n <= |xs| && n <= |ys| && xs[..n] == ys[..n]
    ensures FilterMapUpTo(f, xs, n) == FilterMapUpTo(f, ys, n)
  {
    if n > 0 {
      assert xs[..n - 1] == xs[..n][..n - 1] && ys[..n - 1] == ys[..n][..n - 1];
      assert xs[n - 1] == xs[..n][n - 1] && ys[n - 1] == ys[..n][n - 1];
      FilterMapSamePrefix(f, xs, ys, n - 1);
    }
  }

  /** Appending one element appends its output. */
  lemma FilterMapSnoc<T, U>(f: (nat, T) -> Option<U>, xs: seq<T>, x: T)
    ensures FilterMap(f, xs + [x]) == FilterMap(f, xs) + AsSeq(f(|xs|, x))
  {
    assert (xs + [x])[..|xs|] == xs[..|xs|];
    FilterMapSamePrefix(f, xs + [x], xs, |xs|);
    assert (xs + [x])[|xs|] == x;
  }

  /** Appending elements without outputs leaves the outputs as they were. */
  lemma {:induction false} FilterMapExtend<T, U>(f: (nat, T) -> Option<U>, xs: seq<T>, ys: seq<T>)
    requires forall i :: 0 <= i < |ys| ==> f(|xs| + i, ys[i]).None?
    ensures FilterMap(f, xs + ys) == FilterMap(f, xs)
    decreases |ys|
  {
    if ys == [] {
      assert xs + ys == xs;
    } else {
      var zs := ys[..|ys| - 1];
      var y := ys[|ys| - 1];
      assert xs + ys == (xs + zs) + [y];
      assert f(|xs + zs|, y).None? by {
        assert f(|xs| + (|ys| - 1), ys[|ys| - 1]).None?;
      }
      FilterMapSnoc(f, xs + zs, y);
      assert FilterMap(f, xs + ys) == FilterMap(f, xs + zs) + [];
      FilterMapExtend(f, xs, zs);
    }
  }

  /** The output of the last of the first `n` elements that has one
      (a loop over `reversed(xs)` that returns at the first hit). */
  function LastUpTo<T, U>(f: T -> Option<U>, xs: seq<T>, n: nat): Option<U>
    requires n <= |xs|
  {
    if n == 0 then None
    else match f(xs[n - 1])
      case Some(y) => Some(y)
      case None => LastUpTo(f, xs, n - 1)
  }

  /** One more element: its output if it has one, else the earlier hit. */
  lemma LastUpToNext<T, U>(f: T -> Option<U>, xs: seq<T>, i: nat)
    requires i < |xs|
    ensures LastUpTo(f, xs, i + 1) == if f(xs[i]).Some? then f(xs[i]) else LastUpTo(f, xs, i)
  {
  }

  /** The hit is the output of an element after which no element has one;
      with no hit, no element has one. */
  lemma {:induction false} LastUpToSpec<T, U>(f: T -> Option<U>, xs: seq<T>, n: nat) returns (i: nat)
    requires n <= |xs|
    ensures LastUpTo(f, xs, n).Some? ==> (i < n && f(xs[i]) == LastUpTo(f, xs, n)
      && forall j :: i < j < n ==> f(xs[j]).None?)
    ensures LastUpTo(f, xs, n).None? ==> forall j :: 0 <= j < n ==> f(xs[j]).None?
  {
    i := 0;
    if n > 0 {
      if f(xs[n - 1]).Some? {
        i := n - 1;
      } else {
        i := LastUpToSpec(f, xs, n - 1);
      }
    }
  }

  /** Whether one of the first `n` elements satisfies `p` (`any(...)` built up in a loop). */
  predicate AnyUpTo<T>(p: T -> bool, xs: seq<T>, n: nat)
    requires n <= |xs|
  {
    n > 0 && (AnyUpTo(p, xs, n - 1) || p(xs[n - 1]))
  }

  /** One more element: the flag, or that element's test. */
  lemma AnyUpToNext<T>(p: T -> bool, xs: seq<T>, i: nat)
    requires i < |xs|
    ensures AnyUpTo(p, xs, i + 1) == (AnyUpTo(p, xs, i) || p(xs[i]))
  {
  }

  /** The flag holds exactly when some element satisfies `p`. */
  lemma {:induction false} AnyUpToSpec<T>(p: T -> bool, xs: seq<T>, n: nat)
    requires n <= |xs|
    ensures AnyUpTo(p, xs, n) <==> exists i :: 0 <= i < n && p(xs[i])
  {
    if n > 0 {
      AnyUpToSpec(p, xs, n - 1);
    }
  }

  /** Whether all of the first `n` elements satisfy `p`. */
  predicate AllUpTo<T>(p: T -> bool, xs: seq<T>, n: nat)
    requires n <= |xs|
  {
    n == 0 || (AllUpTo(p, xs, n - 1) && p(xs[n - 1]))
  }

  /** One more element: the flag, and that element's test. */
  lemma AllUpToNext<T>(p: T -> bool, xs: seq<T>, i: nat)
    requires i < |xs|
    ensures AllUpTo(p, xs, i + 1) == (AllUpTo(p, xs, i) && p(xs[i]))
  {
  }

  /** The flag holds exactly when every element satisfies `p`. */
  lemma {:induction false} AllUpToSpec<T>(p: T -> bool, xs: seq<T>, n: nat)
    requires n <= |xs|
    ensures AllUpTo(p, xs, n) <==> forall i :: 0 <= i < n ==> p(xs[i])
  {
    if n > 0 {
      AllUpToSpec(p, xs, n - 1);
    }
  }

  /**
   * The scanning loop that raises at the first element failing `ok` and
   * otherwise collects the outputs of `f` and whether some element satisfies
   * `p`. `good` is false where the loop raised.
   */
  method ScanWithFlag<T, U>(ok: T -> bool, f: (nat, T) -> Option<U>, p: T -> bool, xs: seq<T>)
    returns (good: bool, out: seq<U>, flag: bool)
    ensures good <==> AllUpTo(ok, xs, |xs|)
    ensures good ==> out == FilterMap(f, xs) && flag == AnyUpTo(p, xs, |xs|)
  {
    out, flag := [], false;
    var i := 0;
    while i < |xs|
      invariant 0 <= i <= |xs|
      invariant AllUpTo(ok, xs, i)
      invariant out == FilterMapUpTo(f, xs, i) && flag == AnyUpTo(p, xs, i)
    {
      if !ok(xs[i]) {
        AllUpToStops(ok, xs, i + 1, |xs|);
        return false, out, flag;
      }
      out := out + AsSeq(f(i, xs[i]));
      flag := flag || p(xs[i]);
      i := i + 1;
    }
    good := true;
  }

  /** The filtering loop that raises at the first element failing `ok`;
      `good` is false where it raised. */
  method ScanChecked<T, U>(ok: T -> bool, f: (nat, T) -> Option<U>, xs: seq<T>) returns (good: bool, out: seq<U>)
    ensures good <==> AllUpTo(ok, xs, |xs|)
    ensures good ==> out == FilterMap(f, xs)
  {
    out := [];
    var i := 0;
    while i < |xs|
      invariant 0 <= i <= |xs|
      invariant AllUpTo(ok, xs, i)
      invariant out == FilterMapUpTo(f, xs, i)
    {
      if !ok(xs[i]) {
        AllUpToStops(ok, xs, i + 1, |xs|);
        return false, out;
      }
      out := out + AsSeq(f(i, xs[i]));
      i := i + 1;
    }
    good := true;
  }

  /** The filtering loop with two outputs per element, raising at the first
      element failing `ok`. */
  method ScanChecked2<T, U, V>(ok: T -> bool, f: (nat, T) -> Option<U>, g: (nat, T) -> Option<V>, xs: seq<T>)
    returns (good: bool, out1: seq<U>, out2: seq<V>)
    ensures good <==> AllUpTo(ok, xs, |xs|)
    ensures good ==> out1 == FilterMap(f, xs) && out2 == FilterMap(g, xs)
  {
    out1, out2 := [], [];
    var i := 0;
    while i < |xs|
      invariant 0 <= i <= |xs|
      invariant AllUpTo(ok, xs, i)
      invariant out1 == FilterMapUpTo(f, xs, i) && out2 == FilterMapUpTo(g, xs, i)
    {
      if !ok(xs[i]) {
        AllUpToStops(ok, xs, i + 1, |xs|);
        return false, out1, out2;
      }
      out1 := out1 + AsSeq(f(i, xs[i]));
      out2 := out2 + AsSeq(g(i, xs[i]));
      i := i + 1;
    }
    good := true;
  }

  /** A failing element fails every longer prefix. */
  lemma {:induction false} AllUpToStops<T>(p: T -> bool, xs: seq<T>, n: nat, m: nat)
    requires 0 < n <= m <= |xs| && !p(xs[n - 1])
    ensures !AllUpTo(p, xs, m)
    decreases m
  {
    if m > n {
      AllUpToStops(p, xs, n, m - 1);
    }
  }

  /** `pos` places every element of `xs` in `ys`, at increasing positions. */
  ghost predicate Embeds<T>(xs: seq<T>, ys: seq<T>, pos: seq<nat>) {
    && |pos| == |xs|
    && (forall i :: 0 <= i < |xs| ==> pos[i] < |ys| && ys[pos[i]] == xs[i])
    && (forall i, j :: 0 <= i < j < |xs| ==> pos[i] < pos[j])
  }

  /** `xs` is `ys` with some elements left out, in the same order. */
  ghost predicate IsSubsequence<T>(xs: seq<T>, ys: seq<T>) {
    exists pos :: Embeds(xs, ys, pos)
  }

  /** A list-building loop that keeps some elements as they are and drops the
      others outputs them in their order, at positions below `n`. */
  lemma {:induction false} FilterMapEmbeds<T>(f: (nat, T) -> Option<T>, xs: seq<T>, n: nat) returns (pos: seq<nat>)
    requires n <= |xs|
    requires forall i :: 0 <= i < n ==> f(i, xs[i]) == None || f(i, xs[i]) == Some(xs[i])
    ensures Embeds(FilterMapUpTo(f, xs, n), xs, pos)
    ensures forall i :: 0 <= i < |pos| ==> pos[i] < n
  {
    if n == 0 {
      pos := [];
    } else {
      var prev := FilterMapEmbeds(f, xs, n - 1);
      var y := f(n - 1, xs[n - 1]);
      if y.Some? {
        pos := prev + [n - 1];
        assert y == Some(xs[n - 1]);
        assert FilterMapUpTo(f, xs, n) == FilterMapUpTo(f, xs, n - 1) + [xs[n - 1]];
      } else {
        pos := prev;
        assert FilterMapUpTo(f, xs, n) == FilterMapUpTo(f, xs, n - 1);
      }
    }
  }

  /** Every sequence is a subsequence of itself. */
  lemma SubsequenceOfSelf<T>(xs: seq<T>)
    ensures IsSubsequence(xs, xs)
  {
    var id := seq(|xs|, i requires 0 <= i < |xs| => i);
    assert Embeds(xs, xs, id);
  }

  /** Such a loop's output is a subsequence of its input. */
  lemma FilterMapSubsequence<T>(f: (nat, T) -> Option<T>, xs: seq<T>)
    requires forall i :: 0 <= i < |xs| ==> f(i, xs[i]) == None || f(i, xs[i]) == Some(xs[i])
    ensures IsSubsequence(FilterMap(f, xs), xs)
  {
    var pos := FilterMapEmbeds(f, xs, |xs|);
  }

  /** Each key `t` of `cpos` has `mark(t)` at `cpos[t]` in `ys`, ahead of the
      place `pos` gives every element `j` of `xs` with `after(t, j)`. */
  ghost predicate Placed<T, L>(xs: seq<T>, ys: seq<T>, pos: seq<nat>, cpos: map<L, nat>, mark: L -> T, after: (L, nat) -> bool)
    requires |pos| == |xs|
  {
    forall t :: t in cpos ==>
      && cpos[t] < |ys| && ys[cpos[t]] == mark(t)
      && forall j :: 0 <= j < |xs| && after(t, j) ==> cpos[t] < pos[j]
  }

  /** Where the element at `p` moves when one is inserted at `k`. */
  function Shift(p: nat, k: nat): (q: nat)
    ensures p <= q && (p < k ==> q < k) && (k <= p ==> k < q)
  {
    if p < k then p else p + 1
  }

  /** Inserting `x` at `k` puts it there and moves every other element by `Shift`. */
  lemma InsertShift<T>(ys: seq<T>, k: nat, x: T)
    requires k <= |ys|
    ensures |ys[..k] + [x] + ys[k..]| == |ys| + 1 && (ys[..k] + [x] + ys[k..])[k] == x
    ensures forall p :: 0 <= p < |ys| ==> (ys[..k] + [x] + ys[k..])[Shift(p, k)] == ys[p]
  {
  }

  /** Inserting `mark(t)` at `k`, no later than every element it must precede,
      keeps `xs` embedded (no position moving down) and places `t`. */
  lemma InsertPlaced<T, L>(xs: seq<T>, ys: seq<T>, pos: seq<nat>, cpos: map<L, nat>, mark: L -> T, after: (L, nat) -> bool, t: L, k: nat)
      returns (pos': seq<nat>, cpos': map<L, nat>)
    requires k <= |ys| && Embeds(xs, ys, pos) && Placed(xs, ys, pos, cpos, mark, after)
    requires forall j :: 0 <= j < |xs| && after(t, j) ==> k <= pos[j]
    ensures Embeds(xs, ys[..k] + [mark(t)] + ys[k..], pos')
    ensures Placed(xs, ys[..k] + [mark(t)] + ys[k..], pos', cpos', mark, after)
    ensures cpos.Keys + {t} <= cpos'.Keys
    ensures forall i :: 0 <= i < |pos| ==> pos[i] <= pos'[i]
  {
    var ys' := ys[..k] + [mark(t)] + ys[k..];
    InsertShift(ys, k, mark(t));
    pos' := seq(|pos|, i requires 0 <= i < |pos| => Shift(pos[i], k));
    cpos' := (map s | s in cpos :: Shift(cpos[s], k))[t := k];
    assert Embeds(xs, ys', pos');
    forall s | s in cpos'
      ensures cpos'[s] < |ys'| && ys'[cpos'[s]] == mark(s)
      ensures forall j :: 0 <= j < |xs| && after(s, j) ==> cpos'[s] < pos'[j]
    {
      if s != t {
        assert cpos'[s] == Shift(cpos[s], k);
      }
    }
  }

  /** `pos` embeds `xs` in `ys` without moving any element down, and `cpos`
      places each of its keys. */
  ghost predicate Tracks<T, L>(xs: seq<T>, ys: seq<T>, pos: seq<nat>, cpos: map<L, nat>, mark: L -> T, after: (L, nat) -> bool) {
    && Embeds(xs, ys, pos) && (forall i :: 0 <= i < |pos| ==> i <= pos[i])
    && Placed(xs, ys, pos, cpos, mark, after)
  }

  /** Inserting `mark(t)` at `k` keeps the tracking and places `t` when `k`
      comes no later than any element from `lo` on that `run` holds of, and
      `t` must precede only such elements. */
  lemma InsertTracks<T, L>(xs: seq<T>, ys: seq<T>, pos: seq<nat>, cpos: map<L, nat>, mark: L -> T, after: (L, nat) -> bool,
                           run: T -> bool, lo: nat, t: L, k: nat)
      returns (pos': seq<nat>, cpos': map<L, nat>)
    requires Tracks(xs, ys, pos, cpos, mark, after) && k <= |ys|
    requires forall p :: lo <= p < |ys| && run(ys[p]) ==> k <= p
    requires forall j :: 0 <= j < |xs| && after(t, j) ==> lo <= j && run(xs[j])
    ensures Tracks(xs, ys[..k] + [mark(t)] + ys[k..], pos', cpos', mark, after)
    ensures cpos.Keys + {t} <= cpos'.Keys
  {
    forall j | 0 <= j < |xs| && after(t, j)
      ensures k <= pos[j]
    {
      assert ys[pos[j]] == xs[j];
    }
    pos', cpos' := InsertPlaced(xs, ys, pos, cpos, mark, after, t, k);
  }
}
