/**
 * The last two passes of `finalize_answer` over a non-empty batch
 * (graph.py:1657-1711): when the batch both creates images and creates a
 * `composeVideo`, runs of the video nodes are dropped so the video waits for
 * its frames; then every image the batch creates is run, unless the batch
 * already runs it.
 *
 * Both passes run after the new-character confirmation, which has already
 * read every create's arguments; so the methods take `CreatesOk` as given.
 * Python builds sets of labels where the model keeps lists: only membership
 * and emptiness of those sets are ever read.
 */
module Sequencing {
  import opened Wrappers
  import opened Strings
  import opened Json
  import opened Seqs
  import opened Calls

  /** The stripped label of a create of type `image` or `textToImage` with a
      non-blank label (graph.py:1664-1669, 1693-1701). */
  function CreatedImageAt(i: nat, c: ToolCall): Option<string> {
    if CreatesType(c, "image") || CreatesType(c, "textToImage") then LabelOf(c) else None
  }

  /** The stripped label of a `composeVideo` create with a non-blank label (graph.py:1664-1671). */
  function CreatedVideoAt(i: nat, c: ToolCall): Option<string> {
    if CreatesType(c, "composeVideo") then LabelOf(c) else None
  }

  /** The labels of the images the batch creates, in order. */
  function CreatedImages(calls: seq<ToolCall>): seq<string> {
    FilterMap(CreatedImageAt, calls)
  }

  /** The labels of the videos the batch creates, in order. */
  function CreatedVideos(calls: seq<ToolCall>): seq<string> {
    FilterMap(CreatedVideoAt, calls)
  }

  /** A run whose stripped `nodeId` names one of `videos`. */
  predicate PrematureRun(c: ToolCall, videos: seq<string>) {
    IsRun(c) && RunTarget(c).Some? && RunTarget(c).value in videos
  }

  // ---------------------------------------------------------------------
  // Dropping premature video runs

  /** The first `n` calls without the premature runs, in order. */
  function KeepUpTo(calls: seq<ToolCall>, videos: seq<string>, n: nat): (r: seq<ToolCall>)
    requires n <= |calls|
    ensures |r| <= n
  {
    if n == 0 then []
    else KeepUpTo(calls, videos, n - 1) + (if PrematureRun(calls[n - 1], videos) then [] else [calls[n - 1]])
  }

  /** Filtering keeps order: the kept calls before a cut come first, then the
      kept calls after it. */
  lemma {:induction false} KeepSplit(calls: seq<ToolCall>, videos: seq<string>, m: nat, n: nat)
    requires m <= n <= |calls|
    ensures KeepUpTo(calls, videos, n) == KeepUpTo(calls, videos, m) + KeepUpTo(calls[m..], videos, n - m)
    decreases n
  {
    if n > m {
      KeepSplit(calls, videos, m, n - 1);
      assert calls[m..][n - 1 - m] == calls[n - 1];
    }
  }

  /** graph.py:1657-1681. Reading a run's `nodeId` raises when its arguments
      are not a dict; the comprehension then never replaces the batch. */
  function DropPremature(calls: seq<ToolCall>): Pass {
    var videos := CreatedVideos(calls);
    if CreatedImages(calls) == [] || videos == [] then Continue(calls)
    else if !RunsOk(calls) then Raise(calls, AttributeError)
    else Continue(KeepUpTo(calls, videos, |calls|))
  }

  /** The kept calls are the calls with every premature run removed: each
      other call occurs as often as before, a premature run not at all. */
  lemma {:induction false} KeepCounts(calls: seq<ToolCall>, videos: seq<string>, n: nat, c: ToolCall)
    requires n <= |calls|
    ensures multiset(KeepUpTo(calls, videos, n))[c] == if PrematureRun(c, videos) then 0 else multiset(calls[..n])[c]
  {
    if n > 0 {
      KeepCounts(calls, videos, n - 1, c);
      assert calls[..n] == calls[..n - 1] + [calls[n - 1]];
    }
  }

  /** A list without premature runs keeps every call. */
  lemma {:induction false} KeepAll(calls: seq<ToolCall>, videos: seq<string>, n: nat)
    requires n <= |calls| && forall i :: 0 <= i < n ==> !PrematureRun(calls[i], videos)
    ensures KeepUpTo(calls, videos, n) == calls[..n]
  {
    if n > 0 {
      KeepAll(calls, videos, n - 1);
      assert calls[..n] == calls[..n - 1] + [calls[n - 1]];
    }
  }

  /** Removing calls that have no output leaves the outputs of `f` as they
      were, when `f` does not look at the index. */
  lemma {:induction false} KeepOutputs(f: (nat, ToolCall) -> Option<string>, calls: seq<ToolCall>, videos: seq<string>, n: nat)
    requires n <= |calls|
    requires forall i: nat, j: nat, c :: f(i, c) == f(j, c)
    requires forall i: nat, c :: PrematureRun(c, videos) ==> f(i, c).None?
    ensures FilterMap(f, KeepUpTo(calls, videos, n)) == FilterMapUpTo(f, calls, n)
  {
    if n > 0 {
      KeepOutputs(f, calls, videos, n - 1);
      var k := KeepUpTo(calls, videos, n - 1);
      var c := calls[n - 1];
      assert f(|k|, c) == f(n - 1, c);
      if PrematureRun(c, videos) {
        assert f(n - 1, c).None?;
        assert KeepUpTo(calls, videos, n) == k;
        assert FilterMapUpTo(f, calls, n) == FilterMapUpTo(f, calls, n - 1) + [];
      } else {
        FilterMapSnoc(f, k, c);
      }
    }
  }

  function NotPrematureAt(videos: seq<string>): (nat, ToolCall) -> Option<ToolCall> {
    (i: nat, c: ToolCall) => if PrematureRun(c, videos) then None else Some(c)
  }

  /** The kept calls are those the filter lets through, so they keep their order. */
  lemma {:induction false} KeepIsFilter(calls: seq<ToolCall>, videos: seq<string>, n: nat)
    requires n <= |calls|
    ensures KeepUpTo(calls, videos, n) == FilterMapUpTo(NotPrematureAt(videos), calls, n)
  {
    if n > 0 {
      KeepIsFilter(calls, videos, n - 1);
      FilterMapNext(NotPrematureAt(videos), calls, n - 1);
    }
  }

  lemma KeepInOrder(calls: seq<ToolCall>, videos: seq<string>)
    ensures IsSubsequence(KeepUpTo(calls, videos, |calls|), calls)
  {
    KeepIsFilter(calls, videos, |calls|);
    FilterMapSubsequence(NotPrematureAt(videos), calls);
  }

  /** The drop removes only runs, so the batch still creates the same images and videos. */
  lemma KeepCreated(calls: seq<ToolCall>, videos: seq<string>)
    ensures CreatedImages(KeepUpTo(calls, videos, |calls|)) == CreatedImages(calls)
    ensures CreatedVideos(KeepUpTo(calls, videos, |calls|)) == CreatedVideos(calls)
  {
    KeepOutputs(CreatedImageAt, calls, videos, |calls|);
    KeepOutputs(CreatedVideoAt, calls, videos, |calls|);
  }

  /** Where a batch creates both images and videos, the pass removes exactly
      the runs of the video labels and keeps every other call as often as
      before, in its order; it raises, with the batch untouched, exactly when some run then
      has unreadable arguments. A batch lacking either keeps everything. */
  lemma DropPrematureSpec(calls: seq<ToolCall>, c: ToolCall)
    ensures var active := CreatedImages(calls) != [] && CreatedVideos(calls) != [];
      && (DropPremature(calls).Raise? <==> active && !RunsOk(calls))
      && (DropPremature(calls).Raise? ==> DropPremature(calls) == Raise(calls, AttributeError))
      && (!active ==> DropPremature(calls) == Continue(calls))
      && (DropPremature(calls).Continue? ==>
            var r := DropPremature(calls).calls;
            && multiset(r)[c] == (if active && PrematureRun(c, CreatedVideos(calls)) then 0 else multiset(calls)[c])
            && CreatedImages(r) == CreatedImages(calls)
            && CreatedVideos(r) == CreatedVideos(calls))
    ensures DropPremature(calls).Continue? ==> IsSubsequence(DropPremature(calls).calls, calls)
  {
    assert calls[..|calls|] == calls;
    KeepInOrder(calls, CreatedVideos(calls));
    SubsequenceOfSelf(calls);
    KeepCounts(calls, CreatedVideos(calls), |calls|, c);
    KeepCreated(calls, CreatedVideos(calls));
  }

  /** No run of a video label is left after the drop, and dropping again changes nothing. */
  lemma DropPrematureIdempotent(calls: seq<ToolCall>)
    requires DropPremature(calls).Continue?
    ensures var r := DropPremature(calls).calls;
      && (CreatedImages(calls) != [] ==> forall i :: 0 <= i < |r| ==> !PrematureRun(r[i], CreatedVideos(calls)))
      && DropPremature(r) == Continue(r)
  {
    var videos := CreatedVideos(calls);
    var r := DropPremature(calls).calls;
    if CreatedImages(calls) != [] && videos != [] {
      KeepCreated(calls, videos);
      forall i | 0 <= i < |r|
        ensures !PrematureRun(r[i], videos) && (IsRun(r[i]) ==> ArgsOk(r[i]))
      {
        KeepCounts(calls, videos, |calls|, r[i]);
        assert calls[..|calls|] == calls;
        assert r[i] in multiset(r);
      }
      KeepAll(r, videos, |r|);
      assert r[..|r|] == r;
    }
  }

  /** What the first loop of graph.py:1660-1671 reads from one call. */
  method ReadCreated(i: nat, c: ToolCall) returns (img: Option<string>, vid: Option<string>)
    ensures img == CreatedImageAt(i, c) && vid == CreatedVideoAt(i, c)
  {
    img, vid := None, None;
    if c.name != CreateNode || Args(c).None? {
      return;
    }
    var args := Args(c).value;
    var nodeType := Get(args, "type");
    var raw := Get(args, "label");
    if !raw.JStr? || Strip(raw.s) == [] {
      return;
    }
    if nodeType == JStr("image") || nodeType == JStr("textToImage") {
      img := Some(Strip(raw.s));
    }
    if nodeType == JStr("composeVideo") {
      vid := Some(Strip(raw.s));
    }
  }

  /** The first loop of graph.py:1657-1671: the image and video labels the batch creates. */
  method CollectCreated(calls: seq<ToolCall>) returns (images: seq<string>, videos: seq<string>)
    requires CreatesOk(calls)
    ensures images == CreatedImages(calls) && videos == CreatedVideos(calls)
  {
    images, videos := [], [];
    var i := 0;
    while i < |calls|
      invariant 0 <= i <= |calls|
      invariant images == FilterMapUpTo(CreatedImageAt, calls, i)
      invariant videos == FilterMapUpTo(CreatedVideoAt, calls, i)
    {
      FilterMapNext(CreatedImageAt, calls, i);
      FilterMapNext(CreatedVideoAt, calls, i);
      var img, vid := ReadCreated(i, calls[i]);
      images := images + AsSeq(img);
      videos := videos + AsSeq(vid);
      i := i + 1;
    }
  }

  /** The comprehension of graph.py:1673-1681: the batch without the runs of
      `videos`, or a raise where a run's arguments are unreadable. */
  method KeepOnTime(calls: seq<ToolCall>, videos: seq<string>) returns (p: Pass)
    ensures p == if RunsOk(calls) then Continue(KeepUpTo(calls, videos, |calls|)) else Raise(calls, AttributeError)
  {
    var kept: seq<ToolCall> := [];
    var i := 0;
    while i < |calls|
      invariant 0 <= i <= |calls|
      invariant kept == KeepUpTo(calls, videos, i)
      invariant forall j :: 0 <= j < i && IsRun(calls[j]) ==> ArgsOk(calls[j])
    {
      var c := calls[i];
      if c.name == RunNode {
        var args := Args(c);
        if args.None? {
          return Raise(calls, AttributeError);
        }
        var nid := Get(args.value, "nodeId");
        if nid.JStr? && Strip(nid.s) in videos {
          i := i + 1;
          continue;
        }
      }
      kept := kept + [c];
      i := i + 1;
    }
    return Continue(kept);
  }

  /** graph.py:1657-1681 as the source runs it. */
  method DropPrematureVideoRuns(calls: seq<ToolCall>) returns (p: Pass)
    requires CreatesOk(calls)
    ensures p == DropPremature(calls)
  {
    var images, videos := CollectCreated(calls);
    if images == [] || videos == [] {
      return Continue(calls);
    }
    p := KeepOnTime(calls, videos);
  }

  // ---------------------------------------------------------------------
  // Automatic runs

  /** The stripped `nodeId` of a run, when it is a non-blank string (graph.py:1687-1691). */
  function RunningAt(i: nat, c: ToolCall): Option<string> {
    if IsRun(c) && RunTarget(c).Some? && RunTarget(c).value != [] then RunTarget(c) else None
  }

  /** The labels the batch already runs. */
  function Running(calls: seq<ToolCall>): seq<string> {
    FilterMap(RunningAt, calls)
  }

  /** A run for each of the first `n` labels that is not running yet, in order
      (graph.py:1702-1711); `running` is not updated, so a label that occurs
      twice gets two runs. */
  function AutoRunsFor(labels: seq<string>, running: seq<string>, n: nat): (r: seq<ToolCall>)
    requires n <= |labels|
    ensures |r| <= n
  {
    if n == 0 then []
    else AutoRunsFor(labels, running, n - 1) + (if labels[n - 1] in running then [] else [RunCall(labels[n - 1])])
  }

  /** graph.py:1683-1711. Reading a run's arguments raises before anything is appended. */
  function AutoRuns(calls: seq<ToolCall>): Pass {
    if !RunsOk(calls) then Raise(calls, AttributeError)
    else
      var labels := CreatedImages(calls);
      Continue(calls + AutoRunsFor(labels, Running(calls), |labels|))
  }

  /** The appended calls are exactly the runs of the labels not yet running. */
  lemma {:induction false} AutoRunsForSpec(labels: seq<string>, running: seq<string>, n: nat, c: ToolCall)
    requires n <= |labels|
    ensures c in AutoRunsFor(labels, running, n) <==> exists i :: 0 <= i < n && labels[i] !in running && c == RunCall(labels[i])
    ensures forall k :: 0 <= k < |AutoRunsFor(labels, running, n)| ==> IsRun(AutoRunsFor(labels, running, n)[k])
  {
    if n > 0 {
      AutoRunsForSpec(labels, running, n - 1, c);
      var prev := AutoRunsFor(labels, running, n - 1);
      if labels[n - 1] in running {
        assert AutoRunsFor(labels, running, n) == prev + [];
      }
    }
  }

  /** A created image's label is stripped and not blank, so its run reads back as that label. */
  lemma CreatedImageRun(calls: seq<ToolCall>, l: string)
    requires l in CreatedImages(calls)
    ensures l != [] && RunTarget(RunCall(l)) == Some(l) && RunningAt(0, RunCall(l)) == Some(l)
  {
    var i := FilterMapFrom(CreatedImageAt, calls, |calls|, l);
    StripIdempotent(Arg(calls[i], "label").s);
    RunCallTarget(l);
  }

  /** The added runs are not creates: the batch still creates the same images. */
  lemma AutoRunsKeepCreated(calls: seq<ToolCall>, runs: seq<ToolCall>)
    requires forall k :: 0 <= k < |runs| ==> IsRun(runs[k])
    ensures CreatedImages(calls + runs) == CreatedImages(calls)
  {
    FilterMapExtend(CreatedImageAt, calls, runs);
  }

  /** Where it gets through, the pass keeps the batch as its prefix and adds
      only runs of created images that were not running; afterwards every
      image the batch creates is running. It raises, with the batch
      untouched, exactly when some run has unreadable arguments. */
  lemma AutoRunsSpec(calls: seq<ToolCall>, c: ToolCall)
    ensures AutoRuns(calls).Raise? <==> !RunsOk(calls)
    ensures AutoRuns(calls).Raise? ==> AutoRuns(calls) == Raise(calls, AttributeError)
    ensures AutoRuns(calls).Continue? ==>
      var r := AutoRuns(calls).calls;
      && |calls| <= |r| && r[..|calls|] == calls
      && (c in r[|calls|..] <==> exists l :: l in CreatedImages(calls) && l !in Running(calls) && c == RunCall(l))
      && (forall l :: l in CreatedImages(calls) ==> l in Running(r))
  {
    if RunsOk(calls) {
      var labels := CreatedImages(calls);
      var added := AutoRunsFor(labels, Running(calls), |labels|);
      var r := calls + added;
      assert r[..|calls|] == calls && r[|calls|..] == added;
      AutoRunsForSpec(labels, Running(calls), |labels|, c);
      forall l | l in labels
        ensures l in Running(r)
      {
        CreatedImageRun(calls, l);
        var i :| 0 <= i < |labels| && labels[i] == l;
        if l in Running(calls) {
          FilterMapExtendRunning(calls, added, l);
        } else {
          AutoRunsForSpec(labels, Running(calls), |labels|, RunCall(l));
          var k :| 0 <= k < |added| && added[k] == RunCall(l);
          assert r[|calls| + k] == RunCall(l);
          FilterMapMembers(RunningAt, r, l);
        }
      }
    }
  }

  /** A label running before the runs were appended is still running. */
  lemma FilterMapExtendRunning(calls: seq<ToolCall>, added: seq<ToolCall>, l: string)
    requires l in Running(calls)
    ensures l in Running(calls + added)
  {
    var i := FilterMapFrom(RunningAt, calls, |calls|, l);
    assert (calls + added)[i] == calls[i];
    FilterMapMembers(RunningAt, calls + added, l);
  }

  /** Running the pass on its own result adds nothing. */
  lemma AutoRunsIdempotent(calls: seq<ToolCall>)
    requires AutoRuns(calls).Continue?
    ensures AutoRuns(AutoRuns(calls).calls) == Continue(AutoRuns(calls).calls)
  {
    var labels := CreatedImages(calls);
    var added := AutoRunsFor(labels, Running(calls), |labels|);
    var r := calls + added;
    AutoRunsSpec(calls, RunCall(""));
    AutoRunsForSpec(labels, Running(calls), |labels|, RunCall(""));
    AutoRunsKeepCreated(calls, added);
    forall k | 0 <= k < |r| && IsRun(r[k])
      ensures ArgsOk(r[k])
    {
      if k >= |calls| {
        AutoRunsForSpec(labels, Running(calls), |labels|, r[k]);
        assert r[k] in added;
        var i :| 0 <= i < |labels| && labels[i] !in Running(calls) && r[k] == RunCall(labels[i]);
        CreatedImageRun(calls, labels[i]);
      }
    }
    NoneMissing(labels, Running(r), |labels|);
    assert r + [] == r;
  }

  /** When every label is running, no run is added. */
  lemma {:induction false} NoneMissing(labels: seq<string>, running: seq<string>, n: nat)
    requires n <= |labels| && forall i :: 0 <= i < n ==> labels[i] in running
    ensures AutoRunsFor(labels, running, n) == []
  {
    if n > 0 {
      NoneMissing(labels, running, n - 1);
    }
  }

  /** Two image creates with the same label and no runs get two identical runs. */
  lemma DuplicateAutoRuns(a: ToolCall, b: ToolCall, l: string)
    requires CreatedImageAt(0, a) == Some(l) && CreatedImageAt(1, b) == Some(l)
    ensures AutoRuns([a, b]) == Continue([a, b, RunCall(l), RunCall(l)])
  {
    var calls := [a, b];
    assert FilterMapUpTo(CreatedImageAt, calls, 1) == [l];
    assert CreatedImages(calls) == [l, l];
    assert FilterMapUpTo(RunningAt, calls, 1) == [];
    assert Running(calls) == [];
    assert AutoRunsFor([l, l], [], 1) == [RunCall(l)];
  }

  /** The first loop of graph.py:1683-1701: the labels the batch runs and
      the image labels it creates, or `ok == false` where a run's arguments
      are unreadable. */
  method CollectRunsAndImages(calls: seq<ToolCall>) returns (ok: bool, running: seq<string>, labels: seq<string>)
    requires CreatesOk(calls)
    ensures ok <==> RunsOk(calls)
    ensures ok ==> running == Running(calls) && labels == CreatedImages(calls)
  {
    ok, running, labels := ScanChecked2(RunOk, RunningAt, CreatedImageAt, calls);
    RunsOkUpTo(calls);
  }

  /** graph.py:1683-1711 as the source runs it. */
  method AppendAutoRuns(calls: seq<ToolCall>) returns (p: Pass)
    requires CreatesOk(calls)
    ensures p == AutoRuns(calls)
  {
    var ok, running, labels := CollectRunsAndImages(calls);
    if !ok {
      return Raise(calls, AttributeError);
    }
    var out := calls;
    var k := 0;
    while k < |labels|
      invariant 0 <= k <= |labels|
      invariant out == calls + AutoRunsFor(labels, running, k)
    {
      if labels[k] !in running {
        out := out + [RunCall(labels[k])];
      }
      k := k + 1;
    }
    return Continue(out);
  }

  /** The drop only removes calls, so every create stays readable. */
  lemma DropPrematureCreatesOk(calls: seq<ToolCall>)
    requires CreatesOk(calls) && DropPremature(calls).Continue?
    ensures CreatesOk(DropPremature(calls).calls)
  {
    var r := DropPremature(calls).calls;
    forall i | 0 <= i < |r| && IsCreate(r[i])
      ensures ArgsOk(r[i])
    {
      DropPrematureSpec(calls, r[i]);
      assert r[i] in multiset(r);
      assert r[i] in multiset(calls);
      var j :| 0 <= j < |calls| && calls[j] == r[i];
    }
  }

  /** The pass appends only runs, so every create stays readable. */
  lemma AutoRunsCreatesOk(calls: seq<ToolCall>)
    requires CreatesOk(calls) && AutoRuns(calls).Continue?
    ensures CreatesOk(AutoRuns(calls).calls)
  {
    var labels := CreatedImages(calls);
    var added := AutoRunsFor(labels, Running(calls), |labels|);
    var r := calls + added;
    AutoRunsForSpec(labels, Running(calls), |labels|, RunCall(""));
    forall i | 0 <= i < |r|
      ensures IsCreate(r[i]) ==> ArgsOk(r[i])
    {
      if i >= |calls| {
        assert r[i] == added[i - |calls|] && IsRun(added[i - |calls|]);
      }
    }
  }
}
