/**
 * General reference continuity (graph.py:1556-1655): when the user builds on
 * earlier results, every newly created image without an inbound connection
 * gets one from the latest finished image on the canvas, inserted in front of
 * the first run of its label found from the create's index plus one on,
 * otherwise at that index.
 *
 * The loop walks a copy of the batch taken before any insertion, but searches
 * and inserts into the live batch with the copy's indices; the model keeps
 * both lists. The existing calls keep their order and every connection still
 * lands ahead of the runs of its label that follow its create
 * (`ContinuityOrder`), but it can land ahead of the create itself (see
 * `StaleIndexCounterexample`).
 */
module Continuity {
  import opened Wrappers
  import opened Seqs
  import opened Strings
  import opened Json
  import opened Calls
  import opened Keywords
  import opened Canvas

  /** The label of a create the pass would connect from `up`: an image create
      with a non-blank label other than `up` whose hint names no storyboard
      grid (graph.py:1610-1626). */
  function TargetOf(c: ToolCall, up: string): (t: Option<string>)
    ensures t.Some? ==> CreatesType(c, "image") && t == LabelOf(c) && t.value != up && !IsGridCreate(c)
  {
    if CreatesType(c, "image") && LabelOf(c).Some? && LabelOf(c).value != up && !IsGridCreate(c) then LabelOf(c) else None
  }

  /** Where to insert, or `SlotCrash` where reading a run's arguments raises. */
  datatype Slot = Slot(at: nat) | SlotCrash

  /** The scan at graph.py:1630-1638 over the live batch from `j` on: the first
      run of `t`, else `dflt`. */
  function RunSlot(cur: seq<ToolCall>, t: string, j: nat, dflt: nat): Slot
    decreases |cur| - j
  {
    if j >= |cur| then Slot(dflt)
    else if IsRun(cur[j]) && !ArgsOk(cur[j]) then SlotCrash
    else if RunsLabel(cur[j], t) then Slot(j)
    else RunSlot(cur, t, j + 1, dflt)
  }

  /** The slot is the first run of `t` from `j` on, or the default when there is none. */
  lemma {:induction false} RunSlotSpec(cur: seq<ToolCall>, t: string, j: nat, dflt: nat)
    ensures RunSlot(cur, t, j, dflt).Slot? && RunSlot(cur, t, j, dflt).at != dflt ==>
      var k := RunSlot(cur, t, j, dflt).at;
      j <= k < |cur| && RunsLabel(cur[k], t) && forall i :: j <= i < k ==> !RunsLabel(cur[i], t)
    ensures RunSlot(cur, t, j, dflt) == Slot(dflt) && dflt < j ==> forall i :: j <= i < |cur| ==> !RunsLabel(cur[i], t)
    decreases |cur| - j
  {
    if j < |cur| && !(IsRun(cur[j]) && !ArgsOk(cur[j])) && !RunsLabel(cur[j], t) {
      RunSlotSpec(cur, t, j + 1, dflt);
    }
  }

  /** The connection from the upstream image. */
  function UpstreamConnect(up: string, t: string): ToolCall {
    ConnectCall("auto_ref_" + up + "_to_" + t, up, t, "out-image", "in-image")
  }

  /** Python's `xs.insert(k, x)`: past the end it appends. */
  function InsertAt(xs: seq<ToolCall>, k: nat, x: ToolCall): (r: seq<ToolCall>)
    ensures multiset(r) == multiset(xs) + multiset{x}
    ensures |r| == |xs| + 1
  {
    var k' := if k <= |xs| then k else |xs|;
    assert xs == xs[..k'] + xs[k'..];
    xs[..k'] + [x] + xs[k'..]
  }

  /** Whether the pass connects the create `c`, given the targets so far. */
  predicate Connects(c: ToolCall, up: string, pairs: set<(string, string)>, targets: set<string>) {
    TargetOf(c, up).Some? && TargetOf(c, up).value !in targets && (up, TargetOf(c, up).value) !in pairs
  }

  /** The loop at graph.py:1609-1655 from the snapshot's `idx`-th call on,
      with the live batch `cur` and the targets connected so far. */
  function ContinueFrom(snap: seq<ToolCall>, up: string, pairs: set<(string, string)>, targets: set<string>,
                        cur: seq<ToolCall>, idx: nat): Pass
    requires idx <= |snap|
    decreases |snap| - idx
  {
    if idx == |snap| then Continue(cur)
    else if !Connects(snap[idx], up, pairs, targets) then ContinueFrom(snap, up, pairs, targets, cur, idx + 1)
    else
      var t := TargetOf(snap[idx], up).value;
      match RunSlot(cur, t, idx + 1, idx + 1)
      case SlotCrash => Raise(cur, AttributeError)
      case Slot(at) => ContinueFrom(snap, up, pairs, targets + {t}, InsertAt(cur, at, UpstreamConnect(up, t)), idx + 1)
  }

  /** The labels the loop connects, in order; they do not depend on the live batch. */
  function NewTargets(snap: seq<ToolCall>, up: string, pairs: set<(string, string)>, targets: set<string>, idx: nat): seq<string>
    requires idx <= |snap|
    decreases |snap| - idx
  {
    if idx == |snap| then []
    else if !Connects(snap[idx], up, pairs, targets) then NewTargets(snap, up, pairs, targets, idx + 1)
    else
      var t := TargetOf(snap[idx], up).value;
      [t] + NewTargets(snap, up, pairs, targets + {t}, idx + 1)
  }

  /** A label is connected exactly when some create from `idx` on has it as
      its target and it was neither a target nor connected from `up` before. */
  lemma {:induction false} NewTargetsMember(snap: seq<ToolCall>, up: string, pairs: set<(string, string)>, targets: set<string>, idx: nat, t: string)
    requires idx <= |snap|
    ensures t in NewTargets(snap, up, pairs, targets, idx) <==>
      t !in targets && (up, t) !in pairs && exists k :: idx <= k < |snap| && TargetOf(snap[k], up) == Some(t)
    decreases |snap| - idx
  {
    if idx < |snap| {
      var c := snap[idx];
      if !Connects(c, up, pairs, targets) {
        NewTargetsMember(snap, up, pairs, targets, idx + 1, t);
        assert NewTargets(snap, up, pairs, targets, idx) == NewTargets(snap, up, pairs, targets, idx + 1);
      } else {
        var t0 := TargetOf(c, up).value;
        NewTargetsMember(snap, up, pairs, targets + {t0}, idx + 1, t);
        assert NewTargets(snap, up, pairs, targets, idx) == [t0] + NewTargets(snap, up, pairs, targets + {t0}, idx + 1);
      }
    }
  }

  /** No label occurs twice. */
  predicate Distinct(ts: seq<string>) {
    forall i, j :: 0 <= i < j < |ts| ==> ts[i] != ts[j]
  }

  /** No label is connected twice. */
  lemma {:induction false} NewTargetsDistinct(snap: seq<ToolCall>, up: string, pairs: set<(string, string)>, targets: set<string>, idx: nat)
    requires idx <= |snap|
    ensures Distinct(NewTargets(snap, up, pairs, targets, idx))
    decreases |snap| - idx
  {
    if idx < |snap| {
      var c := snap[idx];
      if !Connects(c, up, pairs, targets) {
        NewTargetsDistinct(snap, up, pairs, targets, idx + 1);
        assert NewTargets(snap, up, pairs, targets, idx) == NewTargets(snap, up, pairs, targets, idx + 1);
      } else {
        var t0 := TargetOf(c, up).value;
        NewTargetsDistinct(snap, up, pairs, targets + {t0}, idx + 1);
        var rest := NewTargets(snap, up, pairs, targets + {t0}, idx + 1);
        forall j | 0 <= j < |rest|
          ensures rest[j] != t0
        {
          NewTargetsMember(snap, up, pairs, targets + {t0}, idx + 1, rest[j]);
        }
        assert NewTargets(snap, up, pairs, targets, idx) == [t0] + rest;
      }
    }
  }

  /** The connections for a list of labels. */
  function UpstreamConnects(up: string, ts: seq<string>): (r: seq<ToolCall>)
    ensures |r| == |ts| && forall i :: 0 <= i < |ts| ==> r[i] == UpstreamConnect(up, ts[i])
  {
    seq(|ts|, i requires 0 <= i < |ts| => UpstreamConnect(up, ts[i]))
  }

  /** Where it gets through, the loop adds exactly the connections for the new
      targets and removes nothing. */
  lemma {:induction false} ContinueFromAdds(snap: seq<ToolCall>, up: string, pairs: set<(string, string)>, targets: set<string>,
                                            cur: seq<ToolCall>, idx: nat)
    requires idx <= |snap|
    requires ContinueFrom(snap, up, pairs, targets, cur, idx).Continue?
    ensures multiset(ContinueFrom(snap, up, pairs, targets, cur, idx).calls)
      == multiset(cur) + multiset(UpstreamConnects(up, NewTargets(snap, up, pairs, targets, idx)))
    decreases |snap| - idx
  {
    if idx < |snap| {
      if !Connects(snap[idx], up, pairs, targets) {
        ContinueFromAdds(snap, up, pairs, targets, cur, idx + 1);
      } else {
        var t := TargetOf(snap[idx], up).value;
        var at := RunSlot(cur, t, idx + 1, idx + 1).at;
        var cur' := InsertAt(cur, at, UpstreamConnect(up, t));
        ContinueFromAdds(snap, up, pairs, targets + {t}, cur', idx + 1);
        var rest := NewTargets(snap, up, pairs, targets + {t}, idx + 1);
        assert UpstreamConnects(up, [t] + rest) == [UpstreamConnect(up, t)] + UpstreamConnects(up, rest);
      }
    }
  }

  /** graph.py:1556-1655 */
  function Continuity(u: string, ctx: Json, calls: seq<ToolCall>): Pass {
    if !ReferenceIntent(u) then Continue(calls)
    else match LatestSuccessImage(ctx)
      case None => Continue(calls)
      case Some(up) =>
        if !ConnectsOk(calls) then Raise(calls, AttributeError)
        else ContinueFrom(calls, up, PairsOf(calls), TargetsOf(calls), calls, 0)
  }

  /** The labels the pass connects from the upstream image. */
  function ContinuityTargets(ctx: Json, calls: seq<ToolCall>): seq<string>
    requires LatestSuccessImage(ctx).Some?
  {
    NewTargets(calls, LatestSuccessImage(ctx).value, PairsOf(calls), TargetsOf(calls), 0)
  }

  /** The existing-pair test never decides anything: a label already connected
      from upstream is a target already. */
  lemma PairTestRedundant(calls: seq<ToolCall>, up: string, t: string)
    requires (up, t) in PairsOf(calls)
    ensures t in TargetsOf(calls)
  {
    TargetsAreTargetsOfPairs(calls, |calls|);
  }

  /** Where it gets through, the pass adds one connection from the latest
      finished image for each image create whose label had no inbound
      connection, once per label, and keeps every call it had. */
  lemma ContinuitySpec(u: string, ctx: Json, calls: seq<ToolCall>, t: string)
    requires Continuity(u, ctx, calls).Continue?
    ensures !ReferenceIntent(u) || LatestSuccessImage(ctx).None? ==> Continuity(u, ctx, calls).calls == calls
    ensures ReferenceIntent(u) && LatestSuccessImage(ctx).Some? ==>
      var ts := ContinuityTargets(ctx, calls);
      var up := LatestSuccessImage(ctx).value;
      && multiset(Continuity(u, ctx, calls).calls) == multiset(calls) + multiset(UpstreamConnects(up, ts))
      && (t in ts <==> t !in TargetsOf(calls) && exists k :: 0 <= k < |calls| && TargetOf(calls[k], up) == Some(t))
      && Distinct(ts)
  {
    if ReferenceIntent(u) && LatestSuccessImage(ctx).Some? {
      var up := LatestSuccessImage(ctx).value;
      ContinueFromAdds(calls, up, PairsOf(calls), TargetsOf(calls), calls, 0);
      NewTargetsMember(calls, up, PairsOf(calls), TargetsOf(calls), 0, t);
      NewTargetsDistinct(calls, up, PairsOf(calls), TargetsOf(calls), 0);
      if (up, t) in PairsOf(calls) {
        PairTestRedundant(calls, up, t);
      }
    }
  }

  /** Every create before `idx` that targets a label has it among `targets`,
      or connected from `up` already. */
  predicate Settled(snap: seq<ToolCall>, up: string, pairs: set<(string, string)>, targets: set<string>, idx: nat)
    requires idx <= |snap|
  {
    forall k :: 0 <= k < idx && TargetOf(snap[k], up).Some? ==>
      TargetOf(snap[k], up).value in targets || (up, TargetOf(snap[k], up).value) in pairs
  }

  /** The `j`-th call of the snapshot is a run of `t` after a create targeting `t`. */
  predicate RunAfterTarget(snap: seq<ToolCall>, up: string, t: string, j: nat) {
    j < |snap| && RunsLabel(snap[j], t) && exists k :: 0 <= k < j && TargetOf(snap[k], up) == Some(t)
  }

  /** The runs a connection to a label must precede. */
  function MustFollow(snap: seq<ToolCall>, up: string): (string, nat) -> bool {
    (t: string, j: nat) => RunAfterTarget(snap, up, t, j)
  }

  /** The connection each label gets. */
  function Mark(up: string): string -> ToolCall {
    (t: string) => UpstreamConnect(up, t)
  }

  /** The runs of a label. */
  function RunsOf(t: string): ToolCall -> bool {
    (c: ToolCall) => RunsLabel(c, t)
  }

  /** No run of `t` comes between `lo` and the slot the scan finds. */
  lemma SlotFirstRun(cur: seq<ToolCall>, t: string, lo: nat, at: nat)
    requires RunSlot(cur, t, lo, lo) == Slot(at)
    ensures forall p :: lo <= p < |cur| && RunsOf(t)(cur[p]) ==> at <= p
  {
    RunSlotSpec(cur, t, lo, lo);
  }

  /** A connecting step meets the first create targeting its label, so the runs
      its connection must precede all come after it. */
  lemma FollowersAfter(snap: seq<ToolCall>, up: string, pairs: set<(string, string)>, targets: set<string>, idx: nat, t: string)
    requires idx < |snap| && Settled(snap, up, pairs, targets, idx)
    requires Connects(snap[idx], up, pairs, targets) && t == TargetOf(snap[idx], up).value
    ensures forall j :: 0 <= j < |snap| && MustFollow(snap, up)(t, j) ==> idx + 1 <= j && RunsOf(t)(snap[j])
  {
    forall j | 0 <= j < |snap| && MustFollow(snap, up)(t, j)
      ensures idx + 1 <= j && RunsOf(t)(snap[j])
    {
      var k :| 0 <= k < j && TargetOf(snap[k], up) == Some(t);
      assert idx <= k;
    }
  }

  /** Each step keeps the creates walked so far settled. */
  lemma SettledNext(snap: seq<ToolCall>, up: string, pairs: set<(string, string)>, targets: set<string>, idx: nat)
    requires idx < |snap| && Settled(snap, up, pairs, targets, idx)
    ensures Connects(snap[idx], up, pairs, targets) ==> Settled(snap, up, pairs, targets + {TargetOf(snap[idx], up).value}, idx + 1)
    ensures !Connects(snap[idx], up, pairs, targets) ==> Settled(snap, up, pairs, targets, idx + 1)
  {
  }

  /** A connecting step keeps the tracking and places its connection. */
  lemma ConnectTracks(snap: seq<ToolCall>, up: string, pairs: set<(string, string)>, targets: set<string>,
                      cur: seq<ToolCall>, idx: nat, pos: seq<nat>, cpos: map<string, nat>, t: string, at: nat)
      returns (pos': seq<nat>, cpos': map<string, nat>)
    requires idx < |snap| && Settled(snap, up, pairs, targets, idx)
    requires Connects(snap[idx], up, pairs, targets) && t == TargetOf(snap[idx], up).value
    requires RunSlot(cur, t, idx + 1, idx + 1) == Slot(at)
    requires Tracks(snap, cur, pos, cpos, Mark(up), MustFollow(snap, up))
    ensures Tracks(snap, InsertAt(cur, at, UpstreamConnect(up, t)), pos', cpos', Mark(up), MustFollow(snap, up))
    ensures cpos.Keys + {t} <= cpos'.Keys
  {
    SlotFirstRun(cur, t, idx + 1, at);
    FollowersAfter(snap, up, pairs, targets, idx, t);
    var k := if at <= |cur| then at else |cur|;
    pos', cpos' := InsertTracks(snap, cur, pos, cpos, Mark(up), MustFollow(snap, up), RunsOf(t), idx + 1, t, k);
    assert InsertAt(cur, at, UpstreamConnect(up, t)) == cur[..k] + [Mark(up)(t)] + cur[k..];
  }

  /** One step of the loop: it keeps the tracking, and the labels it connects
      are placed or connected later. */
  lemma StepTracks(snap: seq<ToolCall>, up: string, pairs: set<(string, string)>, targets: set<string>,
                   cur: seq<ToolCall>, idx: nat, pos: seq<nat>, cpos: map<string, nat>)
      returns (targets': set<string>, cur': seq<ToolCall>, pos': seq<nat>, cpos': map<string, nat>)
    requires idx < |snap| && Settled(snap, up, pairs, targets, idx)
    requires Tracks(snap, cur, pos, cpos, Mark(up), MustFollow(snap, up))
    requires ContinueFrom(snap, up, pairs, targets, cur, idx).Continue?
    ensures ContinueFrom(snap, up, pairs, targets, cur, idx) == ContinueFrom(snap, up, pairs, targets', cur', idx + 1)
    ensures Settled(snap, up, pairs, targets', idx + 1) && Tracks(snap, cur', pos', cpos', Mark(up), MustFollow(snap, up))
    ensures cpos.Keys <= cpos'.Keys
    ensures forall t :: t in NewTargets(snap, up, pairs, targets, idx) ==> t in cpos' || t in NewTargets(snap, up, pairs, targets', idx + 1)
  {
    SettledNext(snap, up, pairs, targets, idx);
    if !Connects(snap[idx], up, pairs, targets) {
      return targets, cur, pos, cpos;
    }
    var t := TargetOf(snap[idx], up).value;
    var at := RunSlot(cur, t, idx + 1, idx + 1).at;
    pos', cpos' := ConnectTracks(snap, up, pairs, targets, cur, idx, pos, cpos, t, at);
    targets', cur' := targets + {t}, InsertAt(cur, at, UpstreamConnect(up, t));
  }

  /** The loop from `idx` on keeps the snapshot embedded in the live batch and
      places every connection it makes ahead of the runs it must precede. */
  lemma {:induction false} ContinueFromPlaced(snap: seq<ToolCall>, up: string, pairs: set<(string, string)>, targets: set<string>,
                                              cur: seq<ToolCall>, idx: nat, pos: seq<nat>, cpos: map<string, nat>)
      returns (pos': seq<nat>, cpos': map<string, nat>)
    requires idx <= |snap| && Settled(snap, up, pairs, targets, idx)
    requires Tracks(snap, cur, pos, cpos, Mark(up), MustFollow(snap, up))
    requires ContinueFrom(snap, up, pairs, targets, cur, idx).Continue?
    ensures Tracks(snap, ContinueFrom(snap, up, pairs, targets, cur, idx).calls, pos', cpos', Mark(up), MustFollow(snap, up))
    ensures cpos.Keys <= cpos'.Keys && forall t :: t in NewTargets(snap, up, pairs, targets, idx) ==> t in cpos'
    decreases |snap| - idx
  {
    if idx == |snap| {
      return pos, cpos;
    }
    var targets1, cur1, pos1, cpos1 := StepTracks(snap, up, pairs, targets, cur, idx, pos, cpos);
    pos', cpos' := ContinueFromPlaced(snap, up, pairs, targets1, cur1, idx + 1, pos1, cpos1);
  }

  /** The whole loop keeps the batch's calls in order and puts each new
      connection ahead of every run of its label after a create targeting it. */
  lemma ContinueFromOrder(calls: seq<ToolCall>, up: string, pairs: set<(string, string)>, targets: set<string>)
    requires ContinueFrom(calls, up, pairs, targets, calls, 0).Continue?
    ensures var r := ContinueFrom(calls, up, pairs, targets, calls, 0).calls;
      exists pos :: Embeds(calls, r, pos) &&
        forall t, k, j :: t in NewTargets(calls, up, pairs, targets, 0) && 0 <= k < j < |calls| && TargetOf(calls[k], up) == Some(t) && RunsLabel(calls[j], t) ==>
          exists c :: 0 <= c < pos[j] && r[c] == UpstreamConnect(up, t)
  {
    var r := ContinueFrom(calls, up, pairs, targets, calls, 0).calls;
    var id := seq(|calls|, i requires 0 <= i < |calls| => i);
    var pos, cpos := ContinueFromPlaced(calls, up, pairs, targets, calls, 0, id, map[]);
    forall t, k, j | t in NewTargets(calls, up, pairs, targets, 0) && 0 <= k < j < |calls| && TargetOf(calls[k], up) == Some(t) && RunsLabel(calls[j], t)
      ensures exists c :: 0 <= c < pos[j] && r[c] == UpstreamConnect(up, t)
    {
      assert MustFollow(calls, up)(t, j);
      assert r[cpos[t]] == Mark(up)(t);
    }
  }

  /** Where it gets through, the pass keeps every call it had in its order,
      and each new connection sits ahead of every run of its label that comes
      after a create targeting that label (graph.py:1554-1555, 1629). */
  lemma ContinuityOrder(u: string, ctx: Json, calls: seq<ToolCall>)
    requires Continuity(u, ctx, calls).Continue?
    ensures IsSubsequence(calls, Continuity(u, ctx, calls).calls)
    ensures ReferenceIntent(u) && LatestSuccessImage(ctx).Some? ==>
      var r := Continuity(u, ctx, calls).calls;
      var up := LatestSuccessImage(ctx).value;
      exists pos :: Embeds(calls, r, pos) &&
        forall t, k, j :: t in ContinuityTargets(ctx, calls) && 0 <= k < j < |calls| && TargetOf(calls[k], up) == Some(t) && RunsLabel(calls[j], t) ==>
          exists c :: 0 <= c < pos[j] && r[c] == UpstreamConnect(up, t)
  {
    if ReferenceIntent(u) && LatestSuccessImage(ctx).Some? {
      ContinueFromOrder(calls, LatestSuccessImage(ctx).value, PairsOf(calls), TargetsOf(calls));
    } else {
      SubsequenceOfSelf(calls);
    }
  }

  /** An image create labelled `l`, with no config. */
  function ImageCreate(id: string, l: string): ToolCall {
    ToolCall(id, CreateNode, JObj(map["type" := JStr("image"), "label" := JStr(l)]))
  }

  /** An image create labelled "A" or "B" is a target for any other upstream
      label. */
  lemma ImageCreateTarget(id: string, l: string, up: string)
    requires (l == "A" || l == "B") && up != l
    ensures TargetOf(ImageCreate(id, l), up) == Some(l)
  {
    var c := ImageCreate(id, l);
    assert Strip(l) == l;
    assert Arg(c, "label") == JStr(l) && Arg(c, "config") == JNull;
    assert GridHint(c) == l + "\n" + "None";
    NoGridHint(GridHint(c));
  }

  /** One connecting step of the loop. */
  lemma ConnectStep(snap: seq<ToolCall>, up: string, targets: set<string>, cur: seq<ToolCall>, idx: nat, t: string, at: nat)
    requires idx < |snap| && TargetOf(snap[idx], up) == Some(t) && t !in targets && t != up
    requires RunSlot(cur, t, idx + 1, idx + 1) == Slot(at)
    ensures ContinueFrom(snap, up, {}, targets, cur, idx)
      == ContinueFrom(snap, up, {}, targets + {t}, InsertAt(cur, at, UpstreamConnect(up, t)), idx + 1)
  {
    assert Connects(snap[idx], up, {}, targets);
  }

  /** With no run in the last place, the slot for the last index is that index. */
  lemma NoRunAfter(cur: seq<ToolCall>, t: string, j: nat)
    requires j + 1 == |cur| && !IsRun(cur[j])
    ensures RunSlot(cur, t, j, j) == Slot(j)
  {
    assert RunSlot(cur, t, j + 1, j) == Slot(j);
  }

  /** A connecting step where only one call, not a run, follows the create's
      slot: the connection goes in right after the create's index. */
  lemma ConnectBeforeLast(snap: seq<ToolCall>, up: string, targets: set<string>, cur: seq<ToolCall>, idx: nat, t: string)
    requires idx < |snap| && TargetOf(snap[idx], up) == Some(t) && t !in targets && t != up
    requires idx + 2 == |cur| && !IsRun(cur[idx + 1])
    ensures ContinueFrom(snap, up, {}, targets, cur, idx)
      == ContinueFrom(snap, up, {}, targets + {t}, InsertAt(cur, idx + 1, UpstreamConnect(up, t)), idx + 1)
  {
    NoRunAfter(cur, t, idx + 1);
    ConnectStep(snap, up, targets, cur, idx, t, idx + 1);
  }

  /** Inserting at index 1 of two calls. */
  lemma InsertSecond(a: ToolCall, b: ToolCall, x: ToolCall)
    ensures InsertAt([a, b], 1, x) == [a, x, b]
  {
    var xs := [a, b];
    assert xs[..1] == [a] && xs[1..] == [b];
    assert xs[..1] + [x] + xs[1..] == [a, x, b];
  }

  /** Inserting at index 2 of three calls. */
  lemma InsertThird(a: ToolCall, b: ToolCall, c: ToolCall, x: ToolCall)
    ensures InsertAt([a, b, c], 2, x) == [a, b, x, c]
  {
    var xs := [a, b, c];
    assert xs[..2] == [a, b] && xs[2..] == [c];
    assert xs[..2] + [x] + xs[2..] == [a, b, x, c];
  }

  /** The first create of two, not followed by a run of its label, gets its
      connection right after it. */
  lemma StaleIndexFirst(a: ToolCall, b: ToolCall, up: string, la: string)
    requires TargetOf(a, up) == Some(la) && !IsRun(b)
    ensures ContinueFrom([a, b], up, {}, {}, [a, b], 0)
      == ContinueFrom([a, b], up, {}, {la}, [a, UpstreamConnect(up, la), b], 1)
  {
    ConnectBeforeLast([a, b], up, {}, [a, b], 0, la);
    InsertSecond(a, b, UpstreamConnect(up, la));
    assert {} + {la} == {la};
  }

  /** The second create's connection goes in at index 2 of the live batch,
      which now holds the first connection there: ahead of the create. */
  lemma StaleIndexSecond(a: ToolCall, b: ToolCall, up: string, la: string, lb: string)
    requires TargetOf(b, up) == Some(lb) && la != lb && !IsRun(b)
    ensures ContinueFrom([a, b], up, {}, {la}, [a, UpstreamConnect(up, la), b], 1)
      == Continue([a, UpstreamConnect(up, la), UpstreamConnect(up, lb), b])
  {
    var calls := [a, b];
    ConnectBeforeLast(calls, up, {la}, [a, UpstreamConnect(up, la), b], 1, lb);
    InsertThird(a, UpstreamConnect(up, la), b, UpstreamConnect(up, lb));
  }

  /** Two calls that connect nothing leave no pairs and no targets. */
  lemma PairsOfTwo(a: ToolCall, b: ToolCall)
    requires PairOfCall(a) == {} && PairOfCall(b) == {}
    ensures PairsOf([a, b]) == {} && TargetsOf([a, b]) == {}
  {
    assert [a, b][0] == a && [a, b][1] == b;
    assert PairsUpTo([a, b], 1) == {} && TargetsUpTo([a, b], 1) == {};
  }

  /** Two image creates with distinct labels and no runs or connections: the
      second one's connection is inserted at the first one's old position plus
      one, which is now ahead of the second create itself. */
  lemma StaleIndexCounterexample(u: string, ctx: Json, a: ToolCall, b: ToolCall, la: string, lb: string)
    requires ReferenceIntent(u) && LatestSuccessImage(ctx).Some?
    requires TargetOf(a, LatestSuccessImage(ctx).value) == Some(la)
    requires TargetOf(b, LatestSuccessImage(ctx).value) == Some(lb) && la != lb
    ensures var up := LatestSuccessImage(ctx).value;
      Continuity(u, ctx, [a, b]) == Continue([a, UpstreamConnect(up, la), UpstreamConnect(up, lb), b])
  {
    var up := LatestSuccessImage(ctx).value;
    assert ConnectsOk([a, b]);
    PairsOfTwo(a, b);
    StaleIndexFirst(a, b, up, la);
    StaleIndexSecond(a, b, up, la, lb);
  }

  /** Such creates exist: two image creates labelled "A" and "B". */
  lemma StaleIndexWitness(up: string)
    requires up != "A" && up != "B"
    ensures TargetOf(ImageCreate("a", "A"), up) == Some("A")
    ensures TargetOf(ImageCreate("b", "B"), up) == Some("B")
  {
    ImageCreateTarget("a", "A", up);
    ImageCreateTarget("b", "B", up);
  }

  /** Which label a create would be connected under, read as the source reads it (graph.py:1610-1626). */
  method ReadTarget(c: ToolCall, up: string) returns (t: Option<string>)
    requires IsCreate(c) && ArgsOk(c)
    ensures t == TargetOf(c, up)
  {
    var args := Args(c).value;
    t := None;
    if Get(args, "type") != JStr("image") {
      return;
    }
    var raw := Get(args, "label");
    if !raw.JStr? || Strip(raw.s) == [] {
      return;
    }
    var lbl := Strip(raw.s);
    if lbl == up {
      return;
    }
    var cfg := Or(Get(args, "config"), JObj(map[]));
    var prompt := if cfg.JObj? then PyStr(Get(cfg.fields, "prompt")) else "";
    if ContainsAny(lbl + "\n" + prompt, GridHintWords) {
      return;
    }
    assert GridHint(c) == lbl + "\n" + prompt;
    t := Some(lbl);
  }

  /** The scan at graph.py:1630-1638. */
  method FindRunSlot(cur: seq<ToolCall>, t: string, from: nat) returns (s: Slot)
    ensures s == RunSlot(cur, t, from, from)
  {
    var j := from;
    while j < |cur|
      invariant from <= j
      invariant RunSlot(cur, t, from, from) == RunSlot(cur, t, j, from)
      decreases |cur| - j
    {
      var tc := cur[j];
      if tc.name == RunNode {
        var args := Args(tc);
        if args.None? {
          return SlotCrash;
        }
        var nid := Get(args.value, "nodeId");
        if nid.JStr? && Strip(nid.s) == t {
          return Slot(j);
        }
      }
      j := j + 1;
    }
    return Slot(from);
  }

  /** The loop at graph.py:1609-1655 over a snapshot of the batch. */
  method ConnectTargets(snap: seq<ToolCall>, up: string, pairs: set<(string, string)>, targets0: set<string>) returns (p: Pass)
    requires CreatesOk(snap)
    ensures p == ContinueFrom(snap, up, pairs, targets0, snap, 0)
  {
    var cur := snap;
    var targets := targets0;
    var idx := 0;
    while idx < |snap|
      invariant 0 <= idx <= |snap|
      invariant ContinueFrom(snap, up, pairs, targets0, snap, 0) == ContinueFrom(snap, up, pairs, targets, cur, idx)
    {
      var c := snap[idx];
      if c.name == CreateNode {
        var t := ReadTarget(c, up);
        if t.Some? && t.value !in targets && (up, t.value) !in pairs {
          var slot := FindRunSlot(cur, t.value, idx + 1);
          if slot.SlotCrash? {
            return Raise(cur, AttributeError);
          }
          cur := InsertAt(cur, slot.at, UpstreamConnect(up, t.value));
          targets := targets + {t.value};
        }
      }
      idx := idx + 1;
    }
    return Continue(cur);
  }

  /** The pass as the source runs it. */
  method LinkUpstream(u: string, ctx: Json, calls: seq<ToolCall>) returns (p: Pass)
    requires CreatesOk(calls)
    ensures p == Continuity(u, ctx, calls)
  {
    if !ReferenceIntent(u) {
      return Continue(calls);
    }
    var upstream := PickLatestSuccessImageLabel(ctx);
    if upstream.None? {
      return Continue(calls);
    }
    var ok, pairs, targets := CollectConnectedPairs(calls);
    if !ok {
      return Raise(calls, AttributeError);
    }
    p := ConnectTargets(calls, upstream.value, pairs, targets);
  }

  /** The pass adds only connections, so every create stays readable. */
  lemma ContinuityCreatesOk(u: string, ctx: Json, calls: seq<ToolCall>)
    requires CreatesOk(calls) && Continuity(u, ctx, calls).Continue?
    ensures CreatesOk(Continuity(u, ctx, calls).calls)
  {
    if ReferenceIntent(u) && LatestSuccessImage(ctx).Some? {
      ContinuitySpec(u, ctx, calls, "");
      var up := LatestSuccessImage(ctx).value;
      AddingConnectsKeepsCreatesOk(calls, Continuity(u, ctx, calls).calls, UpstreamConnects(up, ContinuityTargets(ctx, calls)));
    }
  }
}
