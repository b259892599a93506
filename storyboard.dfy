/**
 * The storyboard workflow of `finalize_answer` (graph.py:1368-1552): find the
 * created storyboard grid image, connect up to three finished reference
 * images from the canvas into it ahead of its run, and, when the batch has no
 * video yet, append a 15-second `composeVideo` fed by the grid.
 *
 * Runs after the new-character confirmation, so every create is readable.
 */
module Storyboard {
  import opened Wrappers
  import opened Strings
  import opened Json
  import opened Seqs
  import opened Calls
  import opened Keywords
  import opened Canvas

  // ---------------------------------------------------------------------
  // Finding the storyboard grid (graph.py:1379-1400)

  /** `cfg.get("prompt") if isinstance(cfg, dict) else None`, with `cfg = args.get("config") or {}`. */
  function RawPrompt(c: ToolCall): Json {
    var cfg := ConfigOrEmpty(c);
    if cfg.JObj? then Get(cfg.fields, "prompt") else JNull
  }

  /** `(label or "") + "\n" + (prompt or "")`, or None where adding a
      non-string prompt raises `TypeError`. */
  function DetectHint(c: ToolCall): Option<string> {
    var p := RawPrompt(c);
    if Truthy(p) && !p.JStr? then None
    else Some(LabelOrEmpty(c) + "\n" + (if Truthy(p) then p.s else ""))
  }

  /** An image create the scan stops at: its hint names a storyboard grid. */
  predicate IsStoryboardCreate(c: ToolCall) {
    CreatesType(c, "image") && DetectHint(c).Some? && ContainsAny(DetectHint(c).value, GridHintWords)
  }

  /** An image create the scan passes over. */
  predicate PassedOver(c: ToolCall) {
    CreatesType(c, "image") ==> DetectHint(c).Some? && !ContainsAny(DetectHint(c).value, GridHintWords)
  }

  /** The outcome of the scan: the first storyboard create's label and prompt
      (`None` where they are not non-blank or not a string), no storyboard
      create, or `TypeError`. */
  datatype Detection = Found(storyboard: Option<string>, prompt: Option<string>) | NotFound | Crashed

  /** The scan from the `i`-th call on. */
  function DetectFrom(calls: seq<ToolCall>, i: nat): Detection
    requires i <= |calls|
    decreases |calls| - i
  {
    if i == |calls| then NotFound
    else
      var c := calls[i];
      if !CreatesType(c, "image") then DetectFrom(calls, i + 1)
      else if DetectHint(c).None? then Crashed
      else if ContainsAny(DetectHint(c).value, GridHintWords) then Found(LabelOf(c), AsString(RawPrompt(c)))
      else DetectFrom(calls, i + 1)
  }

  /** The scan stops at the first image create that is a storyboard grid, or
      at the first that raises; otherwise it finds nothing. */
  lemma {:induction false} DetectFromSpec(calls: seq<ToolCall>, i: nat) returns (k: nat)
    requires i <= |calls|
    ensures !DetectFrom(calls, i).NotFound? ==> i <= k < |calls| && CreatesType(calls[k], "image")
    ensures !DetectFrom(calls, i).NotFound? ==> forall j :: i <= j < k ==> PassedOver(calls[j])
    ensures DetectFrom(calls, i).Found? ==>
      IsStoryboardCreate(calls[k]) && DetectFrom(calls, i) == Found(LabelOf(calls[k]), AsString(RawPrompt(calls[k])))
    ensures DetectFrom(calls, i).Crashed? ==> DetectHint(calls[k]).None?
    ensures DetectFrom(calls, i).NotFound? <==> forall j :: i <= j < |calls| ==> PassedOver(calls[j])
    decreases |calls| - i
  {
    k := i;
    if i < |calls| {
      var c := calls[i];
      if !CreatesType(c, "image") {
        k := DetectFromSpec(calls, i + 1);
        assert DetectFrom(calls, i) == DetectFrom(calls, i + 1);
      } else if DetectHint(c).None? {
        assert DetectFrom(calls, i) == Crashed && !PassedOver(c);
      } else if ContainsAny(DetectHint(c).value, GridHintWords) {
        assert IsStoryboardCreate(c) && !PassedOver(c);
      } else {
        k := DetectFromSpec(calls, i + 1);
        assert PassedOver(c) && DetectFrom(calls, i) == DetectFrom(calls, i + 1);
      }
    }
  }

  /** The loop at graph.py:1381-1399. */
  method DetectStoryboard(calls: seq<ToolCall>) returns (d: Detection)
    requires CreatesOk(calls)
    ensures d == DetectFrom(calls, 0)
  {
    var i := 0;
    while i < |calls|
      invariant 0 <= i <= |calls|
      invariant DetectFrom(calls, 0) == DetectFrom(calls, i)
    {
      var c := calls[i];
      if c.name == CreateNode {
        var args := Args(c).value;
        if Get(args, "type") == JStr("image") {
          var cfg := Or(Get(args, "config"), JObj(map[]));
          var prompt := if cfg.JObj? then Get(cfg.fields, "prompt") else JNull;
          var raw := Get(args, "label");
          var lbl := if raw.JStr? && Strip(raw.s) != [] then Some(Strip(raw.s)) else None;
          if Truthy(prompt) && !prompt.JStr? {
            return Crashed;
          }
          var hint := (if lbl.Some? then lbl.value else "") + "\n" + (if Truthy(prompt) then prompt.s else "");
          assert raw == Arg(c, "label") && prompt == RawPrompt(c);
          assert lbl == LabelOf(c);
          assert DetectHint(c) == Some(hint);
          if ContainsAny(hint, GridHintWords) {
            return Found(lbl, if prompt.JStr? then Some(prompt.s) else None);
          }
        }
      }
      i := i + 1;
    }
    return NotFound;
  }

  /** `has_compose_video` */
  predicate HasComposeVideo(calls: seq<ToolCall>) {
    exists i :: 0 <= i < |calls| && CreatesType(calls[i], "composeVideo")
  }

  /** `wants_storyboard = wants_storyboard_by_user or bool(storyboard_image_label)` */
  predicate WantsStoryboard(u: string, d: Detection) {
    WantsStoryboardByUser(u) || (d.Found? && d.storyboard.Some?)
  }

  /** The storyboard label both later steps need (`wants_storyboard and storyboard_image_label`). */
  function StoryboardLabel(u: string, d: Detection): Option<string> {
    if WantsStoryboard(u, d) && d.Found? && d.storyboard.Some? then d.storyboard else None
  }

  /** Both steps need a labelled storyboard create, which already makes
      `wants_storyboard` true: the user's wording never changes the outcome. */
  lemma UserWordingIsRedundant(u: string, u': string, d: Detection)
    ensures StoryboardLabel(u, d) == StoryboardLabel(u', d)
    ensures StoryboardLabel(u, d).Some? <==> d.Found? && d.storyboard.Some?
  {
  }

  // ---------------------------------------------------------------------
  // Linking the references (graph.py:1445-1500)

  /** Where the storyboard's create (the last one seen) and its first run are,
      or `LocateCrash` where reading a run's arguments raises first. */
  datatype Location = Located(createIdx: Option<nat>, runIdx: Option<nat>) | LocateCrash

  /** A create whose `label`, stripped, is the storyboard label. */
  predicate CreatesLabel(c: ToolCall, sb: string) {
    IsCreate(c) && Arg(c, "label").JStr? && Strip(Arg(c, "label").s) == sb
  }

  /** The scan at graph.py:1464-1476, from the `i`-th call on. */
  function LocateFrom(calls: seq<ToolCall>, sb: string, i: nat, createIdx: Option<nat>): Location
    requires i <= |calls|
    decreases |calls| - i
  {
    if i == |calls| then Located(createIdx, None)
    else
      var c := calls[i];
      if CreatesLabel(c, sb) then LocateFrom(calls, sb, i + 1, Some(i))
      else if IsRun(c) && !ArgsOk(c) then LocateCrash
      else if RunsLabel(c, sb) then Located(createIdx, Some(i))
      else LocateFrom(calls, sb, i + 1, createIdx)
  }

  /** The scan finds the first run of the storyboard (none if there is none)
      and a create seen before it; it raises exactly when an unreadable run
      comes before that first run. */
  lemma {:induction false} LocateFromSpec(calls: seq<ToolCall>, sb: string, i: nat, createIdx: Option<nat>) returns (k: nat)
    requires i <= |calls|
    requires createIdx.Some? ==> createIdx.value < i
    ensures var loc := LocateFrom(calls, sb, i, createIdx);
      && (loc.Located? && loc.runIdx.Some? ==>
            i <= loc.runIdx.value < |calls| && RunsLabel(calls[loc.runIdx.value], sb)
            && forall j :: i <= j < loc.runIdx.value ==> !RunsLabel(calls[j], sb) && (IsRun(calls[j]) ==> ArgsOk(calls[j])))
      && (loc.Located? && loc.runIdx.None? ==> forall j :: i <= j < |calls| ==> !RunsLabel(calls[j], sb) && (IsRun(calls[j]) ==> ArgsOk(calls[j])))
      && (loc.Located? && loc.createIdx.Some? ==>
            loc.createIdx.value < (if loc.runIdx.Some? then loc.runIdx.value else |calls|))
      && (loc.LocateCrash? ==>
            (i <= k < |calls| && IsRun(calls[k]) && !ArgsOk(calls[k])
             && forall j :: i <= j < k ==> !RunsLabel(calls[j], sb)))
    decreases |calls| - i
  {
    k := i;
    if i < |calls| {
      var c := calls[i];
      if CreatesLabel(c, sb) {
        k := LocateFromSpec(calls, sb, i + 1, Some(i));
      } else if !(IsRun(c) && !ArgsOk(c)) && !RunsLabel(c, sb) {
        k := LocateFromSpec(calls, sb, i + 1, createIdx);
      }
    }
  }

  /** The loop at graph.py:1464-1476. */
  method LocateStoryboard(calls: seq<ToolCall>, sb: string) returns (loc: Location)
    requires CreatesOk(calls)
    ensures loc == LocateFrom(calls, sb, 0, None)
  {
    var createIdx: Option<nat> := None;
    var i := 0;
    while i < |calls|
      invariant 0 <= i <= |calls|
      invariant LocateFrom(calls, sb, 0, None) == LocateFrom(calls, sb, i, createIdx)
    {
      var c := calls[i];
      if c.name == CreateNode {
        var lbl := Get(Args(c).value, "label");
        if lbl.JStr? && Strip(lbl.s) == sb {
          createIdx := Some(i);
          i := i + 1;
          continue;
        }
      }
      if c.name == RunNode {
        var args := Args(c);
        if args.None? {
          return LocateCrash;
        }
        var nodeId := Get(args.value, "nodeId");
        if nodeId.JStr? && Strip(nodeId.s) == sb {
          return Located(createIdx, Some(i));
        }
      }
      i := i + 1;
    }
    return Located(createIdx, None);
  }

  /** `insert_at`, with the adjustment at graph.py:1480-1481. */
  function InsertPoint(calls: seq<ToolCall>, createIdx: Option<nat>, runIdx: Option<nat>): nat {
    var at := if runIdx.Some? then runIdx.value else |calls|;
    if createIdx.Some? && at <= createIdx.value then createIdx.value + 1 else at
  }

  /** The adjustment never applies: the create the scan records always comes
      before the run it stops at, so the insertion point is that run, or the
      end of the batch. */
  lemma AdjustmentNeverApplies(calls: seq<ToolCall>, sb: string)
    requires LocateFrom(calls, sb, 0, None).Located?
    ensures var loc := LocateFrom(calls, sb, 0, None);
      InsertPoint(calls, loc.createIdx, loc.runIdx) == (if loc.runIdx.Some? then loc.runIdx.value else |calls|)
  {
    var k := LocateFromSpec(calls, sb, 0, None);
  }

  /** Python's `xs[k:k] = block`: past the end it appends. */
  function Splice(calls: seq<ToolCall>, k: nat, block: seq<ToolCall>): (r: seq<ToolCall>)
    ensures multiset(r) == multiset(calls) + multiset(block)
  {
    var k' := if k <= |calls| then k else |calls|;
    assert calls == calls[..k'] + calls[k'..];
    calls[..k'] + block + calls[k'..]
  }

  /** The connection from one picked reference into the storyboard, unless the batch already has it. */
  function RefConnectAt(sb: string, pairs: set<(string, string)>): (nat, string) -> Option<ToolCall> {
    (i: nat, src: string) =>
      if (src, sb) in pairs then None
      else Some(ConnectCall("auto_ref_" + src + "_to_" + sb, src, sb, "out-image-wide", "in-image-wide"))
  }

  /** `connect_calls` */
  function RefConnects(refs: seq<string>, sb: string, pairs: set<(string, string)>): seq<ToolCall> {
    FilterMap(RefConnectAt(sb, pairs), refs)
  }

  /** The loop at graph.py:1483-1499. */
  method BuildRefConnects(refs: seq<string>, sb: string, pairs: set<(string, string)>) returns (block: seq<ToolCall>)
    ensures block == RefConnects(refs, sb, pairs)
  {
    block := [];
    var i := 0;
    while i < |refs|
      invariant 0 <= i <= |refs|
      invariant block == FilterMapUpTo(RefConnectAt(sb, pairs), refs, i)
    {
      FilterMapNext(RefConnectAt(sb, pairs), refs, i);
      var src := refs[i];
      if (src, sb) !in pairs {
        block := block + [ConnectCall("auto_ref_" + src + "_to_" + sb, src, sb, "out-image-wide", "in-image-wide")];
      }
      i := i + 1;
    }
  }

  /** graph.py:1451-1500, once the references are picked: the batch with the
      reference connections spliced in, or the batch as it was where reading
      a call raises. */
  function LinkRefs(refs: seq<string>, calls: seq<ToolCall>, sb: string): Pass {
    if refs == [] then Continue(calls)
    else if !ConnectsOk(calls) then Raise(calls, AttributeError)
    else match LocateFrom(calls, sb, 0, None)
      case LocateCrash => Raise(calls, AttributeError)
      case Located(ci, ri) =>
        var block := RefConnects(refs, sb, PairsOf(calls));
        if block != [] then Continue(Splice(calls, InsertPoint(calls, ci, ri), block)) else Continue(calls)
  }

  /** graph.py:1445-1500 */
  function Link(ctx: Json, calls: seq<ToolCall>, sb: string): Pass {
    LinkRefs(PickedReferences(ctx, sb), calls, sb)
  }

  /** A linked batch is the old one with the new connections inserted as one
      block right in front of the storyboard's first run (at the end when it
      has none). */
  lemma LinkSpec(refs: seq<string>, calls: seq<ToolCall>, sb: string) returns (k: nat)
    requires LinkRefs(refs, calls, sb).Continue?
    ensures k <= |calls|
    ensures LinkRefs(refs, calls, sb).calls == calls[..k] + RefConnects(refs, sb, PairsOf(calls)) + calls[k..]
    ensures refs != [] ==> forall j :: 0 <= j < k ==> !RunsLabel(calls[j], sb)
    ensures refs != [] && k < |calls| ==> RunsLabel(calls[k], sb)
  {
    k := |calls|;
    if refs != [] {
      var loc := LocateFrom(calls, sb, 0, None);
      var w := LocateFromSpec(calls, sb, 0, None);
      AdjustmentNeverApplies(calls, sb);
      k := InsertPoint(calls, loc.createIdx, loc.runIdx);
    }
  }

  /** The block connects exactly the picked references the batch did not
      already connect to the storyboard. */
  lemma RefConnectsSpec(refs: seq<string>, sb: string, pairs: set<(string, string)>, c: ToolCall)
    ensures c in RefConnects(refs, sb, pairs) <==>
      exists r :: r in refs && (r, sb) !in pairs
                  && c == ConnectCall("auto_ref_" + r + "_to_" + sb, r, sb, "out-image-wide", "in-image-wide")
  {
    FilterMapMembers(RefConnectAt(sb, pairs), refs, c);
    if c in RefConnects(refs, sb, pairs) {
      var i :| 0 <= i < |refs| && RefConnectAt(sb, pairs)(i, refs[i]) == Some(c);
      assert refs[i] in refs;
    }
    if exists r :: r in refs && (r, sb) !in pairs
                   && c == ConnectCall("auto_ref_" + r + "_to_" + sb, r, sb, "out-image-wide", "in-image-wide") {
      var r :| r in refs && (r, sb) !in pairs
               && c == ConnectCall("auto_ref_" + r + "_to_" + sb, r, sb, "out-image-wide", "in-image-wide");
      var i :| 0 <= i < |refs| && refs[i] == r;
      assert RefConnectAt(sb, pairs)(i, refs[i]) == Some(c);
    }
  }

  /** Linking only adds: the linked batch holds the old calls and the block. */
  lemma LinkAdds(refs: seq<string>, calls: seq<ToolCall>, sb: string)
    requires LinkRefs(refs, calls, sb).Continue?
    ensures multiset(LinkRefs(refs, calls, sb).calls) == multiset(calls) + multiset(RefConnects(refs, sb, PairsOf(calls)))
  {
  }

  /** The pass raises only on unreadable arguments: those of a connection, or
      those of a run ahead of the storyboard's first run. */
  lemma LinkRaises(refs: seq<string>, calls: seq<ToolCall>, sb: string)
    requires LinkRefs(refs, calls, sb).Raise?
    ensures LinkRefs(refs, calls, sb) == Raise(calls, AttributeError)
    ensures refs != []
    ensures !ConnectsOk(calls) || exists k :: 0 <= k < |calls| && IsRun(calls[k]) && !ArgsOk(calls[k])
  {
    if ConnectsOk(calls) {
      var k := LocateFromSpec(calls, sb, 0, None);
    }
  }

  /** The method of graph.py:1445-1500. */
  method LinkStoryboardReferences(ctx: Json, calls: seq<ToolCall>, sb: string) returns (p: Pass)
    requires CreatesOk(calls)
    ensures p == Link(ctx, calls, sb)
  {
    var refs := PickReferenceLabels(ctx, sb);
    if refs == [] {
      return Continue(calls);
    }
    var ok, pairs, _ := CollectConnectedPairs(calls);
    if !ok {
      return Raise(calls, AttributeError);
    }
    var loc := LocateStoryboard(calls, sb);
    if loc.LocateCrash? {
      return Raise(calls, AttributeError);
    }
    var insertAt := if loc.runIdx.Some? then loc.runIdx.value else |calls|;
    if loc.createIdx.Some? && insertAt <= loc.createIdx.value {
      insertAt := loc.createIdx.value + 1;
    }
    var block := BuildRefConnects(refs, sb, pairs);
    p := Continue(calls);
    if block != [] {
      p := Continue(Splice(calls, insertAt, block));
    }
  }

  // ---------------------------------------------------------------------
  // Chaining the video (graph.py:1502-1552)

  const VideoSuffix := "15s视频"

  /** The label of the video node: "分镜" in the storyboard's label becomes "15s视频". */
  function VideoLabel(sb: string): string {
    var v := ReplaceAll(ReplaceAll(sb, "九宫格分镜", VideoSuffix), "分镜", VideoSuffix);
    if v == sb then sb + "-" + VideoSuffix else v
  }

  const HintHeading := "\n\n分镜补充（来自九宫格分镜的镜头描述，用于动作/镜头节奏对齐；以参考图为准）：\n"
  const MaxHint := 1200

  /** The prompt's non-blank lines, each stripped, one per line. */
  function PromptLines(p: string): string {
    Join("\n", StrippedNonEmpty(SplitLines(Strip(p))))
  }

  /** `storyboard_hint` */
  function StoryboardHint(prompt: Option<string>): string {
    if prompt.None? || IsBlank(prompt.value) then ""
    else
      var n := PromptLines(prompt.value);
      HintHeading + (if |n| > MaxHint then RStrip(Take(n, MaxHint)) + "…" else n)
  }

  const VideoPromptBody := "根据上游参考图片（九宫格分镜图）生成一个15秒的二维动画视频：\n"
    + "- 画面风格/角色外观严格跟随参考图；不要改变角色造型与配色。\n"
    + "- 按参考图的镜头节奏推进（从1到9），镜头之间自然衔接；保持同一场景光线连续。\n"
    + "- 不要出现任何可读文字/水印/Logo。\n"
    + "- 输出16:9，动作清晰，镜头稳定，节奏温暖治愈。"

  function VideoPrompt(prompt: Option<string>): string {
    VideoPromptBody + StoryboardHint(prompt)
  }

  /** The 15-second `composeVideo` create. */
  function VideoCreate(vl: string, prompt: string): ToolCall {
    ToolCall("auto_create_video_" + vl, CreateNode, JObj(map[
      "type" := JStr("composeVideo"), "label" := JStr(vl),
      "config" := JObj(map["kind" := JStr("composeVideo"), "durationSeconds" := JNum(15),
                           "aspectRatio" := JStr("16:9"), "prompt" := JStr(prompt)])]))
  }

  /** graph.py:1509-1552: the batch with the video create and its connection from the storyboard appended. */
  function Chain(calls: seq<ToolCall>, sb: string, prompt: Option<string>): seq<ToolCall> {
    var vl := VideoLabel(sb);
    calls + [VideoCreate(vl, VideoPrompt(prompt)), ConnectCall("auto_connect_" + sb + "_to_" + vl, sb, vl, "out-image", "in-image")]
  }

  /** The video's label always names the 15-second video, and without "分镜"
      it is the storyboard's label with the suffix appended. */
  lemma VideoLabelSpec(sb: string)
    ensures Contains(VideoLabel(sb), VideoSuffix)
    ensures !Contains(sb, "分镜") ==> VideoLabel(sb) == sb + "-" + VideoSuffix
  {
    var w := ReplaceAll(sb, "九宫格分镜", VideoSuffix);
    var v := ReplaceAll(w, "分镜", VideoSuffix);
    if v == sb {
      var x := sb + "-" + VideoSuffix;
      assert x[|sb| + 1..|sb| + 1 + |VideoSuffix|] == VideoSuffix;
      ContainsAt(x, VideoSuffix, |sb| + 1);
    } else if v != w {
      ReplaceChangedContains(w, "分镜", VideoSuffix);
    } else {
      ReplaceChangedContains(sb, "九宫格分镜", VideoSuffix);
    }
    if !Contains(sb, "分镜") {
      if Contains(sb, "九宫格分镜") {
        var i := ContainsWitness(sb, "九宫格分镜");
        assert sb[i..i + 5] == "九宫格分镜";
        assert sb[i + 3..i + 5] == sb[i..i + 5][3..5] == "分镜";
        ContainsAt(sb, "分镜", i + 3);
      }
      ReplaceAbsent(sb, "九宫格分镜", VideoSuffix);
      ReplaceAbsent(sb, "分镜", VideoSuffix);
    }
  }

  /** The storyboard's notes come after the fixed instructions, under their
      heading, cut to 1200 characters plus an ellipsis; a missing or blank
      prompt adds nothing. */
  lemma StoryboardHintSpec(prompt: Option<string>)
    ensures StartsWith(VideoPrompt(prompt), VideoPromptBody)
    ensures (prompt.None? || IsBlank(prompt.value)) <==> StoryboardHint(prompt) == ""
    ensures StoryboardHint(prompt) != "" ==> StartsWith(StoryboardHint(prompt), HintHeading)
    ensures |StoryboardHint(prompt)| <= |HintHeading| + MaxHint + 1
  {
    assert VideoPrompt(prompt)[..|VideoPromptBody|] == VideoPromptBody;
    if StoryboardHint(prompt) != "" {
      assert StoryboardHint(prompt)[..|HintHeading|] == HintHeading;
    }
  }

  /** The appended video is a readable `composeVideo` create labelled with the
      video label and prompted with the instructions, connected from the
      storyboard; the batch before it is untouched and gains a video. */
  lemma ChainSpec(calls: seq<ToolCall>, sb: string, prompt: Option<string>)
    ensures var r := Chain(calls, sb, prompt);
      var vl := VideoLabel(sb);
      && |r| == |calls| + 2 && r[..|calls|] == calls
      && CreatesType(r[|calls|], "composeVideo") && Arg(r[|calls|], "label") == JStr(vl)
      && Arg(r[|calls|], "config") == JObj(map["kind" := JStr("composeVideo"), "durationSeconds" := JNum(15),
                                              "aspectRatio" := JStr("16:9"), "prompt" := JStr(VideoPrompt(prompt))])
      && IsConnect(r[|calls| + 1])
      && Arg(r[|calls| + 1], "sourceNodeId") == JStr(sb) && Arg(r[|calls| + 1], "targetNodeId") == JStr(vl)
      && HasComposeVideo(r)
      && (CreatesOk(calls) ==> CreatesOk(r))
      && (RunsOk(calls) <==> RunsOk(r))
  {
    var r := Chain(calls, sb, prompt);
    assert CreatesType(r[|calls|], "composeVideo");
  }

  // ---------------------------------------------------------------------
  // The workflow

  /** graph.py:1368-1552 */
  function StoryboardPass(u: string, ctx: Json, calls: seq<ToolCall>): Pass {
    var d := DetectFrom(calls, 0);
    if d.Crashed? then Raise(calls, TypeError)
    else match StoryboardLabel(u, d)
      case None => Continue(calls)
      case Some(sb) => ChainAfter(calls, sb, d.prompt, Link(ctx, calls, sb))
  }

  /** graph.py:1502-1552: after linking, the video is chained unless the
      batch as it came in already had one; a raise goes through. */
  function ChainAfter(calls: seq<ToolCall>, sb: string, prompt: Option<string>, linked: Pass): Pass {
    match linked
    case Raise(c, e) => Raise(c, e)
    case Continue(l) => if !HasComposeVideo(calls) then Continue(Chain(l, sb, prompt)) else Continue(l)
  }

  /** A batch that keeps every call of the one that came in ends up with a video. */
  lemma ChainAfterHasVideo(calls: seq<ToolCall>, sb: string, prompt: Option<string>, linked: Pass)
    requires linked.Continue? && multiset(calls) <= multiset(linked.calls)
    ensures ChainAfter(calls, sb, prompt, linked) ==
      Continue(if HasComposeVideo(calls) then linked.calls else Chain(linked.calls, sb, prompt))
    ensures HasComposeVideo(ChainAfter(calls, sb, prompt, linked).calls)
  {
    if HasComposeVideo(calls) {
      var i :| 0 <= i < |calls| && CreatesType(calls[i], "composeVideo");
      assert calls[i] in multiset(linked.calls);
      var j :| 0 <= j < |linked.calls| && linked.calls[j] == calls[i];
    } else {
      ChainSpec(linked.calls, sb, prompt);
    }
  }

  /** Without a labelled storyboard create the batch goes through untouched;
      with one, the references are linked, and the video is chained when the
      batch had none. */
  lemma StoryboardPassSpec(u: string, ctx: Json, calls: seq<ToolCall>)
    requires StoryboardPass(u, ctx, calls).Continue?
    ensures var d := DetectFrom(calls, 0);
      var out := StoryboardPass(u, ctx, calls).calls;
      && (!(d.Found? && d.storyboard.Some?) ==> out == calls)
      && (d.Found? && d.storyboard.Some? ==>
            Link(ctx, calls, d.storyboard.value).Continue?
            && out == (if HasComposeVideo(calls) then Link(ctx, calls, d.storyboard.value).calls
                       else Chain(Link(ctx, calls, d.storyboard.value).calls, d.storyboard.value, d.prompt)))
      && (d.Found? && d.storyboard.Some? ==> HasComposeVideo(out))
  {
    var d := DetectFrom(calls, 0);
    if d.Found? && d.storyboard.Some? {
      var sb := d.storyboard.value;
      LinkAdds(PickedReferences(ctx, sb), calls, sb);
      ChainAfterHasVideo(calls, sb, d.prompt, Link(ctx, calls, sb));
    }
  }

  /** The workflow as the source runs it. */
  method StoryboardStep(u: string, ctx: Json, calls: seq<ToolCall>) returns (p: Pass)
    requires CreatesOk(calls)
    ensures p == StoryboardPass(u, ctx, calls)
  {
    var hasVideo := HasComposeVideo(calls);
    var d := DetectStoryboard(calls);
    if d.Crashed? {
      return Raise(calls, TypeError);
    }
    var wants := WantsStoryboardByUser(u) || (d.Found? && d.storyboard.Some?);
    p := Continue(calls);
    if wants && d.Found? && d.storyboard.Some? {
      var sb := d.storyboard.value;
      p := LinkStoryboardReferences(ctx, calls, sb);
      if p.Raise? {
        return;
      }
      if !hasVideo {
        p := Continue(Chain(p.calls, sb, d.prompt));
      }
    }
  }

  /** The pass keeps every create readable: it adds connections and, at most,
      a `composeVideo` create it builds itself. */
  lemma StoryboardPassCreatesOk(u: string, ctx: Json, calls: seq<ToolCall>)
    requires CreatesOk(calls) && StoryboardPass(u, ctx, calls).Continue?
    ensures CreatesOk(StoryboardPass(u, ctx, calls).calls)
  {
    StoryboardPassSpec(u, ctx, calls);
    var d := DetectFrom(calls, 0);
    if d.Found? && d.storyboard.Some? {
      var sb := d.storyboard.value;
      var refs := PickedReferences(ctx, sb);
      var block := RefConnects(refs, sb, PairsOf(calls));
      var linked := Link(ctx, calls, sb).calls;
      LinkAdds(PickedReferences(ctx, sb), calls, sb);
      forall k | 0 <= k < |block|
        ensures IsConnect(block[k])
      {
        RefConnectsSpec(refs, sb, PairsOf(calls), block[k]);
      }
      AddingConnectsKeepsCreatesOk(calls, linked, block);
      ChainSpec(linked, sb, d.prompt);
    }
  }
}
