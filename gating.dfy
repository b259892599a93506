/**
 * The passes of `finalize_answer` that decide whether the batch may touch the
 * canvas at all: the story-direction offer (graph.py:1185-1222), the
 * supervisor gate (graph.py:1224-1244) and the new-character confirmation
 * (graph.py:1251-1334).
 */
module Gating {
  import opened Wrappers
  import opened Strings
  import opened Json
  import opened Seqs
  import opened Calls
  import opened Keywords
  import opened Canvas

  /** A chat message, by its `type` and `role` attributes ("" when absent) and its content. */
  datatype Message = Message(msgType: string, role: string, content: Json)

  predicate IsFromUser(m: Message) {
    m.msgType == "human" || m.role == "user"
  }

  /** `str(m.content or "")` */
  function ContentText(m: Message): string {
    if Truthy(m.content) then PyStr(m.content) else ""
  }

  /** The content of the last user message among the first `n`, or "". */
  function LastUserTextUpTo(messages: seq<Message>, n: nat): string
    requires n <= |messages|
  {
    if n == 0 then ""
    else if IsFromUser(messages[n - 1]) then ContentText(messages[n - 1])
    else LastUserTextUpTo(messages, n - 1)
  }

  function LastUserText(messages: seq<Message>): string {
    LastUserTextUpTo(messages, |messages|)
  }

  /** The text read is that of a user message after which no user spoke; with no user message it is "". */
  lemma {:induction false} LastUserTextSpec(messages: seq<Message>, n: nat) returns (i: nat)
    requires n <= |messages|
    ensures (forall j :: 0 <= j < n ==> !IsFromUser(messages[j])) ==> LastUserTextUpTo(messages, n) == ""
    ensures (exists j :: 0 <= j < n && IsFromUser(messages[j])) ==>
      (i < n && IsFromUser(messages[i]) && LastUserTextUpTo(messages, n) == ContentText(messages[i])
       && forall j :: i < j < n ==> !IsFromUser(messages[j]))
  {
    i := 0;
    if n > 0 {
      if IsFromUser(messages[n - 1]) {
        i := n - 1;
      } else {
        i := LastUserTextSpec(messages, n - 1);
      }
    }
  }

  /** The reversed loop at graph.py:1188-1192. */
  method FindLastUserText(messages: seq<Message>) returns (text: string)
    ensures text == LastUserText(messages)
  {
    var i := |messages|;
    while i > 0
      invariant 0 <= i <= |messages|
      invariant LastUserText(messages) == LastUserTextUpTo(messages, i)
    {
      i := i - 1;
      var m := messages[i];
      if m.msgType == "human" || m.role == "user" {
        return if Truthy(m.content) then PyStr(m.content) else "";
      }
    }
    return "";
  }

  /** The reply text, the batch and the quick replies, as the passes hand them on. */
  datatype Turn = Turn(text: string, calls: seq<ToolCall>, replies: Option<seq<QuickReply>>)

  // ---------------------------------------------------------------------
  // Story directions and the supervisor gate

  const StoryDirectionReplies: seq<QuickReply> := [
    QuickReply("方向A：暖心日常", "我选择方向A（暖心日常）：请基于当前项目已有剧情与角色关系（沿用同一世界观/场景/氛围）续写下一段 15 秒的小故事。先给我紧凑剧情梗概（3-5句），再生成九宫格分镜（image）并连接到15s视频（composeVideo）。"),
    QuickReply("方向B：轻冒险任务", "我选择方向B（轻冒险任务）：请基于当前项目已有剧情续写，加入一个小目标/小危机但保持治愈基调。先给剧情梗概（3-5句），再生成九宫格分镜（image）并连接到15s视频（composeVideo）。"),
    QuickReply("方向C：小悬疑反转", "我选择方向C（小悬疑反转）：请基于当前项目已有剧情续写，前半段制造小谜团，结尾温暖反转（不要跳出既有设定）。先给剧情梗概（3-5句），再生成九宫格分镜（image）并连接到15s视频（composeVideo）。"),
    QuickReply("自定义方向…", "我想自定义续写方向（基于当前项目已有剧情，不要另起炉灶）：\n- 主题/情绪：\n- 场景：\n- 关键事件：\n- 结尾落点：\n请基于我的填写先给梗概，再做九宫格分镜与15s视频。")
  ]

  const StoryDirectionText := "给你 3 个续写方向，" + "点一个我就按这个继续写；也可以选“自定义方向”把你想要的走向填进去。"

  const GateReplies: seq<QuickReply> := [
    QuickReply("继续创作（先选方向）", "基于我当前项目画布，先给 3 个可选方向（按钮）让我选；我选完你再在画布创建分镜/视频节点。"),
    QuickReply("直接生成（我给具体需求）", "我想在画布生成一个内容：\n- 类型（图片/分镜/视频）：\n- 主题：\n- 风格：\n- 时长/比例（如需要）：\n请按我的填写创建节点并执行。"),
    QuickReply("只聊不操作画布", "先不操作画布。请先用一句话问我：我想做什么类型的内容、有什么参考、以及希望的风格/时长。")
  ]

  const GateText := "我先不动画布。你想先聊清楚需求，还是直接点一个选项让我开始执行？"

  /** `not quick_replies_payload` */
  predicate NoReplies(r: Option<seq<QuickReply>>) {
    r.None? || r.value == []
  }

  /** graph.py:1199-1222: a request for directions, answered without an
      actions block, replaces the batch by four direction buttons. */
  function SuggestStory(u: string, t: Turn): Turn {
    if IsStorySuggestionRequest(u) && !Contains(t.text, "tapcanvas_actions")
    then Turn(StoryDirectionText, [], Some(StoryDirectionReplies))
    else t
  }

  /** graph.py:1225-1244: `allow_canvas_tools is False` empties the batch. */
  function Gate(allow: Json, t: Turn): Turn {
    if allow != JBool(false) then t
    else Turn(if IsBlank(t.text) then GateText else t.text, [], if NoReplies(t.replies) then Some(GateReplies) else t.replies)
  }

  /** The two screens in order. */
  function Screen(u: string, allow: Json, t: Turn): Turn {
    Gate(allow, SuggestStory(u, t))
  }

  lemma GateTextNotBlank()
    ensures !IsBlank(GateText) && !IsBlank(StoryDirectionText)
  {
    NotBlankByHead(GateText);
    NotBlankByHead(StoryDirectionText);
  }

  /** A refused turn has an empty batch, some quick replies and a non-blank text. */
  lemma GateClosesCanvas(u: string, allow: Json, t: Turn)
    requires allow == JBool(false)
    ensures Screen(u, allow, t).calls == []
    ensures !NoReplies(Screen(u, allow, t).replies)
    ensures !IsBlank(Screen(u, allow, t).text)
  {
    GateTextNotBlank();
  }

  /** Any value other than `False` (missing, None, True, 0, ...) lets the turn through unchanged. */
  lemma GateOpen(allow: Json, t: Turn)
    requires allow != JBool(false)
    ensures Gate(allow, t) == t
  {
  }

  /** A request for directions, answered without an actions block, offers the four directions and nothing on the canvas. */
  lemma StoryDirectionsOffered(u: string, allow: Json, t: Turn)
    requires IsStorySuggestionRequest(u) && !Contains(t.text, "tapcanvas_actions")
    ensures Screen(u, allow, t).calls == []
    ensures Screen(u, allow, t).replies == Some(StoryDirectionReplies)
    ensures Screen(u, allow, t).text == StoryDirectionText
  {
    GateTextNotBlank();
  }

  // ---------------------------------------------------------------------
  // The new-character confirmation

  /** The stripped label of an image create, when it is not blank. */
  function ImageLabelAt(i: nat, c: ToolCall): Option<string> {
    if CreatesType(c, "image") && LabelOrEmpty(c) != [] then Some(LabelOrEmpty(c)) else None
  }

  /** `created_image_labels` */
  function CreatedImageLabels(calls: seq<ToolCall>): seq<string> {
    FilterMap(ImageLabelAt, calls)
  }

  /** Whether one of the first `n` calls creates a storyboard grid. */
  predicate GridUpTo(calls: seq<ToolCall>, n: nat)
    requires n <= |calls|
  {
    AnyUpTo(IsGridCreate, calls, n)
  }

  /** `has_storyboard_create` */
  predicate HasGridCreate(calls: seq<ToolCall>) {
    GridUpTo(calls, |calls|)
  }

  /** Some call creates a storyboard grid exactly when the batch has one. */
  lemma GridUpToSpec(calls: seq<ToolCall>, n: nat)
    requires n <= |calls|
    ensures GridUpTo(calls, n) <==> exists i :: 0 <= i < n && IsGridCreate(calls[i])
  {
    AnyUpToSpec(IsGridCreate, calls, n);
  }

  /** The loop at graph.py:1273-1290; `ok` is false where `.get` on a create's arguments raises. */
  method ScanCreates(calls: seq<ToolCall>) returns (ok: bool, labels: seq<string>, grid: bool)
    ensures ok <==> CreatesOk(calls)
    ensures ok ==> labels == CreatedImageLabels(calls) && grid == HasGridCreate(calls)
  {
    ok, labels, grid := ScanWithFlag(CreateOk, ImageLabelAt, IsGridCreate, calls);
    CreatesOkUpTo(calls, |calls|);
  }

  /** A created image that introduces a character not yet on the canvas. */
  predicate IsNewCharacter(l: string, existing: set<string>) {
    (Contains(l, "角色") || Contains(Lower(l), "character"))
    && l !in existing
    && !ContainsAny(l, StoryboardLabelWords)
  }

  function NewCharacterAt(existing: set<string>): (nat, string) -> Option<string> {
    (i: nat, l: string) => if IsNewCharacter(l, existing) then Some(l) else None
  }

  /** `new_character_labels` */
  function NewCharacterLabels(created: seq<string>, existing: set<string>): seq<string> {
    FilterMap(NewCharacterAt(existing), created)
  }

  /** A call the confirmation keeps: the image create or the run of a new character. */
  predicate KeptFor(c: ToolCall, keep: set<string>) {
    if IsCreate(c) then CreatesType(c, "image") && Arg(c, "label").JStr? && Strip(Arg(c, "label").s) in keep
    else IsRun(c) && RunTarget(c).Some? && RunTarget(c).value in keep
  }

  function KeepAt(keep: set<string>): (nat, ToolCall) -> Option<ToolCall> {
    (i: nat, c: ToolCall) => if KeptFor(c, keep) then Some(c) else None
  }

  /** The loop at graph.py:1303-1316, which raises on unreadable create or run arguments. */
  function KeepNewCharacter(calls: seq<ToolCall>, keep: set<string>): Pass {
    if CreatesOk(calls) && RunsOk(calls) then Continue(FilterMap(KeepAt(keep), calls))
    else Raise(calls, AttributeError)
  }

  /** Exactly the calls that create or run a new character are kept, in their order. */
  lemma KeepNewCharacterSpec(calls: seq<ToolCall>, keep: set<string>, c: ToolCall)
    requires KeepNewCharacter(calls, keep).Continue?
    ensures c in KeepNewCharacter(calls, keep).calls <==> c in calls && KeptFor(c, keep)
    ensures IsSubsequence(KeepNewCharacter(calls, keep).calls, calls)
  {
    FilterMapMembers(KeepAt(keep), calls, c);
    FilterMapSubsequence(KeepAt(keep), calls);
  }

  method KeepNewCharacterCalls(calls: seq<ToolCall>, keep: set<string>) returns (p: Pass)
    ensures p == KeepNewCharacter(calls, keep)
  {
    var ok, kept := ScanChecked(CreateRunOk, KeepAt(keep), calls);
    CreatesRunsOkUpTo(calls);
    if !ok {
      return Raise(calls, AttributeError);
    }
    return Continue(kept);
  }

  const NewCharacterReplies: seq<QuickReply> := [
    QuickReply("角色OK，继续分镜", "新角色我确认OK。请把新角色纳入同一项目设定，基于已有剧情续写下一段，并生成九宫格分镜（image）再连接到15s视频（composeVideo）。"),
    QuickReply("重做这个角色", "这个新角色不满意。请保持同一角色定位与风格，重做 3 个版本给我选（同一个 image 节点出 3 张即可）。"),
    QuickReply("不要新角色", "不要新增角色了。请只用现有角色基于已有剧情续写，并生成九宫格分镜与15s视频。")
  ]

  const NewCharacterText := "我先为续写新增了一个角色设定图。你确认角色外观后，我再继续生成续写分镜。"

  /** A turn after the new-character pass: the batch (or where it raised) with the text and replies. */
  datatype Gated = Gated(pass: Pass, text: string, replies: Option<seq<QuickReply>>)

  /** Whether the confirmation applies to this batch, whose creates are readable. */
  predicate ConfirmsCharacter(u: string, ctx: Json, calls: seq<ToolCall>) {
    IsContinuationStep(u) && NewCharacterLabels(CreatedImageLabels(calls), CanvasLabels(ctx)) != [] && HasGridCreate(calls)
  }

  /** graph.py:1251-1334 */
  function NewCharacterGate(u: string, ctx: Json, t: Turn): Gated {
    if !CreatesOk(t.calls) then Gated(Raise(t.calls, AttributeError), t.text, t.replies)
    else if !ConfirmsCharacter(u, ctx, t.calls) then Gated(Continue(t.calls), t.text, t.replies)
    else
      var keep := set l | l in NewCharacterLabels(CreatedImageLabels(t.calls), CanvasLabels(ctx));
      match KeepNewCharacter(t.calls, keep)
      case Raise(c, e) => Gated(Raise(c, e), t.text, t.replies)
      case Continue(kept) => Gated(Continue(kept), NewCharacterText, Some(NewCharacterReplies))
  }

  /** The pass only ever keeps or drops calls, in their order: a kept call is
      in the batch and is the create or the run of a character new to the
      canvas, and every such call is kept; the confirmation buttons come with it. Outside a
      continuation turn the batch goes through untouched. */
  lemma NewCharacterGateSpec(u: string, ctx: Json, t: Turn, c: ToolCall)
    requires NewCharacterGate(u, ctx, t).pass.Continue?
    ensures CreatesOk(t.calls)
    ensures !ConfirmsCharacter(u, ctx, t.calls) ==> NewCharacterGate(u, ctx, t) == Gated(Continue(t.calls), t.text, t.replies)
    ensures ConfirmsCharacter(u, ctx, t.calls) ==>
      var keep := set l | l in NewCharacterLabels(CreatedImageLabels(t.calls), CanvasLabels(ctx));
      && (c in NewCharacterGate(u, ctx, t).pass.calls <==> c in t.calls && KeptFor(c, keep))
      && IsSubsequence(NewCharacterGate(u, ctx, t).pass.calls, t.calls)
      && NewCharacterGate(u, ctx, t).replies == Some(NewCharacterReplies)
      && NewCharacterGate(u, ctx, t).text == NewCharacterText
  {
    if ConfirmsCharacter(u, ctx, t.calls) {
      var keep := set l | l in NewCharacterLabels(CreatedImageLabels(t.calls), CanvasLabels(ctx));
      KeepNewCharacterSpec(t.calls, keep, c);
    }
  }

  /** A kept label names a character that is not on the canvas. */
  lemma NewCharacterLabelsSpec(created: seq<string>, existing: set<string>, l: string)
    ensures l in NewCharacterLabels(created, existing) <==> l in created && IsNewCharacter(l, existing)
  {
    FilterMapMembers(NewCharacterAt(existing), created, l);
    if l in created && IsNewCharacter(l, existing) {
      var i :| 0 <= i < |created| && created[i] == l;
      assert NewCharacterAt(existing)(i, created[i]) == Some(l);
    }
  }

  /** The pass as the source runs it. */
  method NewCharacterPass(u: string, ctx: Json, t: Turn) returns (g: Gated)
    ensures g == NewCharacterGate(u, ctx, t)
  {
    var existing := CollectCanvasLabels(ctx);
    var ok, created, grid := ScanCreates(t.calls);
    if !ok {
      return Gated(Raise(t.calls, AttributeError), t.text, t.replies);
    }
    var newLabels := NewCharacterLabels(created, existing);
    if IsContinuationStep(u) && newLabels != [] && grid {
      var keep := set l | l in newLabels;
      var p := KeepNewCharacterCalls(t.calls, keep);
      if p.Raise? {
        return Gated(p, t.text, t.replies);
      }
      return Gated(p, NewCharacterText, Some(NewCharacterReplies));
    }
    return Gated(Continue(t.calls), t.text, t.replies);
  }
}
