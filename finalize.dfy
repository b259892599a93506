/**
 * `finalize_answer` (graph.py:1081-1779) end to end: the provider's answer,
 * the screens and the tool-call passes in the order the source runs them,
 * the three ways the OpenAI branch fails, the text fallback, the quick-reply
 * extraction, the citation substitution and the message's extra fields.
 *
 * The provider call itself is an input (`Provider`): the events streamed
 * back, or the exception it raised. Python's in-place list surgery becomes a
 * chain of values; a pass that raises hands on the batch as it stood.
 */
module Finalize {
  import opened Wrappers
  import opened Strings
  import opened Json
  import opened Calls
  import opened Keywords
  import Stream = StreamReducer
  import Gating
  import Normalize
  import Storyboard
  import Continuity
  import Sequencing
  import Reply
  import Errors = ErrorSummary
  import Roles

  // ---------------------------------------------------------------------
  // The passes over a non-empty batch

  /** graph.py:1336-1711: normalization, the storyboard workflow, reference
      continuity, the video-run drop and the automatic runs, in that order,
      stopping at the first that raises. */
  function Rewrite(u: string, ctx: Json, calls: seq<ToolCall>): Pass {
    var composed := Normalize.ComposedPrompts(Normalize.NormalizedImages(calls));
    match Storyboard.StoryboardPass(u, ctx, composed)
    case Raise(c, e) => Raise(c, e)
    case Continue(linked) =>
      match Continuity.Continuity(u, ctx, linked)
      case Raise(c, e) => Raise(c, e)
      case Continue(continued) =>
        match Sequencing.DropPremature(continued)
        case Raise(c, e) => Raise(c, e)
        case Continue(dropped) => Sequencing.AutoRuns(dropped)
  }

  /** The passes keep every create readable. */
  lemma RewriteCreatesOk(u: string, ctx: Json, calls: seq<ToolCall>)
    requires CreatesOk(calls) && Rewrite(u, ctx, calls).Continue?
    ensures CreatesOk(Rewrite(u, ctx, calls).calls)
  {
    var normalized := Normalize.NormalizedImages(calls);
    var composed := Normalize.ComposedPrompts(normalized);
    Normalize.NormalizedImagesSpec(calls);
    Normalize.ComposedPromptsSpec(normalized);
    Storyboard.StoryboardPassCreatesOk(u, ctx, composed);
    var linked := Storyboard.StoryboardPass(u, ctx, composed).calls;
    Continuity.ContinuityCreatesOk(u, ctx, linked);
    var continued := Continuity.Continuity(u, ctx, linked).calls;
    Sequencing.DropPrematureCreatesOk(continued);
    Sequencing.AutoRunsCreatesOk(Sequencing.DropPremature(continued).calls);
  }

  /** None of the passes makes anything out of an empty batch (the
      new-character confirmation can leave one). */
  lemma RewriteEmpty(u: string, ctx: Json)
    ensures Rewrite(u, ctx, []) == Continue([])
  {
    assert Storyboard.StoryboardPass(u, ctx, []) == Continue([]);
    assert Continuity.Continuity(u, ctx, []) == Continue([]);
    assert Sequencing.CreatedImages([]) == [];
    assert Sequencing.AutoRunsFor([], Sequencing.Running([]), 0) == [];
  }

  /** The passes as the source runs them, one method per pass. */
  method RunPasses(u: string, ctx: Json, calls: seq<ToolCall>) returns (p: Pass)
    requires CreatesOk(calls)
    ensures p == Rewrite(u, ctx, calls)
  {
    Normalize.NormalizedImagesSpec(calls);
    var normalized := Normalize.NormalizeImages(calls);
    Normalize.ComposedPromptsSpec(normalized);
    var composed := Normalize.ComposePrompts(normalized);
    var sb := Storyboard.StoryboardStep(u, ctx, composed);
    if sb.Raise? {
      return sb;
    }
    Storyboard.StoryboardPassCreatesOk(u, ctx, composed);
    var cont := Continuity.LinkUpstream(u, ctx, sb.calls);
    if cont.Raise? {
      return cont;
    }
    Continuity.ContinuityCreatesOk(u, ctx, sb.calls);
    var dropped := Sequencing.DropPrematureVideoRuns(cont.calls);
    if dropped.Raise? {
      return dropped;
    }
    Sequencing.DropPrematureCreatesOk(cont.calls);
    p := Sequencing.AppendAutoRuns(dropped.calls);
  }

  // ---------------------------------------------------------------------
  // The turn: screens, confirmation, passes

  /** graph.py:1185-1711 after the stream was collected: the two screens, and
      for a batch they leave non-empty, the new-character confirmation and
      the passes. Quick replies start out as `None`. */
  function CanvasTurn(u: string, allow: Json, ctx: Json, text: string, calls: seq<ToolCall>): Gating.Gated {
    var t := Gating.Screen(u, allow, Gating.Turn(text, calls, None));
    if t.calls == [] then Gating.Gated(Continue([]), t.text, t.replies)
    else
      var g := Gating.NewCharacterGate(u, ctx, t);
      match g.pass
      case Raise(_, _) => g
      case Continue(kept) => Gating.Gated(Rewrite(u, ctx, kept), g.text, g.replies)
  }

  /** A batch the screens empty stays empty: no pass runs and none adds a call
      back (graph.py:1248). With `allow_canvas_tools` false that is always so,
      and the text and quick replies are the gate's. */
  lemma ScreenedBatchStaysEmpty(u: string, allow: Json, ctx: Json, text: string, calls: seq<ToolCall>)
    ensures var t := Gating.Screen(u, allow, Gating.Turn(text, calls, None));
      t.calls == [] ==> CanvasTurn(u, allow, ctx, text, calls) == Gating.Gated(Continue([]), t.text, t.replies)
    ensures allow == JBool(false) ==>
      var g := CanvasTurn(u, allow, ctx, text, calls);
      g.pass == Continue([]) && !IsBlank(g.text) && !Gating.NoReplies(g.replies)
  {
    if allow == JBool(false) {
      Gating.GateClosesCanvas(u, allow, Gating.Turn(text, calls, None));
    }
  }

  /** Whatever gets through the turn has readable creates. */
  lemma CanvasTurnCreatesOk(u: string, allow: Json, ctx: Json, text: string, calls: seq<ToolCall>)
    requires CanvasTurn(u, allow, ctx, text, calls).pass.Continue?
    ensures CreatesOk(CanvasTurn(u, allow, ctx, text, calls).pass.calls)
  {
    var t := Gating.Screen(u, allow, Gating.Turn(text, calls, None));
    if t.calls != [] {
      var g := Gating.NewCharacterGate(u, ctx, t);
      if g.pass.Continue? {
        Gating.NewCharacterGateSpec(u, ctx, t, t.calls[0]);
        KeptCreatesOk(u, ctx, t);
        RewriteCreatesOk(u, ctx, g.pass.calls);
      }
    }
  }

  /** The confirmation keeps only calls of the batch, whose creates it read. */
  lemma KeptCreatesOk(u: string, ctx: Json, t: Gating.Turn)
    requires Gating.NewCharacterGate(u, ctx, t).pass.Continue?
    ensures CreatesOk(Gating.NewCharacterGate(u, ctx, t).pass.calls)
  {
    var kept := Gating.NewCharacterGate(u, ctx, t).pass.calls;
    forall i | 0 <= i < |kept| && IsCreate(kept[i])
      ensures ArgsOk(kept[i])
    {
      Gating.NewCharacterGateSpec(u, ctx, t, kept[i]);
      var j :| 0 <= j < |t.calls| && t.calls[j] == kept[i];
    }
  }

  /** The turn as the source runs it. */
  method RunCanvasTurn(u: string, allow: Json, ctx: Json, text: string, calls: seq<ToolCall>) returns (g: Gating.Gated)
    ensures g == CanvasTurn(u, allow, ctx, text, calls)
  {
    var t := Gating.Screen(u, allow, Gating.Turn(text, calls, None));
    if t.calls == [] {
      return Gating.Gated(Continue([]), t.text, t.replies);
    }
    g := Gating.NewCharacterPass(u, ctx, t);
    if g.pass.Raise? {
      return;
    }
    KeptCreatesOk(u, ctx, t);
    var p := RunPasses(u, ctx, g.pass.calls);
    g := Gating.Gated(p, g.text, g.replies);
  }

  // ---------------------------------------------------------------------
  // The provider and its failures

  /** What the provider call produced: the OpenAI stream's events, or the
      exception it raised (`ValueError` for a missing key, an OpenAI error
      with the payload `_format_openai_error` extracts), or Gemini's text. */
  datatype Provider =
    | OpenAIStream(events: seq<Stream.Event>)
    | OpenAIKeyMissing(message: string)
    | OpenAIFailure(payload: map<string, Json>)
    | GeminiAnswer(content: string)

  /** The answer text, the batch, the quick replies and the error payload once the provider step is over. */
  datatype Outcome = Outcome(content: string, calls: seq<ToolCall>, replies: Option<seq<QuickReply>>, error: Option<map<string, Json>>)

  const KeyMissingText := "无法生成最终答案：" + "后端未配置模型密钥（请检查 OPENAI_API_KEY / GEMINI_API_KEY）。"
  const ApiErrorPrefix := "无法生成最终答案：OpenAI 接口异常（"
  const RuntimeErrorText := "无法生成最终答案：运行时异常。"

  /** `{"type": exc.__class__.__name__, "message": str(exc)}` */
  function ErrorPayload(kind: string, message: string): map<string, Json> {
    map["type" := JStr(kind), "message" := JStr(message)]
  }

  /** graph.py:1167-1738: the provider step. The passes' exceptions
      (`AttributeError`, `TypeError`) land in the generic handler, whose
      `str(exc)` is `crashMessage`; the batch and the quick replies stay as
      they stood. */
  function Generate(parse: string -> Option<Json>, u: string, allow: Json, ctx: Json, crashMessage: string, p: Provider): Outcome {
    match p
    case GeminiAnswer(content) => Outcome(content, [], None, None)
    case OpenAIKeyMissing(message) => Outcome(KeyMissingText, [], None, Some(ErrorPayload("ValueError", message)))
    case OpenAIFailure(payload) => Outcome(ApiErrorPrefix + Errors.Summarize(payload) + "）。", [], None, Some(payload))
    case OpenAIStream(events) =>
      var (text, calls) := Stream.Collected(parse, events);
      var g := CanvasTurn(u, allow, ctx, text, calls);
      match g.pass
      case Continue(out) => Outcome(g.text, out, g.replies, None)
      case Raise(at, e) => Outcome(RuntimeErrorText, at, g.replies, Some(ErrorPayload(e, crashMessage)))
  }

  lemma ErrorTextsNotBlank(payload: map<string, Json>)
    ensures !IsBlank(KeyMissingText) && !IsBlank(RuntimeErrorText)
    ensures !IsBlank(ApiErrorPrefix + Errors.Summarize(payload) + "）。")
  {
    NotBlankByHead(KeyMissingText);
    NotBlankByHead(RuntimeErrorText);
    var s := ApiErrorPrefix + Errors.Summarize(payload) + "）。";
    assert s[0] == ApiErrorPrefix[0];
    NotBlankByHead(s);
  }

  /** A failure answers with its fixed message and carries no quick replies;
      only a pass that raised leaves a batch behind, the batch as it stood. */
  lemma GenerateFailures(parse: string -> Option<Json>, u: string, allow: Json, ctx: Json, crashMessage: string, p: Provider)
    ensures var o := Generate(parse, u, allow, ctx, crashMessage, p);
      && (o.error.Some? ==> !IsBlank(o.content))
      && (!p.OpenAIStream? ==> o.calls == [] && o.replies.None?)
      && (p.OpenAIStream? && o.error.Some? ==>
            var (text, calls) := Stream.Collected(parse, p.events);
            CanvasTurn(u, allow, ctx, text, calls).pass == Raise(o.calls, o.error.value["type"].s))
      && (p.OpenAIStream? && o.error.None? ==> CreatesOk(o.calls))
  {
    ErrorTextsNotBlank(if p.OpenAIFailure? then p.payload else map[]);
    if p.OpenAIStream? {
      var (text, calls) := Stream.Collected(parse, p.events);
      if CanvasTurn(u, allow, ctx, text, calls).pass.Continue? {
        CanvasTurnCreatesOk(u, allow, ctx, text, calls);
      }
    }
  }

  // ---------------------------------------------------------------------
  // The message

  const DefaultReason := "根据对话意图选择。"

  /** `message_kwargs`: the role fields always, the other three only when truthy. */
  datatype Kwargs = Kwargs(activeRole: string, activeRoleName: string, activeRoleReason: string,
                           toolCalls: Option<seq<ToolCall>>, quickReplies: Option<seq<QuickReply>>,
                           llmError: Option<map<string, Json>>)

  /** The state update: the message's content and fields and the sources it cites
      (the update repeats the three role fields). */
  datatype Update = Update(content: string, kwargs: Kwargs, sources: seq<Reply.Source>)

  /** The state fields `finalize_answer` reads; `None` for a key the state lacks. */
  datatype Inputs = Inputs(activeRole: Option<string>, activeRoleReason: Option<string>, allowCanvasTools: Json,
                           canvasContext: Json, messages: seq<Gating.Message>, sources: seq<Reply.Source>)

  /** graph.py:1743-1744: a blank answer with a batch reads as the batch's
      summary; `None` where building it raises on unreadable arguments. */
  function Content(o: Outcome): Option<string> {
    if IsBlank(o.content) && o.calls != [] then Reply.FallbackText(o.calls) else Some(o.content)
  }

  /** graph.py:1745-1746: a non-blank text loses its actions block. */
  function Cleaned(parse: string -> Option<Json>, content: string): string {
    if IsBlank(content) then content else Reply.ExtractActions(parse, content).0
  }

  /** The quick replies as graph.py:1745-1746 leaves them: whatever the
      extraction found, `None` when it found no actions, so the buttons set
      by the gate, the story directions or the character confirmation are
      dropped from any text without an actions block. */
  function RepliesAsWritten(parse: string -> Option<Json>, content: string, replies: Option<seq<QuickReply>>): Option<seq<QuickReply>> {
    if IsBlank(content) then replies else Reply.ExtractActions(parse, content).1
  }

  /** The quick replies as evidently intended: the extracted actions when the
      text has some, else the buttons set earlier. */
  function Replies(parse: string -> Option<Json>, content: string, replies: Option<seq<QuickReply>>): Option<seq<QuickReply>> {
    if IsBlank(content) then replies
    else match Reply.ExtractActions(parse, content).1
      case Some(actions) => Some(actions)
      case None => replies
  }

  /** `state.get("active_role", DEFAULT_ROLE_ID)` */
  function RoleIdOf(reg: Roles.Registry, st: Inputs): string {
    if st.activeRole.Some? then st.activeRole.value else reg.defaultId
  }

  /** graph.py:1747-1779: the citation substitution and the message fields. */
  function Assemble(reg: Roles.Registry, normalize: string -> string, st: Inputs, calls: seq<ToolCall>,
                    content: string, replies: Option<seq<QuickReply>>, error: Option<map<string, Json>>): Update
    requires Roles.ValidRegistry(reg)
  {
    var role := Roles.ResolveRole(reg, normalize, RoleIdOf(reg, st));
    var reason := if st.activeRoleReason.Some? then st.activeRoleReason.value else DefaultReason;
    var cited := Reply.Cite(content, st.sources);
    Update(cited.0,
           Kwargs(role.0, role.1.name, reason,
                  if calls != [] then Some(calls) else None,
                  if replies.Some? && replies.value != [] then replies else None,
                  if error.Some? && error.value != map[] then error else None),
           cited.1)
  }

  /** graph.py:1741-1779 from the provider step's outcome on, as written. */
  function FinishAsWritten(reg: Roles.Registry, normalize: string -> string, parse: string -> Option<Json>,
                           st: Inputs, o: Outcome): Option<Update>
    requires Roles.ValidRegistry(reg)
  {
    match Content(o)
    case None => None
    case Some(content) =>
      Some(Assemble(reg, normalize, st, o.calls, Cleaned(parse, content), RepliesAsWritten(parse, content, o.replies), o.error))
  }

  /** The same with the earlier quick replies kept when the text has no actions. */
  function Finish(reg: Roles.Registry, normalize: string -> string, parse: string -> Option<Json>,
                  st: Inputs, o: Outcome): Option<Update>
    requires Roles.ValidRegistry(reg)
  {
    match Content(o)
    case None => None
    case Some(content) =>
      Some(Assemble(reg, normalize, st, o.calls, Cleaned(parse, content), Replies(parse, content, o.replies), o.error))
  }

  /** The outcome of the provider step for this state. */
  function OutcomeOf(parse: string -> Option<Json>, crashMessage: string, st: Inputs, p: Provider): Outcome {
    Generate(parse, Gating.LastUserText(st.messages), st.allowCanvasTools, st.canvasContext, crashMessage, p)
  }

  /** `finalize_answer` as written; `None` where it raises. */
  function FinalizeAnswerAsWritten(reg: Roles.Registry, normalize: string -> string, parse: string -> Option<Json>,
                                   crashMessage: string, st: Inputs, p: Provider): Option<Update>
    requires Roles.ValidRegistry(reg)
  {
    FinishAsWritten(reg, normalize, parse, st, OutcomeOf(parse, crashMessage, st, p))
  }

  /** `finalize_answer` with the earlier quick replies kept when the text has no actions. */
  function FinalizeAnswer(reg: Roles.Registry, normalize: string -> string, parse: string -> Option<Json>,
                          crashMessage: string, st: Inputs, p: Provider): Option<Update>
    requires Roles.ValidRegistry(reg)
  {
    Finish(reg, normalize, parse, st, OutcomeOf(parse, crashMessage, st, p))
  }

  /** An outcome finishes (the fallback summary can be built) unless it is a
      blank answer whose batch has an unreadable create; the message's fields
      are the resolved role, the default reason when the state has none, the
      batch and the error payload exactly when non-empty, and quick replies
      only when there are some. Both readings of the quick replies agree on
      all of this. */
  lemma FinishSpec(reg: Roles.Registry, normalize: string -> string, parse: string -> Option<Json>, st: Inputs, o: Outcome)
    requires Roles.ValidRegistry(reg)
    ensures Finish(reg, normalize, parse, st, o).Some? <==> !IsBlank(o.content) || o.calls == [] || CreatesOk(o.calls)
    ensures FinishAsWritten(reg, normalize, parse, st, o).Some? <==> Finish(reg, normalize, parse, st, o).Some?
    ensures Finish(reg, normalize, parse, st, o).Some? ==>
      var k := Finish(reg, normalize, parse, st, o).value.kwargs;
      var k' := FinishAsWritten(reg, normalize, parse, st, o).value.kwargs;
      && k.activeRole == normalize(RoleIdOf(reg, st)) && k'.activeRole == k.activeRole
      && k.activeRoleReason == k'.activeRoleReason
      && (st.activeRoleReason.None? ==> k.activeRoleReason == DefaultReason)
      && (st.activeRoleReason.Some? ==> k.activeRoleReason == st.activeRoleReason.value)
      && k.toolCalls == k'.toolCalls
      && (k.toolCalls.Some? <==> o.calls != [])
      && (k.toolCalls.Some? ==> k.toolCalls.value == o.calls)
      && k.llmError == k'.llmError
      && (k.llmError.Some? <==> o.error.Some? && o.error.value != map[])
      && (k.llmError.Some? ==> k.llmError == o.error)
      && (k.quickReplies.Some? ==> k.quickReplies.value != [])
      && (k'.quickReplies.Some? ==> k'.quickReplies.value != [])
  {
    Reply.FallbackTextEnds(o.calls);
  }

  /** The corrected reading keeps the quick replies set before the extraction
      whenever the answer has no actions block; as written they survive only a
      blank answer. */
  lemma FinishKeepsReplies(reg: Roles.Registry, normalize: string -> string, parse: string -> Option<Json>, st: Inputs, o: Outcome)
    requires Roles.ValidRegistry(reg)
    requires !IsBlank(o.content) && !Contains(o.content, Reply.Marker)
    requires o.replies.Some? && o.replies.value != []
    ensures Finish(reg, normalize, parse, st, o).Some?
    ensures Finish(reg, normalize, parse, st, o).value.kwargs.quickReplies == o.replies
    ensures FinishAsWritten(reg, normalize, parse, st, o).value.kwargs.quickReplies.None?
  {
    Reply.ExtractWithoutMarker(parse, o.content);
  }

  /** The node never raises after the provider step: a blank answer comes with
      a batch whose creates are readable, so its summary can be built; the
      message carries the batch and the error exactly as the provider step left
      them. */
  lemma FinalizeAnswers(reg: Roles.Registry, normalize: string -> string, parse: string -> Option<Json>,
                        crashMessage: string, st: Inputs, p: Provider)
    requires Roles.ValidRegistry(reg)
    ensures FinalizeAnswer(reg, normalize, parse, crashMessage, st, p).Some?
    ensures FinalizeAnswerAsWritten(reg, normalize, parse, crashMessage, st, p).Some?
    ensures var o := OutcomeOf(parse, crashMessage, st, p);
      var k := FinalizeAnswer(reg, normalize, parse, crashMessage, st, p).value.kwargs;
      && (k.toolCalls.Some? <==> o.calls != [])
      && (k.toolCalls.Some? ==> k.toolCalls.value == o.calls)
      && (p.OpenAIKeyMissing? ==> k.toolCalls.None? && k.llmError == Some(ErrorPayload("ValueError", p.message)))
      && (p.OpenAIFailure? ==> k.toolCalls.None? && (k.llmError.Some? <==> p.payload != map[]))
  {
    var o := OutcomeOf(parse, crashMessage, st, p);
    GenerateFailures(parse, Gating.LastUserText(st.messages), st.allowCanvasTools, st.canvasContext, crashMessage, p);
    FinishSpec(reg, normalize, parse, st, o);
    if p.OpenAIKeyMissing? {
      assert "type" in ErrorPayload("ValueError", p.message);
    }
  }

  /** With `allow_canvas_tools` false the streamed turn ends with no tool calls
      and with non-blank text and some quick replies. */
  lemma GateClosesOutcome(parse: string -> Option<Json>, crashMessage: string, st: Inputs, events: seq<Stream.Event>)
    requires st.allowCanvasTools == JBool(false)
    ensures var o := OutcomeOf(parse, crashMessage, st, OpenAIStream(events));
      o.calls == [] && o.error.None? && !IsBlank(o.content) && !Gating.NoReplies(o.replies)
  {
    var (text, calls) := Stream.Collected(parse, events);
    ScreenedBatchStaysEmpty(Gating.LastUserText(st.messages), st.allowCanvasTools, st.canvasContext, text, calls);
  }

  /** The gate's promise reaches the message: no tool calls, and, once the
      quick replies are kept, the gate's buttons (or the story directions, or
      an answer's own actions). */
  lemma GateClosesMessage(reg: Roles.Registry, normalize: string -> string, parse: string -> Option<Json>,
                          crashMessage: string, st: Inputs, events: seq<Stream.Event>)
    requires Roles.ValidRegistry(reg) && st.allowCanvasTools == JBool(false)
    ensures var r := FinalizeAnswer(reg, normalize, parse, crashMessage, st, OpenAIStream(events));
      r.Some? && r.value.kwargs.toolCalls.None? && r.value.kwargs.quickReplies.Some?
  {
    var o := OutcomeOf(parse, crashMessage, st, OpenAIStream(events));
    GateClosesOutcome(parse, crashMessage, st, events);
    FinishSpec(reg, normalize, parse, st, o);
  }

  /** As written, the gate's buttons never reach the client: with
      `allow_canvas_tools` false and an answer without an actions block, the
      gate sets its buttons and the message ends up with no quick replies. */
  lemma GateRepliesLost(reg: Roles.Registry, normalize: string -> string, parse: string -> Option<Json>,
                        crashMessage: string, st: Inputs, events: seq<Stream.Event>)
    requires Roles.ValidRegistry(reg) && st.allowCanvasTools == JBool(false)
    requires !IsStorySuggestionRequest(Gating.LastUserText(st.messages))
    requires var text := Stream.Collected(parse, events).0; !IsBlank(text) && !Contains(text, Reply.Marker)
    ensures OutcomeOf(parse, crashMessage, st, OpenAIStream(events)).replies == Some(Gating.GateReplies)
    ensures var r := FinalizeAnswerAsWritten(reg, normalize, parse, crashMessage, st, OpenAIStream(events));
      r.Some? && r.value.kwargs.quickReplies.None?
    ensures var r := FinalizeAnswer(reg, normalize, parse, crashMessage, st, OpenAIStream(events));
      r.Some? && r.value.kwargs.quickReplies == Some(Gating.GateReplies)
  {
    var o := OutcomeOf(parse, crashMessage, st, OpenAIStream(events));
    var text := Stream.Collected(parse, events).0;
    GateClosesOutcome(parse, crashMessage, st, events);
    assert o.content == text;
    FinishKeepsReplies(reg, normalize, parse, st, o);
  }
}
