/**
 * The two normalizations `finalize_answer` applies to the batch's
 * `createNode` calls, editing their argument dicts in place: `textToImage`
 * becomes `image` (graph.py:1336-1347), and a `composeVideo` whose config has
 * structured shots or characters but no usable prompt gets one composed from
 * them (graph.py:1349-1366).
 *
 * These passes run after the new-character confirmation, which has already
 * read every create's arguments and raised on unreadable ones; so they take
 * `CreatesOk` as given.
 */
module Normalize {
  import opened Wrappers
  import opened Strings
  import opened Json
  import opened Calls
  import ComposePrompt

  // ---------------------------------------------------------------------
  // textToImage -> image

  /** graph.py:1338-1347 applied to one call. */
  function NormalizeImageCall(c: ToolCall): ToolCall {
    if !CreatesType(c, "textToImage") then c
    else
      var m := c.arguments.fields;
      var cfg := Get(m, "config");
      var m' := m["type" := JStr("image")];
      if cfg.JObj? && Get(cfg.fields, "kind") == JStr("textToImage")
      then ToolCall(c.id, c.name, JObj(m'["config" := JObj(cfg.fields["kind" := JStr("image")])]))
      else ToolCall(c.id, c.name, JObj(m'))
  }

  /** The batch after the loop at graph.py:1337-1347. */
  function NormalizedImages(calls: seq<ToolCall>): (r: seq<ToolCall>)
    ensures |r| == |calls|
  {
    seq(|calls|, i requires 0 <= i < |calls| => NormalizeImageCall(calls[i]))
  }

  /** A `textToImage` create becomes an `image` create, with a `textToImage`
      config kind renamed too; every other argument and every other call stays
      as it was. */
  lemma NormalizeImageCallSpec(c: ToolCall)
    ensures var r := NormalizeImageCall(c);
      && r.id == c.id && r.name == c.name
      && (ArgsOk(r) <==> ArgsOk(c))
      && !CreatesType(r, "textToImage")
      && (CreatesType(c, "textToImage") ==> CreatesType(r, "image"))
      && (!CreatesType(c, "textToImage") ==> r == c)
      && (forall k :: k != "type" && k != "config" ==> Arg(r, k) == Arg(c, k))
      && (CreatesType(c, "textToImage") && ConfigOrEmpty(c).JObj? && Get(ConfigOrEmpty(c).fields, "kind") == JStr("textToImage")
          ==> ConfigOrEmpty(r).JObj? && Get(ConfigOrEmpty(r).fields, "kind") == JStr("image"))
  {
    if CreatesType(c, "textToImage") {
      var r := NormalizeImageCall(c);
      assert c.arguments.JObj? && Args(r).Some?;
      assert Arg(r, "type") == JStr("image");
    }
  }

  /** After the pass no create asks for `textToImage`; the calls keep their
      order, ids and names, and the creates stay readable. */
  lemma NormalizedImagesSpec(calls: seq<ToolCall>)
    ensures var r := NormalizedImages(calls);
      && (forall i :: 0 <= i < |r| ==> !CreatesType(r[i], "textToImage"))
      && (forall i :: 0 <= i < |r| ==> r[i].id == calls[i].id && r[i].name == calls[i].name)
      && (forall i :: 0 <= i < |r| && !CreatesType(calls[i], "textToImage") ==> r[i] == calls[i])
      && (CreatesOk(calls) ==> CreatesOk(r))
      && (RunsOk(calls) <==> RunsOk(r))
      && (ConnectsOk(calls) <==> ConnectsOk(r))
  {
    forall i | 0 <= i < |calls| {
      NormalizeImageCallSpec(calls[i]);
    }
  }

  /** Normalizing twice is normalizing once. */
  lemma NormalizedImagesIdempotent(calls: seq<ToolCall>)
    ensures NormalizedImages(NormalizedImages(calls)) == NormalizedImages(calls)
  {
    var r := NormalizedImages(calls);
    forall i | 0 <= i < |r|
      ensures NormalizeImageCall(r[i]) == r[i]
    {
      NormalizeImageCallSpec(calls[i]);
      NormalizeImageCallSpec(r[i]);
    }
  }

  /** The loop at graph.py:1337-1347, rewriting the calls one by one. */
  method NormalizeImages(calls: seq<ToolCall>) returns (out: seq<ToolCall>)
    requires CreatesOk(calls)
    ensures out == NormalizedImages(calls)
  {
    out := calls;
    var i := 0;
    while i < |out|
      invariant 0 <= i <= |out| == |calls|
      invariant forall j :: 0 <= j < i ==> out[j] == NormalizeImageCall(calls[j])
      invariant forall j :: i <= j < |out| ==> out[j] == calls[j]
    {
      var c := out[i];
      if c.name == CreateNode {
        var args := Args(c).value;
        if Get(args, "type") == JStr("textToImage") {
          args := args["type" := JStr("image")];
          var cfg := Get(args, "config");
          if cfg.JObj? && Get(cfg.fields, "kind") == JStr("textToImage") {
            args := args["config" := JObj(cfg.fields["kind" := JStr("image")])];
          }
          out := out[i := ToolCall(c.id, c.name, JObj(args))];
        }
      }
      i := i + 1;
    }
  }

  // ---------------------------------------------------------------------
  // composeVideo prompts

  /** A create whose config is a dict with structured shots or characters but no non-blank prompt string. */
  predicate NeedsComposedPrompt(c: ToolCall) {
    CreatesType(c, "composeVideo")
    && Arg(c, "config").JObj?
    && var cfg := Arg(c, "config").fields;
       !(Get(cfg, "prompt").JStr? && !IsBlank(Get(cfg, "prompt").s))
       && (Get(cfg, "shots").JArr? || Get(cfg, "characters").JArr?)
  }

  /** graph.py:1350-1366 applied to one call. */
  function ComposePromptCall(c: ToolCall): ToolCall {
    if !NeedsComposedPrompt(c) then c
    else
      var m := c.arguments.fields;
      var cfg := Get(m, "config").fields;
      var coerced := ComposePrompt.ComposeFromConfig(cfg);
      if coerced != [] then ToolCall(c.id, c.name, JObj(m["config" := JObj(cfg["prompt" := JStr(coerced)])]))
      else c
  }

  /** The batch after the loop at graph.py:1350-1366. */
  function ComposedPrompts(calls: seq<ToolCall>): (r: seq<ToolCall>)
    ensures |r| == |calls|
  {
    seq(|calls|, i requires 0 <= i < |calls| => ComposePromptCall(calls[i]))
  }

  /** The prompt of a create's config, when the config is a dict. */
  function ConfigPrompt(c: ToolCall): Json {
    if Arg(c, "config").JObj? then Get(Arg(c, "config").fields, "prompt") else JNull
  }

  /** A create that needs one gets the composed prompt, which opens with the
      storyboard header and so is never blank; every other call, and every
      argument but the config's prompt, stays as it was. */
  lemma ComposePromptCallSpec(c: ToolCall)
    ensures var r := ComposePromptCall(c);
      && r.id == c.id && r.name == c.name
      && (ArgsOk(r) <==> ArgsOk(c))
      && (forall k :: k != "config" ==> Arg(r, k) == Arg(c, k))
      && (!NeedsComposedPrompt(c) ==> r == c)
      && (NeedsComposedPrompt(c) ==>
            ConfigPrompt(r) == JStr(ComposePrompt.ComposeFromConfig(Arg(c, "config").fields))
            && StartsWith(ConfigPrompt(r).s, ComposePrompt.Header)
            && !IsBlank(ConfigPrompt(r).s)
            && !NeedsComposedPrompt(r))
  {
    if NeedsComposedPrompt(c) {
      var cfg := Arg(c, "config").fields;
      ComposePrompt.ComposeStartsWithHeader(cfg);
      ComposePrompt.HeaderNotBlank(ComposePrompt.ComposeFromConfig(cfg));
      var r := ComposePromptCall(c);
      assert Args(r) == Some(c.arguments.fields["config" := JObj(cfg["prompt" := JStr(ComposePrompt.ComposeFromConfig(cfg))])]);
    }
  }

  /** After the pass every `composeVideo` create with structured shots or
      characters has a non-blank prompt string; creates stay readable. */
  lemma ComposedPromptsSpec(calls: seq<ToolCall>)
    ensures var r := ComposedPrompts(calls);
      && (forall i :: 0 <= i < |r| ==> !NeedsComposedPrompt(r[i]))
      && (forall i :: 0 <= i < |r| ==> r[i].id == calls[i].id && r[i].name == calls[i].name)
      && (forall i :: 0 <= i < |r| && !NeedsComposedPrompt(calls[i]) ==> r[i] == calls[i])
      && (CreatesOk(calls) <==> CreatesOk(r))
      && (RunsOk(calls) <==> RunsOk(r))
      && (ConnectsOk(calls) <==> ConnectsOk(r))
  {
    forall i | 0 <= i < |calls| {
      ComposePromptCallSpec(calls[i]);
    }
  }

  /** One step of the loop at graph.py:1350-1366. */
  method ComposePromptOf(c: ToolCall) returns (r: ToolCall)
    requires IsCreate(c) ==> ArgsOk(c)
    ensures r == ComposePromptCall(c)
  {
    r := c;
    if c.name != CreateNode {
      return;
    }
    var args := Args(c).value;
    if Get(args, "type") != JStr("composeVideo") {
      return;
    }
    var cfg := Get(args, "config");
    if !cfg.JObj? {
      return;
    }
    var p := Get(cfg.fields, "prompt");
    if p.JStr? && Strip(p.s) != [] {
      return;
    }
    if Get(cfg.fields, "shots").JArr? || Get(cfg.fields, "characters").JArr? {
      var coerced := ComposePrompt.Compose(cfg.fields);
      if coerced != [] {
        r := ToolCall(c.id, c.name, JObj(args["config" := JObj(cfg.fields["prompt" := JStr(coerced)])]));
      }
    }
  }

  /** The loop at graph.py:1350-1366. */
  method ComposePrompts(calls: seq<ToolCall>) returns (out: seq<ToolCall>)
    requires CreatesOk(calls)
    ensures out == ComposedPrompts(calls)
  {
    out := calls;
    var i := 0;
    while i < |out|
      invariant 0 <= i <= |out| == |calls|
      invariant forall j :: 0 <= j < i ==> out[j] == ComposePromptCall(calls[j])
      invariant forall j :: i <= j < |out| ==> out[j] == calls[j]
    {
      var r := ComposePromptOf(out[i]);
      out := out[i := r];
      i := i + 1;
    }
  }
}
