/**
 * The reply text around the tool calls: the quick-reply block extractor
 * `_extract_tapcanvas_actions` (graph.py:1130-1166), the confirmation text
 * for a reply made only of tool calls `_fallback_text_from_tool_calls`
 * (graph.py:235-266), and the citation short-URL substitution
 * (graph.py:1747-1750).
 */
module Reply {
  import opened Wrappers
  import opened Strings
  import opened Json
  import opened Seqs
  import opened Calls

  const Fence := "```"
  const Marker := "```tapcanvas_actions"
  const MaxActions := 6

  /** Where the fenced actions block lies: the marker's index, the first index
      of its payload (after the line break that ends the marker line), and the
      index of the closing fence. */
  datatype Block = Block(start: nat, payload: nat, close: nat)

  /** The `find` calls at graph.py:1133-1143; None where one of them returns -1. */
  function FindBlock(text: string): (b: Option<Block>)
    ensures b.Some? ==> (b.value.start < b.value.payload <= b.value.close
      && b.value.close + |Fence| <= |text|
      && OccursAt(text, Marker, b.value.start) && OccursAt(text, Fence, b.value.close))
  {
    if !Contains(text, Fence) then None
    else
      var start := Find(text, Marker, 0);
      if start < 0 then None
      else
        var nl := Find(text, "\n", start + |Marker|);
        if nl < 0 then None
        else
          var close := Find(text, Fence, nl + 1);
          if close < 0 then None
          else Some(Block(start, nl + 1, close))
  }

  /** The text with the block cut out, stripped. */
  function Cleaned(text: string, b: Block): string
    requires b.start <= b.close && b.close + |Fence| <= |text|
  {
    Strip(text[..b.start] + text[b.close + |Fence|..])
  }

  /** One entry of `actions`: a dict whose `label` is a non-blank string
      (kept stripped) and whose `input` is a non-blank string (kept as is). */
  function ActionOf(i: nat, item: Json): (r: Option<QuickReply>)
    ensures r.Some? ==>
      r.value.caption != [] && !IsSpace(r.value.caption[0])
      && !IsSpace(r.value.caption[|r.value.caption| - 1]) && !IsBlank(r.value.input)
  {
    if !item.JObj? then None
    else
      var lbl := StrippedText(Get(item.fields, "label"));
      var input := Get(item.fields, "input");
      if lbl.None? || !input.JStr? || IsBlank(input.s) then None
      else
        StripEnds(Get(item.fields, "label").s);
        Some(QuickReply(lbl.value, input.s))
  }

  /** The normalized actions: the readable entries, stopping at six. */
  function Actions(items: seq<Json>): seq<QuickReply> {
    TakeOutputs(ActionOf, items, MaxActions)
  }

  /** At most six actions, each with a stripped non-empty caption and a
      non-blank input, each read from an entry of the list, in order. */
  lemma ActionsSpec(items: seq<Json>)
    ensures |Actions(items)| <= MaxActions
    ensures forall a :: a in Actions(items) ==> a.caption != [] && Strip(a.caption) == a.caption && !IsBlank(a.input)
    ensures forall a :: a in Actions(items) ==> exists i :: 0 <= i < |items| && ActionOf(i, items[i]) == Some(a)
  {
    forall a | a in Actions(items)
      ensures exists i :: 0 <= i < |items| && ActionOf(i, items[i]) == Some(a)
      ensures Strip(a.caption) == a.caption
    {
      FilterMapMembers(ActionOf, items, a);
      StripTrimmed(a.caption);
    }
  }

  /** The loop at graph.py:1153-1165, with its `break` at six. */
  method NormalizeActions(items: seq<Json>) returns (out: seq<QuickReply>)
    ensures out == Actions(items)
  {
    out := CollectOutputs(ActionOf, items, MaxActions);
  }

  /**
   * `_extract_tapcanvas_actions(text)`: the text with its actions block cut
   * out, and the block's actions (`None` when there are none). `parse` is
   * `json.loads`, `None` where it raises.
   */
  function ExtractActions(parse: string -> Option<Json>, text: string): (string, Option<seq<QuickReply>>) {
    match FindBlock(text)
    case None => (text, None)
    case Some(b) => (Cleaned(text, b), PayloadActions(parse, text[b.payload..b.close]))
  }

  /** The actions a block's payload holds: `None` when it does not parse, is
      not a dict with an `actions` list, or yields no action. */
  function PayloadActions(parse: string -> Option<Json>, payload: string): Option<seq<QuickReply>> {
    match parse(Strip(payload))
    case None => None
    case Some(obj) =>
      var actions := if obj.JObj? then Get(obj.fields, "actions") else JNull;
      if !actions.JArr? then None
      else
        var normalized := Actions(actions.items);
        if normalized == [] then None else Some(normalized)
  }

  /** Without the marker and a closing fence after it the text comes back unchanged. */
  lemma ExtractWithoutBlock(parse: string -> Option<Json>, text: string)
    requires FindBlock(text).None?
    ensures ExtractActions(parse, text) == (text, None)
  {
  }

  /** In particular a text without the marker is unchanged. */
  lemma ExtractWithoutMarker(parse: string -> Option<Json>, text: string)
    requires !Contains(text, Marker)
    ensures ExtractActions(parse, text) == (text, None)
  {
    FindAgreesWithContains(text, Marker);
  }

  /** With a block the returned text is the text around it, stripped, whether or
      not the payload parses; the actions are at most six and never an empty list. */
  lemma ExtractWithBlock(parse: string -> Option<Json>, text: string)
    requires FindBlock(text).Some?
    ensures var b := FindBlock(text).value;
      ExtractActions(parse, text).0 == Strip(text[..b.start] + text[b.close + |Fence|..])
    ensures ExtractActions(parse, text).1.Some? ==>
      0 < |ExtractActions(parse, text).1.value| <= MaxActions
  {
    var b := FindBlock(text).value;
    match parse(Strip(text[b.payload..b.close]))
    case None =>
    case Some(obj) =>
      var actions := if obj.JObj? then Get(obj.fields, "actions") else JNull;
      if actions.JArr? {
        ActionsSpec(actions.items);
      }
  }

  /** The block found is the first marker, and the first fence after its line break. */
  lemma FindBlockIsFirst(text: string)
    requires FindBlock(text).Some?
    ensures var b := FindBlock(text).value;
      (forall k: nat :: k < b.start ==> !OccursAt(text, Marker, k))
      && (forall k: nat :: b.payload <= k < b.close ==> !OccursAt(text, Fence, k))
      && OccursAt(text, "\n", b.payload - 1)
  {
  }

  /** The extractor as written: the `find` steps, then the loop. */
  method Extract(parse: string -> Option<Json>, text: string) returns (cleaned: string, actions: Option<seq<QuickReply>>)
    ensures (cleaned, actions) == ExtractActions(parse, text)
  {
    var b := LocateBlock(text);
    ExtractByBlock(parse, text);
    if b.None? {
      return text, None;
    }
    cleaned := Strip(text[..b.value.start] + text[b.value.close + 3..]);
    actions := ReadPayload(parse, text[b.value.payload..b.value.close]);
  }

  /** `ExtractActions` in terms of the block found. */
  lemma ExtractByBlock(parse: string -> Option<Json>, text: string)
    ensures FindBlock(text).None? ==> ExtractActions(parse, text) == (text, None)
    ensures FindBlock(text).Some? ==> var b := FindBlock(text).value;
      ExtractActions(parse, text) == (Strip(text[..b.start] + text[b.close + 3..]), PayloadActions(parse, text[b.payload..b.close]))
  {
  }

  /** The `find` calls at graph.py:1133-1143. */
  method LocateBlock(text: string) returns (b: Option<Block>)
    ensures b == FindBlock(text)
  {
    if !Contains(text, Fence) {
      return None;
    }
    var start := Find(text, Marker, 0);
    if start < 0 {
      return None;
    }
    var startPayload := Find(text, "\n", start + |Marker|);
    if startPayload < 0 {
      return None;
    }
    startPayload := startPayload + 1;
    var endFence := Find(text, Fence, startPayload);
    if endFence < 0 {
      return None;
    }
    b := Some(Block(start, startPayload, endFence));
  }

  /** The `json.loads` of the payload and the normalization (graph.py:1144-1166). */
  method ReadPayload(parse: string -> Option<Json>, payload: string) returns (actions: Option<seq<QuickReply>>)
    ensures actions == PayloadActions(parse, payload)
  {
    var obj := parse(Strip(payload));
    if obj.None? {
      return None;
    }
    var list := if obj.value.JObj? then Get(obj.value.fields, "actions") else JNull;
    if !list.JArr? {
      return None;
    }
    var normalized := NormalizeActions(list.items);
    actions := if normalized == [] then None else Some(normalized);
  }

  // ---------------------------------------------------------------------
  // The fallback confirmation text

  /** How many calls of the batch have the given name. */
  function CountNamed(calls: seq<ToolCall>, name: string): (n: nat)
    ensures n <= |calls|
    ensures n == 0 <==> forall i :: 0 <= i < |calls| ==> calls[i].name != name
  {
    if calls == [] then 0
    else CountNamed(calls[..|calls| - 1], name) + (if calls[|calls| - 1].name == name then 1 else 0)
  }

  /** The stripped label of a `createNode`, when readable. */
  function CreateLabelAt(i: nat, c: ToolCall): Option<string> {
    if IsCreate(c) then LabelOf(c) else None
  }

  /** The labels of the batch's `createNode`s, in order. */
  function CreatedLabels(calls: seq<ToolCall>): seq<string> {
    FilterMap(CreateLabelAt, calls)
  }

  /** One call of the loop at graph.py:242-246: whether reading it succeeds,
      and the label it contributes. */
  method ReadCreateLabel(i: nat, c: ToolCall) returns (ok: bool, lbl: Option<string>)
    ensures ok <==> !IsCreate(c) || ArgsOk(c)
    ensures ok ==> lbl == CreateLabelAt(i, c)
  {
    ok, lbl := true, None;
    if c.name == CreateNode {
      var args := Args(c);
      if args.None? {
        return false, None;
      }
      var l := Get(args.value, "label");
      if l.JStr? && !IsBlank(l.s) {
        lbl := Some(Strip(l.s));
      }
    }
  }

  /** The loop at graph.py:242-246; `None` where `.get` on a create's arguments raises. */
  method CollectCreatedLabels(calls: seq<ToolCall>) returns (labels: Option<seq<string>>)
    ensures labels.Some? <==> CreatesOk(calls)
    ensures labels.Some? ==> labels.value == CreatedLabels(calls)
  {
    var out: seq<string> := [];
    var i := 0;
    while i < |calls|
      invariant 0 <= i <= |calls|
      invariant forall j :: 0 <= j < i && IsCreate(calls[j]) ==> ArgsOk(calls[j])
      invariant out == FilterMapUpTo(CreateLabelAt, calls, i)
    {
      FilterMapNext(CreateLabelAt, calls, i);
      var ok, lbl := ReadCreateLabel(i, calls[i]);
      if !ok {
        return None;
      }
      out := out + AsSeq(lbl);
      i := i + 1;
    }
    labels := Some(out);
  }


  /** The confirmation parts for given counts and labels (graph.py:248-262). */
  function FallbackParts(creates: nat, labels: seq<string>, updates: nat, connects: nat, runs: nat): seq<string> {
    (if creates > 0 then
       if labels != [] then
         ["已在画布创建节点：" + Join("、", if |labels| <= 3 then labels else labels[..3]) + (if |labels| > 3 then "…" else "")]
       else ["已在画布创建 " + IntToString(creates) + " 个节点"]
     else [])
    + (if updates > 0 then ["已更新 " + IntToString(updates) + " 个节点"] else [])
    + (if connects > 0 then ["已连接 " + IntToString(connects) + " 条连线"] else [])
    + (if runs > 0 then ["已触发运行 " + IntToString(runs) + " 个节点"] else [])
  }

  /** `_fallback_text_from_tool_calls(calls)`, `None` where it raises. */
  function FallbackText(calls: seq<ToolCall>): Option<string> {
    if !CreatesOk(calls) then None
    else
      var parts := FallbackParts(CountNamed(calls, CreateNode), CreatedLabels(calls),
        CountNamed(calls, UpdateNode), CountNamed(calls, ConnectNodes), CountNamed(calls, RunNode));
      Some(if parts == [] then "已更新画布。" else Join("；", parts) + "。")
  }

  /** The confirmation parts of a batch whose creates are readable. */
  function PartsOf(calls: seq<ToolCall>): seq<string> {
    FallbackParts(CountNamed(calls, CreateNode), CreatedLabels(calls),
      CountNamed(calls, UpdateNode), CountNamed(calls, ConnectNodes), CountNamed(calls, RunNode))
  }

  /** The text exists exactly when every create's arguments are readable, and
      then it is a sentence ending with "。". */
  lemma FallbackTextEnds(calls: seq<ToolCall>)
    ensures FallbackText(calls).Some? <==> CreatesOk(calls)
    ensures FallbackText(calls).Some? ==> var t := FallbackText(calls).value;
      |t| > 0 && t[|t| - 1] == '。'
  {
    if CreatesOk(calls) {
      var parts := PartsOf(calls);
      assert FallbackText(calls).value == if parts == [] then "已更新画布。" else Join("；", parts) + "。";
    }
  }

  /** The generic "已更新画布。" comes exactly when the batch has none of the
      four canvas operations. */
  lemma FallbackTextGeneric(calls: seq<ToolCall>)
    requires CreatesOk(calls)
    ensures FallbackText(calls).value == "已更新画布。" <==>
      forall i :: 0 <= i < |calls| ==> calls[i].name !in {CreateNode, UpdateNode, ConnectNodes, RunNode}
  {
    var parts := PartsOf(calls);
    assert FallbackText(calls).value == if parts == [] then "已更新画布。" else Join("；", parts) + "。";
    if parts != [] {
      FallbackPartsNonEmpty(CountNamed(calls, CreateNode), CreatedLabels(calls),
        CountNamed(calls, UpdateNode), CountNamed(calls, ConnectNodes), CountNamed(calls, RunNode));
      JoinNonEmpty("；", parts);
      assert |Join("；", parts) + "。"| >= 10;
    }
  }

  /** With labelled creates the text starts by naming the first label. */
  lemma FallbackTextNamesFirstLabel(calls: seq<ToolCall>)
    requires CreatesOk(calls) && CreatedLabels(calls) != []
    ensures StartsWith(FallbackText(calls).value, "已在画布创建节点：" + CreatedLabels(calls)[0])
  {
    var i := FilterMapFrom(CreateLabelAt, calls, |calls|, CreatedLabels(calls)[0]);
    assert CountNamed(calls, CreateNode) > 0;
    FallbackPartsNameFirst(CountNamed(calls, CreateNode), CreatedLabels(calls),
      CountNamed(calls, UpdateNode), CountNamed(calls, ConnectNodes), CountNamed(calls, RunNode));
  }

  lemma FallbackPartsNameFirst(creates: nat, labels: seq<string>, updates: nat, connects: nat, runs: nat)
    requires creates > 0 && labels != []
    ensures var parts := FallbackParts(creates, labels, updates, connects, runs);
      parts != [] && StartsWith(Join("；", parts) + "。", "已在画布创建节点：" + labels[0])
  {
    var parts := FallbackParts(creates, labels, updates, connects, runs);
    var shown := if |labels| <= 3 then labels else labels[..3];
    JoinStartsWithFirst("、", shown);
    var p0 := "已在画布创建节点：" + Join("、", shown) + (if |labels| > 3 then "…" else "");
    assert parts[0] == p0;
    var h := "已在画布创建节点：" + labels[0];
    assert p0[..|h|] == h;
    JoinStartsWithFirst("；", parts);
    var t := Join("；", parts) + "。";
    assert t[..|h|] == Join("；", parts)[..|h|];
  }

  /** Every confirmation part is long. */
  lemma FallbackPartsNonEmpty(creates: nat, labels: seq<string>, updates: nat, connects: nat, runs: nat)
    ensures forall p :: p in FallbackParts(creates, labels, updates, connects, runs) ==> |p| >= 9
  {
  }

  /** A join of long parts is long. */
  lemma {:induction false} JoinNonEmpty(sep: string, parts: seq<string>)
    requires parts != [] && forall p :: p in parts ==> |p| >= 9
    ensures |Join(sep, parts)| >= 9
  {
    if |parts| > 1 {
      assert Join(sep, parts) == parts[0] + sep + Join(sep, parts[1..]);
    }
  }

  // ---------------------------------------------------------------------
  // Citation substitution

  /** A gathered source: `{"label", "short_url", "value"}`. */
  datatype Source = Source(title: string, shortUrl: string, value: string)

  /** The reply text and the sources used after the first `n` sources. */
  function CiteUpTo(content: string, sources: seq<Source>, n: nat): (r: (string, seq<Source>))
    requires n <= |sources|
    ensures |r.1| <= n
    ensures forall s :: s in r.1 ==> s in sources[..n]
  {
    if n == 0 then (content, [])
    else
      var prev := CiteUpTo(content, sources, n - 1);
      var s := sources[n - 1];
      if Contains(prev.0, s.shortUrl) then (ReplaceAll(prev.0, s.shortUrl, s.value), prev.1 + [s])
      else prev
  }

  function Cite(content: string, sources: seq<Source>): (string, seq<Source>) {
    CiteUpTo(content, sources, |sources|)
  }

  /** A reply that mentions none of the first `n` short URLs is left as it is by them and uses none of them. */
  lemma {:induction false} CiteNothingToReplace(content: string, sources: seq<Source>, n: nat)
    requires n <= |sources|
    requires forall j :: 0 <= j < n ==> !Contains(content, sources[j].shortUrl)
    ensures CiteUpTo(content, sources, n) == (content, [])
  {
    if n > 0 {
      CiteNothingToReplace(content, sources, n - 1);
    }
  }

  /** The used sources keep the order of the gathered ones: the used list after
      more sources extends the used list after fewer. */
  lemma {:induction false} CiteUsedPrefix(content: string, sources: seq<Source>, n: nat, m: nat)
    requires n <= m <= |sources|
    ensures |CiteUpTo(content, sources, n).1| <= |CiteUpTo(content, sources, m).1|
    ensures CiteUpTo(content, sources, m).1[..|CiteUpTo(content, sources, n).1|] == CiteUpTo(content, sources, n).1
    decreases m - n
  {
    if n < m {
      CiteUsedPrefix(content, sources, n, m - 1);
      var a := CiteUpTo(content, sources, m - 1).1;
      var k := |CiteUpTo(content, sources, n).1|;
      assert CiteUpTo(content, sources, m).1[..k] == a[..k];
    }
  }

  /** Source `i` is used when the text it is matched against (the reply after
      the earlier substitutions) contains its short URL. */
  function UsedAt(content: string, sources: seq<Source>): (nat, Source) -> Option<Source> {
    (i: nat, s: Source) =>
      if i <= |sources| && Contains(CiteUpTo(content, sources, i).0, s.shortUrl) then Some(s) else None
  }

  /** The used sources are exactly those whose short URL is in the text when
      their turn comes, in the order they were gathered. */
  lemma {:induction false} CiteUsedExactly(content: string, sources: seq<Source>, n: nat)
    requires n <= |sources|
    ensures CiteUpTo(content, sources, n).1 == FilterMapUpTo(UsedAt(content, sources), sources, n)
  {
    if n > 0 {
      CiteUsedExactly(content, sources, n - 1);
      FilterMapNext(UsedAt(content, sources), sources, n - 1);
    }
  }

  /** The used sources are a subsequence of the gathered ones. */
  lemma CiteUsedInOrder(content: string, sources: seq<Source>)
    ensures IsSubsequence(Cite(content, sources).1, sources)
  {
    CiteUsedExactly(content, sources, |sources|);
    FilterMapSubsequence(UsedAt(content, sources), sources);
  }

  /** Until the first source whose short URL occurs in the reply, nothing is
      substituted; that source's substitution is then made on the reply as the
      model wrote it. */
  lemma CiteFirstSubstitution(content: string, sources: seq<Source>, i: nat)
    requires i < |sources| && Contains(content, sources[i].shortUrl)
    requires forall j :: 0 <= j < i ==> !Contains(content, sources[j].shortUrl)
    ensures CiteUpTo(content, sources, i + 1) == (ReplaceAll(content, sources[i].shortUrl, sources[i].value), [sources[i]])
  {
    CiteNothingToReplace(content, sources, i);
    assert [] + [sources[i]] == [sources[i]];
  }

  /** The first source whose short URL occurs in the reply is the first one used. */
  lemma CiteFirstOccurring(content: string, sources: seq<Source>, i: nat)
    requires i < |sources| && Contains(content, sources[i].shortUrl)
    requires forall j :: 0 <= j < i ==> !Contains(content, sources[j].shortUrl)
    ensures Cite(content, sources).1 != [] && Cite(content, sources).1[0] == sources[i]
  {
    CiteFirstSubstitution(content, sources, i);
    CiteUsedPrefix(content, sources, i + 1, |sources|);
    assert Cite(content, sources).1[..1] == [sources[i]];
  }

  /** The loop at graph.py:1747-1750. */
  method Citations(content: string, sources: seq<Source>) returns (text: string, used: seq<Source>)
    ensures (text, used) == Cite(content, sources)
  {
    text, used := content, [];
    var i := 0;
    while i < |sources|
      invariant 0 <= i <= |sources|
      invariant (text, used) == CiteUpTo(content, sources, i)
    {
      var s := sources[i];
      if Contains(text, s.shortUrl) {
        text := ReplaceAll(text, s.shortUrl, s.value);
        used := used + [s];
      }
      i := i + 1;
    }
  }
}
