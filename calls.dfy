/**
 * Tool calls: the canvas operations (`createNode`, `updateNode`, `connectNodes`,
 * `runNode`) that the model proposes and the finalization passes rewrite, with
 * the ways the passes read their arguments.
 */
module Calls {
  import opened Wrappers
  import opened Strings
  import opened Json
  import opened Keywords
  import opened Seqs

  /** One proposed canvas operation: `{"id": ..., "name": ..., "arguments": ...}`.
      `arguments` holds whatever the stream delivered: usually an object, but a
      raw string when the argument text was not valid JSON. */
  datatype ToolCall = ToolCall(id: string, name: string, arguments: Json)

  /** A one-click reply offered to the user: `{"label": ..., "input": ...}`. */
  datatype QuickReply = QuickReply(caption: string, input: string)

  /**
   * What a pass leaves behind: the rewritten batch, or the batch as it stood at
   * the point where Python raised inside the pass (calling `.get` on arguments
   * that are not a dict, or adding a non-string prompt to a string), with the
   * name of the exception's class.
   */
  datatype Pass = Continue(calls: seq<ToolCall>) | Raise(calls: seq<ToolCall>, exception: string)

  /** `.get` on a value that is not a dict. */
  const AttributeError := "AttributeError"
  /** `str + x` for an `x` that is not a string. */
  const TypeError := "TypeError"

  const CreateNode: string := "createNode"
  const UpdateNode: string := "updateNode"
  const ConnectNodes: string := "connectNodes"
  const RunNode: string := "runNode"

  predicate IsCreate(c: ToolCall) { c.name == CreateNode }
  predicate IsUpdate(c: ToolCall) { c.name == UpdateNode }
  predicate IsConnect(c: ToolCall) { c.name == ConnectNodes }
  predicate IsRun(c: ToolCall) { c.name == RunNode }

  /** `c.get("arguments") or {}`, or None when that is not a dict (reading it raises). */
  function Args(c: ToolCall): Option<map<string, Json>> {
    OrEmptyObject(c.arguments)
  }

  /** Reading this call's arguments with `.get` does not raise. */
  predicate ArgsOk(c: ToolCall) {
    Args(c).Some?
  }

  /** `(c.get("arguments") or {}).get(k)` */
  function Arg(c: ToolCall, k: string): Json {
    GetIn(Args(c), k)
  }

  /** Reading this call as a create does not raise. */
  predicate CreateOk(c: ToolCall) {
    IsCreate(c) ==> ArgsOk(c)
  }

  /** Reading this call as a run does not raise. */
  predicate RunOk(c: ToolCall) {
    IsRun(c) ==> ArgsOk(c)
  }

  /** Every `createNode` in the batch has readable arguments. */
  predicate CreatesOk(calls: seq<ToolCall>) {
    forall i :: 0 <= i < |calls| && IsCreate(calls[i]) ==> ArgsOk(calls[i])
  }

  /** The per-call flag a scanning loop keeps agrees with `CreatesOk` on the prefix. */
  lemma CreatesOkUpTo(calls: seq<ToolCall>, n: nat)
    requires n <= |calls|
    ensures AllUpTo(CreateOk, calls, n) <==> forall i :: 0 <= i < n && IsCreate(calls[i]) ==> ArgsOk(calls[i])
  {
    AllUpToSpec(CreateOk, calls, n);
  }

  /** Every `runNode` in the batch has readable arguments. */
  predicate RunsOk(calls: seq<ToolCall>) {
    forall i :: 0 <= i < |calls| && IsRun(calls[i]) ==> ArgsOk(calls[i])
  }

  /** Reading this call as a create or as a run does not raise. */
  predicate CreateRunOk(c: ToolCall) {
    CreateOk(c) && RunOk(c)
  }

  lemma CreatesRunsOkUpTo(calls: seq<ToolCall>)
    ensures AllUpTo(CreateRunOk, calls, |calls|) <==> CreatesOk(calls) && RunsOk(calls)
  {
    AllUpToSpec(CreateRunOk, calls, |calls|);
  }

  lemma RunsOkUpTo(calls: seq<ToolCall>)
    ensures AllUpTo(RunOk, calls, |calls|) <==> RunsOk(calls)
  {
    AllUpToSpec(RunOk, calls, |calls|);
  }

  /** Every `connectNodes` in the batch has readable arguments. */
  predicate ConnectsOk(calls: seq<ToolCall>) {
    forall i :: 0 <= i < |calls| && IsConnect(calls[i]) ==> ArgsOk(calls[i])
  }

  /** `args.get("type")` of a `createNode`. */
  function NodeType(c: ToolCall): Json {
    Arg(c, "type")
  }

  /** A `createNode` whose `type` is exactly the string `t`. */
  predicate CreatesType(c: ToolCall, t: string) {
    IsCreate(c) && NodeType(c) == JStr(t)
  }

  /** The stripped label, when `args.get("label")` is a string that is not blank. */
  function LabelOf(c: ToolCall): Option<string> {
    StrippedText(Arg(c, "label"))
  }

  /** `args.get("label")` stripped when it is a string, else "". */
  function LabelOrEmpty(c: ToolCall): string {
    match AsString(Arg(c, "label"))
    case Some(s) => Strip(s)
    case None => ""
  }

  /** `args.get("config") or {}` */
  function ConfigOrEmpty(c: ToolCall): Json {
    Or(Arg(c, "config"), JObj(map[]))
  }

  /** The prompt as an f-string shows it in a hint: `cfg.get("prompt")` when
      the config is a dict (so "None" when it has none), "" otherwise. */
  function PromptShown(c: ToolCall): string {
    var cfg := ConfigOrEmpty(c);
    if cfg.JObj? then PyStr(Get(cfg.fields, "prompt")) else ""
  }

  /** `f"{label}\n{prompt}"` for a create's stripped label and prompt. */
  function GridHint(c: ToolCall): string {
    LabelOrEmpty(c) + "\n" + PromptShown(c)
  }

  /** An image create whose label or prompt marks it as a storyboard grid. */
  predicate IsGridCreate(c: ToolCall) {
    CreatesType(c, "image") && ContainsAny(GridHint(c), GridHintWords)
  }

  /** The `nodeId` of a `runNode`, stripped, when it is a string (possibly blank). */
  function RunTarget(c: ToolCall): Option<string> {
    match AsString(Arg(c, "nodeId"))
    case Some(s) => Some(Strip(s))
    case None => None
  }

  /** A `runNode` whose stripped `nodeId` is `label`. */
  predicate RunsLabel(c: ToolCall, nodeLabel: string) {
    IsRun(c) && RunTarget(c) == Some(nodeLabel)
  }

  /** The stripped (source, target) of a `connectNodes`, read from `sourceNodeId or
      sourceId` and `targetNodeId or targetId`, when both are non-blank strings. */
  function ConnectPair(c: ToolCall): Option<(string, string)> {
    var src := Or(Arg(c, "sourceNodeId"), Arg(c, "sourceId"));
    var tgt := Or(Arg(c, "targetNodeId"), Arg(c, "targetId"));
    if src.JStr? && tgt.JStr? && Strip(src.s) != [] && Strip(tgt.s) != []
    then Some((Strip(src.s), Strip(tgt.s)))
    else None
  }

  /** The pair a single call contributes to the set of existing connections. */
  function PairOfCall(c: ToolCall): set<(string, string)> {
    if IsConnect(c) && ConnectPair(c).Some? then {ConnectPair(c).value} else {}
  }

  /** The (source, target) pairs the first `n` calls of the batch connect. */
  function PairsUpTo(calls: seq<ToolCall>, n: nat): set<(string, string)>
    requires n <= |calls|
  {
    if n == 0 then {} else PairsUpTo(calls, n - 1) + PairOfCall(calls[n - 1])
  }

  /** The targets of the connections among the first `n` calls. */
  function TargetsUpTo(calls: seq<ToolCall>, n: nat): set<string>
    requires n <= |calls|
  {
    if n == 0 then {} else TargetsUpTo(calls, n - 1) + (set p | p in PairOfCall(calls[n - 1]) :: p.1)
  }

  /** The (source, target) pairs the batch already connects. */
  function PairsOf(calls: seq<ToolCall>): set<(string, string)> {
    PairsUpTo(calls, |calls|)
  }

  /** The targets of the batch's connections. */
  function TargetsOf(calls: seq<ToolCall>): set<string> {
    TargetsUpTo(calls, |calls|)
  }

  /** Every pair among the first `n` calls comes from one of them. */
  lemma {:induction false} PairsUpToWitness(calls: seq<ToolCall>, n: nat, p: (string, string)) returns (i: nat)
    requires n <= |calls| && p in PairsUpTo(calls, n)
    ensures i < n && p in PairOfCall(calls[i])
  {
    if p in PairsUpTo(calls, n - 1) {
      i := PairsUpToWitness(calls, n - 1, p);
    } else {
      i := n - 1;
    }
  }

  /** Every pair one of the first `n` calls contributes is among them. */
  lemma {:induction false} PairsUpToHas(calls: seq<ToolCall>, n: nat, p: (string, string), i: nat)
    requires n <= |calls| && i < n && p in PairOfCall(calls[i])
    ensures p in PairsUpTo(calls, n)
  {
    if i < n - 1 {
      PairsUpToHas(calls, n - 1, p, i);
    }
  }

  /** A pair is among the existing connections exactly when some call of the batch contributes it. */
  lemma PairsOfMembers(calls: seq<ToolCall>, p: (string, string))
    ensures p in PairsOf(calls) <==> exists i :: 0 <= i < |calls| && p in PairOfCall(calls[i])
  {
    if p in PairsOf(calls) {
      var i := PairsUpToWitness(calls, |calls|, p);
    }
    if exists i :: 0 <= i < |calls| && p in PairOfCall(calls[i]) {
      var i :| 0 <= i < |calls| && p in PairOfCall(calls[i]);
      PairsUpToHas(calls, |calls|, p, i);
    }
  }

  /** The connected targets are exactly the targets of the existing pairs. */
  lemma {:induction false} TargetsAreTargetsOfPairs(calls: seq<ToolCall>, n: nat)
    requires n <= |calls|
    ensures TargetsUpTo(calls, n) == set p | p in PairsUpTo(calls, n) :: p.1
  {
    if n > 0 {
      TargetsAreTargetsOfPairs(calls, n - 1);
    }
  }

  /** Reading this call as a connection does not raise. */
  predicate ConnectOk(c: ToolCall) {
    IsConnect(c) ==> ArgsOk(c)
  }

  lemma ConnectsOkUpTo(calls: seq<ToolCall>)
    ensures AllUpTo(ConnectOk, calls, |calls|) <==> ConnectsOk(calls)
  {
    AllUpToSpec(ConnectOk, calls, |calls|);
  }

  /** One step of the loops at graph.py:1452-1462 and 1595-1606: the pair a
      call connects, or `ok == false` where reading its arguments raises. */
  method ReadPair(c: ToolCall) returns (ok: bool, pair: Option<(string, string)>)
    ensures ok <==> ConnectOk(c)
    ensures ok ==> PairOfCall(c) == (if pair.Some? then {pair.value} else {})
    ensures ok ==> (set p | p in PairOfCall(c) :: p.1) == (if pair.Some? then {pair.value.1} else {})
  {
    ok, pair := true, None;
    if c.name == ConnectNodes {
      var args := Args(c);
      if args.None? {
        return false, None;
      }
      var src := Or(Get(args.value, "sourceNodeId"), Get(args.value, "sourceId"));
      var tgt := Or(Get(args.value, "targetNodeId"), Get(args.value, "targetId"));
      if src.JStr? && tgt.JStr? {
        var s := Strip(src.s);
        var t := Strip(tgt.s);
        if s != [] && t != [] {
          pair := Some((s, t));
        }
      }
    }
  }

  /**
   * The loops at graph.py:1452-1462 and 1595-1606: collect the pairs (and
   * targets) of the batch's `connectNodes`; `ok` is false when one of them has
   * arguments Python cannot read, where the loop raises.
   */
  method CollectConnectedPairs(calls: seq<ToolCall>) returns (ok: bool, pairs: set<(string, string)>, targets: set<string>)
    ensures ok <==> ConnectsOk(calls)
    ensures ok ==> pairs == PairsOf(calls) && targets == TargetsOf(calls)
  {
    pairs, targets := {}, {};
    var i := 0;
    while i < |calls|
      invariant 0 <= i <= |calls|
      invariant AllUpTo(ConnectOk, calls, i)
      invariant pairs == PairsUpTo(calls, i) && targets == TargetsUpTo(calls, i)
    {
      AllUpToNext(ConnectOk, calls, i);
      var cOk, pair := ReadPair(calls[i]);
      if !cOk {
        AllUpToStops(ConnectOk, calls, i + 1, |calls|);
        ConnectsOkUpTo(calls);
        return false, pairs, targets;
      }
      if pair.Some? {
        pairs := pairs + {pair.value};
        targets := targets + {pair.value.1};
      }
      i := i + 1;
    }
    ConnectsOkUpTo(calls);
    ok := true;
  }

  /** `{"id": id, "name": "connectNodes", "arguments": {...}}` */
  function ConnectCall(id: string, src: string, tgt: string, srcHandle: string, tgtHandle: string): ToolCall {
    ToolCall(id, ConnectNodes, JObj(map[
      "sourceNodeId" := JStr(src), "targetNodeId" := JStr(tgt),
      "sourceHandle" := JStr(srcHandle), "targetHandle" := JStr(tgtHandle)]))
  }

  /** `{"id": f"auto_run_{label}", "name": "runNode", "arguments": {"nodeId": label}}` */
  function RunCall(nodeLabel: string): ToolCall {
    ToolCall("auto_run_" + nodeLabel, RunNode, JObj(map["nodeId" := JStr(nodeLabel)]))
  }

  /** An added connection reads back as the pair it was built from. */
  lemma ConnectCallPair(id: string, src: string, tgt: string, sh: string, th: string)
    requires src != [] && tgt != [] && Strip(src) == src && Strip(tgt) == tgt
    ensures IsConnect(ConnectCall(id, src, tgt, sh, th)) && ArgsOk(ConnectCall(id, src, tgt, sh, th))
    ensures ConnectPair(ConnectCall(id, src, tgt, sh, th)) == Some((src, tgt))
  {
    var c := ConnectCall(id, src, tgt, sh, th);
    assert Arg(c, "sourceNodeId") == JStr(src);
    assert Arg(c, "targetNodeId") == JStr(tgt);
  }

  /** An added run reads back as a run of its label. */
  lemma RunCallTarget(nodeLabel: string)
    requires Strip(nodeLabel) == nodeLabel
    ensures IsRun(RunCall(nodeLabel)) && ArgsOk(RunCall(nodeLabel)) && RunTarget(RunCall(nodeLabel)) == Some(nodeLabel)
  {
  }

  /** A batch built from a batch whose creates are readable by adding only
      connections has readable creates too. */
  lemma AddingConnectsKeepsCreatesOk(calls: seq<ToolCall>, r: seq<ToolCall>, block: seq<ToolCall>)
    requires CreatesOk(calls) && multiset(r) == multiset(calls) + multiset(block)
    requires forall k :: 0 <= k < |block| ==> IsConnect(block[k])
    ensures CreatesOk(r)
  {
    forall i | 0 <= i < |r| && IsCreate(r[i])
      ensures ArgsOk(r[i])
    {
      assert r[i] in multiset(r);
      forall k | 0 <= k < |block|
        ensures block[k] != r[i]
      {
      }
      assert r[i] !in block;
      assert r[i] in multiset(calls);
      var j :| 0 <= j < |calls| && calls[j] == r[i];
    }
  }
}
