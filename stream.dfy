/**
 * The streaming tool-call reducer `_collect_stream_text_and_tools`
 * (graph.py:419-536) over an abstract stream of Responses API events.
 *
 * The reducer keeps three dictionaries while it reads the stream: the call
 * records keyed by call id (in first-insertion order, as a Python `dict`
 * iterates), and the alias map from item ids to call ids. At the end every
 * record with a non-empty name becomes a tool call whose arguments are the
 * accumulated argument text parsed as JSON.
 */
module StreamReducer {
  import opened Wrappers
  import opened Strings
  import opened Json
  import opened Calls

  /**
   * One stream event. A Python `None` or any other falsy id or name is the
   * empty string here; an argument text that is not a `str` is `None` in the
   * delta and done events (the reducer then ignores the event), and the empty
   * string in an output item (where the reducer ignores it likewise).
   */
  datatype Event =
    | OutputItem(isFunctionCall: bool, callId: string, itemId: string, name: string, arguments: string)
    | ArgumentsDelta(itemId: string, delta: Option<string>)
    | ArgumentsDone(itemId: string, final: Option<string>)
    | TextDelta(text: string)

  /** A call record: its name so far ("" for `None`) and its argument text. */
  datatype Record = Record(name: string, arguments: string)

  /** The reducer's variables: the text parts joined, the records, the record
      keys in insertion order, and the alias map. */
  datatype State = State(text: string, records: map<string, Record>, order: seq<string>, alias: map<string, string>)

  const Init := State("", map[], [], map[])

  /** The record keys are listed once each, in insertion order. */
  ghost predicate Valid(st: State) {
    (forall k :: k in st.records <==> k in st.order)
    && (forall i, j :: 0 <= i < j < |st.order| ==> st.order[i] != st.order[j])
  }

  /** `alias_to_call_id.get(item_id, item_id)` */
  function Resolve(alias: map<string, string>, itemId: string): string {
    if itemId in alias then alias[itemId] else itemId
  }

  /** `tool_calls_by_id.get(call_id) or {"id": call_id, "name": name, "arguments": ""}` */
  function RecordOr(st: State, callId: string, name: string): Record {
    if callId in st.records then st.records[callId] else Record(name, "")
  }

  /** `tool_calls_by_id[call_id] = record`: a new key goes to the end of the order. */
  function Put(st: State, callId: string, r: Record): (st': State)
    ensures Valid(st) ==> Valid(st')
    ensures st'.records == st.records[callId := r] && st'.alias == st.alias && st'.text == st.text
  {
    State(st.text, st.records[callId := r], if callId in st.records then st.order else st.order + [callId], st.alias)
  }

  /** The effect of one event on the reducer's variables. */
  function Step(st: State, e: Event): State {
    match e
    case OutputItem(isFunctionCall, callId, itemId, name, arguments) =>
      if !isFunctionCall || callId == "" then st
      else
        var a1 := st.alias[callId := callId];
        var a2 := if itemId != "" then a1[itemId := callId] else a1;
        var r := RecordOr(st, callId, name);
        var r1 := if name != "" then r.(name := name) else r;
        var r2 := if arguments != "" then r1.(arguments := arguments) else r1;
        Put(st.(alias := a2), callId, r2)
    case ArgumentsDelta(itemId, delta) =>
      if itemId == "" || delta.None? then st
      else
        var callId := Resolve(st.alias, itemId);
        var r := RecordOr(st, callId, "");
        Put(st, callId, r.(arguments := r.arguments + delta.value))
    case ArgumentsDone(itemId, arguments) =>
      if itemId == "" || arguments.None? then st
      else
        var callId := Resolve(st.alias, itemId);
        var r := RecordOr(st, callId, "");
        Put(st, callId, r.(arguments := arguments.value))
    case TextDelta(s) =>
      st.(text := st.text + s)
  }

  /** The variables after the first `n` events. */
  function RunUpTo(events: seq<Event>, n: nat): State
    requires n <= |events|
  {
    if n == 0 then Init else Step(RunUpTo(events, n - 1), events[n - 1])
  }

  function Run(events: seq<Event>): State {
    RunUpTo(events, |events|)
  }

  /** Every event keeps the record keys listed once each. */
  lemma StepValid(st: State, e: Event)
    requires Valid(st)
    ensures Valid(Step(st, e))
  {
  }

  lemma {:induction false} RunValid(events: seq<Event>, n: nat)
    requires n <= |events|
    ensures Valid(RunUpTo(events, n))
  {
    if n > 0 {
      RunValid(events, n - 1);
      StepValid(RunUpTo(events, n - 1), events[n - 1]);
    }
  }

  /**
   * The arguments of an emitted call: blank text is `{}`, text `json.loads`
   * (the parameter `parse`, `None` where it raises) accepts is its value, and
   * anything else is passed through as the raw string.
   */
  function ParseArgs(parse: string -> Option<Json>, raw: string): (j: Json)
    ensures IsBlank(raw) ==> j == JObj(map[])
    ensures !IsBlank(raw) && parse(raw).Some? ==> j == parse(raw).value
    ensures !IsBlank(raw) && parse(raw).None? ==> j == JStr(raw)
  {
    if IsBlank(raw) then JObj(map[])
    else match parse(raw)
      case Some(v) => v
      case None => JStr(raw)
  }

  /** The call a record becomes, if it has a name. */
  function EmitOne(parse: string -> Option<Json>, key: string, r: Record): seq<ToolCall> {
    if r.name == "" then [] else [ToolCall(key, r.name, ParseArgs(parse, r.arguments))]
  }

  /** The calls the first `n` record keys become. */
  function EmitUpTo(parse: string -> Option<Json>, st: State, n: nat): (calls: seq<ToolCall>)
    requires n <= |st.order| && Valid(st)
    ensures |calls| <= n
  {
    if n == 0 then []
    else EmitUpTo(parse, st, n - 1) + EmitOne(parse, st.order[n - 1], st.records[st.order[n - 1]])
  }

  function Emit(parse: string -> Option<Json>, st: State): seq<ToolCall>
    requires Valid(st)
  {
    EmitUpTo(parse, st, |st.order|)
  }

  /** Every emitted call comes from one of the first `n` keys, whose record has its non-empty name. */
  lemma {:induction false} EmitUpToFrom(parse: string -> Option<Json>, st: State, n: nat, c: ToolCall) returns (k: nat)
    requires n <= |st.order| && Valid(st) && c in EmitUpTo(parse, st, n)
    ensures k < n && c.id == st.order[k]
    ensures c.name != "" && c.name == st.records[c.id].name
  {
    var prev := EmitUpTo(parse, st, n - 1);
    var one := EmitOne(parse, st.order[n - 1], st.records[st.order[n - 1]]);
    assert EmitUpTo(parse, st, n) == prev + one;
    if c in prev {
      k := EmitUpToFrom(parse, st, n - 1, c);
    } else {
      assert c in one;
      k := n - 1;
    }
  }

  /** No two calls share an id. */
  predicate DistinctIds(calls: seq<ToolCall>) {
    forall i, j :: 0 <= i < j < |calls| ==> calls[i].id != calls[j].id
  }

  /** Appending at most one call with an id none of the others has keeps the ids distinct. */
  lemma DistinctIdsAppend(prev: seq<ToolCall>, one: seq<ToolCall>, key: string)
    requires DistinctIds(prev) && |one| <= 1
    requires forall c :: c in prev ==> c.id != key
    requires forall c :: c in one ==> c.id == key
    ensures DistinctIds(prev + one)
  {
    var all := prev + one;
    forall i, j | 0 <= i < j < |all|
      ensures all[i].id != all[j].id
    {
      assert all[i] == prev[i];
      if j >= |prev| {
        assert all[j] == one[0] && one[0] in one && prev[i] in prev;
      } else {
        assert all[j] == prev[j];
      }
    }
  }

  /** The emitted calls have distinct ids, one per named record. */
  lemma {:induction false} EmitUpToDistinct(parse: string -> Option<Json>, st: State, n: nat)
    requires n <= |st.order| && Valid(st)
    ensures DistinctIds(EmitUpTo(parse, st, n))
  {
    if n > 0 {
      EmitUpToDistinct(parse, st, n - 1);
      var prev := EmitUpTo(parse, st, n - 1);
      var key := st.order[n - 1];
      forall c | c in prev
        ensures c.id != key
      {
        var k := EmitUpToFrom(parse, st, n - 1, c);
      }
      DistinctIdsAppend(prev, EmitOne(parse, key, st.records[key]), key);
    }
  }

  /** Every record with a non-empty name is emitted, with its parsed arguments. */
  lemma {:induction false} EmitUpToComplete(parse: string -> Option<Json>, st: State, n: nat, k: nat)
    requires n <= |st.order| && Valid(st) && k < n
    requires st.records[st.order[k]].name != ""
    ensures ToolCall(st.order[k], st.records[st.order[k]].name, ParseArgs(parse, st.records[st.order[k]].arguments)) in EmitUpTo(parse, st, n)
  {
    var key := st.order[k];
    var c := ToolCall(key, st.records[key].name, ParseArgs(parse, st.records[key].arguments));
    var prev := EmitUpTo(parse, st, n - 1);
    var one := EmitOne(parse, st.order[n - 1], st.records[st.order[n - 1]]);
    assert EmitUpTo(parse, st, n) == prev + one;
    if k < n - 1 {
      EmitUpToComplete(parse, st, n - 1, k);
      assert c in prev;
    } else {
      assert one == [c];
    }
  }

  /** A call is emitted exactly for each record whose final name is non-empty. */
  lemma EmitExactlyNamed(parse: string -> Option<Json>, st: State, key: string)
    requires Valid(st)
    ensures (exists c :: c in Emit(parse, st) && c.id == key)
        <==> key in st.records && st.records[key].name != ""
  {
    if key in st.records && st.records[key].name != "" {
      var k :| 0 <= k < |st.order| && st.order[k] == key;
      EmitUpToComplete(parse, st, |st.order|, k);
    }
    if c :| c in Emit(parse, st) && c.id == key {
      var k := EmitUpToFrom(parse, st, |st.order|, c);
    }
  }

  /** An argument delta appends to the arguments of the call its item id is an alias of. */
  lemma DeltaAppends(st: State, itemId: string, d: string)
    requires itemId != ""
    ensures var callId := Resolve(st.alias, itemId);
      Step(st, ArgumentsDelta(itemId, Some(d))).records[callId].arguments
        == (if callId in st.records then st.records[callId].arguments else "") + d
  {
  }

  /** An arguments-done event replaces the arguments of the call its item id is an alias of. */
  lemma DoneOverwrites(st: State, itemId: string, a: string)
    requires itemId != ""
    ensures Step(st, ArgumentsDone(itemId, Some(a))).records[Resolve(st.alias, itemId)].arguments == a
  {
  }

  /** After an output item, its item id routes to its call id. */
  lemma ItemRegistersAlias(st: State, callId: string, itemId: string, name: string, arguments: string)
    requires callId != "" && itemId != ""
    ensures Resolve(Step(st, OutputItem(true, callId, itemId, name, arguments)).alias, itemId) == callId
    ensures Resolve(Step(st, OutputItem(true, callId, itemId, name, arguments)).alias, callId) == callId
  {
  }

  /** The deltas of one item, in stream order. */
  function Deltas(itemId: string, ds: seq<string>): (es: seq<Event>)
    ensures |es| == |ds|
  {
    seq(|ds|, i requires 0 <= i < |ds| => ArgumentsDelta(itemId, Some(ds[i])))
  }

  function Concat(ds: seq<string>): string {
    if ds == [] then "" else Concat(ds[..|ds| - 1]) + ds[|ds| - 1]
  }

  /** `Steps(st, es)`: the events applied one after another. */
  function Steps(st: State, es: seq<Event>): State
    decreases |es|
  {
    if es == [] then st else Step(Steps(st, es[..|es| - 1]), es[|es| - 1])
  }

  /** A run of deltas for one item concatenates onto the call's argument text,
      and leaves the alias map as it was. */
  lemma {:induction false} DeltasConcatenate(st: State, itemId: string, ds: seq<string>)
    requires itemId != ""
    ensures var callId := Resolve(st.alias, itemId);
      Steps(st, Deltas(itemId, ds)).alias == st.alias
      && (ds != [] || callId in st.records ==>
            Steps(st, Deltas(itemId, ds)).records[callId].arguments
              == (if callId in st.records then st.records[callId].arguments else "") + Concat(ds))
    decreases |ds|
  {
    if ds != [] {
      var init := ds[..|ds| - 1];
      assert Deltas(itemId, ds)[..|ds| - 1] == Deltas(itemId, init);
      DeltasConcatenate(st, itemId, init);
    }
  }

  /** The whole stream: text and a named record become calls; the stream
      stopping early (an exception inside the loop) is a shorter event list. */
  function Collected(parse: string -> Option<Json>, events: seq<Event>): (string, seq<ToolCall>) {
    RunValid(events, |events|);
    (Run(events).text, Emit(parse, Run(events)))
  }

  /** The first loop of the reducer (graph.py:425-521): the events update the
      dictionaries one after another. */
  method ReadEvents(events: seq<Event>) returns (text: string, records: map<string, Record>, order: seq<string>, alias: map<string, string>)
    ensures State(text, records, order, alias) == Run(events)
  {
    text := "";
    records := map[];
    order := [];
    alias := map[];
    var i := 0;
    while i < |events|
      invariant 0 <= i <= |events|
      invariant State(text, records, order, alias) == RunUpTo(events, i)
    {
      var e := events[i];
      match e {
        case OutputItem(isFunctionCall, callId, itemId, name, arguments) =>
          if isFunctionCall && callId != "" {
            alias := alias[callId := callId];
            if itemId != "" {
              alias := alias[itemId := callId];
            }
            var r := if callId in records then records[callId] else Record(name, "");
            if name != "" {
              r := r.(name := name);
            }
            if arguments != "" {
              r := r.(arguments := arguments);
            }
            if callId !in records {
              order := order + [callId];
            }
            records := records[callId := r];
          }
        case ArgumentsDelta(itemId, delta) =>
          if itemId != "" && delta.Some? {
            var callId := if itemId in alias then alias[itemId] else itemId;
            var r := if callId in records then records[callId] else Record("", "");
            r := r.(arguments := r.arguments + delta.value);
            if callId !in records {
              order := order + [callId];
            }
            records := records[callId := r];
          }
        case ArgumentsDone(itemId, arguments) =>
          if itemId != "" && arguments.Some? {
            var callId := if itemId in alias then alias[itemId] else itemId;
            var r := if callId in records then records[callId] else Record("", "");
            r := r.(arguments := arguments.value);
            if callId !in records {
              order := order + [callId];
            }
            records := records[callId := r];
          }
        case TextDelta(s) =>
          text := text + s;
      }
      i := i + 1;
    }
  }

  /** One step of the loop at graph.py:523-536: a named record becomes a call. */
  method EmitRecord(parse: string -> Option<Json>, key: string, r: Record) returns (out: seq<ToolCall>)
    ensures out == EmitOne(parse, key, r)
  {
    out := [];
    if r.name != "" {
      var args: Json;
      if IsBlank(r.arguments) {
        args := JObj(map[]);
      } else {
        var p := parse(r.arguments);
        args := if p.Some? then p.value else JStr(r.arguments);
      }
      out := [ToolCall(key, r.name, args)];
    }
  }

  /** The second loop of the reducer (graph.py:523-536): one call per named
      record, in insertion order, with its arguments parsed. */
  method EmitCalls(parse: string -> Option<Json>, records: map<string, Record>, order: seq<string>, ghost st: State) returns (calls: seq<ToolCall>)
    requires Valid(st) && st.records == records && st.order == order
    ensures calls == Emit(parse, st)
  {
    calls := [];
    var j := 0;
    while j < |order|
      invariant 0 <= j <= |order|
      invariant calls == EmitUpTo(parse, st, j)
    {
      var one := EmitRecord(parse, order[j], records[order[j]]);
      calls := calls + one;
      j := j + 1;
    }
  }

  /** The reducer as the source writes it: one loop over the events updating
      the dictionaries, then one loop over the records. */
  method Collect(parse: string -> Option<Json>, events: seq<Event>) returns (text: string, calls: seq<ToolCall>)
    ensures (text, calls) == Collected(parse, events)
  {
    var records, order, alias;
    text, records, order, alias := ReadEvents(events);
    RunValid(events, |events|);
    calls := EmitCalls(parse, records, order, State(text, records, order, alias));
  }
}
