/**
 * Role routing: `_resolve_role` (graph.py:768-773), the fallbacks
 * `_call_openai_structured` builds when the model's output does not parse
 * (graph.py:583-616), among them the substring match for `RoleDecision`, and
 * the state update of `select_role` (graph.py:810-831).
 *
 * The role registry (`role_map()` and `DEFAULT_ROLE_ID` of `agent.roles`) is a
 * parameter: its roles in the registry's order and its default id.
 * `normalize_role_id` is a parameter too.
 */
module Roles {
  import opened Wrappers
  import opened Strings

  datatype Profile = Profile(name: string, summary: string, style: string)

  datatype Registry = Registry(roles: seq<(string, Profile)>, defaultId: string)

  /** The default role is registered and no id is registered twice. */
  predicate ValidRegistry(reg: Registry) {
    (exists i :: 0 <= i < |reg.roles| && reg.roles[i].0 == reg.defaultId)
    && (forall i, j :: 0 <= i < j < |reg.roles| ==> reg.roles[i].0 != reg.roles[j].0)
  }

  /** `mapping.get(rid)` */
  function Lookup(roles: seq<(string, Profile)>, rid: string): (r: Option<Profile>)
    ensures r.Some? <==> exists i :: 0 <= i < |roles| && roles[i].0 == rid
    ensures r.Some? ==> exists i :: 0 <= i < |roles| && roles[i] == (rid, r.value)
  {
    if roles == [] then None
    else if roles[0].0 == rid then Some(roles[0].1)
    else
      var r := Lookup(roles[1..], rid);
      assert forall i :: 0 < i < |roles| ==> roles[i] == roles[1..][i - 1];
      r
  }

  /** `mapping.get(resolved_id, mapping[DEFAULT_ROLE_ID])` */
  function ProfileOf(reg: Registry, rid: string): Profile
    requires ValidRegistry(reg)
  {
    match Lookup(reg.roles, rid)
    case Some(p) => p
    case None => Lookup(reg.roles, reg.defaultId).value
  }

  /** `_resolve_role(role_id)`: the normalized id and its profile, the default's
      profile when the normalized id is not registered. */
  function ResolveRole(reg: Registry, normalize: string -> string, roleId: string): (r: (string, Profile))
    requires ValidRegistry(reg)
    ensures r.0 == normalize(roleId)
    ensures Lookup(reg.roles, r.0).Some? ==> r.1 == Lookup(reg.roles, r.0).value
    ensures Lookup(reg.roles, r.0).None? ==> r.1 == Lookup(reg.roles, reg.defaultId).value
  {
    var rid := normalize(roleId);
    (rid, ProfileOf(reg, rid))
  }

  /** `rid in raw_lower or role["name"].lower() in raw_lower` */
  predicate Mentions(rawLower: string, role: (string, Profile)) {
    Contains(rawLower, role.0) || Contains(rawLower, Lower(role.1.name))
  }

  /** The first registered role the text mentions. */
  function FirstMention(roles: seq<(string, Profile)>, rawLower: string): (r: Option<string>)
    ensures r.Some? ==> exists i :: 0 <= i < |roles| && roles[i].0 == r.value && Mentions(rawLower, roles[i])
    ensures r.None? <==> forall i :: 0 <= i < |roles| ==> !Mentions(rawLower, roles[i])
  {
    if roles == [] then None
    else if Mentions(rawLower, roles[0]) then Some(roles[0].0)
    else
      var r := FirstMention(roles[1..], rawLower);
      assert forall i :: 0 < i < |roles| ==> roles[i] == roles[1..][i - 1];
      r
  }

  /** The role found is the first one mentioned: every role before it goes unmentioned. */
  lemma {:induction false} FirstMentionIsFirst(roles: seq<(string, Profile)>, rawLower: string) returns (k: nat)
    requires FirstMention(roles, rawLower).Some?
    ensures k < |roles| && roles[k].0 == FirstMention(roles, rawLower).value && Mentions(rawLower, roles[k])
    ensures forall i :: 0 <= i < k ==> !Mentions(rawLower, roles[i])
  {
    if Mentions(rawLower, roles[0]) {
      k := 0;
    } else {
      var k' := FirstMentionIsFirst(roles[1..], rawLower);
      k := k' + 1;
    }
  }

  /** The loop at graph.py:601-604. */
  method MatchRole(roles: seq<(string, Profile)>, rawLower: string) returns (chosen: Option<string>)
    ensures chosen == FirstMention(roles, rawLower)
  {
    chosen := None;
    var i := 0;
    while i < |roles|
      invariant 0 <= i <= |roles|
      invariant FirstMention(roles, rawLower) == FirstMention(roles[i..], rawLower)
    {
      var (rid, role) := roles[i];
      if Contains(rawLower, rid) || Contains(rawLower, Lower(role.name)) {
        chosen := Some(rid);
        return;
      }
      assert roles[i..][1..] == roles[i + 1..];
      i := i + 1;
    }
  }

  /** A role decision: the `RoleDecision` schema with its defaults. */
  datatype RoleDecision = RoleDecision(roleId: string, roleName: string, reason: string, allowCanvasTools: bool, allowCanvasToolsReason: string)

  const DefaultAllowReason := "Default to allow unless the intent is ambiguous."

  /** The structured outputs `_call_openai_structured` returns. */
  datatype Structured =
    | QueryList(query: seq<string>, rationale: string)
    | ReflectionResult(isSufficient: bool, knowledgeGap: string, followUpQueries: seq<string>)
    | Role(decision: RoleDecision)

  datatype Schema = SearchQueryListSchema | ReflectionSchema | RoleDecisionSchema | OtherSchema

  /**
   * The value `_call_openai_structured` returns for the model's output `text`
   * (empty when both calls failed), `None` where it raises `ValueError`.
   * `validated` is pydantic's `model_validate_json(text)`, `None` where it
   * raises; `firstError` is the message of the first call's exception, if any.
   */
  function Structure(reg: Registry, normalize: string -> string, schema: Schema, prompt: string, text: string,
                     validated: Option<Structured>, firstError: Option<string>): Option<Structured>
    requires ValidRegistry(reg)
  {
    if validated.Some? then validated
    else match schema
      case SearchQueryListSchema =>
        Some(QueryList([prompt],
          if firstError.Some? && text == [] then "Fallback due to OpenAI error: " + firstError.value
          else "Fallback from unparseable model output."))
      case ReflectionSchema => Some(ReflectionResult(true, "", []))
      case RoleDecisionSchema => Some(Role(FallbackDecision(reg, normalize, text, firstError)))
      case OtherSchema => None
  }

  /** The `RoleDecision` built from unparseable output (graph.py:597-615). */
  function FallbackDecision(reg: Registry, normalize: string -> string, text: string, firstError: Option<string>): RoleDecision
    requires ValidRegistry(reg)
  {
    var raw := Strip(text);
    var chosen := FirstMention(reg.roles, Lower(raw));
    var rid := normalize(if chosen.Some? && chosen.value != [] then chosen.value else reg.defaultId);
    var profile := ProfileOf(reg, rid);
    var shown := Take(raw, 120);
    var reason := if firstError.Some? && raw == [] then "Fallback due to OpenAI error: " + firstError.value
                  else "Fallback parse from model output: " + (if shown != [] then shown else "无理由");
    RoleDecision(rid, profile.name, reason, true, DefaultAllowReason)
  }

  /** The fallback decision picks the first role the text mentions (by id or by
      lower-cased name), normalized, and the default role when none is
      mentioned; its name is that role's; canvas tools stay allowed. */
  lemma FallbackDecisionSpec(reg: Registry, normalize: string -> string, text: string, firstError: Option<string>)
    requires ValidRegistry(reg)
    ensures var d := FallbackDecision(reg, normalize, text, firstError);
      var chosen := FirstMention(reg.roles, Lower(Strip(text)));
      && (chosen.None? ==> d.roleId == normalize(reg.defaultId))
      && (chosen.Some? && chosen.value != [] ==> d.roleId == normalize(chosen.value))
      && d.roleName == ProfileOf(reg, d.roleId).name
      && d.allowCanvasTools
      && d.reason != []
  {
    var raw := Strip(text);
    var chosen := FirstMention(reg.roles, Lower(raw));
    var rid := normalize(if chosen.Some? && chosen.value != [] then chosen.value else reg.defaultId);
    var d := FallbackDecision(reg, normalize, text, firstError);
    assert d.roleId == rid;
    assert d.roleName == ProfileOf(reg, rid).name;
  }

  /** A model output that mentions no role falls back to the default role. */
  lemma FallbackWithoutMentionIsDefault(reg: Registry, normalize: string -> string, text: string, firstError: Option<string>)
    requires ValidRegistry(reg)
    requires forall i :: 0 <= i < |reg.roles| ==> !Mentions(Lower(Strip(text)), reg.roles[i])
    ensures FallbackDecision(reg, normalize, text, firstError).roleId == normalize(reg.defaultId)
  {
  }

  /** A parse failure gives a value for the three known schemas and raises for any other. */
  lemma StructureRaisesOnlyForOtherSchemas(reg: Registry, normalize: string -> string, schema: Schema, prompt: string, text: string,
                                           validated: Option<Structured>, firstError: Option<string>)
    requires ValidRegistry(reg)
    ensures Structure(reg, normalize, schema, prompt, text, validated, firstError).None? <==> validated.None? && schema == OtherSchema
    ensures validated.None? && schema == SearchQueryListSchema ==>
      Structure(reg, normalize, schema, prompt, text, validated, firstError).value.query == [prompt]
  {
  }

  /** What `select_role` writes to the state (graph.py:810-831). */
  datatype Selection = Selection(activeRole: string, activeRoleName: string, activeRoleReason: string,
                                 allowCanvasTools: bool, allowCanvasToolsReason: string)

  /** `select_role`'s update from the routed decision. */
  function SelectRole(reg: Registry, normalize: string -> string, d: RoleDecision): (s: Selection)
    requires ValidRegistry(reg)
    ensures s.activeRole == normalize(d.roleId)
    ensures s.activeRoleName == ResolveRole(reg, normalize, d.roleId).1.name
    ensures s.activeRoleReason == (if d.reason != [] then d.reason else "基于对话意图的默认选择。")
    ensures s.allowCanvasTools == d.allowCanvasTools
    ensures s.activeRoleReason != [] && s.allowCanvasToolsReason != []
  {
    var (rid, profile) := ResolveRole(reg, normalize, d.roleId);
    Selection(rid, profile.name,
      if d.reason != [] then d.reason else "基于对话意图的默认选择。",
      d.allowCanvasTools,
      if d.allowCanvasToolsReason != [] then d.allowCanvasToolsReason else "根据用户意图判断。")
  }
}
