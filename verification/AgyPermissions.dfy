/** `permission-install` and `permission-uninstall`: element-level ownership of rules in `permissions.allow`. */
module AgyPermissions {
  import opened JsonValues
  import opened Options
  import opened AgyFiles

  const RULE_V2 := "mcp(entwurf-bridge/entwurf_v2)"
  const RULE_PEERS := "mcp(entwurf-bridge/entwurf_peers)"
  const RULE_SELF := "mcp(entwurf-bridge/entwurf_self)"
  const ALLOW_RULES: seq<string> := [RULE_V2, RULE_PEERS, RULE_SELF]

  const PATH_KEY := "managedSettingsPath"
  const CREATED_NEW := Str("created-new")

  // ---------------------------------------------------------------- the ownership record

  /** Which rules an install wrote down, and which of them were the operator's before it. */
  datatype Record = Record(rules: seq<string>, existed: map<string, bool>)

  function Texts(items: seq<Json>): (texts: Option<seq<string>>)
    ensures texts.Some? <==> forall j <- items :: j.Str?
    ensures texts.Some? ==> |texts.value| == |items| && forall i :: 0 <= i < |items| ==> items[i] == Str(texts.value[i])
  {
    if items == [] then Some([])
    else
      var rest := Texts(items[1..]);
      if items[0].Str? && rest.Some? then Some([items[0].text] + rest.value) else None
  }

  /** `_parse_permission_state`: None is a state no caller may act on. */
  function Parse(state: map<string, Json>): (r: Option<Record>)
    ensures r.Some? ==> r.value.rules != [] && r.value.existed.Keys == set rule <- r.value.rules
  {
    var version := Get(state, "schemaVersion", Null);
    if EqualsNumber(version, 2.0) then
      var rules, existed := Get(state, "rules", Null), Get(state, "rulesExistedBefore", Null);
      if !rules.Arr? || rules.items == [] || Texts(rules.items).None? || !existed.Obj? then None
      else
        var texts := Texts(rules.items).value;
        if exists rule <- texts :: !Get(existed.members, rule, Null).Bool? then None
        else Some(Record(texts, map rule | rule in texts :: existed.members[rule].flag))
    else if EqualsNumber(version, 1.0) then
      match (Get(state, "rule", Null), Get(state, "ruleExistedBefore", Null))
      case (Str(rule), Bool(existed)) => Some(Record([rule], map[rule := existed]))
      case _ => None
    else None
  }

  /** `_owned_rules` of a readable record. */
  predicate Owned(r: Record, rule: string) { rule in r.existed && !r.existed[rule] }

  // ---------------------------------------------------------------- install

  predicate Listed(allow: seq<Json>, rule: string) { Str(rule) in allow }

  /** The rules of ours that `allow` lacks, in order, behind what it holds. */
  function WithRules(allow: seq<Json>, rules: seq<string>): seq<Json>
    decreases |rules|
  {
    if rules == [] then allow
    else WithRules(if Listed(allow, rules[0]) then allow else allow + [Str(rules[0])], rules[1..])
  }

  datatype Provenance = Provenance(detectMode: Json, settingsExisted: Json, permissionsExisted: Json,
                                   allowExisted: Json, rulesExisted: map<string, bool>)

  /** A container as install finds it: None when it is present but of the wrong kind. */
  function Permissions(data: map<string, Json>): Option<map<string, Json>> {
    match Get(data, "permissions", Null)
    case Null => Some(map[])
    case Obj(m) => Some(m)
    case _ => None
  }

  function Allow(perms: map<string, Json>): Option<seq<Json>> {
    match Get(perms, "allow", Null)
    case Null => Some([])
    case Arr(items) => Some(items)
    case _ => None
  }

  /** What a first install observes. */
  function Observed(existed: bool, data: map<string, Json>, perms: map<string, Json>, allow: seq<Json>): Provenance {
    Provenance(if existed then Str("adopt-regular-file") else CREATED_NEW, Bool(existed),
               Bool(Get(data, "permissions", Null).Obj?), Bool(Get(perms, "allow", Null).Arr?),
               map rule | rule in ALLOW_RULES :: Listed(allow, rule))
  }

  /** A re-install carries what the first one recorded; only what was never recorded is read from disk. */
  function Carried(prior: map<string, Json>, r: Record, seen: Provenance): Provenance {
    Provenance(Get(prior, "detectMode", seen.detectMode),
               Get(prior, "settingsExistedBefore", seen.settingsExisted),
               Get(prior, "permissionsExistedBefore", seen.permissionsExisted),
               Get(prior, "allowExistedBefore", seen.allowExisted),
               map rule | rule in seen.rulesExisted ::
                 if rule in r.existed then r.existed[rule] else seen.rulesExisted[rule])
  }

  function StateDoc(path: string, p: Provenance, now: string): map<string, Json>
    requires forall rule <- ALLOW_RULES :: rule in p.rulesExisted
  {
    map["schemaVersion" := Num(2.0),
        PATH_KEY := Str(path),
        "rules" := Arr([Str(RULE_V2), Str(RULE_PEERS), Str(RULE_SELF)]),
        "detectMode" := p.detectMode,
        "settingsExistedBefore" := p.settingsExisted,
        "permissionsExistedBefore" := p.permissionsExisted,
        "allowExistedBefore" := p.allowExisted,
        "rulesExistedBefore" := Obj(map rule | rule in ALLOW_RULES :: Bool(p.rulesExisted[rule])),
        "installedAt" := Str(now)]
  }

  function InstallPlan(w: World, path: string, now: string): (plan: Plan)
    ensures plan.Refuse? ==> plan.code != OK
  {
    if At(w, path).Link? then Refuse(REFUSE_SYMLINK)
    else
      var body := At(w, path).body;
      var data := LoadOrEmpty(body);
      if data.None? then Refuse(INVALID_JSON) else InstallInto(w.state, path, !body.NoFile?, data.value, now)
  }

  function InstallInto(state: Body, path: string, existed: bool, data: map<string, Json>, now: string): (plan: Plan)
    ensures plan.Refuse? ==> plan.code != OK
  {
    var perms := Permissions(data);
    if perms.None? then Refuse(INVALID_JSON)
    else
      var allow := Allow(perms.value);
      if allow.None? then Refuse(INVALID_JSON)
      else
        var seen := Observed(existed, data, perms.value, allow.value);
        var prior := PriorState(state, PATH_KEY, path);
        if prior.None? then Refuse(INVALID_JSON)
        else if prior.value != map[] && Parse(prior.value).None? then Refuse(INVALID_JSON)
        else
          var p := if prior.value == map[] then seen else Carried(prior.value, Parse(prior.value).value, seen);
          Writes(path, Doc(Obj(Granted(data, perms.value, allow.value))), Doc(Obj(StateDoc(path, p, now))))
  }

  /** The settings with every rule of ours in `permissions.allow`. */
  function Granted(data: map<string, Json>, perms: map<string, Json>, allow: seq<Json>): map<string, Json> {
    data["permissions" := Obj(perms["allow" := Arr(WithRules(allow, ALLOW_RULES))])]
  }

  // ---------------------------------------------------------------- uninstall

  /** `[r for r in allow if r not in ours]` */
  function Without(allow: seq<Json>, r: Record): seq<Json> {
    if allow == [] then []
    else (if allow[0].Str? && Owned(r, allow[0].text) then [] else [allow[0]]) + Without(allow[1..], r)
  }

  predicate OwnsAny(r: Record) { exists rule <- r.rules :: Owned(r, rule) }

  predicate Created(state: map<string, Json>, key: string) { !Truthy(Get(state, key, Bool(false))) }

  function PermissionsLeft(perms: map<string, Json>, kept: seq<Json>, state: map<string, Json>): map<string, Json> {
    if Created(state, "allowExistedBefore") && kept == [] then perms - {"allow"} else perms["allow" := Arr(kept)]
  }

  function DataLeft(data: map<string, Json>, perms: map<string, Json>, state: map<string, Json>): map<string, Json> {
    if Created(state, "permissionsExistedBefore") && perms == map[] then data - {"permissions"}
    else data["permissions" := Obj(perms)]
  }

  /** `permissions` is an object whose `allow` is a list. */
  predicate HasAllow(data: map<string, Json>) {
    Get(data, "permissions", Null).Obj? && Get(data["permissions"].members, "allow", Null).Arr?
  }

  function Revoked(data: map<string, Json>, state: map<string, Json>, r: Record): map<string, Json> {
    if !HasAllow(data) || !OwnsAny(r) then data
    else
      var perms := data["permissions"].members;
      DataLeft(data, PermissionsLeft(perms, Without(perms["allow"].items, r), state), state)
  }

  /** The whole file was ours: we created it. */
  predicate OurFile(state: map<string, Json>) {
    Get(state, "detectMode", Null) == CREATED_NEW && Get(state, "settingsExistedBefore", Null) == Bool(false)
  }

  function Cleared(body: Body, state: map<string, Json>, r: Record): Option<Body> {
    if body.NoFile? then Some(NoFile)
    else match Load(body)
      case None => None
      case Some(data) =>
        var left := Revoked(data, state, r);
        Some(if OurFile(state) && left == map[] then NoFile else Doc(Obj(left)))
  }

  function UninstallPlan(w: World): (plan: Plan)
    ensures plan.Refuse? ==> plan.code != OK
    ensures plan.Writes? ==> plan.state == NoFile
  {
    if w.state.NoFile? then Refuse(NO_STATE)
    else match Load(w.state)
      case None => Refuse(INVALID_JSON)
      case Some(state) =>
        var path := Get(state, PATH_KEY, Null);
        if !path.Str? || Parse(state).None? then Refuse(INVALID_JSON)
        else if At(w, path.text).Link? then Refuse(REFUSE_SYMLINK)
        else match Cleared(At(w, path.text).body, state, Parse(state).value)
          case None => Refuse(INVALID_JSON)
          case Some(body) => Writes(path.text, body, NoFile)
  }

  function Install(w: World, path: string, now: string): World { Complete(w, InstallPlan(w, path, now)) }

  function Uninstall(w: World): World { Complete(w, UninstallPlan(w)) }
}
