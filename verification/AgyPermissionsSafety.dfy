/** What the permission installer owes the operator, over whole histories and across crashes. */
module AgyPermissionsSafety {
  import opened JsonValues
  import opened Options
  import opened AgyFiles
  import opened AgyPermissions
  import opened AgyPermissionsLists

  // ---------------------------------------------------------------- an operator's rule survives

  /** The allow list, read as empty where there is none. */
  function Allowed(data: map<string, Json>): seq<Json> {
    if HasAllow(data) then data["permissions"].members["allow"].items else []
  }

  /** The settings at `path` grant `rule`. */
  predicate Grants(t: Target, rule: string) { Readable(t) && Listed(Allowed(t.body.value.members), rule) }

  /** The install-state claims `rule` at `path` as one to take away again. */
  predicate Claims(state: Body, path: string, rule: string) {
    && Load(state).Some? && Member(Load(state).value, PATH_KEY) == Some(Str(path))
    && Parse(Load(state).value).Some? && Owned(Parse(Load(state).value).value, rule)
  }

  /** `rule` is the operator's: granted, and not claimed by us. */
  predicate Theirs(w: World, path: string, rule: string) {
    Grants(At(w, path), rule) && !Claims(w.state, path, rule)
  }

  datatype Action =
    | RunInstall(path: string, now: string)
    | InstallCut(path: string, now: string)
    | RunUninstall
    | UninstallCut
    | Edit(path: string, content: Target)

  function Act(w: World, a: Action): World {
    match a
    case RunInstall(path, now) => Install(w, path, now)
    case InstallCut(path, now) => CutShort(w, InstallPlan(w, path, now))
    case RunUninstall => Uninstall(w)
    case UninstallCut => CutShort(w, UninstallPlan(w))
    case Edit(path, content) => w.(files := w.files[path := content])
  }

  function History(w: World, actions: seq<Action>): World
    decreases |actions|
  {
    if actions == [] then w else History(Act(w, actions[0]), actions[1..])
  }

  /** The operator never takes `rule` out of the settings at `path`. */
  predicate NeverRemoved(actions: seq<Action>, path: string, rule: string) {
    forall a <- actions :: a.Edit? && a.path == path ==> Grants(a.content, rule)
  }

  lemma GrantedKeeps(data: map<string, Json>, rule: string)
    requires Grants(Plain(Doc(Obj(data))), rule)
    ensures Permissions(data).Some? && Allow(Permissions(data).value).Some?
    ensures var perms := Permissions(data).value;
      Grants(Plain(Doc(Obj(Granted(data, perms, Allow(perms).value)))), rule)
  {
    var perms := Permissions(data).value;
    var allow := Allow(perms).value;
    WithRulesGrows(allow, ALLOW_RULES);
    var i :| 0 <= i < |allow| && allow[i] == Str(rule);
    assert WithRules(allow, ALLOW_RULES)[i] == Str(rule);
  }

  lemma CarriedOwns(prior: map<string, Json>, r: Record, seen: Provenance, rule: string)
    requires rule in seen.rulesExisted && seen.rulesExisted[rule]
    ensures rule in Carried(prior, r, seen).rulesExisted
    ensures Carried(prior, r, seen).rulesExisted[rule] == !Owned(r, rule)
  {
  }

  /** A state written over settings that grant `rule` claims it only if the state before it did. */
  lemma WrittenClaims(w: World, path: string, now: string, rule: string)
    requires InstallPlan(w, path, now).Writes? && Grants(At(w, path), rule)
    ensures Claims(InstallPlan(w, path, now).state, path, rule) ==> Claims(w.state, path, rule)
    ensures Grants(Plain(InstallPlan(w, path, now).content), rule)
  {
    hide StateDoc, Parse, WithRules;
    RulesAreThree();
    var data := LoadOrEmpty(At(w, path).body).value;
    GrantedKeeps(data, rule);
    var perms := Permissions(data).value;
    var allow := Allow(perms).value;
    var seen := Observed(true, data, perms, allow);
    var prior := PriorState(w.state, PATH_KEY, path).value;
    var p := if prior == map[] then seen else Carried(prior, Parse(prior).value, seen);
    WrittenStateParses(path, p, now);
    StateDocMembers(path, p, now);
    if rule in ALLOW_RULES {
      assert seen.rulesExisted[rule];
      if prior != map[] { CarriedOwns(prior, Parse(prior).value, seen, rule); }
    }
  }

  lemma InstallKeepsTheirs(w: World, path: string, now: string, at: string, rule: string)
    requires Theirs(w, path, rule)
    ensures Theirs(Install(w, at, now), path, rule)
    ensures Theirs(CutShort(w, InstallPlan(w, at, now)), path, rule)
  {
    hide StateDoc, Parse, Granted;
    var plan := InstallPlan(w, at, now);
    if plan.Writes? {
      if at == path {
        WrittenClaims(w, path, now, rule);
      } else {
        WrittenElsewhere(w, at, now, path, rule);
      }
    }
  }

  lemma WrittenElsewhere(w: World, at: string, now: string, path: string, rule: string)
    requires InstallPlan(w, at, now).Writes? && at != path
    ensures InstallPlan(w, at, now).path == at && !Claims(InstallPlan(w, at, now).state, path, rule)
  {
    hide StateDoc, Parse;
    var data := LoadOrEmpty(At(w, at).body).value;
    var perms := Permissions(data).value;
    var allow := Allow(perms).value;
    var seen := Observed(!At(w, at).body.NoFile?, data, perms, allow);
    var prior := PriorState(w.state, PATH_KEY, at).value;
    var p := if prior == map[] then seen else Carried(prior, Parse(prior).value, seen);
    StateDocMembers(at, p, now);
  }

  lemma RevokedKeeps(data: map<string, Json>, state: map<string, Json>, r: Record, rule: string)
    requires Listed(Allowed(data), rule) && !Owned(r, rule)
    ensures Listed(Allowed(Revoked(data, state, r)), rule)
  {
    var perms, kept := data["permissions"].members, Without(Allowed(data), r);
    WithoutMembers(Allowed(data), r);
    assert Str(rule) in kept;
    assert "allow" in PermissionsLeft(perms, kept, state);
  }

  lemma UninstallKeepsTheirs(w: World, path: string, rule: string)
    requires Theirs(w, path, rule)
    ensures Theirs(Uninstall(w), path, rule)
    ensures Theirs(CutShort(w, UninstallPlan(w)), path, rule)
  {
    hide Parse, Revoked;
    var plan := UninstallPlan(w);
    if plan.Writes? && plan.path == path {
      var state := Load(w.state).value;
      var data := Load(At(w, path).body).value;
      RevokedKeeps(data, state, Parse(state).value, rule);
      assert Allowed(map[]) == [];
    }
  }

  /**
   Over any history of installs, re-installs, uninstalls, runs of either cut between their two
   writes, and operator edits of any file, a rule that was the operator's at the start and that the
   operator never removed is granted, and still the operator's, at the end.
   */
  lemma {:induction false} OperatorRuleSurvives(w: World, actions: seq<Action>, path: string, rule: string)
    requires Theirs(w, path, rule) && NeverRemoved(actions, path, rule)
    ensures Theirs(History(w, actions), path, rule)
    decreases |actions|
  {
    hide Theirs, Install, Uninstall, InstallPlan, UninstallPlan;
    if actions != [] {
      var a := actions[0];
      ActKeepsTheirs(w, a, path, rule);
      assert forall b <- actions[1..] :: b in actions;
      OperatorRuleSurvives(Act(w, a), actions[1..], path, rule);
    }
  }

  lemma ActKeepsTheirs(w: World, a: Action, path: string, rule: string)
    requires Theirs(w, path, rule) && (a.Edit? && a.path == path ==> Grants(a.content, rule))
    ensures Theirs(Act(w, a), path, rule)
  {
    hide Install, Uninstall, InstallPlan, UninstallPlan, Claims, Grants;
    match a
    case RunInstall(at, now) => InstallKeepsTheirs(w, path, now, at, rule);
    case InstallCut(at, now) => InstallKeepsTheirs(w, path, now, at, rule);
    case RunUninstall => UninstallKeepsTheirs(w, path, rule);
    case UninstallCut => UninstallKeepsTheirs(w, path, rule);
    case Edit(_, _) =>
  }
}
