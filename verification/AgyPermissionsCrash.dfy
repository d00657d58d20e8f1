/** Runs of the permission installer that are cut between their two writes. */
module AgyPermissionsCrash {
  import opened JsonValues
  import opened Options
  import opened AgyFiles
  import opened AgyPermissions
  import opened AgyPermissionsLists
  import opened AgyPermissionsSafety
  import opened AgyPermissionsInverse

  // ---------------------------------------------------------------- crash between the two writes

  lemma RevokedTwice(data: map<string, Json>, state: map<string, Json>, r: Record)
    ensures Revoked(Revoked(data, state, r), state, r) == Revoked(data, state, r)
  {
    hide PermissionsLeft, DataLeft, Created;
    var once := Revoked(data, state, r);
    if HasAllow(data) && OwnsAny(r) && HasAllow(once) {
      var perms, kept := data["permissions"].members, Without(Allowed(data), r);
      PermissionsLeftExactly(perms, kept, state);
      DataLeftExactly(data, PermissionsLeft(perms, kept, state), state);
      WithoutTwice(Allowed(data), r);
      LeftTwice(data, perms, kept, state);
    }
  }

  lemma LeftTwice(data: map<string, Json>, perms: map<string, Json>, kept: seq<Json>, state: map<string, Json>)
    ensures var left := PermissionsLeft(perms, kept, state);
      && PermissionsLeft(left, kept, state) == left
      && DataLeft(DataLeft(data, left, state), left, state) == DataLeft(data, left, state)
  {
    hide Created;
    var left := PermissionsLeft(perms, kept, state);
    assert (perms - {"allow"}) - {"allow"} == perms - {"allow"};
    assert (data - {"permissions"}) - {"permissions"} == data - {"permissions"};
    assert data["permissions" := Obj(left)]["permissions" := Obj(left)] == data["permissions" := Obj(left)];
  }

  /** An uninstall cut after its first write and run again ends where the uninterrupted one would. */
  lemma UninstallRerun(w: World)
    ensures Uninstall(CutShort(w, UninstallPlan(w))) == Uninstall(w)
  {
    hide Parse, Revoked;
    var plan := UninstallPlan(w);
    if plan.Writes? {
      var state := Load(w.state).value;
      var r, body := Parse(state).value, At(w, plan.path).body;
      if !body.NoFile? {
        RevokedTwice(Load(body).value, state, r);
      }
      assert w.files[plan.path := Plain(plan.content)][plan.path := Plain(plan.content)]
          == w.files[plan.path := Plain(plan.content)];
    }
  }

  lemma GrantedIsRestored(data: map<string, Json>, perms: map<string, Json>, allow: seq<Json>)
    ensures Restored(Doc(Obj(Granted(data, perms, allow)))) == Doc(Obj(Granted(data, perms, allow)))
    ensures HasAllow(Granted(data, perms, allow))
  {
    var granted := Granted(data, perms, allow);
    assert granted["permissions"].Obj? && granted["permissions"].members["allow"].Arr?;
  }

  predicate GrantsAll(t: Target) { forall rule <- ALLOW_RULES :: Grants(t, rule) }

  /** Installing has added nothing exactly when every rule of ours was granted before. */
  lemma GrantsNothingNew(body: Body, data: map<string, Json>, perms: map<string, Json>, allow: seq<Json>)
    requires LoadOrEmpty(body) == Some(data) && Permissions(data) == Some(perms) && Allow(perms) == Some(allow)
    ensures Doc(Obj(Granted(data, perms, allow))) == Restored(body) <==> GrantsAll(Plain(body))
  {
    hide WithRules, Granted;
    RulesAreThree();
    WithRulesGrows(allow, ALLOW_RULES);
    GrantedLeavesAlike(data, perms, allow, [], map[]);
    assert ALLOW_RULES[0] in ALLOW_RULES;
    if GrantsAll(Plain(body)) {
      assert Allowed(data) == allow;
      WithRulesListed(allow, ALLOW_RULES);
      GrantedAlready(data, perms, allow);
    } else if !body.NoFile? {
      EmptyHasNoNulls();
      WithoutNullsAllowed(data, allow);
    }
  }

  lemma GrantedAlready(data: map<string, Json>, perms: map<string, Json>, allow: seq<Json>)
    requires HasAllow(data) && data["permissions"] == Obj(perms) && Allowed(data) == allow
    requires WithRules(allow, ALLOW_RULES) == allow
    ensures Granted(data, perms, allow) == data == WithoutNulls(data)
  {
    assert perms["allow" := Arr(allow)] == perms;
    assert data["permissions" := Obj(perms)] == data;
  }

  lemma WithoutNullsAllowed(data: map<string, Json>, allow: seq<Json>)
    ensures Allowed(WithoutNulls(data)) == Allowed(data) && HasAllow(WithoutNulls(data)) == HasAllow(data)
  {
  }

  /**
   A first install cut between its two writes is never undone: the rules it added are the operator's
   to every later install, so installs and an uninstall leave exactly what the cut left. That is what
   was there before exactly when the cut install had no rule to add.
   */
  lemma CutInstallStays(w: World, path: string, now: string, nows: seq<string>)
    requires nows != [] && FirstInstall(w, path) && InstallPlan(w, path, now).Writes?
    ensures var plan := InstallPlan(w, path, now);
      var after := Uninstall(InstallAll(CutShort(w, plan), path, nows));
      && after == Write(w, path, plan.content).(state := NoFile)
      && (At(after, path) == Plain(Restored(At(w, path).body)) <==> GrantsAll(At(w, path)))
  {
    hide Granted, Parse, Restored, InstallAll, Uninstall, Grants;
    var data, perms, allow, p, state := InstallWrites(w, path, now);
    var cut := CutShort(w, InstallPlan(w, path, now));
    var settings := Granted(data, perms, allow);
    GrantedIsRestored(data, perms, allow);
    assert At(cut, path) == Plain(Doc(Obj(settings)));
    InstallsThenUninstall(cut, path, nows);
    assert cut.files[path := Plain(Doc(Obj(settings)))] == cut.files;
    GrantsNothingNew(At(w, path).body, data, perms, allow);
  }

  /** Every rule this version grants is on the record already, or was granted before. */
  predicate AddsNothingUnrecorded(w: World, path: string)
    requires Reinstallable(w, path)
  {
    forall rule <- ALLOW_RULES ::
      rule in Parse(Load(w.state).value).value.rules || Listed(Allowed(At(w, path).body.value.members), rule)
  }

  /** The settings a cut re-install leaves, over the record it has not replaced. */
  lemma CutReinstall(w: World, path: string, now: string)
      returns (data: map<string, Json>, perms: map<string, Json>, allow: seq<Json>, cut: World)
    requires Reinstallable(w, path)
    ensures data == At(w, path).body.value.members && allow == Allowed(data) && Permissions(data) == Some(perms)
    ensures Allow(perms) == Some(allow)
    ensures cut == CutShort(w, InstallPlan(w, path, now)) && Reinstallable(cut, path) && cut.state == w.state
    ensures At(cut, path) == Plain(Doc(Obj(Granted(data, perms, allow))))
    ensures Allowed(Granted(data, perms, allow)) == WithRules(allow, ALLOW_RULES)
    ensures cut.files == w.files[path := At(cut, path)]
  {
    hide Parse, Granted, WithRules, StateDoc, Carried;
    ReinstallPossible(w, path, now);
    var p, state;
    data, perms, allow, p, state := InstallWrites(w, path, now);
    cut := CutShort(w, InstallPlan(w, path, now));
    GrantedLeavesAlike(data, perms, allow, [], state);
  }

  /** The provenance the next install carries, after the cut and without it. */
  lemma CarriedAfterCut(prior: map<string, Json>, r: Record, data: map<string, Json>, perms: map<string, Json>,
                        allow: seq<Json>, rule: string)
    requires HasAllow(data) && Permissions(data) == Some(perms) && Allow(perms) == Some(allow) && Whole(r)
    requires rule in ALLOW_RULES
    ensures var granted := Granted(data, perms, allow);
      var grown := granted["permissions"].members;
      var p, p' := Carried(prior, r, Observed(true, data, perms, allow)),
                   Carried(prior, r, Observed(true, granted, grown, WithRules(allow, ALLOW_RULES)));
      && p'.(rulesExisted := p.rulesExisted) == p
      && p.rulesExisted[rule] == (if rule in r.rules then r.existed[rule] else Listed(allow, rule))
      && p'.rulesExisted[rule] == (if rule in r.rules then r.existed[rule] else true)
  {
    hide WithRules;
    WithRulesGrows(allow, ALLOW_RULES);
  }

  lemma InstallIs(w: World, path: string, now: string, data: map<string, Json>, perms: map<string, Json>,
                  allow: seq<Json>)
    requires Reinstallable(w, path)
    requires data == At(w, path).body.value.members && Permissions(data) == Some(perms) && Allow(perms) == Some(allow)
    ensures var prior := Load(w.state).value;
      var p := Carried(prior, Parse(prior).value, Observed(true, data, perms, allow));
      Install(w, path, now)
      == Write(w, path, Doc(Obj(Granted(data, perms, allow)))).(state := Doc(Obj(StateDoc(path, p, now))))
  {
    hide Parse, Granted, StateDoc, Carried;
  }

  lemma GrantedTwice(data: map<string, Json>, perms: map<string, Json>, allow: seq<Json>)
    ensures var granted := Granted(data, perms, allow);
      Granted(granted, granted["permissions"].members, WithRules(allow, ALLOW_RULES)) == granted
  {
    hide WithRules;
    WithRulesGrows(allow, ALLOW_RULES);
    WithRulesListed(WithRules(allow, ALLOW_RULES), ALLOW_RULES);
    var grown := perms["allow" := Arr(WithRules(allow, ALLOW_RULES))];
    assert grown["allow" := Arr(WithRules(allow, ALLOW_RULES))] == grown;
  }

  /**
   A re-install cut between its two writes is made good by the next install exactly when it granted no
   rule the record does not know; such a rule is the operator's from then on.
   */
  lemma CutReinstallExactly(w: World, path: string, now: string, later: string)
    requires Reinstallable(w, path)
    ensures var cut := CutShort(w, InstallPlan(w, path, now));
      Uninstall(Install(cut, path, later)) == Uninstall(Install(w, path, later)) <==> AddsNothingUnrecorded(w, path)
  {
    hide Parse, Granted, InstallPlan, Install, Uninstall, WithRules, Carried, StateDoc, Observed;
    var data, perms, allow, cut := CutReinstall(w, path, now);
    if AddsNothingUnrecorded(w, path) {
      CutMadeGood(w, path, later, data, perms, allow, cut);
    } else {
      var rule :| rule in ALLOW_RULES && rule !in Parse(Load(w.state).value).value.rules && !Listed(allow, rule);
      CutGrantsForGood(w, path, later, data, perms, allow, cut, rule);
    }
  }

  lemma CutMadeGood(w: World, path: string, later: string, data: map<string, Json>, perms: map<string, Json>,
                    allow: seq<Json>, cut: World)
    requires Reinstallable(w, path) && Reinstallable(cut, path) && cut.state == w.state
    requires data == At(w, path).body.value.members && Permissions(data) == Some(perms) && Allow(perms) == Some(allow)
    requires At(cut, path) == Plain(Doc(Obj(Granted(data, perms, allow))))
    requires cut.files == w.files[path := At(cut, path)]
    requires AddsNothingUnrecorded(w, path)
    ensures Install(cut, path, later) == Install(w, path, later)
  {
    hide Parse, WithRules, Carried, StateDoc, Observed, Install;
    var prior := Load(w.state).value;
    var r := Parse(prior).value;
    var granted := Granted(data, perms, allow);
    var grown, longer := granted["permissions"].members, WithRules(allow, ALLOW_RULES);
    var p, p' := Carried(prior, r, Observed(true, data, perms, allow)),
                 Carried(prior, r, Observed(true, granted, grown, longer));
    forall rule | rule in ALLOW_RULES
      ensures p'.(rulesExisted := p.rulesExisted) == p
      ensures rule in p.rulesExisted && rule in p'.rulesExisted && p'.rulesExisted[rule] == p.rulesExisted[rule]
    {
      CarriedRules(prior, r, Observed(true, data, perms, allow), data, perms, allow);
      CarriedRules(prior, r, Observed(true, granted, grown, longer), granted, grown, longer);
      CarriedAfterCut(prior, r, data, perms, allow, rule);
    }
    CarriedRules(prior, r, Observed(true, data, perms, allow), data, perms, allow);
    CarriedRules(prior, r, Observed(true, granted, grown, longer), granted, grown, longer);
    assert ALLOW_RULES[0] in ALLOW_RULES;
    assert p'.rulesExisted == p.rulesExisted;
    InstallIs(w, path, later, data, perms, allow);
    InstallIs(cut, path, later, granted, grown, longer);
    GrantedTwice(data, perms, allow);
  }

  lemma CarriedRules(prior: map<string, Json>, r: Record, seen: Provenance, data: map<string, Json>,
                     perms: map<string, Json>, allow: seq<Json>)
    requires seen == Observed(true, data, perms, allow)
    ensures forall rule :: rule in Carried(prior, r, seen).rulesExisted <==> rule in ALLOW_RULES
  {
  }

  lemma CutGrantsForGood(w: World, path: string, later: string, data: map<string, Json>, perms: map<string, Json>,
                         allow: seq<Json>, cut: World, rule: string)
    requires Reinstallable(w, path) && Reinstallable(cut, path) && cut.state == w.state
    requires data == At(w, path).body.value.members && Permissions(data) == Some(perms) && Allow(perms) == Some(allow)
    requires At(cut, path) == Plain(Doc(Obj(Granted(data, perms, allow))))
    requires Allowed(Granted(data, perms, allow)) == WithRules(allow, ALLOW_RULES)
    requires rule in ALLOW_RULES && rule !in Parse(Load(w.state).value).value.rules && !Listed(allow, rule)
    ensures Grants(At(Uninstall(Install(cut, path, later)), path), rule)
    ensures !Grants(At(Uninstall(Install(w, path, later)), path), rule)
  {
    hide Parse, Granted, InstallPlan, Install, Uninstall, WithRules, Carried, Observed, Grants;
    var prior := Load(w.state).value;
    var r := Parse(prior).value;
    WithRulesGrows(allow, ALLOW_RULES);
    UnrecordedIsOurs(w, path, later, data, perms, allow, rule);
    UnrecordedIsTheirs(cut, path, later, rule);
    UninstallKeepsTheirs(Install(cut, path, later), path, rule);
  }

  /** A rule the record does not know and the settings grant is the operator's after the next install. */
  lemma UnrecordedIsTheirs(w: World, path: string, later: string, rule: string)
    requires Reinstallable(w, path) && rule in ALLOW_RULES
    requires rule !in Parse(Load(w.state).value).value.rules && Listed(Allowed(At(w, path).body.value.members), rule)
    ensures Theirs(Install(w, path, later), path, rule)
  {
    hide Parse, Granted, InstallPlan, Install, Truthy, OurFile;
    var data, perms, allow, p, state := ReinstallWrites(w, path, later);
    GrantedLeavesAlike(data, perms, allow, [], state);
    WithRulesGrows(allow, ALLOW_RULES);
  }

  /** One that the settings do not grant is ours, and goes with the next uninstall. */
  lemma UnrecordedIsOurs(w: World, path: string, later: string, data: map<string, Json>, perms: map<string, Json>,
                         allow: seq<Json>, rule: string)
    requires Reinstallable(w, path) && rule in ALLOW_RULES
    requires data == At(w, path).body.value.members && Permissions(data) == Some(perms) && Allow(perms) == Some(allow)
    requires rule !in Parse(Load(w.state).value).value.rules && !Listed(allow, rule)
    ensures !Grants(At(Uninstall(Install(w, path, later)), path), rule)
  {
    hide Parse, Granted, InstallPlan, Install, Uninstall, Truthy, OurFile, Grants;
    var _, _, _, p, state := ReinstallWrites(w, path, later);
    ReinstallPossible(w, path, later);
    InstallSettles(w, path, later);
    assert Owned(Record(ALLOW_RULES, p.rulesExisted), rule);
    UninstallGrantsNothing(Install(w, path, later), path, rule);
  }
}
