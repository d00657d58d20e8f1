/** Uninstall as the inverse of install: exact effect, absorption of re-installs, round trip, re-run after a crash. */
module AgyPermissionsInverse {
  import opened JsonValues
  import opened Options
  import opened AgyFiles
  import opened AgyPermissions
  import opened AgyPermissionsLists
  import opened AgyPermissionsSafety

  // ---------------------------------------------------------------- the exact effect of uninstall

  function PermissionMember(data: map<string, Json>, key: string): Option<Json> {
    if Get(data, "permissions", Null).Obj? then Member(data["permissions"].members, key) else None
  }

  /** A record as the parser returns them: provenance for exactly the recorded rules. */
  predicate Whole(r: Record) { r.rules != [] && r.existed.Keys == set rule <- r.rules }

  /** The list is empty once our rules are out, and there was none before the install. */
  predicate DropsAllow(data: map<string, Json>, state: map<string, Json>, r: Record) {
    HasAllow(data) && OwnsAny(r) && Without(Allowed(data), r) == [] && Created(state, "allowExistedBefore")
  }

  lemma PermissionsLeftExactly(perms: map<string, Json>, kept: seq<Json>, state: map<string, Json>)
    ensures var left := PermissionsLeft(perms, kept, state);
      && ("allow" !in left <==> kept == [] && Created(state, "allowExistedBefore"))
      && ("allow" in left ==> left["allow"] == Arr(kept))
      && (forall key :: key != "allow" ==> Member(left, key) == Member(perms, key))
  {
  }

  lemma DataLeftExactly(data: map<string, Json>, perms: map<string, Json>, state: map<string, Json>)
    ensures var left := DataLeft(data, perms, state);
      && ("permissions" !in left <==> perms == map[] && Created(state, "permissionsExistedBefore"))
      && ("permissions" in left ==> left["permissions"] == Obj(perms))
      && (forall key :: key != "permissions" ==> Member(left, key) == Member(data, key))
  {
  }

  /**
   Uninstall filters the owned rules out of the current `allow`, in order, and changes no other
   setting; when we own a rule it drops exactly the containers that are empty by then and that the
   install created.
   */
  lemma RevokedExactly(data: map<string, Json>, state: map<string, Json>, r: Record)
    requires Whole(r)
    ensures var data' := Revoked(data, state, r);
      && Allowed(data') == Without(Allowed(data), r)
      && (forall key :: key != "permissions" ==> Member(data', key) == Member(data, key))
      && (forall key :: key != "allow" ==> PermissionMember(data', key) == PermissionMember(data, key))
      && (HasAllow(data) ==> (PermissionMember(data', "allow").None? <==> DropsAllow(data, state, r)))
      && ("permissions" in data ==> ("permissions" !in data' <==>
            && DropsAllow(data, state, r) && Created(state, "permissionsExistedBefore")
            && forall key :: key != "allow" ==> PermissionMember(data, key).None?))
  {
    hide PermissionsLeft, DataLeft, Created;
    if HasAllow(data) && OwnsAny(r) {
      var perms := data["permissions"].members;
      var kept := Without(Allowed(data), r);
      PermissionsLeftExactly(perms, kept, state);
      DataLeftExactly(data, PermissionsLeft(perms, kept, state), state);
      EmptiedExactly(perms, PermissionsLeft(perms, kept, state));
      assert forall key :: PermissionMember(data, key) == Member(perms, key);
    } else if HasAllow(data) {
      WithoutNothing(Allowed(data), r);
    }
  }

  lemma EmptiedExactly(perms: map<string, Json>, left: map<string, Json>)
    requires forall key :: key != "allow" ==> Member(left, key) == Member(perms, key)
    ensures left == map[] <==> "allow" !in left && forall key :: key != "allow" ==> Member(perms, key).None?
  {
    if "allow" !in left && forall key :: key != "allow" ==> Member(perms, key).None? {
      forall key ensures key !in left { assert Member(left, key).None?; }
    }
  }

  /** What the state an install has written says, to every later reader of it. */
  predicate Says(state: map<string, Json>, path: string, p: Provenance) {
    && Member(state, PATH_KEY) == Some(Str(path))
    && Parse(state) == Some(Record(ALLOW_RULES, p.rulesExisted))
    && Member(state, "detectMode") == Some(p.detectMode)
    && Member(state, "settingsExistedBefore") == Some(p.settingsExisted)
    && Member(state, "permissionsExistedBefore") == Some(p.permissionsExisted)
    && Member(state, "allowExistedBefore") == Some(p.allowExisted)
  }

  /** The provenance an install of `path` writes down. */
  function Decided(w: World, path: string, seen: Provenance): Provenance {
    match PriorState(w.state, PATH_KEY, path)
    case Some(prior) =>
      if prior != map[] && Parse(prior).Some? then Carried(prior, Parse(prior).value, seen) else seen
    case None => seen
  }

  lemma InstallWrites(w: World, path: string, now: string)
      returns (data: map<string, Json>, perms: map<string, Json>, allow: seq<Json>, p: Provenance,
               state: map<string, Json>)
    requires InstallPlan(w, path, now).Writes?
    ensures At(w, path).Plain?
    ensures LoadOrEmpty(At(w, path).body) == Some(data)
    ensures Permissions(data) == Some(perms) && Allow(perms) == Some(allow)
    ensures p == Decided(w, path, Observed(!At(w, path).body.NoFile?, data, perms, allow))
    ensures Install(w, path, now) == Write(w, path, Doc(Obj(Granted(data, perms, allow)))).(state := Doc(Obj(state)))
    ensures Says(state, path, p)
  {
    hide Parse, Granted, StateDoc, Carried;
    RulesAreThree();
    data := LoadOrEmpty(At(w, path).body).value;
    perms := Permissions(data).value;
    allow := Allow(perms).value;
    p := Decided(w, path, Observed(!At(w, path).body.NoFile?, data, perms, allow));
    DecidedDescribesOurs(w, path, Observed(!At(w, path).body.NoFile?, data, perms, allow));
    state := StateDoc(path, p, now);
    WrittenStateParses(path, p, now);
    StateDocMembers(path, p, now);
  }

  lemma DecidedDescribesOurs(w: World, path: string, seen: Provenance)
    ensures Decided(w, path, seen).rulesExisted.Keys == seen.rulesExisted.Keys
  {
    hide Parse;
  }

  /** The plan of an uninstall over a readable state and a readable settings object. */
  lemma PlanOver(w: World, path: string, data: map<string, Json>, state: map<string, Json>, r: Record)
    requires w.state == Doc(Obj(state)) && Member(state, PATH_KEY) == Some(Str(path)) && Parse(state) == Some(r)
    requires At(w, path) == Plain(Doc(Obj(data)))
    ensures var left := Revoked(data, state, r);
      UninstallPlan(w) == Writes(path, if OurFile(state) && left == map[] then NoFile else Doc(Obj(left)), NoFile)
  {
    hide Parse, Revoked, OurFile;
  }

  // ---------------------------------------------------------------- re-install is absorbed

  /** An earlier install of `path` by this version or an older one, over settings whose allow list is there. */
  predicate Reinstallable(w: World, path: string) {
    && Readable(At(w, path)) && HasAllow(At(w, path).body.value.members)
    && Load(w.state).Some?
    && var prior := Load(w.state).value;
    && Member(prior, PATH_KEY) == Some(Str(path)) && Parse(prior).Some?
  }

  /** How a re-install writes a container entry down: as recorded, or, if it was never recorded, as there. */
  predicate CreatedAsCarried(prior: map<string, Json>, key: string) { key in prior && Created(prior, key) }

  /**
   Uninstall alone would drop a container whose entry the record lacks: it takes the missing entry for
   "made by the install", and a re-install takes it for "there before".
   */
  predicate DropsByDefault(data: map<string, Json>, prior: map<string, Json>, r: Record) {
    && DropsAllow(data, prior, r)
    && ("allowExistedBefore" in prior ==>
          && "permissionsExistedBefore" !in prior
          && forall key <- data["permissions"].members :: key == "allow")
  }

  /**
   What re-install and uninstall can read of a settings file and a record before they run: every rule
   of ours recorded as the operator's is still listed, no rule this version no longer grants is both
   owned and listed, and an empty list is not one an all-operator record would let the re-install drop.
   */
  predicate Absorbs(allow: seq<Json>, allowCreated: bool, r: Record) {
    && (forall rule <- r.rules :: rule in ALLOW_RULES && !Owned(r, rule) ==> Listed(allow, rule))
    && (forall rule <- r.rules :: rule !in ALLOW_RULES && Owned(r, rule) ==> !Listed(allow, rule))
    && (allow == [] && !OwnsAny(r) ==> !allowCreated)
  }

  predicate WillAbsorb(w: World, path: string)
    requires Reinstallable(w, path)
  {
    var data, prior := At(w, path).body.value.members, Load(w.state).value;
    && Absorbs(Allowed(data), CreatedAsCarried(prior, "allowExistedBefore"), Parse(prior).value)
    && !DropsByDefault(data, prior, Parse(prior).value)
  }

  lemma CarriedRecord(allow: seq<Json>, prior: map<string, Json>, r: Record, seen: Provenance)
    requires Whole(r) && Absorbs(allow, CreatedAsCarried(prior, "allowExistedBefore"), r)
    requires seen.rulesExisted == map rule | rule in ALLOW_RULES :: Listed(allow, rule)
    ensures var r' := Record(ALLOW_RULES, Carried(prior, r, seen).rulesExisted);
      && Without(WithRules(allow, ALLOW_RULES), r') == Without(allow, r)
      && (!OwnsAny(r') ==> WithRules(allow, ALLOW_RULES) == allow != [])
      && (!OwnsAny(r') ==> Without(allow, r) == allow)
  {
    RulesAreThree();
    var r' := Record(ALLOW_RULES, Carried(prior, r, seen).rulesExisted);
    GrantThenRevoke(allow, ALLOW_RULES, r');
    WithoutAlike(allow, r', r);
    if !OwnsAny(r') {
      assert forall rule <- ALLOW_RULES :: !Owned(r', rule);
      WithRulesListed(allow, ALLOW_RULES);
      assert Listed(allow, ALLOW_RULES[0]);
      WithoutNothing(allow, r');
    }
  }

  lemma GrantedLeavesAlike(data: map<string, Json>, perms: map<string, Json>, allow: seq<Json>, kept: seq<Json>,
                           state: map<string, Json>)
    ensures var granted := Granted(data, perms, allow);
      && HasAllow(granted) && Allowed(granted) == WithRules(allow, ALLOW_RULES)
      && DataLeft(granted, PermissionsLeft(granted["permissions"].members, kept, state), state)
      == DataLeft(data, PermissionsLeft(perms, kept, state), state)
  {
    hide WithRules, Created;
    var grown := perms["allow" := Arr(WithRules(allow, ALLOW_RULES))];
    assert grown - {"allow"} == perms - {"allow"};
    assert grown["allow" := Arr(kept)] == perms["allow" := Arr(kept)];
    assert PermissionsLeft(grown, kept, state) == PermissionsLeft(perms, kept, state);
    var left := PermissionsLeft(perms, kept, state);
    assert data["permissions" := Obj(grown)] - {"permissions"} == data - {"permissions"};
    assert data["permissions" := Obj(grown)]["permissions" := Obj(left)] == data["permissions" := Obj(left)];
  }

  /** Putting back the list that is there changes nothing. */
  lemma KeptWhole(data: map<string, Json>, state: map<string, Json>)
    requires HasAllow(data) && (Allowed(data) != [] || !Created(state, "allowExistedBefore"))
    ensures DataLeft(data, PermissionsLeft(data["permissions"].members, Allowed(data), state), state) == data
  {
    hide Created;
    var perms := data["permissions"].members;
    assert perms["allow" := Arr(Allowed(data))] == perms;
    assert "allow" in perms;
    assert data["permissions" := Obj(perms)] == data;
  }

  /** The container entries of a state a re-install wrote over `prior`. */
  predicate CarriesContainers(prior: map<string, Json>, state: map<string, Json>) {
    && Created(state, "allowExistedBefore") == CreatedAsCarried(prior, "allowExistedBefore")
    && Created(state, "permissionsExistedBefore") == CreatedAsCarried(prior, "permissionsExistedBefore")
  }

  /** Unless a container goes by default, the carried entries drop the same containers as the recorded ones. */
  lemma LeftAlike(data: map<string, Json>, prior: map<string, Json>, state: map<string, Json>, r: Record)
    requires HasAllow(data) && OwnsAny(r) && CarriesContainers(prior, state) && !DropsByDefault(data, prior, r)
    ensures var perms, kept := data["permissions"].members, Without(Allowed(data), r);
      DataLeft(data, PermissionsLeft(perms, kept, state), state)
      == DataLeft(data, PermissionsLeft(perms, kept, prior), prior)
  {
    hide Truthy, Created;
    var perms, kept := data["permissions"].members, Without(Allowed(data), r);
    var left := PermissionsLeft(perms, kept, prior);
    PermissionsLeftExactly(perms, kept, prior);
    EmptiedExactly(perms, left);
    assert Without(perms["allow"].items, r) == kept;
    assert PermissionsLeft(perms, kept, state) == left;
    if left == map[] {
      assert forall key <- perms :: key == "allow" by { assert forall key <- perms :: Member(perms, key).Some?; }
      assert DropsAllow(data, prior, r);
    }
  }

  lemma RevokedAlike(data: map<string, Json>, prior: map<string, Json>, state: map<string, Json>, r: Record, r': Record)
    requires HasAllow(data) && Whole(r) && CarriesContainers(prior, state) && !DropsByDefault(data, prior, r)
    requires Absorbs(Allowed(data), CreatedAsCarried(prior, "allowExistedBefore"), r)
    requires Without(WithRules(Allowed(data), ALLOW_RULES), r') == Without(Allowed(data), r)
    requires !OwnsAny(r') ==> WithRules(Allowed(data), ALLOW_RULES) == Allowed(data) != []
    requires !OwnsAny(r') ==> Without(Allowed(data), r) == Allowed(data)
    ensures Revoked(Granted(data, Permissions(data).value, Allowed(data)), state, r') == Revoked(data, prior, r)
  {
    hide WithRules, Created, DropsByDefault;
    var perms, allow, kept := Permissions(data).value, Allowed(data), Without(Allowed(data), r);
    GrantedLeavesAlike(data, perms, allow, kept, state);
    if OwnsAny(r) { LeftAlike(data, prior, state, r); }
    if !OwnsAny(r) {
      WithoutNothing(allow, r);
      KeptWhole(data, state);
    } else if !OwnsAny(r') {
      KeptWhole(data, prior);
    }
    if !OwnsAny(r) || !OwnsAny(r') {
      assert perms["allow" := Arr(allow)] == perms;
      assert data["permissions" := Obj(perms)] == data;
    }
  }

  lemma ReinstallPossible(w: World, path: string, now: string)
    requires Reinstallable(w, path)
    ensures InstallPlan(w, path, now).Writes?
  {
    hide StateDoc, Parse, Granted;
  }

  /** What a re-install writes: the granted settings and a state that carries the record's provenance on. */
  lemma ReinstallWrites(w: World, path: string, now: string)
      returns (data: map<string, Json>, perms: map<string, Json>, allow: seq<Json>, p: Provenance,
               state: map<string, Json>)
    requires Reinstallable(w, path)
    ensures data == At(w, path).body.value.members && allow == Allowed(data) && Permissions(data) == Some(perms)
    ensures Allow(perms) == Some(allow)
    ensures var prior := Load(w.state).value;
      && p == Carried(prior, Parse(prior).value, Observed(true, data, perms, allow))
      && CarriesContainers(prior, state) && OurFile(state) == OurFile(prior)
    ensures Install(w, path, now) == Write(w, path, Doc(Obj(Granted(data, perms, allow)))).(state := Doc(Obj(state)))
    ensures Says(state, path, p)
  {
    hide Parse, Granted, InstallPlan, Install;
    ReinstallPossible(w, path, now);
    data, perms, allow, p, state := InstallWrites(w, path, now);
  }

  lemma AbsorbedPlan(w: World, path: string, now: string)
    requires Reinstallable(w, path)
    requires WillAbsorb(w, path)
    ensures UninstallPlan(Install(w, path, now)) == UninstallPlan(w) && UninstallPlan(w).Writes?
    ensures UninstallPlan(w).path == path
  {
    hide Parse, Granted, Revoked, UninstallPlan, InstallPlan, Install;
    hide Truthy, OurFile, Absorbs, Carried, DropsByDefault;
    var data, perms, allow, p, state := ReinstallWrites(w, path, now);
    var prior := Load(w.state).value;
    var r, seen := Parse(prior).value, Observed(true, data, perms, allow);
    var r' := Record(ALLOW_RULES, p.rulesExisted);
    CarriedRecord(allow, prior, r, seen);
    RevokedAlike(data, prior, state, r, r');
    PlanOver(w, path, data, prior, r);
    PlanOver(Install(w, path, now), path, Granted(data, perms, allow), state, r');
  }

  /**
   A re-install over any record the strict parser accepts, a version 1 record included, is absorbed by
   the next uninstall exactly when `WillAbsorb` holds before it.
   */
  lemma ReinstallAbsorbedExactly(w: World, path: string, now: string)
    requires Reinstallable(w, path)
    ensures Uninstall(Install(w, path, now)) == Uninstall(w) <==> WillAbsorb(w, path)
  {
    hide Parse, Granted, Revoked, UninstallPlan, InstallPlan, Grants, Created;
    if WillAbsorb(w, path) {
      AbsorbedPlan(w, path, now);
      ReinstallPossible(w, path, now);
      var _, _, _, _, _ := InstallWrites(w, path, now);
      assert Install(w, path, now).files[path := Plain(UninstallPlan(w).content)]
          == w.files[path := Plain(UninstallPlan(w).content)];
    } else {
      NotAbsorbed(w, path, now);
    }
  }

  lemma NotAbsorbed(w: World, path: string, now: string)
    requires Reinstallable(w, path) && !WillAbsorb(w, path)
    ensures At(Uninstall(Install(w, path, now)), path) != At(Uninstall(w), path)
  {
    hide Parse, UninstallPlan, InstallPlan, Grants, Created, Install, Uninstall;
    var allow, r := Allowed(At(w, path).body.value.members), Parse(Load(w.state).value).value;
    if rule :| rule in r.rules && rule in ALLOW_RULES && !Owned(r, rule) && !Listed(allow, rule) {
      RestoredAgainstWish(w, path, now, rule);
    } else if rule :| rule in r.rules && rule !in ALLOW_RULES && Owned(r, rule) && Listed(allow, rule) {
      StrandedRule(w, path, now, rule);
    } else if DropsByDefault(At(w, path).body.value.members, Load(w.state).value, r) {
      MissingEntryKeepsContainer(w, path, now);
    } else {
      EmptyListDropped(w, path, now);
    }
  }

  /** A listed rule we own but no longer grant is forgotten by a re-install and stays behind. */
  lemma StrandedRule(w: World, path: string, now: string, rule: string)
    requires Reinstallable(w, path) && Listed(Allowed(At(w, path).body.value.members), rule)
    requires rule in Parse(Load(w.state).value).value.rules && Owned(Parse(Load(w.state).value).value, rule)
    requires rule !in ALLOW_RULES
    ensures Grants(At(Uninstall(Install(w, path, now)), path), rule)
    ensures !Grants(At(Uninstall(w), path), rule)
  {
    hide Parse, Install, Uninstall, UninstallPlan, InstallPlan, Grants;
    ReinstallGrants(w, path, now, rule);
    UninstallKeepsTheirs(Install(w, path, now), path, rule);
    UninstallGrantsNothing(w, path, rule);
  }

  /** A recorded rule of the operator's that the operator has since removed comes back with a re-install, and stays. */
  lemma RestoredAgainstWish(w: World, path: string, now: string, rule: string)
    requires Reinstallable(w, path) && !Listed(Allowed(At(w, path).body.value.members), rule)
    requires rule in Parse(Load(w.state).value).value.rules && !Owned(Parse(Load(w.state).value).value, rule)
    requires rule in ALLOW_RULES
    ensures Grants(At(Uninstall(Install(w, path, now)), path), rule)
    ensures !Grants(At(Uninstall(w), path), rule)
  {
    hide Parse, Install, Uninstall, UninstallPlan, InstallPlan, Grants;
    ReinstallGrants(w, path, now, rule);
    UninstallKeepsTheirs(Install(w, path, now), path, rule);
    UninstallGrantsNothing(w, path, rule);
  }

  /** An emptied list whose record owns nothing is left alone by uninstall, and dropped after a re-install. */
  lemma EmptyListDropped(w: World, path: string, now: string)
    requires Reinstallable(w, path) && Allowed(At(w, path).body.value.members) == []
    requires var r := Parse(Load(w.state).value).value;
      !OwnsAny(r) && forall rule <- r.rules :: rule in ALLOW_RULES ==> Owned(r, rule)
    requires CreatedAsCarried(Load(w.state).value, "allowExistedBefore")
    ensures At(Uninstall(Install(w, path, now)), path) != At(Uninstall(w), path)
  {
    hide Parse, Granted, Revoked, UninstallPlan, InstallPlan, Install, Truthy, OurFile;
    var data, perms, allow, p, state := ReinstallWrites(w, path, now);
    var prior := Load(w.state).value;
    var r, r' := Parse(prior).value, Record(ALLOW_RULES, p.rulesExisted);
    assert forall rule <- ALLOW_RULES :: Owned(r', rule);
    EmptyListLeft(data, perms, prior, state, r, r');
    PlanOver(w, path, data, prior, r);
    PlanOver(Install(w, path, now), path, Granted(data, perms, allow), state, r');
  }

  lemma EmptyListLeft(data: map<string, Json>, perms: map<string, Json>, prior: map<string, Json>,
                      state: map<string, Json>, r: Record, r': Record)
    requires HasAllow(data) && Allowed(data) == [] && Permissions(data) == Some(perms)
    requires !OwnsAny(r) && r'.rules == ALLOW_RULES
    requires forall rule <- ALLOW_RULES :: Owned(r', rule)
    requires Created(state, "allowExistedBefore")
    ensures Revoked(data, prior, r) == data && data != map[]
    ensures !HasAllow(Revoked(Granted(data, perms, []), state, r'))
  {
    hide Created;
    GrantedLeavesAlike(data, perms, [], [], state);
    GrantThenRevoke([], ALLOW_RULES, r');
    assert Owned(r', ALLOW_RULES[0]);
    assert PermissionsLeft(perms, [], state) == perms - {"allow"};
  }

  predicate HoldsPermissions(t: Target) { Readable(t) && "permissions" in t.body.value.members }

  predicate HoldsAllow(t: Target) { Readable(t) && HasAllow(t.body.value.members) }

  /** A container that uninstall alone drops by default stays behind, empty, once a re-install has come first. */
  lemma MissingEntryKeepsContainer(w: World, path: string, now: string)
    requires Reinstallable(w, path)
    requires DropsByDefault(At(w, path).body.value.members, Load(w.state).value, Parse(Load(w.state).value).value)
    ensures var again, alone := At(Uninstall(Install(w, path, now)), path), At(Uninstall(w), path);
      if "allowExistedBefore" in Load(w.state).value then HoldsPermissions(again) && !HoldsPermissions(alone)
      else HoldsAllow(again) && !HoldsAllow(alone)
  {
    hide Parse, Granted, Revoked, UninstallPlan, InstallPlan, Install, OurFile, WithRules, Truthy, DropsByDefault;
    var data, perms, allow, p, state := ReinstallWrites(w, path, now);
    var prior := Load(w.state).value;
    var r, r' := Parse(prior).value, Record(ALLOW_RULES, p.rulesExisted);
    DefaultDrops(data, prior, r);
    CarriedKeeps(data, perms, allow, prior, state, r');
    PlanOver(w, path, data, prior, r);
    PlanOver(Install(w, path, now), path, Granted(data, perms, allow), state, r');
  }

  lemma DefaultDrops(data: map<string, Json>, prior: map<string, Json>, r: Record)
    requires DropsByDefault(data, prior, r)
    ensures !HasAllow(Revoked(data, prior, r))
    ensures "allowExistedBefore" in prior ==>
      "permissionsExistedBefore" !in prior && "permissions" !in Revoked(data, prior, r)
  {
    var perms := data["permissions"].members;
    assert Without(perms["allow"].items, r) == [];
    if "allowExistedBefore" in prior {
      assert perms - {"allow"} == map[];
    }
  }

  lemma CarriedKeeps(data: map<string, Json>, perms: map<string, Json>, allow: seq<Json>, prior: map<string, Json>,
                     state: map<string, Json>, r': Record)
    requires Permissions(data) == Some(perms) && Allow(perms) == Some(allow) && CarriesContainers(prior, state)
    requires "allowExistedBefore" in prior ==> "permissionsExistedBefore" !in prior
    ensures var left := Revoked(Granted(data, perms, allow), state, r');
      && "permissions" in left
      && ("allowExistedBefore" !in prior ==> HasAllow(left))
  {
    hide WithRules, Created, Granted, PermissionsLeft, DataLeft;
    GrantedLeavesAlike(data, perms, allow, [], state);
    var granted := Granted(data, perms, allow);
    if OwnsAny(r') {
      var kept := Without(Allowed(granted), r');
      PermissionsLeftExactly(granted["permissions"].members, kept, state);
      DataLeftExactly(granted, PermissionsLeft(granted["permissions"].members, kept, state), state);
    }
  }

  /** A record of all three rules as ours, without the container entries. */
  function WithoutEntries(path: string): map<string, Json> {
    map["schemaVersion" := Num(2.0), PATH_KEY := Str(path),
        "rules" := Arr([Str(RULE_V2), Str(RULE_PEERS), Str(RULE_SELF)]),
        "rulesExistedBefore" := Obj(map rule | rule in ALLOW_RULES :: Bool(false))]
  }

  lemma WithoutEntriesMembers(path: string)
    ensures var m := WithoutEntries(path);
      && Member(m, "schemaVersion") == Some(Num(2.0)) && Member(m, PATH_KEY) == Some(Str(path))
      && Member(m, "rules") == Some(Arr([Str(RULE_V2), Str(RULE_PEERS), Str(RULE_SELF)]))
      && Member(m, "rulesExistedBefore") == Some(Obj(map rule | rule in ALLOW_RULES :: Bool(false)))
      && "allowExistedBefore" !in m && "permissionsExistedBefore" !in m
  {
    KeysDiffer();
  }

  lemma WithoutEntriesParses(path: string)
    ensures Parse(WithoutEntries(path)) == Some(Record(ALLOW_RULES, map rule | rule in ALLOW_RULES :: false))
  {
    hide Parse, WithoutEntries, Texts;
    WithoutEntriesMembers(path);
    RuleItems();
    var existed: map<string, bool> := map rule | rule in ALLOW_RULES :: false;
    assert (map rule | rule in ALLOW_RULES :: Bool(false)) == map rule | rule in ALLOW_RULES :: Bool(existed[rule]);
    CompleteRecordParses(WithoutEntries(path), [Str(RULE_V2), Str(RULE_PEERS), Str(RULE_SELF)], ALLOW_RULES, existed);
  }

  /** The settings that grant exactly our rules and say nothing else. */
  function OnlyOurs(): map<string, Json> {
    map["permissions" := Obj(map["allow" := Arr([Str(RULE_V2), Str(RULE_PEERS), Str(RULE_SELF)])])]
  }

  /** A concrete one: all else is in order, and yet a re-install leaves a list that uninstall alone takes away. */
  lemma MissingEntryInput(path: string, now: string)
    ensures var w := World(map[path := Plain(Doc(Obj(OnlyOurs())))], Doc(Obj(WithoutEntries(path))));
      && Reinstallable(w, path) && Absorbs(Allowed(OnlyOurs()), true, Parse(WithoutEntries(path)).value)
      && HoldsAllow(At(Uninstall(Install(w, path, now)), path)) && !HoldsAllow(At(Uninstall(w), path))
  {
    hide Parse, WithoutEntries, Install, Uninstall;
    WithoutEntriesMembers(path);
    WithoutEntriesParses(path);
    RulesAreThree();
    var r := Parse(WithoutEntries(path)).value;
    var w := World(map[path := Plain(Doc(Obj(OnlyOurs())))], Doc(Obj(WithoutEntries(path))));
    var allow := Allowed(OnlyOurs());
    assert allow == [Str(RULE_V2), Str(RULE_PEERS), Str(RULE_SELF)];
    assert Owned(r, ALLOW_RULES[0]);
    WithoutMembers(allow, r);
    WithoutOwned(allow, r);
    MissingEntryKeepsContainer(w, path, now);
  }

  lemma ReinstallGrants(w: World, path: string, now: string, rule: string)
    requires Reinstallable(w, path)
    requires rule in Parse(Load(w.state).value).value.rules
    requires var allow, r := Allowed(At(w, path).body.value.members), Parse(Load(w.state).value).value;
      if rule in ALLOW_RULES then !Owned(r, rule) else Listed(allow, rule)
    ensures Theirs(Install(w, path, now), path, rule)
  {
    hide Parse, Granted, UninstallPlan, InstallPlan, Install, Truthy, OurFile;
    var data, perms, allow, p, state := ReinstallWrites(w, path, now);
    GrantedLeavesAlike(data, perms, allow, [], state);
    WithRulesGrows(allow, ALLOW_RULES);
    if Listed(allow, rule) {
      var i :| 0 <= i < |allow| && allow[i] == Str(rule);
      assert WithRules(allow, ALLOW_RULES)[i] == Str(rule);
    }
  }

  lemma UninstallGrantsNothing(w: World, path: string, rule: string)
    requires Reinstallable(w, path)
    requires Owned(Parse(Load(w.state).value).value, rule) || !Listed(Allowed(At(w, path).body.value.members), rule)
    ensures !Grants(At(Uninstall(w), path), rule)
  {
    hide Parse, Revoked, UninstallPlan;
    var data, prior := At(w, path).body.value.members, Load(w.state).value;
    var r := Parse(prior).value;
    PlanOver(w, path, data, prior, r);
    RevokedExactly(data, prior, r);
    WithoutMembers(Allowed(data), r);
  }

  // ---------------------------------------------------------------- round trip

  /** The settings with a JSON null in one of the two container places read as the container's absence. */
  function WithoutNulls(data: map<string, Json>): map<string, Json> {
    match Get(data, "permissions", Null)
    case Null => data - {"permissions"}
    case Obj(perms) => if Get(perms, "allow", Null).Null? then data["permissions" := Obj(perms - {"allow"})] else data
    case _ => data
  }

  function Restored(body: Body): Body {
    match body
    case EmptyText => Doc(Obj(map[]))
    case BlankText => Doc(Obj(map[]))
    case Doc(Obj(data)) => Doc(Obj(WithoutNulls(data)))
    case _ => body
  }

  predicate NullContainer(data: map<string, Json>) {
    || Member(data, "permissions") == Some(Null)
    || PermissionMember(data, "allow") == Some(Null)
  }

  /** No earlier install of this path is on record. */
  predicate FirstInstall(w: World, path: string) { PriorState(w.state, PATH_KEY, path) == Some(map[]) }

  lemma FirstRecord(allow: seq<Json>)
    ensures var r := Record(ALLOW_RULES, map rule | rule in ALLOW_RULES :: Listed(allow, rule));
      && Without(WithRules(allow, ALLOW_RULES), r) == allow
      && (OwnsAny(r) <==> exists rule <- ALLOW_RULES :: !Listed(allow, rule))
      && (!OwnsAny(r) ==> WithRules(allow, ALLOW_RULES) == allow)
  {
    var r := Record(ALLOW_RULES, map rule | rule in ALLOW_RULES :: Listed(allow, rule));
    GrantThenRevoke(allow, ALLOW_RULES, r);
    WithoutNothing(allow, r);
    if !OwnsAny(r) {
      assert forall rule <- ALLOW_RULES :: !Owned(r, rule);
      WithRulesListed(allow, ALLOW_RULES);
    }
  }

  lemma RevokedRestores(data: map<string, Json>, perms: map<string, Json>, allow: seq<Json>, state: map<string, Json>,
                        r: Record)
    requires Permissions(data) == Some(perms) && Allow(perms) == Some(allow)
    requires Created(state, "permissionsExistedBefore") == !Get(data, "permissions", Null).Obj?
    requires Created(state, "allowExistedBefore") == !Get(perms, "allow", Null).Arr?
    requires Without(WithRules(allow, ALLOW_RULES), r) == allow
    requires OwnsAny(r) || WithRules(allow, ALLOW_RULES) == allow
    requires allow == [] ==> OwnsAny(r)
    ensures Revoked(Granted(data, perms, allow), state, r) == WithoutNulls(data)
  {
    hide WithRules, Created;
    GrantedLeavesAlike(data, perms, allow, allow, state);
    if Get(perms, "allow", Null).Arr? {
      KeptWhole(data, state);
      assert perms["allow" := Arr(allow)] == perms;
      assert data["permissions" := Obj(perms)] == data;
    } else if Get(data, "permissions", Null).Null? {
      assert perms - {"allow"} == map[];
    } else {
      assert PermissionsLeft(perms, allow, state) == perms - {"allow"};
    }
  }

  lemma OneInstallThenUninstall(w: World, path: string, now: string)
    requires FirstInstall(w, path) && InstallPlan(w, path, now).Writes?
    ensures Uninstall(Install(w, path, now)) == Write(w, path, Restored(At(w, path).body)).(state := NoFile)
  {
    hide Parse, Granted, Revoked, WithoutNulls, UninstallPlan, InstallPlan, Install, WithRules, Without, OwnsAny, Owned;
    var data, perms, allow, p, state := InstallWrites(w, path, now);
    var body := At(w, path).body;
    var r := Record(ALLOW_RULES, p.rulesExisted);
    FirstRecord(allow);
    if allow == [] { assert !Listed(allow, ALLOW_RULES[0]); }
    RevokedRestores(data, perms, allow, state, r);
    PlanOver(Install(w, path, now), path, Granted(data, perms, allow), state, r);
    EmptyHasNoNulls();
    assert Install(w, path, now).files[path := Plain(Restored(body))] == w.files[path := Plain(Restored(body))];
  }

  lemma EmptyHasNoNulls()
    ensures WithoutNulls(map[]) == map[]
  {
    var empty: map<string, Json> := map[];
    assert empty - {"permissions"} == empty;
  }

  function InstallAll(w: World, path: string, nows: seq<string>): World
    decreases |nows|
  {
    if nows == [] then w else InstallAll(Install(w, path, nows[0]), path, nows[1..])
  }

  /** What an install leaves behind is ready to be re-installed over and will absorb it. */
  predicate Settled(w: World, path: string) {
    Reinstallable(w, path) && WillAbsorb(w, path)
  }

  lemma InstallSettles(w: World, path: string, now: string)
    requires InstallPlan(w, path, now).Writes?
    ensures Settled(Install(w, path, now), path)
  {
    hide Parse, InstallPlan, Install;
    var data, perms, allow, p, state := InstallWrites(w, path, now);
    GrantedLeavesAlike(data, perms, allow, [], state);
    WithRulesGrows(allow, ALLOW_RULES);
  }

  lemma {:induction false} ReinstallsAbsorbed(w: World, path: string, nows: seq<string>)
    requires Settled(w, path)
    ensures Uninstall(InstallAll(w, path, nows)) == Uninstall(w)
    decreases |nows|
  {
    hide Install, Uninstall, InstallPlan, Settled;
    if nows != [] {
      SettledInstalls(w, path, nows[0]);
      InstallSettles(w, path, nows[0]);
      ReinstallsAbsorbed(Install(w, path, nows[0]), path, nows[1..]);
    }
  }

  lemma SettledInstalls(w: World, path: string, now: string)
    requires Settled(w, path)
    ensures InstallPlan(w, path, now).Writes? && Uninstall(Install(w, path, now)) == Uninstall(w)
  {
    hide Install, Uninstall, InstallPlan;
    ReinstallPossible(w, path, now);
    ReinstallAbsorbedExactly(w, path, now);
  }

  /**
   Any positive number of installs and one uninstall give the settings back - the same JSON value, or
   no file - except that a JSON null in a container place comes back as the key's absence; nothing
   else changes, and no install-state is left.
   */
  lemma InstallsThenUninstall(w: World, path: string, nows: seq<string>)
    requires nows != [] && FirstInstall(w, path) && InstallPlan(w, path, nows[0]).Writes?
    ensures Uninstall(InstallAll(w, path, nows)) == Write(w, path, Restored(At(w, path).body)).(state := NoFile)
  {
    hide Install, Uninstall, InstallPlan, Settled, FirstInstall, Restored, Write;
    InstallSettles(w, path, nows[0]);
    ReinstallsAbsorbed(Install(w, path, nows[0]), path, nows[1..]);
    OneInstallThenUninstall(w, path, nows[0]);
  }

  /** The round trip is exact for a settings object precisely when neither container place holds a JSON null. */
  lemma RoundTripExactly(data: map<string, Json>)
    ensures Restored(Doc(Obj(data))) == Doc(Obj(data)) <==> !NullContainer(data)
  {
    if Member(data, "permissions").None? {
      assert data - {"permissions"} == data;
    } else if Member(data, "permissions") == Some(Null) {
      assert "permissions" !in data - {"permissions"};
    } else if Get(data, "permissions", Null).Obj? {
      var perms := data["permissions"].members;
      if Member(perms, "allow").None? {
        assert perms - {"allow"} == perms;
        assert data["permissions" := Obj(perms)] == data;
      } else if perms["allow"] == Null {
        assert "allow" !in perms - {"allow"};
        assert data["permissions" := Obj(perms - {"allow"})]["permissions"] != data["permissions"];
      }
    }
  }
}
