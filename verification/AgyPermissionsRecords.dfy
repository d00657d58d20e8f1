/**
 What the members of an ownership record decide, of either schema version: which rules an uninstall takes
 away, with and without a re-install in between, and which files and records either command refuses.
 */
module AgyPermissionsRecords {
  import opened JsonValues
  import opened Options
  import opened AgyFiles
  import opened AgyPermissions
  import opened AgyPermissionsLists
  import opened AgyPermissionsSafety
  import opened AgyPermissionsInverse

  // ---------------------------------------------------------------- records by their members

  /** A record of the first version (in which a JSON true reads as 1): one rule, and whether it was there before us. */
  predicate RecordsOne(m: map<string, Json>, rule: string, existed: bool) {
    && (Has(m, "schemaVersion", Num(1.0)) || Has(m, "schemaVersion", Bool(true)))
    && Has(m, "rule", Str(rule)) && Has(m, "ruleExistedBefore", Bool(existed))
  }

  /** A record of the second version: a list of rules, and for each of them whether it was there before us. */
  predicate RecordsMany(m: map<string, Json>, rules: seq<Json>, existed: map<string, Json>) {
    && Has(m, "schemaVersion", Num(2.0)) && Has(m, "rules", Arr(rules)) && Has(m, "rulesExistedBefore", Obj(existed))
    && rules != [] && forall rule <- rules :: rule.Str? && rule.text in existed && existed[rule.text].Bool?
  }

  /** A record of either version. */
  ghost predicate Sound(m: map<string, Json>) {
    (exists rule, existed :: RecordsOne(m, rule, existed)) || exists rules, existed :: RecordsMany(m, rules, existed)
  }

  /** The record names the rule, and says whether it was there before us. */
  ghost predicate Answers(m: map<string, Json>, rule: string, existed: bool) {
    || RecordsOne(m, rule, existed)
    || exists rules, answers ::
         RecordsMany(m, rules, answers) && Str(rule) in rules && Has(answers, rule, Bool(existed))
  }

  /** The record is sound and names the rule nowhere. */
  ghost predicate Silent(m: map<string, Json>, rule: string) {
    || (exists other, existed :: RecordsOne(m, other, existed) && other != rule)
    || exists rules, answers :: RecordsMany(m, rules, answers) && Str(rule) !in rules
  }

  /** The settings hold the rule in `permissions.allow`. */
  predicate Holds(t: Target, rule: string) {
    && t.Plain? && t.body.Doc? && t.body.value.Obj?
    && var data := t.body.value.members;
    && "permissions" in data && data["permissions"].Obj?
    && var perms := data["permissions"].members;
    && "allow" in perms && perms["allow"].Arr? && Str(rule) in perms["allow"].items
  }

  lemma HoldsIsGrants(t: Target, rule: string)
    ensures Holds(t, rule) <==> Grants(t, rule)
  {
  }

  lemma OneParses(m: map<string, Json>, rule: string, existed: bool)
    ensures RecordsOne(m, rule, existed) ==> Parse(m) == Some(Record([rule], map[rule := existed]))
  {
  }

  lemma ManyParses(m: map<string, Json>, rules: seq<Json>, existed: map<string, Json>)
    requires RecordsMany(m, rules, existed)
    ensures Parse(m).Some?
    ensures var r := Parse(m).value;
      && (forall rule :: rule in r.existed <==> Str(rule) in rules)
      && forall rule <- r.existed :: existed[rule] == Bool(r.existed[rule])
  {
    var texts := Texts(rules).value;
    forall rule
      ensures rule in texts <==> Str(rule) in rules
    {
      if Str(rule) in rules {
        var i :| 0 <= i < |rules| && rules[i] == Str(rule);
        assert texts[i] == rule;
      }
    }
  }

  /** The parser takes exactly the records of the two versions. */
  lemma SoundParses(m: map<string, Json>)
    ensures Sound(m) <==> Parse(m).Some?
  {
    hide Parse, RecordsOne, RecordsMany;
    forall rule, existed
      ensures RecordsOne(m, rule, existed) ==> Parse(m).Some?
    {
      OneParses(m, rule, existed);
    }
    forall rules, existed | RecordsMany(m, rules, existed)
      ensures Parse(m).Some?
    {
      ManyParses(m, rules, existed);
    }
    if Parse(m).Some? { ParsedIsSound(m); }
  }

  lemma ParsedIsSound(m: map<string, Json>)
    requires Parse(m).Some?
    ensures Sound(m)
  {
    if EqualsNumber(Get(m, "schemaVersion", Null), 2.0) {
      var rules, existed := m["rules"].items, m["rulesExistedBefore"].members;
      var texts := Texts(rules).value;
      forall rule | rule in rules
        ensures rule.Str? && rule.text in existed && existed[rule.text].Bool?
      {
        var i :| 0 <= i < |rules| && rules[i] == rule;
        assert texts[i] in texts && rule == Str(texts[i]);
        assert Get(existed, texts[i], Null).Bool?;
      }
      assert RecordsMany(m, rules, existed);
    } else {
      assert RecordsOne(m, m["rule"].text, m["ruleExistedBefore"].flag);
    }
  }

  /** What a record answers about a rule is what the parser reads of it. */
  lemma AnswersParsed(m: map<string, Json>, rule: string, existed: bool)
    ensures Answers(m, rule, existed) ==>
      Parse(m).Some? && rule in Parse(m).value.existed && Parse(m).value.existed[rule] == existed
    ensures Silent(m, rule) ==> Parse(m).Some? && rule !in Parse(m).value.existed
  {
    hide Parse, RecordsOne, RecordsMany;
    OneParses(m, rule, existed);
    if rules, answers :| RecordsMany(m, rules, answers) && Str(rule) in rules && Has(answers, rule, Bool(existed)) {
      ManyParses(m, rules, answers);
    }
    if other, was :| RecordsOne(m, other, was) && other != rule { OneParses(m, other, was); }
    if rules, answers :| RecordsMany(m, rules, answers) && Str(rule) !in rules { ManyParses(m, rules, answers); }
  }

  lemma OwnedAnswers(m: map<string, Json>, rule: string)
    requires Sound(m)
    ensures Parse(m).Some? && (Owned(Parse(m).value, rule) <==> Answers(m, rule, false))
  {
    hide Parse, RecordsOne, RecordsMany;
    SoundParses(m);
    AnswersParsed(m, rule, false);
    if other, existed :| RecordsOne(m, other, existed) {
      OneParses(m, other, existed);
    } else {
      var rules, answers :| RecordsMany(m, rules, answers);
      ManyParses(m, rules, answers);
      RulesAnswered(m, rules, answers);
      assert Owned(Parse(m).value, rule) ==> Str(rule) in rules && Has(answers, rule, Bool(false));
    }
  }

  lemma RulesAnswered(m: map<string, Json>, rules: seq<Json>, answers: map<string, Json>)
    requires RecordsMany(m, rules, answers)
    ensures forall rule: string :: Str(rule) in rules ==> rule in answers
  {
  }

  // ---------------------------------------------------------------- uninstall

  /** The world's record is of the settings at `path`, which hold the rule. */
  predicate Recorded(w: World, path: string, rule: string) {
    && w.state.Doc? && w.state.value.Obj? && Has(w.state.value.members, "managedSettingsPath", Str(path))
    && Holds(At(w, path), rule)
  }

  /**
   An uninstall takes a rule away exactly if the record says that it was not there before us; a rule the
   record does not name stays.
   */
  lemma UninstallFollowsTheRecord(w: World, path: string, rule: string, existed: bool)
    requires Recorded(w, path, rule)
    ensures Answers(w.state.value.members, rule, existed) ==> (Holds(At(Uninstall(w), path), rule) <==> existed)
    ensures Silent(w.state.value.members, rule) ==> Holds(At(Uninstall(w), path), rule)
  {
    hide Parse, Uninstall, Answers, Silent, Grants;
    AnswersParsed(w.state.value.members, rule, existed);
    HoldsIsGrants(At(w, path), rule);
    HoldsIsGrants(At(Uninstall(w), path), rule);
    if Answers(w.state.value.members, rule, existed) || Silent(w.state.value.members, rule) {
      if Claims(w.state, path, rule) {
        UninstallGrantsNothing(w, path, rule);
      } else {
        UninstallKeepsTheirs(w, path, rule);
      }
    }
  }

  /** No record of these settings, or one that says the rule was there before us, or names it nowhere. */
  ghost predicate NotClaimed(w: World, path: string, rule: string) {
    || !Has(Members(w.state), "managedSettingsPath", Str(path))
    || Answers(Members(w.state), rule, true) || Silent(Members(w.state), rule)
  }

  /** So a rule that the settings hold and no record claims outlives every history in which the operator keeps it. */
  lemma UnclaimedRuleStays(w: World, actions: seq<Action>, path: string, rule: string)
    requires Holds(At(w, path), rule) && NotClaimed(w, path, rule)
    requires forall a <- actions :: a.Edit? && a.path == path ==> Holds(a.content, rule)
    ensures Holds(At(History(w, actions), path), rule)
  {
    hide Parse, Answers, Silent, History, Grants;
    AnswersParsed(Members(w.state), rule, true);
    HoldsIsGrants(At(w, path), rule);
    HoldsIsGrants(At(History(w, actions), path), rule);
    forall a | a in actions && a.Edit? && a.path == path
      ensures Grants(a.content, rule)
    {
      HoldsIsGrants(a.content, rule);
    }
    OperatorRuleSurvives(w, actions, path, rule);
  }

  /** One of the three rules an install grants. */
  predicate IsGranted(rule: string) {
    || rule == "mcp(entwurf-bridge/entwurf_v2)" || rule == "mcp(entwurf-bridge/entwurf_peers)"
    || rule == "mcp(entwurf-bridge/entwurf_self)"
  }

  lemma GrantedRules(rule: string)
    ensures IsGranted(rule) <==> rule in ALLOW_RULES
  {
    RulesAreThree();
  }

  /** A re-install grants our three rules and keeps all others; what it records of one is what is known of it. */
  lemma ReinstallRecords(w: World, path: string, now: string, rule: string)
    requires Reinstallable(w, path)
    ensures var r, listed, w' := Parse(Load(w.state).value).value, Grants(At(w, path), rule), Install(w, path, now);
      && Reinstallable(w', path)
      && (Grants(At(w', path), rule) <==> rule in ALLOW_RULES || listed)
      && (Claims(w'.state, path, rule) <==>
            rule in ALLOW_RULES && !(if rule in r.existed then r.existed[rule] else listed))
  {
    hide Parse, Granted, InstallPlan, Install;
    var data, perms, allow, p, state := ReinstallWrites(w, path, now);
    GrantedLeavesAlike(data, perms, allow, [], state);
    ListedExactly(allow, ALLOW_RULES, rule);
  }

  lemma {:induction false} ListedExactly(allow: seq<Json>, rules: seq<string>, rule: string)
    ensures Listed(WithRules(allow, rules), rule) <==> rule in rules || Listed(allow, rule)
    decreases |rules|
  {
    if rules != [] {
      ListedExactly(if Listed(allow, rules[0]) then allow else allow + [Str(rules[0])], rules[1..], rule);
    }
  }

  lemma RecordedIsReinstallable(w: World, path: string, rule: string)
    requires Recorded(w, path, rule) && Parse(w.state.value.members).Some?
    ensures Reinstallable(w, path)
  {
    hide Parse;
  }

  /**
   With a re-install in between, which turns a record of the first version into one of the second, the
   same is true of our rules; another rule, even one an older version granted, is never taken away again.
   */
  lemma ReinstallFollowsTheRecord(w: World, path: string, now: string, rule: string, existed: bool)
    requires Recorded(w, path, rule)
    ensures var left := At(Uninstall(Install(w, path, now)), path);
      && (Answers(w.state.value.members, rule, existed) ==> (Holds(left, rule) <==> existed || !IsGranted(rule)))
      && (Silent(w.state.value.members, rule) ==> Holds(left, rule))
  {
    hide Parse, Install, Uninstall, Answers, Silent, Grants, IsGranted;
    var m, w' := w.state.value.members, Install(w, path, now);
    AnswersParsed(m, rule, existed);
    GrantedRules(rule);
    HoldsIsGrants(At(w, path), rule);
    HoldsIsGrants(At(Uninstall(w'), path), rule);
    if Answers(m, rule, existed) || Silent(m, rule) {
      RecordedIsReinstallable(w, path, rule);
      ReinstallRecords(w, path, now, rule);
      if Claims(w'.state, path, rule) {
        UninstallGrantsNothing(w', path, rule);
      } else {
        UninstallKeepsTheirs(w', path, rule);
      }
    }
  }

  // ---------------------------------------------------------------- containers and the file

  /** A recorded entry by which uninstall takes a container for its own: missing, or false to Python. */
  predicate SaysCreated(m: map<string, Json>, key: string) {
    key in m ==> m[key] in {Null, Bool(false), Num(0.0), Str(""), Arr([]), Obj(map[])}
  }

  /** Which containers, and when the whole file, were made by the install. */
  lemma CreatedExactly(m: map<string, Json>)
    ensures forall key :: Created(m, key) <==> SaysCreated(m, key)
    ensures OurFile(m) <==> Has(m, "detectMode", Str("created-new")) && Has(m, "settingsExistedBefore", Bool(false))
  {
  }

  // ---------------------------------------------------------------- what is refused

  /** The value is absent or null, or of the right kind. */
  predicate SoundContainers(data: map<string, Json>) {
    "permissions" !in data || data["permissions"].Null?
    || (data["permissions"].Obj?
        && var perms := data["permissions"].members;
           "allow" !in perms || perms["allow"].Null? || perms["allow"].Arr?)
  }

  /** The list of allowed rules; empty where there is none. */
  function AllowOf(data: map<string, Json>): seq<Json> {
    if "permissions" in data && data["permissions"].Obj? && "allow" in data["permissions"].members
       && data["permissions"].members["allow"].Arr?
    then data["permissions"].members["allow"].items else []
  }

  /** The other settings next to `allow`. */
  function PermissionsOf(data: map<string, Json>): map<string, Json> {
    if "permissions" in data && data["permissions"].Obj? then data["permissions"].members else map[]
  }

  /** Settings and record are such that an install goes through. */
  ghost predicate Accepts(w: World, path: string) {
    && At(w, path).Plain? && SoundText(At(w, path).body) && SoundContainers(Members(At(w, path).body))
    && SoundText(w.state)
    && (Has(Members(w.state), "managedSettingsPath", Str(path)) ==> Sound(Members(w.state)))
  }

  function Added(allow: seq<Json>, rule: string): seq<Json> { if Str(rule) in allow then [] else [Str(rule)] }

  /** Those of our three rules that the list lacks go behind it, in their order. */
  function AllowAfter(allow: seq<Json>): seq<Json> {
    allow + Added(allow, "mcp(entwurf-bridge/entwurf_v2)") + Added(allow, "mcp(entwurf-bridge/entwurf_peers)")
    + Added(allow, "mcp(entwurf-bridge/entwurf_self)")
  }

  lemma GrantedExactly(allow: seq<Json>)
    ensures WithRules(allow, ALLOW_RULES) == AllowAfter(allow)
  {
    RulesAreThree();
    var v2 := allow + Added(allow, RULE_V2);
    var peers := v2 + Added(v2, RULE_PEERS);
    assert ALLOW_RULES[1..] == [RULE_PEERS, RULE_SELF] && [RULE_PEERS, RULE_SELF][1..] == [RULE_SELF];
    WithOne(allow, ALLOW_RULES);
    WithOne(v2, [RULE_PEERS, RULE_SELF]);
    WithOne(peers, [RULE_SELF]);
    assert Added(v2, RULE_PEERS) == Added(allow, RULE_PEERS) && Added(peers, RULE_SELF) == Added(allow, RULE_SELF);
  }

  lemma WithOne(allow: seq<Json>, rules: seq<string>)
    requires rules != []
    ensures WithRules(allow, rules) == WithRules(allow + Added(allow, rules[0]), rules[1..])
    ensures forall grown :: WithRules(grown, []) == grown
  {
    assert allow + [] == allow;
  }

  /** What is there before an install: its kind, the three containers. */
  function Seen(body: Body): map<string, Json> {
    var data := Members(body);
    var perms := PermissionsOf(data);
    map["detectMode" := Str(if body.NoFile? then "created-new" else "adopt-regular-file"),
        "settingsExistedBefore" := Bool(!body.NoFile?),
        "permissionsExistedBefore" := Bool("permissions" in data && data["permissions"].Obj?),
        "allowExistedBefore" := Bool("allow" in perms && perms["allow"].Arr?)]
  }

  /** The member of the record before, or else what is there. */
  function Kept(prior: map<string, Json>, body: Body, key: string): Json
    requires key in Seen(body)
  {
    if key in prior then prior[key] else Seen(body)[key]
  }

  /** The record's own members; of file and containers, what the record before it says, or else what is there. */
  predicate WritesHead(record: map<string, Json>, prior: map<string, Json>, body: Body, path: string, now: string) {
    && Has(record, "schemaVersion", Num(2.0)) && Has(record, "managedSettingsPath", Str(path))
    && Has(record, "installedAt", Str(now))
    && Has(record, "rules", Arr([Str("mcp(entwurf-bridge/entwurf_v2)"), Str("mcp(entwurf-bridge/entwurf_peers)"),
                                 Str("mcp(entwurf-bridge/entwurf_self)")]))
    && forall key <- Seen(body) :: Has(record, key, Kept(prior, body, key))
  }

  /** Of each of our rules, what the record before it answers, or else whether it was listed. */
  ghost predicate WritesAnswer(record: map<string, Json>, prior: map<string, Json>, allow: seq<Json>, rule: string) {
    && "rulesExistedBefore" in record && record["rulesExistedBefore"].Obj?
    && var existed := record["rulesExistedBefore"].members;
    && (rule in existed <==> IsGranted(rule))
    && (rule in existed ==>
          && existed[rule].Bool?
          && (Answers(prior, rule, true) ==> existed[rule].flag)
          && (Answers(prior, rule, false) ==> !existed[rule].flag)
          && (prior == map[] || Silent(prior, rule) ==> existed[rule].flag == (Str(rule) in allow)))
  }

  /** The record of an earlier install of these very settings, or nothing. */
  function PriorOf(w: World, path: string): map<string, Json> {
    if Has(Members(w.state), "managedSettingsPath", Str(path)) then Members(w.state) else map[]
  }

  /** What an install that goes through writes down. */
  lemma InstallRecords(w: World, path: string, now: string, rule: string)
    requires Accepts(w, path)
    ensures var body, state := At(w, path).body, Install(w, path, now).state;
      && state.Doc?
      && WritesHead(Members(state), PriorOf(w, path), body, path, now)
      && WritesAnswer(Members(state), PriorOf(w, path), AllowOf(Members(body)), rule)
  {
    hide Parse, Sound, StateDoc, WithRules, Carried, Observed, Granted, WritesHead, WritesAnswer;
    var body, prior := At(w, path).body, PriorOf(w, path);
    var data := Members(body);
    SoundParses(prior);
    var seen := Observed(!body.NoFile?, data, PermissionsOf(data), AllowOf(data));
    assert PriorState(w.state, PATH_KEY, path) == Some(prior);
    assert LoadOrEmpty(body) == Some(data);
    assert Permissions(data) == Some(PermissionsOf(data));
    assert Allow(PermissionsOf(data)) == Some(AllowOf(data));
    var p := Decided(w, path, seen);
    DecidedDescribesOurs(w, path, seen);
    SeenRules(!body.NoFile?, data, PermissionsOf(data), AllowOf(data));
    HeadWritten(w, path, seen, p, now);
    AnswerWritten(prior, seen, p, path, now, AllowOf(data), rule);
  }

  lemma SeenRules(existed: bool, data: map<string, Json>, perms: map<string, Json>, allow: seq<Json>)
    ensures var seen := Observed(existed, data, perms, allow).rulesExisted;
      && (forall rule :: rule in seen <==> rule in ALLOW_RULES)
      && forall rule <- seen :: seen[rule] == (Str(rule) in allow)
  {
  }

  lemma SeenKeys(body: Body)
    ensures Seen(body).Keys
         == {"detectMode", "settingsExistedBefore", "permissionsExistedBefore", "allowExistedBefore"}
  {
  }

  lemma KeptOn(w: World, path: string, seen: Provenance)
    requires Accepts(w, path) && (PriorOf(w, path) != map[] ==> Parse(PriorOf(w, path)).Some?)
    requires var body := At(w, path).body;
      seen == Observed(!body.NoFile?, Members(body), PermissionsOf(Members(body)), AllowOf(Members(body)))
    ensures var p, prior, body := Decided(w, path, seen), PriorOf(w, path), At(w, path).body;
      && p.detectMode == Kept(prior, body, "detectMode")
      && p.settingsExisted == Kept(prior, body, "settingsExistedBefore")
      && p.permissionsExisted == Kept(prior, body, "permissionsExistedBefore")
      && p.allowExisted == Kept(prior, body, "allowExistedBefore")
  {
    hide Parse, Sound;
    KeysDiffer();
  }

  lemma HeadWritten(w: World, path: string, seen: Provenance, p: Provenance, now: string)
    requires Accepts(w, path) && p == Decided(w, path, seen) && forall rule <- ALLOW_RULES :: rule in p.rulesExisted
    requires PriorOf(w, path) != map[] ==> Parse(PriorOf(w, path)).Some?
    requires var body := At(w, path).body;
      seen == Observed(!body.NoFile?, Members(body), PermissionsOf(Members(body)), AllowOf(Members(body)))
    ensures WritesHead(StateDoc(path, p, now), PriorOf(w, path), At(w, path).body, path, now)
  {
    hide StateDoc, Parse, Sound, Observed, Decided, PriorOf, Seen, SoundText, SoundContainers;
    StateDocMembers(path, p, now);
    StateDocDated(path, p, now);
    SeenKeys(At(w, path).body);
    KeptOn(w, path, seen);
  }

  lemma StateDocDated(path: string, p: Provenance, now: string)
    requires forall rule <- ALLOW_RULES :: rule in p.rulesExisted
    ensures Has(StateDoc(path, p, now), "installedAt", Str(now))
  {
    KeysDiffer();
  }

  lemma AnswerWritten(prior: map<string, Json>, seen: Provenance, p: Provenance, path: string, now: string,
                      allow: seq<Json>, rule: string)
    requires prior != map[] ==> Parse(prior).Some?
    requires p == if prior != map[] && Parse(prior).Some? then Carried(prior, Parse(prior).value, seen) else seen
    requires forall r :: r in seen.rulesExisted <==> r in ALLOW_RULES
    requires forall r <- seen.rulesExisted :: seen.rulesExisted[r] == (Str(r) in allow)
    requires forall r <- ALLOW_RULES :: r in p.rulesExisted
    ensures WritesAnswer(StateDoc(path, p, now), prior, allow, rule)
  {
    hide StateDoc, Parse, Answers, Silent, IsGranted;
    StateDocMembers(path, p, now);
    GrantedRules(rule);
    AnswersParsed(prior, rule, true);
    AnswersParsed(prior, rule, false);
    NothingAnswered(rule);
  }

  lemma NothingAnswered(rule: string)
    ensures forall existed :: !Answers(map[], rule, existed)
  {
  }

  /**
   An install goes through exactly on sound settings with a sound record, or none, of them; otherwise it
   changes nothing and exits with 3 for a link and 4 for the rest. It adds the rules that are missing and
   changes nothing else in the settings and no other file.
   */
  lemma InstallExactly(w: World, path: string, now: string)
    ensures var code, w' := ExitCode(InstallPlan(w, path, now)), Install(w, path, now);
      if Accepts(w, path) then
        var data := Members(At(w, path).body);
        && code == 0
        && w'.files == w.files[path := Plain(Doc(Obj(data["permissions" :=
             Obj(PermissionsOf(data)["allow" := Arr(AllowAfter(AllowOf(data)))])])))]
      else w' == w && code == if At(w, path).Link? then 3 else 4
  {
    hide Parse, Sound, StateDoc, WithRules, Carried, Observed, AllowAfter;
    if SoundText(w.state) { SoundParses(Members(w.state)); }
    if At(w, path).Plain? && SoundText(At(w, path).body) { GrantedExactly(AllowOf(Members(At(w, path).body))); }
  }

  /** A sound record that names its settings. */
  ghost predicate GoodRecord(w: World) {
    && SoundText(w.state) && Sound(Members(w.state))
    && "managedSettingsPath" in Members(w.state) && Members(w.state)["managedSettingsPath"].Str?
  }

  /**
   An uninstall exits with 2 without a record, with 4 for a record or settings that are no good, with 3 for
   settings that have become a link, and changes nothing then; otherwise the record is gone.
   */
  lemma UninstallExactly(w: World)
    ensures var code, w' := ExitCode(UninstallPlan(w)), Uninstall(w);
      if w.state.NoFile? then code == 2 && w' == w
      else if !GoodRecord(w) then code == 4 && w' == w
      else
        var path := Members(w.state)["managedSettingsPath"].text;
        if At(w, path).Link? then code == 3 && w' == w
        else if !SoundText(At(w, path).body) then code == 4 && w' == w
        else code == 0 && w'.state == NoFile && w'.files.Keys == w.files.Keys + {path}
             && forall other <- w.files :: other != path ==> w'.files[other] == w.files[other]
  {
    hide Parse, Sound, Revoked;
    SoundParses(Members(w.state));
  }

  /** The file is the install's own. */
  predicate MadeByUs(m: map<string, Json>) {
    Has(m, "detectMode", Str("created-new")) && Has(m, "settingsExistedBefore", Bool(false))
  }

  /** Only the rules the record says were not there before us are out of the list, and nothing else is changed. */
  ghost predicate OnlyOursGone(left: map<string, Json>, data: map<string, Json>, m: map<string, Json>) {
    && (forall item :: item in AllowOf(left) <==> item in AllowOf(data) && !(item.Str? && Answers(m, item.text, false)))
    && (forall key :: key != "permissions" ==>
          (key in left <==> key in data) && (key in data ==> left[key] == data[key]))
    && forall key :: key != "allow" ==>
         && (key in PermissionsOf(left) <==> key in PermissionsOf(data))
         && (key in PermissionsOf(data) ==> PermissionsOf(left)[key] == PermissionsOf(data)[key])
  }

  /** What an uninstall leaves of the settings; nothing of a file of ours that is empty by then. */
  lemma UninstallLeaves(w: World, path: string, data: map<string, Json>)
    requires w.state.Doc? && w.state.value.Obj? && Sound(w.state.value.members)
    requires Has(w.state.value.members, "managedSettingsPath", Str(path)) && At(w, path) == Plain(Doc(Obj(data)))
    ensures var m, left := w.state.value.members, At(Uninstall(w), path);
      && left.Plain? && (left.body.NoFile? || (left.body.Doc? && left.body.value.Obj?))
      && OnlyOursGone(Members(left.body), data, m)
      && (left.body.NoFile? <==> MadeByUs(m) && Members(left.body) == map[])
  {
    hide Parse, Sound, Answers, Revoked, OurFile, Owned;
    var m := w.state.value.members;
    SoundParses(m);
    var r := Parse(m).value;
    PlanOver(w, path, data, m, r);
    CreatedExactly(m);
    RevokedExactly(data, m, r);
    WithoutMembers(AllowOf(data), r);
    forall rule
      ensures Owned(r, rule) <==> Answers(m, rule, false)
    {
      OwnedAnswers(m, rule);
    }
    var left := Revoked(data, m, r);
    SameMembers(left, data);
  }

  /** Members that are equal as options are equal as members. */
  lemma SameMembers(left: map<string, Json>, data: map<string, Json>)
    requires forall key :: key != "permissions" ==> Member(left, key) == Member(data, key)
    requires forall key :: key != "allow" ==> PermissionMember(left, key) == PermissionMember(data, key)
    ensures forall key :: key != "permissions" ==>
      (key in left <==> key in data) && (key in data ==> left[key] == data[key])
    ensures forall key :: key != "allow" ==>
      && (key in PermissionsOf(left) <==> key in PermissionsOf(data))
      && (key in PermissionsOf(data) ==> PermissionsOf(left)[key] == PermissionsOf(data)[key])
    ensures Allowed(left) == AllowOf(left) && Allowed(data) == AllowOf(data)
  {
    forall key | key != "permissions"
      ensures (key in left <==> key in data) && (key in data ==> left[key] == data[key])
    {
      assert Member(left, key) == Member(data, key);
    }
    forall key | key != "allow"
      ensures key in PermissionsOf(left) <==> key in PermissionsOf(data)
      ensures key in PermissionsOf(data) ==> PermissionsOf(left)[key] == PermissionsOf(data)[key]
    {
      assert PermissionMember(left, key) == PermissionMember(data, key);
      assert PermissionMember(left, key) == Member(PermissionsOf(left), key);
      assert PermissionMember(data, key) == Member(PermissionsOf(data), key);
    }
  }
}
