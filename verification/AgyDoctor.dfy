/** `permission-doctor`, and the permission engine it reports on: Deny over Ask over Allow. */
module AgyDoctor {
  import opened JsonValues
  import opened Options
  import opened AgyFiles
  import opened AgyPermissions
  import opened AgyPermissionsLists

  const BROAD_RULES: seq<string> := ["mcp(entwurf-bridge)", "mcp(*)"]
  const SHADOWING_LISTS: seq<string> := ["deny", "ask"]

  datatype Report =
    | NoSettings
    | InvalidJson
    | NotConfigured
    | Configured
    | PartiallyConfigured(missing: seq<string>)
    | CoveredByAllow(rule: string)
    | Shadowed(list: string, broad: bool, rule: string)

  // ---------------------------------------------------------------- the doctor

  function ListOf(perms: map<string, Json>, name: string): seq<Json> {
    if Get(perms, name, Null).Arr? then perms[name].items else []
  }

  /** The first element that is one of the rules. */
  function FirstOf(items: seq<Json>, rules: seq<string>): Option<string> {
    if items == [] then None
    else if items[0].Str? && items[0].text in rules then Some(items[0].text)
    else FirstOf(items[1..], rules)
  }

  /** The first of the shadowing lists, in precedence order, that holds one of the rules. */
  function ShadowIn(perms: map<string, Json>, lists: seq<string>, rules: seq<string>, broad: bool): Option<Report> {
    if lists == [] then None
    else match FirstOf(ListOf(perms, lists[0]), rules)
      case Some(rule) => Some(Shadowed(lists[0], broad, rule))
      case None => ShadowIn(perms, lists[1..], rules, broad)
  }

  function FirstListed(allow: seq<Json>, rules: seq<string>): Option<string>
    decreases |rules|
  {
    if rules == [] then None else if Listed(allow, rules[0]) then Some(rules[0]) else FirstListed(allow, rules[1..])
  }

  function Missing(allow: seq<Json>, rules: seq<string>): seq<string>
    decreases |rules|
  {
    if rules == [] then []
    else (if Listed(allow, rules[0]) then [] else [rules[0]]) + Missing(allow, rules[1..])
  }

  function AllowReport(allow: seq<Json>): Report {
    if forall rule <- ALLOW_RULES :: Listed(allow, rule) then Configured
    else match FirstListed(allow, BROAD_RULES)
      case Some(rule) => CoveredByAllow(rule)
      case None =>
        var missing := Missing(allow, ALLOW_RULES);
        if |missing| != |ALLOW_RULES| then PartiallyConfigured(missing) else NotConfigured
  }

  function PermissionReport(perms: map<string, Json>): Report {
    match ShadowIn(perms, SHADOWING_LISTS, BROAD_RULES, true)
    case Some(report) => report
    case None =>
      match ShadowIn(perms, SHADOWING_LISTS, ALLOW_RULES, false)
      case Some(report) => report
      case None => if Get(perms, "allow", Null).Arr? then AllowReport(perms["allow"].items) else NotConfigured
  }

  /** The permission object the doctor looks at; anything else reads as empty. */
  function PermissionsIn(value: Json): map<string, Json> {
    if value.Obj? && Get(value.members, "permissions", Null).Obj? then value.members["permissions"].members else map[]
  }

  /** An empty file reads as an empty object; white space alone is no JSON. */
  function Doctor(b: Body): Report {
    match b
    case NoFile => NoSettings
    case EmptyText => PermissionReport(map[])
    case BlankText => InvalidJson
    case Malformed => InvalidJson
    case Doc(value) => PermissionReport(PermissionsIn(value))
  }

  // ---------------------------------------------------------------- the engine

  datatype Decision = Denied | Asked | Allowed

  /** A list matches a tool by its exact rule or by a rule covering every tool of the server. */
  ghost predicate Matches(items: seq<Json>, tool: string) {
    Listed(items, tool) || exists rule <- BROAD_RULES :: Listed(items, rule)
  }

  /** Deny > Ask > Allow; what no list matches is asked. */
  ghost function Evaluate(perms: map<string, Json>, tool: string): Decision {
    if Matches(ListOf(perms, "deny"), tool) then Denied
    else if Matches(ListOf(perms, "ask"), tool) then Asked
    else if Matches(ListOf(perms, "allow"), tool) then Allowed
    else Asked
  }

  ghost predicate Holds(items: seq<Json>, rules: seq<string>) { exists rule <- rules :: Listed(items, rule) }

  /** The tools that are not allowed, in the order the installer grants them. */
  ghost function NotAllowed(perms: map<string, Json>, tools: seq<string>): seq<string>
    decreases |tools|
  {
    if tools == [] then []
    else (if Evaluate(perms, tools[0]) == Allowed then [] else [tools[0]]) + NotAllowed(perms, tools[1..])
  }

  // ---------------------------------------------------------------- the doctor refines the engine

  lemma {:induction false} FirstOfExactly(items: seq<Json>, rules: seq<string>)
    ensures var first := FirstOf(items, rules);
      && (first.Some? <==> Holds(items, rules))
      && (first.Some? ==> first.value in rules && Listed(items, first.value))
  {
    if items != [] {
      FirstOfExactly(items[1..], rules);
      assert items == [items[0]] + items[1..];
      if FirstOf(items, rules).Some? {
        assert Listed(items, FirstOf(items, rules).value);
      }
      assert forall rule <- rules :: Listed(items, rule) <==> items[0] == Str(rule) || Listed(items[1..], rule);
    }
  }

  lemma ShadowExactly(perms: map<string, Json>, rules: seq<string>, broad: bool)
    ensures var deny, ask := ListOf(perms, "deny"), ListOf(perms, "ask");
      var shadow := ShadowIn(perms, SHADOWING_LISTS, rules, broad);
      && (shadow.Some? <==> Holds(deny, rules) || Holds(ask, rules))
      && (shadow.Some? ==>
            && shadow.value.Shadowed? && shadow.value.broad == broad && shadow.value.rule in rules
            && Listed(if Holds(deny, rules) then deny else ask, shadow.value.rule)
            && shadow.value.list == if Holds(deny, rules) then "deny" else "ask")
  {
    FirstOfExactly(ListOf(perms, "deny"), rules);
    FirstOfExactly(ListOf(perms, "ask"), rules);
    assert SHADOWING_LISTS[1..] == ["ask"];
    assert ShadowIn(perms, ["ask"], rules, broad)
        == match FirstOf(ListOf(perms, "ask"), rules)
           case Some(rule) => Some(Shadowed("ask", broad, rule))
           case None => None;
  }

  lemma {:induction false} FirstListedExactly(allow: seq<Json>, rules: seq<string>)
    ensures var first := FirstListed(allow, rules);
      && (first.Some? <==> Holds(allow, rules))
      && (first.Some? ==> first.value in rules && Listed(allow, first.value))
    decreases |rules|
  {
    if rules != [] {
      FirstListedExactly(allow, rules[1..]);
      assert rules[0] in rules;
    }
  }

  /** Without a rule above and without a broad grant, a tool is allowed exactly when its own rule is listed. */
  lemma {:induction false} MissingIsNotAllowed(perms: map<string, Json>, tools: seq<string>)
    requires forall tool <- tools :: Evaluate(perms, tool) == Allowed <==> Listed(ListOf(perms, "allow"), tool)
    ensures NotAllowed(perms, tools) == Missing(ListOf(perms, "allow"), tools)
    ensures |Missing(ListOf(perms, "allow"), tools)| <= |tools|
    ensures |Missing(ListOf(perms, "allow"), tools)| == |tools| <==>
      forall tool <- tools :: !Listed(ListOf(perms, "allow"), tool)
    decreases |tools|
  {
    if tools != [] {
      assert tools == [tools[0]] + tools[1..];
      MissingIsNotAllowed(perms, tools[1..]);
    }
  }

  lemma ShadowDecides(perms: map<string, Json>, tool: string)
    requires tool in ALLOW_RULES
    ensures Holds(ListOf(perms, "deny"), BROAD_RULES) ==> Evaluate(perms, tool) == Denied
    ensures Holds(ListOf(perms, "ask"), BROAD_RULES) ==> Evaluate(perms, tool) != Allowed
    ensures Listed(ListOf(perms, "deny"), tool) ==> Evaluate(perms, tool) == Denied
    ensures Listed(ListOf(perms, "ask"), tool) ==> Evaluate(perms, tool) != Allowed
  {
  }

  lemma UnshadowedDecides(perms: map<string, Json>, tool: string)
    requires tool in ALLOW_RULES
    requires forall list <- SHADOWING_LISTS ::
      !Holds(ListOf(perms, list), BROAD_RULES) && !Holds(ListOf(perms, list), ALLOW_RULES)
    ensures Evaluate(perms, tool) == if Matches(ListOf(perms, "allow"), tool) then Allowed else Asked
  {
    assert "deny" in SHADOWING_LISTS && "ask" in SHADOWING_LISTS by {
      assert SHADOWING_LISTS[0] == "deny" && SHADOWING_LISTS[1] == "ask";
    }
  }

  /** An exact shadow names a tool of ours that its list denies or makes the engine ask for. */
  ghost predicate ShadowNames(perms: map<string, Json>, report: Report)
    requires report.Shadowed?
  {
    && report.rule in ALLOW_RULES
    && Evaluate(perms, report.rule) == if report.list == "deny" then Denied else Asked
  }

  /** The named gap is some but not all of our tools: exactly those that are not allowed, and each is asked. */
  ghost predicate PartialNames(perms: map<string, Json>, missing: seq<string>) {
    && missing == NotAllowed(perms, ALLOW_RULES) && 0 < |missing| < |ALLOW_RULES|
    && forall tool <- missing :: tool in ALLOW_RULES && Evaluate(perms, tool) == Asked
  }

  /** Green is exactly that all three tools are allowed. */
  lemma GreenExactly(perms: map<string, Json>)
    ensures var report := PermissionReport(perms);
      report.Configured? || report.CoveredByAllow? <==> forall tool <- ALLOW_RULES :: Evaluate(perms, tool) == Allowed
  {
    hide Evaluate, PermissionReport;
    ReportMeans(perms);
    var report := PermissionReport(perms);
    assert ALLOW_RULES[0] in ALLOW_RULES;
    if report.PartiallyConfigured? {
      assert report.missing[0] in report.missing;
    }
  }

  /**
   What each report of the doctor says about the engine's decisions. A broad shadow is reported
   exactly when a higher list holds a broad rule, and then nothing is allowed; an exact shadow names a
   tool that is not allowed, and its list the decision; a partial report lists exactly the tools that
   fall to Ask; and a red report without a shadow is one where every tool falls to Ask.
   */
  lemma ReportMeans(perms: map<string, Json>)
    ensures var report := PermissionReport(perms);
      var deny, ask := ListOf(perms, "deny"), ListOf(perms, "ask");
      && ((report.Shadowed? && report.broad) <==> Holds(deny, BROAD_RULES) || Holds(ask, BROAD_RULES))
      && (report.Shadowed? && report.broad ==> forall tool <- ALLOW_RULES :: Evaluate(perms, tool) != Allowed)
      && (report.Shadowed? && !report.broad ==> ShadowNames(perms, report))
      && (report.Configured? || report.CoveredByAllow? ==>
            forall tool <- ALLOW_RULES :: Evaluate(perms, tool) == Allowed)
      && (report.PartiallyConfigured? ==> PartialNames(perms, report.missing))
      && (report.NotConfigured? ==> forall tool <- ALLOW_RULES :: Evaluate(perms, tool) == Asked)
      && !report.NoSettings? && !report.InvalidJson?
  {
    ShadowExactly(perms, BROAD_RULES, true);
    ShadowExactly(perms, ALLOW_RULES, false);
    var deny, ask := ListOf(perms, "deny"), ListOf(perms, "ask");
    if Holds(deny, BROAD_RULES) || Holds(ask, BROAD_RULES) {
      forall tool | tool in ALLOW_RULES ensures Evaluate(perms, tool) != Allowed { ShadowDecides(perms, tool); }
    } else if Holds(deny, ALLOW_RULES) || Holds(ask, ALLOW_RULES) {
      var rule := PermissionReport(perms).rule;
      ShadowDecides(perms, rule);
    } else {
      UnshadowedMeans(perms);
    }
  }

  lemma UnshadowedMeans(perms: map<string, Json>)
    requires forall list <- SHADOWING_LISTS ::
      !Holds(ListOf(perms, list), BROAD_RULES) && !Holds(ListOf(perms, list), ALLOW_RULES)
    ensures var report := if Get(perms, "allow", Null).Arr? then AllowReport(perms["allow"].items) else NotConfigured;
      && (report.Configured? || report.CoveredByAllow? ==>
            forall tool <- ALLOW_RULES :: Evaluate(perms, tool) == Allowed)
      && (report.PartiallyConfigured? ==> PartialNames(perms, report.missing))
      && (report.NotConfigured? ==> forall tool <- ALLOW_RULES :: Evaluate(perms, tool) == Asked)
      && !report.Shadowed? && !report.NoSettings? && !report.InvalidJson?
  {
    var allow := ListOf(perms, "allow");
    forall tool | tool in ALLOW_RULES
      ensures Evaluate(perms, tool) == if Matches(allow, tool) then Allowed else Asked
    {
      UnshadowedDecides(perms, tool);
    }
    FirstListedExactly(allow, BROAD_RULES);
    if !Holds(allow, BROAD_RULES) {
      assert forall tool <- ALLOW_RULES :: Matches(allow, tool) <==> Listed(allow, tool);
      MissingIsNotAllowed(perms, ALLOW_RULES);
      MissingMembers(allow, ALLOW_RULES);
    }
  }

  lemma {:induction false} MissingMembers(allow: seq<Json>, rules: seq<string>)
    ensures forall rule <- Missing(allow, rules) :: rule in rules && !Listed(allow, rule)
    ensures Missing(allow, rules) == [] ==> forall rule <- rules :: Listed(allow, rule)
    decreases |rules|
  {
    if rules != [] {
      MissingMembers(allow, rules[1..]);
      assert rules == [rules[0]] + rules[1..];
    }
  }

  /** On every settings file: absent and unreadable files are named as such, and all others are judged as above. */
  lemma DoctorMeans(b: Body)
    ensures Doctor(b).NoSettings? <==> b.NoFile?
    ensures Doctor(b).InvalidJson? <==> b.BlankText? || b.Malformed?
    ensures b.Doc? ==> ((Doctor(b).Configured? || Doctor(b).CoveredByAllow?)
        <==> forall tool <- ALLOW_RULES :: Evaluate(PermissionsIn(b.value), tool) == Allowed)
  {
    ReportMeans(map[]);
    if b.Doc? {
      ReportMeans(PermissionsIn(b.value));
      GreenExactly(PermissionsIn(b.value));
    }
  }

  // ---------------------------------------------------------------- which report, exactly

  const OURS: set<string> :=
    {"mcp(entwurf-bridge/entwurf_v2)", "mcp(entwurf-bridge/entwurf_peers)", "mcp(entwurf-bridge/entwurf_self)"}

  const BROAD: set<string> := {"mcp(entwurf-bridge)", "mcp(*)"}

  /** The named list; empty where there is none. */
  function ItemsOf(perms: map<string, Json>, name: string): seq<Json> {
    if name in perms && perms[name].Arr? then perms[name].items else []
  }

  predicate Names(item: Json, rules: set<string>) { item.Str? && item.text in rules }

  predicate NamesAny(items: seq<Json>, rules: set<string>) { exists item <- items :: Names(item, rules) }

  /** The first item of the list that is one of the rules is this one. */
  ghost predicate FirstIs(items: seq<Json>, rules: set<string>, rule: string) {
    exists k :: 0 <= k < |items| && items[k] == Str(rule) && rule in rules
                && forall i :: 0 <= i < k ==> !Names(items[i], rules)
  }

  predicate Shadows(perms: map<string, Json>, rules: set<string>) {
    NamesAny(ItemsOf(perms, "deny"), rules) || NamesAny(ItemsOf(perms, "ask"), rules)
  }

  function Gap(allow: seq<Json>, rule: string): seq<string> { if Str(rule) in allow then [] else [rule] }

  /** Our rules that the list lacks. */
  function Gaps(allow: seq<Json>): seq<string> {
    Gap(allow, "mcp(entwurf-bridge/entwurf_v2)") + Gap(allow, "mcp(entwurf-bridge/entwurf_peers)")
    + Gap(allow, "mcp(entwurf-bridge/entwurf_self)")
  }

  lemma {:induction false} FirstOfIsFirst(items: seq<Json>, rules: seq<string>, named: set<string>)
    requires forall rule :: rule in rules <==> rule in named
    ensures var first := FirstOf(items, rules);
      if first.Some? then FirstIs(items, named, first.value) else !NamesAny(items, named)
  {
    if items != [] && FirstOf(items, rules) == FirstOf(items[1..], rules) && !Names(items[0], named) {
      FirstOfIsFirst(items[1..], rules, named);
      var first := FirstOf(items, rules);
      if first.Some? {
        var k :| 0 <= k < |items[1..]| && items[1..][k] == Str(first.value)
                 && forall i :: 0 <= i < k ==> !Names(items[1..][i], named);
        assert items[k + 1] == Str(first.value);
        assert forall i :: 1 <= i < k + 1 ==> items[i] == items[1..][i - 1];
      } else {
        assert items == [items[0]] + items[1..];
      }
    }
  }

  lemma MissingIsGaps(allow: seq<Json>)
    ensures Missing(allow, ALLOW_RULES) == Gaps(allow)
  {
    RulesAreThree();
    assert ALLOW_RULES[1..] == [RULE_PEERS, RULE_SELF] && [RULE_PEERS, RULE_SELF][1..] == [RULE_SELF];
    assert Missing(allow, [RULE_SELF]) == Gap(allow, RULE_SELF) + Missing(allow, []);
    assert Missing(allow, [RULE_PEERS, RULE_SELF]) == Gap(allow, RULE_PEERS) + Missing(allow, [RULE_SELF]);
    assert Missing(allow, ALLOW_RULES) == Gap(allow, RULE_V2) + Missing(allow, [RULE_PEERS, RULE_SELF]);
  }

  lemma RulesByName()
    ensures forall rule :: rule in BROAD_RULES <==> rule in BROAD
    ensures forall rule :: rule in ALLOW_RULES <==> rule in OURS
  {
    RulesAreThree();
    assert BROAD_RULES[0] == "mcp(entwurf-bridge)" && BROAD_RULES[1] == "mcp(*)";
  }

  /** The shadow of a rule set: the first of its rules in `deny`, or else in `ask`. */
  lemma ShadowIsFirst(perms: map<string, Json>, rules: seq<string>, named: set<string>, broad: bool)
    requires forall rule :: rule in rules <==> rule in named
    ensures match ShadowIn(perms, SHADOWING_LISTS, rules, broad)
      case Some(Shadowed(list, b, rule)) =>
        && b == broad && Shadows(perms, named) && FirstIs(ItemsOf(perms, list), named, rule)
        && (list == "deny" || (list == "ask" && !NamesAny(ItemsOf(perms, "deny"), named)))
      case Some(_) => false
      case None => !Shadows(perms, named)
  {
    var deny, ask := ListOf(perms, "deny"), ListOf(perms, "ask");
    FirstOfIsFirst(deny, rules, named);
    FirstOfIsFirst(ask, rules, named);
    assert SHADOWING_LISTS[1..] == ["ask"];
    assert ShadowIn(perms, ["ask"], rules, broad)
        == match FirstOf(ask, rules)
           case Some(rule) => Some(Shadowed("ask", broad, rule))
           case None => None;
  }

  /** What the doctor says of `allow`, by what it lists. */
  lemma AllowReportExactly(allow: seq<Json>)
    ensures match AllowReport(allow)
      case Configured => Gaps(allow) == []
      case CoveredByAllow(rule) =>
        && Gaps(allow) != [] && Str(rule) in allow
        && (rule == "mcp(entwurf-bridge)" || (rule == "mcp(*)" && Str("mcp(entwurf-bridge)") !in allow))
      case PartiallyConfigured(missing) =>
        missing == Gaps(allow) && 0 < |missing| < 3 && forall rule <- BROAD :: Str(rule) !in allow
      case NotConfigured => |Gaps(allow)| == 3 && forall rule <- BROAD :: Str(rule) !in allow
      case _ => false
  {
    MissingIsGaps(allow);
    MissingMembers(allow, ALLOW_RULES);
    RulesAreThree();
    assert BROAD_RULES[0] == "mcp(entwurf-bridge)" && BROAD_RULES[1..] == ["mcp(*)"];
    assert FirstListed(allow, ["mcp(*)"]) == if Listed(allow, "mcp(*)") then Some("mcp(*)") else None;
    assert ALLOW_RULES[0] in ALLOW_RULES && ALLOW_RULES[1] in ALLOW_RULES && ALLOW_RULES[2] in ALLOW_RULES;
  }

  /**
   Which report it is, for every permission object: the reports exclude each other, so each is given
   exactly under its condition. A broad shadow comes before an exact one and `deny` before `ask`; without
   a shadow, full coverage by our rules comes before coverage by a broad one, the server's before the
   wildcard, and that before a gap.
   */
  lemma ReportExactly(perms: map<string, Json>)
    ensures match PermissionReport(perms)
      case Shadowed(list, broad, rule) =>
        var rules := if broad then BROAD else OURS;
        && Shadows(perms, rules) && (broad || !Shadows(perms, BROAD)) && FirstIs(ItemsOf(perms, list), rules, rule)
        && (list == "deny" || (list == "ask" && !NamesAny(ItemsOf(perms, "deny"), rules)))
      case report =>
        && !Shadows(perms, BROAD) && !Shadows(perms, OURS)
        && report == AllowReport(ItemsOf(perms, "allow"))
  {
    hide ShadowIn, FirstOf, NamesAny, FirstIs;
    RulesByName();
    ShadowIsFirst(perms, BROAD_RULES, BROAD, true);
    ShadowIsFirst(perms, ALLOW_RULES, OURS, false);
    NothingAllowed();
  }

  lemma NothingAllowed()
    ensures AllowReport([]) == NotConfigured
  {
    AllowReportExactly([]);
  }
}
