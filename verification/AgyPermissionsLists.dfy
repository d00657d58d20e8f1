/** Facts about the `allow` list and the ownership record that the installer's guarantees rest on. */
module AgyPermissionsLists {
  import opened JsonValues
  import opened Options
  import opened AgyFiles
  import opened AgyPermissions

  const RULE_SET: set<string> := {RULE_V2, RULE_PEERS, RULE_SELF}

  lemma RulesAreThree()
    ensures RULE_V2 != RULE_PEERS && RULE_PEERS != RULE_SELF && RULE_SELF != RULE_V2
    ensures forall rule :: rule in ALLOW_RULES <==> rule in RULE_SET
  {
    assert |RULE_V2| == 30 && |RULE_PEERS| == 33 && |RULE_SELF| == 32;
    assert ALLOW_RULES[0] == RULE_V2 && ALLOW_RULES[1] == RULE_PEERS && ALLOW_RULES[2] == RULE_SELF;
  }

  /** Granting only appends: what was there stays, in place, and every rule of ours is listed. */
  lemma {:induction false} WithRulesGrows(allow: seq<Json>, rules: seq<string>)
    ensures allow <= WithRules(allow, rules)
    ensures forall rule <- rules :: Listed(WithRules(allow, rules), rule)
    decreases |rules|
  {
    if rules != [] {
      var next := if Listed(allow, rules[0]) then allow else allow + [Str(rules[0])];
      WithRulesGrows(next, rules[1..]);
      assert Listed(next, rules[0]);
    }
  }

  /** Granting what is already listed changes nothing. */
  lemma {:induction false} WithRulesListed(allow: seq<Json>, rules: seq<string>)
    requires forall rule <- rules :: Listed(allow, rule)
    ensures WithRules(allow, rules) == allow
    decreases |rules|
  {
    if rules != [] {
      WithRulesListed(allow, rules[1..]);
    }
  }

  lemma {:induction false} WithoutConcat(a: seq<Json>, b: seq<Json>, r: Record)
    ensures Without(a + b, r) == Without(a, r) + Without(b, r)
    decreases |a|
  {
    if a == [] {
      assert a + b == b;
    } else {
      assert (a + b)[1..] == a[1..] + b;
      WithoutConcat(a[1..], b, r);
    }
  }

  /** Revoking keeps exactly the elements that are not owned rules, whatever else they are. */
  lemma {:induction false} WithoutMembers(allow: seq<Json>, r: Record)
    ensures forall j :: j in Without(allow, r) <==> j in allow && !(j.Str? && Owned(r, j.text))
  {
    if allow != [] {
      WithoutMembers(allow[1..], r);
      assert allow == [allow[0]] + allow[1..];
    }
  }

  lemma {:induction false} WithoutNothing(allow: seq<Json>, r: Record)
    requires forall j <- allow :: !(j.Str? && Owned(r, j.text))
    ensures Without(allow, r) == allow
  {
    if allow != [] {
      WithoutNothing(allow[1..], r);
    }
  }

  lemma {:induction false} WithoutOwned(allow: seq<Json>, r: Record)
    requires forall item <- allow :: item.Str? && Owned(r, item.text)
    ensures Without(allow, r) == []
  {
    if allow != [] {
      assert allow[0] in allow;
      WithoutOwned(allow[1..], r);
    }
  }

  lemma WithoutTwice(allow: seq<Json>, r: Record)
    ensures Without(Without(allow, r), r) == Without(allow, r)
  {
    WithoutMembers(allow, r);
    WithoutNothing(Without(allow, r), r);
  }

  /** Two records that own the same listed rules revoke the same elements. */
  lemma {:induction false} WithoutAlike(allow: seq<Json>, r: Record, r': Record)
    requires forall j <- allow :: j.Str? ==> Owned(r, j.text) == Owned(r', j.text)
    ensures Without(allow, r) == Without(allow, r')
  {
    if allow != [] {
      WithoutAlike(allow[1..], r, r');
    }
  }

  /** What granting appended is revoked by any record that owns every rule that was missing. */
  lemma {:induction false} GrantThenRevoke(allow: seq<Json>, rules: seq<string>, r: Record)
    requires forall rule <- rules :: Listed(allow, rule) || Owned(r, rule)
    ensures Without(WithRules(allow, rules), r) == Without(allow, r)
    decreases |rules|
  {
    if rules != [] {
      var next := if Listed(allow, rules[0]) then allow else allow + [Str(rules[0])];
      assert forall rule <- rules[1..] :: Listed(next, rule) || Owned(r, rule);
      GrantThenRevoke(next, rules[1..], r);
      if !Listed(allow, rules[0]) {
        WithoutConcat(allow, [Str(rules[0])], r);
        assert Without([Str(rules[0])], r) == [];
      }
    }
  }

  // ---------------------------------------------------------------- the written state reads back

  lemma KeysDiffer()
    ensures |"schemaVersion"| == 13 && |PATH_KEY| == 19 && |"rules"| == 5 && |"detectMode"| == 10
    ensures |"settingsExistedBefore"| == 21 && |"permissionsExistedBefore"| == 24
    ensures |"allowExistedBefore"| == |"rulesExistedBefore"| == 18 && |"installedAt"| == 11
    ensures "allowExistedBefore"[0] == 'a' && "rulesExistedBefore"[0] == 'r'
  {
  }

  lemma StateDocMembers(path: string, p: Provenance, now: string)
    requires forall rule <- ALLOW_RULES :: rule in p.rulesExisted
    ensures var m := StateDoc(path, p, now);
      && m != map[]
      && Member(m, "schemaVersion") == Some(Num(2.0)) && Member(m, PATH_KEY) == Some(Str(path))
      && Member(m, "rules") == Some(Arr([Str(RULE_V2), Str(RULE_PEERS), Str(RULE_SELF)]))
      && Member(m, "detectMode") == Some(p.detectMode)
      && Member(m, "settingsExistedBefore") == Some(p.settingsExisted)
      && Member(m, "permissionsExistedBefore") == Some(p.permissionsExisted)
      && Member(m, "allowExistedBefore") == Some(p.allowExisted)
      && Member(m, "rulesExistedBefore") == Some(Obj(map rule | rule in ALLOW_RULES :: Bool(p.rulesExisted[rule])))
  {
    KeysDiffer();
    assert "schemaVersion" in StateDoc(path, p, now);
  }

  lemma RuleItems()
    ensures var texts := Texts([Str(RULE_V2), Str(RULE_PEERS), Str(RULE_SELF)]);
      texts == Some(ALLOW_RULES)
  {
    var items := [Str(RULE_V2), Str(RULE_PEERS), Str(RULE_SELF)];
    var texts := Texts(items).value;
    assert items[0] == Str(texts[0]) && items[1] == Str(texts[1]) && items[2] == Str(texts[2]);
    assert texts == ALLOW_RULES;
  }

  lemma CompleteRecordParses(m: map<string, Json>, items: seq<Json>, rules: seq<string>, existed: map<string, bool>)
    requires rules != [] && items != [] && Texts(items) == Some(rules)
    requires forall rule :: rule in existed <==> rule in rules
    requires Member(m, "schemaVersion") == Some(Num(2.0)) && Member(m, "rules") == Some(Arr(items))
    requires Member(m, "rulesExistedBefore") == Some(Obj(map rule | rule in rules :: Bool(existed[rule])))
    ensures Parse(m) == Some(Record(rules, existed))
  {
    hide Texts;
    var written: map<string, Json> := map rule | rule in rules :: Bool(existed[rule]);
    assert forall rule <- rules :: Get(written, rule, Null) == Bool(existed[rule]);
    assert (map rule | rule in rules :: written[rule].flag) == existed;
  }

  /** Every state an install writes is one that uninstall, doctor and the next install can read. */
  lemma WrittenStateParses(path: string, p: Provenance, now: string)
    requires forall rule :: rule in p.rulesExisted <==> rule in ALLOW_RULES
    ensures Parse(StateDoc(path, p, now)) == Some(Record(ALLOW_RULES, p.rulesExisted))
  {
    hide StateDoc, Texts, Parse;
    StateDocMembers(path, p, now);
    RuleItems();
    CompleteRecordParses(StateDoc(path, p, now), [Str(RULE_V2), Str(RULE_PEERS), Str(RULE_SELF)],
                         ALLOW_RULES, p.rulesExisted);
  }
}
