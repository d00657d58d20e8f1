/** The doorbell's bookkeeping over one mailbox directory: stamp every fresh message, then announce. */
module OmpMailbox {
  import opened Options
  import opened ScriptText

  const SIGNAL := "inbox.signal"
  const FRESH := ".msg"
  const STAMP := ".delivered"
  const DELIVERED := ".msg.delivered"

  /** File names and their contents. */
  type Mailbox = map<string, string>

  predicate IsFresh(name: string) { EndsWith(name, FRESH) }

  function FreshIn(m: Mailbox): set<string> { set n <- m.Keys | IsFresh(n) }

  function DeliveredIn(m: Mailbox): set<string> { set n <- m.Keys | EndsWith(n, DELIVERED) }

  function Stamped(name: string): string { name + STAMP }

  /** `rename(name, name + ".delivered")`, which replaces a file that is already there. */
  function Rename(m: Mailbox, name: string): Mailbox {
    if name in m then (m - {name})[Stamped(name) := m[name]] else m
  }

  function StampAll(m: Mailbox, names: seq<string>): Mailbox
    decreases |names|
  {
    if names == [] then m else StampAll(Rename(m, names[0]), names[1..])
  }

  /** `entries.filter(f => f.endsWith(".msg"))`, in whatever order they are listed. */
  function FreshOf(listing: seq<string>): seq<string> {
    if listing == [] then [] else (if IsFresh(listing[0]) then [listing[0]] else []) + FreshOf(listing[1..])
  }

  predicate Distinct(names: seq<string>) { forall i, j :: 0 <= i < j < |names| ==> names[i] != names[j] }

  /** What one directory read returns for a mailbox. */
  predicate Lists(listing: seq<string>, m: Mailbox) { Distinct(listing) && (set n <- listing) == m.Keys }

  // ---------------------------------------------------------------- one pass conserves the messages

  /** No fresh message would be stamped onto a stamped file that is still there. */
  predicate NoReuse(m: Mailbox) { forall n <- m.Keys :: IsFresh(n) ==> Stamped(n) !in m }

  /** The file a name has become once the given names are stamped. */
  function Now(name: string, stamped: seq<string>): string { if name in stamped then Stamped(name) else name }

  /** Every file is still there with its content, under its own or its stamped name, and nothing else is. */
  predicate Conserved(m: Mailbox, m': Mailbox, stamped: seq<string>) {
    && (forall n <- m.Keys :: Now(n, stamped) in m' && m'[Now(n, stamped)] == m[n])
    && (forall n' <- m'.Keys :: exists n <- m.Keys :: Now(n, stamped) == n')
  }

  lemma StampedIsNotFresh(name: string)
    requires IsFresh(name)
    ensures !IsFresh(Stamped(name)) && EndsWith(Stamped(name), DELIVERED) && !EndsWith(name, DELIVERED)
    ensures Stamped(name) != name
  {
    var s := Stamped(name);
    assert FRESH + STAMP == DELIVERED;
    EndsWithLast(name, FRESH);
    EndsWithLast(s, FRESH);
    EndsWithLast(name, DELIVERED);
    assert s[|s| - |DELIVERED|..] == name[|name| - |FRESH|..] + STAMP;
  }

  lemma StampedIsInjective(a: string, b: string)
    ensures Stamped(a) == Stamped(b) <==> a == b
  {
    if Stamped(a) == Stamped(b) {
      assert a == Stamped(a)[..|Stamped(a)| - |STAMP|];
      assert b == Stamped(b)[..|Stamped(b)| - |STAMP|];
    }
  }

  /** What stamping one name leaves for the others. */
  lemma RenameOne(m: Mailbox, name: string)
    requires name in m && IsFresh(name)
    ensures var m' := Rename(m, name);
      && name !in m' && Stamped(name) in m' && m'[Stamped(name)] == m[name]
      && (forall n :: n != name && n != Stamped(name) ==> (n in m' <==> n in m) && (n in m ==> m'[n] == m[n]))
      && |m'| == |m| - (if Stamped(name) in m then 1 else 0)
  {
    StampedIsNotFresh(name);
    var m' := Rename(m, name);
    assert m'.Keys == m.Keys - {name} + {Stamped(name)};
  }

  /** How many of the names would replace a stamped file. */
  function Replaced(m: Mailbox, names: seq<string>): nat
    decreases |names|
  {
    if names == [] then 0 else (if Stamped(names[0]) in m then 1 else 0) + Replaced(m, names[1..])
  }

  predicate FreshNames(m: Mailbox, names: seq<string>) {
    Distinct(names) && forall n <- names :: n in m && IsFresh(n)
  }

  lemma FreshNamesRest(m: Mailbox, names: seq<string>)
    requires FreshNames(m, names) && names != []
    ensures FreshNames(Rename(m, names[0]), names[1..])
    ensures Replaced(Rename(m, names[0]), names[1..]) == Replaced(m, names[1..])
  {
    RenameOne(m, names[0]);
    StampedIsNotFresh(names[0]);
    ReplacedElsewhere(m, names[0], names[1..]);
  }

  lemma {:induction false} ReplacedElsewhere(m: Mailbox, name: string, names: seq<string>)
    requires name in m && IsFresh(name) && name !in names && forall n <- names :: IsFresh(n)
    ensures Replaced(Rename(m, name), names) == Replaced(m, names)
    decreases |names|
  {
    if names != [] {
      RenameOne(m, name);
      StampedIsNotFresh(names[0]);
      StampedIsInjective(name, names[0]);
      ReplacedElsewhere(m, name, names[1..]);
    }
  }

  /** Stamping loses exactly the files it replaces. */
  lemma {:induction false} StampingCounts(m: Mailbox, names: seq<string>)
    requires FreshNames(m, names)
    ensures |StampAll(m, names)| == |m| - Replaced(m, names)
    decreases |names|
  {
    if names != [] {
      RenameOne(m, names[0]);
      FreshNamesRest(m, names);
      StampingCounts(Rename(m, names[0]), names[1..]);
    }
  }

  lemma {:induction false} ReplacedNone(m: Mailbox, names: seq<string>)
    ensures Replaced(m, names) == 0 <==> forall n <- names :: Stamped(n) !in m
    decreases |names|
  {
    if names != [] {
      assert names == [names[0]] + names[1..];
      ReplacedNone(m, names[1..]);
    }
  }

  lemma {:induction false} StampAllConserves(m: Mailbox, names: seq<string>)
    requires FreshNames(m, names) && forall n <- names :: Stamped(n) !in m
    ensures Conserved(m, StampAll(m, names), names)
    decreases |names|
  {
    if names != [] {
      var name, m1 := names[0], Rename(m, names[0]);
      RenameOne(m, name);
      FreshNamesRest(m, names);
      forall n | n in names[1..]
        ensures Stamped(n) !in m1
      {
        StampedIsNotFresh(n);
        StampedIsInjective(n, name);
      }
      StampAllConserves(m1, names[1..]);
      ConservedThrough(m, m1, StampAll(m, names), names);
    }
  }

  lemma FreshNamesMembers(m: Mailbox, names: seq<string>)
    requires FreshNames(m, names)
    ensures forall n <- names :: n in m && IsFresh(n)
  {
  }

  lemma DistinctHead(m: Mailbox, names: seq<string>)
    requires names != [] && FreshNames(m, names)
    ensures names[0] !in names[1..] && Stamped(names[0]) !in names
  {
    StampedIsNotFresh(names[0]);
  }

  /** Where a file is after the first stamp, and that the other stamps then take it where all stamps would. */
  lemma AfterFirst(m: Mailbox, names: seq<string>, n: string)
    requires names != [] && FreshNames(m, names) && Stamped(names[0]) !in m && n in m
    ensures var m1, n1 := Rename(m, names[0]), if n == names[0] then Stamped(n) else n;
      n1 in m1 && m1[n1] == m[n] && Now(n1, names[1..]) == Now(n, names)
  {
    hide IsFresh, Stamped, Rename, FreshNames;
    FreshNamesMembers(m, names);
    RenameOne(m, names[0]);
    StampedIsNotFresh(names[0]);
    DistinctHead(m, names);
    assert names == [names[0]] + names[1..];
  }

  /** Which file of the mailbox a file is that is there after the first stamp. */
  lemma BeforeFirst(m: Mailbox, names: seq<string>, n1: string)
    requires names != [] && FreshNames(m, names) && Stamped(names[0]) !in m && n1 in Rename(m, names[0])
    ensures var n := if n1 == Stamped(names[0]) then names[0] else n1;
      n in m && (n == names[0] <==> n1 == Stamped(names[0]))
  {
    hide IsFresh, Stamped, Rename;
    RenameOne(m, names[0]);
    StampedIsNotFresh(names[0]);
  }

  lemma ConservedThrough(m: Mailbox, m1: Mailbox, m2: Mailbox, names: seq<string>)
    requires names != [] && FreshNames(m, names) && Stamped(names[0]) !in m
    requires m1 == Rename(m, names[0]) && Conserved(m1, m2, names[1..])
    ensures Conserved(m, m2, names)
  {
    hide Now, Stamped, Rename, FreshNames, IsFresh;
    forall n | n in m
      ensures Now(n, names) in m2 && m2[Now(n, names)] == m[n]
    {
      AfterFirst(m, names, n);
    }
    forall n2 | n2 in m2
      ensures exists n <- m.Keys :: Now(n, names) == n2
    {
      var n1 :| n1 in m1 && Now(n1, names[1..]) == n2;
      BeforeFirst(m, names, n1);
      AfterFirst(m, names, if n1 == Stamped(names[0]) then names[0] else n1);
    }
  }

  lemma {:induction false} FreshOfExactly(listing: seq<string>)
    ensures forall n :: n in FreshOf(listing) <==> n in listing && IsFresh(n)
    ensures Distinct(listing) ==> Distinct(FreshOf(listing))
  {
    if listing != [] {
      FreshOfExactly(listing[1..]);
      assert listing == [listing[0]] + listing[1..];
      if Distinct(listing) {
        assert listing[0] !in listing[1..];
      }
    }
  }

  lemma RenameFresh(m: Mailbox, name: string)
    requires name in m && IsFresh(name)
    ensures FreshIn(Rename(m, name)) == FreshIn(m) - {name}
    ensures SIGNAL in m ==> SIGNAL in Rename(m, name)
  {
    RenameOne(m, name);
    StampedIsNotFresh(name);
    assert SIGNAL[|SIGNAL| - 1] == 'l' && name[|name| - 1] == FRESH[3];
  }

  lemma {:induction false} StampAllLeavesNothingFresh(m: Mailbox, names: seq<string>)
    requires FreshNames(m, names)
    ensures FreshIn(StampAll(m, names)) == FreshIn(m) - set n <- names
    ensures SIGNAL in m ==> SIGNAL in StampAll(m, names)
    decreases |names|
  {
    hide Rename, IsFresh;
    if names != [] {
      FreshNamesMembers(m, names);
      RenameFresh(m, names[0]);
      FreshNamesRest(m, names);
      assert names == [names[0]] + names[1..];
      StampAllLeavesNothingFresh(Rename(m, names[0]), names[1..]);
    }
  }

  /**
   A pass over a mailbox keeps every message - each file survives with its body, fresh ones under
   their stamped names - exactly when no fresh name's stamped file is still there.
   */
  lemma PassConservesExactly(m: Mailbox, listing: seq<string>)
    requires Lists(listing, m)
    ensures var names := FreshOf(listing);
      && (NoReuse(m) <==> |StampAll(m, names)| == |m|)
      && (NoReuse(m) ==> Conserved(m, StampAll(m, names), names))
      && FreshIn(StampAll(m, names)) == {}
  {
    hide StampAll, Conserved, Stamped, IsFresh, FreshOf;
    var names := FreshOf(listing);
    FreshOfExactly(listing);
    StampingCounts(m, names);
    ReplacedNone(m, names);
    StampAllLeavesNothingFresh(m, names);
    if NoReuse(m) { StampAllConserves(m, names); }
    assert NoReuse(m) <==> forall n <- names :: Stamped(n) !in m;
    assert FreshIn(m) == set n <- names;
  }

  lemma DeliveredAfter(m: Mailbox, m': Mailbox, names: seq<string>, stamps: set<string>)
    requires Conserved(m, m', names) && stamps == set n <- FreshIn(m) :: Stamped(n)
    requires forall n :: n in names <==> n in FreshIn(m)
    ensures DeliveredIn(m') == DeliveredIn(m) + stamps
  {
    hide Stamped, EndsWith;
    forall n | n in FreshIn(m)
      ensures EndsWith(Stamped(n), DELIVERED) && !EndsWith(n, DELIVERED)
    {
      StampedIsNotFresh(n);
    }
    forall n' | n' in DeliveredIn(m')
      ensures n' in DeliveredIn(m) + stamps
    {
      var n :| n in m && Now(n, names) == n';
    }
    forall n | n in DeliveredIn(m) + stamps
      ensures n in DeliveredIn(m')
    {
      if n in DeliveredIn(m) {
        assert Now(n, names) == n;
      } else {
        var o :| o in FreshIn(m) && Stamped(o) == n;
        assert Now(o, names) == n;
      }
    }
  }

  /** The announced number is then all the messages there are: those delivered before and the fresh ones. */
  lemma AnnouncedExactly(m: Mailbox, listing: seq<string>)
    requires Lists(listing, m) && NoReuse(m)
    ensures |DeliveredIn(StampAll(m, FreshOf(listing)))| == |DeliveredIn(m)| + |FreshIn(m)|
  {
    hide EndsWith, Stamped, StampAll, FreshOf, Conserved;
    var names := FreshOf(listing);
    FreshOfExactly(listing);
    PassConservesExactly(m, listing);
    var stamps := set n <- FreshIn(m) :: Stamped(n);
    DeliveredAfter(m, StampAll(m, names), names, stamps);
    assert DeliveredIn(m) !! stamps;
    ImageSize(FreshIn(m), stamps);
  }

  lemma {:induction false} ImageSize(names: set<string>, stamps: set<string>)
    requires stamps == set n <- names :: Stamped(n)
    ensures |stamps| == |names|
    decreases names
  {
    if names != {} {
      var n :| n in names;
      forall other | other in names - {n}
        ensures Stamped(other) != Stamped(n)
      {
        StampedIsInjective(other, n);
      }
      var rest := set o <- names - {n} :: Stamped(o);
      ImageSize(names - {n}, rest);
      assert stamps == rest + {Stamped(n)};
    }
  }
}
