/** The ring loop of the receiver, with everything that happens around it as a script of scans. */
module OmpDoorbell {
  import opened Options
  import opened OmpMailbox

  /** How one announcement ends: the mailbox by then, whether a ring was requested during it, whether it threw. */
  datatype Notice = Notice(after: Mailbox, requested: bool, threw: bool)

  /** One turn of the loop: the directory read (None: it throws), how many renames succeed, the recount, the notice. */
  datatype Scan = Scan(listing: Option<seq<string>>, renames: nat, recountOk: bool, notice: Notice)

  /** An announced turn: what was there, which names were fresh, what is there now, and the number announced. */
  datatype Pass = Pass(before: Mailbox, names: seq<string>, stamped: Mailbox, announced: nat)

  datatype Outcome = Quiet | Vanished | Broke

  datatype Ring = Ring(mailbox: Mailbox, passes: seq<Pass>, outcome: Outcome)

  /** The loop. A script that has run out reads as a directory that cannot be listed. */
  function RingFrom(m: Mailbox, script: seq<Scan>): Ring
    decreases |script|
  {
    if SIGNAL !in m then Ring(m, [], Vanished)
    else if script == [] || script[0].listing.None? then Ring(m, [], Broke)
    else
      var scan := script[0];
      var names := FreshOf(scan.listing.value);
      if names == [] then Ring(m, [], Quiet)
      else if scan.renames < |names| then Ring(StampAll(m, names[..scan.renames]), [], Broke)
      else
        var stamped := StampAll(m, names);
        if !scan.recountOk then Ring(stamped, [], Broke)
        else
          var pass := Pass(m, names, stamped, |DeliveredIn(stamped)|);
          if scan.notice.threw then Ring(scan.notice.after, [pass], Broke)
          else if !scan.notice.requested then Ring(scan.notice.after, [pass], Quiet)
          else
            var rest := RingFrom(scan.notice.after, script[1..]);
            rest.(passes := [pass] + rest.passes)
  }

  /** Directory reads are truthful, and at every scan no fresh name's stamped file is still there. */
  predicate Faithful(m: Mailbox, script: seq<Scan>)
    decreases |script|
  {
    script == [] || script[0].listing.None? ||
    (Lists(script[0].listing.value, m) && NoReuse(m) && Faithful(script[0].notice.after, script[1..]))
  }

  /** Stamped before announced, nothing lost, and everything counted. */
  ghost predicate Sound(pass: Pass) {
    && pass.names != [] && FreshIn(pass.stamped) == {}
    && Conserved(pass.before, pass.stamped, pass.names)
    && pass.announced == |DeliveredIn(pass.before)| + |FreshIn(pass.before)|
  }

  /** Every announcement of every ring is sound, whatever happens in and after the notices. */
  lemma {:induction false} EveryPassIsSound(m: Mailbox, script: seq<Scan>)
    requires Faithful(m, script)
    ensures forall pass <- RingFrom(m, script).passes :: Sound(pass)
    decreases |script|
  {
    if script != [] && script[0].listing.Some? {
      PassConservesExactly(m, script[0].listing.value);
      AnnouncedExactly(m, script[0].listing.value);
      EveryPassIsSound(script[0].notice.after, script[1..]);
    }
  }

  // ---------------------------------------------------------------- what a whole ring does

  /** The mailbox the `k`-th look of the loop finds: the first one, and then what the notice before it left. */
  function Met(m: Mailbox, script: seq<Scan>, k: nat): Mailbox
    requires k <= |script|
  {
    if k == 0 then m else script[k - 1].notice.after
  }

  /** A ring was requested during the notice, and the notice returned. */
  predicate Requests(notice: Notice) { notice.requested && !notice.threw }

  /** The fresh names of the `k`-th look, in the order they are stamped. */
  function FreshAt(script: seq<Scan>, k: nat): seq<string> {
    if k < |script| && script[k].listing.Some? then FreshOf(script[k].listing.value) else []
  }

  /** Some call of the `k`-th look fails before the announcement. */
  predicate Fails(script: seq<Scan>, k: nat) {
    k >= |script| || script[k].listing.None? || script[k].renames < |FreshAt(script, k)| || !script[k].recountOk
  }

  /** The ring ended with a look, the `k`-th, that announced nothing, and this is why. */
  ghost predicate Looked(ring: Ring, met: Mailbox, script: seq<Scan>, k: nat) {
    match ring.outcome
    case Vanished => SIGNAL !in met && ring.mailbox == met
    case Quiet => SIGNAL in met && FreshIn(met) == {} && ring.mailbox == met
    case Broke => SIGNAL in met && Fails(script, k) && CutAfter(met, ring.mailbox, FreshAt(script, k))
  }

  /** Some of the names, in order, are stamped; every other file is as it was and no body is lost. */
  ghost predicate CutAfter(m: Mailbox, m': Mailbox, names: seq<string>) {
    exists n :: 0 <= n <= |names| && Conserved(m, m', names[..n])
  }

  lemma NothingStamped(m: Mailbox, names: seq<string>)
    ensures CutAfter(m, m, names)
  {
    assert forall n <- m.Keys :: Now(n, []) == n;
    assert Conserved(m, m, []);
    assert names[..0] == [];
  }

  /** A look that finds fresh messages and announces none of them. */
  lemma CutLook(m: Mailbox, script: seq<Scan>)
    requires Faithful(m, script) && RingFrom(m, script).passes == [] && SIGNAL in m && FreshAt(script, 0) != []
    ensures var ring := RingFrom(m, script);
      ring.outcome == Broke && Fails(script, 0) && CutAfter(m, ring.mailbox, FreshAt(script, 0))
  {
    hide Conserved, Stamped, FreshOf, IsFresh, StampAll;
    var names := FreshAt(script, 0);
    FreshOfExactly(script[0].listing.value);
    var k := if script[0].renames < |names| then script[0].renames else |names|;
    assert names[..|names|] == names;
    StampAllConserves(m, names[..k]);
    assert Conserved(m, RingFrom(m, script).mailbox, names[..k]);
  }

  lemma NoneFresh(m: Mailbox, listing: seq<string>)
    requires Lists(listing, m) && FreshOf(listing) == []
    ensures FreshIn(m) == {}
  {
    FreshOfExactly(listing);
    assert forall n <- FreshIn(m) :: n in FreshOf(listing);
  }

  /** The first look of a ring, when it announces nothing. */
  lemma FirstLook(m: Mailbox, script: seq<Scan>)
    requires Faithful(m, script) && RingFrom(m, script).passes == []
    ensures Looked(RingFrom(m, script), m, script, 0)
  {
    hide CutAfter, FreshOf, FreshIn, StampAll, Lists, NoReuse;
    if SIGNAL !in m {
    } else if FreshAt(script, 0) != [] {
      CutLook(m, script);
    } else if script != [] && script[0].listing.Some? {
      NoneFresh(m, script[0].listing.value);
    } else {
      NothingStamped(m, []);
    }
  }

  /**
   A whole ring, whatever happens in it. It announces one look after the other, each at what the
   notice before it left. A request during a notice that returns is always served: by another
   announcement, or by a look that finds the signal gone, nothing fresh, or a failing call. The loop
   ends after a notice exactly when that notice requested nothing or threw.
   */
  lemma {:induction false} RequestsAreServed(m: Mailbox, script: seq<Scan>)
    requires Faithful(m, script)
    ensures var ring := RingFrom(m, script);
      var n := |ring.passes|;
      && n <= |script|
      && (forall i :: 0 <= i < n ==> ring.passes[i].before == Met(m, script, i))
      && (forall i :: 0 <= i < n - 1 ==> Requests(script[i].notice))
      && (if n == 0 || Requests(script[n - 1].notice) then Looked(ring, Met(m, script, n), script, n)
          else ring.mailbox == Met(m, script, n) && ring.outcome == if script[n - 1].notice.threw then Broke else Quiet)
    decreases |script|
  {
    hide Looked;
    var ring := RingFrom(m, script);
    if ring.passes == [] {
      FirstLook(m, script);
    } else if Requests(script[0].notice) {
      var after, rest := script[0].notice.after, script[1..];
      RequestsAreServed(after, rest);
      RestOfRing(m, script);
    }
  }

  /** A ring that goes on after its first notice is that announcement and then a ring of its own. */
  lemma RestOfRing(m: Mailbox, script: seq<Scan>)
    requires RingFrom(m, script).passes != [] && Requests(script[0].notice)
    ensures var ring, rest := RingFrom(m, script), RingFrom(script[0].notice.after, script[1..]);
      && ring.passes[1..] == rest.passes && ring.passes[0].before == m
      && ring.mailbox == rest.mailbox && ring.outcome == rest.outcome
      && (forall k :: 0 <= k < |script| ==> Met(m, script, k + 1) == Met(script[0].notice.after, script[1..], k))
      && (forall met, k: nat :: Looked(rest, met, script[1..], k) ==> Looked(ring, met, script, k + 1))
  {
    var ring, rest := RingFrom(m, script), RingFrom(script[0].notice.after, script[1..]);
    assert ring.passes == [ring.passes[0]] + rest.passes;
    assert forall k: nat :: FreshAt(script[1..], k) == FreshAt(script, k + 1);
    assert forall k: nat :: Fails(script[1..], k) == Fails(script, k + 1);
  }

  /**
   No message body is ever lost: whatever ends a ring, its mailbox is the last one the loop met with
   the first so many of its fresh messages stamped, none of them unless a call failed.
   */
  lemma RingConserves(m: Mailbox, script: seq<Scan>)
    requires Faithful(m, script)
    ensures var ring := RingFrom(m, script);
      var n := |ring.passes|;
      && n <= |script|
      && CutAfter(Met(m, script, n), ring.mailbox, FreshAt(script, n))
      && (ring.outcome != Broke ==> ring.mailbox == Met(m, script, n))
  {
    hide CutAfter, RingFrom;
    RequestsAreServed(m, script);
    var n := |RingFrom(m, script).passes|;
    NothingStamped(Met(m, script, n), FreshAt(script, n));
  }

  /** A mailbox without a fresh message stays silent, however much in it was never announced. */
  lemma NothingFreshIsSilent(m: Mailbox, script: seq<Scan>)
    requires Faithful(m, script) && FreshIn(m) == {}
    ensures RingFrom(m, script).passes == []
  {
    if script != [] && script[0].listing.Some? {
      var names := FreshOf(script[0].listing.value);
      FreshOfExactly(script[0].listing.value);
      assert forall n <- names :: n in FreshIn(m);
    }
  }

  // ---------------------------------------------------------------- a stamp is meant to say that the bell rang

  /**
   The stamped names a ring has made since its last notice that returned: those of its last look, and
   if the last notice threw, those it announced to nobody.
   */
  function Since(m: Mailbox, script: seq<Scan>): set<string>
    requires |RingFrom(m, script).passes| <= |script|
  {
    var ring := RingFrom(m, script);
    var n := |ring.passes|;
    if n > 0 && script[n - 1].notice.threw then set name <- FreshIn(ring.passes[n - 1].before) :: Stamped(name)
    else set name <- FreshIn(Met(m, script, n)) | name !in ring.mailbox :: Stamped(name)
  }

  /** Stamped messages are left that no returned notice announced, and nothing fresh that would make the bell ring. */
  predicate RangForNobody(m: Mailbox, script: seq<Scan>)
    requires |RingFrom(m, script).passes| <= |script|
  {
    && (exists name <- Since(m, script) :: name in RingFrom(m, script).mailbox)
    && FreshIn(RingFrom(m, script).mailbox) == {}
  }

  /** The last look of the ring, the `n`-th, stamps every fresh message, and its recount fails. */
  predicate RecountFails(m: Mailbox, script: seq<Scan>, n: nat)
    requires n <= |script|
  {
    && (n == 0 || Requests(script[n - 1].notice)) && SIGNAL in Met(m, script, n) && FreshAt(script, n) != []
    && |FreshAt(script, n)| <= script[n].renames && !script[n].recountOk
  }

  /** The notice of the ring's last announcement threw; some message of it is still there and nothing is fresh. */
  predicate NoticeThrows(m: Mailbox, script: seq<Scan>, n: nat)
    requires n <= |script|
  {
    && n > 0 && script[n - 1].notice.threw && FreshIn(script[n - 1].notice.after) == {}
    && exists name <- FreshIn(Met(m, script, n - 1)) :: Stamped(name) in script[n - 1].notice.after
  }

  /** A look that stamps some of its fresh names and then fails leaves the others fresh. */
  lemma CutLeavesFresh(m: Mailbox, listing: seq<string>, k: nat)
    requires Lists(listing, m) && NoReuse(m) && k <= |FreshOf(listing)|
    ensures var left := StampAll(m, FreshOf(listing)[..k]);
      && FreshIn(left) == FreshIn(m) - (set name <- FreshOf(listing)[..k])
      && (FreshIn(left) == {} <==> k == |FreshOf(listing)|)
      && (forall name <- FreshOf(listing)[..k] :: name !in left && Stamped(name) in left)
  {
    hide Stamped, StampAll, FreshOf, IsFresh;
    var names := FreshOf(listing);
    FreshOfExactly(listing);
    StampAllLeavesNothingFresh(m, names[..k]);
    StampAllConserves(m, names[..k]);
    var left := StampAll(m, names[..k]);
    forall name | name in names[..k]
      ensures name !in left && Stamped(name) in left
    {
      assert Now(name, names[..k]) == Stamped(name);
      assert name in FreshIn(m) && IsFresh(name);
      assert name !in FreshIn(left);
    }
    if k < |names| {
      assert names[k] in FreshIn(left);
    } else {
      assert names[..k] == names;
    }
  }

  /** What the ring's last look, when it announced nothing, has left behind. */
  lemma LastLook(m: Mailbox, script: seq<Scan>)
    requires Faithful(m, script) && RingFrom(m, script).passes == []
    ensures var left := RingFrom(m, script).mailbox;
      ((exists name <- FreshIn(m) :: name !in left && Stamped(name) in left) && FreshIn(left) == {})
      <==> RecountFails(m, script, 0)
  {
    hide Stamped, StampAll, FreshOf, IsFresh, DeliveredIn, NoReuse, Lists;
    if SIGNAL in m && script != [] && script[0].listing.Some? {
      var listing, names := script[0].listing.value, FreshOf(script[0].listing.value);
      LastLookFresh(m, listing);
      var k := if script[0].renames < |names| then script[0].renames else |names|;
      assert names[..|names|] == names;
      CutLeavesFresh(m, listing, k);
      if RecountFails(m, script, 0) {
        assert names[0] in names[..k];
      }
    }
  }

  lemma LastLookFresh(m: Mailbox, listing: seq<string>)
    requires Lists(listing, m)
    ensures forall name :: name in FreshOf(listing) <==> name in FreshIn(m)
  {
    FreshOfExactly(listing);
  }

  /** The same of a ring that goes on after its first notice: it is the ring from there on that decides. */
  lemma RestDecides(m: Mailbox, script: seq<Scan>)
    requires Faithful(m, script) && RingFrom(m, script).passes != [] && Requests(script[0].notice)
    requires |RingFrom(script[0].notice.after, script[1..]).passes| < |script|
    ensures var after, rest, n := script[0].notice.after, script[1..], |RingFrom(m, script).passes|;
      && 0 < n <= |script|
      && (RangForNobody(m, script) <==> RangForNobody(after, rest))
      && (RecountFails(m, script, n) <==> RecountFails(after, rest, n - 1))
      && (NoticeThrows(m, script, n) <==> NoticeThrows(after, rest, n - 1))
  {
    hide Stamped, FreshIn, StampAll, DeliveredIn;
    RestOfRing(m, script);
    var n := |RingFrom(m, script).passes|;
    assert FreshAt(script[1..], n - 1) == FreshAt(script, n);
  }

  /**
   A ring has rung for nobody - it leaves messages whose stamp says that the bell rang although no
   returned notice announced them, and nothing fresh - exactly when its last look stamped everything and
   the recount failed, or its last notice threw and left some of what it was about and nothing fresh.
   */
  lemma {:induction false} RangForNobodyExactly(m: Mailbox, script: seq<Scan>)
    requires Faithful(m, script)
    ensures var n := |RingFrom(m, script).passes|;
      && n <= |script|
      && (RangForNobody(m, script) <==> RecountFails(m, script, n) || NoticeThrows(m, script, n))
    decreases |script|
  {
    hide RangForNobody, RecountFails, NoticeThrows;
    RequestsAreServed(m, script);
    if RingFrom(m, script).passes == [] {
      FirstDecides(m, script);
    } else if Requests(script[0].notice) {
      RangForNobodyExactly(script[0].notice.after, script[1..]);
      RestDecides(m, script);
    } else {
      OnlyNotice(m, script);
    }
  }

  lemma FirstDecides(m: Mailbox, script: seq<Scan>)
    requires Faithful(m, script) && RingFrom(m, script).passes == []
    ensures RangForNobody(m, script) <==> RecountFails(m, script, 0)
    ensures !NoticeThrows(m, script, 0)
  {
    hide Stamped, FreshIn, StampAll, RingFrom;
    LastLook(m, script);
    var left := RingFrom(m, script).mailbox;
    assert forall name <- FreshIn(m) :: name !in left ==> Stamped(name) in Since(m, script);
  }

  lemma OnlyNotice(m: Mailbox, script: seq<Scan>)
    requires Faithful(m, script) && RingFrom(m, script).passes != [] && !Requests(script[0].notice)
    ensures |RingFrom(m, script).passes| == 1
    ensures RangForNobody(m, script) <==> NoticeThrows(m, script, 1)
    ensures !RecountFails(m, script, 1)
  {
    hide Stamped, FreshIn, StampAll, DeliveredIn;
    var since := Since(m, script);
    if script[0].notice.threw {
      assert forall name <- FreshIn(m) :: Stamped(name) in since;
    }
  }

  /** After a ring for nobody every ring is silent until a new message comes. */
  lemma SilentAfterwards(m: Mailbox, script: seq<Scan>, later: seq<Scan>)
    requires |RingFrom(m, script).passes| <= |script| && RangForNobody(m, script)
    requires Faithful(RingFrom(m, script).mailbox, later)
    ensures RingFrom(RingFrom(m, script).mailbox, later).passes == []
  {
    NothingFreshIsSilent(RingFrom(m, script).mailbox, later);
  }

  /** The first of the two: a recount that fails. */
  lemma StampedUnannounced(m: Mailbox, script: seq<Scan>, later: seq<Scan>)
    requires Faithful(m, script) && SIGNAL in m && FreshAt(script, 0) != []
    requires |FreshAt(script, 0)| <= script[0].renames && !script[0].recountOk
    requires Faithful(RingFrom(m, script).mailbox, later)
    ensures var left := RingFrom(m, script).mailbox;
      && RingFrom(m, script).passes == [] && RingFrom(left, later).passes == []
      && |DeliveredIn(left)| == |DeliveredIn(m)| + |FreshIn(m)| > |DeliveredIn(m)|
  {
    PassConservesExactly(m, script[0].listing.value);
    AnnouncedExactly(m, script[0].listing.value);
    FreshOfExactly(script[0].listing.value);
    assert FreshAt(script, 0)[0] in FreshIn(m);
    NothingFreshIsSilent(RingFrom(m, script).mailbox, later);
  }

  /** The second: a notice that throws. The attempt is the ring's only announcement, and it reached nobody. */
  lemma ThrownUnannounced(m: Mailbox, script: seq<Scan>, later: seq<Scan>)
    requires Faithful(m, script) && SIGNAL in m && FreshAt(script, 0) != []
    requires |FreshAt(script, 0)| <= script[0].renames && script[0].recountOk
    requires script[0].notice.threw && script[0].notice.after == StampAll(m, FreshAt(script, 0))
    requires Faithful(RingFrom(m, script).mailbox, later)
    ensures var left := RingFrom(m, script).mailbox;
      && RingFrom(m, script).outcome == Broke && RingFrom(left, later).passes == []
      && |DeliveredIn(left)| == |DeliveredIn(m)| + |FreshIn(m)| > |DeliveredIn(m)|
  {
    PassConservesExactly(m, script[0].listing.value);
    AnnouncedExactly(m, script[0].listing.value);
    FreshOfExactly(script[0].listing.value);
    assert FreshAt(script, 0)[0] in FreshIn(m);
    NothingFreshIsSilent(RingFrom(m, script).mailbox, later);
  }

  /** Senders poke the signal after writing: a notice that saw no request leaves no fresh message. */
  predicate Poked(script: seq<Scan>) {
    forall scan <- script :: !scan.notice.requested ==> FreshIn(scan.notice.after) == {}
  }

  /** With senders that poke, a ring that ends undisturbed leaves nothing unannounced, however mail kept arriving. */
  lemma {:induction false} NothingLeftUnannounced(m: Mailbox, script: seq<Scan>)
    requires Faithful(m, script) && Poked(script) && RingFrom(m, script).outcome == Quiet
    ensures FreshIn(RingFrom(m, script).mailbox) == {}
    decreases |script|
  {
    var names := FreshOf(script[0].listing.value);
    FreshOfExactly(script[0].listing.value);
    if names == [] {
      assert forall n <- FreshIn(m) :: n in names;
    } else {
      assert script[0] in script;
      if script[0].notice.requested {
        assert forall scan <- script[1..] :: scan in script;
        NothingLeftUnannounced(script[0].notice.after, script[1..]);
      }
    }
  }
}
