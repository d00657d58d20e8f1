/**
 Hook runs of different processes, interleaved at their store calls. A run is a flight over the stores:
 each of its reads, the unlink and the two marker writes are moves of their own, and between two of them
 any other process may move. The runs of one process follow each other.
 */
module HookInterleaving {
  import opened Options
  import opened HookSwitch

  /** How far a run has come: the record is there; it has read its sender marker; the old marker is its own; ... */
  datatype Stage = Registered | Read(previous: Option<string>) | Owns(retiring: string) | Retired | Joined

  datatype Flight = Flight(run: HookRun, garden: string, stage: Stage)

  /** The upsert; it is one exclusive publish or one rename. */
  function Begin(s: Stores, r: HookRun): (Stores, Option<Flight>) {
    match Garden(s, r)
    case None => (s, None)
    case Some(garden) => (s.(records := s.records[r.session := garden]), Some(Flight(r, garden, Registered)))
  }

  /** The next store call of process `pid`. The unlink takes whatever marker is there by then. */
  function Move(s: Stores, f: Flight, pid: nat): (Stores, Option<Flight>) {
    var r := f.run;
    match f.stage
    case Registered => (s, Some(f.(stage := Read(Previous(s, r, pid)))))
    case Read(previous) =>
      var mine := previous.Some? && previous.value in s.receivers && s.receivers[previous.value] == pid;
      (s, Some(f.(stage := if mine && previous.value != f.garden then Owns(previous.value) else Retired)))
    case Owns(previous) =>
      (if r.removeOk then s.(receivers := s.receivers - {previous}) else s, Some(f.(stage := Retired)))
    case Retired =>
      (if r.senderOk then s.(senders := s.senders[pid := f.garden]) else s, Some(f.(stage := Joined)))
    case Joined =>
      var arms := ArmProvenanceFor(r.event).Some? && r.mailboxOk && r.receiverOk;
      (if arms then s.(receivers := s.receivers[f.garden := pid]) else s, None)
  }

  function Rank(stage: Stage): nat {
    match stage
    case Registered => 4
    case Read(_) => 3
    case Owns(_) => 2
    case Retired => 1
    case Joined => 0
  }

  // ---------------------------------------------------------------- undisturbed, a flight is the run

  function Alone(s: Stores, f: Flight, pid: nat): Stores
    decreases Rank(f.stage)
  {
    var (s', f') := Move(s, f, pid);
    if f'.None? then s' else Alone(s', f'.value, pid)
  }

  /** A run whose process is alone with the stores does what the one step of `HookSwitch` says. */
  lemma AloneIsStep(s: Stores, r: HookRun, pid: nat)
    requires r.owner == Some(pid)
    ensures Step(s, r) == var (s', f) := Begin(s, r); if f.None? then s' else Alone(s', f.value, pid)
  {
    var (s1, f1) := Begin(s, r);
    if f1.Some? {
      AloneFromRead(s1, f1.value.(stage := Read(Previous(s1, r, pid))), pid);
      assert Alone(s1, f1.value, pid) == Alone(s1, f1.value.(stage := Read(Previous(s1, r, pid))), pid);
    }
  }

  lemma AloneFromRead(s: Stores, f: Flight, pid: nat)
    requires f.stage == Read(Previous(s, f.run, pid)) && f.run.owner == Some(pid)
    ensures Alone(s, f, pid)
      == var retired := Retire(s, f.run, f.garden, pid);
         var joined := if f.run.senderOk then retired.(senders := retired.senders[pid := f.garden]) else retired;
         Advertise(joined, f.run, f.garden)
  {
    var (s1, f1) := Move(s, f, pid);
    assert Alone(s, f, pid) == Alone(s1, f1.value, pid);
    if f1.value.stage.Owns? {
      var (s2, f2) := Move(s1, f1.value, pid);
      AloneFromRetired(s2, f2.value, pid);
    } else {
      AloneFromRetired(s1, f1.value, pid);
    }
  }

  lemma AloneFromRetired(s: Stores, f: Flight, pid: nat)
    requires f.stage == Retired && f.run.owner == Some(pid)
    ensures Alone(s, f, pid)
      == Advertise(if f.run.senderOk then s.(senders := s.senders[pid := f.garden]) else s, f.run, f.garden)
  {
    var (s1, f1) := Move(s, f, pid);
    assert Alone(s, f, pid) == Alone(s1, f1.value, pid);
    assert ArmProvenanceFor("UserPromptSubmit").None?;
  }

  // ---------------------------------------------------------------- interleaved

  /** The stores, and the run each process is in. */
  datatype Air = Air(stores: Stores, flights: map<nat, Flight>)

  datatype Moment = Upserts(run: HookRun) | Starts(pid: nat, run: HookRun) | Moves(pid: nat)

  /** A process in a run starts no other, and one in none does not move; a run without an owner only upserts. */
  function Next(a: Air, m: Moment): Air {
    match m
    case Upserts(r) => if r.owner.Some? then a else a.(stores := Begin(a.stores, r).0)
    case Starts(pid, r) =>
      if pid in a.flights || r.owner != Some(pid) then a
      else
        var (s, f) := Begin(a.stores, r);
        Air(s, if f.Some? then a.flights[pid := f.value] else a.flights)
    case Moves(pid) =>
      if pid !in a.flights then a
      else
        var (s, f) := Move(a.stores, a.flights[pid], pid);
        Air(s, if f.Some? then a.flights[pid := f.value] else a.flights - {pid})
  }

  /** What a run knows of its own process's markers, whatever the others are doing. */
  predicate Knows(s: Stores, f: Flight, pid: nat) {
    var owned := set g <- s.receivers | s.receivers[g] == pid;
    && f.run.senderOk && f.run.removeOk
    && match f.stage
       case Registered => ArmProvenanceFor(f.run.event).Some? || pid !in s.senders || s.senders[pid] == f.garden
       case Read(previous) => owned <= (if previous.Some? then {previous.value} else {f.garden})
       case Owns(previous) => owned <= {previous}
       case Retired => owned <= {f.garden}
       case Joined => pid in s.senders && s.senders[pid] == f.garden
  }

  predicate Sound(a: Air) {
    Backed(a.stores) && forall pid <- a.flights :: Knows(a.stores, a.flights[pid], pid)
  }

  /** The working assumptions, when a run starts: as for whole runs. */
  predicate Fair(a: Air, m: Moment) { m.Starts? ==> Orderly(a.stores, m.run) }

  /** A move of one process keeps what the others know: it touches no sender marker of theirs and forges no marker. */
  lemma MoveKeepsOthers(s: Stores, f: Flight, pid: nat, other: Flight, q: nat)
    requires Knows(s, other, q) && q != pid
    ensures Knows(Move(s, f, pid).0, other, q)
  {
    var s' := Move(s, f, pid).0;
    assert (set g <- s'.receivers | s'.receivers[g] == q) <= set g <- s.receivers | s.receivers[g] == q;
  }

  lemma MoveKeepsBacked(s: Stores, f: Flight, pid: nat)
    requires Backed(s) && Knows(s, f, pid)
    ensures Backed(Move(s, f, pid).0)
  {
    if f.stage == Retired {
      var owned := set g <- s.receivers | s.receivers[g] == pid;
      forall g | g in s.receivers && s.receivers[g] == pid
        ensures g == f.garden
      {
        assert g in owned;
      }
    }
  }

  lemma MoveKnows(s: Stores, f: Flight, pid: nat)
    requires Backed(s) && Knows(s, f, pid)
    ensures var (s', f') := Move(s, f, pid);
      f'.Some? ==> Knows(s', f'.value, pid)
  {
    var owned := set g <- s.receivers | s.receivers[g] == pid;
    var (s', f') := Move(s, f, pid);
    match f.stage
    case Registered =>
      assert forall g <- owned :: pid in s.senders && s.senders[pid] == g;
    case Owns(previous) =>
      assert (set g <- s'.receivers | s'.receivers[g] == pid) <= owned - {previous};
    case Read(previous) =>
      if f'.value.stage == Retired {
        assert forall g <- owned :: s.receivers[g] == pid;
      }
    case _ =>
  }

  lemma StartKnows(a: Air, pid: nat, r: HookRun)
    requires Sound(a) && Orderly(a.stores, r) && r.owner == Some(pid)
    ensures var (s, f) := Begin(a.stores, r);
      && s.senders == a.stores.senders && s.receivers == a.stores.receivers
      && (f.Some? ==> Knows(s, f.value, pid))
  {
  }

  lemma NextSound(a: Air, m: Moment)
    requires Sound(a) && Fair(a, m)
    ensures Sound(Next(a, m))
  {
    hide Knows, Move, Begin, Orderly;
    match m
    case Upserts(r) =>
      BeginUpserts(a.stores, r);
      AllKnowAnyway(a, Begin(a.stores, r).0);
    case Starts(pid, r) =>
      if pid !in a.flights && r.owner == Some(pid) {
        StartKnows(a, pid, r);
        AllKnowAnyway(a, Begin(a.stores, r).0);
      }
    case Moves(pid) =>
      if pid in a.flights {
        MoveKeepsBacked(a.stores, a.flights[pid], pid);
        MoveKnows(a.stores, a.flights[pid], pid);
        forall q | q in a.flights && q != pid
          ensures Knows(Move(a.stores, a.flights[pid], pid).0, a.flights[q], q)
        {
          MoveKeepsOthers(a.stores, a.flights[pid], pid, a.flights[q], q);
        }
      }
  }

  lemma BeginUpserts(s: Stores, r: HookRun)
    ensures Begin(s, r).0.senders == s.senders && Begin(s, r).0.receivers == s.receivers
  {
  }

  lemma AllKnowAnyway(a: Air, s: Stores)
    requires Sound(a) && s.senders == a.stores.senders && s.receivers == a.stores.receivers
    ensures Backed(s) && forall q <- a.flights :: Knows(s, a.flights[q], q)
  {
    hide Knows;
    forall q | q in a.flights
      ensures Knows(s, a.flights[q], q)
    {
      KnowsAnyway(a.stores, s, a.flights[q], q);
    }
  }

  lemma KnowsAnyway(s: Stores, s': Stores, f: Flight, pid: nat)
    requires Knows(s, f, pid) && s'.senders == s.senders && s'.receivers == s.receivers
    ensures Knows(s', f, pid)
  {
  }

  function After(a: Air, ms: seq<Moment>): Air
    decreases |ms|
  {
    if ms == [] then a else After(Next(a, ms[0]), ms[1..])
  }

  predicate AllFair(a: Air, ms: seq<Moment>)
    decreases |ms|
  {
    ms == [] || (Fair(a, ms[0]) && AllFair(Next(a, ms[0]), ms[1..]))
  }

  /**
   However the store calls of any number of processes interleave, every receiver marker is backed by its
   owner's sender marker at every moment, in the middle of any runs.
   */
  lemma {:induction false} InterleavingsStayBacked(a: Air, ms: seq<Moment>)
    requires Sound(a) && AllFair(a, ms)
    ensures Sound(After(a, ms)) && Backed(After(a, ms).stores)
    decreases |ms|
  {
    hide Next, Knows, Fair;
    if ms != [] {
      NextSound(a, ms[0]);
      InterleavingsStayBacked(Next(a, ms[0]), ms[1..]);
    }
  }

  /** A run without an owner is one moment, whatever runs are under way. */
  lemma OwnerlessIsUpsert(a: Air, r: HookRun)
    requires r.owner.None?
    ensures Next(a, Upserts(r)) == a.(stores := Step(a.stores, r))
  {
  }

  /** The moments of process `pid` alone, from the start of its run until it is over. */
  function Undisturbed(r: HookRun, pid: nat): seq<Moment> {
    [Starts(pid, r), Moves(pid), Moves(pid), Moves(pid), Moves(pid), Moves(pid)]
  }

  /** With no other moment in between, they are the one step, whatever other runs are under way and wait. */
  lemma UndisturbedIsStep(a: Air, r: HookRun, pid: nat)
    requires r.owner == Some(pid) && pid !in a.flights
    ensures After(a, Undisturbed(r, pid)) == a.(stores := Step(a.stores, r))
  {
    hide Step, Move;
    AloneIsStep(a.stores, r, pid);
    var (s, f) := Begin(a.stores, r);
    assert Undisturbed(r, pid)[1..] == seq(5, _ => Moves(pid));
    if f.Some? {
      Lands(a, s, f.value, pid, 5);
    } else {
      Grounded(a, pid, 5);
      assert Begin(a.stores, r).0 == a.stores;
    }
  }

  lemma {:induction false} Grounded(a: Air, pid: nat, n: nat)
    requires pid !in a.flights
    ensures After(a, seq(n, _ => Moves(pid))) == a
    decreases n
  {
    hide Move;
    if n > 0 {
      assert seq(n, _ => Moves(pid))[1..] == seq(n - 1, _ => Moves(pid));
      Grounded(a, pid, n - 1);
    }
  }

  lemma {:induction false} Lands(a: Air, s: Stores, f: Flight, pid: nat, n: nat)
    requires pid !in a.flights && Rank(f.stage) < n
    ensures After(Air(s, a.flights[pid := f]), seq(n, _ => Moves(pid))) == a.(stores := Alone(s, f, pid))
    decreases n
  {
    hide Move;
    assert seq(n, _ => Moves(pid))[1..] == seq(n - 1, _ => Moves(pid));
    var (s', f') := Move(s, f, pid);
    MoveRanks(s, f, pid);
    if f'.Some? {
      assert a.flights[pid := f][pid := f'.value] == a.flights[pid := f'.value];
      Lands(a, s', f'.value, pid, n - 1);
    } else {
      assert a.flights[pid := f] - {pid} == a.flights;
      Grounded(Air(s', a.flights), pid, n - 1);
    }
  }

  lemma MoveRanks(s: Stores, f: Flight, pid: nat)
    ensures var f' := Move(s, f, pid).1;
      f'.Some? ==> Rank(f'.value.stage) < Rank(f.stage)
  {
  }

  // ---------------------------------------------------------------- when a removal takes another's marker

  /** A move takes away a marker another process owns, exactly as the unlink of one that was its own when read. */
  lemma MoveTakesExactly(s: Stores, f: Flight, pid: nat)
    ensures (exists g <- s.receivers :: s.receivers[g] != pid && g !in Move(s, f, pid).0.receivers)
      <==> f.stage.Owns? && f.run.removeOk && f.stage.retiring in s.receivers && s.receivers[f.stage.retiring] != pid
  {
  }

  /** The stores and flights before the `k`-th moment. */
  function At(a: Air, ms: seq<Moment>, k: nat): Air
    requires k <= |ms|
  {
    After(a, ms[..k])
  }

  lemma AtNext(a: Air, ms: seq<Moment>, k: nat)
    requires k < |ms|
    ensures At(a, ms, k + 1) == Next(At(a, ms, k), ms[k])
  {
    hide Next;
    assert ms[..k + 1] == ms[..k] + [ms[k]];
    AfterBoth(a, ms[..k], [ms[k]]);
    var b := At(a, ms, k);
    assert After(b, [ms[k]]) == After(Next(b, ms[k]), []);
  }

  /** The flight a moment moves, if it moves one. */
  function Moving(b: Air, m: Moment): Option<Flight> {
    if m.Moves? && m.pid in b.flights then Some(b.flights[m.pid]) else None
  }

  /** The moment is the unlink of the garden's marker. */
  predicate Unlinks(b: Air, m: Moment, g: string) {
    var f := Moving(b, m);
    f.Some? && f.value.stage == Owns(g) && f.value.run.removeOk
  }

  /** The moment advertises the garden. */
  predicate Advertises(b: Air, m: Moment, g: string) {
    var f := Moving(b, m);
    && f.Some? && f.value.stage == Joined && f.value.garden == g
    && ArmProvenanceFor(f.value.run.event).Some? && f.value.run.mailboxOk && f.value.run.receiverOk
  }

  /** The `k`-th moment takes a marker of another process away. */
  predicate Takes(a: Air, ms: seq<Moment>, k: nat)
    requires k < |ms|
  {
    var b := At(a, ms, k);
    exists g <- b.stores.receivers :: ms[k].Moves? && b.stores.receivers[g] != ms[k].pid
      && g !in Next(b, ms[k]).stores.receivers
  }

  /** The `i`-th moment is the read in which process `pid` finds the garden's marker to be its own. */
  predicate FindsOwn(a: Air, ms: seq<Moment>, i: nat, pid: nat, g: string)
    requires i < |ms|
  {
    var b := At(a, ms, i);
    && ms[i] == Moves(pid) && pid in b.flights && b.flights[pid].stage.Read?
    && pid in Next(b, ms[i]).flights && Next(b, ms[i]).flights[pid].stage == Owns(g)
    && g in b.stores.receivers && b.stores.receivers[g] == pid
  }

  /** Process `pid` makes no move from moment `lo` up to `hi`. */
  predicate Still(ms: seq<Moment>, lo: nat, hi: nat, pid: nat)
    requires hi <= |ms|
  {
    forall k :: lo <= k < hi ==> ms[k] != Moves(pid)
  }

  /** Between `lo` and `hi` another process advertises the garden, and nobody removes that marker again. */
  ghost predicate Usurped(a: Air, ms: seq<Moment>, lo: nat, hi: nat, pid: nat, g: string)
    requires hi <= |ms|
  {
    exists k :: lo <= k < hi && ms[k] != Moves(pid) && Advertises(At(a, ms, k), ms[k], g)
      && forall l :: k < l < hi ==> !Unlinks(At(a, ms, l), ms[l], g)
  }

  /** What a moment of another process does to a garden's marker. */
  lemma MomentOn(b: Air, m: Moment, pid: nat, g: string)
    requires m != Moves(pid)
    ensures var before, after := b.stores.receivers, Next(b, m).stores.receivers;
      if Advertises(b, m, g) then g in after && after[g] == m.pid != pid
      else if Unlinks(b, m, g) then g !in after
      else (g in after <==> g in before) && (g in after ==> after[g] == before[g])
  {
    if m.Upserts? { BeginUpserts(b.stores, m.run); }
  }

  /** From the read on, the marker is another's exactly when the garden has been usurped. */
  lemma {:induction false} OwnershipLost(a: Air, ms: seq<Moment>, i: nat, k: nat, pid: nat, g: string)
    requires i < k <= |ms| && FindsOwn(a, ms, i, pid, g) && Still(ms, i + 1, k, pid)
    ensures var there := At(a, ms, k).stores.receivers;
      (g in there && there[g] != pid) <==> Usurped(a, ms, i + 1, k, pid, g)
    decreases k
  {
    hide Next, Advertises, Unlinks, At;
    if k == i + 1 {
      ReadChangesNothing(a, ms, i, pid, g);
    } else {
      OwnershipLost(a, ms, i, k - 1, pid, g);
      AtNext(a, ms, k - 1);
      MomentOn(At(a, ms, k - 1), ms[k - 1], pid, g);
      UsurpedNext(a, ms, i + 1, k - 1, pid, g);
    }
  }

  lemma ReadChangesNothing(a: Air, ms: seq<Moment>, i: nat, pid: nat, g: string)
    requires i < |ms| && FindsOwn(a, ms, i, pid, g)
    ensures var there := At(a, ms, i + 1).stores.receivers;
      g in there && there[g] == pid
  {
    AtNext(a, ms, i);
  }

  lemma UsurpedNext(a: Air, ms: seq<Moment>, lo: nat, hi: nat, pid: nat, g: string)
    requires lo <= hi < |ms| && ms[hi] != Moves(pid)
    ensures Usurped(a, ms, lo, hi + 1, pid, g)
      <==> (Advertises(At(a, ms, hi), ms[hi], g)
            || (Usurped(a, ms, lo, hi, pid, g) && !Unlinks(At(a, ms, hi), ms[hi], g)))
  {
    hide Advertises, Unlinks, At;
    if Usurped(a, ms, lo, hi, pid, g) && !Unlinks(At(a, ms, hi), ms[hi], g) {
      var k :| lo <= k < hi && ms[k] != Moves(pid) && Advertises(At(a, ms, k), ms[k], g)
        && forall l :: k < l < hi ==> !Unlinks(At(a, ms, l), ms[l], g);
      assert forall l :: k < l < hi + 1 ==> !Unlinks(At(a, ms, l), ms[l], g);
    }
    if Usurped(a, ms, lo, hi + 1, pid, g) && !Advertises(At(a, ms, hi), ms[hi], g) {
      var k :| lo <= k < hi + 1 && ms[k] != Moves(pid) && Advertises(At(a, ms, k), ms[k], g)
        && forall l :: k < l < hi + 1 ==> !Unlinks(At(a, ms, l), ms[l], g);
      assert k < hi;
    }
  }

  /** A flight that holds a garden to retire has found its marker to be its own, and not moved since. */
  lemma {:induction false} HasFoundOwn(a: Air, ms: seq<Moment>, k: nat, pid: nat, g: string) returns (i: nat)
    requires k <= |ms| && a.flights == map[]
    requires pid in At(a, ms, k).flights && At(a, ms, k).flights[pid].stage == Owns(g)
    ensures i < k && FindsOwn(a, ms, i, pid, g) && Still(ms, i + 1, k, pid)
    decreases k
  {
    if k == 0 {
      assert false;
    } else {
      AtNext(a, ms, k - 1);
      if ms[k - 1] == Moves(pid) {
        i := k - 1;
      } else {
        i := HasFoundOwn(a, ms, k - 1, pid, g);
      }
    }
  }

  /** Between a flight's read and its unlink another process has usurped the garden it retires. */
  ghost predicate UsurpedUnlink(a: Air, ms: seq<Moment>, k: nat)
    requires k < |ms|
  {
    exists i: nat, g: string :: i < k && ms[k].Moves? && FindsOwn(a, ms, i, ms[k].pid, g)
      && Still(ms, i + 1, k, ms[k].pid) && Unlinks(At(a, ms, k), ms[k], g)
      && Usurped(a, ms, i + 1, k, ms[k].pid, g)
  }

  /** The moment that takes another's marker is an unlink of a marker read as its own and usurped since. */
  lemma TakesExactly(a: Air, ms: seq<Moment>, k: nat)
    requires k < |ms| && a.flights == map[]
    ensures Takes(a, ms, k) <==> UsurpedUnlink(a, ms, k)
  {
    hide At, Usurped, FindsOwn;
    var b := At(a, ms, k);
    var f := Moving(b, ms[k]);
    if f.Some? {
      var pid := ms[k].pid;
      MoveTakesExactly(b.stores, f.value, pid);
      if f.value.stage.Owns? && f.value.run.removeOk {
        var g := f.value.stage.retiring;
        var i := HasFoundOwn(a, ms, k, pid, g);
        OwnershipLost(a, ms, i, k, pid, g);
        assert Unlinks(b, ms[k], g);
        if UsurpedUnlink(a, ms, k) {
          var i': nat, g': string :| i' < k && FindsOwn(a, ms, i', pid, g') && Still(ms, i' + 1, k, pid)
            && Unlinks(b, ms[k], g') && Usurped(a, ms, i' + 1, k, pid, g');
          OwnershipLost(a, ms, i', k, pid, g');
        }
      }
    }
  }

  /**
   A hook never retires a watch some other pid is holding: over any interleaving, that is kept exactly
   when no process advertises a garden - and keeps it - between another flight's finding the garden's
   marker to be its own and that flight's unlink.
   */
  lemma NoMarkerIsTakenExactly(a: Air, ms: seq<Moment>)
    requires a.flights == map[]
    ensures (forall k :: 0 <= k < |ms| ==> !Takes(a, ms, k))
      <==> (forall k :: 0 <= k < |ms| ==> !UsurpedUnlink(a, ms, k))
  {
    hide Takes, UsurpedUnlink;
    forall k | 0 <= k < |ms|
      ensures Takes(a, ms, k) <==> UsurpedUnlink(a, ms, k)
    {
      TakesExactly(a, ms, k);
    }
  }

  // ---------------------------------------------------------------- such a run

  /** A run of an event that arms, all of whose calls succeed. */
  function Resumes(session: string, pid: nat): HookRun {
    HookRun("SessionStart", session, "transcript", "unused", true, Some(pid), true, true, true, true)
  }

  /** The moments of the race: `p` leaves `g` and has read that the marker is its own; `q` resumes `g`; `p` goes on. */
  function Race(p: nat, q: nat, left: string, resumed: string): seq<Moment> {
    [Starts(p, Resumes(resumed, p)), Moves(p), Moves(p)]
    + [Starts(q, Resumes(left, q)), Moves(q), Moves(q), Moves(q), Moves(q)]
    + [Moves(p), Moves(p), Moves(p)]
  }

  lemma {:induction false} AfterBoth(a: Air, ms: seq<Moment>, more: seq<Moment>)
    ensures After(a, ms + more) == After(After(a, ms), more)
    decreases |ms|
  {
    if ms == [] {
      assert ms + more == more;
    } else {
      assert (ms + more)[1..] == ms[1..] + more;
      AfterBoth(Next(a, ms[0]), ms[1..], more);
    }
  }

  lemma AfterThree(a: Air, m0: Moment, m1: Moment, m2: Moment)
    ensures After(a, [m0, m1, m2]) == Next(Next(Next(a, m0), m1), m2)
  {
    hide Next;
    assert [m0, m1, m2][1..] == [m1, m2] && [m1, m2][1..] == [m2] && [m2][1..] == [];
    assert After(Next(a, m0), [m1, m2]) == After(Next(Next(a, m0), m1), [m2]);
  }

  lemma AfterFive(a: Air, m0: Moment, m1: Moment, m2: Moment, m3: Moment, m4: Moment)
    ensures After(a, [m0, m1, m2, m3, m4]) == Next(Next(Next(Next(Next(a, m0), m1), m2), m3), m4)
  {
    hide Next;
    assert [m0, m1, m2, m3, m4] == [m0, m1, m2] + [m3, m4];
    AfterBoth(a, [m0, m1, m2], [m3, m4]);
    AfterThree(a, m0, m1, m2);
    assert [m3, m4][1..] == [m4] && [m4][1..] == [];
    var b := After(a, [m0, m1, m2]);
    assert After(b, [m3, m4]) == After(Next(b, m3), [m4]);
  }

  /** `p` serves `g`, alone with its marker, and `h` is another session's garden; `q` serves nothing yet. */
  predicate Served(s: Stores, p: nat, q: nat, left: string, resumed: string, g: string, h: string) {
    && p != q && g != h && left != "" && resumed != ""
    && left in s.records && s.records[left] == g && resumed in s.records && s.records[resumed] == h
    && p in s.senders && s.senders[p] == g && g in s.receivers && s.receivers[g] == p && q !in s.senders
  }

  /** The first three moments. */
  lemma Leaves(s: Stores, p: nat, q: nat, left: string, resumed: string, g: string, h: string)
    requires Served(s, p, q, left, resumed, g, h)
    ensures var a := After(Air(s, map[]), [Starts(p, Resumes(resumed, p)), Moves(p), Moves(p)]);
      a == Air(s, map[p := Flight(Resumes(resumed, p), h, Owns(g))])
  {
    AfterThree(Air(s, map[]), Starts(p, Resumes(resumed, p)), Moves(p), Moves(p));
    assert s.records[resumed := h] == s.records;
  }

  /** The five moments of `q` between them. */
  lemma Resumed(s: Stores, p: nat, q: nat, left: string, resumed: string, g: string, h: string)
    requires Served(s, p, q, left, resumed, g, h)
    ensures var f := Flight(Resumes(resumed, p), h, Owns(g));
      var a := After(Air(s, map[p := f]), [Starts(q, Resumes(left, q)), Moves(q), Moves(q), Moves(q), Moves(q)]);
      a == Air(s.(senders := s.senders[q := g], receivers := s.receivers[g := q]), map[p := f])
  {
    hide After;
    var f, r := Flight(Resumes(resumed, p), h, Owns(g)), Resumes(left, q);
    AfterFive(Air(s, map[p := f]), Starts(q, r), Moves(q), Moves(q), Moves(q), Moves(q));
    assert s.records[left := g] == s.records;
    var a1 := Next(Air(s, map[p := f]), Starts(q, r));
    assert a1 == Air(s, map[p := f, q := Flight(r, g, Registered)]);
    var a2 := Next(a1, Moves(q));
    assert a2 == Air(s, map[p := f, q := Flight(r, g, Read(None))]);
    var a3 := Next(a2, Moves(q));
    assert a3 == Air(s, map[p := f, q := Flight(r, g, Retired)]);
    var a4 := Next(a3, Moves(q));
    assert a4 == Air(s.(senders := s.senders[q := g]), map[p := f, q := Flight(r, g, Joined)]);
  }

  /**
   Between the read and the unlink of a removal another process may advertise the garden. The unlink then
   takes its marker: `q` has resumed the session, every call succeeded, and nobody advertises it.
   */
  lemma UnlinkRace(s: Stores, p: nat, q: nat, left: string, resumed: string, g: string, h: string)
    requires Served(s, p, q, left, resumed, g, h)
    ensures var end := After(Air(s, map[]), Race(p, q, left, resumed));
      && end.flights == map[]
      && end.stores == s.(senders := s.senders[q := g][p := h], receivers := (s.receivers - {g})[h := p])
  {
    hide Next;
    var first, second := [Starts(p, Resumes(resumed, p)), Moves(p), Moves(p)],
                         [Starts(q, Resumes(left, q)), Moves(q), Moves(q), Moves(q), Moves(q)];
    Leaves(s, p, q, left, resumed, g, h);
    Resumed(s, p, q, left, resumed, g, h);
    AfterBoth(Air(s, map[]), first, second);
    AfterBoth(Air(s, map[]), first + second, [Moves(p), Moves(p), Moves(p)]);
    GoesOn(s.(senders := s.senders[q := g], receivers := s.receivers[g := q]), p, resumed, g, h);
    assert s.receivers[g := q] - {g} == s.receivers - {g};
  }

  lemma AloneInTheAir(s: Stores, f: Flight, p: nat)
    ensures var (s', f') := Move(s, f, p);
      Next(Air(s, map[p := f]), Moves(p)) == Air(s', if f'.Some? then map[p := f'.value] else map[])
  {
    hide Move;
    assert map[p := f] - {p} == map[];
  }

  /** The last three moments. */
  lemma GoesOn(s: Stores, p: nat, resumed: string, g: string, h: string)
    ensures After(Air(s, map[p := Flight(Resumes(resumed, p), h, Owns(g))]), [Moves(p), Moves(p), Moves(p)])
         == Air(s.(senders := s.senders[p := h], receivers := (s.receivers - {g})[h := p]), map[])
  {
    hide After, Next;
    var r := Resumes(resumed, p);
    AfterThree(Air(s, map[p := Flight(r, h, Owns(g))]), Moves(p), Moves(p), Moves(p));
    AloneInTheAir(s, Flight(r, h, Owns(g)), p);
    var s1 := s.(receivers := s.receivers - {g});
    AloneInTheAir(s1, Flight(r, h, Retired), p);
    AloneInTheAir(s1.(senders := s1.senders[p := h]), Flight(r, h, Joined), p);
  }
}
