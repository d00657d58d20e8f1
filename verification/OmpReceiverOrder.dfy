/**
 Birth and receiver on the same edge. The vendor runs the two handlers in either order; the retry
 makes the order not matter, as long as birth is done before the last tick.
 */
module OmpReceiverOrder {
  import opened Options
  import opened OmpMailbox
  import opened OmpDoorbell
  import opened OmpReceiver
  import opened OmpReceiverSafety
  import opened OmpReceiverRetry

  // ---------------------------------------------------------------- birth, on the shared stores

  /** The id `upsertMetaSession` answers: that of the record naming the session, else one no record has. */
  ghost predicate Upserts(records: map<string, Identity>, native: string, garden: string) {
    if exists g <- records :: records[g] == Identity(BACKEND, native)
    then garden in records && records[garden] == Identity(BACKEND, native)
    else garden !in records
  }

  ghost predicate OneGardenPerSession(records: map<string, Identity>) {
    forall g, h :: g in records && h in records && records[g] == records[h] ==> g == h
  }

  /** A sender marker names the garden its session's record has. */
  predicate Backed(s: Stores) {
    forall pid <- s.senders ::
      var m := s.senders[pid];
      m.garden in s.records && s.records[m.garden] == Identity(BACKEND, m.native)
  }

  lemma BirthKeepsIdentity(s: Stores, pid: nat, native: string, garden: string)
    requires Upserts(s.records, native, garden) && OneGardenPerSession(s.records) && Backed(s)
    ensures var s' := Born(s, pid, native, garden);
      && OneGardenPerSession(s'.records) && Backed(s') && HostedBy(s', pid, native, garden)
      && (forall g <- s.records :: g in s'.records && s'.records[g] == s.records[g])
  {
  }

  // ---------------------------------------------------------------- an attempt that meets a born session

  /** The vendor reports this session, and the file system does its part. */
  predicate Fine(env: ArmEnv, native: string) {
    && env.canRing && env.native == Some(native) && native != "" && env.recordOk
    && env.mailboxOk && env.signalOk && env.watch.Some? && env.markerOk
  }

  lemma HostedPublishes(s: Stores, pid: nat, native: string, garden: string, env: ArmEnv)
    requires pid > 1 && HostedBy(s, pid, native, garden) && Fine(env, native)
    ensures Published(s, pid, env) == Some(garden)
  {
  }

  /** The session is not this process's citizen yet. */
  predicate NotYet(s: Stores, pid: nat, native: string) { pid in s.senders ==> s.senders[pid].native != native }

  /** What one retry tick before birth meets: any stores without this session's marker, any answers. */
  datatype Wait = Wait(stores: Stores, env: ArmEnv)

  predicate Waiting(wait: Wait, pid: nat, native: string) {
    && NotYet(wait.stores, pid, native) && wait.env.canRing
    && (wait.env.native.None? || wait.env.native.value == "" || wait.env.native.value == native)
  }

  lemma UnbornDefers(s: Stores, p: Proc, pid: nat, native: string, env: ArmEnv)
    requires Waiting(Wait(s, env), pid, native)
    ensures TryArm(s, p, pid, env) == Attempt(s, p, Deferred)
  {
  }

  // ---------------------------------------------------------------- the two orders

  /** The receiver's handler on the edge; all its clears and removals succeed. */
  function AtEdge(s: Stores, p: Proc, pid: nat, timer: Timer, env: ArmEnv, look: Look): Proc {
    Handle(s, p, Edge(pid, HOST_MODE, timer.ctx, true, env, Surface(Some(timer.id)), look, SMOOTHLY)).1
  }

  function Ticked(s: Stores, p: Proc, pid: nat, timer: Timer, env: ArmEnv, look: Look): Proc {
    Handle(s, p, Event.Tick(pid, timer, true, env, look, SMOOTHLY)).1
  }

  function Waited(p: Proc, pid: nat, timer: Timer, waits: seq<Wait>): Proc
    decreases |waits|
  {
    if waits == [] then p
    else Waited(Ticked(waits[0].stores, p, pid, timer, waits[0].env, NO_LOOK), pid, timer, waits[1..])
  }

  /** Birth's handler, then the receiver's. */
  function BirthFirst(s: Stores, p: Proc, pid: nat, native: string, garden: string, timer: Timer, env: ArmEnv,
      look: Look): Proc
  {
    AtEdge(Born(s, pid, native, garden), p, pid, timer, env, look)
  }

  /** The receiver's handler, some retry ticks, then birth over the stores as they are by then, and one more tick. */
  function ReceiverFirst(s: Stores, p: Proc, pid: nat, native: string, garden: string, timer: Timer, env: ArmEnv,
      look: Look, waits: seq<Wait>, later: Stores, last: ArmEnv): Proc
  {
    var waited := Waited(AtEdge(s, p, pid, timer, env, look), pid, timer, waits);
    Ticked(Born(later, pid, native, garden), waited, pid, timer, last, look)
  }

  predicate Retrying(p: Proc, timer: Timer) {
    p.armed.None? && p.retryCancel == Some(timer) && p.timers == {timer}
  }

  lemma {:induction false} WaitsCount(p: Proc, pid: nat, native: string, timer: Timer, waits: seq<Wait>)
    requires Retrying(p, timer) && p.retryTicks < MAX_TICKS && forall w <- waits :: Waiting(w, pid, native)
    ensures var q := Waited(p, pid, timer, waits);
      if p.retryTicks + |waits| < MAX_TICKS
      then Retrying(q, timer) && q.retryTicks == p.retryTicks + |waits|
      else q.armed.None? && q.timers == {}
    decreases |waits|
  {
    hide TryArm;
    if waits != [] {
      var w := waits[0];
      UnbornDefers(w.stores, p.(retryTicks := p.retryTicks + 1), pid, native, w.env);
      var q := Ticked(w.stores, p, pid, timer, w.env, NO_LOOK);
      if q.retryTicks < MAX_TICKS {
        WaitsCount(q, pid, native, timer, waits[1..]);
      } else {
        SettledStays(q, pid, timer, waits[1..]);
      }
    }
  }

  /** Without its timer a process takes no tick. */
  lemma {:induction false} SettledStays(p: Proc, pid: nat, timer: Timer, waits: seq<Wait>)
    requires p.timers == {}
    ensures Waited(p, pid, timer, waits) == p
    decreases |waits|
  {
    if waits != [] {
      SettledStays(p, pid, timer, waits[1..]);
    }
  }

  /** What the edge has made of process and stores when it comes to its attempt. */
  lemma Cleared(s: Stores, p: Proc, pid: nat)
    requires Tidy(p)
    ensures var (s', p') := Unarm(s, CancelRetry(p, true), pid, SMOOTHLY);
      s'.senders == s.senders && s'.records == s.records && s' == s.(receivers := s'.receivers)
      && p'.armed.None? && p'.timers == {} && p'.retryCancel.None?
  {
    hide Unarm;
    TidyTimers(p);
    UnarmMeans(s, CancelRetry(p, true), pid, SMOOTHLY);
  }

  lemma EdgeOnHosted(s: Stores, p: Proc, pid: nat, native: string, garden: string, timer: Timer,
                     env: ArmEnv, look: Look)
    requires pid > 1 && Tidy(p) && HostedBy(s, pid, native, garden) && Fine(env, native)
    ensures var q := AtEdge(s, p, pid, timer, env, look);
      ArmedFor(q, garden) && q.timers == {}
  {
    hide TryArm, Unarm, Fine, StartRing, StartVanishes;
    Cleared(s, p, pid);
    var (s1, p1) := Unarm(s, CancelRetry(p, true), pid, SMOOTHLY);
    var p2 := p1.(retryTicks := 0);
    HostedPublishes(s1, pid, native, garden, env);
    AttemptMeans(s1, p2, pid, env);
    var t := TryArm(s1, p2, pid, env);
    ArmedRingStays(s1, p2, pid, garden, env, t.stores, t.proc);
    StartMeans(t.stores, t.proc, pid, false, look, SMOOTHLY);
  }

  lemma EdgeOnUnborn(s: Stores, p: Proc, pid: nat, native: string, timer: Timer, env: ArmEnv, look: Look)
    requires Tidy(p) && Waiting(Wait(s, env), pid, native)
    ensures var q := AtEdge(s, p, pid, timer, env, look);
      Retrying(q, timer) && q.retryTicks == 0
  {
    hide TryArm, Unarm;
    Cleared(s, p, pid);
    var (s1, p1) := Unarm(s, CancelRetry(p, true), pid, SMOOTHLY);
    UnbornDefers(s1, p1.(retryTicks := 0), pid, native, env);
  }

  lemma TickOnHosted(s: Stores, p: Proc, pid: nat, native: string, garden: string, timer: Timer,
                     env: ArmEnv, look: Look)
    requires pid > 1 && HostedBy(s, pid, native, garden) && Fine(env, native) && timer in p.timers
    ensures ArmedFor(Ticked(s, p, pid, timer, env, look), garden)
  {
    hide TryArm, Fine, StartRing, StartVanishes;
    var p1 := p.(retryTicks := p.retryTicks + 1);
    HostedPublishes(s, pid, native, garden, env);
    AttemptMeans(s, p1, pid, env);
    var t := TryArm(s, p1, pid, env);
    ArmedRingStays(s, p1, pid, garden, env, t.stores, t.proc);
    StartMeans(t.stores, t.proc, pid, true, look, SMOOTHLY);
    CancelMeans(StartRing(t.stores, t.proc, pid, true, look, SMOOTHLY).1, true);
  }

  /**
   Whichever handler the vendor runs first, the process ends armed for the garden birth gave its
   session. When the receiver ran first, that holds exactly if birth was done within the 40 ticks, or
   the session was this process's citizen all along.
   */
  lemma OrdersAgree(s: Stores, p: Proc, pid: nat, native: string, garden: string, timer: Timer, env: ArmEnv, look: Look,
      waits: seq<Wait>, later: Stores, last: ArmEnv)
    requires pid > 1 && Tidy(p) && Fine(env, native) && Fine(last, native)
    requires Backed(s) && OneGardenPerSession(s.records) && Upserts(s.records, native, garden)
    requires forall w <- waits :: Waiting(w, pid, native)
    ensures ArmedFor(BirthFirst(s, p, pid, native, garden, timer, env, look), garden)
    ensures var q := ReceiverFirst(s, p, pid, native, garden, timer, env, look, waits, later, last);
      && (ArmedFor(q, garden) <==> |waits| < MAX_TICKS || HostedBy(s, pid, native, garden))
      && (!ArmedFor(q, garden) ==> q.armed.None?)
  {
    hide OnEdge, TryArm, Fine, AtEdge, OnTick;
    EdgeOnHosted(Born(s, pid, native, garden), p, pid, native, garden, timer, env, look);
    var edge := AtEdge(s, p, pid, timer, env, look);
    if NotYet(s, pid, native) {
      FineWaits(s, pid, native, env);
      EdgeOnUnborn(s, p, pid, native, timer, env, look);
      WaitsCount(edge, pid, native, timer, waits);
      var q := Waited(edge, pid, timer, waits);
      if |waits| < MAX_TICKS {
        TickOnHosted(Born(later, pid, native, garden), q, pid, native, garden, timer, last, look);
      }
    } else {
      assert HostedBy(s, pid, native, s.senders[pid].garden);
      EdgeOnHosted(s, p, pid, native, garden, timer, env, look);
      SettledStays(edge, pid, timer, waits);
    }
  }

  lemma FineWaits(s: Stores, pid: nat, native: string, env: ArmEnv)
    requires Fine(env, native) && NotYet(s, pid, native)
    ensures Waiting(Wait(s, env), pid, native)
  {
  }
}
