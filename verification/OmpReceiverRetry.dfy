/**
 The bounded retry. While no clear throws there is one live timer at most and it costs 40 ticks an edge;
 one clear that throws leaves a timer nothing can stop, and what follows from that. And a retry started
 inside the startup ring of a retry tick, which that tick clears.
 */
module OmpReceiverRetry {
  import opened Options
  import opened OmpMailbox
  import opened OmpDoorbell
  import opened OmpReceiver
  import opened OmpReceiverSafety
  import opened OmpReceiverRings

  // ---------------------------------------------------------------- live timers and who may clear them

  /** The stored timer is live; it waits while nothing is armed, or for its tick's ring to be over. */
  predicate Paced(p: Proc) {
    p.retryCancel.Some? ==>
      && p.retryCancel.value in p.timers
      && (Closing(p) || (p.armed.None? && p.retryTicks < MAX_TICKS))
  }

  /** Live timers that no field of the receiver names any more. */
  function Orphans(p: Proc): set<Timer> {
    p.timers - (if p.retryCancel.Some? then {p.retryCancel.value} else {})
  }

  /** At most one timer is live, the stored one. */
  predicate Tidy(p: Proc) { Paced(p) && Orphans(p) == {} }

  lemma TidyTimers(p: Proc)
    requires Tidy(p)
    ensures p.timers == if p.retryCancel.Some? then {p.retryCancel.value} else {}
  {
    assert forall t <- p.timers :: t in Orphans(p) || p.retryCancel == Some(t);
  }

  /** A context hands out a new timer. */
  predicate NewTimer(p: Proc, e: Event) {
    e.Edge? && e.surface.Surface? && e.surface.handle.Some? ==> Timer(e.ctx, e.surface.handle.value) !in p.timers
  }

  /** A timer does not fire inside a call, here: inside a notice. */
  predicate TimersWait(p: Proc, e: Event) { e.Tick? ==> p.ringing.None? }

  /** The handler comes to clear the stored timer. */
  predicate WantsClear(s: Stores, p: Proc, e: Event) {
    && p.retryCancel.Some?
    && match e
       case Edge(_, mode, _, _, _, _, _, _) => mode == HOST_MODE
       case Tick(pid, timer, _, env, _, _) => timer in p.timers &&
         (match TryArm(s, p.(retryTicks := p.retryTicks + 1), pid, env).tried
          case Deferred => p.retryTicks + 1 >= MAX_TICKS
          case Declined => true
          case NowArmed => p.ringing.Some? || Handle(s, p, e).1.ringing.None?)
       case Resumes(_, _, _, _, _) => Closing(p) && Handle(s, p, e).1.ringing.None?
       case _ => false
  }

  predicate ClearOk(e: Event) { (e.Edge? || e.Tick? || e.Resumes?) ==> e.cancelOk }

  /** The timers a handler leaves without an owner. */
  function Thrown(s: Stores, p: Proc, e: Event): set<Timer> {
    if WantsClear(s, p, e) && !ClearOk(e) then {p.retryCancel.value} else {}
  }

  lemma CancelOrphans(p: Proc, cancelOk: bool)
    requires Paced(p)
    ensures var p' := CancelRetry(p, cancelOk);
      && p'.timers == Orphans(p) + (if p.retryCancel.Some? && !cancelOk then {p.retryCancel.value} else {})
      && p'.retryCancel.None? && p'.armed == p.armed && p'.ringing == p.ringing
  {
  }

  lemma StartOrphans(p: Proc, ctx: nat, surface: TimerSurface)
    requires p.retryCancel.None?
    requires surface.Surface? && surface.handle.Some? ==> Timer(ctx, surface.handle.value) !in p.timers
    ensures var p' := StartRetry(p, ctx, surface);
      && Orphans(p') == p.timers && (p'.retryCancel.Some? ==> p'.retryCancel.value in p'.timers)
      && p'.retryTicks == p.retryTicks && p'.armed == p.armed && p'.ringing == p.ringing
  {
  }

  lemma EdgeOrphans(s: Stores, p: Proc, e: Event)
    requires e.Edge? && Paced(p) && NewTimer(p, e)
    ensures var p' := Handle(s, p, e).1;
      Paced(p') && Orphans(p') == Orphans(p) + Thrown(s, p, e)
    ensures if e.mode == HOST_MODE then Handle(s, p, e).1.retryTicks == 0 else Handle(s, p, e) == (s, p)
  {
    hide TryArm, Unarm, StartRing, CancelRetry, StartRetry, BecomesArmed;
    if e.mode != HOST_MODE { return; }
    var cancelled := CancelRetry(p, e.cancelOk);
    CancelOrphans(p, e.cancelOk);
    UnarmMeans(s, cancelled, e.pid, e.give);
    var (s1, p1) := Unarm(s, cancelled, e.pid, e.give);
    AttemptMeans(s1, p1.(retryTicks := 0), e.pid, e.env);
    var t := TryArm(s1, p1.(retryTicks := 0), e.pid, e.env);
    StartMeans(t.stores, t.proc, e.pid, false, e.look, e.give);
    assert cancelled.timers <= p.timers;
    StartOrphans(t.proc, e.ctx, e.surface);
  }

  lemma TickOrphans(s: Stores, p: Proc, e: Event)
    requires e.Tick? && Paced(p) && e.timer in p.timers
    ensures var p' := Handle(s, p, e).1;
      && Paced(p') && Orphans(p') == Orphans(p) + Thrown(s, p, e)
      && (p'.retryCancel.Some? && !Closing(p') ==> p'.retryTicks == p.retryTicks + 1 && p'.retryCancel == p.retryCancel)
      && (p'.retryCancel.Some? ==> p.retryCancel.Some?)
  {
    hide TryArm, StartRing;
    var p1 := p.(retryTicks := p.retryTicks + 1);
    AttemptMeans(s, p1, e.pid, e.env);
    var t := TryArm(s, p1, e.pid, e.env);
    StartMeans(t.stores, t.proc, e.pid, true, e.look, e.give);
    var p' := Handle(s, p, e).1;
    if WantsClear(s, p, e) {
      assert p'.retryCancel.None?;
    } else {
      assert p'.timers == p.timers && p'.retryCancel == p.retryCancel;
    }
  }

  lemma ResumeOrphans(s: Stores, p: Proc, e: Event)
    requires e.Resumes? && Paced(p)
    ensures var p' := Handle(s, p, e).1;
      && Paced(p') && Orphans(p') == Orphans(p) + Thrown(s, p, e) && p'.retryTicks == p.retryTicks
      && p'.retryCancel == (if Closing(p) && p'.ringing.None? then None else p.retryCancel)
      && (p'.ringing.Some? ==> Closing(p') == Closing(p))
  {
    hide ResumeRing, Unarm;
    ResumeMeans(s, p, e.pid, e.threw, e.look, e.give);
    UnarmMeans(s, p, e.pid, e.give);
  }

  lemma QuietHandler(s: Stores, p: Proc, e: Event)
    requires e.Signal? || e.WatchError? || e.Exit?
    ensures var p' := Handle(s, p, e).1;
      && SameRetry(p, p') && Closing(p') == Closing(p) && (p.armed.None? ==> p'.armed.None?)
      && (p.ringing.Some? ==> p'.ringing.Some?)
  {
    hide StartRing, Unarm;
    match e
    case Signal(pid, look, give) =>
      StartMeans(s, p, pid, false, look, give);
      UnarmMeans(s, p, pid, give);
    case WatchError(pid, give) => UnarmMeans(s, p, pid, give);
    case Exit(pid, give) => UnarmMeans(s, p, pid, give);
  }

  /** Timers are orphaned by throwing clears, one each, and by nothing else; no orphan is ever cleared. */
  lemma OrphansAreThrownClears(s: Stores, p: Proc, e: Event)
    requires !e.Outside? && Paced(p) && NewTimer(p, e)
    ensures var p' := Handle(s, p, e).1;
      Paced(p') && Orphans(p') == Orphans(p) + Thrown(s, p, e)
  {
    hide OnEdge, OnTick, OnResume, StartRing, Unarm, TryArm;
    match e
    case Edge(_, _, _, _, _, _, _, _) => EdgeOrphans(s, p, e);
    case Tick(_, timer, _, _, _, _) => if timer in p.timers { TickOrphans(s, p, e); }
    case Resumes(_, _, _, _, _) => ResumeOrphans(s, p, e);
    case _ => QuietHandler(s, p, e);
  }

  // ---------------------------------------------------------------- over runs

  /** Process `pid` is handed new timers and does not exit. */
  predicate Lives(w: World, es: seq<Event>, pid: nat)
    decreases |es|
  {
    && pid in w.procs
    && (es == [] ||
        ((!es[0].Outside? && es[0].pid == pid ==> !es[0].Exit? && NewTimer(w.procs[pid], es[0]))
         && Lives(Step(w, es[0]), es[1..], pid)))
  }

  /** The timers whose clear throws in the course of a run. */
  function ThrownIn(w: World, es: seq<Event>, pid: nat): set<Timer>
    decreases |es|
  {
    if es == [] then {}
    else
      (if !es[0].Outside? && es[0].pid == pid && pid in w.procs then Thrown(w.stores, w.procs[pid], es[0]) else {})
      + ThrownIn(Step(w, es[0]), es[1..], pid)
  }

  /** Over a whole run the orphans at the end are those at the start and the timers whose clear threw. */
  lemma {:induction false} OrphansOverRuns(w: World, es: seq<Event>, pid: nat)
    requires Lives(w, es, pid) && Paced(w.procs[pid])
    ensures pid in Run(w, es).procs && Paced(Run(w, es).procs[pid])
    ensures Orphans(Run(w, es).procs[pid]) == Orphans(w.procs[pid]) + ThrownIn(w, es, pid)
    decreases |es|
  {
    hide Handle, Thrown, Orphans, NewTimer;
    if es != [] {
      if !es[0].Outside? && es[0].pid == pid { OrphansAreThrownClears(w.stores, w.procs[pid], es[0]); }
      OrphansOverRuns(Step(w, es[0]), es[1..], pid);
    }
  }

  predicate TidyAt(w: World, pid: nat) { pid in w.procs ==> Tidy(w.procs[pid]) }

  predicate AllTidy(w: World) { forall pid <- w.procs :: TidyAt(w, pid) }

  /** Nothing is amiss with the timers in this event: new ones are new, none fires in a notice, no clear throws. */
  predicate Calm(w: World, e: Event) {
    !e.Outside? && e.pid in w.procs ==>
      var p := w.procs[e.pid];
      NewTimer(p, e) && TimersWait(p, e) && Thrown(w.stores, p, e) == {}
  }

  predicate AllCalm(w: World, es: seq<Event>)
    decreases |es|
  {
    es == [] || (Calm(w, es[0]) && AllCalm(Step(w, es[0]), es[1..]))
  }

  lemma StepTidies(w: World, e: Event, pid: nat)
    requires TidyAt(w, pid) && Calm(w, e)
    ensures TidyAt(Step(w, e), pid)
  {
    hide Handle, Thrown, Orphans, Paced;
    if !e.Outside? && e.pid == pid && pid in w.procs {
      OrphansAreThrownClears(w.stores, w.procs[pid], e);
    }
  }

  lemma AllStepTidies(w: World, e: Event)
    requires AllTidy(w) && Calm(w, e)
    ensures AllTidy(Step(w, e))
  {
    hide Handle, Tidy, Calm;
    forall pid | pid in Step(w, e).procs
      ensures TidyAt(Step(w, e), pid)
    {
      assert pid in w.procs;
      StepTidies(w, e, pid);
    }
  }

  lemma TidyNeverClashes(w: World, e: Event)
    requires AllTidy(w) && Calm(w, e)
    ensures !Clashes(w, e)
  {
    hide Published, Thrown;
    if !e.Outside? && e.pid in w.procs {
      assert TidyAt(w, e.pid);
      TidyTimers(w.procs[e.pid]);
    }
  }

  /**
   While no clear throws, no tick ever meets an armed process, so marker and watch agree after every
   handler of every run; one retry timer at most is live in a process, and while it is armed none is but
   the one a tick has still to clear after its startup ring.
   */
  lemma {:induction false} RunsStayCoherent(w: World, es: seq<Event>)
    requires AllTidy(w) && AllAgreed(w) && AllOrderly(w, es) && AllCalm(w, es)
    ensures NeverClashes(w, es) && AlwaysAgreed(w, es)
    ensures AllTidy(Run(w, es)) && Coherent(Run(w, es))
    decreases |es|
  {
    hide Step, TidyAt, AllAgreed, Clashes, Orderly, Coherent, Calm;
    if es != [] {
      AllStepTidies(w, es[0]);
      TidyNeverClashes(w, es[0]);
      StepAgreesExactly(w, es[0]);
      RunsStayCoherent(Step(w, es[0]), es[1..]);
    } else {
      AgreedIsCoherent(w);
    }
  }

  // ---------------------------------------------------------------- ticks

  predicate TakesTick(w: World, e: Event, pid: nat) {
    e.Tick? && e.pid == pid && pid in w.procs && e.timer in w.procs[pid].timers
  }

  predicate TuiEdge(e: Event, pid: nat) { e.Edge? && e.pid == pid && e.mode == HOST_MODE }

  function Ticks(w: World, es: seq<Event>, pid: nat): nat
    decreases |es|
  {
    if es == [] then 0 else (if TakesTick(w, es[0], pid) then 1 else 0) + Ticks(Step(w, es[0]), es[1..], pid)
  }

  function Edges(es: seq<Event>, pid: nat): nat
    decreases |es|
  {
    if es == [] then 0 else (if TuiEdge(es[0], pid) then 1 else 0) + Edges(es[1..], pid)
  }

  /** Ticks the live retry can still take. */
  function Left(w: World, pid: nat): nat
    requires TidyAt(w, pid)
  {
    if pid in w.procs && w.procs[pid].retryCancel.Some? && !Closing(w.procs[pid])
    then MAX_TICKS - w.procs[pid].retryTicks else 0
  }

  lemma TickSpends(w: World, e: Event, pid: nat)
    requires TidyAt(w, pid) && Calm(w, e) && TidyAt(Step(w, e), pid)
    ensures (if TakesTick(w, e, pid) then 1 else 0) + Left(Step(w, e), pid)
         <= Left(w, pid) + MAX_TICKS * (if TuiEdge(e, pid) then 1 else 0)
  {
    hide OnEdge, OnTick, OnResume, StartRing, Unarm, Thrown;
    if !e.Outside? && e.pid == pid && pid in w.procs {
      var p := w.procs[pid];
      TidyTimers(p);
      match e
      case Edge(_, _, _, _, _, _, _, _) => EdgeOrphans(w.stores, p, e);
      case Tick(_, _, _, _, _, _) => if e.timer in p.timers { TickOrphans(w.stores, p, e); }
      case Resumes(_, _, _, _, _) => ResumeOrphans(w.stores, p, e);
      case _ => QuietHandler(w.stores, p, e);
    }
  }

  /**
   While no clear throws, and whatever else fails and runs inside notices, a process takes at most 40
   retry ticks per tui edge.
   */
  lemma {:induction false} TicksAreBounded(w: World, es: seq<Event>, pid: nat)
    requires TidyAt(w, pid) && AllCalm(w, es)
    ensures Ticks(w, es, pid) <= Left(w, pid) + MAX_TICKS * Edges(es, pid)
    decreases |es|
  {
    hide Step, Calm;
    if es != [] {
      StepTidies(w, es[0], pid);
      TickSpends(w, es[0], pid);
      TicksAreBounded(Step(w, es[0]), es[1..], pid);
    }
  }

  // ---------------------------------------------------------------- a clear that throws

  /** What a tick meets before its session is born: no session id. */
  const UNBORN := ArmEnv(true, None, false, false, false, None, false, false)

  const NO_LOOK := Look(None, 0, false)

  const SMOOTHLY := Give(true, true)

  function UnbornTick(pid: nat, timer: Timer): Event { Tick(pid, timer, true, UNBORN, NO_LOOK, SMOOTHLY) }

  function TickTimes(pid: nat, timer: Timer, n: nat): seq<Event> {
    seq(n, _ => UnbornTick(pid, timer))
  }

  lemma {:induction false} OrphanTicks(w: World, pid: nat, timer: Timer, n: nat)
    requires pid in w.procs && timer in Orphans(w.procs[pid]) && w.procs[pid].ringing.None?
    ensures Ticks(w, TickTimes(pid, timer, n), pid) == n && AllCalm(w, TickTimes(pid, timer, n))
    ensures forall e <- TickTimes(pid, timer, n) :: e == UnbornTick(pid, timer)
    decreases n
  {
    if n > 0 {
      var es := TickTimes(pid, timer, n);
      assert es[1..] == TickTimes(pid, timer, n - 1);
      OrphanTicks(Step(w, es[0]), pid, timer, n - 1);
    }
  }

  lemma {:induction false} NoEdges(es: seq<Event>, pid: nat)
    requires forall e <- es :: !e.Edge?
    ensures Edges(es, pid) == 0
    decreases |es|
  {
    if es != [] {
      assert es[0] in es && forall e <- es[1..] :: e in es;
      NoEdges(es[1..], pid);
    }
  }

  /** Some run without another edge, and without another throwing clear, takes more than `n` ticks. */
  ghost predicate Exceeds(w: World, pid: nat, n: nat) {
    exists es: seq<Event> :: AllCalm(w, es) && Edges(es, pid) == 0 && Ticks(w, es, pid) > n
  }

  lemma OrphanExceeds(w: World, pid: nat, n: nat)
    requires pid in w.procs && Orphans(w.procs[pid]) != {} && w.procs[pid].ringing.None?
    ensures Exceeds(w, pid, n)
  {
    var timer :| timer in Orphans(w.procs[pid]);
    var es := TickTimes(pid, timer, n + 1);
    OrphanTicks(w, pid, timer, n + 1);
    NoEdges(es, pid);
  }

  /**
   From a state handlers can leave behind outside of notices, the ticks of the runs without another edge
   and without another throwing clear are bounded, and then by 40, exactly when no live timer is left over
   from a clear that threw.
   */
  lemma TicksBoundedExactly(w: World, pid: nat)
    requires pid in w.procs && Paced(w.procs[pid]) && w.procs[pid].ringing.None?
    ensures Orphans(w.procs[pid]) != {} ==> forall n: nat :: Exceeds(w, pid, n)
    ensures Orphans(w.procs[pid]) == {} ==> !Exceeds(w, pid, MAX_TICKS)
  {
    if Orphans(w.procs[pid]) != {} {
      forall n: nat
        ensures Exceeds(w, pid, n)
      {
        OrphanExceeds(w, pid, n);
      }
    } else {
      forall es: seq<Event> | AllCalm(w, es) && Edges(es, pid) == 0
        ensures Ticks(w, es, pid) <= MAX_TICKS
      {
        TicksAreBounded(w, es, pid);
      }
    }
  }

  // ---------------------------------------------------------------- a retry started inside a notice

  /** The retry an edge starts inside a notice outlives the ring exactly when the ring is not a retry tick's. */
  lemma RetrySurvivesExactly(s: Stores, p: Proc, e: Event)
    requires e.Resumes? && p.ringing.Some? && p.retryCancel.Some? && Paced(p)
    requires Handle(s, p, e).1.ringing.None?
    ensures var p' := Handle(s, p, e).1;
      && (p'.retryCancel == p.retryCancel <==> !Closing(p))
      && (Closing(p) ==> p'.retryCancel.None?)
      && (p.armed.None? ==> p'.armed.None?)
  {
    hide ResumeRing, Unarm;
    ResumeOrphans(s, p, e);
    ResumeMeans(s, p, e.pid, e.threw, e.look, e.give);
    UnarmMeans(s, p, e.pid, e.give);
    CancelMeans(ResumeRing(s, p, e.pid, e.threw, e.look, e.give).1, e.cancelOk);
  }

  /** Handlers of the process inside a notice, none of them a tick or a tui edge. */
  predicate Idles(e: Event, pid: nat) {
    !e.Outside? && e.pid == pid && !e.Tick? && !e.Exit? && (e.Edge? ==> e.mode != HOST_MODE)
  }

  lemma IdleKeepsRetry(s: Stores, p: Proc, e: Event, pid: nat)
    requires Idles(e, pid) && p.ringing.Some? && p.armed.None? && p.retryCancel.Some? && Paced(p)
    ensures var p' := Handle(s, p, e).1;
      && p'.armed.None?
      && p'.retryCancel == (if p'.ringing.Some? || !Closing(p) then p.retryCancel else None)
      && (p'.ringing.Some? ==> Closing(p') == Closing(p) && Paced(p'))
  {
    hide OnEdge, OnResume, StartRing, Unarm;
    match e
    case Edge(_, _, _, _, _, _, _, _) => OtherModes(s, p, e);
    case Resumes(_, _, _, _, _) =>
      ResumeOrphans(s, p, e);
      if Handle(s, p, e).1.ringing.None? { RetrySurvivesExactly(s, p, e); } else { ResumeStaysUnarmed(s, p, e); }
    case _ =>
      QuietHandler(s, p, e);
  }

  lemma ResumeStaysUnarmed(s: Stores, p: Proc, e: Event)
    requires e.Resumes? && p.armed.None?
    ensures Handle(s, p, e).1.armed.None?
  {
    hide ResumeRing, Unarm;
    ResumeMeans(s, p, e.pid, e.threw, e.look, e.give);
    UnarmMeans(s, p, e.pid, e.give);
    CancelMeans(ResumeRing(s, p, e.pid, e.threw, e.look, e.give).1, e.cancelOk);
  }

  /** The ring is under way before each of these events and over after the last. */
  predicate UntilOver(w: World, es: seq<Event>, pid: nat)
    decreases |es|
  {
    && pid in w.procs
    && (w.procs[pid].ringing.None? <==> es == [])
    && (es != [] ==> Idles(es[0], pid) && UntilOver(Step(w, es[0]), es[1..], pid))
  }

  /**
   What becomes of a session whose retry was started inside a notice, if no further edge comes in it: once
   the ring is over its retry waits on, or, when the ring was a retry tick's, the session has neither a
   doorbell nor a retry.
   */
  lemma {:induction false} InnerRetryFate(w: World, es: seq<Event>, pid: nat)
    requires UntilOver(w, es, pid) && es != [] && Paced(w.procs[pid])
    requires w.procs[pid].armed.None? && w.procs[pid].retryCancel.Some?
    ensures pid in Run(w, es).procs
    ensures var p := Run(w, es).procs[pid];
      && p.armed.None? && p.ringing.None?
      && p.retryCancel == if Closing(w.procs[pid]) then None else w.procs[pid].retryCancel
    decreases |es|
  {
    hide Handle, Paced;
    var p := w.procs[pid];
    IdleKeepsRetry(w.stores, p, es[0], pid);
    var w1 := Step(w, es[0]);
    if es[1..] != [] {
      InnerRetryFate(w1, es[1..], pid);
    }
  }
}
