/** Two runs in which the receiver breaks its promise although only what is named fails. */
module OmpReceiverRuns {
  import opened Options
  import opened OmpMailbox
  import opened OmpDoorbell
  import opened OmpReceiver
  import opened OmpReceiverSafety
  import opened OmpReceiverRetry

  /** An attempt all of whose calls succeed, for the session `native` and under the given watcher. */
  function Smooth(native: string, watcher: nat): ArmEnv {
    ArmEnv(true, Some(native), true, true, true, Some(watcher), true, true)
  }

  lemma SmoothArms(s: Stores, pid: nat, native: string, watcher: nat, garden: string)
    requires pid > 1 && native != "" && HostedBy(s, pid, native, garden)
    ensures Published(s, pid, Smooth(native, watcher)) == Some(garden)
  {
  }

  lemma BirthHosts(s: Stores, pid: nat, native: string, garden: string)
    ensures var s' := Born(s, pid, native, garden);
      HostedBy(s', pid, native, garden) && s'.receivers == s.receivers && s'.mailboxes == s.mailboxes
  {
  }

  const EMPTY := Stores(map[], map[], map[], map[])

  const RETRY := Timer(0, 0)

  /** A fresh process with a retry under way. */
  const WAITING_PROC := FRESH_PROC.(retryCancel := Some(RETRY), timers := {RETRY})

  /** An edge of the session `native`, whose retry would be timer `id`. */
  function EdgeFor(pid: nat, native: string, watcher: nat, cancelOk: bool, id: Option<nat>): Event {
    Edge(pid, HOST_MODE, 0, cancelOk, Smooth(native, watcher), Surface(id), NO_LOOK, SMOOTHLY)
  }

  /** A retry starts for a session that is not born yet. */
  lemma UnbornRetries(s: Stores, pid: nat, native: string)
    requires pid !in s.senders && native != ""
    ensures Handle(s, FRESH_PROC, EdgeFor(pid, native, 0, true, Some(0))) == (s, WAITING_PROC)
  {
    assert FRESH_PROC.timers + {RETRY} == {RETRY};
  }

  // ---------------------------------------------------------------- an orphan splits marker and watch

  /** An armed process outside of any ring with a live timer that nothing names, whose session is `g`. */
  predicate ArmedWithOrphan(s: Stores, p: Proc, pid: nat, g: string) {
    && p.armed == Some(Armed(g, 1)) && p.retryCancel.None? && p.timers == {RETRY} && p.watchers == {1}
    && p.ringing.None? && s.receivers == map[g := pid]
  }

  /** A look that cannot read the directory ends the ring. */
  lemma BlindRingEnds(s: Stores, p: Proc, pid: nat, closing: bool)
    requires p.ringing.None?
    ensures StartRing(s, p, pid, closing, NO_LOOK, SMOOTHLY).1.ringing.None?
  {
    hide Unarm;
    if p.armed.Some? { UnarmMeans(s, p, pid, SMOOTHLY); }
  }

  /** On the next edge its clear throws, and the receiver arms. */
  lemma ThrownClearArms(s: Stores, pid: nat, native: string, g: string)
    requires pid > 1 && native != "" && s.receivers == map[] && HostedBy(s, pid, native, g)
    ensures var (s', p') := Handle(s, WAITING_PROC, EdgeFor(pid, native, 1, false, None));
      ArmedWithOrphan(s', p', pid, g)
  {
    hide TryArm, Published, StartRing, StartVanishes;
    var cancelled := CancelRetry(WAITING_PROC, false);
    SmoothArms(s, pid, native, 1, g);
    assert cancelled.(retryTicks := 0) == cancelled;
    AttemptMeans(s, cancelled, pid, Smooth(native, 1));
    var t := TryArm(s, cancelled, pid, Smooth(native, 1));
    ArmedRingStays(s, cancelled, pid, g, Smooth(native, 1), t.stores, t.proc);
    StartMeans(t.stores, t.proc, pid, false, NO_LOOK, SMOOTHLY);
    BlindRingEnds(t.stores, t.proc, pid, false);
  }

  /** The session has moved on to `h` when the orphaned timer ticks. */
  lemma OrphanArmsAgain(s: Stores, p: Proc, pid: nat, n: string, g: string, h: string)
    requires ArmedWithOrphan(s, p, pid, g) && pid > 1 && n != "" && g != h
    ensures var s1 := Born(s, pid, n, h);
      var (s', p') := Handle(s1, p, Tick(pid, RETRY, true, Smooth(n, 2), NO_LOOK, SMOOTHLY));
      ArmedFor(p', h) && p'.watchers == {1, 2} && s'.receivers == map[g := pid, h := pid]
  {
    hide TryArm, Published, StartRing, StartVanishes, CancelRetry;
    var s1, p1 := Born(s, pid, n, h), p.(retryTicks := p.retryTicks + 1);
    BirthHosts(s, pid, n, h);
    SmoothArms(s1, pid, n, 2, h);
    AttemptMeans(s1, p1, pid, Smooth(n, 2));
    var t := TryArm(s1, p1, pid, Smooth(n, 2));
    ArmedRingStays(s1, p1, pid, h, Smooth(n, 2), t.stores, t.proc);
    StartMeans(t.stores, t.proc, pid, true, NO_LOOK, SMOOTHLY);
    CancelMeans(StartRing(t.stores, t.proc, pid, true, NO_LOOK, SMOOTHLY).1, true);
  }

  lemma RunFive(w: World, es: seq<Event>)
    requires |es| == 5
    ensures Run(w, es) == Step(Step(Step(Step(Step(w, es[0]), es[1]), es[2]), es[3]), es[4])
    ensures AllOrderly(w, es) <==>
      && Orderly(w, es[0])
      && Orderly(Step(w, es[0]), es[1])
      && Orderly(Step(Step(w, es[0]), es[1]), es[2])
      && Orderly(Step(Step(Step(w, es[0]), es[1]), es[2]), es[3])
      && Orderly(Step(Step(Step(Step(w, es[0]), es[1]), es[2]), es[3]), es[4])
  {
    hide Step, Orderly;
    var w1 := Step(w, es[0]);
    var w2 := Step(w1, es[1]);
    var w3 := Step(w2, es[2]);
    var w4 := Step(w3, es[3]);
    var w5 := Step(w4, es[4]);
    assert es[1..][1..] == es[2..] && es[2..][1..] == es[3..] && es[3..][1..] == es[4..] && es[4..][1..] == [];
    assert Run(w5, []) == w5 && AllOrderly(w5, []);
    assert Run(w4, es[4..]) == Run(w5, []) && Run(w3, es[3..]) == Run(w4, es[4..]);
    assert Run(w2, es[2..]) == Run(w3, es[3..]) && Run(w1, es[1..]) == Run(w2, es[2..]);
    assert AllOrderly(w4, es[4..]) <==> Orderly(w4, es[4]);
    assert AllOrderly(w3, es[3..]) <==> Orderly(w3, es[3]) && AllOrderly(w4, es[4..]);
    assert AllOrderly(w2, es[2..]) <==> Orderly(w2, es[2]) && AllOrderly(w3, es[3..]);
    assert AllOrderly(w1, es[1..]) <==> Orderly(w1, es[1]) && AllOrderly(w2, es[2..]);
  }

  /**
   One throwing clear is enough, everything else succeeding. A retry waits for birth; on the next edge
   its clear throws and the receiver arms for `g`; the session moves on to `h`; the orphaned timer ticks
   and arms for `h`. The marker of `g` stays behind, in the name of a living process that serves `h`.
   */
  lemma OrphanSplits(pid: nat, m: string, n: string, g: string, h: string) returns (es: seq<Event>)
    requires pid > 1 && m != "" && n != "" && g != h
    ensures var w := World(EMPTY, map[pid := FRESH_PROC]);
      var w' := Run(w, es);
      && AllAgreed(w) && AllTidy(w) && AllOrderly(w, es) && |es| == 5 && es[2].Edge? && !es[2].cancelOk
      && w'.stores.receivers == map[g := pid, h := pid]
      && pid in w'.procs && ArmedFor(w'.procs[pid], h) && !Coherent(w')
  {
    hide Handle, Born;
    var w := World(EMPTY, map[pid := FRESH_PROC]);
    UnbornRetries(w.stores, pid, m);
    var w1 := Step(w, EdgeFor(pid, m, 0, true, Some(0)));
    var born := Born(w1.stores, pid, m, g);
    BirthHosts(w1.stores, pid, m, g);
    var w2 := Step(w1, Outside(born));
    ThrownClearArms(w2.stores, pid, m, g);
    var w3 := Step(w2, EdgeFor(pid, m, 1, false, None));
    var moved := Born(w3.stores, pid, n, h);
    BirthHosts(w3.stores, pid, n, h);
    var w4 := Step(w3, Outside(moved));
    OrphanArmsAgain(w3.stores, w3.procs[pid], pid, n, g, h);
    es := [EdgeFor(pid, m, 0, true, Some(0)), Outside(born), EdgeFor(pid, m, 1, false, None), Outside(moved),
           Tick(pid, RETRY, true, Smooth(n, 2), NO_LOOK, SMOOTHLY)];
    RunFive(w, es);
    var w5 := Step(w4, es[4]);
    assert g in w5.stores.receivers && w5.stores.receivers[g] == pid;
  }

  // ---------------------------------------------------------------- a tick clears the retry of a newer session

  /** A look that announces one message. */
  function LookAt(message: string): Look { Look(Some([SIGNAL, message]), 1, true) }

  /** The stores in which `g` is born and one message waits for it. */
  function MailWaits(pid: nat, m: string, g: string, message: string): Stores {
    Born(EMPTY, pid, m, g).(mailboxes := map[g := map[SIGNAL := "", message := "body"]])
  }

  /** The retry of `m` finds it born; its startup ring announces the message, and the tick has still to clear. */
  lemma TickAnnounces(pid: nat, m: string, g: string, message: string)
    requires pid > 1 && m != "" && IsFresh(message)
    ensures var s := MailWaits(pid, m, g, message);
      var (s', p') := Handle(s, WAITING_PROC, Tick(pid, RETRY, true, Smooth(m, 1), LookAt(message), SMOOTHLY));
      && p'.ringing.Some? && Closing(p') && !p'.ringing.value.pending && ArmedFor(p', g)
      && p'.retryCancel == Some(RETRY) && p'.timers == {RETRY} && s'.senders == s.senders
  {
    hide TryArm, Published, LookOnce, StartVanishes;
    var s := MailWaits(pid, m, g, message);
    BirthHosts(EMPTY, pid, m, g);
    SmoothArms(s, pid, m, 1, g);
    var p1 := WAITING_PROC.(retryTicks := 1);
    AttemptMeans(s, p1, pid, Smooth(m, 1));
    var t := TryArm(s, p1, pid, Smooth(m, 1));
    assert MailboxOf(t.stores, g) == MailboxOf(s, g);
    MessageAnnounced(t.stores, t.proc, pid, g, message);
  }

  lemma MessageAnnounced(s: Stores, p: Proc, pid: nat, g: string, message: string)
    requires MailboxOf(s, g) == map[SIGNAL := "", message := "body"] && IsFresh(message)
    ensures var m := MailboxOf(s, g);
      var (s', p') := LookOnce(s, p, pid, g, true, Log(m, [], []), LookAt(message), SMOOTHLY);
      && p'.ringing.Some? && Closing(p') && !p'.ringing.value.pending && p' == p.(ringing := p'.ringing)
      && s'.senders == s.senders
  {
    hide StampAll, DeliveredIn, Unarm, IsFresh;
    SignalIsNotFresh();
    assert [SIGNAL, message][1..] == [message] && [message][1..] == [];
    assert FreshOf([message]) == [message];
    assert FreshOf([SIGNAL, message]) == [message];
  }

  lemma SignalIsNotFresh()
    ensures !IsFresh(SIGNAL)
  {
    assert SIGNAL[|SIGNAL| - 4..] == "gnal";
    assert "gnal"[0] != FRESH[0];
  }

  /** Inside the notice the session moves on to `n`, which is not born yet: its edge starts a retry. */
  lemma InnerEdgeRetries(s: Stores, p: Proc, pid: nat, m: string, n: string, g: string)
    requires pid in s.senders && s.senders[pid] == SenderMarker(g, m) && m != n && n != ""
    requires p.ringing.Some? && Closing(p) && !p.ringing.value.pending && ArmedFor(p, g)
    requires p.retryCancel == Some(RETRY) && p.timers == {RETRY}
    ensures var (s', p') := Handle(s, p, EdgeFor(pid, n, 2, true, Some(1)));
      && p'.armed.None? && p'.retryCancel == Some(Timer(0, 1)) && p'.timers == {Timer(0, 1)}
      && p'.ringing == p.ringing
  {
    hide Unarm;
    UnarmMeans(s, CancelRetry(p, true), pid, SMOOTHLY);
    assert {RETRY} - {RETRY} + {Timer(0, 1)} == {Timer(0, 1)};
  }

  /** The notice returns, the ring is over, and the tick clears the retry it did not start. */
  lemma TickClearsIt(s: Stores, p: Proc, pid: nat)
    requires p.ringing.Some? && Closing(p) && !p.ringing.value.pending
    requires p.armed.None? && p.retryCancel == Some(Timer(0, 1)) && p.timers == {Timer(0, 1)}
    ensures var p' := Handle(s, p, Resumes(pid, false, true, NO_LOOK, SMOOTHLY)).1;
      p'.armed.None? && p'.retryCancel.None? && p'.timers == {} && p'.ringing.None?
  {
  }

  lemma RunThree(w: World, es: seq<Event>)
    requires |es| == 3
    ensures Run(w, es) == Step(Step(Step(w, es[0]), es[1]), es[2])
  {
    hide Step;
    var w1 := Step(w, es[0]);
    var w2 := Step(w1, es[1]);
    var w3 := Step(w2, es[2]);
    assert es[1..][1..] == es[2..] && es[2..][1..] == [];
    assert Run(w2, es[2..]) == Run(w3, []) && Run(w1, es[1..]) == Run(w2, es[2..]);
  }

  /**
   Nothing fails at all. A retry tick finds its session born, arms and announces waiting mail; inside that
   notice the session moves on and its edge starts a new retry; the tick then clears that one. The new
   session has no doorbell and nothing that would ever try again: without another edge no tick will come.
   */
  lemma TickDropsNewRetry(pid: nat, m: string, n: string, g: string, message: string) returns (es: seq<Event>)
    requires pid > 1 && m != "" && n != "" && m != n && IsFresh(message)
    ensures var w := World(MailWaits(pid, m, g, message), map[pid := WAITING_PROC]);
      var w' := Run(w, es);
      && AllTidy(w) && |es| == 3 && es[1] == EdgeFor(pid, n, 2, true, Some(1))
      && pid in w'.procs && Abandoned(w'.procs[pid])
      && forall later: seq<Event> :: AllCalm(w', later) && Edges(later, pid) == 0 ==> Ticks(w', later, pid) == 0
  {
    hide Handle, MailWaits;
    var w := World(MailWaits(pid, m, g, message), map[pid := WAITING_PROC]);
    es := [Tick(pid, RETRY, true, Smooth(m, 1), LookAt(message), SMOOTHLY), EdgeFor(pid, n, 2, true, Some(1)),
           Resumes(pid, false, true, NO_LOOK, SMOOTHLY)];
    RunThree(w, es);
    TickAnnounces(pid, m, g, message);
    MailSender(pid, m, g, message);
    var w1 := Step(w, es[0]);
    InnerEdgeRetries(w1.stores, w1.procs[pid], pid, m, n, g);
    var w2 := Step(w1, es[1]);
    TickClearsIt(w2.stores, w2.procs[pid], pid);
    var w3 := Step(w2, es[2]);
    forall later: seq<Event> | AllCalm(w3, later) && Edges(later, pid) == 0
      ensures Ticks(w3, later, pid) == 0
    {
      TicksAreBounded(w3, later, pid);
    }
  }

  /** Neither a doorbell nor a retry. */
  predicate Abandoned(p: Proc) { p.armed.None? && p.retryCancel.None? && p.timers == {} && p.ringing.None? }

  lemma MailSender(pid: nat, m: string, g: string, message: string)
    ensures var s := MailWaits(pid, m, g, message);
      pid in s.senders && s.senders[pid] == SenderMarker(g, m)
  {
  }
}
