/**
 What every run of several receivers over shared stores keeps, with any handlers inside the notices of
 rings. The marker and watch half does not need the calls that clear timers or handle the exit listener
 to succeed; it says exactly what breaks it.
 */
module OmpReceiverSafety {
  import opened Options
  import opened OmpMailbox
  import opened OmpDoorbell
  import opened OmpReceiver

  // ---------------------------------------------------------------- what one attempt does

  /** The garden is the one the session `native` of process `pid` is: marker and record agree. */
  predicate HostedBy(s: Stores, pid: nat, native: string, garden: string) {
    && pid in s.senders && s.senders[pid] == SenderMarker(garden, native)
    && garden in s.records && s.records[garden] == Identity(BACKEND, native)
  }

  /** The garden whose marker an attempt gets to write, if any: everything up to the marker write succeeds. */
  function Published(s: Stores, pid: nat, env: ArmEnv): Option<string> {
    if !env.canRing || env.native.None? || env.native.value == "" || pid <= 1 then None
    else match Resolve(s, pid, env.native.value, env.recordOk)
      case Hosted(garden) =>
        if env.mailboxOk && (SIGNAL in MailboxOf(s, garden) || env.signalOk) && env.watch.Some? && env.markerOk
        then Some(garden) else None
      case _ => None
  }

  /** The marker is written under the new watch, and the process is armed for it. */
  predicate BecomesArmed(s: Stores, p: Proc, pid: nat, garden: string, env: ArmEnv, s': Stores, p': Proc) {
    && env.watch.Some? && s'.receivers == s.receivers[garden := pid]
    && s'.mailboxes == WithSignal(s, garden).mailboxes
    && p'.armed == Some(Armed(garden, env.watch.value)) && p'.watchers == p.watchers + {env.watch.value}
    && p'.exitGuard == (p.exitGuard || env.guardOk)
    && p'.listeners == p.listeners + if !p.exitGuard && env.guardOk then 1 else 0
  }

  /** The fields no attempt, look or unarm touches. */
  predicate SameRetry(p: Proc, p': Proc) {
    p'.timers == p.timers && p'.retryCancel == p.retryCancel && p'.retryTicks == p.retryTicks
  }

  /** An attempt, told from outside: what it publishes. */
  lemma AttemptMeans(s: Stores, p: Proc, pid: nat, env: ArmEnv)
    ensures var t := TryArm(s, p, pid, env);
      && t.stores.senders == s.senders && t.stores.records == s.records
      && SameRetry(p, t.proc) && t.proc.ringing == p.ringing && t.proc.rung == p.rung
      && (t.tried == Deferred ==> t == Attempt(s, p, Deferred))
      && match Published(s, pid, env)
         case None =>
           t.tried != NowArmed && t.stores.receivers == s.receivers && t.proc == p.(effects := t.proc.effects)
         case Some(garden) => t.tried == NowArmed && BecomesArmed(s, p, pid, garden, env, t.stores, t.proc)
  {
    hide Publish, WithSignal;
    if env.canRing && env.native.Some? && env.native.value != "" {
      var resolved := Resolve(s, pid, env.native.value, env.recordOk);
      if resolved.Hosted? && pid > 1 {
        PublishMeans(s, p, pid, resolved.garden, env);
      }
    }
  }

  lemma PublishMeans(s: Stores, p: Proc, pid: nat, garden: string, env: ArmEnv)
    ensures var made := Publish(s, p, pid, garden, env);
      && made.tried != Deferred
      && (made.tried == NowArmed
          <==> env.mailboxOk && (SIGNAL in MailboxOf(s, garden) || env.signalOk) && env.watch.Some? && env.markerOk)
      && made.stores.senders == s.senders && made.stores.records == s.records
      && made.stores.receivers == (if made.tried == NowArmed then s.receivers[garden := pid] else s.receivers)
      && (made.tried == NowArmed ==> made.stores.mailboxes == WithSignal(s, garden).mailboxes)
      && made.proc == p.(watchers := if made.tried == NowArmed then p.watchers + {env.watch.value} else p.watchers,
                         effects := made.proc.effects)
  {
  }

  // ---------------------------------------------------------------- what a ring does to the doorbell

  lemma UnarmMeans(s: Stores, p: Proc, pid: nat, give: Give)
    ensures var (s', p') := Unarm(s, p, pid, give);
      && SameRetry(p, p') && p'.ringing == p.ringing && p'.rung == p.rung && p'.armed.None?
      && s' == s.(receivers := s'.receivers)
      && match p.armed
         case None => s' == s && p' == p
         case Some(Armed(garden, watcher)) =>
           && p'.watchers == p.watchers - {watcher} && !p'.exitGuard && p'.listeners == Released(p, give.releaseOk)
           && s'.receivers == (if garden in s.receivers && s.receivers[garden] == pid && give.removeOk
                               then s.receivers - {garden} else s.receivers)
  {
  }

  /** The part of a process a ring leaves alone, unless it unarms. */
  predicate SameDoorbell(p: Proc, p': Proc) {
    p'.armed == p.armed && p'.watchers == p.watchers && p'.exitGuard == p.exitGuard && p'.listeners == p.listeners
  }

  /** Stores and doorbell are as before, or as after an unarm when the signal has vanished. */
  predicate Bells(s: Stores, p: Proc, pid: nat, give: Give, vanished: bool, s': Stores, p': Proc) {
    && s'.senders == s.senders && s'.records == s.records
    && SameRetry(p, p')
    && if vanished
       then s'.receivers == Unarm(s, p, pid, give).0.receivers && SameDoorbell(Unarm(s, p, pid, give).1, p')
       else s'.receivers == s.receivers && SameDoorbell(p, p')
  }

  lemma LookMeans(s: Stores, p: Proc, pid: nat, garden: string, closing: bool, log: Log, look: Look, give: Give)
    ensures var (s', p') := LookOnce(s, p, pid, garden, closing, log, look, give);
      && Bells(s, p, pid, give, SIGNAL !in MailboxOf(s, garden), s', p')
      && (p'.ringing.Some? ==> p'.ringing.value.closing == closing && p'.ringing.value.garden == garden)
  {
    hide StampAll, FreshOf, DeliveredIn;
  }

  /** A ring is started where it looks at once, and finds the mailbox archived. */
  predicate StartVanishes(s: Stores, p: Proc) {
    p.armed.Some? && p.ringing.None? && SIGNAL !in MailboxOf(s, p.armed.value.garden)
  }

  lemma StartMeans(s: Stores, p: Proc, pid: nat, closing: bool, look: Look, give: Give)
    ensures var (s', p') := StartRing(s, p, pid, closing, look, give);
      && Bells(s, p, pid, give, StartVanishes(s, p), s', p')
      && (p.ringing.Some? ==> p'.ringing.Some? && Closing(p') == Closing(p))
      && (p.ringing.None? && p'.ringing.Some? ==> Closing(p') == closing)
  {
    hide LookOnce, Unarm;
    if p.armed.Some? && p.ringing.None? {
      var garden := p.armed.value.garden;
      LookMeans(s, p, pid, garden, closing, Log(MailboxOf(s, garden), [], []), look, give);
    }
  }

  /** The notice returns to a loop that looks again, and finds the mailbox archived. */
  predicate ResumeVanishes(s: Stores, p: Proc, threw: bool) {
    && p.ringing.Some? && p.ringing.value.pending && !threw
    && SIGNAL !in MailboxOf(s, p.ringing.value.garden)
  }

  lemma ResumeMeans(s: Stores, p: Proc, pid: nat, threw: bool, look: Look, give: Give)
    ensures var (s', p') := ResumeRing(s, p, pid, threw, look, give);
      && Bells(s, p, pid, give, ResumeVanishes(s, p, threw), s', p')
      && (p'.ringing.Some? ==> p.ringing.Some? && Closing(p') == Closing(p))
      && (p.ringing.None? ==> p' == p && s' == s)
  {
    hide LookOnce, Unarm;
    if p.ringing.Some? {
      var r := p.ringing.value;
      var turn := ScanOf(r.look, Notice(MailboxOf(s, r.garden), r.pending, threw));
      LookMeans(s, p, pid, r.garden, r.closing, r.log.(done := r.log.done + [turn]), look, give);
    }
  }

  /** Clearing a retry touches nothing of the doorbell. */
  lemma CancelMeans(p: Proc, cancelOk: bool)
    ensures var p' := CancelRetry(p, cancelOk);
      SameDoorbell(p, p') && p'.ringing == p.ringing && p'.retryTicks == p.retryTicks && p'.retryCancel.None?
  {
  }

  /**
   After the receiver's handler has run on a tui birth edge, whatever failed in it and whatever it ran
   inside of, the process is armed for nothing, or for the garden of the very session the vendor reports.
   */
  lemma ArmedForTheCurrentSession(s: Stores, p: Proc, e: Event)
    requires e.Edge? && e.mode == HOST_MODE
    ensures var (s', p') := Handle(s, p, e);
      p'.armed.Some? ==> e.env.native.Some? && HostedBy(s', e.pid, e.env.native.value, p'.armed.value.garden)
  {
    hide TryArm, Unarm, StartRing;
    var cancelled := CancelRetry(p, e.cancelOk);
    UnarmMeans(s, cancelled, e.pid, e.give);
    var (s1, p1) := Unarm(s, cancelled, e.pid, e.give);
    AttemptMeans(s1, p1.(retryTicks := 0), e.pid, e.env);
    var t := TryArm(s1, p1.(retryTicks := 0), e.pid, e.env);
    StartMeans(t.stores, t.proc, e.pid, false, e.look, e.give);
    UnarmMeans(t.stores, t.proc, e.pid, e.give);
  }

  predicate ArmedFor(p: Proc, garden: string) { p.armed.Some? && p.armed.value.garden == garden }

  // ---------------------------------------------------------------- other processes' markers

  /** Every other process's marker stays, save for the claimed gardens, and none appears in another's name. */
  predicate OthersKept(before: map<string, nat>, after: map<string, nat>, pid: nat, claimed: set<string>) {
    && (forall g <- before :: before[g] != pid && g !in claimed ==> g in after && after[g] == before[g])
    && (forall g <- after :: after[g] != pid ==> g in before && before[g] == after[g])
  }

  /** The garden the session is born as, if any. */
  function Claimed(s: Stores, pid: nat, native: Option<string>): set<string> {
    if native.Some? && pid in s.senders && HostedBy(s, pid, native.value, s.senders[pid].garden)
    then {s.senders[pid].garden} else {}
  }

  /** The garden a handler may take over: only an attempt to arm claims one, and only the garden its own session is. */
  function Claims(s: Stores, e: Event): set<string> {
    match e
    case Edge(pid, _, _, _, env, _, _, _) => Claimed(s, pid, env.native)
    case Tick(pid, _, _, env, _, _) => Claimed(s, pid, env.native)
    case _ => {}
  }

  lemma UnarmKeeps(s: Stores, p: Proc, pid: nat, give: Give)
    ensures OthersKept(s.receivers, Unarm(s, p, pid, give).0.receivers, pid, {})
  {
  }

  lemma BellsKeep(s: Stores, p: Proc, pid: nat, give: Give, vanished: bool, s': Stores, p': Proc)
    requires Bells(s, p, pid, give, vanished, s', p')
    ensures OthersKept(s.receivers, s'.receivers, pid, {})
  {
    hide Unarm;
    UnarmKeeps(s, p, pid, give);
  }

  lemma AttemptKeeps(s: Stores, p: Proc, pid: nat, env: ArmEnv)
    ensures OthersKept(s.receivers, TryArm(s, p, pid, env).stores.receivers, pid, Claimed(s, pid, env.native))
  {
    hide TryArm;
    AttemptMeans(s, p, pid, env);
  }

  /**
   No handler, whatever fails in it, takes another process's receiver marker away: only the marker of
   the very garden the handler's own session is born as may be replaced.
   */
  lemma ForeignMarkersStay(s: Stores, p: Proc, e: Event)
    requires !e.Outside?
    ensures OthersKept(s.receivers, Handle(s, p, e).0.receivers, e.pid, Claims(s, e))
  {
    hide StartRing, ResumeRing, TryArm, Unarm, OthersKept, Bells;
    match e
    case Edge(_, _, _, cancelOk, env, _, look, give) =>
      var cancelled := CancelRetry(p, cancelOk);
      UnarmMeans(s, cancelled, e.pid, give);
      UnarmKeeps(s, cancelled, e.pid, give);
      var (s1, p1) := Unarm(s, cancelled, e.pid, give);
      AttemptKeeps(s1, p1.(retryTicks := 0), e.pid, env);
      var t := TryArm(s1, p1.(retryTicks := 0), e.pid, env);
      StartMeans(t.stores, t.proc, e.pid, false, look, give);
      var (s2, p2) := StartRing(t.stores, t.proc, e.pid, false, look, give);
      BellsKeep(t.stores, t.proc, e.pid, give, StartVanishes(t.stores, t.proc), s2, p2);
      EdgeKept(s.receivers, s1.receivers, t.stores.receivers, s2.receivers, e.pid, Claimed(s, e.pid, env.native));
    case Tick(_, _, _, env, look, give) =>
      var p1 := p.(retryTicks := p.retryTicks + 1);
      AttemptKeeps(s, p1, e.pid, env);
      var t := TryArm(s, p1, e.pid, env);
      StartMeans(t.stores, t.proc, e.pid, true, look, give);
      var (s2, p2) := StartRing(t.stores, t.proc, e.pid, true, look, give);
      BellsKeep(t.stores, t.proc, e.pid, give, StartVanishes(t.stores, t.proc), s2, p2);
      EdgeKept(s.receivers, s.receivers, t.stores.receivers, s2.receivers, e.pid, Claimed(s, e.pid, env.native));
    case Signal(pid, look, give) =>
      StartMeans(s, p, pid, false, look, give);
      var (s2, p2) := StartRing(s, p, pid, false, look, give);
      BellsKeep(s, p, pid, give, StartVanishes(s, p), s2, p2);
    case Resumes(pid, threw, _, look, give) =>
      ResumeMeans(s, p, pid, threw, look, give);
      var (s2, p2) := ResumeRing(s, p, pid, threw, look, give);
      BellsKeep(s, p, pid, give, ResumeVanishes(s, p, threw), s2, p2);
    case WatchError(pid, give) => UnarmKeeps(s, p, pid, give);
    case Exit(pid, give) =>
      UnarmKeeps(s, p, pid, give);
      KeptSame(s.receivers, pid);
  }

  lemma KeptSame(a: map<string, nat>, pid: nat)
    ensures OthersKept(a, a, pid, {})
  {
  }

  lemma EdgeKept(a: map<string, nat>, b: map<string, nat>, c: map<string, nat>, d: map<string, nat>, pid: nat,
                 claimed: set<string>)
    requires (a == b || OthersKept(a, b, pid, {})) && OthersKept(b, c, pid, claimed) && OthersKept(c, d, pid, {})
    ensures OthersKept(a, a, pid, claimed) && OthersKept(a, b, pid, claimed)
    ensures OthersKept(a, c, pid, claimed) && OthersKept(a, d, pid, claimed)
  {
  }

  // ---------------------------------------------------------------- marker and watch agree

  /** Every marker this pid owns is for the garden it is armed for. */
  predicate OwnsOnlyArmed(s: Stores, p: Proc, pid: nat) {
    forall g <- s.receivers :: s.receivers[g] == pid ==> p.armed.Some? && p.armed.value.garden == g
  }

  /** The one watch that is open is that of the armed garden. */
  predicate WatchesArmed(p: Proc) {
    p.watchers == if p.armed.Some? then {p.armed.value.watcher} else {}
  }

  predicate Agreed(s: Stores, p: Proc, pid: nat) { OwnsOnlyArmed(s, p, pid) && WatchesArmed(p) }

  /** The one assumption on the calls of a handler: a marker it wants to remove is removed. */
  predicate Removes(e: Event) {
    e.Outside? || e.give.removeOk
  }

  /** `fs.watch` hands out a new watcher. */
  predicate NewWatch(p: Proc, e: Event) {
    (e.Edge? || e.Tick?) && e.env.watch.Some? ==> e.env.watch.value !in p.watchers
  }

  /** A retry tick publishes a marker although the process is armed already. */
  predicate Clash(s: Stores, p: Proc, e: Event) {
    e.Tick? && e.timer in p.timers && p.armed.Some? && Published(s, e.pid, e.env).Some?
  }

  /** A watch is open that is not the armed garden's; no handler closes it any more. */
  predicate Leaks(p: Proc) {
    exists w <- p.watchers :: p.armed.None? || p.armed.value.watcher != w
  }

  lemma UnarmAgrees(s: Stores, p: Proc, pid: nat, give: Give)
    requires Agreed(s, p, pid) && give.removeOk
    ensures var (s', p') := Unarm(s, p, pid, give); Agreed(s', p', pid) && p'.armed.None?
  {
    hide Unarm;
    UnarmMeans(s, p, pid, give);
  }

  lemma BellsAgree(s: Stores, p: Proc, pid: nat, give: Give, vanished: bool, s': Stores, p': Proc)
    requires Bells(s, p, pid, give, vanished, s', p') && give.removeOk
    ensures Agreed(s, p, pid) ==> Agreed(s', p', pid)
    ensures Leaks(p) ==> Leaks(p')
  {
    hide Unarm;
    UnarmMeans(s, p, pid, give);
    if Leaks(p) {
      var w :| w in p.watchers && (p.armed.None? || p.armed.value.watcher != w);
      assert w in p'.watchers;
    }
  }

  lemma LeakBreaksAgreement(s: Stores, p: Proc, pid: nat)
    requires Leaks(p)
    ensures !Agreed(s, p, pid)
  {
  }

  lemma AttemptAgreesExactly(s: Stores, p: Proc, pid: nat, env: ArmEnv)
    requires Agreed(s, p, pid) && (env.watch.Some? ==> env.watch.value !in p.watchers)
    ensures var t := TryArm(s, p, pid, env);
      if p.armed.Some? && Published(s, pid, env).Some? then Leaks(t.proc) else Agreed(t.stores, t.proc, pid)
  {
    hide TryArm, Published;
    AttemptMeans(s, p, pid, env);
    if p.armed.Some? && Published(s, pid, env).Some? {
      assert p.armed.value.watcher in TryArm(s, p, pid, env).proc.watchers;
    }
  }

  lemma DoorbellDecides(s: Stores, p: Proc, p': Proc, pid: nat)
    requires SameDoorbell(p, p')
    ensures Agreed(s, p', pid) == Agreed(s, p, pid) && Leaks(p') == Leaks(p)
  {
  }

  lemma EdgeAgrees(s: Stores, p: Proc, e: Event)
    requires e.Edge? && Removes(e) && Agreed(s, p, e.pid) && NewWatch(p, e)
    ensures var (s', p') := Handle(s, p, e); Agreed(s', p', e.pid)
  {
    hide TryArm, Unarm, StartRing, Agreed, Leaks, Bells;
    if e.mode == HOST_MODE {
      var cancelled := CancelRetry(p, e.cancelOk);
      CancelMeans(p, e.cancelOk);
      DoorbellDecides(s, p, cancelled, e.pid);
      UnarmAgrees(s, cancelled, e.pid, e.give);
      UnarmMeans(s, cancelled, e.pid, e.give);
      var (s1, p1) := Unarm(s, cancelled, e.pid, e.give);
      var p2 := p1.(retryTicks := 0);
      DoorbellDecides(s1, p1, p2, e.pid);
      AttemptAgreesExactly(s1, p2, e.pid, e.env);
      var t := TryArm(s1, p2, e.pid, e.env);
      StartMeans(t.stores, t.proc, e.pid, false, e.look, e.give);
      var (s3, p3) := StartRing(t.stores, t.proc, e.pid, false, e.look, e.give);
      BellsAgree(t.stores, t.proc, e.pid, e.give, StartVanishes(t.stores, t.proc), s3, p3);
      DoorbellDecides(t.stores, t.proc, StartRetry(t.proc, e.ctx, e.surface), e.pid);
    }
  }

  lemma TickAgrees(s: Stores, p: Proc, e: Event)
    requires e.Tick? && Removes(e) && Agreed(s, p, e.pid) && NewWatch(p, e) && e.timer in p.timers
    ensures var (s', p') := Handle(s, p, e);
      if Clash(s, p, e) then Leaks(p') else Agreed(s', p', e.pid)
  {
    hide TryArm, StartRing, Agreed, Leaks, Bells, Published;
    var p1 := p.(retryTicks := p.retryTicks + 1);
    DoorbellDecides(s, p, p1, e.pid);
    AttemptAgreesExactly(s, p1, e.pid, e.env);
    AttemptMeans(s, p1, e.pid, e.env);
    var t := TryArm(s, p1, e.pid, e.env);
    CancelMeans(t.proc, e.cancelOk);
    DoorbellDecides(t.stores, t.proc, CancelRetry(t.proc, e.cancelOk), e.pid);
    StartMeans(t.stores, t.proc, e.pid, true, e.look, e.give);
    var (s2, p2) := StartRing(t.stores, t.proc, e.pid, true, e.look, e.give);
    BellsAgree(t.stores, t.proc, e.pid, e.give, StartVanishes(t.stores, t.proc), s2, p2);
    CancelMeans(p2, e.cancelOk);
    DoorbellDecides(s2, p2, CancelRetry(p2, e.cancelOk), e.pid);
  }

  lemma ResumeAgrees(s: Stores, p: Proc, e: Event)
    requires e.Resumes? && Removes(e) && Agreed(s, p, e.pid)
    ensures var (s', p') := Handle(s, p, e); Agreed(s', p', e.pid)
  {
    hide ResumeRing, Agreed, Leaks, Bells;
    ResumeMeans(s, p, e.pid, e.threw, e.look, e.give);
    var (s1, p1) := ResumeRing(s, p, e.pid, e.threw, e.look, e.give);
    BellsAgree(s, p, e.pid, e.give, ResumeVanishes(s, p, e.threw), s1, p1);
    CancelMeans(p1, e.cancelOk);
    DoorbellDecides(s1, p1, CancelRetry(p1, e.cancelOk), e.pid);
  }

  /**
   A handler, inside a notice or not, keeps marker and watch in agreement exactly when it is no retry
   tick that publishes while the process is armed. Clearing a timer and the exit listener may fail.
   */
  lemma HandlerAgreesExactly(s: Stores, p: Proc, e: Event)
    requires !e.Outside? && Removes(e) && Agreed(s, p, e.pid) && NewWatch(p, e)
    ensures var (s', p') := Handle(s, p, e);
      Agreed(s', p', e.pid) <==> !Clash(s, p, e)
  {
    hide OnEdge, OnTick, OnResume, StartRing, Unarm, Agreed, Leaks, Bells, Published;
    var (s', p') := Handle(s, p, e);
    match e
    case Edge(_, _, _, _, _, _, _, _) => EdgeAgrees(s, p, e);
    case Tick(_, timer, _, _, _, _) =>
      if timer in p.timers {
        TickAgrees(s, p, e);
        if Clash(s, p, e) { LeakBreaksAgreement(s', p', e.pid); }
      }
    case Signal(pid, look, give) =>
      StartMeans(s, p, pid, false, look, give);
      BellsAgree(s, p, pid, give, StartVanishes(s, p), s', p');
    case Resumes(_, _, _, _, _) => ResumeAgrees(s, p, e);
    case WatchError(pid, give) => UnarmAgrees(s, p, pid, give);
    case Exit(pid, give) => UnarmAgrees(s, p, pid, give);
  }

  // ---------------------------------------------------------------- the exit listener

  /** One exit listener is registered exactly while the process is armed, and it is the receiver's own. */
  predicate Listens(p: Proc) {
    p.listeners == (if p.armed.Some? then 1 else 0) && (p.exitGuard <==> p.armed.Some?)
  }

  /** The process comes to be armed and the listener cannot be registered. */
  predicate Unheard(s: Stores, p: Proc, e: Event) {
    match e
    case Edge(pid, mode, _, _, env, _, _, _) => mode == HOST_MODE && Published(s, pid, env).Some? && !env.guardOk
    case Tick(pid, timer, _, env, _, _) =>
      timer in p.timers && p.armed.None? && Published(s, pid, env).Some? && !env.guardOk
    case _ => false
  }

  /** The process comes to give its doorbell back and the listener cannot be removed. */
  predicate Unreleased(s: Stores, p: Proc, e: Event) {
    p.armed.Some? && !e.Outside? && !e.give.releaseOk &&
    match e
    case Edge(_, mode, _, _, _, _, _, _) => mode == HOST_MODE
    case Signal(_, _, _) => StartVanishes(s, p)
    case Resumes(_, threw, _, _, _) => ResumeVanishes(s, p, threw)
    case WatchError(_, _) => true
    case Exit(_, _) => true
    case _ => false
  }

  /** Who publishes what does not depend on the markers there are. */
  lemma PublishedAnyway(s: Stores, s': Stores, pid: nat, env: ArmEnv)
    requires s' == s.(receivers := s'.receivers)
    ensures Published(s', pid, env) == Published(s, pid, env)
  {
    assert forall garden :: MailboxOf(s', garden) == MailboxOf(s, garden);
  }

  /** A startup ring of an attempt that has just written the signal does not find it gone. */
  lemma ArmedRingStays(s: Stores, p: Proc, pid: nat, garden: string, env: ArmEnv, s': Stores, p': Proc)
    requires BecomesArmed(s, p, pid, garden, env, s', p')
    ensures !StartVanishes(s', p')
  {
    assert MailboxOf(s', garden) == MailboxOf(WithSignal(s, garden), garden);
  }

  lemma EdgeListens(s: Stores, p: Proc, e: Event)
    requires e.Edge? && e.mode == HOST_MODE && Listens(p)
    ensures Listens(Handle(s, p, e).1) <==> !Unheard(s, p, e) && !Unreleased(s, p, e)
  {
    hide TryArm, Unarm, StartRing, Published, StartVanishes;
    var cancelled := CancelRetry(p, e.cancelOk);
    UnarmMeans(s, cancelled, e.pid, e.give);
    var (s1, p1) := Unarm(s, cancelled, e.pid, e.give);
    PublishedAnyway(s, s1, e.pid, e.env);
    var p2 := p1.(retryTicks := 0);
    AttemptMeans(s1, p2, e.pid, e.env);
    var t := TryArm(s1, p2, e.pid, e.env);
    StartMeans(t.stores, t.proc, e.pid, false, e.look, e.give);
    if t.tried == NowArmed {
      ArmedRingStays(s1, p2, e.pid, Published(s1, e.pid, e.env).value, e.env, t.stores, t.proc);
    }
  }

  lemma TickListens(s: Stores, p: Proc, e: Event)
    requires e.Tick? && e.timer in p.timers && Listens(p)
    ensures Listens(Handle(s, p, e).1) <==> !Unheard(s, p, e) && !Unreleased(s, p, e)
  {
    hide TryArm, StartRing, Published, StartVanishes;
    var p1 := p.(retryTicks := p.retryTicks + 1);
    AttemptMeans(s, p1, e.pid, e.env);
    var t := TryArm(s, p1, e.pid, e.env);
    StartMeans(t.stores, t.proc, e.pid, true, e.look, e.give);
    CancelMeans(t.proc, e.cancelOk);
    CancelMeans(StartRing(t.stores, t.proc, e.pid, true, e.look, e.give).1, e.cancelOk);
    if t.tried == NowArmed {
      ArmedRingStays(s, p1, e.pid, Published(s, e.pid, e.env).value, e.env, t.stores, t.proc);
    }
  }

  /**
   A handler keeps one listener registered exactly while armed, except exactly when it comes to arm where
   registering fails or comes to unarm where removing fails.
   */
  lemma ListenerExactly(s: Stores, p: Proc, e: Event)
    requires !e.Outside? && Listens(p)
    ensures Listens(Handle(s, p, e).1) <==> !Unheard(s, p, e) && !Unreleased(s, p, e)
  {
    hide OnEdge, OnTick, StartRing, ResumeRing, Unarm, StartVanishes, ResumeVanishes;
    match e
    case Edge(_, mode, _, _, _, _, _, _) => if mode == HOST_MODE { EdgeListens(s, p, e); } else { OtherModes(s, p, e); }
    case Tick(_, timer, _, _, _, _) => if timer in p.timers { TickListens(s, p, e); }
    case Signal(pid, look, give) =>
      StartMeans(s, p, pid, false, look, give);
      UnarmMeans(s, p, pid, give);
      VanishNeedsArmed(s, p);
    case Resumes(pid, threw, cancelOk, look, give) =>
      ResumeMeans(s, p, pid, threw, look, give);
      UnarmMeans(s, p, pid, give);
      CancelMeans(ResumeRing(s, p, pid, threw, look, give).1, cancelOk);
    case WatchError(pid, give) => UnarmMeans(s, p, pid, give);
    case Exit(pid, give) => UnarmMeans(s, p, pid, give);
  }

  lemma VanishNeedsArmed(s: Stores, p: Proc)
    ensures StartVanishes(s, p) ==> p.armed.Some?
  {
  }

  lemma OtherModes(s: Stores, p: Proc, e: Event)
    requires e.Edge? && e.mode != HOST_MODE
    ensures Handle(s, p, e) == (s, p)
  {
  }

  // ---------------------------------------------------------------- all processes, all runs

  predicate AllAgreed(w: World) {
    forall pid <- w.procs :: Agreed(w.stores, w.procs[pid], pid)
  }

  /** A marker owned by a running process is for the garden it is armed for, with its watcher open. */
  predicate Coherent(w: World) {
    forall g <- w.stores.receivers :: w.stores.receivers[g] in w.procs ==>
      var p := w.procs[w.stores.receivers[g]];
      p.armed.Some? && p.armed.value.garden == g && p.armed.value.watcher in p.watchers
  }

  lemma AgreedIsCoherent(w: World)
    requires AllAgreed(w)
    ensures Coherent(w)
  {
  }

  /** What others do to the stores: anything but a marker in the name of one of our processes. */
  predicate Proper(w: World, e: Event) {
    e.Outside? ==> forall g <- e.stores.receivers :: e.stores.receivers[g] in w.procs ==>
      g in w.stores.receivers && w.stores.receivers[g] == e.stores.receivers[g]
  }

  /** Removals succeed, watchers are new, and others forge no marker of ours. */
  predicate Orderly(w: World, e: Event) {
    && Removes(e) && Proper(w, e)
    && (!e.Outside? && e.pid in w.procs ==> NewWatch(w.procs[e.pid], e))
  }

  predicate Clashes(w: World, e: Event) {
    !e.Outside? && e.pid in w.procs && Clash(w.stores, w.procs[e.pid], e)
  }

  /** One handler of one process keeps all of them in agreement exactly when it does not clash. */
  lemma StepAgreesExactly(w: World, e: Event)
    requires AllAgreed(w) && Orderly(w, e)
    ensures AllAgreed(Step(w, e)) <==> !Clashes(w, e)
  {
    hide Handle, Clash, WatchesArmed;
    if !e.Outside? && e.pid in w.procs {
      var p := w.procs[e.pid];
      HandlerAgreesExactly(w.stores, p, e);
      ForeignMarkersStay(w.stores, p, e);
      if e.Exit? { NoExitClash(w.stores, p, e); }
      if Clash(w.stores, p, e) { assert !Agreed(Step(w, e).stores, Step(w, e).procs[e.pid], e.pid); }
    }
  }

  lemma NoExitClash(s: Stores, p: Proc, e: Event)
    requires e.Exit?
    ensures !Clash(s, p, e)
  {
  }

  predicate AllOrderly(w: World, es: seq<Event>)
    decreases |es|
  {
    es == [] || (Orderly(w, es[0]) && AllOrderly(Step(w, es[0]), es[1..]))
  }

  predicate NeverClashes(w: World, es: seq<Event>)
    decreases |es|
  {
    es == [] || (!Clashes(w, es[0]) && NeverClashes(Step(w, es[0]), es[1..]))
  }

  /** Marker and watch agree in every process before the run and after each of its handlers. */
  predicate AlwaysAgreed(w: World, es: seq<Event>)
    decreases |es|
  {
    AllAgreed(w) && (es == [] || AlwaysAgreed(Step(w, es[0]), es[1..]))
  }

  /**
   In every run of every set of processes, with any handlers inside any notices, marker and watch agree
   after every handler exactly when no retry tick ever publishes in a process that is armed.
   */
  lemma {:induction false} RunsAgreeExactly(w: World, es: seq<Event>)
    requires AllAgreed(w) && AllOrderly(w, es)
    ensures AlwaysAgreed(w, es) <==> NeverClashes(w, es)
    decreases |es|
  {
    hide Step, AllAgreed, Clashes, Orderly;
    if es != [] {
      StepAgreesExactly(w, es[0]);
      if !Clashes(w, es[0]) {
        RunsAgreeExactly(Step(w, es[0]), es[1..]);
      } else {
        NotAlways(Step(w, es[0]), es[1..]);
      }
    }
  }

  lemma NotAlways(w: World, es: seq<Event>)
    requires !AllAgreed(w)
    ensures !AlwaysAgreed(w, es)
  {
  }

  // ---------------------------------------------------------------- no marker before its watch

  /** Every marker ever written was written under a watch for its garden that was open at that moment. */
  ghost predicate WatchedFirst(effects: seq<Effect>) {
    forall i :: 0 <= i < |effects| && effects[i].MarkerWritten? ==> exists j :: WatchOpenAt(effects, j, i)
  }

  /** Effect `j` opened a watch for the garden of the marker written at `i`, and nothing closed it in between. */
  predicate WatchOpenAt(effects: seq<Effect>, j: int, i: int)
    requires 0 <= i < |effects| && effects[i].MarkerWritten?
  {
    && 0 <= j < i && effects[j].WatchOpened? && effects[j].garden == effects[i].garden
    && forall k :: j < k < i ==> effects[k] != WatchClosed(effects[j].watcher)
  }

  lemma MoreEffects(effects: seq<Effect>, more: seq<Effect>)
    requires WatchedFirst(effects) && WatchedFirst(more)
    ensures WatchedFirst(effects + more)
  {
    var all := effects + more;
    forall i | 0 <= i < |all| && all[i].MarkerWritten?
      ensures exists j :: WatchOpenAt(all, j, i)
    {
      if i < |effects| {
        var j :| WatchOpenAt(effects, j, i);
        assert WatchOpenAt(all, j, i);
      } else {
        var j :| WatchOpenAt(more, j, i - |effects|);
        assert forall k :: |effects| <= k < |all| ==> all[k] == more[k - |effects|];
        assert WatchOpenAt(all, |effects| + j, i);
      }
    }
  }

  lemma UnarmTrail(s: Stores, p: Proc, pid: nat, give: Give)
    requires WatchedFirst(p.effects)
    ensures WatchedFirst(Unarm(s, p, pid, give).1.effects)
  {
    if p.armed.Some? { MoreEffects(p.effects, [WatchClosed(p.armed.value.watcher)]); }
  }

  lemma LookTrail(s: Stores, p: Proc, pid: nat, garden: string, closing: bool, log: Log, look: Look, give: Give)
    requires WatchedFirst(p.effects)
    ensures WatchedFirst(LookOnce(s, p, pid, garden, closing, log, look, give).1.effects)
  {
    hide Unarm, StampAll, FreshOf, DeliveredIn, WatchedFirst;
    UnarmTrail(s, p, pid, give);
  }

  lemma RingTrail(s: Stores, p: Proc, pid: nat, look: Look, give: Give)
    requires WatchedFirst(p.effects)
    ensures forall closing :: WatchedFirst(StartRing(s, p, pid, closing, look, give).1.effects)
    ensures forall threw :: WatchedFirst(ResumeRing(s, p, pid, threw, look, give).1.effects)
  {
    hide LookOnce, WatchedFirst;
    forall garden, closing, log
      ensures WatchedFirst(LookOnce(s, p, pid, garden, closing, log, look, give).1.effects)
    {
      LookTrail(s, p, pid, garden, closing, log, look, give);
    }
  }

  lemma PublishTrail(s: Stores, p: Proc, pid: nat, garden: string, env: ArmEnv)
    requires WatchedFirst(p.effects)
    ensures WatchedFirst(Publish(s, p, pid, garden, env).proc.effects)
  {
    if env.watch.Some? {
      var open := WatchOpened(garden, env.watch.value);
      var shut, marked := [open, WatchClosed(env.watch.value)], [open, MarkerWritten(garden)];
      assert WatchOpenAt(marked, 0, 1);
      MoreEffects(p.effects, shut);
      MoreEffects(p.effects, marked);
      assert p.effects + [open] + [WatchClosed(env.watch.value)] == p.effects + shut;
      assert p.effects + [open] + [MarkerWritten(garden)] == p.effects + marked;
    }
  }

  lemma TryArmTrail(s: Stores, p: Proc, pid: nat, env: ArmEnv)
    requires WatchedFirst(p.effects)
    ensures WatchedFirst(TryArm(s, p, pid, env).proc.effects)
  {
    hide Publish, WatchedFirst, Resolve;
    if env.canRing && env.native.Some? && env.native.value != "" {
      var resolved := Resolve(s, pid, env.native.value, env.recordOk);
      if resolved.Hosted? && pid > 1 { PublishTrail(s, p, pid, resolved.garden, env); }
    }
  }

  /** No handler, whatever fails in it, writes a marker without an open watch for its garden. */
  lemma NoMarkerBeforeItsWatch(s: Stores, p: Proc, e: Event)
    requires !e.Outside? && WatchedFirst(p.effects)
    ensures WatchedFirst(Handle(s, p, e).1.effects)
  {
    hide TryArm, StartRing, ResumeRing, Unarm, WatchedFirst;
    match e
    case Edge(pid, _, _, cancelOk, env, _, look, give) =>
      UnarmTrail(s, CancelRetry(p, cancelOk), pid, give);
      var (s1, p1) := Unarm(s, CancelRetry(p, cancelOk), pid, give);
      TryArmTrail(s1, p1.(retryTicks := 0), pid, env);
      var t := TryArm(s1, p1.(retryTicks := 0), pid, env);
      RingTrail(t.stores, t.proc, pid, look, give);
    case Tick(pid, _, _, env, look, give) =>
      TryArmTrail(s, p.(retryTicks := p.retryTicks + 1), pid, env);
      var t := TryArm(s, p.(retryTicks := p.retryTicks + 1), pid, env);
      RingTrail(t.stores, t.proc, pid, look, give);
    case Signal(pid, look, give) => RingTrail(s, p, pid, look, give);
    case Resumes(pid, _, _, look, give) => RingTrail(s, p, pid, look, give);
    case WatchError(pid, give) => UnarmTrail(s, p, pid, give);
    case Exit(pid, give) => UnarmTrail(s, p, pid, give);
  }

  ghost predicate AllWatchedFirst(w: World) { forall pid <- w.procs :: WatchedFirst(w.procs[pid].effects) }

  lemma {:induction false} RunsWatchFirst(w: World, es: seq<Event>)
    requires AllWatchedFirst(w)
    ensures AllWatchedFirst(Run(w, es))
    decreases |es|
  {
    hide Handle, WatchedFirst;
    if es != [] {
      if !es[0].Outside? && es[0].pid in w.procs {
        NoMarkerBeforeItsWatch(w.stores, w.procs[es[0].pid], es[0]);
      }
      RunsWatchFirst(Step(w, es[0]), es[1..]);
    }
  }
}
