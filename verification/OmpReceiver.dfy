/**
 The receiver unit over the stores it shares with other processes. One event is one handler of one
 process, run up to the point where it returns or sends the notice of a ring; the return of that call
 is an event of its own, so any handler may run inside a notice. Everything the vendor, the file system
 or another unit answers is part of the event.
 */
module OmpReceiver {
  import opened Options
  import opened OmpMailbox
  import opened OmpDoorbell

  const HOST_MODE := "tui"
  const BACKEND := "omp"
  const MAX_TICKS := 40

  // ---------------------------------------------------------------- stores and processes

  datatype SenderMarker = SenderMarker(garden: string, native: string)

  datatype Identity = Identity(backend: string, native: string)

  /** Live omp sender markers by pid, records and receiver markers (their owner pid) by garden, mailboxes by garden. */
  datatype Stores = Stores(senders: map<nat, SenderMarker>, records: map<string, Identity>,
                           receivers: map<string, nat>, mailboxes: map<string, Mailbox>)

  /** A vendor timer belongs to the context that created it. */
  datatype Timer = Timer(ctx: nat, id: nat)

  datatype Armed = Armed(garden: string, watcher: nat)

  datatype Effect =
    | WatchOpened(garden: string, watcher: nat)
    | WatchClosed(watcher: nat)
    | MarkerWritten(garden: string)

  /** One look of the ring loop: the directory read (None: it throws), how many renames succeed, the recount. */
  datatype Look = Look(listing: Option<seq<string>>, renames: nat, recountOk: bool)

  /** What a ring has done: the mailbox it began with, the turns that are over, what it announced. */
  datatype Log = Log(first: Mailbox, done: seq<Scan>, passes: seq<Pass>)

  /** A ring whose notice has not returned; a retry tick that started a closing one clears its timer afterwards. */
  datatype Ringing = Ringing(garden: string, pending: bool, closing: bool, look: Look, log: Log)

  /** A ring that is over. */
  datatype Rung = Rung(garden: string, first: Mailbox, script: seq<Scan>, ring: Ring)

  /** One process: the receiver's fields, and what is held for it: timers, watchers, exit listeners, its trace. */
  datatype Proc = Proc(armed: Option<Armed>, retryCancel: Option<Timer>, retryTicks: nat, exitGuard: bool,
                       ringing: Option<Ringing>, timers: set<Timer>, watchers: set<nat>, listeners: nat,
                       effects: seq<Effect>, rung: seq<Rung>)

  const FRESH_PROC := Proc(None, None, 0, false, None, {}, {}, 0, [], [])

  /** What an attempt to arm meets; `native` is None when the manager throws or has no string, `watch` if it throws. */
  datatype ArmEnv = ArmEnv(canRing: bool, native: Option<string>, recordOk: bool, mailboxOk: bool, signalOk: bool,
                           watch: Option<nat>, markerOk: bool, guardOk: bool)

  /** What giving a doorbell back meets: the removal of the marker, the removal of the exit listener. */
  datatype Give = Give(removeOk: bool, releaseOk: bool)

  /** A context's timer surface: None when the build lacks one half, otherwise what `setInterval` returned. */
  datatype TimerSurface = Missing | Surface(handle: Option<nat>)

  // ---------------------------------------------------------------- identity, arm, unarm

  datatype Resolution = Hosted(garden: string) | Retryable | Refused

  /** `resolveOmpReceiveIdentity` */
  function Resolve(s: Stores, pid: nat, native: string, recordOk: bool): Resolution {
    if pid !in s.senders || s.senders[pid].native != native then Retryable
    else
      var garden := s.senders[pid].garden;
      if !recordOk || garden !in s.records then Retryable
      else if s.records[garden] != Identity(BACKEND, native) then Refused
      else Hosted(garden)
  }

  function MailboxOf(s: Stores, garden: string): Mailbox {
    if garden in s.mailboxes then s.mailboxes[garden] else map[]
  }

  function Put(s: Stores, garden: string, m: Mailbox): Stores { s.(mailboxes := s.mailboxes[garden := m]) }

  /** The listeners after `releaseExitGuard`, which forgets its own even if removing it throws. */
  function Released(p: Proc, releaseOk: bool): nat {
    if p.exitGuard && releaseOk && p.listeners > 0 then p.listeners - 1 else p.listeners
  }

  /** Close the watch and, in the same breath, remove the marker if it is ours. */
  function Unarm(s: Stores, p: Proc, pid: nat, give: Give): (Stores, Proc) {
    match p.armed
    case None => (s, p)
    case Some(Armed(garden, watcher)) =>
      var mine := garden in s.receivers && s.receivers[garden] == pid;
      (if mine && give.removeOk then s.(receivers := s.receivers - {garden}) else s,
       p.(armed := None, exitGuard := false, listeners := Released(p, give.releaseOk),
          watchers := p.watchers - {watcher}, effects := p.effects + [WatchClosed(watcher)]))
  }

  function WithSignal(s: Stores, garden: string): Stores {
    var m := MailboxOf(s, garden);
    Put(s, garden, if SIGNAL in m then m else m[SIGNAL := ""])
  }

  /** How an attempt to arm ends: retrying may help, it cannot, or the process is armed. */
  datatype Tried = Deferred | Declined | NowArmed

  datatype Attempt = Attempt(stores: Stores, proc: Proc, tried: Tried)

  /** The `try` block of `arm`: mailbox, signal, watch, and only then the marker. */
  function Publish(s: Stores, p: Proc, pid: nat, garden: string, env: ArmEnv): (r: Attempt)
    ensures r.tried == NowArmed ==> env.watch.Some?
  {
    if !env.mailboxOk then Attempt(s, p, Declined)
    else
      var made := Put(s, garden, MailboxOf(s, garden));
      if SIGNAL !in MailboxOf(s, garden) && !env.signalOk then Attempt(made, p, Declined)
      else
        var ready := WithSignal(s, garden);
        match env.watch
        case None => Attempt(ready, p, Declined)
        case Some(watcher) =>
          var trail := p.effects + [WatchOpened(garden, watcher)];
          if !env.markerOk then Attempt(ready, p.(effects := trail + [WatchClosed(watcher)]), Declined)
          else
            Attempt(ready.(receivers := ready.receivers[garden := pid]),
                    p.(watchers := p.watchers + {watcher}, effects := trail + [MarkerWritten(garden)]), NowArmed)
  }

  /** `armExitGuard` */
  function Guarded(p: Proc, guardOk: bool): Proc {
    if !p.exitGuard && guardOk then p.(exitGuard := true, listeners := p.listeners + 1) else p
  }

  /** `arm`, up to the ring for mail that came while nothing was armed. */
  function Arm(s: Stores, p: Proc, pid: nat, garden: string, env: ArmEnv): Attempt {
    if pid <= 1 then Attempt(s, p, Declined)
    else
      var made := Publish(s, p, pid, garden, env);
      if made.tried != NowArmed then made
      else made.(proc := Guarded(made.proc.(armed := Some(Armed(garden, env.watch.value))), env.guardOk))
  }

  /** `tryArm`, up to that ring. */
  function TryArm(s: Stores, p: Proc, pid: nat, env: ArmEnv): Attempt {
    if !env.canRing then Attempt(s, p, Declined)
    else if env.native.None? || env.native.value == "" then Attempt(s, p, Deferred)
    else match Resolve(s, pid, env.native.value, env.recordOk)
      case Retryable => Attempt(s, p, Deferred)
      case Refused => Attempt(s, p, Declined)
      case Hosted(garden) => Arm(s, p, pid, garden, env)
  }

  // ---------------------------------------------------------------- the ring

  function ScanOf(look: Look, notice: Notice): Scan { Scan(look.listing, look.renames, look.recountOk, notice) }

  /** The turn of a look that sends no notice. */
  function Unsent(look: Look): Scan { ScanOf(look, Notice(map[], false, false)) }

  /** The ring is over. */
  function Finish(p: Proc, garden: string, log: Log, more: seq<Scan>, m: Mailbox, outcome: Outcome): Proc {
    p.(ringing := None, rung := p.rung + [Rung(garden, log.first, log.done + more, Ring(m, log.passes, outcome))])
  }

  /** One look of the ring of `garden`: it ends the ring or sends the next notice. */
  function LookOnce(s: Stores, p: Proc, pid: nat, garden: string, closing: bool, log: Log, look: Look,
                    give: Give): (Stores, Proc)
  {
    var m := MailboxOf(s, garden);
    if SIGNAL !in m then
      var (s', p') := Unarm(s, p, pid, give);
      (s', Finish(p', garden, log, [Unsent(look)], m, Vanished))
    else if look.listing.None? then (s, Finish(p, garden, log, [Unsent(look)], m, Broke))
    else
      var names := FreshOf(look.listing.value);
      if names == [] then (s, Finish(p, garden, log, [Unsent(look)], m, Quiet))
      else if look.renames < |names| then
        var cut := StampAll(m, names[..look.renames]);
        (Put(s, garden, cut), Finish(p, garden, log, [Unsent(look)], cut, Broke))
      else
        var stamped := StampAll(m, names);
        if !look.recountOk then (Put(s, garden, stamped), Finish(p, garden, log, [Unsent(look)], stamped, Broke))
        else
          var pass := Pass(m, names, stamped, |DeliveredIn(stamped)|);
          (Put(s, garden, stamped),
           p.(ringing := Some(Ringing(garden, false, closing, look, log.(passes := log.passes + [pass])))))
  }

  /** `ring`: nothing without a doorbell, a request inside another ring, otherwise the first look. */
  function StartRing(s: Stores, p: Proc, pid: nat, closing: bool, look: Look, give: Give): (Stores, Proc) {
    if p.armed.None? then (s, p)
    else if p.ringing.Some? then (s, p.(ringing := Some(p.ringing.value.(pending := true))))
    else
      var garden := p.armed.value.garden;
      LookOnce(s, p, pid, garden, closing, Log(MailboxOf(s, garden), [], []), look, give)
  }

  /** The notice returns or throws; if a ring was requested meanwhile, the loop looks again. */
  function ResumeRing(s: Stores, p: Proc, pid: nat, threw: bool, look: Look, give: Give): (Stores, Proc) {
    match p.ringing
    case None => (s, p)
    case Some(r) =>
      var after := MailboxOf(s, r.garden);
      var turn := ScanOf(r.look, Notice(after, r.pending, threw));
      if threw then (s, Finish(p, r.garden, r.log, [turn], after, Broke))
      else if !r.pending then (s, Finish(p, r.garden, r.log, [turn], after, Quiet))
      else LookOnce(s, p, pid, r.garden, r.closing, r.log.(done := r.log.done + [turn]), look, give)
  }

  // ---------------------------------------------------------------- retry and handlers

  /** The stored closure clears the creator's own timer; it is forgotten even if clearing throws. */
  function CancelRetry(p: Proc, cancelOk: bool): Proc {
    match p.retryCancel
    case None => p
    case Some(t) => p.(retryCancel := None, timers := if cancelOk then p.timers - {t} else p.timers)
  }

  function StartRetry(p: Proc, ctx: nat, surface: TimerSurface): Proc {
    match surface
    case Surface(Some(id)) => p.(retryCancel := Some(Timer(ctx, id)), timers := p.timers + {Timer(ctx, id)})
    case _ => p
  }

  datatype Event =
    | Edge(pid: nat, mode: string, ctx: nat, cancelOk: bool, env: ArmEnv, surface: TimerSurface, look: Look, give: Give)
    | Tick(pid: nat, timer: Timer, cancelOk: bool, env: ArmEnv, look: Look, give: Give)
    | Signal(pid: nat, look: Look, give: Give)
    | Resumes(pid: nat, threw: bool, cancelOk: bool, look: Look, give: Give)
    | WatchError(pid: nat, give: Give)
    | Exit(pid: nat, give: Give)
    | Outside(stores: Stores)

  function OnEdge(s: Stores, p: Proc, e: Event): (Stores, Proc)
    requires e.Edge?
  {
    if e.mode != HOST_MODE then (s, p)
    else
      var (s1, p1) := Unarm(s, CancelRetry(p, e.cancelOk), e.pid, e.give);
      var t := TryArm(s1, p1.(retryTicks := 0), e.pid, e.env);
      match t.tried
      case Deferred => (t.stores, StartRetry(t.proc, e.ctx, e.surface))
      case Declined => (t.stores, t.proc)
      case NowArmed => StartRing(t.stores, t.proc, e.pid, false, e.look, e.give)
  }

  /** One firing of a retry timer. If its startup ring sends a notice, its clearing waits for the ring. */
  function OnTick(s: Stores, p: Proc, e: Event): (Stores, Proc)
    requires e.Tick?
  {
    var t := TryArm(s, p.(retryTicks := p.retryTicks + 1), e.pid, e.env);
    match t.tried
    case Deferred => (t.stores, if t.proc.retryTicks >= MAX_TICKS then CancelRetry(t.proc, e.cancelOk) else t.proc)
    case Declined => (t.stores, CancelRetry(t.proc, e.cancelOk))
    case NowArmed =>
      var (s', p') := StartRing(t.stores, t.proc, e.pid, true, e.look, e.give);
      (s', if p.ringing.None? && p'.ringing.Some? then p' else CancelRetry(p', e.cancelOk))
  }

  /** A ring of a retry tick is under way; the tick has still to clear the stored timer. */
  predicate Closing(p: Proc) { p.ringing.Some? && p.ringing.value.closing }

  function OnResume(s: Stores, p: Proc, e: Event): (Stores, Proc)
    requires e.Resumes?
  {
    var (s', p') := ResumeRing(s, p, e.pid, e.threw, e.look, e.give);
    (s', if Closing(p) && p'.ringing.None? then CancelRetry(p', e.cancelOk) else p')
  }

  function Handle(s: Stores, p: Proc, e: Event): (Stores, Proc) {
    match e
    case Edge(_, _, _, _, _, _, _, _) => OnEdge(s, p, e)
    case Tick(_, timer, _, _, _, _) => if timer in p.timers then OnTick(s, p, e) else (s, p)
    case Signal(pid, look, give) => StartRing(s, p, pid, false, look, give)
    case Resumes(_, _, _, _, _) => OnResume(s, p, e)
    case WatchError(pid, give) => Unarm(s, p, pid, give)
    case Exit(pid, give) => if p.listeners > 0 then Unarm(s, p, pid, give) else (s, p)
    case Outside(stores) => (stores, p)
  }

  // ---------------------------------------------------------------- birth, on the shared stores

  /** Birth's edge: the record, then the sender marker keyed to the process. */
  function Born(s: Stores, pid: nat, native: string, garden: string): Stores {
    s.(records := s.records[garden := Identity(BACKEND, native)],
       senders := s.senders[pid := SenderMarker(garden, native)])
  }

  // ---------------------------------------------------------------- runs of several processes

  datatype World = World(stores: Stores, procs: map<nat, Proc>)

  function Step(w: World, e: Event): World {
    if e.Outside? then w.(stores := e.stores)
    else if e.pid !in w.procs then w
    else
      var (s, p) := Handle(w.stores, w.procs[e.pid], e);
      World(s, if e.Exit? then w.procs - {e.pid} else w.procs[e.pid := p])
  }

  function Run(w: World, es: seq<Event>): World
    decreases |es|
  {
    if es == [] then w else Run(Step(w, es[0]), es[1..])
  }
}
