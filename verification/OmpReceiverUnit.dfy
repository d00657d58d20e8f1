/**
 The receiver as the source writes it: one object per process, updating its fields and the stores in
 place, the ring a loop whose notice runs handlers of the same object before it returns. Every method is
 proved to do what a run of the event machine does; what every run keeps is proved of that machine.
 */
module OmpReceiverUnit {
  import opened Options
  import opened OmpMailbox
  import opened OmpDoorbell
  import opened OmpReceiver
  import opened OmpReceiverSafety

  // ---------------------------------------------------------------- what a call that runs to its end does

  /** One turn of the loop: its look, what runs inside its notice, and whether the notice throws. */
  datatype Turn = Turn(look: Look, inside: seq<Event>, threw: bool)

  /** A script that has run out reads as a directory that cannot be listed. */
  function LookOf(script: seq<Turn>): Look { if script == [] then Look(None, 0, false) else script[0].look }

  /** What may run inside a notice of process `pid`: its own handlers but its exit, and other processes. */
  predicate MayRun(pid: nat, e: Event) { e.Outside? || (e.pid == pid && !e.Resumes? && !e.Exit?) }

  predicate Allowed(pid: nat, script: seq<Turn>) {
    forall turn <- script :: forall e <- turn.inside :: MayRun(pid, e)
  }

  function Folded(s: Stores, p: Proc, es: seq<Event>): (Stores, Proc)
    decreases |es|
  {
    if es == [] then (s, p) else var (s', p') := Handle(s, p, es[0]); Folded(s', p', es[1..])
  }

  /** A ring under way, to its end. */
  function Unwound(s: Stores, p: Proc, pid: nat, script: seq<Turn>, give: Give): (Stores, Proc)
    decreases |script|
  {
    if p.ringing.None? || script == [] then (s, p)
    else
      var (s1, p1) := Folded(s, p, script[0].inside);
      var (s2, p2) := ResumeRing(s1, p1, pid, script[0].threw, LookOf(script[1..]), give);
      Unwound(s2, p2, pid, script[1..], give)
  }

  /** The same, and the clearing a retry tick has still to do. */
  function Finished(s: Stores, p: Proc, pid: nat, script: seq<Turn>, give: Give, cancelOk: bool): (Stores, Proc) {
    var (s', p') := Unwound(s, p, pid, script, give);
    (s', if Closing(p) && p'.ringing.None? then CancelRetry(p', cancelOk) else p')
  }

  lemma {:induction false} FoldedConcat(s: Stores, p: Proc, a: seq<Event>, b: seq<Event>)
    ensures var (s', p') := Folded(s, p, a);
      Folded(s, p, a + b) == Folded(s', p', b)
    decreases |a|
  {
    if a == [] {
      assert a + b == b;
    } else {
      assert (a + b)[1..] == a[1..] + b;
      var (s1, p1) := Handle(s, p, a[0]);
      FoldedConcat(s1, p1, a[1..], b);
    }
  }

  /** Inside a notice the ring goes on as it was, but that another look may be asked for. */
  predicate SameRing(p: Proc, p': Proc) {
    p.ringing.Some? && p'.ringing.Some?
    && p'.ringing.value == p.ringing.value.(pending := p'.ringing.value.pending)
  }

  lemma InnerKeepsRing(s: Stores, p: Proc, pid: nat, e: Event)
    requires MayRun(pid, e) && p.ringing.Some?
    ensures SameRing(p, Handle(s, p, e).1)
  {
    hide TryArm, Unarm, LookOnce, BecomesArmed;
    match e
    case Edge(_, _, _, cancelOk, env, _, look, give) =>
      UnarmMeans(s, CancelRetry(p, cancelOk), pid, give);
      var (s1, p1) := Unarm(s, CancelRetry(p, cancelOk), pid, give);
      AttemptMeans(s1, p1.(retryTicks := 0), pid, env);
    case Tick(_, _, _, env, look, give) =>
      AttemptMeans(s, p.(retryTicks := p.retryTicks + 1), pid, env);
    case Signal(_, look, give) =>
    case WatchError(_, give) => UnarmMeans(s, p, pid, give);
    case Outside(_) =>
  }

  lemma {:induction false} FoldedKeepsRing(s: Stores, p: Proc, pid: nat, es: seq<Event>)
    requires p.ringing.Some? && forall e <- es :: MayRun(pid, e)
    ensures SameRing(p, Folded(s, p, es).1)
    decreases |es|
  {
    hide Handle;
    if es != [] {
      assert es[0] in es && forall e <- es[1..] :: e in es;
      InnerKeepsRing(s, p, pid, es[0]);
      var (s1, p1) := Handle(s, p, es[0]);
      FoldedKeepsRing(s1, p1, pid, es[1..]);
    }
  }

  lemma ResumeKeepsClosing(s: Stores, p: Proc, pid: nat, threw: bool, look: Look, give: Give)
    ensures var p' := ResumeRing(s, p, pid, threw, look, give).1;
      p'.ringing.Some? ==> Closing(p') == Closing(p)
  {
    hide ResumeRing, Bells;
    ResumeMeans(s, p, pid, threw, look, give);
  }

  /** A call that runs to its end is a run of single events: what runs in its notices, and their returns. */
  lemma {:induction false} FinishedIsRun(s: Stores, p: Proc, pid: nat, script: seq<Turn>, give: Give, cancelOk: bool)
      returns (es: seq<Event>)
    requires p.ringing.Some? && Allowed(pid, script)
    ensures Folded(s, p, es) == Finished(s, p, pid, script, give, cancelOk)
    ensures forall e <- es :: Own(pid, e)
    decreases |script|
  {
    hide Handle, ResumeRing, Folded;
    if script == [] {
      es := [];
      NothingFolded(s, p);
    } else {
      assert script[0] in script && forall turn <- script[1..] :: turn in script;
      var inside, last := script[0].inside, Resumes(pid, script[0].threw, cancelOk, LookOf(script[1..]), give);
      FoldedKeepsRing(s, p, pid, inside);
      var (s1, p1) := Folded(s, p, inside);
      ResumeKeepsClosing(s1, p1, pid, script[0].threw, LookOf(script[1..]), give);
      ResumeHandled(s1, p1, last);
      var (s2, p2) := ResumeRing(s1, p1, pid, script[0].threw, LookOf(script[1..]), give);
      var (s3, p3) := Handle(s1, p1, last);
      assert Unwound(s, p, pid, script, give) == Unwound(s2, p2, pid, script[1..], give);
      NoRingNoTurn(s2, p2, pid, script[1..], give);
      var rest: seq<Event> := [];
      if p2.ringing.Some? { rest := FinishedIsRun(s2, p2, pid, script[1..], give, cancelOk); }
      es := inside + ([last] + rest);
      FoldedConcat(s, p, inside, [last] + rest);
      FoldedCons(s1, p1, last, rest);
      NothingFolded(s3, p3);
    }
  }

  /** An event of the process that does not end it, or one outside. */
  predicate Own(pid: nat, e: Event) { e.Outside? || (e.pid == pid && !e.Exit?) }

  /** A call, its notices and all, is a run of the machine in which no other process moves by a handler of its own. */
  lemma {:induction false} CallIsRun(w: World, pid: nat, e: Event, script: seq<Turn>) returns (es: seq<Event>)
    requires pid in w.procs && w.procs[pid].ringing.None?
    requires (e.Edge? || e.Tick?) && e.pid == pid && Allowed(pid, script)
    ensures var (s, p) := Called(w.stores, w.procs[pid], e, script);
      es != [] && es[0] == e && Run(w, es) == World(s, w.procs[pid := p])
  {
    hide Handle, Finished;
    var (s, p) := Handle(w.stores, w.procs[pid], e);
    var rest: seq<Event> := [];
    if p.ringing.Some? { rest := FinishedIsRun(s, p, pid, script, e.give, e.cancelOk); }
    NoRingNoCall(s, p, pid, script, e.give, e.cancelOk);
    es := [e] + rest;
    assert es[1..] == rest;
    var next := Step(w, e);
    FoldedIsRun(next, pid, rest);
    NothingFolded(s, p);
    assert next.procs[pid := Folded(s, p, rest).1] == w.procs[pid := Folded(s, p, rest).1];
  }

  lemma NoRingNoCall(s: Stores, p: Proc, pid: nat, script: seq<Turn>, give: Give, cancelOk: bool)
    ensures p.ringing.None? ==> Finished(s, p, pid, script, give, cancelOk) == (s, p)
  {
    NoRingNoTurn(s, p, pid, script, give);
  }

  lemma {:induction false} FoldedIsRun(w: World, pid: nat, es: seq<Event>)
    requires pid in w.procs && forall e <- es :: Own(pid, e)
    ensures var (s, p) := Folded(w.stores, w.procs[pid], es);
      Run(w, es) == World(s, w.procs[pid := p])
    decreases |es|
  {
    hide Handle;
    if es == [] {
      assert w.procs[pid := w.procs[pid]] == w.procs;
    } else {
      assert es[0] in es && forall e <- es[1..] :: e in es;
      var (s, p) := Handle(w.stores, w.procs[pid], es[0]);
      OutsideKeepsProc(w.stores, w.procs[pid], es[0]);
      var next := Step(w, es[0]);
      assert next == World(s, w.procs[pid := p]);
      FoldedIsRun(next, pid, es[1..]);
      var (_, q) := Folded(s, p, es[1..]);
      assert next.procs[pid := q] == w.procs[pid := q];
    }
  }

  lemma OutsideKeepsProc(s: Stores, p: Proc, e: Event)
    ensures e.Outside? ==> Handle(s, p, e) == (e.stores, p)
  {
  }

  lemma NothingFolded(s: Stores, p: Proc)
    ensures Folded(s, p, []) == (s, p)
  {
  }

  lemma FoldedCons(s: Stores, p: Proc, e: Event, rest: seq<Event>)
    ensures var (s', p') := Handle(s, p, e);
      Folded(s, p, [e] + rest) == Folded(s', p', rest)
  {
    hide Handle;
    assert ([e] + rest)[1..] == rest;
  }

  lemma ResumeHandled(s: Stores, p: Proc, e: Event)
    requires e.Resumes?
    ensures var (s', p') := ResumeRing(s, p, e.pid, e.threw, e.look, e.give);
      Handle(s, p, e) == (s', if Closing(p) && p'.ringing.None? then CancelRetry(p', e.cancelOk) else p')
  {
    hide ResumeRing;
  }

  lemma NoRingNoTurn(s: Stores, p: Proc, pid: nat, script: seq<Turn>, give: Give)
    ensures p.ringing.None? ==> Unwound(s, p, pid, script, give) == (s, p)
  {
  }

  lemma NoRingAfterClear(s: Stores, p: Proc, pid: nat, script: seq<Turn>, e: Event)
    requires e.Tick?
    ensures var p' := CancelRetry(p, e.cancelOk);
      && p'.ringing == p.ringing
      && (p.ringing.None? ==> Unwound(s, p', pid, script, e.give) == (s, p'))
      && (p.ringing.None? ==> Unwound(s, p, pid, script, e.give) == (s, p))
  {
  }

  lemma LookIgnoresRinging(s: Stores, p: Proc, q: Proc, pid: nat, garden: string, closing: bool,
                           log: Log, look: Look, give: Give)
    requires q == p.(ringing := q.ringing)
    ensures LookOnce(s, q, pid, garden, closing, log, look, give)
         == LookOnce(s, p, pid, garden, closing, log, look, give)
  {
    hide StampAll, FreshOf, DeliveredIn;
  }

  lemma {:induction false} StampOneMore(m: Mailbox, names: seq<string>, k: nat)
    requires k < |names|
    ensures StampAll(m, names[..k + 1]) == Rename(StampAll(m, names[..k]), names[k])
    decreases k
  {
    if k > 0 {
      StampOneMore(Rename(m, names[0]), names[1..], k - 1);
      assert names[..k + 1][1..] == names[1..][..k] && names[..k][1..] == names[1..][..k - 1];
    }
  }

  /** What a call of the handler does: inside a notice one event, from outside all until its ring, if any, is over. */
  function Called(s0: Stores, p0: Proc, e: Event, script: seq<Turn>): (Stores, Proc)
    requires e.Edge? || e.Tick?
  {
    var (s, p) := Handle(s0, p0, e);
    if p0.ringing.Some? then (s, p) else Finished(s, p, e.pid, script, e.give, e.cancelOk)
  }

  /** What a ring started by the handler does, without the clearing a retry tick has still to do. */
  function Rang(t: Attempt, was: bool, pid: nat, closing: bool, script: seq<Turn>, give: Give): (Stores, Proc) {
    var (s, p) := StartRing(t.stores, t.proc, pid, closing, LookOf(script), give);
    if was then (s, p) else Unwound(s, p, pid, script, give)
  }

  lemma EdgeCall(s0: Stores, p0: Proc, e: Event, script: seq<Turn>)
    requires e.Edge? && e.look == LookOf(script)
    ensures e.mode != HOST_MODE ==> Called(s0, p0, e, script) == (s0, p0)
    ensures e.mode == HOST_MODE ==>
      var (s1, p1) := Unarm(s0, CancelRetry(p0, e.cancelOk), e.pid, e.give);
      var t := TryArm(s1, p1.(retryTicks := 0), e.pid, e.env);
      Called(s0, p0, e, script) == match t.tried
        case Deferred => (t.stores, StartRetry(t.proc, e.ctx, e.surface))
        case Declined => (t.stores, t.proc)
        case NowArmed => Rang(t, p0.ringing.Some?, e.pid, false, script, e.give)
  {
    hide TryArm, Unarm, CancelRetry, StartRing, Unwound, BecomesArmed, Bells;
    var cancelled := CancelRetry(p0, e.cancelOk);
    CancelMeans(p0, e.cancelOk);
    UnarmMeans(s0, cancelled, e.pid, e.give);
    var (s1, p1) := Unarm(s0, cancelled, e.pid, e.give);
    AttemptMeans(s1, p1.(retryTicks := 0), e.pid, e.env);
    var t := TryArm(s1, p1.(retryTicks := 0), e.pid, e.env);
    StartMeans(t.stores, t.proc, e.pid, false, e.look, e.give);
    var (s2, p2) := Handle(s0, p0, e);
    NoRingNoTurn(s2, p2, e.pid, script, e.give);
  }

  lemma TickCall(s0: Stores, p0: Proc, e: Event, script: seq<Turn>)
    requires e.Tick? && e.look == LookOf(script) && e.timer in p0.timers
    requires var t := TryArm(s0, p0.(retryTicks := p0.retryTicks + 1), e.pid, e.env);
      p0.ringing.None? && t.tried == NowArmed ==> Rang(t, false, e.pid, true, script, e.give).1.ringing.None?
    ensures var t := TryArm(s0, p0.(retryTicks := p0.retryTicks + 1), e.pid, e.env);
      Called(s0, p0, e, script) == match t.tried
        case Deferred =>
          (t.stores, if t.proc.retryTicks >= MAX_TICKS then CancelRetry(t.proc, e.cancelOk) else t.proc)
        case Declined => (t.stores, CancelRetry(t.proc, e.cancelOk))
        case NowArmed =>
          var (s, p) := Rang(t, p0.ringing.Some?, e.pid, true, script, e.give);
          (s, CancelRetry(p, e.cancelOk))
  {
    hide TryArm, CancelRetry, StartRing, Unwound, BecomesArmed, Bells;
    var p1 := p0.(retryTicks := p0.retryTicks + 1);
    AttemptMeans(s0, p1, e.pid, e.env);
    var t := TryArm(s0, p1, e.pid, e.env);
    StartMeans(t.stores, t.proc, e.pid, true, e.look, e.give);
    var (s2, p2) := StartRing(t.stores, t.proc, e.pid, true, e.look, e.give);
    NoRingNoTurn(s2, p2, e.pid, script, e.give);
    NoRingAfterClear(s2, p2, e.pid, script, e);
    NoRingAfterClear(t.stores, t.proc, e.pid, script, e);
  }

  // ---------------------------------------------------------------- the object

  /** The directories every process shares. */
  class Shared {
    var senders: map<nat, SenderMarker>
    var records: map<string, Identity>
    var receivers: map<string, nat>
    var mailboxes: map<string, Mailbox>

    function View(): Stores
      reads this
    {
      Stores(senders, records, receivers, mailboxes)
    }
  }

  class Receiver {
    const pid: nat
    const shared: Shared
    var armed: Option<Armed>
    var retryCancel: Option<Timer>
    var retryTicks: nat
    var exitGuard: bool
    var ringing: bool
    var pending: bool
    // What the vendor and the process hold for it.
    var timers: set<Timer>
    var listeners: nat
    ghost var watchers: set<nat>
    // What the ring under way has done, and all that is recorded.
    ghost var ring: Ringing
    ghost var effects: seq<Effect>
    ghost var rung: seq<Rung>

    ghost function View(): Proc
      reads this
    {
      Proc(armed, retryCancel, retryTicks, exitGuard, if ringing then Some(ring.(pending := pending)) else None,
           timers, watchers, listeners, effects, rung)
    }

    ghost function State(): (Stores, Proc)
      reads this, shared
    {
      (shared.View(), View())
    }

    constructor (pid: nat, shared: Shared)
      ensures this.pid == pid && this.shared == shared && View() == FRESH_PROC
    {
      this.pid, this.shared := pid, shared;
      armed, retryCancel, retryTicks, exitGuard, ringing, pending := None, None, 0, false, false, false;
      timers, listeners, watchers, effects, rung := {}, 0, {}, [], [];
    }

    method ReleaseExitGuard(releaseOk: bool)
      modifies this`exitGuard, this`listeners
      ensures !exitGuard && listeners == old(Released(View(), releaseOk))
    {
      if !exitGuard { return; }
      if releaseOk && listeners > 0 { listeners := listeners - 1; }
      exitGuard := false;
    }

    method Unarm(give: Give)
      modifies this`armed, this`exitGuard, this`listeners, this`watchers, this`effects, shared`receivers
      ensures State() == OmpReceiver.Unarm(old(shared.View()), old(View()), pid, give)
    {
      if armed.None? { return; }
      var held := armed.value;
      armed := None;
      ReleaseExitGuard(give.releaseOk);
      watchers, effects := watchers - {held.watcher}, effects + [WatchClosed(held.watcher)];
      if held.garden in shared.receivers && shared.receivers[held.garden] == pid && give.removeOk {
        shared.receivers := shared.receivers - {held.garden};
      }
    }

    // -------------------------------------------------------------- the ring

    /** Rename the names one after the other; the given number of renames succeeds. */
    method Stamp(garden: string, names: seq<string>, renames: nat) returns (threw: bool)
      requires garden in shared.mailboxes
      modifies shared`mailboxes
      ensures threw == (renames < |names|)
      ensures var done := if threw then names[..renames] else names;
        shared.mailboxes == old(shared.mailboxes)[garden := StampAll(old(shared.mailboxes[garden]), done)]
    {
      threw := false;
      ghost var m := shared.mailboxes[garden];
      for k := 0 to |names|
        invariant garden in shared.mailboxes && k <= renames && !threw
        invariant StampAll(m, names[..k]) == shared.mailboxes[garden]
        invariant shared.mailboxes == old(shared.mailboxes)[garden := shared.mailboxes[garden]]
      {
        if k == renames {
          threw := true;
          return;
        }
        StampOneMore(m, names, k);
        shared.mailboxes := shared.mailboxes[garden := Rename(shared.mailboxes[garden], names[k])];
      }
      assert names[..|names|] == names;
    }

    /** The loop is left: `finally` takes the flag down. */
    method Leave(ghost garden: string, ghost log: Log, ghost more: seq<Scan>, ghost m: Mailbox, ghost outcome: Outcome)
      modifies this`ringing, this`rung
      ensures !ringing && View() == Finish(old(View()), garden, log, more, m, outcome)
    {
      rung := rung + [Rung(garden, log.first, log.done + more, OmpDoorbell.Ring(m, log.passes, outcome))];
      ringing := false;
    }

    /** The body of the loop up to the notice: true if the notice is sent, otherwise the ring is over. */
    method LookAround(garden: string, look: Look, give: Give) returns (sent: bool)
      requires ringing && !pending && ring.garden == garden
      modifies this`armed, this`exitGuard, this`listeners, this`watchers, this`effects
      modifies this`ringing, this`ring, this`rung
      modifies shared`receivers, shared`mailboxes
      ensures sent == ringing && (sent ==> look.listing.Some?)
      ensures sent ==> ring.garden == garden && ring.closing == old(ring.closing)
      ensures State()
           == LookOnce(old(shared.View()), old(View()), pid, garden, old(ring.closing), old(ring.log), look, give)
    {
      hide StampAll, FreshOf, DeliveredIn;
      sent := false;
      ghost var m := MailboxOf(shared.View(), garden);
      ghost var last := [Unsent(look)];
      if garden !in shared.mailboxes || SIGNAL !in shared.mailboxes[garden] {
        Unarm(give);
        Leave(garden, ring.log, last, m, Vanished);
        return;
      }
      if look.listing.None? {
        Leave(garden, ring.log, last, m, Broke);
        return;
      }
      var names := FreshOf(look.listing.value);
      if names == [] {
        Leave(garden, ring.log, last, m, Quiet);
        return;
      }
      var threw := Stamp(garden, names, look.renames);
      if threw || !look.recountOk {
        Leave(garden, ring.log, last, MailboxOf(shared.View(), garden), Broke);
        return;
      }
      var unread := |DeliveredIn(shared.mailboxes[garden])|;
      ghost var pass := Pass(m, names, shared.mailboxes[garden], unread);
      ring := ring.(look := look, log := ring.log.(passes := ring.log.passes + [pass]), pending := false);
      sent := true;
    }

    /** What the vendor lets run before a notice returns. */
    method RunInside(inside: seq<Event>)
      requires ringing && forall e <- inside :: MayRun(pid, e)
      modifies this, shared
      ensures ringing && State() == Folded(old(shared.View()), old(View()), inside)
      decreases 0, 9
    {
      hide Handle;
      ghost var s0, p0 := shared.View(), View();
      assert inside[0..] == inside;
      for k := 0 to |inside|
        invariant ringing
        invariant Folded(s0, p0, inside) == Folded(shared.View(), View(), inside[k..])
      {
        assert inside[k] in inside && inside[k..][0] == inside[k] && inside[k..][1..] == inside[k + 1..];
        RunOne(inside[k]);
      }
    }

    method RunOne(e: Event)
      requires ringing && MayRun(pid, e)
      modifies this, shared
      ensures ringing && State() == Handle(old(shared.View()), old(View()), e)
      decreases 0, 8
    {
      hide OmpReceiver.OnEdge, OmpReceiver.OnTick, StartRing, OmpReceiver.Unarm;
      ghost var s0, p0 := shared.View(), View();
      match e
      case Edge(_, _, _, _, _, _, _, _) => OnEdge(e, [Turn(e.look, [], false)]);
      case Tick(_, timer, _, _, _, _) => if timer in timers { OnTick(e, [Turn(e.look, [], false)]); }
      case Signal(_, look, give) => OnSignal([Turn(look, [], false)], give);
      case WatchError(_, give) => Unarm(give);
      case Outside(stores) =>
        shared.senders, shared.records := stores.senders, stores.records;
        shared.receivers, shared.mailboxes := stores.receivers, stores.mailboxes;
      case _ => assert false;
    }

    /**
     The loop, one turn of the script a time. A ring asked for inside a notice is a nested call, which finds
     `ringing` set and leaves `pending` behind.
     */
    method Ring(ghost closing: bool, script: seq<Turn>, give: Give)
      requires Allowed(pid, script)
      modifies this, shared
      ensures old(ringing) ==>
        ringing && State() == StartRing(old(shared.View()), old(View()), pid, closing, LookOf(script), give)
      ensures !old(ringing) ==> !ringing && RangOut(old(shared.View()), old(View()), closing, script, give)
      decreases if ringing then 0 else 1, 2
    {
      hide LookOnce, Folded, OmpReceiver.Unarm;
      if armed.None? { return; }
      var garden := armed.value.garden;
      if ringing {
        pending := true;
        return;
      }
      ghost var s0, p0 := shared.View(), View();
      ghost var (s1, p1) := StartRing(s0, p0, pid, closing, LookOf(script), give);
      ghost var end := Unwound(s1, p1, pid, script, give);
      ringing := true;
      ring := Ringing(garden, false, closing, LookOf(script), Log(MailboxOf(shared.View(), garden), [], []));
      LookIgnoresRinging(s0, p0, View(), pid, garden, closing, ring.log, LookOf(script), give);
      var i, again := 0, true;
      assert script[0..] == script;
      while again
        invariant i <= |script| && again ==> Ahead(end, garden, closing, script[i..], give)
        invariant i <= |script| && (again ==> ringing && ring.garden == garden && ring.closing == closing)
        invariant !again ==> !ringing && State() == end
        decreases again, |script| - i
      {
        again := Turned(end, garden, closing, script[i..], give);
        i := if again then i + 1 else i;
      }
    }

    /** A whole ring, from its first look to its end. */
    ghost predicate RangOut(s0: Stores, p0: Proc, closing: bool, script: seq<Turn>, give: Give)
      reads this, shared
    {
      var (s, p) := StartRing(s0, p0, pid, closing, LookOf(script), give);
      State() == Unwound(s, p, pid, script, give)
    }

    /** What is left of the ring is what is left of the whole call. */
    ghost predicate Ahead(end: (Stores, Proc), garden: string, closing: bool, script: seq<Turn>, give: Give)
      reads this, shared
    {
      var (s, p) := LookOnce(shared.View(), View(), pid, garden, closing, ring.log, LookOf(script), give);
      Unwound(s, p, pid, script, give) == end
    }

    /** One turn of the loop, from `pending = false` to the test of `pending`. */
    method Turned(ghost end: (Stores, Proc), garden: string, ghost closing: bool, script: seq<Turn>, give: Give)
        returns (again: bool)
      requires Allowed(pid, script) && ringing && ring.garden == garden && ring.closing == closing
      requires Ahead(end, garden, closing, script, give)
      modifies this, shared
      ensures again ==> script != [] && ringing && ring.garden == garden && ring.closing == closing
      ensures again ==> Ahead(end, garden, closing, script[1..], give)
      ensures !again ==> !ringing && State() == end
      decreases 0, 10
    {
      hide LookOnce, Folded, OmpReceiver.Unarm;
      LookIgnoresRinging(shared.View(), View(), View().(ringing := Some(ring.(pending := false))), pid, garden, closing,
                         ring.log, LookOf(script), give);
      pending := false;
      var sent := LookAround(garden, LookOf(script), give);
      if !sent { return false; }
      ghost var s1, p1 := shared.View(), View();
      assert script[0] in script && forall turn <- script[1..] :: turn in script;
      FoldedKeepsRing(s1, p1, pid, script[0].inside);
      RunInside(script[0].inside);
      ghost var after := MailboxOf(shared.View(), garden);
      ghost var turn := ScanOf(ring.look, Notice(after, pending, script[0].threw));
      ghost var s2, p2 := shared.View(), View();
      ghost var (s3, p3) := ResumeRing(s2, p2, pid, script[0].threw, LookOf(script[1..]), give);
      assert Unwound(s1, p1, pid, script, give) == Unwound(s3, p3, pid, script[1..], give);
      NoRingNoTurn(s3, p3, pid, script[1..], give);
      if script[0].threw {
        Leave(garden, ring.log, [turn], after, Broke);
        return false;
      }
      again := pending;
      if !again {
        Leave(garden, ring.log, [turn], after, Quiet);
        return;
      }
      ring := ring.(log := ring.log.(done := ring.log.done + [turn]));
      LookIgnoresRinging(s2, p2, View(), pid, garden, closing, ring.log, LookOf(script[1..]), give);
    }

    // -------------------------------------------------------------- arming

    /** The `try` block of `arm`; a watch whose marker could not be written is closed again. */
    method Publish(garden: string, env: ArmEnv) returns (made: bool)
      modifies this`watchers, this`effects, shared`mailboxes, shared`receivers
      ensures Attempt(shared.View(), View(), if made then NowArmed else Declined)
           == OmpReceiver.Publish(old(shared.View()), old(View()), pid, garden, env)
    {
      made := false;
      if !env.mailboxOk { return; }
      if garden !in shared.mailboxes { shared.mailboxes := shared.mailboxes[garden := map[]]; }
      assert shared.mailboxes == old(shared.mailboxes)[garden := MailboxOf(old(shared.View()), garden)];
      if SIGNAL !in shared.mailboxes[garden] {
        if !env.signalOk { return; }
        shared.mailboxes := shared.mailboxes[garden := shared.mailboxes[garden][SIGNAL := ""]];
      }
      assert shared.mailboxes == WithSignal(old(shared.View()), garden).mailboxes;
      if env.watch.None? { return; }
      var watcher := env.watch.value;
      effects := effects + [WatchOpened(garden, watcher)];
      if !env.markerOk {
        effects := effects + [WatchClosed(watcher)];
        return;
      }
      watchers := watchers + {watcher};
      shared.receivers := shared.receivers[garden := pid];
      effects := effects + [MarkerWritten(garden)];
      made := true;
    }

    method ArmExitGuard(guardOk: bool)
      modifies this`exitGuard, this`listeners
      ensures View() == Guarded(old(View()), guardOk)
    {
      if exitGuard { return; }
      if guardOk { exitGuard, listeners := true, listeners + 1; }
    }

    method Arm(garden: string, env: ArmEnv, ghost closing: bool, script: seq<Turn>, give: Give) returns (handled: bool)
      requires Allowed(pid, script)
      modifies this, shared
      ensures handled && ringing == old(ringing)
      ensures var t := OmpReceiver.Arm(old(shared.View()), old(View()), pid, garden, env);
        if t.tried == NowArmed then State() == Rang(t, old(ringing), pid, closing, script, give)
        else t == Attempt(shared.View(), View(), Declined)
      decreases if ringing then 0 else 1, 3
    {
      hide OmpReceiver.Publish, StartRing, Unwound;
      handled := true;
      if pid <= 1 { return; }
      var made := Publish(garden, env);
      if !made { return; }
      armed := Some(Armed(garden, env.watch.value));
      ArmExitGuard(env.guardOk);
      Ring(closing, script, give);
    }

    method TryArm(env: ArmEnv, ghost closing: bool, script: seq<Turn>, give: Give) returns (handled: bool)
      requires Allowed(pid, script)
      modifies this, shared
      ensures ringing == old(ringing)
      ensures var t := OmpReceiver.TryArm(old(shared.View()), old(View()), pid, env);
        && handled == (t.tried != Deferred)
        && if t.tried == NowArmed then State() == Rang(t, old(ringing), pid, closing, script, give)
           else State() == (t.stores, t.proc)
      decreases if ringing then 0 else 1, 4
    {
      hide OmpReceiver.Arm, Rang;
      if !env.canRing { return true; }
      if env.native.None? || env.native.value == "" { return false; }
      match Resolve(shared.View(), pid, env.native.value, env.recordOk)
      case Retryable => return false;
      case Refused => return true;
      case Hosted(garden) => handled := Arm(garden, env, closing, script, give);
    }

    // -------------------------------------------------------------- retry and handlers

    method StartRetry(ctx: nat, surface: TimerSurface)
      modifies this`retryCancel, this`timers
      ensures View() == OmpReceiver.StartRetry(old(View()), ctx, surface)
    {
      if surface.Missing? || surface.handle.None? { return; }
      var timer := Timer(ctx, surface.handle.value);
      timers := timers + {timer};
      retryCancel := Some(timer);
    }

    /** The stored closure is forgotten first, then called; it reaches only its own timer. */
    method CancelRetry(cancelOk: bool)
      modifies this`retryCancel, this`timers
      ensures View() == OmpReceiver.CancelRetry(old(View()), cancelOk)
    {
      var cancel := retryCancel;
      retryCancel := None;
      if cancel.None? { return; }
      if cancelOk { timers := timers - {cancel.value}; }
    }

    method OnEdge(e: Event, script: seq<Turn>)
      requires e.Edge? && e.pid == pid && e.look == LookOf(script) && Allowed(pid, script)
      modifies this, shared
      ensures ringing == old(ringing) && State() == Called(old(shared.View()), old(View()), e, script)
      decreases if ringing then 0 else 1, 5
    {
      hide OmpReceiver.TryArm, OmpReceiver.Unarm, OmpReceiver.CancelRetry, OmpReceiver.StartRetry, Rang, Called;
      EdgeCall(shared.View(), View(), e, script);
      if e.mode != HOST_MODE { return; }
      CancelRetry(e.cancelOk);
      Unarm(e.give);
      retryTicks := 0;
      var handled := TryArm(e.env, false, script, e.give);
      if handled { return; }
      StartRetry(e.ctx, e.surface);
    }

    /** The retry timer's callback; a live timer called it. */
    method OnTick(e: Event, script: seq<Turn>)
      requires e.Tick? && e.pid == pid && e.look == LookOf(script) && Allowed(pid, script) && e.timer in timers
      modifies this, shared
      ensures ringing == old(ringing) && State() == Called(old(shared.View()), old(View()), e, script)
      decreases if ringing then 0 else 1, 5
    {
      hide OmpReceiver.TryArm, OmpReceiver.CancelRetry, Rang, Called;
      ghost var s0, p0 := shared.View(), View();
      retryTicks := retryTicks + 1;
      var handled := TryArm(e.env, true, script, e.give);
      TickCall(s0, p0, e, script);
      if handled {
        CancelRetry(e.cancelOk);
        return;
      }
      if retryTicks >= MAX_TICKS { CancelRetry(e.cancelOk); }
    }

    /** The watch on the signal file. */
    method OnSignal(script: seq<Turn>, give: Give)
      requires Allowed(pid, script)
      modifies this, shared
      ensures old(ringing) ==>
        ringing && State() == StartRing(old(shared.View()), old(View()), pid, false, LookOf(script), give)
      ensures !old(ringing) ==> !ringing && RangOut(old(shared.View()), old(View()), false, script, give)
      decreases if ringing then 0 else 1, 3
    {
      Ring(false, script, give);
    }

    /** The process exits; every listener that is registered unarms. */
    method OnExit(give: Give)
      modifies this, shared
      ensures State() == Handle(old(shared.View()), old(View()), Exit(pid, give))
    {
      if listeners > 0 { Unarm(give); }
    }
  }
}
