/**
 What the receiver does when it is asked to, told in the fields of events, stores and process: when an
 edge or a tick arms, when it leaves a retry, and that waiting mail is announced whenever the watch fires
 or the receiver comes to be armed.
 */
module OmpReceiverServes {
  import opened Options
  import opened ScriptText
  import opened OmpMailbox
  import opened OmpDoorbell
  import opened OmpReceiver
  import opened OmpReceiverSafety

  // ---------------------------------------------------------------- mail and its announcement

  predicate IsMail(name: string) { |name| >= 4 && name[|name| - 4..] == ".msg" }

  predicate IsReceipt(name: string) { |name| >= 14 && name[|name| - 14..] == ".msg.delivered" }

  function Mail(m: Mailbox): set<string> { set name <- m.Keys | IsMail(name) }

  function Receipts(m: Mailbox): set<string> { set name <- m.Keys | IsReceipt(name) }

  /** The file is the delivered form of a message that waits in `m`. */
  predicate Delivers(m: Mailbox, name: string) { exists mail <- Mail(m) :: name == mail + ".delivered" }

  /**
   Every waiting message is delivered, body and all; every other file is as it was, unless a message has
   been delivered onto it; and no other file is new.
   */
  predicate AllDelivered(m: Mailbox, m': Mailbox) {
    && (forall mail <- Mail(m) ::
          mail !in m' && mail + ".delivered" in m' && m'[mail + ".delivered"] == m[mail])
    && (forall name <- m.Keys - Mail(m) :: name in m' && (m'[name] == m[name] || Delivers(m, name)))
    && (forall name <- m'.Keys - m.Keys :: Delivers(m, name))
  }

  /** A ring of `g` has delivered what waited in `m`, and a notice of all messages there, its next one, is in flight. */
  predicate Announced(g: string, m: Mailbox, m': Mailbox, p: Proc, earlier: seq<Pass>) {
    && AllDelivered(m, m') && p.ringing.Some?
    && p.ringing.value.garden == g && !p.ringing.value.pending
    && |p.ringing.value.log.passes| == |earlier| + 1 && earlier <= p.ringing.value.log.passes
    && p.ringing.value.log.passes[|earlier|].announced == |Receipts(m')|
  }

  /** The look reads the mailbox as it is and none of its calls fails. */
  predicate Sees(look: Look, m: Mailbox) {
    look.listing.Some? && Lists(look.listing.value, m) && |Mail(m)| <= look.renames && look.recountOk
  }

  lemma MailIsFresh(name: string)
    ensures IsMail(name) <==> IsFresh(name)
    ensures IsReceipt(name) <==> EndsWith(name, DELIVERED)
    ensures !(IsMail(name) && IsReceipt(name))
    ensures Stamped(name) == name + ".delivered"
  {
    assert |name| >= 14 ==> name[|name| - 14..][13] == name[|name| - 1];
  }

  lemma MailIsFreshIn(m: Mailbox)
    ensures Mail(m) == FreshIn(m) && Receipts(m) == DeliveredIn(m)
  {
    hide IsMail, IsReceipt, IsFresh, EndsWith, Stamped;
    forall name
      ensures IsMail(name) <==> IsFresh(name)
      ensures IsReceipt(name) <==> EndsWith(name, DELIVERED)
      ensures !(IsMail(name) && IsReceipt(name))
      ensures Stamped(name) == name + ".delivered"
    {
      MailIsFresh(name);
    }
  }

  lemma {:induction false} DistinctSize(names: seq<string>)
    requires Distinct(names)
    ensures |(set name <- names)| == |names|
  {
    if names != [] {
      DistinctSize(names[1..]);
      assert (set name <- names) == {names[0]} + set name <- names[1..];
    }
  }

  lemma {:induction false} StampAllMeans(m: Mailbox, names: seq<string>)
    requires FreshNames(m, names)
    ensures var left := StampAll(m, names);
      && (forall n <- names :: n !in left && Stamped(n) in left && left[Stamped(n)] == m[n])
      && (forall n :: n in m && n !in names ==> n in left && (left[n] == m[n] || exists w <- names :: n == Stamped(w)))
      && (forall n :: n in left && n !in m ==> exists w <- names :: n == Stamped(w))
    decreases |names|
  {
    hide Rename, Stamped, IsFresh;
    if names != [] {
      var name, m1 := names[0], Rename(m, names[0]);
      FreshNamesMembers(m, names);
      DistinctHead(m, names);
      RenameOne(m, name);
      FreshNamesRest(m, names);
      StampAllMeans(m1, names[1..]);
      assert names == [name] + names[1..];
      forall n | n in names[1..]
        ensures Stamped(n) != Stamped(name) && m1[n] == m[n]
      {
        StampedIsInjective(n, name);
        StampedIsNotFresh(name);
      }
      OthersAfterFirst(m, names);
    }
  }

  /** The first name's stamped file is not touched by the other stamps. */
  lemma OthersAfterFirst(m: Mailbox, names: seq<string>)
    requires names != [] && FreshNames(m, names)
    ensures Stamped(names[0]) !in names[1..] && names[0] !in names[1..]
    ensures forall w <- names[1..] :: Stamped(w) != Stamped(names[0]) && Stamped(w) != names[0]
  {
    hide Stamped, IsFresh;
    FreshNamesMembers(m, names);
    DistinctHead(m, names);
    forall w | w in names[1..]
      ensures Stamped(w) != Stamped(names[0]) && Stamped(w) != names[0]
    {
      assert w in names;
      StampedIsInjective(w, names[0]);
      StampedIsNotFresh(w);
    }
  }

  lemma StampingDelivers(m: Mailbox, listing: seq<string>)
    requires Lists(listing, m)
    ensures var names := FreshOf(listing);
      && |names| == |Mail(m)| && AllDelivered(m, StampAll(m, names))
  {
    hide StampAll, FreshOf, IsFresh, IsMail, Stamped;
    var names := FreshOf(listing);
    MailIsFreshIn(m);
    FreshOfExactly(listing);
    DistinctSize(names);
    assert (set name <- names) == Mail(m);
    StampAllMeans(m, names);
    forall name
      ensures Stamped(name) == name + ".delivered"
    {
      MailIsFresh(name);
    }
    var left := StampAll(m, names);
    forall name | name in m && name !in names && left[name] != m[name]
      ensures Delivers(m, name)
    {
      var w :| w in names && name == Stamped(w);
    }
    forall name | name in left && name !in m
      ensures Delivers(m, name)
    {
      var w :| w in names && name == Stamped(w);
    }
  }

  /** A look of a ring at a mailbox that has its signal. */
  lemma LookAnnounces(s: Stores, p: Proc, pid: nat, g: string, closing: bool, log: Log, look: Look, give: Give)
    requires var m := MailboxOf(s, g);
      "inbox.signal" in m && look.listing.Some? && Lists(look.listing.value, m)
    ensures var m := MailboxOf(s, g);
      var (s', p') := LookOnce(s, p, pid, g, closing, log, look, give);
      && p'.(ringing := None, rung := []) == p.(ringing := None, rung := [])
      && s'.(mailboxes := map[]) == s.(mailboxes := map[])
      && (if Mail(m) != {} && Sees(look, m)
          then Announced(g, m, MailboxOf(s', g), p', log.passes) && Closing(p') == closing
          else p'.ringing.None?)
  {
    hide StampAll, FreshOf, DeliveredIn, Unarm, IsMail, AllDelivered, Receipts;
    var m, names := MailboxOf(s, g), FreshOf(look.listing.value);
    StampingDelivers(m, look.listing.value);
    MailIsFreshIn(StampAll(m, names));
    assert names == [] <==> |Mail(m)| == 0;
  }

  /**
   The watch fires. An armed receiver outside of a ring, whose mailbox has its signal, announces what
   waits there, whatever else the process holds: exactly if something waits and no call fails.
   */
  lemma SignalAnnounces(s: Stores, p: Proc, pid: nat, look: Look, give: Give)
    requires p.armed.Some? && p.ringing.None?
    requires var m := MailboxOf(s, p.armed.value.garden);
      "inbox.signal" in m && look.listing.Some? && Lists(look.listing.value, m)
    ensures var g := p.armed.value.garden;
      var m := MailboxOf(s, g);
      var (s', p') := Handle(s, p, Signal(pid, look, give));
      && p'.(ringing := None, rung := []) == p.(rung := [])
      && s'.(mailboxes := map[]) == s.(mailboxes := map[])
      && (if Mail(m) != {} && Sees(look, m) then Announced(g, m, MailboxOf(s', g), p', []) else p'.ringing.None?)
  {
    hide LookOnce, Announced, Sees, Lists;
    var g := p.armed.value.garden;
    LookAnnounces(s, p, pid, g, false, Log(MailboxOf(s, g), [], []), look, give);
  }

  /** The other firings: nothing is armed, a ring is under way and is asked for another look, or the signal is gone. */
  lemma SignalOtherwise(s: Stores, p: Proc, pid: nat, look: Look, give: Give)
    ensures var (s', p') := Handle(s, p, Signal(pid, look, give));
      && (p.armed.None? ==> s' == s && p' == p)
      && (p.armed.Some? && p.ringing.Some? ==>
            s' == s && p' == p.(ringing := Some(p.ringing.value.(pending := true))))
      && (p.armed.Some? && p.ringing.None? && "inbox.signal" !in MailboxOf(s, p.armed.value.garden) ==>
            p'.armed.None? && p'.ringing.None? && p'.watchers == p.watchers - {p.armed.value.watcher}
            && s'.mailboxes == s.mailboxes && GivenBack(s.receivers, s'.receivers, p.armed.value.garden, pid, give))
  {
  }

  /**
   A notice returns. The ring is over if the notice threw or nothing asked for another look; otherwise it
   looks again, and announces what waits there now exactly if something does and no call fails.
   */
  lemma ReturnExactly(s: Stores, p: Proc, e: Event)
    requires e.Resumes? && p.ringing.Some?
    requires var m := MailboxOf(s, p.ringing.value.garden);
      "inbox.signal" in m && e.look.listing.Some? && Lists(e.look.listing.value, m)
    ensures var r := p.ringing.value;
      var m := MailboxOf(s, r.garden);
      var (s', p') := Handle(s, p, e);
      && s'.(mailboxes := map[]) == s.(mailboxes := map[]) && p'.armed == p.armed && p'.watchers == p.watchers
      && (if !e.threw && r.pending && Mail(m) != {} && Sees(e.look, m)
          then Announced(r.garden, m, MailboxOf(s', r.garden), p', r.log.passes) && Closing(p') == r.closing
               && SameRetry(p, p')
          else p'.ringing.None? && p'.retryTicks == p.retryTicks
               && p'.retryCancel == (if r.closing then None else p.retryCancel))
      && (e.threw || !r.pending ==> s' == s)
  {
    hide LookOnce, Announced, Sees, Lists;
    var r := p.ringing.value;
    var turn := ScanOf(r.look, Notice(MailboxOf(s, r.garden), r.pending, e.threw));
    LookAnnounces(s, p, e.pid, r.garden, r.closing, r.log.(done := r.log.done + [turn]), e.look, e.give);
  }

  /** Our own marker goes, unless removing it fails; another process's stays, and so do all others. */
  predicate GivenBack(before: map<string, nat>, after: map<string, nat>, g: string, pid: nat, give: Give) {
    after == if g in before && before[g] == pid && give.removeOk then before - {g} else before
  }

  /** A watch that breaks and an exit give the doorbell back. */
  lemma DoorbellGivenBack(s: Stores, p: Proc, pid: nat, give: Give, exits: bool)
    requires p.armed.Some? && (exits ==> p.listeners > 0)
    ensures var (s', p') := Handle(s, p, if exits then Exit(pid, give) else WatchError(pid, give));
      && p'.armed.None? && p'.watchers == p.watchers - {p.armed.value.watcher} && !p'.exitGuard
      && p'.ringing == p.ringing && p'.timers == p.timers && p'.retryCancel == p.retryCancel
      && GivenBack(s.receivers, s'.receivers, p.armed.value.garden, pid, give)
      && s'.(receivers := map[]) == s.(receivers := map[])
  {
  }

  // ---------------------------------------------------------------- what an edge or a tick comes to

  /** The vendor's session is garden `g`: this process's marker and the record both say so. */
  predicate IsCitizen(s: Stores, pid: nat, native: string, g: string) {
    && pid in s.senders && s.senders[pid] == SenderMarker(g, native)
    && g in s.records && s.records[g] == Identity("omp", native)
  }

  /** Everything is there to arm for `g`. */
  predicate CanArm(s: Stores, pid: nat, env: ArmEnv, g: string) {
    && env.canRing && pid > 1 && env.native.Some? && env.native.value != ""
    && env.recordOk && IsCitizen(s, pid, env.native.value, g)
    && env.mailboxOk && ("inbox.signal" in MailboxOf(s, g) || env.signalOk) && env.watch.Some? && env.markerOk
  }

  /** The session may still be born: no session id yet, no marker for it, or no record to be read. */
  predicate MayBeLate(s: Stores, pid: nat, env: ArmEnv) {
    && env.canRing
    && (env.native.None? || env.native.value == "" || pid !in s.senders || s.senders[pid].native != env.native.value
        || !env.recordOk || s.senders[pid].garden !in s.records)
  }

  lemma AttemptExactly(s: Stores, p: Proc, pid: nat, env: ArmEnv)
    ensures forall g :: Published(s, pid, env) == Some(g) <==> CanArm(s, pid, env, g)
    ensures TryArm(s, p, pid, env).tried == Deferred <==> MayBeLate(s, pid, env)
  {
    hide Publish;
    AttemptMeans(s, p, pid, env);
    if env.native.Some? {
      var resolved := Resolve(s, pid, env.native.value, env.recordOk);
      if resolved.Hosted? { PublishMeans(s, p, pid, resolved.garden, env); }
    }
  }

  /** The mailbox a receiver armed for `g` watches: it is made with its signal if either is missing. */
  function Belled(m: Mailbox): Mailbox { if "inbox.signal" in m then m else m["inbox.signal" := ""] }

  /** What an attempt leaves of the mailbox, wherever it stops: made if it could be, its signal too. */
  lemma AttemptMakes(s: Stores, p: Proc, pid: nat, env: ArmEnv, g: string)
    requires env.canRing && pid > 1 && env.native.Some? && env.native.value != "" && env.recordOk
    requires IsCitizen(s, pid, env.native.value, g)
    ensures var m := MailboxOf(s, g);
      TryArm(s, p, pid, env).stores.mailboxes
      == if !env.mailboxOk then s.mailboxes
         else s.mailboxes[g := if env.signalOk then Belled(m) else m]
  {
    assert "inbox.signal" in MailboxOf(s, g) ==> Belled(MailboxOf(s, g)) == MailboxOf(s, g);
  }

  /** Whether the marker can be written decides alone between keeping the watch that was opened and closing it. */
  lemma AttemptTraces(s: Stores, p: Proc, pid: nat, env: ArmEnv, g: string)
    ensures var p', would := TryArm(s, p, pid, env).proc, env.(markerOk := true);
      && (CanArm(s, pid, would, g) ==>
            p'.effects == p.effects + [WatchOpened(g, env.watch.value),
                                       if env.markerOk then MarkerWritten(g) else WatchClosed(env.watch.value)])
      && ((forall h :: !CanArm(s, pid, would, h)) ==> p'.effects == p.effects)
  {
    if env.native.Some? && pid in s.senders {
      var h := s.senders[pid].garden;
      assert CanArm(s, pid, env.(markerOk := true), h) ==> IsCitizen(s, pid, env.native.value, h);
      if env.watch.Some? {
        var open, shut := WatchOpened(h, env.watch.value), WatchClosed(env.watch.value);
        assert p.effects + [open] + [shut] == p.effects + [open, shut];
        assert p.effects + [open] + [MarkerWritten(h)] == p.effects + [open, MarkerWritten(h)];
      }
    }
  }

  lemma BelledMailbox(s: Stores, s': Stores, g: string)
    requires s'.mailboxes == WithSignal(s, g).mailboxes
    ensures MailboxOf(s', g) == Belled(MailboxOf(s, g)) && "inbox.signal" in MailboxOf(s', g)
    ensures forall h :: h != g ==> MailboxOf(s', h) == MailboxOf(s, h)
  {
  }

  /** Nothing the attempts of an edge or a tick look at is changed by what an edge does first. */
  lemma SameAttempt(s: Stores, s': Stores, pid: nat, env: ArmEnv)
    requires s' == s.(receivers := s'.receivers)
    ensures forall g :: CanArm(s', pid, env, g) <==> CanArm(s, pid, env, g)
    ensures MayBeLate(s', pid, env) <==> MayBeLate(s, pid, env)
    ensures forall g :: MailboxOf(s', g) == MailboxOf(s, g)
  {
  }

  /** An attempt and the startup ring that follows it if it arms. */
  function Attempted(s: Stores, p: Proc, pid: nat, env: ArmEnv, closing: bool, look: Look, give: Give): (Stores, Proc) {
    var t := TryArm(s, p, pid, env);
    if t.tried == NowArmed then StartRing(t.stores, t.proc, pid, closing, look, give) else (t.stores, t.proc)
  }

  lemma NestedRingAsks(s: Stores, p: Proc, pid: nat, closing: bool, look: Look, give: Give)
    ensures p.armed.Some? && p.ringing.Some? ==>
      StartRing(s, p, pid, closing, look, give) == (s, p.(ringing := Some(p.ringing.value.(pending := true))))
  {
  }

  lemma AttemptedMeans(s: Stores, p: Proc, pid: nat, env: ArmEnv, closing: bool, look: Look, give: Give)
    ensures var (s', p') := Attempted(s, p, pid, env, closing, look, give);
      && (forall g :: CanArm(s, pid, env, g) ==>
            p'.armed == Some(Armed(g, env.watch.value)) && g in s'.receivers && s'.receivers[g] == pid)
      && ((forall g :: !CanArm(s, pid, env, g)) ==> p'.armed == p.armed && p'.ringing == p.ringing)
      && ((exists g :: CanArm(s, pid, env, g)) && p.ringing.Some? ==>
            p'.ringing == Some(p.ringing.value.(pending := true)))
      && SameRetry(p, p') && (TryArm(s, p, pid, env).tried == Deferred <==> MayBeLate(s, pid, env))
      && (TryArm(s, p, pid, env).tried == NowArmed <==> exists g :: CanArm(s, pid, env, g))
  {
    hide TryArm, StartRing, StartVanishes, WithSignal, Published, CanArm, MayBeLate;
    AttemptMeans(s, p, pid, env);
    AttemptExactly(s, p, pid, env);
    var t := TryArm(s, p, pid, env);
    if t.tried == NowArmed {
      StartMeans(t.stores, t.proc, pid, closing, look, give);
      ArmedRingStays(s, p, pid, Published(s, pid, env).value, env, t.stores, t.proc);
      NestedRingAsks(t.stores, t.proc, pid, closing, look, give);
    }
  }

  /**
   A tui edge ends in one of three ways, whatever the process held before: armed for the session's garden
   and nothing else, exactly if everything is there to arm; with a fresh retry, exactly if the session may
   still be born and a timer can be had; or with neither. The ticks are counted from
   the start, and arming inside a notice asks the ring that is under way for another look.
   */
  lemma EdgeExactly(s: Stores, p: Proc, e: Event)
    requires e.Edge? && e.mode == "tui"
    ensures var (s', p') := Handle(s, p, e);
      && (forall g, w: nat ::
            p'.armed == Some(Armed(g, w)) <==> CanArm(s, e.pid, e.env, g) && e.env.watch == Some(w))
      && (forall g :: CanArm(s, e.pid, e.env, g) ==> g in s'.receivers && s'.receivers[g] == e.pid)
      && ((forall g :: !CanArm(s, e.pid, e.env, g)) ==> p'.ringing == p.ringing)
      && ((exists g :: CanArm(s, e.pid, e.env, g)) && p.ringing.Some? ==>
            p'.ringing == Some(p.ringing.value.(pending := true)))
      && p'.retryTicks == 0
      && p'.retryCancel == (if MayBeLate(s, e.pid, e.env) && e.surface.Surface? && e.surface.handle.Some?
                            then Some(Timer(e.ctx, e.surface.handle.value)) else None)
      && p'.timers == (if e.cancelOk && p.retryCancel.Some? then p.timers - {p.retryCancel.value} else p.timers)
                      + (if p'.retryCancel.Some? then {p'.retryCancel.value} else {})
  {
    hide TryArm, Unarm, StartRing, CanArm, MayBeLate;
    var cancelled := CancelRetry(p, e.cancelOk);
    UnarmMeans(s, cancelled, e.pid, e.give);
    var (s1, p1) := Unarm(s, cancelled, e.pid, e.give);
    SameAttempt(s, s1, e.pid, e.env);
    AttemptedMeans(s1, p1.(retryTicks := 0), e.pid, e.env, false, e.look, e.give);
    LateNeverArms(s, e.pid, e.env);
  }

  lemma LateNeverArms(s: Stores, pid: nat, env: ArmEnv)
    ensures MayBeLate(s, pid, env) ==> forall g :: !CanArm(s, pid, env, g)
    ensures forall g :: CanArm(s, pid, env, g) ==> env.watch.Some?
    ensures forall g, h :: CanArm(s, pid, env, g) && CanArm(s, pid, env, h) ==> g == h
  {
  }

  lemma OtherModesIgnored(s: Stores, p: Proc, e: Event)
    requires e.Edge? && e.mode != "tui"
    ensures Handle(s, p, e) == (s, p)
  {
  }

  /**
   A live retry timer ticks. It is counted; the process is armed for the session's garden exactly if
   everything is there to arm, and what it was armed for otherwise stays; the retry goes on exactly if the
   session may still be born and this is not the fortieth tick, or while the startup ring it is in lasts.
   */
  lemma TickExactly(s: Stores, p: Proc, e: Event)
    requires e.Tick? && e.timer in p.timers
    ensures var (s', p') := Handle(s, p, e);
      && (forall g :: CanArm(s, e.pid, e.env, g) ==>
            p'.armed == Some(Armed(g, e.env.watch.value)) && g in s'.receivers && s'.receivers[g] == e.pid)
      && ((forall g :: !CanArm(s, e.pid, e.env, g)) ==> p'.armed == p.armed && p'.ringing == p.ringing)
      && ((exists g :: CanArm(s, e.pid, e.env, g)) && p.ringing.Some? ==>
            p'.ringing == Some(p.ringing.value.(pending := true)))
      && p'.retryTicks == p.retryTicks + 1
      && p'.retryCancel == (if (MayBeLate(s, e.pid, e.env) && p'.retryTicks < 40)
                               || (p.ringing.None? && p'.ringing.Some?)
                            then p.retryCancel else None)
      && p'.timers == (if p.retryCancel.Some? && p'.retryCancel.None? && e.cancelOk
                       then p.timers - {p.retryCancel.value} else p.timers)
  {
    hide TryArm, StartRing, CanArm, MayBeLate;
    var p1 := p.(retryTicks := p.retryTicks + 1);
    AttemptedMeans(s, p1, e.pid, e.env, true, e.look, e.give);
    LateNeverArms(s, e.pid, e.env);
  }

  // ---------------------------------------------------------------- mail that came while nothing was armed

  /** The mailbox is read as the attempt leaves it. */
  predicate Reads(s: Stores, g: string, look: Look) {
    var m := Belled(MailboxOf(s, g));
    look.listing.Some? && Lists(look.listing.value, m)
  }

  /** The startup ring of an attempt that has armed, outside of any ring. */
  lemma StartupAnnounces(s: Stores, p: Proc, pid: nat, env: ArmEnv, g: string, closing: bool, look: Look, give: Give)
    requires CanArm(s, pid, env, g) && p.ringing.None? && Reads(s, g, look)
    ensures var t := TryArm(s, p, pid, env);
      var (s', p') := StartRing(t.stores, t.proc, pid, closing, look, give);
      var m := Belled(MailboxOf(s, g));
      && t.tried == NowArmed
      && (if Mail(m) != {} && Sees(look, m) then Announced(g, m, MailboxOf(s', g), p', []) && Closing(p') == closing
          else p'.ringing.None?)
  {
    hide TryArm, LookOnce, Published, CanArm, WithSignal, Announced, Sees, Lists, Belled;
    AttemptMeans(s, p, pid, env);
    AttemptExactly(s, p, pid, env);
    var t := TryArm(s, p, pid, env);
    BelledMailbox(s, t.stores, g);
    LookAnnounces(t.stores, t.proc, pid, g, closing, Log(MailboxOf(t.stores, g), [], []), look, give);
  }

  /** An edge outside of any ring that comes to arm announces what waits in the new garden's mailbox. */
  lemma EdgeAnnounces(s: Stores, p: Proc, e: Event, g: string)
    requires e.Edge? && e.mode == "tui" && p.ringing.None?
    requires CanArm(s, e.pid, e.env, g) && Reads(s, g, e.look)
    ensures var (s', p') := Handle(s, p, e);
      var m := Belled(MailboxOf(s, g));
      if Mail(m) != {} && Sees(e.look, m) then Announced(g, m, MailboxOf(s', g), p', []) && !Closing(p')
      else p'.ringing.None?
  {
    hide TryArm, Unarm, StartRing, CanArm, Announced, Sees, Reads, Belled;
    var cancelled := CancelRetry(p, e.cancelOk);
    CancelMeans(p, e.cancelOk);
    UnarmMeans(s, cancelled, e.pid, e.give);
    var (s1, p1) := Unarm(s, cancelled, e.pid, e.give);
    SameAttempt(s, s1, e.pid, e.env);
    assert Reads(s1, g, e.look) by { SameReads(s, s1, g, e.look); }
    StartupAnnounces(s1, p1.(retryTicks := 0), e.pid, e.env, g, false, e.look, e.give);
  }

  lemma SameReads(s: Stores, s': Stores, g: string, look: Look)
    requires MailboxOf(s', g) == MailboxOf(s, g) && Reads(s, g, look)
    ensures Reads(s', g, look)
  {
  }

  /** A tick outside of any ring that comes to arm does the same, and has then still to clear its timer. */
  lemma TickAnnounces(s: Stores, p: Proc, e: Event, g: string)
    requires e.Tick? && e.timer in p.timers && p.ringing.None?
    requires CanArm(s, e.pid, e.env, g) && Reads(s, g, e.look)
    ensures var (s', p') := Handle(s, p, e);
      var m := Belled(MailboxOf(s, g));
      if Mail(m) != {} && Sees(e.look, m) then Announced(g, m, MailboxOf(s', g), p', []) && Closing(p')
      else p'.ringing.None?
  {
    hide TryArm, StartRing, CanArm, Announced, Sees, Reads, Belled;
    var p1 := p.(retryTicks := p.retryTicks + 1);
    StartupAnnounces(s, p1, e.pid, e.env, g, true, e.look, e.give);
    var t := TryArm(s, p1, e.pid, e.env);
    CancelMeans(StartRing(t.stores, t.proc, e.pid, true, e.look, e.give).1, e.cancelOk);
  }
}
