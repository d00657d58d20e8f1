/**
 The rings of the receiver under any run: whatever handlers and other processes do inside its notices, a
 ring is a ring of `OmpDoorbell` over the one mailbox it started with.
 */
module OmpReceiverRings {
  import opened Options
  import opened OmpMailbox
  import opened OmpDoorbell
  import opened OmpReceiver
  import opened OmpReceiverSafety

  // ---------------------------------------------------------------- every ring is a plain ring

  /** A ring that has announced and now finds `m` is, whatever the rest of its script, that and the rest. */
  ghost predicate Before(log: Log, m: Mailbox) {
    forall more: seq<Scan> :: RingFrom(log.first, log.done + more) == Prefixed(log.passes, RingFrom(m, more))
  }

  function Prefixed(passes: seq<Pass>, ring: Ring): Ring { ring.(passes := passes + ring.passes) }

  /** What the turn of a sent notice makes of the ring. */
  function Continued(passes: seq<Pass>, notice: Notice, more: seq<Scan>): Ring {
    if notice.threw then Ring(notice.after, passes, Broke)
    else if !notice.requested then Ring(notice.after, passes, Quiet)
    else Prefixed(passes, RingFrom(notice.after, more))
  }

  /** The ring in progress, whatever its notice will have done. */
  ghost predicate InProgress(r: Ringing) {
    forall notice: Notice, more: seq<Scan> ::
      RingFrom(r.log.first, r.log.done + [ScanOf(r.look, notice)] + more) == Continued(r.log.passes, notice, more)
  }

  ghost predicate Logged(p: Proc) {
    && (forall r <- p.rung :: RingFrom(r.first, r.script) == r.ring)
    && (p.ringing.Some? ==> InProgress(p.ringing.value))
  }

  lemma BeforeFirst(m: Mailbox)
    ensures Before(Log(m, [], []), m)
  {
    forall more: seq<Scan>
      ensures RingFrom(m, [] + more) == Prefixed([], RingFrom(m, more))
    {
      assert [] + more == more;
    }
  }

  /** The ring over a script whose first turn is this look, when the look sends no notice. */
  lemma LookAlone(m: Mailbox, look: Look, notice: Notice, more: seq<Scan>)
    ensures var ring := RingFrom(m, [ScanOf(look, notice)] + more);
      if SIGNAL !in m then ring == Ring(m, [], Vanished)
      else if look.listing.None? then ring == Ring(m, [], Broke)
      else
        var names := FreshOf(look.listing.value);
        if names == [] then ring == Ring(m, [], Quiet)
        else if look.renames < |names| then ring == Ring(StampAll(m, names[..look.renames]), [], Broke)
        else
          var stamped := StampAll(m, names);
          if !look.recountOk then ring == Ring(stamped, [], Broke)
          else ring == Continued([Pass(m, names, stamped, |DeliveredIn(stamped)|)], notice, more)
  {
    hide StampAll, FreshOf, DeliveredIn;
    assert ([ScanOf(look, notice)] + more)[0] == ScanOf(look, notice);
    assert ([ScanOf(look, notice)] + more)[1..] == more;
  }

  lemma BeforeInstance(log: Log, m: Mailbox, look: Look, notice: Notice, more: seq<Scan>)
    requires Before(log, m)
    ensures RingFrom(log.first, log.done + [ScanOf(look, notice)] + more)
         == Prefixed(log.passes, RingFrom(m, [ScanOf(look, notice)] + more))
  {
    assert log.done + [ScanOf(look, notice)] + more == log.done + ([ScanOf(look, notice)] + more);
  }

  lemma SentInProgress(log: Log, m: Mailbox, garden: string, closing: bool, look: Look, pass: Pass)
    requires Before(log, m) && SIGNAL in m && look.listing.Some? && FreshOf(look.listing.value) != []
    requires |FreshOf(look.listing.value)| <= look.renames && look.recountOk
    requires var stamped := StampAll(m, FreshOf(look.listing.value));
      pass == Pass(m, FreshOf(look.listing.value), stamped, |DeliveredIn(stamped)|)
    ensures InProgress(Ringing(garden, false, closing, look, log.(passes := log.passes + [pass])))
  {
    hide StampAll, FreshOf, DeliveredIn, RingFrom, Before;
    forall notice: Notice, more: seq<Scan>
      ensures RingFrom(log.first, log.done + [ScanOf(look, notice)] + more)
           == Continued(log.passes + [pass], notice, more)
    {
      BeforeInstance(log, m, look, notice, more);
      LookAlone(m, look, notice, more);
      assert log.passes + ([pass] + RingFrom(notice.after, more).passes)
          == log.passes + [pass] + RingFrom(notice.after, more).passes;
    }
  }

  lemma LookLogged(s: Stores, p: Proc, pid: nat, garden: string, closing: bool, log: Log, look: Look, give: Give)
    requires forall r <- p.rung :: RingFrom(r.first, r.script) == r.ring
    requires Before(log, MailboxOf(s, garden))
    ensures Logged(LookOnce(s, p, pid, garden, closing, log, look, give).1)
  {
    hide StampAll, FreshOf, DeliveredIn, RingFrom, Unarm, Before, InProgress;
    var m := MailboxOf(s, garden);
    UnarmMeans(s, p, pid, give);
    BeforeInstance(log, m, look, Notice(map[], false, false), []);
    LookAlone(m, look, Notice(map[], false, false), []);
    assert log.done + [Unsent(look)] + [] == log.done + [Unsent(look)];
    assert forall outcome, left :: Prefixed(log.passes, Ring(left, [], outcome)) == Ring(left, log.passes, outcome);
    if SIGNAL in m && look.listing.Some? && FreshOf(look.listing.value) != []
       && |FreshOf(look.listing.value)| <= look.renames && look.recountOk {
      var stamped := StampAll(m, FreshOf(look.listing.value));
      var pass := Pass(m, FreshOf(look.listing.value), stamped, |DeliveredIn(stamped)|);
      SentInProgress(log, m, garden, closing, look, pass);
    }
  }

  lemma StartLogged(s: Stores, p: Proc, pid: nat, closing: bool, look: Look, give: Give)
    requires Logged(p)
    ensures Logged(StartRing(s, p, pid, closing, look, give).1)
  {
    hide LookOnce, RingFrom, Before;
    if p.armed.Some? && p.ringing.None? {
      var m := MailboxOf(s, p.armed.value.garden);
      BeforeFirst(m);
      LookLogged(s, p, pid, p.armed.value.garden, closing, Log(m, [], []), look, give);
    } else if p.armed.Some? {
      var r := p.ringing.value;
      assert InProgress(r.(pending := true)) by { StillInProgress(r); }
    }
  }

  lemma StillInProgress(r: Ringing)
    requires InProgress(r)
    ensures InProgress(r.(pending := true))
  {
    hide RingFrom;
    forall notice: Notice, more: seq<Scan>
      ensures RingFrom(r.log.first, r.log.done + [ScanOf(r.look, notice)] + more)
           == Continued(r.log.passes, notice, more)
    {
    }
  }

  /** The turn that is over puts the ring before its next look. */
  lemma TurnIsDone(r: Ringing, notice: Notice)
    requires InProgress(r)
    ensures var done := r.log.done + [ScanOf(r.look, notice)];
      if Requests(notice) then Before(r.log.(done := done), notice.after)
      else RingFrom(r.log.first, done) == Ring(notice.after, r.log.passes, if notice.threw then Broke else Quiet)
  {
    hide RingFrom;
    var done := r.log.done + [ScanOf(r.look, notice)];
    assert done + [] == done;
    assert RingFrom(r.log.first, done + []) == Continued(r.log.passes, notice, []);
    if Requests(notice) {
      forall more: seq<Scan>
        ensures RingFrom(r.log.first, done + more) == Prefixed(r.log.passes, RingFrom(notice.after, more))
      {
      }
    }
  }

  lemma ResumeLogged(s: Stores, p: Proc, pid: nat, threw: bool, look: Look, give: Give)
    requires Logged(p)
    ensures Logged(ResumeRing(s, p, pid, threw, look, give).1)
  {
    hide LookOnce, RingFrom, Before, InProgress;
    if p.ringing.Some? {
      var r := p.ringing.value;
      var notice := Notice(MailboxOf(s, r.garden), r.pending, threw);
      TurnIsDone(r, notice);
      if Requests(notice) {
        LookLogged(s, p, pid, r.garden, r.closing, r.log.(done := r.log.done + [ScanOf(r.look, notice)]), look, give);
      }
    }
  }

  /** A handler's log of rings stays true. */
  lemma HandlerLogs(s: Stores, p: Proc, e: Event)
    requires !e.Outside? && Logged(p)
    ensures Logged(Handle(s, p, e).1)
  {
    hide TryArm, StartRing, ResumeRing, Unarm, RingFrom, InProgress;
    match e
    case Edge(pid, _, _, cancelOk, env, _, look, give) =>
      UnarmMeans(s, CancelRetry(p, cancelOk), pid, give);
      var (s1, p1) := Unarm(s, CancelRetry(p, cancelOk), pid, give);
      AttemptMeans(s1, p1.(retryTicks := 0), pid, env);
      var t := TryArm(s1, p1.(retryTicks := 0), pid, env);
      StartLogged(t.stores, t.proc, pid, false, look, give);
    case Tick(pid, _, _, env, look, give) =>
      AttemptMeans(s, p.(retryTicks := p.retryTicks + 1), pid, env);
      var t := TryArm(s, p.(retryTicks := p.retryTicks + 1), pid, env);
      StartLogged(t.stores, t.proc, pid, true, look, give);
    case Signal(pid, look, give) => StartLogged(s, p, pid, false, look, give);
    case Resumes(pid, threw, _, look, give) => ResumeLogged(s, p, pid, threw, look, give);
    case WatchError(pid, give) => UnarmMeans(s, p, pid, give);
    case Exit(pid, give) => UnarmMeans(s, p, pid, give);
  }

  /** A ring that a handler has added to the log of finished ones ended with the mailbox as it now is. */
  predicate EndsTruly(s': Stores, before: seq<Rung>, after: seq<Rung>) {
    after == before
    || (|after| == |before| + 1 && after[..|before|] == before
        && after[|before|].ring.mailbox == MailboxOf(s', after[|before|].garden))
  }

  /** A notice that a handler has sent is of the mailbox as it now is. */
  predicate AnnouncesTruly(s': Stores, before: Option<Ringing>, after: Option<Ringing>) {
    after.None?
    || (before.Some? && before.value.log == after.value.log)
    || (after.value.log.passes != []
        && after.value.log.passes[|after.value.log.passes| - 1].stamped == MailboxOf(s', after.value.garden))
  }

  predicate Truthful(s': Stores, rung: seq<Rung>, ringing: Option<Ringing>, p': Proc) {
    EndsTruly(s', rung, p'.rung) && AnnouncesTruly(s', ringing, p'.ringing)
  }

  lemma FinishesTruly(s': Stores, p: Proc, g: string, log: Log, more: seq<Scan>, m: Mailbox, outcome: Outcome,
                      ringing: Option<Ringing>)
    requires m == MailboxOf(s', g)
    ensures Truthful(s', p.rung, ringing, Finish(p, g, log, more, m, outcome))
  {
    var last := Rung(g, log.first, log.done + more, Ring(m, log.passes, outcome));
    assert (p.rung + [last])[..|p.rung|] == p.rung;
  }

  lemma LookIsTruthful(s: Stores, p: Proc, pid: nat, garden: string, closing: bool, log: Log, look: Look, give: Give,
                       ringing: Option<Ringing>)
    ensures var (s', p') := LookOnce(s, p, pid, garden, closing, log, look, give);
      Truthful(s', p.rung, ringing, p')
  {
    hide StampAll, FreshOf, DeliveredIn, Unarm, Finish, EndsTruly;
    UnarmMeans(s, p, pid, give);
    var (s', p') := LookOnce(s, p, pid, garden, closing, log, look, give);
    var (unarmed, q) := Unarm(s, p, pid, give);
    var m', last := MailboxOf(s', garden), [Unsent(look)];
    FinishesTruly(s', q, garden, log, last, m', Vanished, ringing);
    FinishesTruly(s', p, garden, log, last, m', Broke, ringing);
    FinishesTruly(s', p, garden, log, last, m', Quiet, ringing);
    StillRung(s', p.rung);
  }

  lemma StillRung(s': Stores, rung: seq<Rung>)
    ensures EndsTruly(s', rung, rung)
  {
  }

  lemma StartIsTruthful(s: Stores, p: Proc, pid: nat, closing: bool, look: Look, give: Give)
    ensures var (s', p') := StartRing(s, p, pid, closing, look, give);
      Truthful(s', p.rung, p.ringing, p')
  {
    hide LookOnce, EndsTruly;
    StillRung(s, p.rung);
    if p.armed.Some? && p.ringing.None? {
      var garden := p.armed.value.garden;
      LookIsTruthful(s, p, pid, garden, closing, Log(MailboxOf(s, garden), [], []), look, give, p.ringing);
    }
  }

  lemma ResumeIsTruthful(s: Stores, p: Proc, pid: nat, threw: bool, look: Look, give: Give)
    ensures var (s', p') := ResumeRing(s, p, pid, threw, look, give);
      Truthful(s', p.rung, p.ringing, p')
  {
    hide LookOnce, Finish, EndsTruly;
    StillRung(s, p.rung);
    if p.ringing.Some? {
      var r := p.ringing.value;
      var after := MailboxOf(s, r.garden);
      var turn := ScanOf(r.look, Notice(after, r.pending, threw));
      LookIsTruthful(s, p, pid, r.garden, r.closing, r.log.(done := r.log.done + [turn]), look, give, p.ringing);
      FinishesTruly(s, p, r.garden, r.log, [turn], after, Broke, p.ringing);
      FinishesTruly(s, p, r.garden, r.log, [turn], after, Quiet, p.ringing);
    }
  }

  /** What a handler adds to its log is what it has done to the mailbox: the mailboxes of the log are the real ones. */
  lemma HandlerIsTruthful(s: Stores, p: Proc, e: Event)
    requires !e.Outside?
    ensures var (s', p') := Handle(s, p, e);
      Truthful(s', p.rung, p.ringing, p')
  {
    hide TryArm, StartRing, ResumeRing, Unarm, EndsTruly, BecomesArmed, Bells;
    StillRung(s, p.rung);
    match e
    case Edge(pid, _, _, cancelOk, env, _, look, give) =>
      UnarmMeans(s, CancelRetry(p, cancelOk), pid, give);
      var (s1, p1) := Unarm(s, CancelRetry(p, cancelOk), pid, give);
      AttemptMeans(s1, p1.(retryTicks := 0), pid, env);
      var t := TryArm(s1, p1.(retryTicks := 0), pid, env);
      StillRung(t.stores, p.rung);
      StartIsTruthful(t.stores, t.proc, pid, false, look, give);
    case Tick(pid, _, _, env, look, give) =>
      AttemptMeans(s, p.(retryTicks := p.retryTicks + 1), pid, env);
      var t := TryArm(s, p.(retryTicks := p.retryTicks + 1), pid, env);
      StillRung(t.stores, p.rung);
      StartIsTruthful(t.stores, t.proc, pid, true, look, give);
    case Signal(pid, look, give) => StartIsTruthful(s, p, pid, false, look, give);
    case Resumes(pid, threw, _, look, give) => ResumeIsTruthful(s, p, pid, threw, look, give);
    case WatchError(pid, give) =>
      UnarmMeans(s, p, pid, give);
      StillRung(Unarm(s, p, pid, give).0, p.rung);
    case Exit(pid, give) =>
      UnarmMeans(s, p, pid, give);
      StillRung(Unarm(s, p, pid, give).0, p.rung);
  }

  ghost predicate AllLogged(w: World) { forall pid <- w.procs :: Logged(w.procs[pid]) }

  /**
   In every run, with any handlers of the process and anything of other processes inside the notices,
   every ring that is over is the plain ring over the mailboxes its looks met: its announcements, its
   stamps and its end. So all that is proved of plain rings holds of it.
   */
  lemma {:induction false} RunsRingPlainly(w: World, es: seq<Event>)
    requires AllLogged(w)
    ensures AllLogged(Run(w, es))
    decreases |es|
  {
    hide Handle, Logged;
    if es != [] {
      if !es[0].Outside? && es[0].pid in w.procs { HandlerLogs(w.stores, w.procs[es[0].pid], es[0]); }
      RunsRingPlainly(Step(w, es[0]), es[1..]);
    }
  }

  // ---------------------------------------------------------------- a receiver armed anew inside its own ring

  /** A look stamps in no other mailbox than that of its ring. */
  lemma LookKeepsToItsMailbox(s: Stores, p: Proc, pid: nat, garden: string, closing: bool, log: Log,
                              look: Look, give: Give)
    ensures var (s', p') := LookOnce(s, p, pid, garden, closing, log, look, give);
      forall other :: other != garden ==> MailboxOf(s', other) == MailboxOf(s, other)
  {
    hide StampAll, FreshOf, DeliveredIn;
    UnarmMeans(s, p, pid, give);
  }

  /** Every file that is fresh in the mailbox of `h`, with its body. */
  function FreshMail(s: Stores, h: string): map<string, string> { FreshPart(MailboxOf(s, h)) }

  function FreshPart(m: Mailbox): map<string, string> { map name <- m | IsFresh(name) :: m[name] }

  lemma SignalIsNoMail(m: Mailbox)
    requires SIGNAL !in m
    ensures FreshPart(m[SIGNAL := ""]) == FreshPart(m)
  {
    hide IsFresh;
    EndsWithSignal();
  }

  lemma PublishLeavesMail(s: Stores, p: Proc, pid: nat, garden: string, env: ArmEnv, h: string)
    ensures FreshMail(Publish(s, p, pid, garden, env).stores, h) == FreshMail(s, h)
  {
    hide FreshPart;
    var m := MailboxOf(s, garden);
    if SIGNAL !in m { SignalIsNoMail(m); }
    assert MailboxOf(Put(s, garden, m), h) == MailboxOf(s, h);
  }

  lemma EndsWithSignal()
    ensures !IsFresh(SIGNAL)
  {
    assert SIGNAL[|SIGNAL| - 4..] == "gnal";
    assert "gnal"[0] != FRESH[0];
  }

  lemma AttemptLeavesMail(s: Stores, p: Proc, pid: nat, env: ArmEnv, h: string)
    ensures FreshMail(TryArm(s, p, pid, env).stores, h) == FreshMail(s, h)
  {
    hide Publish, FreshMail;
    if env.canRing && env.native.Some? && env.native.value != "" {
      var resolved := Resolve(s, pid, env.native.value, env.recordOk);
      if resolved.Hosted? && pid > 1 { PublishLeavesMail(s, p, pid, resolved.garden, env, h); }
    }
  }

  predicate RingsFor(p: Proc, garden: string) { p.ringing.Some? && p.ringing.value.garden == garden }

  lemma ResumeLeavesMail(s: Stores, p: Proc, pid: nat, threw: bool, look: Look, give: Give, garden: string, h: string)
    requires RingsFor(p, garden) && h != garden
    ensures var (s', p') := ResumeRing(s, p, pid, threw, look, give);
      && FreshMail(s', h) == FreshMail(s, h)
      && (p'.ringing.Some? ==> RingsFor(p', garden))
  {
    hide LookOnce, FreshMail;
    var r := p.ringing.value;
    var turn := ScanOf(r.look, Notice(MailboxOf(s, r.garden), r.pending, threw));
    var log := r.log.(done := r.log.done + [turn]);
    LookMeans(s, p, pid, r.garden, r.closing, log, look, give);
    LookKeepsToItsMailbox(s, p, pid, r.garden, r.closing, log, look, give);
    SameMail(s, LookOnce(s, p, pid, r.garden, r.closing, log, look, give).0, h);
  }

  /** While a ring of `garden` is under way, no handler of the process touches the fresh mail of another garden. */
  lemma HandlerLeavesMail(s: Stores, p: Proc, e: Event, garden: string, h: string)
    requires !e.Outside? && RingsFor(p, garden) && h != garden
    ensures var (s', p') := Handle(s, p, e);
      && FreshMail(s', h) == FreshMail(s, h)
      && (p'.ringing.Some? ==> RingsFor(p', garden))
  {
    hide TryArm, Unarm, ResumeRing, FreshMail, BecomesArmed;
    match e
    case Edge(pid, _, _, cancelOk, env, _, look, give) =>
      UnarmMeans(s, CancelRetry(p, cancelOk), pid, give);
      var (s1, p1) := Unarm(s, CancelRetry(p, cancelOk), pid, give);
      SameMail(s, s1, h);
      AttemptMeans(s1, p1.(retryTicks := 0), pid, env);
      AttemptLeavesMail(s1, p1.(retryTicks := 0), pid, env, h);
    case Tick(pid, _, _, env, look, give) =>
      AttemptMeans(s, p.(retryTicks := p.retryTicks + 1), pid, env);
      AttemptLeavesMail(s, p.(retryTicks := p.retryTicks + 1), pid, env, h);
    case Signal(pid, look, give) =>
    case Resumes(pid, threw, _, look, give) =>
      ResumeLeavesMail(s, p, pid, threw, look, give, garden, h);
    case WatchError(pid, give) =>
      UnarmMeans(s, p, pid, give);
      SameMail(s, Unarm(s, p, pid, give).0, h);
    case Exit(pid, give) =>
      UnarmMeans(s, p, pid, give);
      SameMail(s, Unarm(s, p, pid, give).0, h);
  }

  lemma SameMail(s: Stores, s': Stores, h: string)
    requires MailboxOf(s', h) == MailboxOf(s, h)
    ensures FreshMail(s', h) == FreshMail(s, h)
  {
  }

  /** Events of process `pid` all through a ring of `garden`: before each of them the ring is under way. */
  predicate Throughout(w: World, es: seq<Event>, pid: nat, garden: string)
    decreases |es|
  {
    es == [] ||
    (!es[0].Outside? && es[0].pid == pid && pid in w.procs && RingsFor(w.procs[pid], garden)
     && Throughout(Step(w, es[0]), es[1..], pid, garden))
  }

  /**
   A receiver that is armed anew inside a notice, for another garden: whatever it does until the ring is
   over, the mail that waits for the new garden is left as it is, although its startup ring was asked for.
   */
  lemma {:induction false} RearmedMailWaits(w: World, es: seq<Event>, pid: nat, garden: string, h: string)
    requires Throughout(w, es, pid, garden) && h != garden
    ensures FreshMail(Run(w, es).stores, h) == FreshMail(w.stores, h)
    decreases |es|
  {
    hide Handle, FreshMail;
    if es != [] {
      HandlerLeavesMail(w.stores, w.procs[pid], es[0], garden, h);
      RearmedMailWaits(Step(w, es[0]), es[1..], pid, garden, h);
    }
  }

  /** A look whose calls all succeed, over a truthful directory read. */
  predicate Clear(look: Look, m: Mailbox) {
    && look.listing.Some? && Lists(look.listing.value, m) && look.recountOk
    && |FreshOf(look.listing.value)| <= look.renames
  }

  /**
   The ring asked for by an edge inside a notice looks at the new garden's mail exactly when the ring is
   that garden's own: the notice returns, every call of the next look succeeds, and the mail is stamped.
   */
  lemma RequestServesExactly(s: Stores, p: Proc, pid: nat, garden: string, h: string, cancelOk: bool,
                             look: Look, give: Give)
    requires RingsFor(p, garden) && p.ringing.value.pending && FreshMail(s, h) != map[]
    requires SIGNAL in MailboxOf(s, garden) && Clear(look, MailboxOf(s, garden))
    ensures var (s', p') := Handle(s, p, Resumes(pid, false, cancelOk, look, give));
      FreshMail(s', h) == map[] <==> h == garden
  {
    hide StampAll, FreshOf, DeliveredIn, Unarm;
    var m := MailboxOf(s, garden);
    if h == garden {
      var names := FreshOf(look.listing.value);
      FreshOfExactly(look.listing.value);
      StampAllLeavesNothingFresh(m, names);
      assert forall name <- FreshIn(m) :: name in names;
      assert forall name <- StampAll(m, names) :: IsFresh(name) ==> name in FreshIn(StampAll(m, names));
      assert forall name <- FreshMail(s, h) :: name in names;
    } else {
      HandlerLeavesMail(s, p, Resumes(pid, false, cancelOk, look, give), garden, h);
    }
  }

  /** And if the old garden's signal is gone by then, the look gives the new garden's doorbell back. */
  lemma OldSignalUnarms(s: Stores, p: Proc, pid: nat, garden: string, cancelOk: bool, look: Look, give: Give)
    requires RingsFor(p, garden) && p.ringing.value.pending && p.armed.Some?
    ensures var (s', p') := Handle(s, p, Resumes(pid, false, cancelOk, look, give));
      && (p'.armed.None? <==> SIGNAL !in MailboxOf(s, garden))
      && (p'.armed.Some? ==> p'.armed == p.armed)
  {
    hide ResumeRing, Unarm;
    ResumeMeans(s, p, pid, false, look, give);
    UnarmMeans(s, p, pid, give);
    CancelMeans(ResumeRing(s, p, pid, false, look, give).1, cancelOk);
  }
}
