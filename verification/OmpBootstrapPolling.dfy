/** The readiness poll under a vendor that keeps its timers: how often one bootstrap can tick. */
module OmpBootstrapPolling {
  import opened Options
  import opened OmpPayload
  import opened OmpBootstrap

  const MAX_POLLS := READY_TIMEOUT_MS / POLL_MS + 1

  datatype Scheduled = Scheduled(index: nat, at: int)

  /**
   A machine with the timers that were set and have not fired (one whose clearing threw included)
   and the number of times `tick` ran while its bootstrap was waiting.
   */
  datatype Clocked = Clocked(m: Machine, pending: map<nat, Scheduled>, polls: nat)

  /** A timer fires once, for the bootstrap that set it, and no earlier than its period; the clock never goes back. */
  predicate Admissible(k: Clocked, e: Event) {
    match e
    case Birth(_, _, _, _, createdAt, env) => createdAt <= env.now
    case TimerFires(i, t, env) => t in k.pending && k.pending[t].index == i && k.pending[t].at + POLL_MS <= env.now
    case _ => true
  }

  /** The bootstrap whose `tick` this event runs while it is waiting. */
  function Polled(m: Machine, e: Event): Option<nat> {
    match e
    case Birth(_, _, _, _, _, _) =>
      if |Step(m, e).handles| > |m.handles| then Some(|m.handles|) else None
    case TimerFires(i, _, _) => if i < |m.handles| && m.handles[i].phase == Waiting then Some(i) else None
    case _ => None
  }

  /** A fresh timer is new to the vendor as well: it is none of those still pending. */
  function ClockStep(k: Clocked, e: Event): Option<Clocked> {
    if !Admissible(k, e) then None
    else
      var m', polled := Step(k.m, e), Polled(k.m, e);
      var left := if e.TimerFires? then k.pending - {e.timer} else k.pending;
      if polled.None? then Some(Clocked(m', left, k.polls))
      else if polled.value >= |m'.handles| || m'.handles[polled.value].timer.None?
      then Some(Clocked(m', left, k.polls + 1))
      else
        var t := m'.handles[polled.value].timer.value;
        if t in left || !(e.Birth? || e.TimerFires?) then None
        else Some(Clocked(m', left[t := Scheduled(polled.value, e.env.now)], k.polls + 1))
  }

  function ClockRun(k: Clocked, es: seq<Event>): Option<Clocked>
    decreases |es|
  {
    if es == [] then Some(k)
    else match ClockStep(k, es[0])
      case None => None
      case Some(k') => ClockRun(k', es[1..])
  }

  /** One bootstrap and one pending timer at most; while it waits, the polls so far fit before the last set time. */
  predicate Bounded(k: Clocked) {
    && |k.pending| <= 1
    && (!k.m.consumed ==> k.m.active.None? && k.m.handles == [])
    && (k.m.active.Some? ==> k.m.active.value.index < |k.m.handles|)
    && (k.m.handles == [] ==> k.polls == 0 && k.pending == map[])
    && (k.m.handles != [] ==>
          && |k.m.handles| == 1
          && var h := k.m.handles[0];
             if h.phase == Waiting then
               && h.timer.Some? && k.pending.Keys == {h.timer.value}
               && k.pending[h.timer.value].index == 0
               && var at := k.pending[h.timer.value].at;
                  h.deadline - READY_TIMEOUT_MS + POLL_MS * (k.polls - 1) <= at < h.deadline
             else k.polls <= MAX_POLLS)
  }

  lemma BirthKeepsBounded(k: Clocked, e: Event)
    requires Bounded(k) && e.Birth? && ClockStep(k, e).Some?
    ensures Bounded(ClockStep(k, e).value)
  {
    hide Decode, ReadEnvelope, ToolReady, MatchesCallback;
  }

  lemma FiringKeepsBounded(k: Clocked, e: Event)
    requires Bounded(k) && e.TimerFires? && ClockStep(k, e).Some?
    ensures Bounded(ClockStep(k, e).value)
  {
    hide ToolReady;
    if k.m.handles != [] && k.m.handles[0].phase == Waiting && e.index == 0 {
      assert (k.pending - {e.timer}).Keys == {};
    }
  }

  lemma OtherKeepsBounded(k: Clocked, e: Event)
    requires Bounded(k) && !e.TimerFires? && !e.Birth?
    ensures ClockStep(k, e).Some? && Bounded(ClockStep(k, e).value)
  {
    hide MatchesCallback;
  }

  lemma {:induction false} RunStaysBounded(k: Clocked, es: seq<Event>)
    requires Bounded(k) && ClockRun(k, es).Some?
    ensures Bounded(ClockRun(k, es).value) && ClockRun(k, es).value.m == RunFrom(k.m, es)
    decreases |es|
  {
    hide Step, Bounded;
    if es != [] {
      match es[0] {
        case Birth(_, _, _, _, _, _) => BirthKeepsBounded(k, es[0]);
        case TimerFires(_, _, _) => FiringKeepsBounded(k, es[0]);
        case _ => OtherKeepsBounded(k, es[0]);
      }
      RunStaysBounded(ClockStep(k, es[0]).value, es[1..]);
    }
  }

  /**
   With a monotone clock and timers that fire once and not early, the launch's bootstrap polls at
   most 601 times, and never has two timers outstanding, even when clearing a timer throws.
   */
  lemma PollingTerminates(es: seq<Event>)
    requires ClockRun(Clocked(INITIAL, map[], 0), es).Some?
    ensures var k := ClockRun(Clocked(INITIAL, map[], 0), es).value;
      k.m == Run(es) && k.polls <= MAX_POLLS == 601 && |k.pending| <= 1
  {
    RunStaysBounded(Clocked(INITIAL, map[], 0), es);
  }
}
