/**
 The model lock as a machine over vendor events. The handler awaits `pi.setModel(from)`, so a revert
 is three moments: the call, its landing (the vendor sets the model and emits the nested
 `model_select`), and its resolution, where the `finally` releases the flag. A revert that is refused
 or throws resolves without landing.
 */
module ModelLock {
  import opened Options

  const ENTWURF_PROVIDER := "entwurf"

  datatype Model = Model(provider: string, id: string)

  datatype Source = Set | Cycle | Restore

  datatype StartReason = Startup | New | Reload | Resume | Fork

  /** Whether the session holds a message, or could not be read (which counts as started). */
  datatype Entries = Unreadable | Read(hasMessage: bool)

  /** The session's model, the two flags, the model a revert that has not landed goes back to, the events emitted. */
  datatype LockState = LockState(current: Option<Model>, locked: bool, reverting: bool, target: Option<Model>,
                                 emitted: nat)

  const INITIAL := LockState(None, false, false, None, 0)

  datatype Event =
    | SessionStarts(reason: StartReason, entries: Entries)
    | AgentStarts
    | Select(model: Model, source: Source)
    | RevertLands
    | RevertResolves

  predicate Started(entries: Entries) { entries.Unreadable? || entries.hasMessage }

  predicate Touches(a: Model, b: Model) { a.provider == ENTWURF_PROVIDER || b.provider == ENTWURF_PROVIDER }

  /** What a locked session refuses: an explicit in-session switch that touches the entwurf boundary. */
  predicate Refused(from: Option<Model>, to: Model, source: Source) {
    source != Restore && from.Some? && from.value != to && Touches(from.value, to)
  }

  /** The vendor has set the model and emits the event; the handler answers. */
  function Selected(s: LockState, model: Model, source: Source): LockState {
    var set_ := s.(current := Some(model), emitted := s.emitted + 1);
    if !s.reverting && s.locked && Refused(s.current, model, source)
    then set_.(reverting := true, target := s.current) else set_
  }

  function Step(s: LockState, e: Event): LockState {
    match e
    case SessionStarts(reason, entries) =>
      s.(locked := match reason
                   case Resume => true
                   case Fork => true
                   case Reload => s.locked || Started(entries)
                   case _ => Started(entries))
    case AgentStarts => s.(locked := true)
    case Select(model, source) => Selected(s, model, source)
    case RevertLands => if s.reverting && s.target.Some? then Selected(s, s.target.value, Set).(target := None) else s
    case RevertResolves => s.(reverting := false, target := None)
  }

  function Run(s: LockState, es: seq<Event>): LockState
    decreases |es|
  {
    if es == [] then s else Run(Step(s, es[0]), es[1..])
  }

  class Lock {
    var current: Option<Model>
    var sessionLocked: bool
    var reverting: bool
    var target: Option<Model>
    ghost var emitted: nat

    ghost function View(): LockState
      reads this
    {
      LockState(current, sessionLocked, reverting, target, emitted)
    }

    constructor ()
      ensures View() == INITIAL
    {
      current, sessionLocked, reverting, target, emitted := None, false, false, None, 0;
    }

    method OnSessionStart(reason: StartReason, entries: Entries)
      modifies this`sessionLocked
      ensures View() == Step(old(View()), SessionStarts(reason, entries))
    {
      if reason == Resume || reason == Fork {
        sessionLocked := true;
        return;
      }
      if reason == Reload {
        sessionLocked := sessionLocked || Started(entries);
        return;
      }
      sessionLocked := Started(entries);
    }

    method OnAgentStart()
      modifies this`sessionLocked
      ensures View() == Step(old(View()), AgentStarts)
    {
      sessionLocked := true;
    }

    /** The handler up to its `await`: it names the model to go back to, or nothing. */
    method OnModelSelect(previous: Option<Model>, model: Model, source: Source) returns (revertTo: Option<Model>)
      modifies this`reverting, this`target
      ensures var refuses := !old(reverting) && sessionLocked && Refused(previous, model, source);
        revertTo == if refuses then previous else None
      ensures revertTo.None? ==> reverting == old(reverting) && target == old(target)
      ensures revertTo.Some? ==> reverting && target == revertTo
    {
      revertTo := None;
      if reverting { return; }
      if source == Restore { return; }
      if !sessionLocked { return; }
      if previous.None? { return; }
      var from := previous.value;
      if from.provider == model.provider && from.id == model.id { return; }
      if !(from.provider == ENTWURF_PROVIDER || model.provider == ENTWURF_PROVIDER) { return; }
      reverting, target := true, previous;
      revertTo := previous;
    }

    /** The vendor's `setModel`: the model changes first, then the event is emitted. */
    method SetModel(model: Model, source: Source)
      modifies this
      ensures View() == Step(old(View()), Select(model, source))
    {
      var previous := current;
      current, emitted := Some(model), emitted + 1;
      var _ := OnModelSelect(previous, model, source);
    }

    /** The awaited `setModel` of the handler sets the model back; its own event finds the flag set. */
    method OnRevertLands()
      modifies this
      ensures View() == Step(old(View()), RevertLands)
    {
      if !reverting || target.None? { return; }
      SetModel(target.value, Set);
      target := None;
    }

    /** The `finally` of the handler. */
    method OnRevertResolves()
      modifies this
      ensures View() == Step(old(View()), RevertResolves)
    {
      reverting, target := false, None;
    }
  }

  predicate Coherent(s: LockState) { s.target.Some? ==> s.reverting }

  /** Between a revert's landing and its resolution the flag is still up: nothing is refused. */
  predicate Window(s: LockState) { s.reverting && s.target.None? }

  // ---------------------------------------------------------------- how a session comes to be locked

  /** A turn begins, a session is resumed or forked, or one starts or reloads that holds a message or cannot be read. */
  predicate Locks(e: Event) {
    || e.AgentStarts?
    || (e.SessionStarts? && (e.reason == Resume || e.reason == Fork || e.entries != Read(false)))
  }

  /** A session starts afresh and is empty. A reload never unlocks. */
  predicate Unlocks(e: Event) {
    e.SessionStarts? && (e.reason == Startup || e.reason == New) && e.entries == Read(false)
  }

  /** The last event of the run that decides about the lock has locked. */
  ghost predicate LockedBy(es: seq<Event>, k: nat) {
    k < |es| && Locks(es[k]) && forall j :: k < j < |es| ==> !Unlocks(es[j])
  }

  lemma LockStep(s: LockState, e: Event)
    ensures Step(s, e).locked <==> Locks(e) || (s.locked && !Unlocks(e))
  {
  }

  /**
   After any run a session is locked exactly if it was when the run began and nothing has unlocked it, or
   some event has locked it and none after that one has unlocked it.
   */
  lemma {:induction false} LockedExactly(s: LockState, es: seq<Event>)
    ensures Run(s, es).locked
      <==> (exists k: nat :: LockedBy(es, k)) || (s.locked && forall e <- es :: !Unlocks(e))
    decreases |es|
  {
    hide Step, Locks, Unlocks;
    if es != [] {
      var e, rest := es[0], es[1..];
      LockStep(s, e);
      LockedExactly(Step(s, e), rest);
      assert forall i :: 0 <= i < |rest| ==> rest[i] == es[i + 1];
      if i: nat :| LockedBy(rest, i) { LockedLater(es, i); }
      if i: nat :| LockedBy(es, i) {
        if i > 0 {
          assert LockedBy(rest, i - 1);
        } else {
          assert forall later <- rest :: !Unlocks(later);
        }
      }
      if Locks(e) && forall later <- rest :: !Unlocks(later) { assert LockedBy(es, 0); }
      assert es == [e] + rest;
    }
  }

  lemma LockedLater(es: seq<Event>, i: nat)
    requires es != [] && LockedBy(es[1..], i)
    ensures LockedBy(es, i + 1)
  {
    hide Locks, Unlocks;
    forall j | i + 1 < j < |es|
      ensures !Unlocks(es[j])
    {
      assert es[1..][j - 1] == es[j];
    }
  }

  // ---------------------------------------------------------------- what a switch comes to

  /** The entwurf provider is on either side. */
  predicate Crosses(from: Model, to: Model) { from.provider == "entwurf" || to.provider == "entwurf" }

  /**
   An in-session switch is answered with a revert exactly if the session is locked, no revert is under
   way, the model really changes, the entwurf provider is on either side, and it is no restore. Whatever
   the answer, the vendor has set the model and emitted one event by then.
   */
  lemma SwitchAnsweredExactly(s: LockState, model: Model, source: Source)
    ensures var s' := Step(s, Select(model, source));
      && s'.current == Some(model) && s'.emitted == s.emitted + 1 && s'.locked == s.locked
      && (if && s.locked && !s.reverting && source != Restore && s.current != None
             && s.current != Some(model) && Crosses(s.current.value, model)
          then s'.reverting && s'.target == s.current
          else s'.reverting == s.reverting && s'.target == s.target)
  {
  }

  /** Starts and turns decide about the lock alone, a landing needs a revert under way, a resolution ends it. */
  lemma OtherEventsMean(s: LockState, e: Event)
    ensures e.SessionStarts? || e.AgentStarts? ==>
      Step(s, e) == s.(locked := Locks(e) || (s.locked && !Unlocks(e)))
    ensures e.RevertLands? && (!s.reverting || s.target == None) ==> Step(s, e) == s
    ensures e.RevertLands? && s.reverting && s.target != None ==>
      Step(s, e) == s.(current := s.target, target := None, emitted := s.emitted + 1)
    ensures e.RevertResolves? ==> Step(s, e) == s.(reverting := false, target := None)
  {
  }

  /** A revert that lands and resolves puts the model back, at the cost of one more event, and the lock is on again. */
  lemma RevertPutsBack(s: LockState, model: Model, source: Source)
    requires s.locked && !s.reverting && s.target == None && source != Restore && s.current != None
    requires s.current != Some(model) && Crosses(s.current.value, model)
    ensures var landed := Step(Step(s, Select(model, source)), RevertLands);
      landed.current == s.current && Step(landed, RevertResolves) == s.(emitted := s.emitted + 2)
  {
  }

  // ---------------------------------------------------------------- what runs keep

  /** Nothing unlocks, no restore, no switch in the window, and reverts land before they resolve. */
  predicate Undisturbed(s: LockState, e: Event) {
    match e
    case SessionStarts(_, _) => !Unlocks(e)
    case AgentStarts => true
    case Select(_, source) => !Window(s) && source != Restore
    case RevertLands => true
    case RevertResolves => s.target.None?
  }

  predicate AllUndisturbed(s: LockState, es: seq<Event>)
    decreases |es|
  {
    es == [] || (Undisturbed(s, es[0]) && AllUndisturbed(Step(s, es[0]), es[1..]))
  }

  /** The model the session will have once a revert that is under way has landed. */
  function Settled(s: LockState): Option<Model> { if s.target.Some? then s.target else s.current }

  /** Same side of the boundary: an entwurf session keeps its very model, a native one stays native. */
  predicate Keeps(anchor: Model, now: Option<Model>) {
    && now.Some?
    && if anchor.provider == ENTWURF_PROVIDER then now.value == anchor else now.value.provider != ENTWURF_PROVIDER
  }

  /**
   What gets a locked session past its lock: a switch that breaks it and comes as a restore or in the
   window after a landing, or a revert that resolves without having landed over a model that breaks it.
   A session start may set the lock itself aside.
   */
  predicate Escapes(s: LockState, e: Event, anchor: Model) {
    match e
    case Select(model, source) => s.target.None? && (source == Restore || Window(s)) && !Keeps(anchor, Some(model))
    case RevertResolves => s.target.Some? && !Keeps(anchor, s.current)
    case _ => false
  }

  /** The session is locked, and its model is kept or on its way back. */
  predicate Kept(s: LockState, anchor: Model) { s.locked && Keeps(anchor, Settled(s)) }

  /** Every event but one that unlocks keeps the lock exactly when it does not escape. */
  lemma StepKeepsExactly(s: LockState, e: Event, anchor: Model)
    requires Coherent(s) && Kept(s, anchor) && !Unlocks(e)
    ensures Coherent(Step(s, e))
    ensures Kept(Step(s, e), anchor) <==> !Escapes(s, e, anchor)
  {
  }

  predicate Continues(es: seq<Event>) { forall e <- es :: !Unlocks(e) }

  predicate NeverEscapes(s: LockState, es: seq<Event>, anchor: Model)
    decreases |es|
  {
    es == [] || (!Escapes(s, es[0], anchor) && NeverEscapes(Step(s, es[0]), es[1..], anchor))
  }

  predicate AlwaysKept(s: LockState, es: seq<Event>, anchor: Model)
    decreases |es|
  {
    Kept(s, anchor) && (es == [] || AlwaysKept(Step(s, es[0]), es[1..], anchor))
  }

  /**
   Over any run in which nothing unlocks, failing reverts, restores and racing switches included, a
   locked session keeps its model after every event exactly when no event escapes.
   */
  lemma {:induction false} RunsKeepExactly(s: LockState, es: seq<Event>, anchor: Model)
    requires Coherent(s) && Kept(s, anchor) && Continues(es)
    ensures AlwaysKept(s, es, anchor) <==> NeverEscapes(s, es, anchor)
    decreases |es|
  {
    hide Step, Kept, Escapes;
    if es != [] {
      assert es[0] in es && forall e <- es[1..] :: e in es;
      StepKeepsExactly(s, es[0], anchor);
      if !Escapes(s, es[0], anchor) {
        RunsKeepExactly(Step(s, es[0]), es[1..], anchor);
      } else {
        NotAlwaysKept(Step(s, es[0]), es[1..], anchor);
      }
    }
  }

  lemma NotAlwaysKept(s: LockState, es: seq<Event>, anchor: Model)
    requires !Kept(s, anchor)
    ensures !AlwaysKept(s, es, anchor)
  {
  }

  lemma {:induction false} KeptAtTheEnd(s: LockState, es: seq<Event>, anchor: Model)
    requires AlwaysKept(s, es, anchor)
    ensures Kept(Run(s, es), anchor)
    decreases |es|
  {
    hide Step, Kept;
    if es != [] { KeptAtTheEnd(Step(s, es[0]), es[1..], anchor); }
  }

  lemma {:induction false} UndisturbedNeverEscapes(s: LockState, es: seq<Event>, anchor: Model)
    requires Coherent(s) && AllUndisturbed(s, es)
    ensures NeverEscapes(s, es, anchor) && Continues(es) && Coherent(Run(s, es))
    decreases |es|
  {
    if es != [] {
      UndisturbedNeverEscapes(Step(s, es[0]), es[1..], anchor);
      assert es == [es[0]] + es[1..];
    }
  }

  lemma {:induction false} RunsAreCoherent(s: LockState, es: seq<Event>)
    requires Coherent(s)
    ensures Coherent(Run(s, es))
    decreases |es|
  {
    if es != [] { RunsAreCoherent(Step(s, es[0]), es[1..]); }
  }

  lemma {:induction false} RunBoth(s: LockState, a: seq<Event>, b: seq<Event>)
    ensures Run(s, a + b) == Run(Run(s, a), b)
    decreases |a|
  {
    hide Step;
    if a == [] {
      assert a + b == b;
    } else {
      assert (a + b)[1..] == a[1..] + b;
      RunBoth(Step(s, a[0]), a[1..], b);
    }
  }

  /**
   From the start of the process: once a run has come to an event that locks, with a model that is or is
   coming back to the anchor's side, the session keeps it over every undisturbed rest of the run - an
   entwurf session its very model, and a native session never becomes an entwurf one.
   */
  lemma LockHolds(es: seq<Event>, k: nat, anchor: Model)
    requires LockedBy(es, k)
    requires var s := Run(INITIAL, es[..k + 1]);
      Keeps(anchor, Settled(s)) && AllUndisturbed(s, es[k + 1..])
    ensures var s' := Run(INITIAL, es);
      && s'.locked && Keeps(anchor, Settled(s')) && (!s'.reverting ==> Keeps(anchor, s'.current))
  {
    hide Run, Step, Locks, Unlocks;
    var s, rest := Run(INITIAL, es[..k + 1]), es[k + 1..];
    assert es[..k + 1] + rest == es;
    RunBoth(INITIAL, es[..k + 1], rest);
    RunsAreCoherent(INITIAL, es[..k + 1]);
    assert LockedBy(es[..k + 1], k);
    LockedExactly(INITIAL, es[..k + 1]);
    UndisturbedNeverEscapes(s, rest, anchor);
    RunsKeepExactly(s, rest, anchor);
    KeptAtTheEnd(s, rest, anchor);
  }

  predicate Refusal(s: LockState, e: Event) {
    && e.Select? && s.locked && !s.reverting && e.source != Restore
    && s.current != None && s.current != Some(e.model) && Crosses(s.current.value, e.model)
  }

  function Refusals(s: LockState, es: seq<Event>): nat
    decreases |es|
  {
    if es == [] then 0 else (if Refusal(s, es[0]) then 1 else 0) + Refusals(Step(s, es[0]), es[1..])
  }

  function Selects(es: seq<Event>): nat
    decreases |es|
  {
    if es == [] then 0 else (if es[0].Select? then 1 else 0) + Selects(es[1..])
  }

  /** A nested event still owed. */
  function Pending(s: LockState): nat { if s.target.Some? then 1 else 0 }

  /**
   Every refused switch costs exactly one nested `model_select`, and nothing else adds one: over an
   undisturbed run the events emitted are the user's switches plus one per refusal that has landed.
   */
  lemma {:induction false} OneNestedEventPerRefusal(s: LockState, es: seq<Event>)
    requires Coherent(s) && AllUndisturbed(s, es)
    ensures Run(s, es).emitted + Pending(Run(s, es)) == s.emitted + Pending(s) + Selects(es) + Refusals(s, es)
    decreases |es|
  {
    if es != [] {
      OneNestedEventPerRefusal(Step(s, es[0]), es[1..]);
    }
  }

  /**
   The lock is lost by a switch exactly when the switch itself breaks it and comes as a restore or in
   the window after a revert landed; a switch that comes before the landing is overwritten by it.
   */
  lemma SwitchEscapesExactly(s: LockState, model: Model, source: Source, anchor: Model)
    requires Coherent(s) && s.locked && Keeps(anchor, Settled(s))
    ensures !Keeps(anchor, Settled(Step(s, Select(model, source))))
      <==> s.target.None? && (source == Restore || Window(s)) && !Keeps(anchor, Some(model))
  {
  }

  /** The other way out: a revert that resolves without landing breaks the lock exactly if the refused model does. */
  lemma FailedRevertKeepsTheSwitch(s: LockState, model: Model, anchor: Model)
    requires Coherent(s) && Kept(s, anchor) && !s.reverting && Refused(s.current, model, Set)
    ensures var s' := Step(Step(s, Select(model, Set)), RevertResolves);
      && !s'.reverting && s'.current == Some(model) && s'.current != s.current
      && (Kept(s', anchor) <==> Keeps(anchor, Some(model)))
  {
  }

  /** A race, concretely: an entwurf session whose second switch falls into the window of the first one's revert. */
  lemma WindowRace()
    ensures var home, away := Model(ENTWURF_PROVIDER, "a"), Model("native", "b");
      var s := Run(LockState(Some(home), true, false, None, 0),
                   [Select(away, Set), RevertLands, Select(away, Set), RevertResolves]);
      !s.reverting && s.locked && s.current == Some(away)
  {
    var home, away := Model(ENTWURF_PROVIDER, "a"), Model("native", "b");
    var s0 := LockState(Some(home), true, false, None, 0);
    var es := [Select(away, Set), RevertLands, Select(away, Set), RevertResolves];
    assert es[1..] == [RevertLands, Select(away, Set), RevertResolves];
    assert es[1..][1..] == [Select(away, Set), RevertResolves];
    assert es[1..][1..][1..] == [RevertResolves];
    var s1 := Step(s0, es[0]);
    var s2 := Step(s1, RevertLands);
    var s3 := Step(s2, Select(away, Set));
    assert Run(s3, [RevertResolves]) == Run(Step(s3, RevertResolves), []);
    assert Run(s2, es[1..][1..]) == Run(s3, [RevertResolves]);
    assert Run(s1, es[1..]) == Run(s2, es[1..][1..]);
    assert Run(s0, es) == Run(s1, es[1..]);
  }
}
