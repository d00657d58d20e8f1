/** What every run of the fresh bootstrap keeps, stated over the vendor events themselves. */
module OmpBootstrapRuns {
  import opened Options
  import opened OmpPayload
  import opened OmpBootstrap

  // ---------------------------------------------------------------- what an event means, on its own

  predicate TuiEdge(e: Event) { e.Birth? && e.birthCtx.mode == "tui" }

  /** A birth edge that would spend the launch's one chance: born, and the flag carries a usable payload. */
  predicate Spends(e: Event) {
    && TuiEdge(e) && ReadEnvelope(e.birthCtx).Some? && e.upsertOk
    && e.flag.FlagRead? && Decode(e.flag.value).Decoded?
  }

  predicate Arms(e: Event) { Spends(e) && e.timersAvailable }

  function SessionOf(e: Event): string
    requires Spends(e)
  {
    ReadEnvelope(e.birthCtx).value.nativeSessionId
  }

  function PayloadOf(e: Event): Payload
    requires Spends(e)
  {
    Decode(e.flag.value).payload
  }

  function DeadlineOf(e: Event): int
    requires Spends(e)
  {
    e.createdAt + READY_TIMEOUT_MS
  }

  predicate Prompts(env: PollEnv) { ToolReady(env.tools) && env.sendAvailable }

  predicate KeepsPolling(env: PollEnv, deadline: int) {
    !ToolReady(env.tools) && env.now < deadline && env.set_.Some?
  }

  predicate MatchingCall(e: Event, session: string, p: Payload) {
    && e.ToolCall? && e.ctx.mode == "tui" && e.ctx.sessionId == Some(session)
    && MatchesCallback(e.tool, p) && e.tool.callId != None && e.tool.callId != Some("")
  }

  predicate SucceedingResult(e: Event, session: string, p: Payload, id: Option<string>) {
    && e.ToolResult? && e.ctx.mode == "tui" && e.ctx.sessionId == Some(session)
    && MatchesCallback(e.tool, p) && e.tool.callId == id && e.tool.isError == Some(false)
  }

  predicate EndsTurn(e: Event, session: string) {
    e.TurnEnd? && e.ctx.mode == "tui" && e.ctx.sessionId == Some(session)
  }

  // ---------------------------------------------------------------- the delivery chain, over event positions

  /** The positions of the five events a delivered task rests on. */
  datatype Chain = Chain(armed: nat, callback: nat, call: nat, result: nat, turn: nat)

  /** `a` is the first event that spends the launch, and it arms. */
  predicate FirstArm(es: seq<Event>, a: nat) {
    a < |es| && Arms(es[a]) && forall i :: 0 <= i < a ==> !Spends(es[i])
  }

  predicate NoEdgeBetween(es: seq<Event>, a: nat, n: nat)
    requires n <= |es|
  {
    forall i :: a < i < n ==> !TuiEdge(es[i])
  }

  /** Event `i` runs the readiness poll of the bootstrap armed at `a`. */
  predicate Observes(es: seq<Event>, a: nat, i: nat)
    requires i < |es| && a < |es| && es[a].Birth?
  {
    i == a || (es[i].TimerFires? && es[i].index == 0)
  }

  predicate PollsOn(es: seq<Event>, a: nat, n: nat)
    requires a < |es| && n <= |es| && Arms(es[a])
  {
    forall i :: a <= i < n && Observes(es, a, i) ==> KeepsPolling(es[i].env, DeadlineOf(es[a]))
  }

  /** `cb` is the first poll that does not go on polling, and it finds the tool live and can send. */
  predicate PromptedAt(es: seq<Event>, a: nat, cb: nat)
    requires a < |es| && Arms(es[a])
  {
    a <= cb < |es| && Observes(es, a, cb) && Prompts(es[cb].env) && PollsOn(es, a, cb)
  }

  predicate NoCall(es: seq<Event>, a: nat, lo: nat, hi: nat)
    requires a < |es| && Arms(es[a]) && hi <= |es|
  {
    forall i :: lo < i < hi ==> !MatchingCall(es[i], SessionOf(es[a]), PayloadOf(es[a]))
  }

  predicate CalledAt(es: seq<Event>, a: nat, cb: nat, call: nat)
    requires a < |es| && Arms(es[a])
  {
    cb < call < |es| && MatchingCall(es[call], SessionOf(es[a]), PayloadOf(es[a])) && NoCall(es, a, cb, call)
  }

  predicate NoSuccess(es: seq<Event>, a: nat, call: nat, hi: nat)
    requires a < |es| && Arms(es[a]) && call < |es| && es[call].ToolCall? && hi <= |es|
  {
    forall i :: call < i < hi ==>
      !SucceedingResult(es[i], SessionOf(es[a]), PayloadOf(es[a]), es[call].tool.callId)
  }

  predicate SucceededAt(es: seq<Event>, a: nat, call: nat, result: nat)
    requires a < |es| && Arms(es[a]) && call < |es| && es[call].ToolCall?
  {
    && call < result < |es|
    && SucceedingResult(es[result], SessionOf(es[a]), PayloadOf(es[a]), es[call].tool.callId)
    && NoSuccess(es, a, call, result)
  }

  predicate NoTurnEnd(es: seq<Event>, a: nat, lo: nat, hi: nat)
    requires a < |es| && Arms(es[a]) && hi <= |es|
  {
    forall i :: lo < i < hi ==> !EndsTurn(es[i], SessionOf(es[a]))
  }

  predicate HasReturn(es: seq<Event>, lo: nat, hi: nat)
    requires hi <= |es|
  {
    exists i :: lo < i < hi && es[i].SendReturns?
  }

  /** The callback send, whenever it returned between `cb` and `n`, did not return by throwing. */
  predicate PromptHeld(es: seq<Event>, cb: nat, n: nat)
    requires n <= |es|
  {
    forall i :: cb < i < n && es[i].SendReturns? && es[i].threw ==> HasReturn(es, cb, i)
  }

  /** The whole condition for the task to be sent, in event positions alone. */
  predicate Delivers(es: seq<Event>, c: Chain) {
    && FirstArm(es, c.armed)
    && PromptedAt(es, c.armed, c.callback)
    && CalledAt(es, c.armed, c.callback, c.call)
    && SucceededAt(es, c.armed, c.call, c.result)
    && c.result < c.turn < |es|
    && EndsTurn(es[c.turn], SessionOf(es[c.armed])) && es[c.turn].sendAvailable
    && NoTurnEnd(es, c.armed, c.result, c.turn)
    && NoEdgeBetween(es, c.armed, c.turn)
    && PromptHeld(es, c.callback, c.turn)
  }

  function PromptFor(p: Payload): Message { CallbackPrompt(p.target, p.nonce) }
  function TaskFor(p: Payload): Message { TaskMessage(p.task) }

  // ---------------------------------------------------------------- the invariant of every run

  predicate Unspent(es: seq<Event>) { forall i :: 0 <= i < |es| ==> !Spends(es[i]) }

  /** How the one bootstrap of a run came to its phase. */
  ghost predicate Explains(es: seq<Event>, c: Chain, m: Machine) {
    && FirstArm(es, c.armed)
    && |m.handles| == 1
    && var h := m.handles[0];
       var p := PayloadOf(es[c.armed]);
    && h.payload == p && h.deadline == DeadlineOf(es[c.armed])
    && (m.active.Some? ==> m.active.value == Active(SessionOf(es[c.armed]), 0) && NoEdgeBetween(es, c.armed, |es|))
    && (m.active.None? ==> Final(h.phase))
    && (h.timer.Some? ==> h.phase == Waiting)
    && (forall i <- m.sending :: i == 0)
    && (m.sent == [] || PromptedAt(es, c.armed, c.callback))
    && match h.phase
       case Waiting =>
         h.timer.Some? && h.callId.None? && m.sent == [] && m.sending == [] && PollsOn(es, c.armed, |es|)
       case CallbackSent => Prompted(es, c, m, h) &&
         (if h.callId.None? then NoCall(es, c.armed, c.callback, |es|)
          else Called(es, c, h) && NoSuccess(es, c.armed, c.call, |es|))
       case Released => Prompted(es, c, m, h) && Called(es, c, h) &&
         SucceededAt(es, c.armed, c.call, c.result) && NoTurnEnd(es, c.armed, c.result, |es|)
       case TaskSent =>
         m.sent == [PromptFor(p)] || (m.sent == [PromptFor(p), TaskFor(p)] && Delivers(es, c))
       case Failed => m.sent == [] || m.sent == [PromptFor(p)]
  }

  ghost predicate Prompted(es: seq<Event>, c: Chain, m: Machine, h: Handle)
    requires FirstArm(es, c.armed)
  {
    && PromptedAt(es, c.armed, c.callback)
    && m.active.Some?
    && m.sent == [PromptFor(PayloadOf(es[c.armed]))]
    && PromptHeld(es, c.callback, |es|)
    && m.sending == (if HasReturn(es, c.callback, |es|) then [] else [0])
  }

  ghost predicate Called(es: seq<Event>, c: Chain, h: Handle)
    requires FirstArm(es, c.armed)
  {
    CalledAt(es, c.armed, c.callback, c.call) && h.callId == es[c.call].tool.callId
  }

  ghost predicate Reached(es: seq<Event>, c: Chain, m: Machine) {
    if !m.consumed then m == INITIAL && Unspent(es)
    else if m.handles == [] then m == INITIAL.(consumed := true) && !Unspent(es)
    else Explains(es, c, m)
  }

  /** How one more event changes what is known of the returns of sends. */
  lemma ExtendReturns(es: seq<Event>, e: Event, lo: nat)
    ensures forall i :: 0 <= i <= |es| ==> HasReturn(es + [e], lo, i) == HasReturn(es, lo, i)
    ensures HasReturn(es + [e], lo, |es| + 1) == (HasReturn(es, lo, |es|) || (e.SendReturns? && lo < |es|))
    ensures PromptHeld(es, lo, |es|) && (e.SendReturns? && e.threw ==> HasReturn(es, lo, |es|))
        ==> PromptHeld(es + [e], lo, |es| + 1)
  {
    var es' := es + [e];
    forall i | 0 <= i <= |es|
      ensures HasReturn(es', lo, i) == HasReturn(es, lo, i)
    {
      if HasReturn(es, lo, i) {
        var j :| lo < j < i && es[j].SendReturns?;
        assert es'[j].SendReturns?;
      }
      if HasReturn(es', lo, i) {
        var j :| lo < j < i && es'[j].SendReturns?;
        assert es[j].SendReturns?;
      }
    }
    assert es'[|es|] == e;
    if HasReturn(es, lo, |es|) {
      var j :| lo < j < |es| && es[j].SendReturns?;
      assert es'[j].SendReturns?;
    }
  }

  /** One more event keeps every part of the chain that the earlier events established. */
  lemma Extend(es: seq<Event>, e: Event, c: Chain)
    requires FirstArm(es, c.armed)
    ensures FirstArm(es + [e], c.armed) && (es + [e])[c.armed] == es[c.armed]
    ensures NoEdgeBetween(es, c.armed, |es|) && !TuiEdge(e) ==> NoEdgeBetween(es + [e], c.armed, |es| + 1)
    ensures PromptedAt(es, c.armed, c.callback) ==> PromptedAt(es + [e], c.armed, c.callback)
    ensures CalledAt(es, c.armed, c.callback, c.call) ==> CalledAt(es + [e], c.armed, c.callback, c.call)
    ensures c.call < |es| && es[c.call].ToolCall? && SucceededAt(es, c.armed, c.call, c.result)
        ==> SucceededAt(es + [e], c.armed, c.call, c.result)
    ensures Delivers(es, c) ==> Delivers(es + [e], c)
  {
    var es' := es + [e];
    assert forall i :: 0 <= i < |es| ==> es'[i] == es[i];
    if PromptedAt(es, c.armed, c.callback) {
      assert forall i :: 0 <= i < |es| ==> Observes(es', c.armed, i) == Observes(es, c.armed, i);
    }
    ExtendReturns(es, e, c.callback);
  }

  lemma ArmStep(es: seq<Event>, e: Event) returns (c: Chain)
    requires Unspent(es)
    ensures Reached(es + [e], c, Step(INITIAL, e))
  {
    hide ReadEnvelope, ToolReady, DecodeMembers, MatchesCallback;
    var es', k := es + [e], |es|;
    c := Chain(k, k, 0, 0, 0);
    assert es'[k] == e;
    assert forall i :: 0 <= i < k ==> es'[i] == es[i];
    if Arms(e) {
      assert FirstArm(es', k);
      assert Observes(es', k, k);
      assert Step(INITIAL, e).sent == [] || Prompts(e.env);
      assert !HasReturn(es', k, |es'|);
    }
  }

  /** A tick of the waiting bootstrap. */
  lemma WaitingStep(es: seq<Event>, c: Chain, m: Machine, e: Event) returns (c': Chain)
    requires Explains(es, c, m) && e.TimerFires? && e.index == 0 && m.handles[0].phase == Waiting
    ensures Explains(es + [e], c', Step(m, e))
  {
    hide Decode, ReadEnvelope, ToolReady, MatchesCallback;
    Extend(es, e, c);
    assert Observes(es + [e], c.armed, |es|);
    c' := if Prompts(e.env) then c.(callback := |es|) else c;
  }

  lemma PollStep(es: seq<Event>, c: Chain, m: Machine, e: Event) returns (c': Chain)
    requires Explains(es, c, m) && e.TimerFires?
    ensures Explains(es + [e], c', Step(m, e))
  {
    hide Decode, ReadEnvelope, ToolReady, MatchesCallback;
    var h := m.handles[0];
    if e.index == 0 && h.phase == Waiting {
      c' := WaitingStep(es, c, m, e);
    } else {
      c' := c;
      Extend(es, e, c);
      ExtendReturns(es, e, c.callback);
    }
  }

  /** An event that leaves the machine as it is leaves it explained. */
  lemma QuietStep(es: seq<Event>, c: Chain, m: Machine, e: Event)
    requires Explains(es, c, m) && !TuiEdge(e)
    requires !(e.TimerFires? && e.index == 0) && !e.SendReturns?
    requires m.active.Some? ==> var s := m.active.value.session;
      && (m.handles[0].phase == CallbackSent && m.handles[0].callId.None? ==> !MatchingCall(e, s, m.handles[0].payload))
      && (m.handles[0].phase == CallbackSent && m.handles[0].callId.Some? ==>
            !SucceedingResult(e, s, m.handles[0].payload, m.handles[0].callId))
      && (m.handles[0].phase == Released ==> !EndsTurn(e, s))
    ensures Explains(es + [e], c, m)
  {
    hide Decode, ReadEnvelope, ToolReady, MatchesCallback;
    Extend(es, e, c);
    ExtendReturns(es, e, c.callback);
  }

  lemma CallStep(es: seq<Event>, c: Chain, m: Machine, e: Event) returns (c': Chain)
    requires Explains(es, c, m) && e.ToolCall?
    ensures Explains(es + [e], c', Step(m, e))
  {
    hide Decode, ReadEnvelope, ToolReady, MatchesCallback;
    var h := m.handles[0];
    if h.phase == CallbackSent && h.callId.None? && MatchingCall(e, SessionOf(es[c.armed]), h.payload) {
      Extend(es, e, c);
      ExtendReturns(es, e, c.callback);
      c' := c.(call := |es|);
    } else {
      c' := c;
      QuietStep(es, c, m, e);
      assert Step(m, e).handles == m.handles;
    }
  }

  lemma ResultStep(es: seq<Event>, c: Chain, m: Machine, e: Event) returns (c': Chain)
    requires Explains(es, c, m) && e.ToolResult?
    ensures Explains(es + [e], c', Step(m, e))
  {
    hide Decode, ReadEnvelope, ToolReady, MatchesCallback;
    var h := m.handles[0];
    if && h.phase == CallbackSent && h.callId.Some?
       && SucceedingResult(e, SessionOf(es[c.armed]), h.payload, h.callId)
    {
      Extend(es, e, c);
      ExtendReturns(es, e, c.callback);
      c' := c.(result := |es|);
    } else {
      c' := c;
      QuietStep(es, c, m, e);
      assert Step(m, e).handles == m.handles;
    }
  }

  lemma TurnStep(es: seq<Event>, c: Chain, m: Machine, e: Event) returns (c': Chain)
    requires Explains(es, c, m) && e.TurnEnd?
    ensures Explains(es + [e], c', Step(m, e))
  {
    hide Decode, ReadEnvelope, ToolReady, MatchesCallback;
    var h := m.handles[0];
    if h.phase == Released && EndsTurn(e, SessionOf(es[c.armed])) {
      c' := TaskStep(es, c, m, e);
    } else {
      c' := c;
      QuietStep(es, c, m, e);
      assert Step(m, e).handles == m.handles;
    }
  }

  lemma TaskStep(es: seq<Event>, c: Chain, m: Machine, e: Event) returns (c': Chain)
    requires Explains(es, c, m) && EndsTurn(e, SessionOf(es[c.armed])) && m.handles[0].phase == Released
    ensures Explains(es + [e], c', Step(m, e))
  {
    hide Decode, ReadEnvelope, ToolReady, MatchesCallback;
    Extend(es, e, c);
    ExtendReturns(es, e, c.callback);
    var es', k := es + [e], |es|;
    c' := c.(turn := k);
    if e.sendAvailable {
      assert Delivers(es', c');
    }
  }

  lemma ReturnStep(es: seq<Event>, c: Chain, m: Machine, e: Event)
    requires Explains(es, c, m) && e.SendReturns?
    ensures Explains(es + [e], c, Step(m, e))
  {
    hide Decode, ReadEnvelope, ToolReady, MatchesCallback;
    Extend(es, e, c);
    ExtendReturns(es, e, c.callback);
    if m.sending != [] {
      if e.threw {
        ThrownStep(es, c, m, e);
      } else {
        ReturnedStep(es, c, m, e);
      }
    }
  }

  lemma ReturnedStep(es: seq<Event>, c: Chain, m: Machine, e: Event)
    requires Explains(es, c, m) && e == SendReturns(false) && m.sending != []
    ensures Explains(es + [e], c, Step(m, e))
  {
    hide Decode, ReadEnvelope, ToolReady, MatchesCallback;
    Extend(es, e, c);
    ExtendReturns(es, e, c.callback);
    var rest := m.sending[..|m.sending| - 1];
    var m' := Step(m, e);
    assert m' == m.(sending := rest);
    assert forall i <- rest :: i in m.sending;
    match m.handles[0].phase
    case Waiting =>
    case CallbackSent => assert rest == [];
    case Released => assert rest == [];
    case TaskSent =>
    case Failed =>
  }

  lemma ThrownStep(es: seq<Event>, c: Chain, m: Machine, e: Event)
    requires Explains(es, c, m) && e == SendReturns(true) && m.sending != []
    ensures Explains(es + [e], c, Step(m, e))
  {
    hide Decode, ReadEnvelope, ToolReady, MatchesCallback;
    Extend(es, e, c);
    var m' := Step(m, e);
    assert m.sending[|m.sending| - 1] in m.sending;
    assert m'.handles == [Ended(m.handles[0])];
    assert m' == m.(handles := [Ended(m.handles[0])], sending := m.sending[..|m.sending| - 1]);
    assert forall i <- m'.sending :: i in m.sending;
  }

  lemma BirthStep(es: seq<Event>, c: Chain, m: Machine, e: Event)
    requires Explains(es, c, m) && m.consumed && e.Birth?
    ensures Explains(es + [e], c, Step(m, e)) && Step(m, e).consumed
    ensures TuiEdge(e) ==> Step(m, e).active.None?
  {
    hide Decode, ReadEnvelope, ToolReady, MatchesCallback;
    Extend(es, e, c);
    var es' := es + [e];
    var h := m.handles[0];
    if h.phase == CallbackSent || h.phase == Released {
      ExtendReturns(es, e, c.callback);
    }
  }

  /** Every run's state is explained by the events that led to it. */
  lemma {:induction false} RunReached(es: seq<Event>) returns (c: Chain)
    ensures Reached(es, c, Run(es))
    decreases |es|
  {
    if es == [] {
      c := Chain(0, 0, 0, 0, 0);
    } else {
      var before, e := es[..|es| - 1], es[|es| - 1];
      assert es == before + [e];
      RunSnoc(es);
      c := RunReached(before);
      c := ReachedStep(before, c, Run(before), e);
    }
  }

  lemma SpentStays(es: seq<Event>, e: Event)
    ensures !Unspent(es) ==> !Unspent(es + [e])
  {
    if !Unspent(es) {
      var i :| 0 <= i < |es| && Spends(es[i]);
      assert Spends((es + [e])[i]);
    }
  }

  lemma ReachedStep(es: seq<Event>, c: Chain, m: Machine, e: Event) returns (c': Chain)
    requires Reached(es, c, m)
    ensures Reached(es + [e], c', Step(m, e))
  {
    hide Explains;
    c' := c;
    if !m.consumed {
      c' := ArmStep(es, e);
    } else if m.handles == [] {
      SpentStays(es, e);
    } else {
      match e
      case Birth(_, _, _, _, _, _) => BirthStep(es, c, m, e);
      case TimerFires(_, _, _) => c' := PollStep(es, c, m, e);
      case ToolCall(_, _) => c' := CallStep(es, c, m, e);
      case ToolResult(_, _) => c' := ResultStep(es, c, m, e);
      case TurnEnd(_, _) => c' := TurnStep(es, c, m, e);
      case SendReturns(_) => ReturnStep(es, c, m, e);
    }
  }
}
