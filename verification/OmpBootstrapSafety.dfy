/** The guarantees of the fresh bootstrap, for every run of vendor events. */
module OmpBootstrapSafety {
  import opened Options
  import opened OmpPayload
  import opened OmpBootstrap
  import opened OmpBootstrapRuns

  // ---------------------------------------------------------------- at most once

  /** The one bootstrap's prompt, or its prompt and then its task. */
  predicate SentFor(m: Machine) {
    && |m.handles| == 1
    && var p := m.handles[0].payload;
       m.sent == [PromptFor(p)] || m.sent == [PromptFor(p), TaskFor(p)]
  }

  /**
   In every run at most one bootstrap is ever created, the callback prompt and the task are each
   attempted at most once and in that order, and both carry the payload of the launch.
   */
  lemma AtMostOnce(es: seq<Event>)
    ensures var m := Run(es);
      && |m.handles| <= 1
      && (m.sent == [] || SentFor(m))
  {
    hide Run, Delivers, FirstArm, PromptedAt, CalledAt, SucceededAt, PollsOn, PromptHeld;
    var c := RunReached(es);
  }

  /** The launch is spent exactly by the first birth edge that decodes a payload, armed or not. */
  lemma ConsumedExactly(es: seq<Event>)
    ensures Run(es).consumed <==> exists i :: 0 <= i < |es| && Spends(es[i])
  {
    var c := RunReached(es);
    assert Unspent(es) <==> !exists i :: 0 <= i < |es| && Spends(es[i]);
    if Run(es).handles != [] {
      assert Spends(es[c.armed]);
    }
  }

  /** A timer is held only while the bootstrap waits, and a bootstrap that lost its lane is final. */
  lemma HeldTimerWaits(es: seq<Event>)
    ensures forall h <- Run(es).handles :: h.timer.Some? <==> h.phase == Waiting
    ensures Run(es).active.None? ==> forall h <- Run(es).handles :: Final(h.phase)
  {
    hide Run, Delivers, FirstArm, PromptedAt, CalledAt, SucceededAt, PollsOn, PromptHeld;
    var c := RunReached(es);
  }

  // ---------------------------------------------------------------- delivery, both ways

  predicate TaskAttempted(m: Machine) { exists i :: 0 <= i < |m.sent| && m.sent[i].TaskMessage? }

  /** Where a run that satisfies the chain is after its first k events. */
  ghost predicate StateAt(es: seq<Event>, c: Chain, k: nat, m: Machine)
    requires Delivers(es, c) && k <= c.turn
  {
    if k <= c.armed then m == INITIAL
    else
      var e := es[c.armed];
      && |m.handles| == 1 && m.consumed && m.active == Some(Active(SessionOf(e), 0))
      && var h := m.handles[0];
      && h.payload == PayloadOf(e) && h.deadline == DeadlineOf(e)
      && if k <= c.callback then h.phase == Waiting && h.callId.None? && m.sent == [] && m.sending == []
         else
           && m.sent == [PromptFor(h.payload)]
           && m.sending == (if HasReturn(es, c.callback, k) then [] else [0])
           && h.callId == (if k <= c.call then None else es[c.call].tool.callId)
           && h.phase == (if k <= c.result then CallbackSent else Released)
  }

  lemma ArmingStep(es: seq<Event>, c: Chain, k: nat)
    requires Delivers(es, c) && k <= c.armed
    ensures StateAt(es, c, k + 1, Step(INITIAL, es[k]))
  {
    hide ReadEnvelope, ToolReady, DecodeMembers;
    if k == c.armed {
      assert Observes(es, k, k);
    }
  }

  lemma WaitingStep(es: seq<Event>, c: Chain, k: nat, m: Machine)
    requires Delivers(es, c) && c.armed < k <= c.callback && StateAt(es, c, k, m)
    ensures StateAt(es, c, k + 1, Step(m, es[k]))
  {
    hide Decode, ReadEnvelope, ToolReady, MatchesCallback;
    assert !TuiEdge(es[k]);
    if es[k].TimerFires? && es[k].index == 0 {
      assert Observes(es, c.armed, k);
      if k < c.callback { assert KeepsPolling(es[k].env, DeadlineOf(es[c.armed])); }
    }
  }

  lemma LaterStep(es: seq<Event>, c: Chain, k: nat, m: Machine)
    requires Delivers(es, c) && c.callback < k < c.turn && StateAt(es, c, k, m)
    requires !es[k].SendReturns?
    ensures StateAt(es, c, k + 1, Step(m, es[k]))
  {
    hide Decode, ReadEnvelope, ToolReady, MatchesCallback;
    assert !TuiEdge(es[k]);
    assert HasReturn(es, c.callback, k + 1) == HasReturn(es, c.callback, k);
    assert k < c.call ==> !MatchingCall(es[k], SessionOf(es[c.armed]), PayloadOf(es[c.armed]));
    assert c.call < k < c.result ==>
      !SucceedingResult(es[k], SessionOf(es[c.armed]), PayloadOf(es[c.armed]), es[c.call].tool.callId);
    assert c.result < k ==> !EndsTurn(es[k], SessionOf(es[c.armed]));
  }

  lemma ReturningStep(es: seq<Event>, c: Chain, k: nat, m: Machine)
    requires Delivers(es, c) && c.callback < k < c.turn && StateAt(es, c, k, m)
    requires es[k].SendReturns?
    ensures StateAt(es, c, k + 1, Step(m, es[k]))
  {
    hide Decode, ReadEnvelope, ToolReady, MatchesCallback;
    assert HasReturn(es, c.callback, k + 1);
    if m.sending != [] {
      assert !es[k].threw;
      assert m.sending[..0] == [];
    }
  }

  lemma RunNothing(es: seq<Event>)
    requires es == []
    ensures Run(es) == INITIAL
  {
  }

  lemma {:induction false} Progress(es: seq<Event>, c: Chain, k: nat)
    requires Delivers(es, c) && k <= c.turn
    ensures StateAt(es, c, k, Run(es[..k]))
  {
    hide Run, Step, FirstArm, PromptedAt, CalledAt, SucceededAt, NoTurnEnd, NoEdgeBetween, PromptHeld, EndsTurn;
    if k == 0 {
      RunNothing(es[..0]);
    } else {
      var m := Run(es[..k - 1]);
      Progress(es, c, k - 1);
      assert es[..k][..k - 1] == es[..k - 1];
      RunSnoc(es[..k]);
      if k - 1 <= c.armed {
        ArmingStep(es, c, k - 1);
      } else if k - 1 <= c.callback {
        WaitingStep(es, c, k - 1, m);
      } else if es[k - 1].SendReturns? {
        ReturningStep(es, c, k - 1, m);
      } else {
        LaterStep(es, c, k - 1, m);
      }
    }
  }

  lemma {:induction false} SentGrows(m: Machine, es: seq<Event>)
    ensures m.sent <= RunFrom(m, es).sent
    decreases |es|
  {
    if es != [] {
      SentGrows(Step(m, es[0]), es[1..]);
    }
  }

  /**
   The task is sent exactly when the events contain the whole chain: the first edge that spends the
   launch arms it, the first poll that stops polling finds the tool and can send, then come the first
   matching call, the first successful result with that call's id and the first turn end, all fenced
   to the bound tui session, with no birth edge on the way and a prompt send that did not throw.
   */
  lemma TaskSentExactly(es: seq<Event>)
    ensures TaskAttempted(Run(es)) <==> exists c: Chain :: Delivers(es, c)
  {
    hide Run, Delivers;
    if TaskAttempted(Run(es)) {
      var c := RunReached(es);
      assert Delivers(es, c);
    }
    if c: Chain :| Delivers(es, c) {
      ChainDelivers(es, c);
    }
  }

  lemma ChainDelivers(es: seq<Event>, c: Chain)
    requires Delivers(es, c)
    ensures TaskAttempted(Run(es))
  {
    hide Run, Step, StateAt, FirstArm, PromptedAt, CalledAt, SucceededAt;
    hide NoTurnEnd, NoEdgeBetween, PromptHeld, EndsTurn;
    var through := es[..c.turn + 1];
    Progress(es, c, c.turn);
    assert through[..c.turn] == es[..c.turn];
    RunSnoc(through);
    TurnStepSends(es, c, Run(es[..c.turn]));
    SentStays(es, c.turn + 1);
    var i :| 0 <= i < |Run(through).sent| && Run(through).sent[i].TaskMessage?;
    assert Run(es).sent[i].TaskMessage?;
  }

  lemma TurnStepSends(es: seq<Event>, c: Chain, m: Machine)
    requires Delivers(es, c) && StateAt(es, c, c.turn, m)
    ensures TaskAttempted(Step(m, es[c.turn]))
  {
    hide Decode, ReadEnvelope, ToolReady, MatchesCallback;
    var m' := Step(m, es[c.turn]);
    assert m'.sent == m.sent + [TaskFor(m.handles[0].payload)];
    assert m'.sent[1].TaskMessage?;
  }

  lemma SentStays(es: seq<Event>, k: nat)
    requires k <= |es|
    ensures Run(es[..k]).sent <= Run(es).sent
  {
    assert es == es[..k] + es[k..];
    RunAppend(INITIAL, es[..k], es[k..]);
    SentGrows(Run(es[..k]), es[k..]);
  }

  // ---------------------------------------------------------------- a later birth edge ends all sending

  predicate Dead(m: Machine) {
    m.consumed && m.active.None? && forall h <- m.handles :: Final(h.phase)
  }

  lemma DeadStep(m: Machine, e: Event)
    requires Dead(m)
    ensures Dead(Step(m, e)) && Step(m, e).sent == m.sent
  {
    hide Decode, ReadEnvelope, ToolReady, MatchesCallback;
    var m' := Step(m, e);
    forall i | 0 <= i < |m'.handles|
      ensures Final(m'.handles[i].phase)
    {
      assert |m'.handles| == |m.handles| && m.handles[i] in m.handles;
    }
  }

  lemma {:induction false} DeadForever(m: Machine, es: seq<Event>)
    requires Dead(m)
    ensures RunFrom(m, es).sent == m.sent
    decreases |es|
  {
    if es != [] {
      DeadStep(m, es[0]);
      DeadForever(Step(m, es[0]), es[1..]);
    }
  }

  /**
   Once some edge has spent the launch, any later tui birth edge - same session or not, refused
   envelope, failing upsert - is the end of all sending, whatever is in flight.
   */
  lemma LaterEdgeEndsSending(es: seq<Event>, i: nat, j: nat)
    requires i < j < |es| && Spends(es[i]) && TuiEdge(es[j])
    ensures Run(es).sent == Run(es[..j]).sent
  {
    hide Run, Step, Spends, TuiEdge, Reached, Dead;
    var before, through := es[..j], es[..j + 1];
    assert Spends(before[i]);
    ConsumedExactly(before);
    var c := RunReached(before);
    assert through[..j] == before;
    RunSnoc(through);
    EdgeKills(before, c, es[j]);
    DeadTail(es, j + 1);
  }

  lemma DeadTail(es: seq<Event>, k: nat)
    requires k <= |es| && Dead(Run(es[..k]))
    ensures Run(es).sent == Run(es[..k]).sent
  {
    assert es == es[..k] + es[k..];
    RunAppend(INITIAL, es[..k], es[k..]);
    DeadForever(Run(es[..k]), es[k..]);
  }

  lemma EdgeKills(before: seq<Event>, c: Chain, e: Event)
    requires Reached(before, c, Run(before)) && Run(before).consumed && TuiEdge(e)
    ensures Dead(Step(Run(before), e)) && Step(Run(before), e).sent == Run(before).sent
  {
    hide Decode, ReadEnvelope, ToolReady, MatchesCallback;
  }

  // ---------------------------------------------------------------- non-interference

  /** An event the fences keep out of the bootstrap of `session`. */
  predicate Foreign(e: Event, session: string) {
    match e
    case Birth(ctx, _, _, _, _, _) => ctx.mode != "tui"
    case ToolCall(ctx, _) => ctx.mode != "tui" || ctx.sessionId != Some(session)
    case ToolResult(ctx, _) => ctx.mode != "tui" || ctx.sessionId != Some(session)
    case TurnEnd(ctx, _) => ctx.mode != "tui" || ctx.sessionId != Some(session)
    case _ => false
  }

  function Erase(es: seq<Event>, session: string): seq<Event>
    decreases |es|
  {
    if es == [] then []
    else (if Foreign(es[0], session) then [] else [es[0]]) + Erase(es[1..], session)
  }

  /** The session the launch binds to: that of the first edge that spends it, if it arms. */
  function LaunchSession(es: seq<Event>): Option<string>
    decreases |es|
  {
    if es == [] then None
    else if Spends(es[0]) then (if Arms(es[0]) then Some(SessionOf(es[0])) else None)
    else LaunchSession(es[1..])
  }

  ghost predicate BoundTo(m: Machine, es: seq<Event>, session: string) {
    && (m.active.Some? ==> m.consumed && m.active.value.session == session)
    && (!m.consumed ==> LaunchSession(es) == None || LaunchSession(es) == Some(session))
  }

  lemma BoundStep(m: Machine, es: seq<Event>, session: string)
    requires es != [] && BoundTo(m, es, session)
    ensures BoundTo(Step(m, es[0]), es[1..], session)
    ensures Foreign(es[0], session) ==> Step(m, es[0]) == m
  {
    hide ReadEnvelope, ToolReady, MatchesCallback, DecodeMembers;
  }

  lemma {:induction false} EraseFrom(m: Machine, es: seq<Event>, session: string)
    requires BoundTo(m, es, session)
    ensures RunFrom(m, Erase(es, session)) == RunFrom(m, es)
    decreases |es|
  {
    if es != [] {
      BoundStep(m, es, session);
      EraseFrom(Step(m, es[0]), es[1..], session);
      if !Foreign(es[0], session) {
        assert Erase(es, session)[1..] == Erase(es[1..], session);
      } else {
        assert Erase(es, session) == Erase(es[1..], session);
      }
    }
  }

  /**
   Erasing from any run every non-tui birth edge and every tool or turn event whose own context is
   not the launch's tui session changes nothing: the same sends in the same order, the same final state.
   */
  lemma ForeignEventsAreInvisible(es: seq<Event>, session: string)
    requires LaunchSession(es) == None || LaunchSession(es) == Some(session)
    ensures Run(Erase(es, session)) == Run(es)
  {
    EraseFrom(INITIAL, es, session);
  }
}
