/**
 The unit as the source writes it: one object per bootstrap whose handlers update phase, timer and
 call id in place, and the module's two variables. Every method is proved to do exactly one `Step`.
 A method that would call `pi.sendUserMessage` returns the attempted message: the call begins there,
 and `SendReturns` is its return.
 */
module OmpBootstrapUnit {
  import opened Options
  import opened OmpPayload
  import opened OmpBootstrap

  class Bootstrap {
    const payload: Payload
    const deadline: int
    var phase: Phase
    var timer: Option<nat>
    var callId: Option<string>

    function View(): Handle
      reads this
    {
      Handle(payload, deadline, phase, timer, callId)
    }

    constructor (payload: Payload, now: int)
      ensures View() == NewHandle(payload, now)
    {
      this.payload := payload;
      deadline := now + READY_TIMEOUT_MS;
      phase, timer, callId := Waiting, None, None;
    }

    /** Clearing may throw; the handle forgets its timer either way. */
    method StopTimer()
      modifies this
      ensures View() == old(View()).(timer := None)
    {
      timer := None;
    }

    method Fail()
      modifies this
      ensures View() == Ended(old(View()))
    {
      StopTimer();
      if Final(phase) { return; }
      phase := Failed;
    }

    method Invalidate()
      modifies this
      ensures View() == Ended(old(View()))
    {
      StopTimer();
      if Final(phase) { return; }
      phase := Failed;
    }

    method Send(content: Message, available: bool) returns (attempt: Option<Message>)
      modifies this
      ensures (View(), attempt) == Sending(old(View()), content, available)
    {
      attempt := None;
      if !available {
        Fail();
        return;
      }
      attempt := Some(content);
    }

    method Schedule(handle: Option<nat>)
      modifies this
      ensures View() == if handle.Some? then old(View()).(timer := handle) else Ended(old(View()))
    {
      if handle.Some? {
        timer := handle;
      } else {
        Fail();
      }
    }

    method Tick(env: PollEnv) returns (attempt: Option<Message>)
      modifies this
      ensures (View(), attempt) == PollHandle(old(View()), env)
    {
      attempt := None;
      timer := None;
      if phase != Waiting { return; }
      if ToolReady(env.tools) {
        phase := CallbackSent;
        StopTimer();
        attempt := Send(CallbackPrompt(payload.target, payload.nonce), env.sendAvailable);
        return;
      }
      if env.now >= deadline {
        Fail();
        return;
      }
      Schedule(env.set_);
    }

    method OnToolCall(ev: ToolEvent)
      modifies this
      ensures View() == CallOnHandle(old(View()), ev)
    {
      if phase != CallbackSent || callId.Some? { return; }
      if !MatchesCallback(ev, payload) { return; }
      if ev.callId.None? || ev.callId.value == "" { return; }
      callId := ev.callId;
    }

    method OnToolResult(ev: ToolEvent)
      modifies this
      ensures View() == ResultOnHandle(old(View()), ev)
    {
      if phase != CallbackSent || callId.None? { return; }
      if ev.callId != callId { return; }
      if !MatchesCallback(ev, payload) { return; }
      if ev.isError != Some(false) { return; }
      phase := Released;
      StopTimer();
    }

    method OnTurnEnd(sendAvailable: bool) returns (attempt: Option<Message>)
      modifies this
      ensures (View(), attempt) == TurnEndOnHandle(old(View()), sendAvailable)
    {
      attempt := None;
      if phase != Released { return; }
      phase := TaskSent;
      attempt := Send(TaskMessage(payload.task), sendAvailable);
    }
  }

  /** The two module variables, with the environment's ghosts: all handles, the open sends, the attempts. */
  class BirthUnit {
    var active: Bootstrap?
    var activeSession: string
    var consumed: bool
    ghost var activeIndex: nat
    ghost var handles: seq<Bootstrap>
    ghost var sending: seq<nat>
    ghost var sent: seq<Message>

    ghost predicate Valid()
      reads this
    {
      && (forall i, j :: 0 <= i < j < |handles| ==> handles[i] != handles[j])
      && (active != null ==> activeIndex < |handles| && handles[activeIndex] == active)
    }

    ghost function View(): Machine
      reads this, handles
    {
      Machine(seq(|handles|, i requires 0 <= i < |handles| reads this, handles => handles[i].View()),
              if active != null then Some(Active(activeSession, activeIndex)) else None,
              consumed, sending, sent)
    }

    constructor ()
      ensures Valid() && View() == INITIAL
    {
      active, activeSession, consumed := null, "", false;
      activeIndex, handles, sending, sent := 0, [], [], [];
    }

    /** What the vendor sees of an attempted send: it is recorded and stays open until it returns. */
    ghost method Attempt(attempt: Option<Message>, i: nat)
      requires Valid()
      modifies this`sent, this`sending
      ensures Valid()
      ensures sent == old(sent) + (if attempt.Some? then [attempt.value] else [])
      ensures sending == old(sending) + (if attempt.Some? then [i] else [])
    {
      if attempt.Some? {
        sent, sending := sent + [attempt.value], sending + [i];
      }
    }

    method TimerFires(b: Bootstrap, ghost i: nat, timer: nat, env: PollEnv) returns (attempt: Option<Message>)
      requires Valid() && i < |handles| && handles[i] == b
      modifies this`sent, this`sending, b
      ensures Valid() && View() == Step(old(View()), Event.TimerFires(i, timer, env))
    {
      attempt := b.Tick(env);
      Attempt(attempt, i);
    }

    method EndEpoch()
      requires Valid()
      modifies this`active, active
      ensures Valid() && View() == OmpBootstrap.EndEpoch(old(View()))
    {
      if !consumed || active == null { return; }
      active.Invalidate();
      active := null;
    }

    /** Invalidate whatever is live, put a new bootstrap in its place and spend the latch. */
    method TakeLane(session: string, payload: Payload, createdAt: int) returns (handle: Bootstrap)
      requires Valid()
      modifies this, active
      ensures Valid() && handle == active && activeIndex < |handles| && fresh(handle)
      ensures sent == old(sent) && sending == old(sending)
      ensures View() == Armed(old(View()), session, payload, createdAt)
    {
      if active != null { active.Invalidate(); }
      handle := new Bootstrap(payload, createdAt);
      active, activeSession, consumed := handle, session, true;
      activeIndex, handles := |handles|, handles + [handle];
    }

    method Arm(session: string, payload: Payload, createdAt: int, env: PollEnv) returns (attempt: Option<Message>)
      requires Valid()
      modifies this, active
      ensures Valid() && View() == OmpBootstrap.Arm(old(View()), session, payload, createdAt, env)
    {
      hide PollHandle;
      var handle := TakeLane(session, payload, createdAt);
      attempt := TimerFires(handle, activeIndex, 0, env);
    }

    /** `startOmpBootstrap` */
    method Start(ghost e: Event, session: string, flag: FlagRead, timersAvailable: bool, createdAt: int, env: PollEnv)
        returns (attempt: Option<Message>)
      requires Valid() && e.Birth? && flag == e.flag && timersAvailable == e.timersAvailable
      requires createdAt == e.createdAt && env == e.env
      modifies this, active
      ensures Valid() && View() == OmpBootstrap.Start(old(View()), session, e)
    {
      hide DecodeMembers, OmpBootstrap.Arm;
      attempt := None;
      if consumed {
        EndEpoch();
        return;
      }
      if flag.FlagThrows? { return; }
      var decoded := Decode(flag.value);
      if decoded.Rejected? { return; }
      if !timersAvailable {
        consumed := true;
        return;
      }
      attempt := Arm(session, decoded.payload, createdAt, env);
    }

    /** `onBirthEdge`: the epoch ends before anything that can bail out. */
    method OnBirthEdge(ghost e: Event, ctx: BirthCtx, upsertOk: bool, flag: FlagRead, timersAvailable: bool,
        createdAt: int, env: PollEnv) returns (attempt: Option<Message>)
      requires Valid() && e == Birth(ctx, upsertOk, flag, timersAvailable, createdAt, env)
      modifies this, active
      ensures Valid() && View() == Step(old(View()), e)
    {
      attempt := None;
      if ctx.mode != HOST_MODE { return; }
      EndEpoch();
      var envelope := ReadEnvelope(ctx);
      if envelope.None? { return; }
      if !upsertOk { return; }
      attempt := Start(e, envelope.value.nativeSessionId, flag, timersAvailable, createdAt, env);
    }

    method For(ctx: Ctx) returns (b: Bootstrap?)
      requires Valid()
      ensures b == if ctx.mode == "tui" && ctx.sessionId == Some(activeSession) then active else null
    {
      b := null;
      if active != null && CtxAccepts(ctx, activeSession) { b := active; }
    }

    method OnToolCall(ctx: Ctx, tool: ToolEvent)
      requires Valid()
      modifies active
      ensures Valid() && View() == Step(old(View()), ToolCall(ctx, tool))
    {
      var b := For(ctx);
      if b != null { b.OnToolCall(tool); }
    }

    method OnToolResult(ctx: Ctx, tool: ToolEvent)
      requires Valid()
      modifies active
      ensures Valid() && View() == Step(old(View()), ToolResult(ctx, tool))
    {
      var b := For(ctx);
      if b != null { b.OnToolResult(tool); }
    }

    method OnTurnEnd(ctx: Ctx, sendAvailable: bool) returns (attempt: Option<Message>)
      requires Valid()
      modifies this`sent, this`sending, active
      ensures Valid() && View() == Step(old(View()), TurnEnd(ctx, sendAvailable))
    {
      attempt := None;
      var b := For(ctx);
      if b != null {
        attempt := b.OnTurnEnd(sendAvailable);
        Attempt(attempt, activeIndex);
      }
    }

    /** The innermost open send, made by `b`, returns; the `catch` in `send` fails the bootstrap. */
    method SendReturns(b: Bootstrap, threw: bool)
      requires Valid() && sending != [] && sending[|sending| - 1] < |handles|
      requires handles[sending[|sending| - 1]] == b
      modifies this`sending, b
      ensures Valid() && View() == Step(old(View()), Event.SendReturns(threw))
    {
      sending := sending[..|sending| - 1];
      if threw { b.Fail(); }
    }
  }
}
