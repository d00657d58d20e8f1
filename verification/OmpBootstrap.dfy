/**
 The two-stage fresh bootstrap as a machine over vendor events.

 One event is one handler run up to the point where it either returns or calls
 `pi.sendUserMessage`; the return of that call is an event of its own, so any handler may run
 inside a send. `sending` is the stack of handles whose send has not returned yet. Everything a
 vendor call answers, a throw included, is part of the event.
 */
module OmpBootstrap {
  import opened JsonValues
  import opened Options
  import opened OmpPayload

  const HOST_MODE := "tui"
  const CALLBACK_TOOL := "mcp__entwurf_bridge_entwurf_v"
  const MCP_SOURCE := "mcp"
  const READY_TIMEOUT_MS := 60000
  const POLL_MS := 100

  // ---------------------------------------------------------------- vendor surface

  /** A handler's context; `sessionId` is None when `getSessionId` is missing, throws or returns no string. */
  datatype Ctx = Ctx(mode: string, sessionId: Option<string>)

  /** A session manager as birth reads it. A field that is no string is None. */
  datatype Manager =
    | NoManager
    | ManagerThrows
    | ManagerReads(id: Option<string>, managerCwd: Option<string>, file: Option<string>)

  datatype BirthCtx = BirthCtx(mode: string, cwd: Option<string>, manager: Manager)

  datatype Envelope = Envelope(nativeSessionId: string, cwd: string, transcriptPath: Option<string>)

  datatype ToolInfo = ToolInfo(name: string, source: Option<string>)

  /** Both public tool snapshots, or the fact that they could not be read. */
  datatype ToolSnapshot = NotYet | Snapshot(all: seq<ToolInfo>, active: seq<string>)

  /** What one run of `tick` observes: tools, clock, what `timers.set` returned (None: it threw), send surface. */
  datatype PollEnv = PollEnv(tools: ToolSnapshot, now: int, set_: Option<nat>, sendAvailable: bool)

  /** A tool event; `isError` is meaningful on results only, and None is any value but a boolean. */
  datatype ToolEvent = ToolEvent(callId: Option<string>, toolName: string, input: Json, isError: Option<bool>)

  datatype FlagRead = FlagThrows | FlagRead(value: FlagValue)

  // ---------------------------------------------------------------- one bootstrap

  datatype Phase = Waiting | CallbackSent | Released | TaskSent | Failed

  datatype Handle = Handle(payload: Payload, deadline: int, phase: Phase, timer: Option<nat>, callId: Option<string>)

  datatype Message = CallbackPrompt(target: string, nonce: string) | TaskMessage(task: string)

  function NonEmpty(text: Option<string>): Option<string> {
    if text == Some("") then None else text
  }

  /** `readBirthEnvelope`: None is a refusal. */
  function ReadEnvelope(ctx: BirthCtx): Option<Envelope> {
    match ctx.manager
    case NoManager => None
    case ManagerThrows => None
    case ManagerReads(id, managerCwd, file) =>
      var ours, theirs := NonEmpty(ctx.cwd), NonEmpty(managerCwd);
      if NonEmpty(id).None? then None
      else if ours.Some? && theirs.Some? && ours != theirs then None
      else if ours.None? && theirs.None? then None
      else Some(Envelope(id.value, if ours.Some? then ours.value else theirs.value, NonEmpty(file)))
  }

  predicate ToolReady(tools: ToolSnapshot) {
    && tools.Snapshot?
    && (exists t <- tools.all :: t.name == CALLBACK_TOOL && t.source == Some(MCP_SOURCE))
    && CALLBACK_TOOL in tools.active
  }

  predicate MatchesCallback(ev: ToolEvent, p: Payload) {
    && ev.toolName == CALLBACK_TOOL
    && ev.input.Obj?
    && Member(ev.input.members, "target") == Some(Str(p.target))
    && Member(ev.input.members, "message") == Some(Str(p.nonce))
  }

  predicate Final(phase: Phase) { phase == TaskSent || phase == Failed }

  /** `fail` and `invalidate` move a bootstrap alike: the timer goes, and a non-final phase becomes failed. */
  function Ended(h: Handle): Handle {
    h.(timer := None, phase := if Final(h.phase) then h.phase else Failed)
  }

  function NewHandle(p: Payload, createdAt: int): Handle {
    Handle(p, createdAt + READY_TIMEOUT_MS, Waiting, None, None)
  }

  /** `send`: an unavailable surface fails the bootstrap, otherwise the vendor call is attempted. */
  function Sending(h: Handle, content: Message, available: bool): (Handle, Option<Message>) {
    if available then (h, Some(content)) else (Ended(h), None)
  }

  function PollHandle(h: Handle, env: PollEnv): (Handle, Option<Message>) {
    if h.phase != Waiting then (h.(timer := None), None)
    else if ToolReady(env.tools) then
      var prompt := CallbackPrompt(h.payload.target, h.payload.nonce);
      Sending(h.(timer := None, phase := CallbackSent), prompt, env.sendAvailable)
    else if env.now >= h.deadline || env.set_.None? then (Ended(h), None)
    else (h.(timer := env.set_), None)
  }

  function CallOnHandle(h: Handle, ev: ToolEvent): Handle {
    if h.phase == CallbackSent && h.callId.None? && MatchesCallback(ev, h.payload) && NonEmpty(ev.callId).Some?
    then h.(callId := ev.callId) else h
  }

  function ResultOnHandle(h: Handle, ev: ToolEvent): Handle {
    if h.phase == CallbackSent && h.callId.Some? && ev.callId == h.callId
       && MatchesCallback(ev, h.payload) && ev.isError == Some(false)
    then h.(phase := Released, timer := None) else h
  }

  function TurnEndOnHandle(h: Handle, sendAvailable: bool): (Handle, Option<Message>) {
    if h.phase != Released then (h, None)
    else Sending(h.(phase := TaskSent), TaskMessage(h.payload.task), sendAvailable)
  }

  // ---------------------------------------------------------------- the module state

  datatype Active = Active(session: string, index: nat)

  datatype Machine = Machine(
    handles: seq<Handle>,    // every bootstrap ever created, in order
    active: Option<Active>,  // activeBootstrap
    consumed: bool,          // bootstrapConsumed
    sending: seq<nat>,       // handles with a send in flight, innermost last
    sent: seq<Message>)      // every attempted send, in order

  const INITIAL := Machine([], None, false, [], [])

  datatype Event =
    | Birth(birthCtx: BirthCtx, upsertOk: bool, flag: FlagRead, timersAvailable: bool, createdAt: int, env: PollEnv)
    | TimerFires(index: nat, timer: nat, env: PollEnv)
    | ToolCall(ctx: Ctx, tool: ToolEvent)
    | ToolResult(ctx: Ctx, tool: ToolEvent)
    | TurnEnd(ctx: Ctx, sendAvailable: bool)
    | SendReturns(threw: bool)

  /** `ompBootstrapCtxAccepts` */
  predicate CtxAccepts(ctx: Ctx, session: string) {
    ctx.mode == HOST_MODE && ctx.sessionId == Some(session)
  }

  /** `bootstrapFor` */
  function BootstrapFor(m: Machine, ctx: Ctx): Option<nat> {
    if m.active.Some? && CtxAccepts(ctx, m.active.value.session) then Some(m.active.value.index) else None
  }

  function Put(m: Machine, i: nat, h: Handle): Machine {
    if i < |m.handles| then m.(handles := m.handles[i := h]) else m
  }

  /** Store a handle after a step that may have attempted a send. */
  function PutSending(m: Machine, i: nat, step: (Handle, Option<Message>)): Machine {
    var m' := Put(m, i, step.0);
    if step.1.None? then m' else m'.(sent := m.sent + [step.1.value], sending := m.sending + [i])
  }

  function EndHandle(m: Machine, i: nat): Machine {
    if i < |m.handles| then Put(m, i, Ended(m.handles[i])) else m
  }

  function Poll(m: Machine, i: nat, env: PollEnv): Machine {
    if i < |m.handles| then PutSending(m, i, PollHandle(m.handles[i], env)) else m
  }

  /** `endBootstrapEpochOnLaterEdge` */
  function EndEpoch(m: Machine): Machine {
    if !m.consumed || m.active.None? then m
    else EndHandle(m, m.active.value.index).(active := None)
  }

  /** Invalidate a live bootstrap, put a new one in its place and spend the latch. */
  function Armed(m: Machine, session: string, p: Payload, createdAt: int): Machine {
    var replaced := if m.active.Some? then EndHandle(m, m.active.value.index) else m;
    replaced.(handles := replaced.handles + [NewHandle(p, createdAt)],
              active := Some(Active(session, |replaced.handles|)), consumed := true)
  }

  /** The end of `startOmpBootstrap`: the latch is spent before the first poll, which may send. */
  function Arm(m: Machine, session: string, p: Payload, createdAt: int, env: PollEnv): Machine {
    Poll(Armed(m, session, p, createdAt), |m.handles|, env)
  }

  /** `startOmpBootstrap` */
  function Start(m: Machine, session: string, e: Event): Machine
    requires e.Birth?
  {
    if m.consumed then EndEpoch(m)
    else if e.flag.FlagThrows? then m
    else match Decode(e.flag.value)
      case Rejected(_) => m
      case Decoded(p) =>
        if !e.timersAvailable then m.(consumed := true)
        else Arm(m, session, p, e.createdAt, e.env)
  }

  /** `onBirthEdge` */
  function OnBirth(m: Machine, e: Event): Machine
    requires e.Birth?
  {
    if e.birthCtx.mode != HOST_MODE then m
    else
      var ended := EndEpoch(m);
      var envelope := ReadEnvelope(e.birthCtx);
      if envelope.None? || !e.upsertOk then ended
      else Start(ended, envelope.value.nativeSessionId, e)
  }

  function OnSendReturns(m: Machine, threw: bool): Machine {
    if m.sending == [] then m
    else
      var top := |m.sending| - 1;
      var popped := m.(sending := m.sending[..top]);
      if threw then EndHandle(popped, m.sending[top]) else popped
  }

  function Step(m: Machine, e: Event): Machine {
    match e
    case Birth(_, _, _, _, _, _) => OnBirth(m, e)
    case TimerFires(i, _, env) => Poll(m, i, env)
    case ToolCall(ctx, tool) =>
      var i := BootstrapFor(m, ctx);
      if i.Some? && i.value < |m.handles| then Put(m, i.value, CallOnHandle(m.handles[i.value], tool)) else m
    case ToolResult(ctx, tool) =>
      var i := BootstrapFor(m, ctx);
      if i.Some? && i.value < |m.handles| then Put(m, i.value, ResultOnHandle(m.handles[i.value], tool)) else m
    case TurnEnd(ctx, available) =>
      var i := BootstrapFor(m, ctx);
      if i.Some? && i.value < |m.handles|
      then PutSending(m, i.value, TurnEndOnHandle(m.handles[i.value], available)) else m
    case SendReturns(threw) => OnSendReturns(m, threw)
  }

  function RunFrom(m: Machine, es: seq<Event>): Machine
    decreases |es|
  {
    if es == [] then m else RunFrom(Step(m, es[0]), es[1..])
  }

  /** The state after an arbitrary sequence of vendor events since the process started. */
  function Run(es: seq<Event>): Machine { RunFrom(INITIAL, es) }

  lemma {:induction false} RunAppend(m: Machine, a: seq<Event>, b: seq<Event>)
    ensures RunFrom(m, a + b) == RunFrom(RunFrom(m, a), b)
    decreases |a|
  {
    if a == [] {
      assert a + b == b;
    } else {
      assert (a + b)[1..] == a[1..] + b;
      RunAppend(Step(m, a[0]), a[1..], b);
    }
  }

  lemma RunSnoc(es: seq<Event>)
    requires es != []
    ensures Run(es) == Step(Run(es[..|es| - 1]), es[|es| - 1])
  {
    var k := |es| - 1;
    assert es == es[..k] + [es[k]];
    RunAppend(INITIAL, es[..k], [es[k]]);
  }
}
