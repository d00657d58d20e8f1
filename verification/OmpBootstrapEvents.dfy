/**
 What one event does to the fresh bootstrap, told in the fields of the event: which context it must come
 from, which tool call is the callback, when the tool is live, and what a birth edge can be read from.
 */
module OmpBootstrapEvents {
  import opened JsonValues
  import opened Options
  import opened ScriptText
  import opened OmpPayload
  import opened OmpBootstrap

  // ---------------------------------------------------------------- reading the vendor

  /** The directories the two sources name. */
  function Directories(ctx: BirthCtx): set<Option<string>>
    requires ctx.manager.ManagerReads?
  {
    {ctx.cwd, ctx.manager.managerCwd} - {None, Some("")}
  }

  /**
   A birth edge has an envelope exactly when the manager can be read, names a session, and the two
   sources name one directory between them; that session and that directory are what it carries.
   */
  lemma EnvelopeExactly(ctx: BirthCtx, session: string, cwd: string)
    ensures var read := ReadEnvelope(ctx);
      (read.Some? && read.value.nativeSessionId == session && read.value.cwd == cwd)
      <==> (ctx.manager.ManagerReads? && ctx.manager.id == Some(session) && session != ""
            && Directories(ctx) == {Some(cwd)})
    ensures var read := ReadEnvelope(ctx);
      read.Some? ==> read.value.transcriptPath == if ctx.manager.file == Some("") then None else ctx.manager.file
  {
    if ctx.manager.ManagerReads? {
      assert ctx.cwd in Directories(ctx) <==> ctx.cwd != None && ctx.cwd != Some("");
      assert ctx.manager.managerCwd in Directories(ctx)
        <==> ctx.manager.managerCwd != None && ctx.manager.managerCwd != Some("");
    }
  }

  /** The callback tool is live exactly when it is enabled and the registry has it from an mcp server. */
  lemma ReadyExactly(all: seq<ToolInfo>, active: seq<string>)
    ensures !ToolReady(NotYet)
    ensures ToolReady(Snapshot(all, active))
      <==> ("mcp__entwurf_bridge_entwurf_v" in active
            && ToolInfo("mcp__entwurf_bridge_entwurf_v", Some("mcp")) in all)
  {
    if ToolReady(Snapshot(all, active)) {
      var t :| t in all && t.name == CALLBACK_TOOL && t.source == Some(MCP_SOURCE);
      assert t == ToolInfo(CALLBACK_TOOL, Some(MCP_SOURCE));
    }
  }

  /** A tool event is the callback exactly when saying target and nonce once more in its arguments changes nothing. */
  lemma MatchesExactly(tool: ToolEvent, p: Payload)
    ensures MatchesCallback(tool, p)
      <==> (tool.toolName == "mcp__entwurf_bridge_entwurf_v" && tool.input.Obj?
            && tool.input.members == tool.input.members["target" := Str(p.target)]["message" := Str(p.nonce)])
  {
    assert |"target"| != |"message"|;
    if tool.input.Obj? {
      var m := tool.input.members;
      var said := m["target" := Str(p.target)]["message" := Str(p.nonce)];
      assert said["target"] == Str(p.target) && said["message"] == Str(p.nonce);
      if "target" in m && m["target"] == Str(p.target) && "message" in m && m["message"] == Str(p.nonce) {
        assert said == m;
      }
    }
  }

  // ---------------------------------------------------------------- tool and turn events

  /** The handle at work in a machine whose bootstrap is bound to `session`. */
  predicate Bound(m: Machine, session: string, i: nat) {
    m.active == Some(Active(session, i)) && i < |m.handles|
  }

  /** A tool or turn event of any other mode or session, or without a session, leaves everything as it is. */
  lemma OthersAreIgnored(m: Machine, e: Event, session: string, i: nat)
    requires Bound(m, session, i) && (e.ToolCall? || e.ToolResult? || e.TurnEnd?)
    requires e.ctx.mode != "tui" || e.ctx.sessionId != Some(session)
    ensures Step(m, e) == m
  {
  }

  /** Without an active bootstrap every tool and turn event does. */
  lemma IdleIgnoresAll(m: Machine, e: Event)
    requires m.active.None? && (e.ToolCall? || e.ToolResult? || e.TurnEnd?)
    ensures Step(m, e) == m
  {
  }

  /** The bound session's matching call is remembered, the first one only, and nothing else changes. */
  lemma OwnCallIsRemembered(m: Machine, tool: ToolEvent, session: string, i: nat)
    requires Bound(m, session, i)
    ensures var h := m.handles[i];
      Step(m, ToolCall(Ctx("tui", Some(session)), tool))
      == if h.phase == CallbackSent && h.callId == None && MatchesCallback(tool, h.payload)
            && tool.callId != None && tool.callId != Some("")
         then m.(handles := m.handles[i := h.(callId := tool.callId)])
         else m
  {
    assert m.handles[i := m.handles[i]] == m.handles;
  }

  /** The bound session's successful result of the remembered call releases, and nothing else does. */
  lemma OwnResultReleases(m: Machine, tool: ToolEvent, session: string, i: nat)
    requires Bound(m, session, i)
    ensures var h := m.handles[i];
      Step(m, ToolResult(Ctx("tui", Some(session)), tool))
      == if h.phase == CallbackSent && h.callId != None && tool.callId == h.callId
            && MatchesCallback(tool, h.payload) && tool.isError == Some(false)
         then m.(handles := m.handles[i := h.(phase := Released, timer := None)])
         else m
  {
    assert m.handles[i := m.handles[i]] == m.handles;
  }

  /** The bound session's turn end sends the task of a released bootstrap, or fails it where nothing can be sent. */
  lemma OwnTurnEndSends(m: Machine, available: bool, session: string, i: nat)
    requires Bound(m, session, i)
    ensures var h := m.handles[i];
      var m' := Step(m, TurnEnd(Ctx("tui", Some(session)), available));
      if h.phase != Released then m' == m
      else if available
      then m' == m.(handles := m.handles[i := h.(phase := TaskSent)], sent := m.sent + [TaskMessage(h.payload.task)],
                    sending := m.sending + [i])
      else m' == m.(handles := m.handles[i := h.(phase := TaskSent, timer := None)])
  {
    assert m.handles[i := m.handles[i]] == m.handles;
  }

  // ---------------------------------------------------------------- the first edge and its polls

  /** What a readiness poll makes of a waiting bootstrap: it prompts, fails, or waits on. */
  lemma PollMeans(m: Machine, i: nat, timer: nat, env: PollEnv)
    requires i < |m.handles|
    ensures var h := m.handles[i];
      var m' := Step(m, TimerFires(i, timer, env));
      if h.phase != Waiting then m' == m.(handles := m.handles[i := h.(timer := None)])
      else if ToolReady(env.tools) && env.sendAvailable
      then m' == m.(handles := m.handles[i := h.(timer := None, phase := CallbackSent)],
                    sent := m.sent + [CallbackPrompt(h.payload.target, h.payload.nonce)], sending := m.sending + [i])
      else if !ToolReady(env.tools) && env.now < h.deadline && env.set_ != None
      then m' == m.(handles := m.handles[i := h.(timer := env.set_)])
      else m' == m.(handles := m.handles[i := h.(timer := None, phase := Failed)])
  {
    hide ToolReady;
  }

  /** The first tui edge that is born with a usable payload arms a bootstrap for its session, and polls at once. */
  lemma FirstEdgeArms(m: Machine, e: Event, p: Payload)
    requires e.Birth? && e.birthCtx.mode == "tui" && ReadEnvelope(e.birthCtx).Some? && e.upsertOk
    requires e.flag == FlagRead(Text(Some(Build(p)))) && Usable(p)
    requires !m.consumed && m.active.None?
    ensures var armed := m.(handles := m.handles + [Handle(p, e.createdAt + 60000, Waiting, None, None)],
                            active := Some(Active(ReadEnvelope(e.birthCtx).value.nativeSessionId, |m.handles|)),
                            consumed := true);
      Step(m, e) == if e.timersAvailable then Step(armed, TimerFires(|m.handles|, 0, e.env)) else m.(consumed := true)
  {
    hide ReadEnvelope, PollHandle, DecodeMembers, Build, Usable;
    DecodeAcceptsExactlyBuilt(Build(p), p);
  }

  /** Every other edge before that changes nothing: another mode, no envelope, no record, no usable payload. */
  lemma OtherEdgesWait(m: Machine, e: Event)
    requires e.Birth? && !m.consumed
    requires || e.birthCtx.mode != "tui" || ReadEnvelope(e.birthCtx).None? || !e.upsertOk || e.flag.FlagThrows?
             || !(exists p :: e.flag.value == Text(Some(Build(p))) && Usable(p))
    ensures Step(m, e) == m
  {
    hide ReadEnvelope, DecodeMembers, Build, Usable;
    if e.flag.FlagRead? && Decode(e.flag.value).Decoded? {
      var p := Decode(e.flag.value).payload;
      DecodeAcceptsExactlyBuilt(e.flag.value.parsed.value, p);
      assert e.flag.value == Text(Some(Build(p))) && Usable(p);
    }
  }

  /** On a spent launch a tui edge only ends what is active: it fails unless it is final, and nothing is active then. */
  lemma LaterEdgeEnds(m: Machine, e: Event)
    requires e.Birth? && e.birthCtx.mode == "tui" && m.consumed
    ensures m.active.None? ==> Step(m, e) == m
    ensures m.active.Some? && m.active.value.index < |m.handles| ==>
      var i := m.active.value.index;
      Step(m, e) == m.(active := None, handles := m.handles[i := Failing(m.handles[i])])
  {
    hide ReadEnvelope, Decode;
  }

  /** Without its timer, and failed unless its work item was sent or it had failed. */
  function Failing(h: Handle): Handle { h.(timer := None, phase := if h.phase == TaskSent then TaskSent else Failed) }

  /** An edge of any other mode changes nothing at any time. */
  lemma OtherModesWait(m: Machine, e: Event)
    requires e.Birth? && e.birthCtx.mode != "tui"
    ensures Step(m, e) == m
  {
  }

  /** A send that returns is the innermost open one; a throwing one fails the bootstrap that made it. */
  lemma ReturnMeans(m: Machine, outer: seq<nat>, i: nat, threw: bool)
    requires m.sending == outer + [i] && i < |m.handles|
    ensures Step(m, SendReturns(threw))
      == (if threw then m.(sending := outer, handles := m.handles[i := Failing(m.handles[i])])
          else m.(sending := outer))
  {
    assert m.sending[..|m.sending| - 1] == outer;
  }
}
