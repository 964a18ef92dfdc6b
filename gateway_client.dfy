/** The gateway connection state machine of apps/gateway/src/index.ts: the
    module-level variables `ws`, `heartbeatInterval`, `lastSequence`,
    `sessionId`, `resumeGatewayUrl` and `reconnectAttempts` become the fields
    of one client object, and the socket callbacks, timer ticks and frame
    handlers become its methods. The socket is a value recording its URL and
    ready state, frames written with `ws.send` are appended to `sent`, the
    host's running interval timers are the set `runningTimers`, and each
    launched reply pipeline is appended to `launched`. */
module Gateway {

  import opened JsValues
  import opened GatewayConfig
  import opened GatewayProtocol

  /** `WebSocket.readyState` as far as the client can observe it. */
  datatype ReadyState = Connecting | Open | Closing(code: int, reason: string)

  datatype Socket = Socket(url: string, state: ReadyState)

  /** An interval timer of the host: its handle and period. */
  datatype Timer = Timer(id: nat, periodMs: int)

  const ReconnectReason := "Reconnect requested"

  class GatewayClient {
    const config: BotConfig

    var ws: Option<Socket>
    var heartbeatInterval: Option<Timer>
    var lastSequence: Option<int>
    var sessionId: Option<string>
    var resumeGatewayUrl: Option<string>
    var reconnectAttempts: nat

    /** Interval timers currently running on the host, and the next handle it hands out. */
    var runningTimers: set<Timer>
    var nextTimerId: nat
    /** Frames written to the socket, oldest first. */
    var sent: seq<OutboundFrame>
    /** Messages for which a reply pipeline was started, oldest first. */
    var launched: seq<MessageCreateData>

    /** The client's invariant: the session id and the resume URL are set
        and cleared together; the only running timer is the one the client
        holds, so there is at most one; and no timer outlives its socket. */
    ghost predicate Valid()
      reads this
    {
      && (sessionId.Some? <==> resumeGatewayUrl.Some?)
      && runningTimers == (if heartbeatInterval.Some? then {heartbeatInterval.value} else {})
      && (heartbeatInterval.Some? ==> heartbeatInterval.value.id < nextTimerId && ws.Some?)
    }

    lemma AtMostOneTimer()
      requires Valid()
      ensures |runningTimers| <= 1
      ensures heartbeatInterval.None? ==> runningTimers == {}
    {
    }

    /** The state at module load: no socket, no timer, no session. */
    constructor (cfg: BotConfig)
      ensures Valid() && config == cfg
      ensures ws.None? && heartbeatInterval.None? && runningTimers == {}
      ensures lastSequence.None? && sessionId.None? && resumeGatewayUrl.None?
      ensures reconnectAttempts == 0 && sent == [] && launched == []
    {
      config := cfg;
      ws, heartbeatInterval, runningTimers, nextTimerId := None, None, {}, 0;
      lastSequence, sessionId, resumeGatewayUrl := None, None, None;
      reconnectAttempts, sent, launched := 0, [], [];
    }

    /** `connect`: opens a new socket on the connect URL; nothing else changes. */
    method Connect(gatewayUrl: string)
      requires Valid()
      modifies this
      ensures Valid()
      ensures ws == Some(Socket(ConnectUrl(gatewayUrl), Connecting))
      ensures heartbeatInterval == old(heartbeatInterval) && runningTimers == old(runningTimers)
      ensures nextTimerId == old(nextTimerId) && lastSequence == old(lastSequence)
      ensures sessionId == old(sessionId) && resumeGatewayUrl == old(resumeGatewayUrl)
      ensures reconnectAttempts == old(reconnectAttempts)
      ensures sent == old(sent) && launched == old(launched)
    {
      ws := Some(Socket(ConnectUrl(gatewayUrl), Connecting));
    }

    /** `main`: connects to the discovered URL; when discovery threw, the
        process exits with status 1 instead. */
    method Start(discovered: Option<string>) returns (exitStatus: Option<int>)
      requires Valid()
      modifies this
      ensures Valid()
      ensures discovered.None? ==> exitStatus == Some(1) && ws == old(ws)
      ensures discovered.Some? ==> exitStatus.None? && ws == Some(Socket(ConnectUrl(discovered.value), Connecting))
      ensures heartbeatInterval == old(heartbeatInterval) && runningTimers == old(runningTimers)
      ensures nextTimerId == old(nextTimerId)
      ensures lastSequence == old(lastSequence) && sessionId == old(sessionId)
      ensures resumeGatewayUrl == old(resumeGatewayUrl) && reconnectAttempts == old(reconnectAttempts)
      ensures sent == old(sent) && launched == old(launched)
    {
      if discovered.Some? {
        Connect(discovered.value);
        exitStatus := None;
      } else {
        exitStatus := Some(1);
      }
    }

    /** `ws.onopen`: the socket is open and the failure count starts over. */
    method OnOpen()
      requires Valid() && ws.Some?
      modifies this
      ensures Valid()
      ensures ws == Some(Socket(old(ws).value.url, Open))
      ensures reconnectAttempts == 0
      ensures heartbeatInterval == old(heartbeatInterval) && runningTimers == old(runningTimers)
      ensures nextTimerId == old(nextTimerId)
      ensures lastSequence == old(lastSequence) && sessionId == old(sessionId)
      ensures resumeGatewayUrl == old(resumeGatewayUrl)
      ensures sent == old(sent) && launched == old(launched)
    {
      ws := Some(Socket(ws.value.url, Open));
      reconnectAttempts := 0;
    }

    /** `cleanup`: cancels the heartbeat timer, if any, and drops the socket. */
    method Cleanup()
      requires Valid()
      modifies this
      ensures Valid()
      ensures ws.None? && heartbeatInterval.None? && runningTimers == {}
      ensures nextTimerId == old(nextTimerId) && lastSequence == old(lastSequence)
      ensures sessionId == old(sessionId) && resumeGatewayUrl == old(resumeGatewayUrl)
      ensures reconnectAttempts == old(reconnectAttempts)
      ensures sent == old(sent) && launched == old(launched)
    {
      if heartbeatInterval.Some? {
        runningTimers := runningTimers - {heartbeatInterval.value};
        heartbeatInterval := None;
      }
      ws := None;
    }

    /** The synchronous start of `reconnect`: counts the failure and gives
        the delay to wait before the next attempt. */
    method ScheduleReconnect() returns (delay: nat)
      requires Valid()
      modifies this`reconnectAttempts
      ensures Valid()
      ensures reconnectAttempts == old(reconnectAttempts) + 1
      ensures delay == BackoffDelay(reconnectAttempts)
    {
      reconnectAttempts := reconnectAttempts + 1;
      delay := BackoffDelay(reconnectAttempts);
    }

    /** `ws.onclose`: cleanup, then a reconnect after the returned delay. */
    method OnClose() returns (delay: nat)
      requires Valid() && ws.Some?
      modifies this
      ensures Valid()
      ensures ws.None? && heartbeatInterval.None? && runningTimers == {}
      ensures reconnectAttempts == old(reconnectAttempts) + 1
      ensures delay == BackoffDelay(reconnectAttempts)
      ensures nextTimerId == old(nextTimerId)
      ensures lastSequence == old(lastSequence) && sessionId == old(sessionId)
      ensures resumeGatewayUrl == old(resumeGatewayUrl)
      ensures sent == old(sent) && launched == old(launched)
    {
      Cleanup();
      delay := ScheduleReconnect();
    }

    /** The rest of `reconnect`, once the delay has passed: connect to the
        resume URL when it is set, else to the discovered one; when there is
        none (discovery threw) count another failure and return the delay of
        the next try. */
    method AfterBackoff(discovered: Option<string>) returns (retryDelay: Option<nat>)
      requires Valid() && ws.None?
      modifies this
      ensures Valid()
      ensures var target := ReconnectTarget(old(resumeGatewayUrl), discovered);
        && (target.Some? ==> ws == Some(Socket(ConnectUrl(target.value), Connecting))
                             && retryDelay.None? && reconnectAttempts == old(reconnectAttempts))
        && (target.None? ==> ws.None? && reconnectAttempts == old(reconnectAttempts) + 1
                             && retryDelay == Some(BackoffDelay(reconnectAttempts)))
      ensures heartbeatInterval == old(heartbeatInterval) && runningTimers == old(runningTimers)
      ensures nextTimerId == old(nextTimerId)
      ensures lastSequence == old(lastSequence) && sessionId == old(sessionId)
      ensures resumeGatewayUrl == old(resumeGatewayUrl)
      ensures sent == old(sent) && launched == old(launched)
    {
      var target := ReconnectTarget(resumeGatewayUrl, discovered);
      if target.Some? {
        Connect(target.value);
        retryDelay := None;
      } else {
        var d := ScheduleReconnect();
        retryDelay := Some(d);
      }
    }

    /** `ws?.send(...)`: written only when there is a socket. */
    method Send(frame: OutboundFrame)
      requires Valid()
      modifies this`sent
      ensures Valid()
      ensures sent == if ws.Some? then old(sent) + [frame] else old(sent)
    {
      if ws.Some? {
        sent := sent + [frame];
      }
    }

    /** A tick of the heartbeat timer: sends the last sequence number when
        the socket is open and does nothing otherwise. */
    method HeartbeatTick()
      requires Valid() && heartbeatInterval.Some?
      modifies this`sent
      ensures Valid()
      ensures sent == if ws.Some? && ws.value.state.Open?
                      then old(sent) + [HeartbeatFrame(lastSequence)] else old(sent)
    {
      if ws.Some? && ws.value.state.Open? {
        Send(HeartbeatFrame(lastSequence));
      }
    }

    /** `handleHello`: cancels the running heartbeat timer before starting a
        new one with the given period, then sends Resume or Identify. */
    method HandleHello(heartbeatIntervalMs: int)
      requires Valid() && ws.Some?
      modifies this
      ensures Valid()
      ensures heartbeatInterval == Some(Timer(old(nextTimerId), heartbeatIntervalMs))
      ensures runningTimers == {heartbeatInterval.value}
      ensures nextTimerId == old(nextTimerId) + 1
      ensures old(heartbeatInterval).Some? ==> old(heartbeatInterval).value !in runningTimers
      ensures sent == old(sent) + [HelloReply(config.discordToken, sessionId, resumeGatewayUrl, lastSequence)]
      ensures ws == old(ws) && lastSequence == old(lastSequence) && sessionId == old(sessionId)
      ensures resumeGatewayUrl == old(resumeGatewayUrl) && reconnectAttempts == old(reconnectAttempts)
      ensures launched == old(launched)
    {
      if heartbeatInterval.Some? {
        runningTimers := runningTimers - {heartbeatInterval.value};
      }
      var timer := Timer(nextTimerId, heartbeatIntervalMs);
      nextTimerId := nextTimerId + 1;
      runningTimers := runningTimers + {timer};
      heartbeatInterval := Some(timer);
      if IsSet(sessionId) && IsSet(resumeGatewayUrl) {
        Resume();
      } else {
        Identify();
      }
    }

    /** `identify`. */
    method Identify()
      requires Valid()
      modifies this`sent
      ensures Valid()
      ensures sent == if ws.Some? then old(sent) + [IdentifyFrame(config.discordToken, Intents, Properties)]
                      else old(sent)
    {
      Send(IdentifyFrame(config.discordToken, Intents, Properties));
    }

    /** `resume`: the session id and the last sequence number as they are now. */
    method Resume()
      requires Valid()
      modifies this`sent
      ensures Valid()
      ensures sent == if ws.Some? then old(sent) + [ResumeFrame(config.discordToken, sessionId, lastSequence)]
                      else old(sent)
    {
      Send(ResumeFrame(config.discordToken, sessionId, lastSequence));
    }

    /** `handleMessageCreate`: starts a reply pipeline exactly when the
        filter decides to respond. */
    method HandleMessageCreate(m: MessageCreateData)
      requires Valid()
      modifies this`launched
      ensures Valid()
      ensures launched == if Decide(config, m).Respond? then old(launched) + [m] else old(launched)
    {
      if m.author.id == config.botUserId {
        return;
      }
      if IsBotMentioned(m.mentions, config.botUserId) {
        launched := launched + [m];
        return;
      }
      if m.channelId !in config.channels {
        return;
      }
      if m.author.id !in config.allowedUsers {
        return;
      }
      launched := launched + [m];
    }

    /** `handleDispatch`: READY stores the session id and the resume URL
        together, message events go to the filter, any other event is
        ignored. */
    method HandleDispatch(event: DispatchEvent)
      requires Valid()
      requires event.OtherEvent? ==> !RoutedEvent(event.name)
      modifies this
      ensures Valid()
      ensures event.Ready? ==> sessionId == Some(event.sessionId) && resumeGatewayUrl == Some(event.resumeGatewayUrl)
      ensures !event.Ready? ==> sessionId == old(sessionId) && resumeGatewayUrl == old(resumeGatewayUrl)
      ensures (event.MessageCreate? || event.MessageUpdate?) && Decide(config, event.message).Respond?
              ==> launched == old(launched) + [event.message]
      ensures !((event.MessageCreate? || event.MessageUpdate?) && Decide(config, event.message).Respond?)
              ==> launched == old(launched)
      ensures ws == old(ws) && heartbeatInterval == old(heartbeatInterval) && runningTimers == old(runningTimers)
      ensures nextTimerId == old(nextTimerId) && lastSequence == old(lastSequence)
      ensures reconnectAttempts == old(reconnectAttempts) && sent == old(sent)
    {
      match event
      case Ready(sid, url) =>
        sessionId := Some(sid);
        resumeGatewayUrl := Some(url);
      case MessageCreate(m) =>
        HandleMessageCreate(m);
      case MessageUpdate(m) =>
        HandleMessageCreate(m);
      case OtherEvent(_) =>
    }

    /** The InvalidSession handler: forgets the session whatever `d` says,
        and sends Identify right away. */
    method HandleInvalidSession(d: bool)
      requires Valid() && ws.Some?
      modifies this
      ensures Valid()
      ensures sessionId.None? && resumeGatewayUrl.None?
      ensures sent == old(sent) + [IdentifyFrame(config.discordToken, Intents, Properties)]
      ensures ws == old(ws) && heartbeatInterval == old(heartbeatInterval) && runningTimers == old(runningTimers)
      ensures nextTimerId == old(nextTimerId) && lastSequence == old(lastSequence)
      ensures reconnectAttempts == old(reconnectAttempts) && launched == old(launched)
    {
      sessionId := None;
      resumeGatewayUrl := None;
      Identify();
    }

    /** The Reconnect handler: asks the socket to close with code 1000;
        the close event that follows drives the reconnect. */
    method HandleReconnect()
      requires Valid()
      modifies this
      ensures Valid()
      ensures ws == if old(ws).Some? then Some(Socket(old(ws).value.url, Closing(NormalClosure, ReconnectReason)))
                    else None
      ensures heartbeatInterval == old(heartbeatInterval) && runningTimers == old(runningTimers)
      ensures nextTimerId == old(nextTimerId) && lastSequence == old(lastSequence)
      ensures sessionId == old(sessionId) && resumeGatewayUrl == old(resumeGatewayUrl)
      ensures reconnectAttempts == old(reconnectAttempts)
      ensures sent == old(sent) && launched == old(launched)
    {
      if ws.Some? {
        ws := Some(Socket(ws.value.url, Closing(NormalClosure, ReconnectReason)));
      }
    }

    /** `handleGatewayEvent`, for a frame that arrived on the current
        socket. `matched` is false when no handler matches the opcode: the
        pattern match then raises and nothing changes. Every Dispatch frame
        stores its sequence number as it is, before it is routed. */
    method HandleGatewayEvent(frame: InboundFrame) returns (matched: bool)
      requires Valid() && ws.Some? && WellFormed(frame)
      modifies this
      ensures Valid()
      ensures matched <==> HandledOpcode(InboundOpcode(frame))
      ensures frame.Dispatch? ==> lastSequence == Some(frame.s)
      ensures !frame.Dispatch? ==> lastSequence == old(lastSequence)
      ensures frame.Hello? ==>
        && heartbeatInterval == Some(Timer(old(nextTimerId), frame.heartbeatInterval))
        && runningTimers == {heartbeatInterval.value}
        && sent == old(sent) + [HelloReply(config.discordToken, old(sessionId), old(resumeGatewayUrl), old(lastSequence))]
      ensures frame.Dispatch? && frame.event.Ready? ==>
        sessionId == Some(frame.event.sessionId) && resumeGatewayUrl == Some(frame.event.resumeGatewayUrl)
      ensures frame.Dispatch? && (frame.event.MessageCreate? || frame.event.MessageUpdate?) ==>
        launched == if Decide(config, frame.event.message).Respond? then old(launched) + [frame.event.message]
                    else old(launched)
      ensures frame.Reconnect? ==>
        ws == Some(Socket(old(ws).value.url, Closing(NormalClosure, ReconnectReason)))
      ensures frame.InvalidSession? ==>
        && sessionId.None? && resumeGatewayUrl.None?
        && sent == old(sent) + [IdentifyFrame(config.discordToken, Intents, Properties)]
      ensures !frame.Hello? && !frame.InvalidSession? ==> sent == old(sent)
      ensures !(frame.Dispatch? && (frame.event.MessageCreate? || frame.event.MessageUpdate?)) ==> launched == old(launched)
      ensures !frame.Hello? ==> heartbeatInterval == old(heartbeatInterval) && runningTimers == old(runningTimers)
      ensures nextTimerId == if frame.Hello? then old(nextTimerId) + 1 else old(nextTimerId)
      ensures !frame.Reconnect? ==> ws == old(ws)
      ensures !(frame.Dispatch? && frame.event.Ready?) && !frame.InvalidSession? ==>
        sessionId == old(sessionId) && resumeGatewayUrl == old(resumeGatewayUrl)
      ensures reconnectAttempts == old(reconnectAttempts)
      ensures frame.HeartbeatAck? || frame.Unhandled? ==>
        && ws == old(ws) && heartbeatInterval == old(heartbeatInterval) && lastSequence == old(lastSequence)
        && sessionId == old(sessionId) && resumeGatewayUrl == old(resumeGatewayUrl) && sent == old(sent)
    {
      matched := true;
      match frame
      case Hello(interval) =>
        HandleHello(interval);
      case HeartbeatAck =>
      case Dispatch(s, event) =>
        lastSequence := Some(s);
        HandleDispatch(event);
      case Reconnect =>
        HandleReconnect();
      case InvalidSession(d) =>
        HandleInvalidSession(d);
      case Unhandled(_) =>
        matched := false;
    }
  }

  /** An InvalidSession frame followed by a Hello on the same socket gives
      Identify twice, never Resume, whatever session came before. */
  method InvalidSessionThenHello(c: GatewayClient, d: bool, interval: int)
    requires c.Valid() && c.ws.Some?
    modifies c
    ensures c.Valid()
    ensures |c.sent| == |old(c.sent)| + 2
    ensures c.sent[|c.sent| - 2] == IdentifyFrame(c.config.discordToken, Intents, Properties)
    ensures c.sent[|c.sent| - 1] == IdentifyFrame(c.config.discordToken, Intents, Properties)
  {
    var _ := c.HandleGatewayEvent(InvalidSession(d));
    var _ := c.HandleGatewayEvent(Hello(interval));
  }

  /** READY, then a Reconnect frame, the close it causes, the reconnect and
      the next Hello: the client goes back to the resume URL and resumes the
      session with the last sequence number it stored. */
  method ReconnectResumes(c: GatewayClient, s: int, sid: string, url: string, interval: int)
    requires c.Valid() && c.ws.Some?
    requires sid != "" && url != ""
    modifies c
    ensures c.Valid()
    ensures c.ws == Some(Socket(ConnectUrl(url), Open))
    ensures c.reconnectAttempts == 0
    ensures c.sent == old(c.sent) + [ResumeFrame(c.config.discordToken, Some(sid), Some(s))]
  {
    var _ := c.HandleGatewayEvent(Dispatch(s, Ready(sid, url)));
    var _ := c.HandleGatewayEvent(Reconnect);
    var delay := c.OnClose();
    var retry := c.AfterBackoff(None);
    c.OnOpen();
    var _ := c.HandleGatewayEvent(Hello(interval));
  }

  /** After an open socket, whatever came before, the next close waits the
      base delay of one second. */
  method OpenThenCloseWaitsBaseDelay(c: GatewayClient) returns (delay: nat)
    requires c.Valid() && c.ws.Some?
    modifies c
    ensures delay == BaseDelayMs
    ensures c.reconnectAttempts == 1
  {
    c.OnOpen();
    delay := c.OnClose();
    BackoffFirstAttempt();
  }
}
