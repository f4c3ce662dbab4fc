/** The WebSocket front of the backend: the audio input queue between a
    client connection and the agent, one client connection (its control
    messages, its cleanup and the split of incoming frames), and the
    server's table of connections by user. The two tasks of a connection
    (receiving client frames, forwarding the agent's audio) are modelled as
    one sequence of events in the order they are handled. */
module WebSocketServer {
  import opened Common
  import opened MemoryModel
  import opened Database
  import opened Agent

  // ------------------------------------------------------- AudioStreamQueue

  /** What one round of `AudioStreamQueue.__aiter__` gives its reader. */
  datatype Pull =
    | Chunk(data: Bytes)   // the oldest queued chunk
    | Waiting              // the 0.5 s `get` timed out on an empty queue
    | Ended                // the queue is closed: iteration stops

  /** `AudioStreamQueue` */
  class AudioStreamQueue {
    var queue: seq<Bytes>
    var closed: bool
    /** Every chunk `put` accepted, and every chunk the reader was given. */
    ghost var accepted: seq<Bytes>
    ghost var delivered: seq<Bytes>

    /** First in, first out: what was delivered, followed by what waits,
        is exactly what was accepted. */
    ghost predicate Valid()
      reads this
    {
      delivered + queue == accepted
    }

    constructor()
      ensures Valid() && queue == [] && !closed && accepted == [] && delivered == []
    {
      queue, closed := [], false;
      accepted, delivered := [], [];
    }

    /** `put`: enqueue only while open; afterwards the chunk is dropped. */
    method Put(data: Bytes)
      requires Valid()
      modifies this
      ensures Valid() && closed == old(closed) && delivered == old(delivered)
      ensures queue == (if old(closed) then old(queue) else old(queue) + [data])
      ensures accepted == (if old(closed) then old(accepted) else old(accepted) + [data])
    {
      if !closed {
        queue := queue + [data];
        accepted := accepted + [data];
      }
    }

    /** One round of `__aiter__`: nothing more once closed, even when chunks
        are still queued; otherwise the oldest chunk, or a timeout. */
    method Next() returns (p: Pull)
      requires Valid()
      modifies this
      ensures Valid() && closed == old(closed) && accepted == old(accepted)
      ensures old(closed) ==> p == Ended && queue == old(queue) && delivered == old(delivered)
      ensures !old(closed) && old(queue) == [] ==> p == Waiting && queue == [] && delivered == old(delivered)
      ensures !old(closed) && old(queue) != [] ==>
        && p == Chunk(old(queue)[0])
        && queue == old(queue)[1..]
        && delivered == old(delivered) + [old(queue)[0]]
    {
      if closed {
        return Ended;
      }
      if queue == [] {
        return Waiting;
      }
      p := Chunk(queue[0]);
      delivered := delivered + [queue[0]];
      queue := queue[1..];
    }

    /** `close` */
    method Close()
      requires Valid()
      modifies this
      ensures Valid() && closed
      ensures queue == old(queue) && accepted == old(accepted) && delivered == old(delivered)
    {
      closed := true;
    }
  }

  /** Chunks come out in the order they went in. */
  lemma DeliveredInOrder(delivered: seq<Bytes>, queue: seq<Bytes>, accepted: seq<Bytes>)
    requires delivered + queue == accepted
    ensures |delivered| <= |accepted|
    ensures delivered == accepted[..|delivered|]
    ensures queue == accepted[|delivered|..]
  {
    assert accepted[..|delivered|] == (delivered + queue)[..|delivered|];
  }

  // ------------------------------------------------------ one connection

  /** A frame the server writes to the client. */
  datatype Outgoing =
    | SessionCreated(sessionId: string, userId: string)
    | Pong
    | Audio(chunk: Bytes)

  /** What a connection handles, in order: a binary client frame, a text
      client frame (the result of `json.loads`, `None` when it is not JSON),
      a chunk of the agent's audio stream, or a batch of tool calls the
      agent's stream runs for the session's user between two chunks. */
  datatype Event =
    | Binary(data: Bytes)
    | Text(message: Option<Json>)
    | AgentAudio(chunk: Bytes)
    | AgentCalls(calls: seq<FunctionCall>)

  /** How `_handle_control_message` treats a message. */
  datatype Control = Ping | EndRequest | Other

  /** `message.get("type")` compared with `"ping"` and `"end_session"`. */
  function ControlOf(fields: map<string, Json>): (c: Control)
    ensures c == Ping <==> "type" in fields && fields["type"] == JStr("ping")
    ensures c == EndRequest <==> "type" in fields && fields["type"] == JStr("end_session")
  {
    if "type" !in fields then Other
    else if fields["type"] == JStr("ping") then Ping
    else if fields["type"] == JStr("end_session") then EndRequest
    else Other
  }

  /** A text frame ends the receive loop with an exception when it is not
      JSON or not a JSON object (`.get` is a dictionary method). */
  predicate Malformed(message: Option<Json>) {
    message.None? || !message.value.JObject?
  }

  /** A text frame after which no more audio is queued: an `end_session`
      request, or a malformed one. */
  predicate Closes(e: Event) {
    e.Text? && (Malformed(e.message) || ControlOf(e.message.value.fields) == EndRequest)
  }

  /** The observable state of a connection. `streaming` is whether the
      agent-audio task is still forwarding; `failed` whether the receive loop
      was left by an exception. */
  datatype ConnState = ConnState(
    isActive: bool,
    queue: seq<Bytes>,
    queueClosed: bool,
    sent: seq<Outgoing>,
    streaming: bool,
    received: nat,
    failed: bool)

  /** Right after `handle` has created the session and sent its confirmation. */
  function Started(sessionId: string, userId: string): (v: ConnState)
    ensures v.sent == [SessionCreated(sessionId, userId)]
    ensures v.isActive && v.streaming && !v.queueClosed && !v.failed && v.queue == []
  {
    ConnState(true, [], false, [SessionCreated(sessionId, userId)], true, 0, false)
  }

  /** `cleanup` on the connection's own state. */
  function CleanedUp(v: ConnState): (r: ConnState)
    ensures !r.isActive && r.queueClosed
    ensures r.queue == v.queue && r.sent == v.sent && r.streaming == v.streaming
    ensures r.received == v.received && r.failed == v.failed
  {
    v.(isActive := false, queueClosed := true)
  }

  /** One event. After an exception in the receive loop nothing more is
      handled there, and cleanup has stopped the audio forwarding. */
  function Step(v: ConnState, e: Event): ConnState {
    if v.failed then v
    else
      match e
      case Binary(d) =>
        v.(received := v.received + 1, queue := if v.queueClosed then v.queue else v.queue + [d])
      case Text(m) =>
        if Malformed(m) then v.(failed := true)
        else (
          match ControlOf(m.value.fields)
          case Ping => v.(sent := v.sent + [Pong])
          case EndRequest => CleanedUp(v)
          case Other => v)
      case AgentAudio(c) =>
        if !v.streaming then v
        else if v.isActive then v.(sent := v.sent + [Audio(c)])
        else v.(streaming := false)
      case AgentCalls(_) => v
  }

  function Run(v: ConnState, es: seq<Event>): ConnState {
    if es == [] then v else Step(Run(v, es[..|es| - 1]), es[|es| - 1])
  }

  /** `handle` after its receive loop: close the queue (unless an exception
      skipped that), then `cleanup` in `finally`. */
  function Finish(v: ConnState): ConnState {
    CleanedUp(v)
  }

  /** The tool calls a batch runs: all of them while the stream still
      forwards and the receive loop has not raised, none otherwise. */
  function StepCalls(v: ConnState, e: Event): seq<FunctionCall> {
    if !v.failed && v.streaming && e.AgentCalls? then e.calls else []
  }

  /** Every tool call the agent's stream runs while the events are handled,
      in order. */
  function ToolCallsOf(v: ConnState, es: seq<Event>): seq<FunctionCall> {
    if es == [] then [] else ToolCallsOf(v, es[..|es| - 1]) + StepCalls(Run(v, es[..|es| - 1]), es[|es| - 1])
  }

  /** One more event leaves the memory table as the calls run so far, plus
      the event's own, leave it; the calls keep the episode log. */
  lemma ToolCallsStep(db: Db, cur: Db, v: ConnState, es: seq<Event>, i: nat, user: string,
                      sim: (string, string) -> int, search: GoogleSearchInput -> SearchAnswer)
    requires i < |es|
    requires cur.memories == RunCalls(db, ToolCallsOf(v, es[..i]), user, sim, search).0.memories
    ensures var next := RunCalls(cur, StepCalls(Run(v, es[..i]), es[i]), user, sim, search).0;
      && next.memories == RunCalls(db, ToolCallsOf(v, es[..i + 1]), user, sim, search).0.memories
      && next.episodes == cur.episodes
  {
    assert es[..i + 1][..i] == es[..i];
    var done := ToolCallsOf(v, es[..i]);
    var more := StepCalls(Run(v, es[..i]), es[i]);
    var mid := RunCalls(db, done, user, sim, search).0;
    RunCallsSeeOnlyMemories(cur, mid, more, user, sim, search);
    RunCallsAppend(db, done, more, user, sim, search);
  }

  /** The data of the binary frames, in order. */
  function Binaries(es: seq<Event>): seq<Bytes> {
    if es == [] then []
    else
      var init := Binaries(es[..|es| - 1]);
      if es[|es| - 1].Binary? then init + [es[|es| - 1].data] else init
  }

  /** How many binary frames there are. */
  function BinaryCount(es: seq<Event>): nat {
    if es == [] then 0 else BinaryCount(es[..|es| - 1]) + (if es[|es| - 1].Binary? then 1 else 0)
  }

  /** How many text frames are well-formed `ping` requests. */
  function PingCount(es: seq<Event>): nat {
    if es == [] then 0
    else
      var e := es[|es| - 1];
      PingCount(es[..|es| - 1]) + (if e.Text? && !Malformed(e.message) && ControlOf(e.message.value.fields) == Ping then 1 else 0)
  }

  /** How many `pong` frames were sent. */
  function PongCount(sent: seq<Outgoing>): nat {
    if sent == [] then 0 else PongCount(sent[..|sent| - 1]) + (if sent[|sent| - 1] == Pong then 1 else 0)
  }

  lemma PongCountAppend(sent: seq<Outgoing>, o: Outgoing)
    ensures PongCount(sent + [o]) == PongCount(sent) + (if o == Pong then 1 else 0)
  {
    assert (sent + [o])[..|sent|] == sent;
  }

  /** The handled events only ever add `pong` and audio frames after what was
      already sent: `session_created` goes out once, first. */
  lemma {:induction false} RunOnlyAppends(v: ConnState, es: seq<Event>)
    ensures |v.sent| <= |Run(v, es).sent| && Run(v, es).sent[..|v.sent|] == v.sent
    ensures forall i :: |v.sent| <= i < |Run(v, es).sent| ==> Run(v, es).sent[i] == Pong || Run(v, es).sent[i].Audio?
  {
    if es != [] {
      var init := es[..|es| - 1];
      RunOnlyAppends(v, init);
    }
  }

  /** `session_created` with the session's id and the user is the first
      frame of a connection and is never sent again. */
  lemma SessionCreatedOnce(sessionId: string, userId: string, es: seq<Event>)
    ensures |Finish(Run(Started(sessionId, userId), es)).sent| >= 1
    ensures Finish(Run(Started(sessionId, userId), es)).sent[0] == SessionCreated(sessionId, userId)
    ensures forall i :: 0 < i < |Finish(Run(Started(sessionId, userId), es)).sent| ==>
      !Finish(Run(Started(sessionId, userId), es)).sent[i].SessionCreated?
  {
    RunOnlyAppends(Started(sessionId, userId), es);
  }

  /** Binary frames reach the audio queue in arrival order, every one of
      them while no `end_session` or malformed frame has arrived; the chunk
      counter counts every binary frame the loop handled. */
  lemma {:induction false} OpenConnectionQueuesEveryChunk(v: ConnState, es: seq<Event>)
    requires !v.queueClosed && !v.failed
    requires forall i :: 0 <= i < |es| ==> !Closes(es[i])
    ensures Run(v, es).queue == v.queue + Binaries(es)
    ensures Run(v, es).received == v.received + BinaryCount(es)
    ensures !Run(v, es).queueClosed && !Run(v, es).failed
  {
    if es != [] {
      var init := es[..|es| - 1];
      OpenConnectionQueuesEveryChunk(v, init);
    }
  }

  /** Once the queue is closed nothing more is queued. */
  lemma {:induction false} ClosedQueueTakesNothing(v: ConnState, es: seq<Event>)
    requires v.queueClosed
    ensures Run(v, es).queue == v.queue && Run(v, es).queueClosed
  {
    if es != [] {
      ClosedQueueTakesNothing(v, es[..|es| - 1]);
    }
  }

  /** Each `ping` gets exactly one `pong`, while the loop runs. */
  lemma {:induction false} OnePongPerPing(v: ConnState, es: seq<Event>)
    requires !v.failed
    requires forall i :: 0 <= i < |es| ==> !(es[i].Text? && Malformed(es[i].message))
    ensures PongCount(Run(v, es).sent) == PongCount(v.sent) + PingCount(es)
    ensures !Run(v, es).failed
  {
    if es != [] {
      var init := es[..|es| - 1];
      OnePongPerPing(v, init);
      var w := Run(v, init);
      var e := es[|es| - 1];
      if e.Text? && !Malformed(e.message) && ControlOf(e.message.value.fields) == Ping {
        PongCountAppend(w.sent, Pong);
      } else if e.AgentAudio? && w.streaming && w.isActive {
        PongCountAppend(w.sent, Audio(e.chunk));
      }
    }
  }

  /** After `cleanup` no agent audio reaches the client. */
  lemma {:induction false} NoAudioAfterCleanup(v: ConnState, es: seq<Event>)
    requires !v.isActive
    ensures !Run(v, es).isActive
    ensures |v.sent| <= |Run(v, es).sent| && Run(v, es).sent[..|v.sent|] == v.sent
    ensures forall i :: |v.sent| <= i < |Run(v, es).sent| ==> Run(v, es).sent[i] == Pong
  {
    if es != [] {
      NoAudioAfterCleanup(v, es[..|es| - 1]);
    }
  }

  /** The first agent chunk after `cleanup` stops the forwarding for good. */
  lemma {:induction false} InactiveStreamStops(v: ConnState, es: seq<Event>, c: Bytes)
    requires !v.isActive && !v.failed
    ensures !Run(v, [AgentAudio(c)] + es).streaming
    ensures |v.sent| <= |Run(v, [AgentAudio(c)] + es).sent|
    ensures Run(v, [AgentAudio(c)] + es).sent[..|v.sent|] == v.sent
    ensures forall i :: |v.sent| <= i < |Run(v, [AgentAudio(c)] + es).sent| ==>
      Run(v, [AgentAudio(c)] + es).sent[i] == Pong
  {
    if es == [] {
      assert [AgentAudio(c)] + es == [AgentAudio(c)];
      assert Run(v, [AgentAudio(c)]) == Step(v, AgentAudio(c)) by {
        assert [AgentAudio(c)][..0] == [];
      }
    } else {
      var all := [AgentAudio(c)] + es;
      assert all[..|all| - 1] == [AgentAudio(c)] + es[..|es| - 1];
      InactiveStreamStops(v, es[..|es| - 1], c);
      NoAudioAfterCleanup(v, all[..|all| - 1]);
    }
  }

  /** `WebSocketConnection` */
  class Connection {
    const userId: string
    var session: Session?
    const audioInputQueue: AudioStreamQueue
    var isActive: bool
    /** Frames written to the client. */
    var sent: seq<Outgoing>
    /** Whether `_stream_agent_audio` is still forwarding. */
    var streaming: bool
    /** `audio_chunks_received` */
    var audioChunksReceived: nat
    var failed: bool

    function View(): ConnState
      reads this, audioInputQueue
    {
      ConnState(isActive, audioInputQueue.queue, audioInputQueue.closed, sent, streaming, audioChunksReceived, failed)
    }

    constructor(userId: string)
      ensures this.userId == userId && session == null && fresh(audioInputQueue)
      ensures audioInputQueue.Valid() && audioInputQueue.queue == [] && !audioInputQueue.closed
      ensures isActive && sent == [] && !streaming && audioChunksReceived == 0 && !failed
    {
      this.userId := userId;
      session := null;
      audioInputQueue := new AudioStreamQueue();
      isActive, sent, streaming, audioChunksReceived, failed := true, [], false, 0, false;
    }

    /** `send_json` (a failed write is not modelled). */
    method SendJson(o: Outgoing)
      modifies this
      ensures sent == old(sent) + [o]
      ensures isActive == old(isActive) && streaming == old(streaming)
      ensures audioChunksReceived == old(audioChunksReceived) && failed == old(failed) && session == old(session)
    {
      sent := sent + [o];
    }

    /** `cleanup`: stop, close the queue, end the session if there is one.
        `now` is the clock when the episode is saved. */
    method Cleanup(agent: EmpatIAAgent, now: int)
      requires agent.Valid() && audioInputQueue.Valid()
      modifies this, audioInputQueue, agent, agent.store
      ensures agent.Valid() && audioInputQueue.Valid() && session == old(session)
      ensures View() == CleanedUp(old(View()))
      ensures session == null ==>
        agent.activeSessions == old(agent.activeSessions) && agent.store.State() == old(agent.store.State())
      ensures session != null ==>
        EndSessionEffect(old(agent.activeSessions), old(agent.store.State()),
                         agent.activeSessions, agent.store.State(), session.sessionId)
    {
      isActive := false;
      audioInputQueue.Close();
      if session != null {
        agent.EndSession(session.sessionId, now);
      }
    }

    /** `_handle_control_message` */
    method HandleControl(agent: EmpatIAAgent, fields: map<string, Json>, now: int)
      requires agent.Valid() && audioInputQueue.Valid() && session != null
      modifies this, audioInputQueue, agent, agent.store
      ensures agent.Valid() && audioInputQueue.Valid() && session == old(session)
      ensures ControlOf(fields) == Ping ==> View() == old(View()).(sent := old(sent) + [Pong])
      ensures ControlOf(fields) == EndRequest ==> View() == CleanedUp(old(View()))
      ensures ControlOf(fields) == Other ==> View() == old(View())
      ensures ControlOf(fields) != EndRequest ==>
        agent.activeSessions == old(agent.activeSessions) && agent.store.State() == old(agent.store.State())
      ensures ControlOf(fields) == EndRequest ==>
        EndSessionEffect(old(agent.activeSessions), old(agent.store.State()),
                         agent.activeSessions, agent.store.State(), session.sessionId)
    {
      var msgType := if "type" in fields then Some(fields["type"]) else None;
      if msgType == Some(JStr("ping")) {
        SendJson(Pong);
      } else if msgType == Some(JStr("end_session")) {
        Cleanup(agent, now);
      }
    }

    /** One round of `handle`'s receive loop, or one chunk reaching
        `_stream_agent_audio`; `stop` when a text frame raised. */
    method Receive(agent: EmpatIAAgent, e: Event, now: int) returns (stop: bool)
      requires agent.Valid() && audioInputQueue.Valid() && session != null && !failed
      modifies this, audioInputQueue, agent, agent.store
      ensures agent.Valid() && audioInputQueue.Valid() && session == old(session)
      ensures View() == Step(old(View()), e)
      ensures stop == failed
      ensures IsEndRequest(e) ==>
        EndSessionEffect(old(agent.activeSessions), old(agent.store.State()),
                         agent.activeSessions, agent.store.State(), session.sessionId)
      ensures !IsEndRequest(e) ==> agent.activeSessions == old(agent.activeSessions)
      ensures !IsEndRequest(e) ==>
        agent.store.State() == RunCalls(old(agent.store.State()), StepCalls(old(View()), e),
                                        session.userId, agent.store.sim, agent.search).0
    {
      stop := false;
      match e {
        case Binary(data) =>
          audioChunksReceived := audioChunksReceived + 1;
          audioInputQueue.Put(data);
        case Text(message) =>
          if Malformed(message) {
            failed := true;
            stop := true;
          } else {
            HandleControl(agent, message.value.fields, now);
          }
        case AgentAudio(chunk) =>
          if streaming {
            if isActive {
              sent := sent + [Audio(chunk)];
            } else {
              streaming := false;
            }
          }
        case AgentCalls(calls) =>
          if streaming {
            var _ := agent.HandleCalls(calls, session.userId);
          }
      }
    }

    /** `handle`'s receive loop: the events are handled in order until the
        client goes away or a text frame raises. */
    method ReceiveAll(agent: EmpatIAAgent, events: seq<Event>, now: int)
      requires agent.Valid() && audioInputQueue.Valid() && session != null && !failed && isActive
      modifies this, audioInputQueue, agent, agent.store
      ensures agent.Valid() && audioInputQueue.Valid() && session == old(session)
      ensures View() == Run(old(View()), events)
      ensures isActive ==> agent.activeSessions == old(agent.activeSessions) && agent.store.episodes == old(agent.store.episodes)
      ensures !isActive ==>
        EpisodeSaved(old(agent.activeSessions), old(agent.store.episodes),
                     agent.activeSessions, agent.store.episodes, session.sessionId)
      ensures agent.store.memories == RunCalls(old(agent.store.State()), ToolCallsOf(old(View()), events),
                                               session.userId, agent.store.sim, agent.search).0.memories
    {
      ghost var start, registered, db := View(), agent.activeSessions, agent.store.State();
      var i := 0;
      while i < |events|
        invariant 0 <= i <= |events|
        invariant agent.Valid() && audioInputQueue.Valid() && session == old(session) && !failed
        invariant View() == Run(start, events[..i])
        invariant AgentSideSoFar(registered, db, agent.activeSessions, agent.store.State(), isActive, session.sessionId,
                                 session.userId, ToolCallsOf(start, events[..i]), agent.store.sim, agent.search)
        decreases |events| - i
      {
        assert events[..i + 1][..i] == events[..i];
        ghost var sessions0, db0 := agent.activeSessions, agent.store.State();
        var stop := Receive(agent, events[i], now);
        AgentSideStep(registered, db, start, events, i, sessions0, db0, agent.activeSessions, agent.store.State(),
                      session.sessionId, session.userId, agent.store.sim, agent.search);
        if stop {
          FailedRunStops(start, events, i + 1);
          return;
        }
        i := i + 1;
      }
      assert events[..i] == events;
    }

    /** `handle`: create the session (its id is the fresh uuid `generatedId`,
        its start `openedAt`), confirm it, start forwarding the agent's audio,
        then handle the events until the client goes away or a text frame
        raises; close the queue and clean up. Every episode is saved at
        `closedAt`. */
    method Handle(agent: EmpatIAAgent, generatedId: string, openedAt: int, events: seq<Event>, closedAt: int)
      requires agent.Valid() && audioInputQueue.Valid()
      requires session == null && View() == ConnState(true, [], false, [], false, 0, false)
      modifies this, audioInputQueue, agent, agent.store
      ensures agent.Valid()
      ensures View() == Finish(Run(Started(generatedId, userId), events))
      ensures session != null && session.sessionId == generatedId && session.userId == userId
      ensures EpisodeSaved(old(agent.activeSessions)[generatedId := session], old(agent.store.episodes),
                           agent.activeSessions, agent.store.episodes, generatedId)
      ensures agent.store.memories == RunCalls(old(agent.store.State()), ToolCallsOf(Started(generatedId, userId), events),
                                               userId, agent.store.sim, agent.search).0.memories
    {
      var s := agent.CreateSession(userId, generatedId, openedAt);
      session := s;
      ghost var registered := agent.activeSessions;
      ghost var db := agent.store.State();
      SendJson(SessionCreated(s.sessionId, userId));
      streaming := true;
      var _, _ := s.GetContext(agent.store);
      assert View() == Started(generatedId, userId);
      ghost var calls := ToolCallsOf(View(), events);
      RunCallsSeeOnlyMemories(agent.store.State(), db, calls, userId, agent.store.sim, agent.search);
      ReceiveAll(agent, events, closedAt);
      if !failed {
        audioInputQueue.Close();
      }
      Cleanup(agent, closedAt);
    }
  }

  // ------------------------------------------------------------ the server

  /** What `handler` does with a new socket. */
  datatype Admission = Rejected(code: int, reason: string) | Admitted

  const PolicyViolation: int := 1008
  const UserIdRequired: string := "user_id obrigatório"

  /** `EmpatIAWebSocketServer` */
  class Server {
    /** `connections`: at most one per user. */
    var connections: map<string, Connection>

    constructor()
      ensures connections == map[]
    {
      connections := map[];
    }

    /** `handler` up to `handle`: a socket without a user id (`None` or
        empty, as `_extract_user_id` reads it from the query) is closed with
        1008 and never registered; otherwise its connection is registered,
        replacing any earlier connection of that user. */
    method Admit(userId: Option<string>) returns (r: Admission, c: Connection?)
      modifies this
      ensures !Truthy(userId) ==> r == Rejected(PolicyViolation, UserIdRequired) && c == null && connections == old(connections)
      ensures Truthy(userId) ==>
        && r == Admitted && c != null && fresh(c) && fresh(c.audioInputQueue)
        && c.userId == userId.value && c.session == null && c.audioInputQueue.Valid()
        && c.View() == ConnState(true, [], false, [], false, 0, false)
        && connections == old(connections)[userId.value := c]
    {
      if !Truthy(userId) {
        return Rejected(PolicyViolation, UserIdRequired), null;
      }
      c := new Connection(userId.value);
      connections := connections[userId.value := c];
      r := Admitted;
    }

    /** The `finally` of `handler`: whatever is registered under the user is
        removed, even a later connection that replaced this one. */
    method Release(userId: string)
      modifies this
      ensures connections == old(connections) - {userId}
    {
      if userId in connections {
        connections := connections - {userId};
      }
    }

    /** `handler`: admit, handle the connection's events, release. */
    method Handler(agent: EmpatIAAgent, userId: Option<string>, generatedId: string, openedAt: int,
                   events: seq<Event>, closedAt: int) returns (r: Admission)
      requires agent.Valid()
      modifies this, agent, agent.store
      ensures agent.Valid()
      ensures !Truthy(userId) ==>
        && r == Rejected(PolicyViolation, UserIdRequired) && connections == old(connections)
        && agent.activeSessions == old(agent.activeSessions) && agent.store.State() == old(agent.store.State())
      ensures Truthy(userId) ==>
        && r == Admitted && connections == old(connections) - {userId.value}
        && agent.activeSessions == old(agent.activeSessions) - {generatedId}
        && agent.store.memories == RunCalls(old(agent.store.State()), ToolCallsOf(Started(generatedId, userId.value), events),
                                            userId.value, agent.store.sim, agent.search).0.memories
        && |agent.store.episodes| == |old(agent.store.episodes)| + 1
        && agent.store.episodes[..|old(agent.store.episodes)|] == old(agent.store.episodes)
        && agent.store.episodes[|old(agent.store.episodes)|].sessionId == generatedId
        && agent.store.episodes[|old(agent.store.episodes)|].userId == userId.value
    {
      var c;
      r, c := Admit(userId);
      if c == null {
        return;
      }
      c.Handle(agent, generatedId, openedAt, events, closedAt);
      assert old(agent.activeSessions)[generatedId := c.session] - {generatedId} == old(agent.activeSessions) - {generatedId};
      Release(c.userId);
    }
  }

  /** A well-formed `end_session` request. */
  predicate IsEndRequest(e: Event) {
    e.Text? && !Malformed(e.message) && ControlOf(e.message.value.fields) == EndRequest
  }

  /** `agent.end_session(sessionId)` seen from outside: a registered session
      is saved as one more episode of its user and forgotten; an unknown one
      changes nothing. */
  ghost predicate EndSessionEffect(sessions: map<string, Session>, db: Db,
                                   sessions': map<string, Session>, db': Db, sessionId: string)
  {
    && EpisodeSaved(sessions, db.episodes, sessions', db'.episodes, sessionId)
    && if sessionId in sessions then db'.memories == db.memories else db' == db
  }

  /** The agent's side while a connection has handled some events: the
      registry and the episode log are untouched while the connection is
      active and the session has been ended once otherwise; the memory table
      is as the tool calls run so far leave it. */
  ghost predicate AgentSideSoFar(registered: map<string, Session>, db: Db, sessions: map<string, Session>, cur: Db,
                                 active: bool, sessionId: string, user: string, calls: seq<FunctionCall>,
                                 sim: (string, string) -> int, search: GoogleSearchInput -> SearchAnswer)
  {
    && (active ==> sessions == registered && cur.episodes == db.episodes)
    && (!active ==> EpisodeSaved(registered, db.episodes, sessions, cur.episodes, sessionId))
    && cur.memories == RunCalls(db, calls, user, sim, search).0.memories
  }

  /** One event as `Receive` handles it keeps `AgentSideSoFar`. */
  lemma AgentSideStep(registered: map<string, Session>, db: Db, v: ConnState, es: seq<Event>, i: nat,
                      sessions0: map<string, Session>, db0: Db, sessions1: map<string, Session>, db1: Db,
                      sessionId: string, user: string,
                      sim: (string, string) -> int, search: GoogleSearchInput -> SearchAnswer)
    requires i < |es| && !Run(v, es[..i]).failed
    requires AgentSideSoFar(registered, db, sessions0, db0, Run(v, es[..i]).isActive, sessionId, user,
                            ToolCallsOf(v, es[..i]), sim, search)
    requires IsEndRequest(es[i]) ==> EndSessionEffect(sessions0, db0, sessions1, db1, sessionId)
    requires !IsEndRequest(es[i]) ==>
      sessions1 == sessions0 && db1 == RunCalls(db0, StepCalls(Run(v, es[..i]), es[i]), user, sim, search).0
    ensures AgentSideSoFar(registered, db, sessions1, db1, Run(v, es[..i + 1]).isActive, sessionId, user,
                           ToolCallsOf(v, es[..i + 1]), sim, search)
  {
    assert es[..i + 1][..i] == es[..i];
    var u := Run(v, es[..i]);
    assert Run(v, es[..i + 1]) == Step(u, es[i]);
    ToolCallsStep(db, db0, v, es, i, user, sim, search);
    if IsEndRequest(es[i]) {
      assert StepCalls(u, es[i]) == [];
      if !u.isActive {
        assert sessionId !in sessions0;
      }
    } else {
      assert Step(u, es[i]).isActive == u.isActive;
    }
  }

  /** The session and episode side of `end_session`: a registered session
      leaves the registry and its user gets one more episode; an unknown one
      changes neither. */
  ghost predicate EpisodeSaved(sessions: map<string, Session>, episodes: seq<EpisodeRow>,
                               sessions': map<string, Session>, episodes': seq<EpisodeRow>, sessionId: string)
  {
    if sessionId in sessions then
      && sessions' == sessions - {sessionId}
      && |episodes'| == |episodes| + 1
      && episodes'[..|episodes|] == episodes
      && episodes'[|episodes|].sessionId == sessionId
      && episodes'[|episodes|].userId == sessions[sessionId].userId
    else
      sessions' == sessions && episodes' == episodes
  }

  /** Once the receive loop has raised, later events change nothing and run
      no tool calls. */
  lemma {:induction false} FailedRunStops(v: ConnState, es: seq<Event>, i: nat)
    requires i <= |es| && Run(v, es[..i]).failed
    ensures Run(v, es) == Run(v, es[..i])
    ensures ToolCallsOf(v, es) == ToolCallsOf(v, es[..i])
    decreases |es|
  {
    if i < |es| {
      var init := es[..|es| - 1];
      assert init[..i] == es[..i];
      FailedRunStops(v, init, i);
      assert StepCalls(Run(v, init), es[|es| - 1]) == [];
    } else {
      assert es[..i] == es;
    }
  }
}
