/** The browser's connection to the backend: `WebSocketClient` builds the
    socket URL, reconnects after an abnormal close with a linear backoff
    and a bounded number of attempts, sends only on an open socket, and
    fans events out to registered listeners. The socket is reduced to its
    `readyState`; a listener is named by an identity; JSON text is kept
    already decoded. */
module Client {
  import opened Common

  const MaxReconnectAttempts: nat := 5
  const ReconnectDelay: nat := 1000
  /** The close code of a normal, intentional closure. */
  const NormalClosure: int := 1000
  const QueryPrefix := "/ws?user_id="

  /** The socket URL: the base, the path and the user id, spliced in
      without any percent-encoding. */
  function SocketUrl(url: string, userId: string): (r: string)
    ensures |r| == |url| + |QueryPrefix| + |userId|
    ensures r[..|url|] == url
    ensures r[|url|..|url| + |QueryPrefix|] == QueryPrefix
  {
    url + QueryPrefix + userId
  }

  /** The user id as the server reads it back: everything after the prefix. */
  function UserIdIn(socketUrl: string, url: string): string
    requires |url| + |QueryPrefix| <= |socketUrl|
  {
    socketUrl[|url| + |QueryPrefix|..]
  }

  /** The user id is carried verbatim, so it comes back whole; in
      particular two users never share a URL. */
  lemma SocketUrlRoundTrip(url: string, userId: string)
    ensures UserIdIn(SocketUrl(url, userId), url) == userId
  {
    assert SocketUrl(url, userId) == (url + QueryPrefix) + userId;
  }

  /** The reconnect bookkeeping: the attempts made so far, and the delays
      of the reconnect timers scheduled, in order. */
  datatype Backoff = Backoff(attempts: nat, delays: seq<nat>)

  /** The `onclose` handler's reconnect rule. */
  function AfterClose(b: Backoff, code: int): (r: Backoff)
    ensures r.attempts <= MaxReconnectAttempts || r == b
    ensures code == NormalClosure ==> r == b
    ensures r != b <==> code != NormalClosure && b.attempts < MaxReconnectAttempts
  {
    if code != NormalClosure && b.attempts < MaxReconnectAttempts then
      var attempts := b.attempts + 1;
      Backoff(attempts, b.delays + [ReconnectDelay * attempts])
    else
      b
  }

  /** A run of closes with no successful open in between. */
  function AfterCloses(b: Backoff, codes: seq<int>): Backoff {
    if codes == [] then b else AfterClose(AfterCloses(b, codes[..|codes| - 1]), codes[|codes| - 1])
  }

  function Min(a: nat, b: nat): nat {
    if a <= b then a else b
  }

  /** Starting from a fresh open, abnormal closes schedule at most five
      reconnects, the k-th after k seconds. */
  lemma {:induction false} AbnormalClosesBackOffLinearly(codes: seq<int>)
    requires forall i :: 0 <= i < |codes| ==> codes[i] != NormalClosure
    ensures var r := AfterCloses(Backoff(0, []), codes);
      && r.attempts == Min(|codes|, MaxReconnectAttempts)
      && |r.delays| == r.attempts
      && forall k :: 0 <= k < |r.delays| ==> r.delays[k] == ReconnectDelay * (k + 1)
  {
    if codes != [] {
      AbnormalClosesBackOffLinearly(codes[..|codes| - 1]);
    }
  }

  /** Whatever the close codes, the attempts never exceed the maximum. */
  lemma {:induction false} AttemptsStayBounded(b: Backoff, codes: seq<int>)
    requires b.attempts <= MaxReconnectAttempts
    ensures AfterCloses(b, codes).attempts <= MaxReconnectAttempts
    ensures b.delays <= AfterCloses(b, codes).delays
  {
    if codes != [] {
      AttemptsStayBounded(b, codes[..|codes| - 1]);
    }
  }

  /** Once the attempts are used up, which `disconnect` forces, no close
      schedules anything. */
  lemma {:induction false} ExhaustedNeverReconnects(b: Backoff, codes: seq<int>)
    requires b.attempts >= MaxReconnectAttempts
    ensures AfterCloses(b, codes) == b
  {
    if codes != [] {
      ExhaustedNeverReconnects(b, codes[..|codes| - 1]);
    }
  }

  datatype ReadyState = Connecting | Open | Closing | Closed

  datatype EventName = OpenEvent | CloseEvent | ErrorEvent | MessageEvent | AudioChunkEvent

  /** A listener, named by the identity of its function. */
  type Callback = nat

  /** What the client writes to the socket. */
  datatype Frame = AudioFrame(data: Bytes) | TextFrame(message: map<string, Json>)

  /** A message event's payload: a text frame, decoded when it is valid
      JSON; an `ArrayBuffer`; or anything else. */
  datatype Incoming = Text(parsed: Option<Json>) | Binary(data: Bytes) | OtherData

  class WebSocketClient {
    const url: string
    const userId: string
    /** `ws`: the current socket's state, `None` for `null`. */
    var ws: Option<ReadyState>
    var reconnectAttempts: nat
    /** The delays of the reconnect timers scheduled so far. */
    var reconnectDelays: seq<nat>
    /** The close codes this client asked its sockets to close with. */
    var closeCodes: seq<int>
    var sent: seq<Frame>
    var listeners: map<EventName, set<Callback>>

    ghost predicate Valid()
      reads this
    {
      reconnectAttempts <= MaxReconnectAttempts
    }

    function BackoffState(): Backoff
      reads this
    {
      Backoff(reconnectAttempts, reconnectDelays)
    }

    /** The listeners of one event; an event never registered has none. */
    function ListenersOf(event: EventName): set<Callback>
      reads this
    {
      if event in listeners then listeners[event] else {}
    }

    constructor (baseUrl: string, user: string)
      ensures Valid()
      ensures url == SocketUrl(baseUrl, user) && userId == user
      ensures ws == None && reconnectAttempts == 0 && reconnectDelays == []
      ensures closeCodes == [] && sent == [] && listeners == map[]
    {
      url := SocketUrl(baseUrl, user);
      userId := user;
      ws := None;
      reconnectAttempts := 0;
      reconnectDelays := [];
      closeCodes := [];
      sent := [];
      listeners := map[];
    }

    /** `connect`, also what a reconnect timer runs: a new socket replaces
        `ws`; the previous one, if any, is not closed. */
    method Connect()
      modifies this
      ensures ws == Some(Connecting)
      ensures reconnectAttempts == old(reconnectAttempts) && reconnectDelays == old(reconnectDelays)
      ensures closeCodes == old(closeCodes) && sent == old(sent) && listeners == old(listeners)
    {
      ws := Some(Connecting);
    }

    /** Calls every listener of `event`. `throwing` are the listeners that
        throw: each exception is caught and logged, so the others still run. */
    method Emit(event: EventName, throwing: set<Callback>) returns (called: set<Callback>, failed: set<Callback>)
      ensures called == ListenersOf(event)
      ensures failed == called * throwing
    {
      called := {};
      failed := {};
      if event !in listeners {
        return;
      }
      var rest := listeners[event];
      while rest != {}
        invariant called + rest == listeners[event] && called !! rest
        invariant failed == called * throwing
        decreases |rest|
      {
        var callback :| callback in rest;
        called := called + {callback};
        if callback in throwing {
          failed := failed + {callback};
        }
        rest := rest - {callback};
      }
    }

    /** `onopen`: the socket is open, the attempts start again from zero,
        and the `open` listeners run. */
    method OnOpen(throwing: set<Callback>) returns (called: set<Callback>)
      requires Valid()
      modifies this
      ensures Valid()
      ensures ws == Some(Open) && reconnectAttempts == 0
      ensures reconnectDelays == old(reconnectDelays) && closeCodes == old(closeCodes)
      ensures sent == old(sent) && listeners == old(listeners)
      ensures called == ListenersOf(OpenEvent)
    {
      ws := Some(Open);
      reconnectAttempts := 0;
      var failed;
      called, failed := Emit(OpenEvent, throwing);
    }

    /** `onclose`: the socket is closed, the `close` listeners run, and an
        abnormal close schedules a reconnect while attempts remain. */
    method OnClose(code: int, throwing: set<Callback>) returns (called: set<Callback>)
      requires Valid()
      modifies this
      ensures Valid()
      ensures ws == if old(ws).Some? then Some(Closed) else None
      ensures BackoffState() == AfterClose(old(BackoffState()), code)
      ensures closeCodes == old(closeCodes) && sent == old(sent) && listeners == old(listeners)
      ensures called == ListenersOf(CloseEvent)
    {
      if ws.Some? {
        ws := Some(Closed);
      }
      var failed;
      called, failed := Emit(CloseEvent, throwing);
      if code != NormalClosure && reconnectAttempts < MaxReconnectAttempts {
        reconnectAttempts := reconnectAttempts + 1;
        reconnectDelays := reconnectDelays + [ReconnectDelay * reconnectAttempts];
      }
    }

    /** `onmessage`: decoded text goes to the `message` listeners, binary
        data to the `audioChunk` listeners; undecodable text and any other
        payload reach no one. */
    method OnMessage(data: Incoming, throwing: set<Callback>) returns (called: set<Callback>)
      ensures data.Text? && data.parsed.Some? ==> called == ListenersOf(MessageEvent)
      ensures data.Binary? ==> called == ListenersOf(AudioChunkEvent)
      ensures (data.Text? && data.parsed.None?) || data.OtherData? ==> called == {}
    {
      called := {};
      var failed;
      match data {
        case Text(parsed) =>
          if parsed.Some? {
            called, failed := Emit(MessageEvent, throwing);
          }
        case Binary(_) =>
          called, failed := Emit(AudioChunkEvent, throwing);
        case OtherData =>
      }
    }

    /** `disconnect`: with a socket, the attempts are used up so that its
        close does not reconnect, the socket is closed with the normal code
        and forgotten; without one nothing happens. */
    method Disconnect()
      requires Valid()
      modifies this
      ensures Valid()
      ensures old(ws).None? ==>
        ws == None && reconnectAttempts == old(reconnectAttempts) && closeCodes == old(closeCodes)
      ensures old(ws).Some? ==>
        && ws == None
        && reconnectAttempts == MaxReconnectAttempts
        && closeCodes == old(closeCodes) + [NormalClosure]
      ensures reconnectDelays == old(reconnectDelays) && sent == old(sent) && listeners == old(listeners)
    {
      if ws.Some? {
        reconnectAttempts := MaxReconnectAttempts;
        closeCodes := closeCodes + [NormalClosure];
        ws := None;
      }
    }

    /** `sendAudio`: written only to an open socket, otherwise dropped. */
    method SendAudio(data: Bytes)
      modifies this
      ensures ws == Some(Open) ==> sent == old(sent) + [AudioFrame(data)]
      ensures ws != Some(Open) ==> sent == old(sent)
      ensures ws == old(ws) && reconnectAttempts == old(reconnectAttempts) && listeners == old(listeners)
      ensures reconnectDelays == old(reconnectDelays) && closeCodes == old(closeCodes)
    {
      if ws.Some? && ws.value == Open {
        sent := sent + [AudioFrame(data)];
      }
    }

    /** `sendMessage`: written only to an open socket, otherwise dropped. */
    method SendMessage(message: map<string, Json>)
      modifies this
      ensures ws == Some(Open) ==> sent == old(sent) + [TextFrame(message)]
      ensures ws != Some(Open) ==> sent == old(sent)
      ensures ws == old(ws) && reconnectAttempts == old(reconnectAttempts) && listeners == old(listeners)
      ensures reconnectDelays == old(reconnectDelays) && closeCodes == old(closeCodes)
    {
      if ws.Some? && ws.value == Open {
        sent := sent + [TextFrame(message)];
      }
    }

    method IsConnected() returns (connected: bool)
      ensures connected <==> ws == Some(Open)
    {
      connected := ws.Some? && ws.value == Open;
    }

    /** `on`: the callback joins the event's set; registering it twice
        changes nothing. */
    method On(event: EventName, callback: Callback)
      modifies this
      ensures listeners.Keys == old(listeners.Keys) + {event}
      ensures ListenersOf(event) == old(ListenersOf(event)) + {callback}
      ensures forall e :: e != event ==> ListenersOf(e) == old(ListenersOf(e))
      ensures ws == old(ws) && sent == old(sent) && reconnectAttempts == old(reconnectAttempts)
    {
      if event !in listeners {
        listeners := listeners[event := {}];
      }
      listeners := listeners[event := listeners[event] + {callback}];
    }

    /** `off`: the callback leaves the event's set, if it had one. */
    method Off(event: EventName, callback: Callback)
      modifies this
      ensures listeners.Keys == old(listeners.Keys)
      ensures ListenersOf(event) == old(ListenersOf(event)) - {callback}
      ensures forall e :: e != event ==> ListenersOf(e) == old(ListenersOf(e))
      ensures ws == old(ws) && sent == old(sent) && reconnectAttempts == old(reconnectAttempts)
    {
      if event in listeners {
        listeners := listeners[event := listeners[event] - {callback}];
      }
    }
  }
}
