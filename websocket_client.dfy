/**
 * client/src/services/websocket.ts: the browser-side WebSocketService. It
 * keeps the current socket (or none), a set of callbacks per event type and a
 * counter of reconnection attempts. Each operation is a transition of
 * ClientState, and the class's methods are proved to make those transitions.
 *
 * A callback stands for a JavaScript function object, compared by identity.
 * A JavaScript Set iterates in insertion order, so a type's callbacks are a
 * sequence without duplicates. Browser events (open, message, close) become
 * methods the environment calls; the socket they fire on is the current one
 * when there is one, and otherwise the socket an earlier disconnect dropped.
 */
module WebSocketClient {
  import opened Wrappers

  datatype Callback = Callback(id: nat)

  datatype ReadyState = Connecting | Open | Closing | Closed

  /** A parsed message: its `type` and its payload as JSON text. */
  datatype Message = Message(kind: string, payload: string)

  datatype ClientState = ClientState(
    ws: Option<ReadyState>,
    subscribers: map<string, seq<Callback>>,
    reconnectAttempts: int)

  const MaxReconnectAttempts := 5
  const ReconnectDelayStep := 1000

  const Initial := ClientState(None, map[], 0)

  /** The callbacks subscribed to an event type, in the order they were added. */
  function Subscribed(subscribers: map<string, seq<Callback>>, kind: string): seq<Callback> {
    if kind in subscribers then subscribers[kind] else []
  }

  predicate Distinct(s: seq<Callback>) {
    forall i, j :: 0 <= i < j < |s| ==> s[i] != s[j]
  }

  /** The counter stays within the limit and no type lists a callback twice. */
  predicate Valid(s: ClientState) {
    0 <= s.reconnectAttempts <= MaxReconnectAttempts
    && forall kind :: kind in s.subscribers ==> Distinct(s.subscribers[kind])
  }

  // ---------------------------------------------------------- transitions

  /** connect: nothing when the socket is open; otherwise a new socket that is connecting. */
  function Connected(s: ClientState): ClientState {
    if s.ws == Some(Open) then s else s.(ws := Some(Connecting))
  }

  /** The open event: the socket is open and the attempt counter is reset. */
  function Opened(s: ClientState): ClientState {
    s.(ws := if s.ws.Some? then Some(Open) else None, reconnectAttempts := 0)
  }

  /**
   * The close event: below the limit the counter goes up by one and a
   * reconnect is scheduled after 1000 ms times the new count; at the limit
   * nothing is scheduled.
   */
  function ClosedEvent(s: ClientState): (r: (ClientState, Option<int>))
    ensures r.0.ws == (if s.ws.Some? then Some(Closed) else None) && r.0.subscribers == s.subscribers
    ensures s.reconnectAttempts < MaxReconnectAttempts ==>
              r.0.reconnectAttempts == s.reconnectAttempts + 1 && r.1 == Some(ReconnectDelayStep * r.0.reconnectAttempts)
    ensures s.reconnectAttempts >= MaxReconnectAttempts ==> r.0.reconnectAttempts == s.reconnectAttempts && r.1.None?
  {
    var after := s.(ws := if s.ws.Some? then Some(Closed) else None);
    if s.reconnectAttempts < MaxReconnectAttempts then
      var attempts := s.reconnectAttempts + 1;
      (after.(reconnectAttempts := attempts), Some(ReconnectDelayStep * attempts))
    else
      (after, None)
  }

  /** disconnect: with a socket, it is dropped and the counter reset; without one, nothing changes. */
  function Disconnected(s: ClientState): ClientState {
    if s.ws.Some? then s.(ws := None, reconnectAttempts := 0) else s
  }

  /** `s` without `cb`, the others kept in order. */
  function Without(s: seq<Callback>, cb: Callback): (r: seq<Callback>)
    ensures forall c :: c in r <==> c in s && c != cb
    ensures |r| <= |s|
  {
    if s == [] then []
    else if s[|s| - 1] == cb then Without(s[..|s| - 1], cb)
    else Without(s[..|s| - 1], cb) + [s[|s| - 1]]
  }

  /** subscribe: the type's set is created if missing and the callback added unless already there. */
  function WithSubscriber(subscribers: map<string, seq<Callback>>, kind: string, cb: Callback): map<string, seq<Callback>> {
    var current := Subscribed(subscribers, kind);
    subscribers[kind := if cb in current then current else current + [cb]]
  }

  /** unsubscribe: the callback leaves the type's set, when there is one. */
  function WithoutSubscriber(subscribers: map<string, seq<Callback>>, kind: string, cb: Callback): map<string, seq<Callback>> {
    if kind in subscribers then subscribers[kind := Without(subscribers[kind], cb)] else subscribers
  }

  /** The calls a raw message causes: its payload to each callback of its type, in set order; none when it does not parse. */
  function Dispatch(subscribers: map<string, seq<Callback>>, msg: Option<Message>): (calls: seq<(Callback, string)>)
    ensures msg.None? ==> calls == []
    ensures msg.Some? ==> |calls| == |Subscribed(subscribers, msg.value.kind)|
    ensures msg.Some? ==> forall i :: 0 <= i < |calls| ==>
                            calls[i] == (Subscribed(subscribers, msg.value.kind)[i], msg.value.payload)
  {
    match msg
    case None => []
    case Some(m) =>
      var subs := Subscribed(subscribers, m.kind);
      seq(|subs|, i requires 0 <= i < |subs| => (subs[i], m.payload))
  }

  // ---------------------------------------------------------- the service

  class WebSocketService {
    var ws: Option<ReadyState>
    var subscribers: map<string, seq<Callback>>
    var reconnectAttempts: int

    function State(): ClientState
      reads this
    {
      ClientState(ws, subscribers, reconnectAttempts)
    }

    constructor ()
      ensures State() == Initial
    {
      ws := None;
      subscribers := map[];
      reconnectAttempts := 0;
    }

    method Connect()
      modifies this
      ensures State() == Connected(old(State()))
    {
      if ws == Some(Open) {
        return;
      }
      ws := Some(Connecting);
    }

    method OnOpen()
      modifies this
      ensures State() == Opened(old(State()))
    {
      if ws.Some? {
        ws := Some(Open);
      }
      reconnectAttempts := 0;
    }

    /** The message event: `parse` is JSON.parse followed by reading `type`; None when either fails. */
    method OnMessage(data: string, parse: string -> Option<Message>) returns (calls: seq<(Callback, string)>)
      ensures calls == Dispatch(subscribers, parse(data))
    {
      var msg := parse(data);
      if msg.None? {
        return [];
      }
      var subs := if msg.value.kind in subscribers then subscribers[msg.value.kind] else [];
      calls := [];
      var i := 0;
      while i < |subs|
        invariant 0 <= i <= |subs|
        invariant |calls| == i && forall k :: 0 <= k < i ==> calls[k] == (subs[k], msg.value.payload)
      {
        calls := calls + [(subs[i], msg.value.payload)];
        i := i + 1;
      }
    }

    /** The close event; `delay` is the timeout after which connect is called again, if any. */
    method OnClose() returns (delay: Option<int>)
      modifies this
      ensures (State(), delay) == ClosedEvent(old(State()))
    {
      if ws.Some? {
        ws := Some(Closed);
      }
      delay := None;
      if reconnectAttempts < MaxReconnectAttempts {
        reconnectAttempts := reconnectAttempts + 1;
        delay := Some(ReconnectDelayStep * reconnectAttempts);
      }
    }

    method Disconnect()
      modifies this
      ensures State() == Disconnected(old(State()))
    {
      if ws.Some? {
        ws := None;
        reconnectAttempts := 0;
      }
    }

    method Subscribe(kind: string, cb: Callback)
      modifies this
      ensures State() == old(State()).(subscribers := WithSubscriber(old(subscribers), kind, cb))
    {
      if kind !in subscribers {
        subscribers := subscribers[kind := []];
      }
      if cb !in subscribers[kind] {
        subscribers := subscribers[kind := subscribers[kind] + [cb]];
      }
    }

    method Unsubscribe(kind: string, cb: Callback)
      modifies this
      ensures State() == old(State()).(subscribers := WithoutSubscriber(old(subscribers), kind, cb))
    {
      if kind in subscribers {
        var current := subscribers[kind];
        var kept: seq<Callback> := [];
        var i := 0;
        while i < |current|
          invariant 0 <= i <= |current|
          invariant kept == Without(current[..i], cb)
        {
          assert current[..i + 1][..i] == current[..i];
          if current[i] != cb {
            kept := kept + [current[i]];
          }
          i := i + 1;
        }
        assert current[..|current|] == current;
        subscribers := subscribers[kind := kept];
      }
    }
  }

  // ---------------------------------------------------------- properties

  /** Every transition keeps the counter within 0..5 and the callback sets free of duplicates. */
  lemma TransitionsKeepValid(s: ClientState, kind: string, cb: Callback)
    requires Valid(s)
    ensures Valid(Connected(s)) && Valid(Opened(s)) && Valid(ClosedEvent(s).0) && Valid(Disconnected(s))
    ensures Valid(s.(subscribers := WithSubscriber(s.subscribers, kind, cb)))
    ensures Valid(s.(subscribers := WithoutSubscriber(s.subscribers, kind, cb)))
  {
    WithoutKeepsDistinct(Subscribed(s.subscribers, kind), cb);
  }

  lemma {:induction false} WithoutKeepsDistinct(s: seq<Callback>, cb: Callback)
    requires Distinct(s)
    ensures Distinct(Without(s, cb))
  {
    if s != [] {
      var init := s[..|s| - 1];
      WithoutKeepsDistinct(init, cb);
      assert s[|s| - 1] !in init by {
        forall k | 0 <= k < |init| ensures init[k] != s[|s| - 1] {
          assert init[k] == s[k];
        }
      }
      assert s[|s| - 1] !in Without(init, cb);
    }
  }

  /** Removing a callback that is not there gives back the same sequence. */
  lemma {:induction false} WithoutAbsent(s: seq<Callback>, cb: Callback)
    requires cb !in s
    ensures Without(s, cb) == s
  {
    if s != [] {
      WithoutAbsent(s[..|s| - 1], cb);
    }
  }

  /** A second subscribe of the same callback changes nothing. */
  lemma SubscribeIdempotent(subscribers: map<string, seq<Callback>>, kind: string, cb: Callback)
    ensures WithSubscriber(WithSubscriber(subscribers, kind, cb), kind, cb) == WithSubscriber(subscribers, kind, cb)
  {
  }

  /**
   * After subscribe the callback receives the type's messages, after the
   * callbacks already there; every other type keeps its callbacks.
   */
  lemma SubscribeDelivers(subscribers: map<string, seq<Callback>>, kind: string, cb: Callback, other: string)
    ensures cb in Subscribed(WithSubscriber(subscribers, kind, cb), kind)
    ensures Subscribed(subscribers, kind) <= Subscribed(WithSubscriber(subscribers, kind, cb), kind)
    ensures other != kind ==> Subscribed(WithSubscriber(subscribers, kind, cb), other) == Subscribed(subscribers, other)
  {
  }

  /** unsubscribe takes away exactly that callback from that type, and nothing when it was not subscribed. */
  lemma UnsubscribeRemovesOnly(subscribers: map<string, seq<Callback>>, kind: string, cb: Callback, other: string, c: Callback)
    ensures c in Subscribed(WithoutSubscriber(subscribers, kind, cb), other)
        <==> c in Subscribed(subscribers, other) && !(other == kind && c == cb)
    ensures cb !in Subscribed(subscribers, kind) ==> WithoutSubscriber(subscribers, kind, cb) == subscribers
  {
    if cb !in Subscribed(subscribers, kind) && kind in subscribers {
      WithoutAbsent(subscribers[kind], cb);
    }
  }

  /** A callback is called on a parsed message exactly when it is subscribed to the message's type. */
  lemma DispatchReachesSubscribers(subscribers: map<string, seq<Callback>>, msg: Message, cb: Callback)
    ensures (cb, msg.payload) in Dispatch(subscribers, Some(msg)) <==> cb in Subscribed(subscribers, msg.kind)
  {
    var calls := Dispatch(subscribers, Some(msg));
    var subs := Subscribed(subscribers, msg.kind);
    if cb in subs {
      var i :| 0 <= i < |subs| && subs[i] == cb;
      assert calls[i] == (cb, msg.payload);
    }
  }

  /** Closes that keep failing: each scheduled reconnect runs connect, the socket closes again, and so on `n` times. */
  function FailedRetries(s: ClientState, n: nat): (ClientState, seq<int>) {
    if n == 0 then (s, [])
    else
      var before := FailedRetries(s, n - 1);
      var closed := ClosedEvent(before.0);
      match closed.1
      case Some(delay) => (Connected(closed.0), before.1 + [delay])
      case None => (closed.0, before.1)
  }

  function Min(a: int, b: int): int {
    if a < b then a else b
  }

  /**
   * From a reset counter, `n` failing connections schedule reconnects after
   * 1000, 2000, ... ms, at most five of them; the counter ends at min(n, 5).
   */
  lemma {:induction false} ReconnectSchedule(s: ClientState, n: nat)
    requires s.reconnectAttempts == 0
    ensures FailedRetries(s, n).0.reconnectAttempts == Min(n, MaxReconnectAttempts)
    ensures FailedRetries(s, n).1 == seq(Min(n, MaxReconnectAttempts), i => ReconnectDelayStep * (i + 1))
    ensures FailedRetries(s, n).0.subscribers == s.subscribers
  {
    if n > 0 {
      ReconnectSchedule(s, n - 1);
      var before := FailedRetries(s, n - 1);
      if n - 1 < MaxReconnectAttempts {
        assert before.0.reconnectAttempts == n - 1;
        assert FailedRetries(s, n).1 == before.1 + [ReconnectDelayStep * n];
      }
    }
  }

  /** A successful open after any number of failures starts the schedule afresh. */
  lemma OpenResetsSchedule(s: ClientState)
    requires s.ws.Some?
    ensures Opened(s).reconnectAttempts == 0 && Opened(s).ws == Some(Open)
    ensures ClosedEvent(Opened(s)).1 == Some(ReconnectDelayStep)
  {
  }

  /**
   * disconnect does not stop reconnection: the close event of the socket it
   * dropped finds the counter reset, schedules a reconnect after 1000 ms, and
   * that connect opens a new socket.
   */
  lemma DisconnectStillReconnects(s: ClientState)
    requires s.ws.Some?
    ensures var (closed, delay) := ClosedEvent(Disconnected(s));
            delay == Some(ReconnectDelayStep) && Connected(closed).ws == Some(Connecting)
  {
  }
}
