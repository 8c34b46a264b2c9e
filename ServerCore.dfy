/** The bookkeeping of the server: option defaults, the call-id counter shared by every
    socket it creates, the handler table, the registries of pending and connected
    sockets, the forwarding of socket events under `socket<Stream>` names, and `close`.
    The WebSocket server, the HTTP server, the broker and the sockets' own behaviour stay
    outside the model; `emitted` records the events the server emits and
    `disconnectCalls` the sockets whose `disconnect` it calls. */
module ServerCore {

  datatype Option<T> = None | Some(value: T)

  type SocketId = string

  /** `socket.type`: only sockets of type 'client' have their events forwarded. */
  datatype SocketType = ClientType | ServerType

  /** A request handler: the six built-in ones, or one supplied by the application. */
  datatype Handler =
    | AuthenticateHandler
    | HandshakeHandler
    | PublishHandler
    | RemoveAuthTokenHandler
    | SubscribeHandler
    | UnsubscribeHandler
    | UserHandler(name: string)

  /** The handlers the server installs under the reserved request names. */
  const RESERVED_HANDLERS: map<string, Handler> := map[
    "#authenticate" := AuthenticateHandler,
    "#handshake" := HandshakeHandler,
    "#publish" := PublishHandler,
    "#removeAuthToken" := RemoveAuthTokenHandler,
    "#subscribe" := SubscribeHandler,
    "#unsubscribe" := UnsubscribeHandler
  ]

  const DEFAULT_ACK_TIMEOUT_MS: int := 10000
  const DEFAULT_PING_INTERVAL_MS: int := 8000
  const DEFAULT_PING_TIMEOUT_MS: int := 20000

  /** The `pingTimeoutMs` option: absent, `false`, or a number of milliseconds. */
  datatype PingTimeoutOption = PingTimeoutUnset | PingTimeoutFalse | PingTimeoutMs(ms: int)

  /** The server options the model reads; `None` is an absent (or null) option. A
      supplied call-id generator is given by the id it returns on its k-th call. */
  datatype ServerOptions = ServerOptions(
    ackTimeoutMs: Option<int>,
    allowClientPublish: Option<bool>,
    pingIntervalMs: Option<int>,
    pingTimeoutMs: PingTimeoutOption,
    callIdGenerator: Option<nat -> int>,
    handlers: Option<map<string, Handler>>,
    socketChannelLimit: Option<int>)

  /** `if (!options) options = {}` */
  function OptionsOrEmpty(options: Option<ServerOptions>): ServerOptions {
    if options.Some? then options.value
    else ServerOptions(None, None, None, PingTimeoutUnset, None, None, None)
  }

  /** The timing and publishing settings the constructor derives from the options. */
  datatype Settings = Settings(
    ackTimeoutMs: int,
    allowClientPublish: bool,
    pingIntervalMs: int,
    isPingTimeoutDisabled: bool,
    pingTimeoutMs: int)

  /** `value || fallback` for a numeric option: zero and absence both fall back. */
  function NumberOr(value: Option<int>, fallback: int): int {
    if value.Some? && value.value != 0 then value.value else fallback
  }

  function ResolveSettings(options: Option<ServerOptions>): (s: Settings)
    // a timer setting is never zero: a zero option falls back like an absent one
    ensures s.ackTimeoutMs != 0 && s.pingIntervalMs != 0 && s.pingTimeoutMs != 0
    ensures var o := OptionsOrEmpty(options);
      && (o.ackTimeoutMs.Some? && o.ackTimeoutMs.value != 0 ==> s.ackTimeoutMs == o.ackTimeoutMs.value)
      && (o.ackTimeoutMs.None? || o.ackTimeoutMs.value == 0 ==> s.ackTimeoutMs == DEFAULT_ACK_TIMEOUT_MS)
      && (o.pingIntervalMs.Some? && o.pingIntervalMs.value != 0 ==> s.pingIntervalMs == o.pingIntervalMs.value)
      && (o.pingIntervalMs.None? || o.pingIntervalMs.value == 0 ==> s.pingIntervalMs == DEFAULT_PING_INTERVAL_MS)
    // `?? true`: only an absent option defaults, an explicit false is kept
    ensures var o := OptionsOrEmpty(options);
      s.allowClientPublish == (o.allowClientPublish.None? || o.allowClientPublish.value)
    ensures var o := OptionsOrEmpty(options);
      && (s.isPingTimeoutDisabled <==> o.pingTimeoutMs.PingTimeoutFalse?)
      && (o.pingTimeoutMs.PingTimeoutMs? && o.pingTimeoutMs.ms != 0 ==> s.pingTimeoutMs == o.pingTimeoutMs.ms)
      && (!o.pingTimeoutMs.PingTimeoutMs? || o.pingTimeoutMs.ms == 0 ==> s.pingTimeoutMs == DEFAULT_PING_TIMEOUT_MS)
  {
    var o := OptionsOrEmpty(options);
    Settings(
      NumberOr(o.ackTimeoutMs, DEFAULT_ACK_TIMEOUT_MS),
      if o.allowClientPublish.Some? then o.allowClientPublish.value else true,
      NumberOr(o.pingIntervalMs, DEFAULT_PING_INTERVAL_MS),
      o.pingTimeoutMs == PingTimeoutFalse,
      NumberOr(if o.pingTimeoutMs.PingTimeoutMs? then Some(o.pingTimeoutMs.ms) else None, DEFAULT_PING_TIMEOUT_MS))
  }

  /** `Object.assign({...reserved handlers}, options.handlers)` */
  function MergeHandlers(user: Option<map<string, Handler>>): (r: map<string, Handler>)
    ensures user.None? ==> r == RESERVED_HANDLERS
    ensures user.Some? ==> r.Keys == RESERVED_HANDLERS.Keys + user.value.Keys
    // an application handler wins, also over a reserved name
    ensures user.Some? ==> forall name :: name in user.value ==> r[name] == user.value[name]
    ensures forall name ::
      (name in RESERVED_HANDLERS && (user.None? || name !in user.value)) ==> name in r && r[name] == RESERVED_HANDLERS[name]
  {
    if user.Some? then RESERVED_HANDLERS + user.value else RESERVED_HANDLERS
  }

  /** The ids the built-in counter hands out over its first `n` calls when it starts
      at `start`: the k-th call (from 0) gets `start + k`. */
  function CounterIds(start: int, n: nat): (ids: seq<int>)
    ensures |ids| == n
    ensures forall k :: 0 <= k < n ==> ids[k] == start + k
  {
    if n == 0 then [] else CounterIds(start, n - 1) + [start + n - 1]
  }

  /** The counter's ids are positive and strictly increasing, hence never repeat. */
  lemma CounterIdsIncrease(n: nat)
    ensures forall k :: 0 <= k < n ==> CounterIds(1, n)[k] >= 1
    ensures forall i, j :: 0 <= i < j < n ==> CounterIds(1, n)[i] < CounterIds(1, n)[j]
  {
  }

  /** `toUpperCase` of one character, for ASCII letters. */
  function ToUpperAscii(c: char): char {
    if 'a' <= c <= 'z' then (c as int - 32) as char else c
  }

  function ToLowerAscii(c: char): char {
    if 'A' <= c <= 'Z' then (c as int + 32) as char else c
  }

  predicate IsUpperAscii(c: char) {
    'A' <= c <= 'Z'
  }

  /** `socket${stream[0].toUpperCase()}${stream.substring(1)}`. For the empty stream name
      `stream[0]` is undefined and the expression throws, so it is excluded here. */
  function SocketEventName(stream: string): (name: string)
    requires stream != ""
    ensures |name| == |stream| + 6 && name[..6] == "socket"
    ensures name[6] == ToUpperAscii(stream[0]) && name[7..] == stream[1..]
  {
    "socket" + [ToUpperAscii(stream[0])] + stream[1..]
  }

  /** The stream name a `socket<Stream>` event name was derived from, undoing the
      capitalisation: the reference the forwarding is checked against. */
  function StreamOfEventName(name: string): (stream: Option<string>)
    ensures stream.Some? <==> |name| > 6 && name[..6] == "socket"
    ensures stream.Some? ==> |stream.value| == |name| - 6 && !IsUpperAscii(stream.value[0])
  {
    if |name| > 6 && name[..6] == "socket" then Some([ToLowerAscii(name[6])] + name[7..]) else None
  }

  /** Forwarding loses nothing: the stream name comes back from the event name whenever
      it does not start with an upper-case letter. */
  lemma {:induction false} EventNameRoundTrip(stream: string)
    requires stream != "" && !IsUpperAscii(stream[0])
    ensures StreamOfEventName(SocketEventName(stream)) == Some(stream)
  {
    var name := SocketEventName(stream);
    assert [ToLowerAscii(name[6])] + name[7..] == [stream[0]] + stream[1..];
    assert [stream[0]] + stream[1..] == stream;
  }

  /** Distinct stream names are forwarded under distinct event names. */
  lemma {:induction false} EventNamesDistinct(s: string, t: string)
    requires s != "" && !IsUpperAscii(s[0]) && t != "" && !IsUpperAscii(t[0])
    requires s != t
    ensures SocketEventName(s) != SocketEventName(t)
  {
    EventNameRoundTrip(s);
    EventNameRoundTrip(t);
  }

  /** The two streams that unregister a client keep their names after "socket". */
  lemma ConnectAbortEventName()
    ensures SocketEventName("connectAbort") == "socketConnectAbort"
  {
    var s := "connectAbort";
    assert s[1..] == "onnectAbort";
    assert "socket" + ['C'] + "onnectAbort" == "socketConnectAbort";
  }

  lemma DisconnectEventName()
    ensures SocketEventName("disconnect") == "socketDisconnect"
  {
    var s := "disconnect";
    assert s[1..] == "isconnect";
    assert "socket" + ['D'] + "isconnect" == "socketDisconnect";
  }

  /** A socket the server created, as far as the server sees it. */
  datatype Socket = Socket(
    id: SocketId,
    socketType: SocketType,
    ackTimeoutMs: int,
    handlers: map<string, Handler>,
    callIds: CallIdGenerator)

  datatype ServerEvent = ServerEvent(name: string, socket: Option<SocketId>)

  /** `calls` holds every id of `ids`, nothing else, and none twice. */
  ghost predicate CallsEachOnce(ids: set<SocketId>, calls: seq<SocketId>) {
    && (forall i :: 0 <= i < |calls| ==> calls[i] in ids)
    && (forall id :: id in ids ==> id in calls)
    && (forall i, j :: 0 <= i < j < |calls| ==> calls[i] != calls[j])
  }

  /** The server's `_callIdGenerator`: the supplied generator, or the closure over the
      counter `cid`, which starts at 1 and returns then increments it. */
  class CallIdGenerator {
    var cid: int
    const custom: Option<nat -> int>
    /** How many ids have been requested so far. */
    var calls: nat
    /** Every id handed out, in order. */
    ghost var issued: seq<int>

    ghost predicate Valid()
      reads this
    {
      && calls == |issued|
      && (custom.None? ==> cid == calls + 1 && issued == CounterIds(1, calls))
      && (custom.Some? ==> cid == 1)
    }

    constructor (custom: Option<nat -> int>)
      ensures Valid() && this.custom == custom && issued == []
    {
      this.custom := custom;
      cid, calls, issued := 1, 0, [];
    }

    /** One call of the generator, by whichever socket makes it. */
    method Next() returns (id: int)
      requires Valid()
      modifies this`cid, this`calls, this`issued
      ensures Valid()
      ensures issued == old(issued) + [id]
      ensures custom.None? ==> id == |old(issued)| + 1
      ensures custom.Some? ==> id == custom.value(old(calls))
    {
      if custom.Some? {
        id := custom.value(calls);
      } else {
        id := cid;
        cid := cid + 1;
        assert CounterIds(1, calls + 1) == CounterIds(1, calls) + [id];
      }
      calls := calls + 1;
      issued := issued + [id];
    }
  }

  class Server {
    var ackTimeoutMs: int
    var allowClientPublish: bool
    var pingIntervalMs: int
    var isPingTimeoutDisabled: bool
    var pingTimeoutMs: int
    var socketChannelLimit: Option<int>
    const callIdGenerator: CallIdGenerator
    var handlers: map<string, Handler>
    /** Connected sockets; filled by the handshake handler, which is not part of this model. */
    var clients: map<SocketId, Socket>
    var clientCount: int
    var pendingClients: map<SocketId, Socket>
    var pendingClientCount: int
    var isListening: bool
    var emitted: seq<ServerEvent>
    var disconnectCalls: seq<SocketId>
    /** Sockets whose `listen()` loop has ended because a re-emission threw. */
    var endedSocketListeners: set<SocketId>
    /** Sockets whose `channels.listen()` loop has ended because a re-emission threw. */
    var endedChannelListeners: set<SocketId>

    ghost predicate Valid()
      reads this, callIdGenerator
    {
      && callIdGenerator.Valid()
      // every socket is filed under its own id and draws call ids from the one generator
      && (forall id :: id in pendingClients ==>
            pendingClients[id].id == id && pendingClients[id].callIds == callIdGenerator)
      && |pendingClients| <= pendingClientCount
    }

    constructor (options: Option<ServerOptions>)
      ensures Valid() && fresh(callIdGenerator)
      ensures callIdGenerator.custom == OptionsOrEmpty(options).callIdGenerator && callIdGenerator.issued == []
      ensures var s := ResolveSettings(options);
        && ackTimeoutMs == s.ackTimeoutMs && allowClientPublish == s.allowClientPublish
        && pingIntervalMs == s.pingIntervalMs && isPingTimeoutDisabled == s.isPingTimeoutDisabled
        && pingTimeoutMs == s.pingTimeoutMs
      ensures socketChannelLimit == OptionsOrEmpty(options).socketChannelLimit
      ensures handlers == MergeHandlers(OptionsOrEmpty(options).handlers)
      ensures clients == map[] && clientCount == 0 && pendingClients == map[] && pendingClientCount == 0
      ensures !isListening && emitted == [] && disconnectCalls == []
      ensures endedSocketListeners == {} && endedChannelListeners == {}
    {
      var o := OptionsOrEmpty(options);
      var s := ResolveSettings(options);
      clients, clientCount := map[], 0;
      pendingClients, pendingClientCount := map[], 0;
      ackTimeoutMs, allowClientPublish, pingIntervalMs := s.ackTimeoutMs, s.allowClientPublish, s.pingIntervalMs;
      isPingTimeoutDisabled, pingTimeoutMs := s.isPingTimeoutDisabled, s.pingTimeoutMs;
      callIdGenerator := new CallIdGenerator(o.callIdGenerator);
      socketChannelLimit := o.socketChannelLimit;
      handlers := MergeHandlers(o.handlers);
      isListening, emitted, disconnectCalls := false, [], [];
      endedSocketListeners, endedChannelListeners := {}, {};
    }

    /** `onConnection`: the new socket (whose id its own constructor assigns) is filed in
        `pendingClients`, the pending count goes up by one, and the `connection` and
        `handshake` events are emitted. */
    method OnConnection(id: SocketId, socketType: SocketType) returns (socket: Socket)
      requires Valid()
      modifies this`pendingClients, this`pendingClientCount, this`emitted
      ensures Valid()
      ensures socket == Socket(id, socketType, ackTimeoutMs, handlers, callIdGenerator)
      ensures pendingClients == old(pendingClients)[id := socket]
      ensures pendingClientCount == old(pendingClientCount) + 1
      ensures emitted == old(emitted) + [ServerEvent("connection", Some(id)), ServerEvent("handshake", Some(id))]
    {
      socket := Socket(id, socketType, ackTimeoutMs, handlers, callIdGenerator);
      pendingClientCount := pendingClientCount + 1;
      pendingClients := pendingClients[id := socket];
      emitted := emitted + [ServerEvent("connection", Some(id)), ServerEvent("handshake", Some(id))];
    }

    /** One event of a socket's own stream reaching the listener `bind` attached. Only
        client-type sockets have that listener, and it handles nothing once it has ended.
        A `connectAbort` or `disconnect` removes the socket from `clients`; every event is
        re-emitted as `socket<Stream>`. An empty stream name makes the re-emission throw
        (`stream[0]` is undefined), which ends the listener loop. */
    method HandleSocketEvent(socket: Socket, stream: string)
      requires Valid()
      modifies this`clients, this`emitted, this`endedSocketListeners
      ensures Valid()
      ensures socket.socketType != ClientType || socket.id in old(endedSocketListeners)
        ==> clients == old(clients) && emitted == old(emitted) && endedSocketListeners == old(endedSocketListeners)
      ensures socket.socketType == ClientType && socket.id !in old(endedSocketListeners)
          && (stream == "connectAbort" || stream == "disconnect")
        ==> clients == old(clients) - {socket.id}
      ensures stream != "connectAbort" && stream != "disconnect" ==> clients == old(clients)
      ensures socket.socketType == ClientType && socket.id !in old(endedSocketListeners) && stream != ""
        ==> emitted == old(emitted) + [ServerEvent(SocketEventName(stream), Some(socket.id))]
      ensures stream != "" ==> endedSocketListeners == old(endedSocketListeners)
      ensures socket.socketType == ClientType && stream == ""
        ==> emitted == old(emitted) && endedSocketListeners == old(endedSocketListeners) + {socket.id}
    {
      if socket.socketType == ClientType && socket.id !in endedSocketListeners {
        if stream == "connectAbort" {
          clients := clients - {socket.id};
        }
        if stream == "disconnect" {
          clients := clients - {socket.id};
        }
        if stream != "" {
          emitted := emitted + [ServerEvent(SocketEventName(stream), Some(socket.id))];
        } else {
          endedSocketListeners := endedSocketListeners + {socket.id};
        }
      }
    }

    /** One event of a client-type socket's channel stream: re-emitted as
        `socket<Stream>`, with no change to the registries. The channel listener handles
        nothing once it has ended; an empty stream name makes the re-emission throw,
        which ends it. */
    method HandleChannelEvent(socket: Socket, stream: string)
      requires Valid()
      modifies this`emitted, this`endedChannelListeners
      ensures Valid()
      ensures socket.socketType != ClientType || socket.id in old(endedChannelListeners)
        ==> emitted == old(emitted) && endedChannelListeners == old(endedChannelListeners)
      ensures socket.socketType == ClientType && socket.id !in old(endedChannelListeners) && stream != ""
        ==> emitted == old(emitted) + [ServerEvent(SocketEventName(stream), Some(socket.id))]
      ensures stream != "" ==> endedChannelListeners == old(endedChannelListeners)
      ensures socket.socketType == ClientType && stream == ""
        ==> emitted == old(emitted) && endedChannelListeners == old(endedChannelListeners) + {socket.id}
    {
      if socket.socketType == ClientType && socket.id !in endedChannelListeners {
        if stream != "" {
          emitted := emitted + [ServerEvent(SocketEventName(stream), Some(socket.id))];
        } else {
          endedChannelListeners := endedChannelListeners + {socket.id};
        }
      }
    }

    /** `onListening` */
    method OnListening()
      requires Valid()
      modifies this`isListening, this`emitted
      ensures Valid()
      ensures isListening
      ensures emitted == old(emitted) + [ServerEvent("listening", None)]
    {
      isListening := true;
      emitted := emitted + [ServerEvent("listening", None)];
    }

    /** `close(keepSocketsOpen)`: the server stops listening and, unless asked to keep
        them open, calls `disconnect` once on every socket in `clients`. */
    method Close(keepSocketsOpen: bool)
      requires Valid()
      modifies this`isListening, this`disconnectCalls
      ensures Valid()
      ensures !isListening
      ensures old(disconnectCalls) <= disconnectCalls
      ensures keepSocketsOpen ==> disconnectCalls == old(disconnectCalls)
      ensures !keepSocketsOpen ==> CallsEachOnce(clients.Keys, disconnectCalls[|old(disconnectCalls)|..])
    {
      isListening := false;
      if !keepSocketsOpen {
        ghost var before := disconnectCalls;
        var remaining := clients.Keys;
        while remaining != {}
          invariant remaining <= clients.Keys
          invariant !isListening && before <= disconnectCalls
          invariant CallsEachOnce(clients.Keys - remaining, disconnectCalls[|before|..])
          decreases remaining
        {
          var id :| id in remaining;
          ghost var done := disconnectCalls[|before|..];
          disconnectCalls := disconnectCalls + [id];
          assert disconnectCalls[|before|..] == done + [id];
          remaining := remaining - {id};
        }
      }
    }
  }

  /** Every socket the server creates draws its call ids from the server's one
      generator, so two sockets never receive the same id from the built-in counter. */
  lemma {:induction false} SharedCounterNeverRepeats(s: Server, a: SocketId, b: SocketId, i: nat, j: nat)
    requires s.Valid() && s.callIdGenerator.custom.None?
    requires a in s.pendingClients && b in s.pendingClients
    requires i < j < |s.pendingClients[a].callIds.issued|
    ensures s.pendingClients[a].callIds == s.pendingClients[b].callIds
    ensures s.pendingClients[a].callIds.issued[i] < s.pendingClients[b].callIds.issued[j]
  {
    CounterIdsIncrease(s.callIdGenerator.calls);
  }
}
