/**
 * The chat socket client of lib/websocket.ts. `ChatWebSocket` keeps the
 * socket's ready state, the conversation it is bound to, the two callback
 * sets and the reconnect counter and timer; browser events (open, frame,
 * close, the reconnect timer) are methods the environment calls. Callbacks
 * are named by numbers, and what the socket transmits and what callbacks
 * are told is kept as a log.
 */
module WebSocket {
  import opened Wrappers
  import Types
  import Json

  /** `config.limits.maxReconnectAttempts`. */
  const MaxReconnectAttempts: nat := 5

  /** `config.timeouts.websocketReconnect`: the longest wait between reconnects, in ms. */
  const ReconnectCap: nat := 30000

  function Pow2(n: nat): (r: nat)
    ensures r >= 1
  {
    if n == 0 then 1 else 2 * Pow2(n - 1)
  }

  /** `Math.min(1000 * Math.pow(2, attempts), websocketReconnect)`. */
  function ReconnectDelay(attempts: nat): (r: nat)
    ensures r <= ReconnectCap
    ensures attempts >= 1 ==> r >= 2000
  {
    var d := 1000 * Pow2(attempts);
    if d < ReconnectCap then d else ReconnectCap
  }

  /** The waits before reconnects 1 to 5 of one failure streak. */
  const Backoff: seq<nat> := [2000, 4000, 8000, 16000, 30000]

  /** The delay doubles from 2 s and is capped at 30 s: reconnect k waits `Backoff[k-1]`. */
  lemma {:induction false} BackoffSchedule(attempts: nat)
    requires 1 <= attempts
    ensures attempts <= MaxReconnectAttempts ==> ReconnectDelay(attempts) == Backoff[attempts - 1]
    ensures attempts >= MaxReconnectAttempts ==> ReconnectDelay(attempts) == ReconnectCap
    ensures ReconnectDelay(attempts) <= ReconnectDelay(attempts + 1)
  {
    if attempts >= MaxReconnectAttempts {
      PowGrows(attempts);
    }
    assert Pow2(1) == 2 && Pow2(2) == 4 && Pow2(3) == 8 && Pow2(4) == 16;
  }

  lemma {:induction false} PowGrows(n: nat)
    requires n >= 5
    ensures Pow2(n) >= 32
  {
    if n > 5 {
      PowGrows(n - 1);
    } else {
      assert Pow2(5) == 2 * Pow2(4) == 2 * 2 * Pow2(3);
    }
  }

  /** The URL of `connect`: the token, when stored and non-empty, goes in the query. */
  function ChatUrl(base: string, conversationId: string, token: Option<string>): (r: string)
    ensures base + "/ws/chat/" + conversationId <= r
  {
    base + "/ws/chat/" + conversationId
    + (if token.Some? && token.value != "" then "?token=" + token.value else "")
  }

  /** `JSON.stringify({ content })`. */
  function SendFrame(content: string): string
  {
    "{\"content\":" + Json.Quote(content) + "}"
  }

  /** The server reads back exactly the content that was sent. */
  lemma SendFrameCarries(content: string)
    ensures var f := SendFrame(content);
      |f| >= 11 && f[..11] == "{\"content\":" && Json.ParseString(f[11..]) == Some((content, "}"))
  {
    var f := SendFrame(content);
    assert f[11..] == Json.Quote(content) + "}";
    Json.QuoteRoundTrip(content, "}");
  }

  /** JavaScript truthiness of `this.conversationId`. */
  predicate Truthy(id: Option<string>)
  {
    id.Some? && id.value != ""
  }

  datatype ReadyState = Connecting | Open | Closing | Closed

  /** What the registered callbacks were told, and which callbacks were registered. */
  datatype Notice =
    | MessageNotice(message: Types.Message, to: set<nat>)
    | ConnectionNotice(connected: bool, to: set<nat>)

  class ChatWebSocket {
    var socket: Option<ReadyState>
    var conversationId: Option<string>
    var messageCallbacks: set<nat>
    var connectionCallbacks: set<nat>
    var reconnectAttempts: nat
    /** The wait of the pending reconnect timer, in ms. */
    var reconnectTimeout: Option<nat>
    /** The URL of the most recent socket. */
    var url: string
    /** Frames transmitted, oldest first. */
    var sent: seq<string>
    var notices: seq<Notice>

    /** The counter never passes the cap. */
    ghost predicate Valid()
      reads this
    {
      reconnectAttempts <= MaxReconnectAttempts
    }

    constructor()
      ensures Valid()
      ensures socket == None && conversationId == None && reconnectAttempts == 0
      ensures reconnectTimeout == None && messageCallbacks == {} && connectionCallbacks == {}
      ensures sent == [] && notices == []
    {
      socket := None;
      conversationId := None;
      messageCallbacks := {};
      connectionCallbacks := {};
      reconnectAttempts := 0;
      reconnectTimeout := None;
      url := "";
      sent := [];
      notices := [];
    }

    function IsConnected(): (r: bool)
      reads this
      ensures r <==> socket == Some(Open)
    {
      socket == Some(Open)
    }

    /** Clears the timer and the socket, unbinds the conversation and zeroes the counter. */
    method Disconnect()
      modifies this
      ensures socket == None && conversationId == None && reconnectAttempts == 0
      ensures reconnectTimeout == None
      ensures messageCallbacks == old(messageCallbacks) && connectionCallbacks == old(connectionCallbacks)
      ensures url == old(url) && sent == old(sent) && notices == old(notices)
    {
      reconnectTimeout := None;
      socket := None;
      conversationId := None;
      reconnectAttempts := 0;
    }

    /**
     * `connect(id)`: nothing happens when the socket is already open on that
     * conversation; otherwise the client disconnects, binds to `id` and
     * opens a socket (`createFails` is a `WebSocket` constructor that
     * throws, after which there is no socket).
     */
    method Connect(id: string, base: string, token: Option<string>, createFails: bool)
      modifies this
      ensures old(socket) == Some(Open) && old(conversationId) == Some(id) ==>
        && socket == old(socket) && conversationId == old(conversationId)
        && reconnectAttempts == old(reconnectAttempts) && reconnectTimeout == old(reconnectTimeout)
        && url == old(url)
      ensures !(old(socket) == Some(Open) && old(conversationId) == Some(id)) ==>
        && conversationId == Some(id) && reconnectAttempts == 0 && reconnectTimeout == None
        && socket == (if createFails then None else Some(Connecting))
        && url == ChatUrl(base, id, token)
      ensures messageCallbacks == old(messageCallbacks) && connectionCallbacks == old(connectionCallbacks)
      ensures sent == old(sent) && notices == old(notices)
    {
      if socket == Some(Open) && conversationId == Some(id) {
        return;
      }
      Disconnect();
      conversationId := Some(id);
      url := ChatUrl(base, id, token);
      if !createFails {
        socket := Some(Connecting);
      }
    }

    /** `onopen`: the counter is reset and the connection callbacks hear `true`. */
    method OnOpen()
      modifies this
      requires socket == Some(Connecting)
      ensures socket == Some(Open) && reconnectAttempts == 0
      ensures notices == old(notices) + [ConnectionNotice(true, connectionCallbacks)]
      ensures conversationId == old(conversationId) && reconnectTimeout == old(reconnectTimeout)
      ensures messageCallbacks == old(messageCallbacks) && connectionCallbacks == old(connectionCallbacks)
      ensures url == old(url) && sent == old(sent)
    {
      socket := Some(Open);
      reconnectAttempts := 0;
      notices := notices + [ConnectionNotice(true, connectionCallbacks)];
    }

    /**
     * `onmessage`: `frame` is what `JSON.parse` gives, `None` when it throws;
     * an unparseable frame is skipped and no callback fires.
     */
    method OnFrame(frame: Option<Types.Message>)
      modifies this
      requires socket == Some(Open)
      ensures frame.None? ==> notices == old(notices)
      ensures frame.Some? ==> notices == old(notices) + [MessageNotice(frame.value, messageCallbacks)]
      ensures socket == old(socket) && conversationId == old(conversationId)
      ensures reconnectAttempts == old(reconnectAttempts) && reconnectTimeout == old(reconnectTimeout)
      ensures messageCallbacks == old(messageCallbacks) && connectionCallbacks == old(connectionCallbacks)
      ensures url == old(url) && sent == old(sent)
    {
      if frame.Some? {
        notices := notices + [MessageNotice(frame.value, messageCallbacks)];
      }
    }

    /**
     * `attemptReconnect`: nothing once the counter has reached the cap or
     * when no conversation is bound; otherwise the counter goes up by one
     * and a reconnect is scheduled after `ReconnectDelay` of the new count.
     */
    method AttemptReconnect()
      modifies this
      ensures reconnectAttempts >= old(reconnectAttempts)
      ensures old(reconnectAttempts) >= MaxReconnectAttempts || !Truthy(old(conversationId)) ==>
        reconnectAttempts == old(reconnectAttempts) && reconnectTimeout == old(reconnectTimeout)
      ensures old(reconnectAttempts) < MaxReconnectAttempts && Truthy(old(conversationId)) ==>
        && reconnectAttempts == old(reconnectAttempts) + 1
        && reconnectTimeout == Some(ReconnectDelay(reconnectAttempts))
      ensures old(Valid()) ==> Valid()
      ensures socket == old(socket) && conversationId == old(conversationId)
      ensures messageCallbacks == old(messageCallbacks) && connectionCallbacks == old(connectionCallbacks)
      ensures url == old(url) && sent == old(sent) && notices == old(notices)
    {
      if reconnectAttempts >= MaxReconnectAttempts || !Truthy(conversationId) {
        return;
      }
      reconnectAttempts := reconnectAttempts + 1;
      reconnectTimeout := Some(ReconnectDelay(reconnectAttempts));
    }

    /** `onclose`: the connection callbacks hear `false`, then a reconnect is attempted. */
    method OnClose()
      modifies this
      requires socket.Some?
      ensures socket == Some(Closed)
      ensures notices == old(notices) + [ConnectionNotice(false, connectionCallbacks)]
      ensures old(reconnectAttempts) >= MaxReconnectAttempts || !Truthy(old(conversationId)) ==>
        reconnectAttempts == old(reconnectAttempts) && reconnectTimeout == old(reconnectTimeout)
      ensures old(reconnectAttempts) < MaxReconnectAttempts && Truthy(old(conversationId)) ==>
        && reconnectAttempts == old(reconnectAttempts) + 1
        && reconnectTimeout == Some(ReconnectDelay(reconnectAttempts))
      ensures old(Valid()) ==> Valid()
      ensures conversationId == old(conversationId)
      ensures messageCallbacks == old(messageCallbacks) && connectionCallbacks == old(connectionCallbacks)
      ensures url == old(url) && sent == old(sent)
    {
      socket := Some(Closed);
      notices := notices + [ConnectionNotice(false, connectionCallbacks)];
      AttemptReconnect();
    }

    /**
     * The reconnect timer as written: it calls `connect`, whose
     * `disconnect` zeroes the counter, so no failure streak ever reaches the
     * cap (see `FailureStreakAsWritten`).
     */
    method TimerFiresAsWritten(base: string, token: Option<string>, createFails: bool)
      modifies this
      requires reconnectTimeout.Some? && socket != Some(Open)
      ensures Truthy(old(conversationId)) ==>
        && conversationId == old(conversationId) && reconnectAttempts == 0
        && reconnectTimeout == None && url == ChatUrl(base, conversationId.value, token)
        && socket == (if createFails then None else Some(Connecting))
      ensures !Truthy(old(conversationId)) ==>
        && conversationId == old(conversationId) && reconnectAttempts == old(reconnectAttempts)
        && reconnectTimeout == old(reconnectTimeout) && socket == old(socket) && url == old(url)
      ensures messageCallbacks == old(messageCallbacks) && connectionCallbacks == old(connectionCallbacks)
      ensures sent == old(sent) && notices == old(notices)
    {
      if Truthy(conversationId) {
        Connect(conversationId.value, base, token, createFails);
      }
    }

    /**
     * The reconnect timer with the counter carried across the reconnect:
     * only a successful open (`OnOpen`) or an explicit `Disconnect` resets
     * it, so a failure streak ends after `MaxReconnectAttempts` reconnects.
     */
    method TimerFires(base: string, token: Option<string>, createFails: bool)
      modifies this
      requires reconnectTimeout.Some? && socket != Some(Open)
      ensures Truthy(old(conversationId)) ==>
        && conversationId == old(conversationId) && reconnectAttempts == old(reconnectAttempts)
        && reconnectTimeout == None && url == ChatUrl(base, conversationId.value, token)
        && socket == (if createFails then None else Some(Connecting))
      ensures !Truthy(old(conversationId)) ==>
        && conversationId == old(conversationId) && reconnectAttempts == old(reconnectAttempts)
        && reconnectTimeout == old(reconnectTimeout) && socket == old(socket) && url == old(url)
      ensures messageCallbacks == old(messageCallbacks) && connectionCallbacks == old(connectionCallbacks)
      ensures sent == old(sent) && notices == old(notices)
    {
      if Truthy(conversationId) {
        var attempts := reconnectAttempts;
        Connect(conversationId.value, base, token, createFails);
        reconnectAttempts := attempts;
      }
    }

    /** `send`: the frame goes out only while the socket is open, else it is dropped. */
    method Send(content: string) returns (transmitted: bool)
      modifies this
      ensures transmitted <==> old(socket) == Some(Open)
      ensures sent == old(sent) + (if transmitted then [SendFrame(content)] else [])
      ensures socket == old(socket) && conversationId == old(conversationId)
      ensures reconnectAttempts == old(reconnectAttempts) && reconnectTimeout == old(reconnectTimeout)
      ensures messageCallbacks == old(messageCallbacks) && connectionCallbacks == old(connectionCallbacks)
      ensures url == old(url) && notices == old(notices)
    {
      transmitted := socket == Some(Open);
      if transmitted {
        sent := sent + [SendFrame(content)];
      }
    }

    /** `onMessage(callback)`; the returned unsubscribe is `RemoveMessageCallback`. */
    method OnMessage(callback: nat)
      modifies this
      ensures messageCallbacks == old(messageCallbacks) + {callback}
      ensures connectionCallbacks == old(connectionCallbacks)
      ensures socket == old(socket) && conversationId == old(conversationId)
      ensures reconnectAttempts == old(reconnectAttempts) && reconnectTimeout == old(reconnectTimeout)
      ensures url == old(url) && sent == old(sent) && notices == old(notices)
    {
      messageCallbacks := messageCallbacks + {callback};
    }

    /** The unsubscribe function: removes exactly that callback. */
    method RemoveMessageCallback(callback: nat)
      modifies this
      ensures messageCallbacks == old(messageCallbacks) - {callback}
      ensures connectionCallbacks == old(connectionCallbacks)
      ensures socket == old(socket) && conversationId == old(conversationId)
      ensures reconnectAttempts == old(reconnectAttempts) && reconnectTimeout == old(reconnectTimeout)
      ensures url == old(url) && sent == old(sent) && notices == old(notices)
    {
      messageCallbacks := messageCallbacks - {callback};
    }

    /** `onConnectionChange(callback)`; the unsubscribe is `RemoveConnectionCallback`. */
    method OnConnectionChange(callback: nat)
      modifies this
      ensures connectionCallbacks == old(connectionCallbacks) + {callback}
      ensures messageCallbacks == old(messageCallbacks)
      ensures socket == old(socket) && conversationId == old(conversationId)
      ensures reconnectAttempts == old(reconnectAttempts) && reconnectTimeout == old(reconnectTimeout)
      ensures url == old(url) && sent == old(sent) && notices == old(notices)
    {
      connectionCallbacks := connectionCallbacks + {callback};
    }

    method RemoveConnectionCallback(callback: nat)
      modifies this
      ensures connectionCallbacks == old(connectionCallbacks) - {callback}
      ensures messageCallbacks == old(messageCallbacks)
      ensures socket == old(socket) && conversationId == old(conversationId)
      ensures reconnectAttempts == old(reconnectAttempts) && reconnectTimeout == old(reconnectTimeout)
      ensures url == old(url) && sent == old(sent) && notices == old(notices)
    {
      connectionCallbacks := connectionCallbacks - {callback};
    }

    /**
     * A server that stays unreachable, as written: right after `connect`,
     * each of `k` rounds closes the socket and lets the reconnect timer
     * fire. Every round schedules a reconnect, always after 2000 ms.
     */
    method FailureStreakAsWritten(k: nat, base: string, token: Option<string>)
      returns (delays: seq<nat>)
      modifies this
      requires socket == Some(Connecting) && Truthy(conversationId)
      requires reconnectAttempts == 0 && reconnectTimeout == None
      ensures delays == seq(k, _ => 2000)
      ensures conversationId == old(conversationId) && reconnectAttempts == 0
    {
      delays := [];
      var i := 0;
      while i < k
        invariant 0 <= i <= k
        invariant socket == Some(Connecting) && conversationId == old(conversationId)
        invariant reconnectAttempts == 0 && reconnectTimeout == None
        invariant delays == seq(i, _ => 2000)
      {
        OnClose();
        assert reconnectTimeout == Some(ReconnectDelay(1));
        assert Pow2(1) == 2;
        delays := delays + [reconnectTimeout.value];
        TimerFiresAsWritten(base, token, false);
        i := i + 1;
      }
    }

    /**
     * The same streak with the corrected timer: the waits are `Backoff`,
     * one per round, and after `MaxReconnectAttempts` rounds nothing more is
     * scheduled.
     */
    method FailureStreak(k: nat, base: string, token: Option<string>)
      returns (delays: seq<nat>)
      modifies this
      requires socket == Some(Connecting) && Truthy(conversationId)
      requires reconnectAttempts == 0 && reconnectTimeout == None
      ensures delays == Backoff[..if k < MaxReconnectAttempts then k else MaxReconnectAttempts]
      ensures |delays| <= MaxReconnectAttempts
      ensures k > MaxReconnectAttempts ==> socket == Some(Closed) && reconnectTimeout == None
      ensures Valid()
    {
      delays := [];
      var i := 0;
      while i < k && i < MaxReconnectAttempts
        invariant 0 <= i <= k && i <= MaxReconnectAttempts
        invariant socket == Some(Connecting) && conversationId == old(conversationId)
        invariant reconnectAttempts == i && reconnectTimeout == None
        invariant delays == Backoff[..i]
      {
        OnClose();
        BackoffSchedule(i + 1);
        delays := delays + [reconnectTimeout.value];
        TimerFires(base, token, false);
        i := i + 1;
      }
      if i < k {
        // The cap is reached: the next close schedules nothing.
        OnClose();
        assert reconnectTimeout == None;
      }
    }
  }
}
