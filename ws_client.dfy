/** The bare audio WebSocket client (AudioRouterClient/wsClient.js). It keeps the
    open/close bookkeeping of the router client, but nothing in it ever sets
    `_reconnect` and it has no `connect` method, so a close never schedules a
    reconnect; errors set a field (`connected`) that the send gate does not read. */
module WsClient {
  import opened Js

  /** Module-level `reconnectAttempts`. */
  const RECONNECT_ATTEMPTS: int := 5

  datatype Options = Options(
    wsUrlBinary: Option<string>, account: Option<string>, room: Option<string>,
    participant: Option<string>)

  datatype OptionsError = NoOptions | NoWebSocketUrl | NoAccount | NoRoom | NoParticipant

  /** The first check the constructor fails, in the order it makes them. */
  function OptionsCheck(options: Option<Options>): (r: Option<OptionsError>)
    ensures r.None? <==> (options.Some? && TruthyString(options.value.wsUrlBinary)
                          && TruthyString(options.value.account) && TruthyString(options.value.room)
                          && TruthyString(options.value.participant))
    ensures r == Some(NoParticipant) ==> (options.Some? && TruthyString(options.value.wsUrlBinary)
                                          && TruthyString(options.value.account) && TruthyString(options.value.room))
  {
    if options.None? then Some(NoOptions)
    else if !TruthyString(options.value.wsUrlBinary) then Some(NoWebSocketUrl)
    else if !TruthyString(options.value.account) then Some(NoAccount)
    else if !TruthyString(options.value.room) then Some(NoRoom)
    else if !TruthyString(options.value.participant) then Some(NoParticipant)
    else None
  }

  /** Events the client emits. */
  datatype Event = Connected | Closed | Audio(data: seq<int>)

  /** The fields the socket callbacks drive; `undefined` is `None` for the two that
      start unset, and `false` for the flags that are only ever tested. */
  datatype State = State(
    wsConnected: bool, wsReconnecting: bool, reconnectAttempts: Option<int>,
    connected: Option<bool>, events: seq<Event>)

  /** Socket notifications. */
  datatype Notification = Open | Close | Error

  /** `_wsopen`, `_wsclosed` and `_wserror`. */
  function Step(s: State, n: Notification): State
  {
    match n
    case Open =>
      s.(wsConnected := true, wsReconnecting := false,
         reconnectAttempts := Some(RECONNECT_ATTEMPTS), events := s.events + [Connected])
    case Close => s.(wsConnected := false)
    case Error => s.(connected := Some(false))
  }

  function Run(s: State, ns: seq<Notification>): State
    decreases |ns|
  {
    if ns == [] then s else Run(Step(s, ns[0]), ns[1..])
  }

  /** Whether the send gate is open after `ns`: the last open or close decides,
      errors are ignored. */
  function GateAfter(initial: bool, ns: seq<Notification>): bool
    decreases |ns|
  {
    if ns == [] then initial
    else if ns[|ns| - 1] == Open then true
    else if ns[|ns| - 1] == Close then false
    else GateAfter(initial, ns[..|ns| - 1])
  }

  lemma {:induction false} RunSnoc(s: State, ns: seq<Notification>, n: Notification)
    ensures Run(s, ns + [n]) == Step(Run(s, ns), n)
    decreases |ns|
  {
    if ns != [] {
      assert (ns + [n])[1..] == ns[1..] + [n];
      RunSnoc(Step(s, ns[0]), ns[1..], n);
    }
  }

  /** Errors never change whether audio is sent: after any notifications, the gate
      is open exactly when the last open-or-close notification was an open. */
  lemma {:induction false} SendGate(s: State, ns: seq<Notification>)
    ensures Run(s, ns).wsConnected == GateAfter(s.wsConnected, ns)
    decreases |ns|
  {
    if ns != [] {
      var init := ns[..|ns| - 1];
      assert ns == init + [ns[|ns| - 1]];
      RunSnoc(s, init, ns[|ns| - 1]);
      SendGate(s, init);
    }
  }

  /** Notifications only append to the event log, and only opens append. */
  lemma {:induction false} EventsOnlyFromOpens(s: State, ns: seq<Notification>)
    ensures |Run(s, ns).events| == |s.events| + Count(ns, Open)
    ensures Run(s, ns).events[..|s.events|] == s.events
    decreases |ns|
  {
    if ns != [] {
      EventsOnlyFromOpens(Step(s, ns[0]), ns[1..]);
      assert ns == [ns[0]] + ns[1..];
    }
  }

  function Count(ns: seq<Notification>, n: Notification): nat
    decreases |ns|
  {
    if ns == [] then 0 else (if ns[0] == n then 1 else 0) + Count(ns[1..], n)
  }

  class WsClient {
    const url: string
    const account: string
    const room: string
    const participant: string

    var wsConnected: bool
    var wsReconnecting: bool
    var reconnectAttempts: Option<int>
    var connected: Option<bool>
    var events: seq<Event>
    /** Audio handed to the socket. */
    var sent: seq<seq<int>>

    function Current(): State
      reads this
    {
      State(wsConnected, wsReconnecting, reconnectAttempts, connected, events)
    }

    /** The constructor after validation: the socket is opened on `<url>/audio`. */
    constructor (options: Options)
      requires OptionsCheck(Some(options)).None?
      ensures url == options.wsUrlBinary.value + "/audio"
      ensures account == options.account.value && room == options.room.value
      ensures participant == options.participant.value
      ensures Current() == State(false, false, None, None, []) && sent == []
    {
      url := options.wsUrlBinary.value + "/audio";
      account := options.account.value;
      room := options.room.value;
      participant := options.participant.value;
      wsConnected := false;
      wsReconnecting := false;
      reconnectAttempts := None;
      connected := None;
      events := [];
      sent := [];
    }

    /** `new WSClient(options)`. */
    static method Create(options: Option<Options>) returns (r: Result<WsClient, OptionsError>)
      ensures r.Err? <==> OptionsCheck(options).Some?
      ensures r.Err? ==> r.error == OptionsCheck(options).value
      ensures r.Ok? ==> (fresh(r.value) && r.value.Current() == State(false, false, None, None, [])
                         && r.value.url == options.value.wsUrlBinary.value + "/audio")
    {
      var check := OptionsCheck(options);
      if check.Some? {
        return Err(check.value);
      }
      var client := new WsClient(options.value);
      return Ok(client);
    }

    /** `send`: only while the socket is open. */
    method Send(audio: seq<int>)
      modifies this`sent
      ensures wsConnected ==> sent == old(sent) + [audio]
      ensures !wsConnected ==> sent == old(sent)
    {
      if wsConnected {
        sent := sent + [audio];
      }
    }

    /** The message handler: received data is re-emitted unchanged. */
    method OnMessage(data: seq<int>)
      modifies this`events
      ensures events == old(events) + [Audio(data)]
    {
      events := events + [Audio(data)];
    }

    method WsOpen()
      modifies this`wsConnected, this`wsReconnecting, this`reconnectAttempts, this`events
      ensures Current() == Step(old(Current()), Notification.Open)
    {
      wsConnected := true;
      wsReconnecting := false;
      reconnectAttempts := Some(RECONNECT_ATTEMPTS);
      events := events + [Connected];
    }

    /** `_wsclosed`; its reconnect branch tests `_reconnect`, which is never set. */
    method WsClosed()
      modifies this`wsConnected
      ensures Current() == Step(old(Current()), Notification.Close)
    {
      wsConnected := false;
    }

    method WsError()
      modifies this`connected
      ensures Current() == Step(old(Current()), Notification.Error)
    {
      connected := Some(false);
    }

    /** `close`: the socket always exists here, and `closed` is always emitted. */
    method Close()
      modifies this`events
      ensures events == old(events) + [Closed]
    {
      events := events + [Closed];
    }
  }
}
