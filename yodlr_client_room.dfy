/** One joined room (lib/YodlrClientRoom.js). The room keeps a roster of users and a
    few room fields up to date from the signalling messages it is handed; every
    message names a room, and a room acts only on messages that name it. Leaving the
    room drops its socket, after which sending fails with an error event. */
module YodlrClientRoom {
  import opened Js
  import CaptainCabinetClient

  /** The signalling socket; only whether its `emit` is a function matters here. */
  datatype Socket = Socket(emitIsFunction: bool)

  /** The client configuration; the room reads the upload server's address from it. */
  datatype Config = Config(ccUrl: Option<string>, ccPort: Option<int>)

  /** Constructor options; `audio` is whether an audio object was passed. */
  datatype Options = Options(socket: Option<Socket>, name: Option<string>, audio: bool, config: Option<Config>)

  /** The room's own check, or the one the upload client it creates fails. */
  datatype OptionsError = IncorrectOptions | Cabinet(error: CaptainCabinetClient.OptionsError)

  /** The options the room hands to the upload client it creates. */
  function CabinetOptions(config: Config): CaptainCabinetClient.Options
  {
    CaptainCabinetClient.Options(config.ccUrl, config.ccPort, Some(true))
  }

  predicate RoomOptionsPresent(options: Options)
  {
    options.socket.Some? && TruthyString(options.name) && options.audio && options.config.Some?
  }

  /** The first check the constructor fails: its own four, then the upload client's. */
  function OptionsCheck(options: Options): (r: Option<OptionsError>)
    ensures r == Some(IncorrectOptions) <==> !RoomOptionsPresent(options)
    ensures r.None? <==> (RoomOptionsPresent(options) && TruthyString(options.config.value.ccUrl)
                          && TruthyInt(options.config.value.ccPort))
  {
    if !RoomOptionsPresent(options) then Some(IncorrectOptions)
    else
      match CaptainCabinetClient.OptionsCheck(Some(CabinetOptions(options.config.value)))
      case Some(e) => Some(Cabinet(e))
      case None => None
  }

  /** `toLowerCase()`, for ASCII letters. */
  function Lower(s: string): (r: string)
    ensures |r| == |s|
    ensures forall i :: 0 <= i < |r| ==> r[i] == LowerChar(s[i])
    ensures forall i :: 0 <= i < |r| ==> !('A' <= r[i] <= 'Z')
    decreases |s|
  {
    if s == [] then [] else [LowerChar(s[0])] + Lower(s[1..])
  }

  /** The value a user's `userTalking` carries: a boolean, a string (as some servers
      send it), or nothing. */
  datatype Talking = Bool(b: bool) | Text(s: string) | Absent

  datatype User = User(
    id: string, name: string, userTalking: Talking, speakerEnabled: Option<bool>,
    microphoneEnabled: Option<bool>)

  /** The coercion both `_userJoined` and `_userChanged` apply: a string `userTalking`
      becomes `true` exactly when it is "true"; anything else is kept. */
  function Normalize(u: User): (r: User)
    ensures !r.userTalking.Text?
    ensures u.userTalking.Text? ==> r.userTalking == Bool(u.userTalking.s == "true")
    ensures r.(userTalking := u.userTalking) == u
  {
    if u.userTalking.Text? then u.(userTalking := Bool(u.userTalking.s == "true")) else u
  }

  /** The room fields `_joinedRoom` copies from its message besides `lockEnabled`. */
  datatype Details = Details(
    roomId: Option<string>, roomType: Option<string>, presentationActive: Option<bool>,
    presentationFile: Option<string>, presentationPage: Option<int>,
    capabilities: Option<seq<string>>)

  const NO_DETAILS: Details := Details(None, None, None, None, None, None)

  /** The signalling messages the room handles; each names the room it is for. */
  datatype Message =
    | JoinedMsg(room: Option<string>, lockEnabled: Option<bool>, details: Details)
    | LeftMsg(room: Option<string>)
    | UserJoinedMsg(room: Option<string>, user: User)
    | UserChangedMsg(room: Option<string>, user: User)
    | UserLeftMsg(room: Option<string>, user: User)
    | LockMsg(room: Option<string>, lockEnabled: Option<bool>)

  /** Events the room emits. */
  datatype Event =
    | JoinedRoom(room: string, lockEnabled: Option<bool>, details: Details)
    | LeftRoom(room: string)
    | UserJoined(user: User)
    | UserChanged(user: User)
    | UserLeft(user: User)
    | SetLockEnabled(setLockEnabled: Option<bool>, roomName: string)
    | Error(message: string)

  /** The record a message sends over the socket. */
  type Payload = map<string, string>

  datatype Outbound = Outbound(kind: string, data: Payload)

  const NOT_CONNECTED: string := "Socket not connected"

  /** `_isMine`: the message names this room. */
  predicate IsMine(room: Option<string>, name: string)
  {
    room == Some(name)
  }

  /** Every roster entry sits under its own id and has had its `userTalking` coerced. */
  ghost predicate RosterValid(users: map<string, User>)
  {
    forall id :: id in users ==> users[id].id == id && !users[id].userTalking.Text?
  }

  /** Whether message `m`, handled by room `name`, writes roster entry `id`. */
  predicate Touches(name: string, m: Message, id: string)
  {
    IsMine(m.room, name) && (m.UserJoinedMsg? || m.UserChangedMsg? || m.UserLeftMsg?) && m.user.id == id
  }

  datatype RoomState = RoomState(
    sock: Option<Socket>, lockEnabled: Option<bool>, details: Details, users: map<string, User>,
    events: seq<Event>, sent: seq<Outbound>)

  /** The room's response to one message. */
  function Handle(s: RoomState, name: string, m: Message): (r: RoomState)
    ensures !IsMine(m.room, name) ==> r == s
    ensures IsMine(m.room, name) ==> |r.events| == |s.events| + 1 && r.events[..|s.events|] == s.events
    ensures forall id :: !Touches(name, m, id) ==>
      (id in r.users <==> id in s.users) && (id in s.users ==> r.users[id] == s.users[id])
    ensures RosterValid(s.users) ==> RosterValid(r.users)
    ensures r.sock == s.sock || (r.sock.None? && m.LeftMsg?)
    ensures r.sent == s.sent
  {
    if !IsMine(m.room, name) then s
    else
      match m
      case JoinedMsg(_, lock, details) =>
        s.(lockEnabled := lock, details := details, events := s.events + [JoinedRoom(name, lock, details)])
      case LeftMsg(_) =>
        s.(sock := None, events := s.events + [LeftRoom(name)])
      case UserJoinedMsg(_, user) =>
        var u := Normalize(user);
        s.(users := s.users[u.id := u], events := s.events + [UserJoined(u)])
      case UserChangedMsg(_, user) =>
        var u := Normalize(user);
        s.(users := s.users[u.id := u], events := s.events + [UserChanged(u)])
      case UserLeftMsg(_, user) =>
        s.(users := s.users - {user.id}, events := s.events + [UserLeft(user)])
      case LockMsg(_, lock) =>
        s.(lockEnabled := lock, events := s.events + [SetLockEnabled(lock, name)])
  }

  function Run(s: RoomState, name: string, ms: seq<Message>): RoomState
    decreases |ms|
  {
    if ms == [] then s else Run(Handle(s, name, ms[0]), name, ms[1..])
  }

  /** Whether `_send` reaches the socket. */
  predicate Connected(s: RoomState)
  {
    s.sock.Some? && s.sock.value.emitIsFunction
  }

  /** `_send(type, data)`. */
  function Send(s: RoomState, kind: string, data: Payload): (r: RoomState)
    ensures Connected(s) ==> r.sent == s.sent + [Outbound(kind, data)] && r.events == s.events
    ensures !Connected(s) ==> r.sent == s.sent && r.events == s.events + [Error(NOT_CONNECTED)]
    ensures r.(events := s.events, sent := s.sent) == s
  {
    if Connected(s) then s.(sent := s.sent + [Outbound(kind, data)])
    else s.(events := s.events + [Error(NOT_CONNECTED)])
  }

  /** Messages for other rooms, however many, leave the room exactly as it was. */
  lemma {:induction false} OtherRoomsIgnored(s: RoomState, name: string, ms: seq<Message>)
    requires forall i :: 0 <= i < |ms| ==> !IsMine(ms[i].room, name)
    ensures Run(s, name, ms) == s
    decreases |ms|
  {
    if ms != [] {
      OtherRoomsIgnored(s, name, ms[1..]);
    }
  }

  /** A roster that starts well formed stays so: every entry under its own id, none
      with a string `userTalking`. */
  lemma {:induction false} RosterStaysValid(s: RoomState, name: string, ms: seq<Message>)
    requires RosterValid(s.users)
    ensures RosterValid(Run(s, name, ms).users)
    decreases |ms|
  {
    if ms != [] {
      RosterStaysValid(Handle(s, name, ms[0]), name, ms[1..]);
    }
  }

  /** Entries of users that no message for this room names keep their values. */
  lemma {:induction false} UntouchedUsersKept(s: RoomState, name: string, ms: seq<Message>, id: string)
    requires forall i :: 0 <= i < |ms| ==> !Touches(name, ms[i], id)
    ensures id in Run(s, name, ms).users <==> id in s.users
    ensures id in s.users ==> Run(s, name, ms).users[id] == s.users[id]
    decreases |ms|
  {
    if ms != [] {
      UntouchedUsersKept(Handle(s, name, ms[0]), name, ms[1..], id);
    }
  }

  /** No message gives the room a socket back. */
  lemma {:induction false} SocketStaysGone(s: RoomState, name: string, ms: seq<Message>)
    requires s.sock.None?
    ensures Run(s, name, ms).sock.None?
    decreases |ms|
  {
    if ms != [] {
      SocketStaysGone(Handle(s, name, ms[0]), name, ms[1..]);
    }
  }

  /** Once the room has been told it was left, whatever else follows, sending no
      longer reaches a socket and emits an error instead. */
  lemma {:induction false} SendAfterLeaving(s: RoomState, name: string, ms: seq<Message>, i: nat,
                                            kind: string, data: Payload)
    requires i < |ms| && ms[i] == LeftMsg(Some(name))
    ensures var r := Run(s, name, ms);
            Send(r, kind, data).sent == r.sent
            && Send(r, kind, data).events == r.events + [Error(NOT_CONNECTED)]
    decreases |ms|
  {
    if i == 0 {
      SocketStaysGone(Handle(s, name, ms[0]), name, ms[1..]);
    } else {
      SendAfterLeaving(Handle(s, name, ms[0]), name, ms[1..], i - 1, kind, data);
    }
  }

  class YodlrClientRoom {
    const name: string
    const config: Config
    /** The upload client the room creates for itself. */
    const cabinet: CaptainCabinetClient.CaptainCabinetClient

    var sock: Option<Socket>
    var lockEnabled: Option<bool>
    var details: Details
    var users: map<string, User>
    var events: seq<Event>
    var sent: seq<Outbound>

    function State(): RoomState
      reads this
    {
      RoomState(sock, lockEnabled, details, users, events, sent)
    }

    /** The constructor after validation: the name is stored lower-cased, the lock is
        off and the roster empty. */
    constructor (options: Options, tmpFiles: CaptainCabinetClient.TmpFiles)
      requires OptionsCheck(options).None?
      ensures name == Lower(options.name.value) && config == options.config.value
      ensures fresh(cabinet) && cabinet.tmpFiles == tmpFiles
      ensures cabinet.server == CaptainCabinetClient.Server(config.ccUrl.value, config.ccPort.value)
      ensures State() == RoomState(options.socket, Some(false), NO_DETAILS, map[], [], [])
    {
      name := Lower(options.name.value);
      config := options.config.value;
      sock := options.socket;
      lockEnabled := Some(false);
      details := NO_DETAILS;
      users := map[];
      events := [];
      sent := [];
      cabinet := new CaptainCabinetClient.CaptainCabinetClient(CabinetOptions(options.config.value), tmpFiles);
    }

    /** `new YodlrClientRoom(options)`. */
    static method Create(options: Options, tmpFiles: CaptainCabinetClient.TmpFiles)
      returns (r: Result<YodlrClientRoom, OptionsError>)
      ensures r.Err? <==> OptionsCheck(options).Some?
      ensures r.Err? ==> r.error == OptionsCheck(options).value
      ensures r.Ok? ==> (fresh(r.value) && r.value.name == Lower(options.name.value)
                         && r.value.State() == RoomState(options.socket, Some(false), NO_DETAILS, map[], [], []))
    {
      var check := OptionsCheck(options);
      if check.Some? {
        return Err(check.value);
      }
      var room := new YodlrClientRoom(options, tmpFiles);
      return Ok(room);
    }

    /** `_joinedRoom(data)`. */
    method OnJoinedRoom(room: Option<string>, lock: Option<bool>, joined: Details)
      modifies this
      ensures State() == Handle(old(State()), name, JoinedMsg(room, lock, joined))
    {
      if !IsMine(room, name) {
        return;
      }
      lockEnabled := lock;
      details := joined;
      events := events + [JoinedRoom(name, lock, joined)];
    }

    /** `_leftRoom(data)`: the socket is dropped. */
    method OnLeftRoom(room: Option<string>)
      modifies this
      ensures State() == Handle(old(State()), name, LeftMsg(room))
    {
      if !IsMine(room, name) {
        return;
      }
      sock := None;
      events := events + [LeftRoom(name)];
    }

    /** `_userJoined(data)`. */
    method OnUserJoined(room: Option<string>, user: User)
      modifies this
      ensures State() == Handle(old(State()), name, UserJoinedMsg(room, user))
    {
      if !IsMine(room, name) {
        return;
      }
      var u := user;
      if u.userTalking.Text? {
        u := u.(userTalking := Bool(u.userTalking.s == "true"));
      }
      users := users[u.id := u];
      events := events + [UserJoined(u)];
    }

    /** `_userChanged(data)`. */
    method OnUserChanged(room: Option<string>, user: User)
      modifies this
      ensures State() == Handle(old(State()), name, UserChangedMsg(room, user))
    {
      if !IsMine(room, name) {
        return;
      }
      var u := user;
      if u.userTalking.Text? {
        u := u.(userTalking := Bool(u.userTalking.s == "true"));
      }
      users := users[u.id := u];
      events := events + [UserChanged(u)];
    }

    /** `_userLeft(data)`. */
    method OnUserLeft(room: Option<string>, user: User)
      modifies this
      ensures State() == Handle(old(State()), name, UserLeftMsg(room, user))
    {
      if !IsMine(room, name) {
        return;
      }
      users := users - {user.id};
      events := events + [UserLeft(user)];
    }

    /** `_setLockEnabled(data)`. */
    method OnSetLockEnabled(room: Option<string>, lock: Option<bool>)
      modifies this
      ensures State() == Handle(old(State()), name, LockMsg(room, lock))
    {
      if !IsMine(room, name) {
        return;
      }
      lockEnabled := lock;
      events := events + [SetLockEnabled(lock, name)];
    }

    /** `_send(type, data)`. */
    method SendMessage(kind: string, data: Payload)
      modifies this`events, this`sent
      ensures State() == Send(old(State()), kind, data)
    {
      if sock.Some? && sock.value.emitIsFunction {
        sent := sent + [Outbound(kind, data)];
      } else {
        events := events + [Error(NOT_CONNECTED)];
      }
    }
  }
}
