/** The file-upload client (CaptainCabinetClient/CaptainCabinetClient.js). An upload
    goes through a table of pending requests that the module keeps at top level, so
    that every client in the process shares it: a request is registered under its
    requestId, the server's fileId is recorded on it, and it is deleted when the
    server reports the upload finished, whether it failed or not. */
module CaptainCabinetClient {
  import opened Js

  datatype Options = Options(baseUrl: Option<string>, port: Option<int>, debug: Option<bool>)

  datatype OptionsError = NoOptions | NoUrl | NoPort

  /** The first check the constructor fails, in the order it makes them. */
  function OptionsCheck(options: Option<Options>): (r: Option<OptionsError>)
    ensures r.None? <==> (options.Some? && TruthyString(options.value.baseUrl)
                          && TruthyInt(options.value.port))
    ensures r == Some(NoPort) ==> options.Some? && TruthyString(options.value.baseUrl)
  {
    if options.None? then Some(NoOptions)
    else if !TruthyString(options.value.baseUrl) then Some(NoUrl)
    else if !TruthyInt(options.value.port) then Some(NoPort)
    else None
  }

  /** The server address, `baseUrl + ':' + port`. */
  function Server(baseUrl: string, port: int): string
  {
    baseUrl + ":" + IntToString(port)
  }

  /** The position of the last `c` in `s`. */
  function LastIndex(s: string, c: char): (r: Option<nat>)
    ensures r.Some? ==> (r.value < |s| && s[r.value] == c
                         && forall j :: r.value < j < |s| ==> s[j] != c)
    ensures r.None? ==> forall j :: 0 <= j < |s| ==> s[j] != c
    decreases |s|
  {
    if s == [] then None
    else if s[|s| - 1] == c then Some(|s| - 1)
    else LastIndex(s[..|s| - 1], c)
  }

  /** The address splits back at its last colon: whatever colons the base URL holds
      (a scheme always has one), the port follows the last one, and a non-negative
      port reads back from the digits after it. */
  lemma ServerSplits(baseUrl: string, port: int)
    ensures LastIndex(Server(baseUrl, port), ':') == Some(|baseUrl|)
    ensures Server(baseUrl, port)[..|baseUrl|] == baseUrl
    ensures port >= 0 ==> DigitsValue(Server(baseUrl, port)[|baseUrl| + 1..]) == port
  {
    var s := Server(baseUrl, port);
    assert s[|baseUrl|] == ':';
    assert s[|baseUrl| + 1..] == IntToString(port);
    assert forall j :: |baseUrl| < j < |s| ==> s[j] == IntToString(port)[j - |baseUrl| - 1];
    if port >= 0 {
      NatToStringValue(port);
    }
  }

  /** The one sanitisation applied to file names: every `/` becomes `:`. */
  function SanitizeChar(c: char): char
  {
    if c == '/' then ':' else c
  }

  /** `fileName.replace(/\//g, ':')`. */
  function Sanitize(name: string): (r: string)
    ensures |r| == |name|
    ensures forall i :: 0 <= i < |r| ==> r[i] == SanitizeChar(name[i])
    ensures forall i :: 0 <= i < |r| ==> r[i] != '/'
    decreases |name|
  {
    if name == [] then [] else [SanitizeChar(name[0])] + Sanitize(name[1..])
  }

  /** What the caller hands over: an HTML5 File object, of which only its `name` is
      modelled, or the path of a local file. */
  datatype FileRef = FileObject(name: string) | LocalPath(path: string)

  /** The name a request is registered under, before sanitising: the object's name
      when it is non-empty, otherwise `path.basename(file)`, supplied by the caller as
      `basename`. `path.basename` throws on a File object, hence `None`. */
  function ChosenName(file: FileRef, basename: string): Option<string>
  {
    match file
    case FileObject(name) => if name != "" then Some(name) else None
    case LocalPath(_) => Some(basename)
  }

  /** A pending request: `{fileName, requestId, file}`, and later `fileId`. */
  datatype Entry = Entry(fileName: string, requestId: string, file: FileRef, fileId: Option<string>)

  /** The shared `tmpFiles` table, keyed by requestId. */
  type Table = map<string, Entry>

  /** Every entry sits under its own requestId and carries a sanitised name. */
  ghost predicate TableValid(t: Table)
  {
    forall k :: k in t ==> t[k].requestId == k && forall i :: 0 <= i < |t[k].fileName| ==> t[k].fileName[i] != '/'
  }

  /** `t2` agrees with `t1` on every key except `key`. */
  ghost predicate SameExcept(t1: Table, t2: Table, key: string)
  {
    forall k :: k != key ==> (k in t1 <==> k in t2) && (k in t1 ==> t1[k] == t2[k])
  }

  /** Why an `error` event was emitted. */
  datatype Failure =
    | SocketError
    | ServerRefused
    | UnknownRequest(requestId: string)
    | InvalidRequestOrFile(requestId: string, fileId: Option<string>)
    | UploadFailed

  /** Events the client emits. */
  datatype Event =
    | Connected(server: string)
    | Error(failure: Failure)
    | FileUploadRequested(fileId: Option<string>, requestId: string)
    | FileUpload(requestId: string, fileId: Option<string>)
    | FileUploaded(fileUrl: Option<string>, fileSize: Option<int>, fileName: Option<string>,
                   fileId: Option<string>)

  /** What the client sends over its socket: the upload request, and the stream of
      the file's contents with its ids. */
  datatype Outbound =
    | UploadRequest(roomName: string, fileName: string, requestId: string, userId: string)
    | UploadStream(fileId: string, requestId: string, file: FileRef)

  /** The server's reply to an upload request; `error` is the truthiness of `data.error`. */
  datatype RequestedMsg = RequestedMsg(error: bool, requestId: string, fileId: Option<string>)

  /** The server's report that an upload ended. */
  datatype UploadedMsg = UploadedMsg(
    error: bool, requestId: string, fileUrl: Option<string>, fileSize: Option<int>,
    fileName: Option<string>, fileId: Option<string>)

  /** The shared table together with one client's event log and outgoing traffic. */
  datatype State = State(tmpFiles: Table, events: seq<Event>, sent: seq<Outbound>)

  /** `FileUploadRequest`, with the generated requestId as a parameter. */
  function Request(s: State, roomName: string, file: FileRef, basename: string, userId: string,
                   requestId: string): (r: State)
    ensures ChosenName(file, basename).None? ==> r == s
    ensures ChosenName(file, basename).Some? ==>
      (requestId in r.tmpFiles
       && r.tmpFiles[requestId] == Entry(Sanitize(ChosenName(file, basename).value), requestId, file, None)
       && r.sent == s.sent + [UploadRequest(roomName, Sanitize(ChosenName(file, basename).value), requestId, userId)])
    ensures SameExcept(s.tmpFiles, r.tmpFiles, requestId)
    ensures TableValid(s.tmpFiles) ==> TableValid(r.tmpFiles)
    ensures r.events == s.events
  {
    var name := ChosenName(file, basename);
    if name.None? then s
    else
      var fileName := Sanitize(name.value);
      State(s.tmpFiles[requestId := Entry(fileName, requestId, file, None)], s.events,
            s.sent + [UploadRequest(roomName, fileName, requestId, userId)])
  }

  /** Whether `_FileUpload` starts the stream: the request is pending and its recorded
      fileId is truthy and the same as the one given. */
  predicate Accepts(t: Table, requestId: string, fileId: Option<string>)
  {
    requestId in t && TruthyString(t[requestId].fileId) && t[requestId].fileId == fileId
  }

  /** `_FileUpload`: it announces the upload before checking it. */
  function Upload(s: State, requestId: string, fileId: Option<string>): (r: State)
    ensures r.tmpFiles == s.tmpFiles
    ensures |r.events| > |s.events| && r.events[..|s.events| + 1] == s.events + [FileUpload(requestId, fileId)]
    ensures Accepts(s.tmpFiles, requestId, fileId) ==>
      (r.sent == s.sent + [UploadStream(fileId.value, requestId, s.tmpFiles[requestId].file)]
       && |r.events| == |s.events| + 1)
    ensures !Accepts(s.tmpFiles, requestId, fileId) ==>
      (r.sent == s.sent && r.events[|r.events| - 1] == Error(InvalidRequestOrFile(requestId, fileId)))
  {
    var announced := s.events + [FileUpload(requestId, fileId)];
    if !Accepts(s.tmpFiles, requestId, fileId) then
      s.(events := announced + [Error(InvalidRequestOrFile(requestId, fileId))])
    else
      s.(events := announced, sent := s.sent + [UploadStream(fileId.value, requestId, s.tmpFiles[requestId].file)])
  }

  /** `_FileUploadRequested`: record the server's fileId on the pending request, then
      try the upload. */
  function Requested(s: State, data: RequestedMsg): (r: State)
    ensures (data.error || data.requestId !in s.tmpFiles) ==>
      (r.tmpFiles == s.tmpFiles && r.sent == s.sent
       && r.events == s.events + [Error(if data.error then ServerRefused else UnknownRequest(data.requestId))])
    ensures (!data.error && data.requestId in s.tmpFiles) ==>
      (data.requestId in r.tmpFiles
       && r.tmpFiles[data.requestId] == s.tmpFiles[data.requestId].(fileId := data.fileId)
       && (|r.sent| == |s.sent| + 1 <==> TruthyString(data.fileId)))
    ensures SameExcept(s.tmpFiles, r.tmpFiles, data.requestId)
    ensures TableValid(s.tmpFiles) ==> TableValid(r.tmpFiles)
  {
    if data.error then s.(events := s.events + [Error(ServerRefused)])
    else if data.requestId !in s.tmpFiles then s.(events := s.events + [Error(UnknownRequest(data.requestId))])
    else
      var recorded := s.(tmpFiles := s.tmpFiles[data.requestId := s.tmpFiles[data.requestId].(fileId := data.fileId)],
                         events := s.events + [FileUploadRequested(data.fileId, data.requestId)]);
      Upload(recorded, data.requestId, data.fileId)
  }

  /** `_FileUploaded`: report the outcome and drop the request either way. */
  function Uploaded(s: State, data: UploadedMsg): (r: State)
    ensures data.requestId !in r.tmpFiles
    ensures SameExcept(s.tmpFiles, r.tmpFiles, data.requestId)
    ensures TableValid(s.tmpFiles) ==> TableValid(r.tmpFiles)
    ensures r.sent == s.sent
    ensures |r.events| == |s.events| + 1 && r.events[..|s.events|] == s.events
    ensures r.events[|s.events|].Error? <==> data.error
  {
    var event := if data.error then Error(UploadFailed)
                 else FileUploaded(data.fileUrl, data.fileSize, data.fileName, data.fileId);
    State(s.tmpFiles - {data.requestId}, s.events + [event], s.sent)
  }

  /** A request that goes through all the way leaves the table as it found it, and
      sends exactly the request and one stream of the very file it registered. */
  lemma RequestLifecycle(s: State, roomName: string, file: FileRef, basename: string, userId: string,
                         requestId: string, fileId: string, done: UploadedMsg)
    requires requestId !in s.tmpFiles
    requires ChosenName(file, basename).Some? && fileId != ""
    requires done.requestId == requestId
    ensures var s1 := Request(s, roomName, file, basename, userId, requestId);
            var s2 := Requested(s1, RequestedMsg(false, requestId, Some(fileId)));
            var s3 := Uploaded(s2, done);
            s3.tmpFiles == s.tmpFiles
            && s3.sent == s.sent + [UploadRequest(roomName, s1.tmpFiles[requestId].fileName, requestId, userId),
                                    UploadStream(fileId, requestId, file)]
  {
    var s1 := Request(s, roomName, file, basename, userId, requestId);
    var s2 := Requested(s1, RequestedMsg(false, requestId, Some(fileId)));
    var s3 := Uploaded(s2, done);
    assert Accepts(s2.tmpFiles, requestId, Some(fileId));
    assert s3.tmpFiles == s.tmpFiles by {
      assert SameExcept(s.tmpFiles, s3.tmpFiles, requestId);
    }
  }

  /** Once the server has reported an upload finished, the request is gone: a late
      or repeated acknowledgement for it is refused and starts no stream. */
  lemma FinishedRequestRefused(s: State, done: UploadedMsg, again: RequestedMsg)
    requires again.requestId == done.requestId
    ensures var r := Requested(Uploaded(s, done), again);
            r.sent == s.sent && r.tmpFiles == Uploaded(s, done).tmpFiles
            && r.events[|r.events| - 1].Error?
  {
  }

  /** The module-level `tmpFiles` object, shared by every client created in the
      process. */
  class TmpFiles {
    var entries: Table

    constructor ()
      ensures entries == map[]
    {
      entries := map[];
    }
  }

  class CaptainCabinetClient {
    const server: string
    const debug: bool
    const tmpFiles: TmpFiles
    var events: seq<Event>
    var sent: seq<Outbound>

    function Current(): State
      reads this, tmpFiles
    {
      State(tmpFiles.entries, events, sent)
    }

    /** The constructor after validation, connecting to `baseUrl:port`. */
    constructor (options: Options, tmpFiles: TmpFiles)
      requires OptionsCheck(Some(options)).None?
      ensures server == Server(options.baseUrl.value, options.port.value)
      ensures debug == TruthyBool(options.debug)
      ensures this.tmpFiles == tmpFiles && events == [] && sent == []
    {
      server := Server(options.baseUrl.value, options.port.value);
      debug := TruthyBool(options.debug);
      this.tmpFiles := tmpFiles;
      events := [];
      sent := [];
    }

    /** `new CaptainCabinetClient(options)`. */
    static method Create(options: Option<Options>, tmpFiles: TmpFiles)
      returns (r: Result<CaptainCabinetClient, OptionsError>)
      ensures r.Err? <==> OptionsCheck(options).Some?
      ensures r.Err? ==> r.error == OptionsCheck(options).value
      ensures r.Ok? ==> (fresh(r.value) && r.value.tmpFiles == tmpFiles && r.value.events == []
                         && r.value.server == Server(options.value.baseUrl.value, options.value.port.value))
    {
      var check := OptionsCheck(options);
      if check.Some? {
        return Err(check.value);
      }
      var client := new CaptainCabinetClient(options.value, tmpFiles);
      return Ok(client);
    }

    /** The socket's `connect` handler. */
    method OnConnect()
      modifies this`events
      ensures events == old(events) + [Connected(server)]
    {
      events := events + [Connected(server)];
    }

    /** The socket's `error` handler. */
    method OnSocketError()
      modifies this`events
      ensures events == old(events) + [Error(SocketError)]
    {
      events := events + [Error(SocketError)];
    }

    /** `FileUploadRequest(roomName, file, userId)`; `requestId` stands for the
        generated uuid and `basename` for `path.basename(file)`. Reports whether
        choosing the name threw. */
    method FileUploadRequest(roomName: string, file: FileRef, basename: string, userId: string,
                             requestId: string) returns (threw: bool)
      modifies this`sent, tmpFiles
      ensures threw <==> ChosenName(file, basename).None?
      ensures Current() == Request(old(Current()), roomName, file, basename, userId, requestId)
    {
      var fileName: string;
      match file {
        case FileObject(name) =>
          if name == "" {
            return true;
          }
          fileName := name;
        case LocalPath(_) =>
          fileName := basename;
      }
      fileName := Sanitize(fileName);
      tmpFiles.entries := tmpFiles.entries[requestId := Entry(fileName, requestId, file, None)];
      sent := sent + [UploadRequest(roomName, fileName, requestId, userId)];
      return false;
    }

    /** `_FileUploadRequested(data)`. */
    method FileUploadRequested(data: RequestedMsg)
      modifies this`events, this`sent, tmpFiles
      ensures Current() == Requested(old(Current()), data)
    {
      if data.error {
        events := events + [Error(ServerRefused)];
        return;
      }
      if data.requestId !in tmpFiles.entries {
        events := events + [Error(UnknownRequest(data.requestId))];
        return;
      }
      tmpFiles.entries := tmpFiles.entries[data.requestId := tmpFiles.entries[data.requestId].(fileId := data.fileId)];
      events := events + [Event.FileUploadRequested(data.fileId, data.requestId)];
      FileUpload(data.requestId, data.fileId);
    }

    /** `_FileUpload(requestId, fileId)`. */
    method FileUpload(requestId: string, fileId: Option<string>)
      modifies this`events, this`sent
      ensures Current() == Upload(old(Current()), requestId, fileId)
    {
      events := events + [Event.FileUpload(requestId, fileId)];
      if requestId !in tmpFiles.entries || !TruthyString(tmpFiles.entries[requestId].fileId)
         || tmpFiles.entries[requestId].fileId != fileId {
        events := events + [Error(InvalidRequestOrFile(requestId, fileId))];
        return;
      }
      sent := sent + [UploadStream(fileId.value, requestId, tmpFiles.entries[requestId].file)];
    }

    /** `_FileUploaded(data)`. */
    method FileUploaded(data: UploadedMsg)
      modifies this`events, tmpFiles
      ensures Current() == Uploaded(old(Current()), data)
    {
      if data.error {
        events := events + [Error(UploadFailed)];
        tmpFiles.entries := tmpFiles.entries - {data.requestId};
        return;
      }
      events := events + [Event.FileUploaded(data.fileUrl, data.fileSize, data.fileName, data.fileId)];
      tmpFiles.entries := tmpFiles.entries - {data.requestId};
    }
  }
}
