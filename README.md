# yodlr-client core, modelled in Dafny

This project models the core of the yodlr voice client and proves properties of the model. The core covers five parts:

- **Audio router transport** (`AudioRouterClient/AudioRouterClient.js`). Binary audio packets are a JSON header line followed by little-endian int16 samples. The file holds the encoder, the browser and Node decoders, and the open/close/error handling that schedules reconnects.
- **Bare WebSocket client** (`AudioRouterClient/wsClient.js`). It has the same open/close bookkeeping, with a send gate on `wsConnected`.
- **Adaptive playout buffer** (`lib/AudioClient.js`). An arriving frame is upsampled to the playback rate. When the buffer is too full or too empty, the frame is corrected at a splice point found by a first-match waveform search. The frame is then scaled to floats and appended. The playback callback pulls 512-sample frames from the front. The send path's decimation by two is modelled too.
- **Room roster** (`lib/YodlrClientRoom.js`). It holds the `users` map, `lockEnabled`, the joined-room fields and the socket. All are updated only by messages that name this room.
- **Upload request table** (`CaptainCabinetClient/CaptainCabinetClient.js`). The module-level `tmpFiles` table goes through three steps: register, record fileId, delete.

Modules follow the source files:

| file | module |
|---|---|
| `js.dfy` | `Js` |
| `audio_client.dfy` | `AudioClient` |
| `audio_router_client.dfy` | `AudioRouterClient` |
| `ws_client.dfy` | `WsClient` |
| `yodlr_client_room.dfy` | `YodlrClientRoom` |
| `captain_cabinet_client.dfy` | `CaptainCabinetClient` |

`Js` holds the JavaScript value semantics the others share: `undefined` as `Option`, truthiness, decimal printing, and int16 wrap-around.

Objects whose fields the source updates in place are classes. Their handler methods carry `modifies` clauses. Each handler is tied by its `ensures` to a transition function on a state datatype. Examples are `AudioRouterClient.ClosedBy`, `WsClient.Step`, `YodlrClientRoom.Handle` and `CaptainCabinetClient.Requested`. The lemmas about sequences of events are proved on those functions. Loops in the source are methods with loop invariants, each proved against a specification function:

- the splice search, the blend-and-shift of removal and the float scaling of an arriving frame;
- the padding of a partial frame, upsampling and downsampling;
- the header and sample writes of `createPacket`, and both packet splitters.

Emitted events and socket sends are lists that the methods append to. A pending `setTimeout(connect)` is a counter of scheduled reconnects.

### Behaviour as written

Where the code and the documented design differ, the model follows the code:

- **Adding samples never grows the frame.** `_add_samples` concatenates and blends into a rebound local (lib/AudioClient.js:558-561). Only the statistics and the returned count change (`AudioClient.CorrectionEffect`).
- **Removal leaves no blended sample.** `_remove_samples` blends positions 0..7 and then shifts `search_idx` samples off the front. A match is always past index 8, so the blended samples always go. The frame that remains is the original samples from `search_idx` on (`AudioClient.AudioClient.RemoveSamples`).
- **The removal index mixes two frames.** The index is found in the trailing search window but applied from the start of the whole frame.
- **The overflow flush happens on pull, not on arrival.** After an arrival the buffer may exceed `MAX_BUF_SIZE`. The next pull drops it and plays silence (`AudioClient.AudioClient.PullEffect`).
- **A partial frame is played and kept.** `slice` leaves it in the buffer, so it is played again at the head of the next full frame (`AudioClient.AudioClient.PartialFrameReplayed`).
- **Neither decoder reads the header.** A `cnt` that disagrees with the sample count is never detected.
- **The Node decoder splits at the last newline.** It reads samples after the last byte equal to 10, and a sample whose low byte is 10 misleads it (`AudioRouterClient.NodeSplitLosesSample`). The browser decoder splits at the first newline.
- **`close` does not cancel a scheduled reconnect.** After `_closed` has dropped the socket, `close` throws on `_ws.close()`.
- **`wsClient.js` never reconnects.** It never assigns `_reconnect`, so its reconnect branch cannot run.

## Model

| member | source | states |
|---|---|---|
| AudioClient.PcmToFloat | lib/AudioClient.js:371-376 | a sample scaled into the playback domain lies in [-1, 1] |
| AudioClient.FloatToPcm | lib/AudioClient.js:365-370 | a playback sample scaled back is an int16 |
| AudioClient.SeedOfBufferedSample | lib/AudioClient.js:319-322 | an int16 sample buffered as a float and read back as the upsampling seed comes back one step closer to zero (p-1, p+1 or 0), so the two scalings are not inverse |
| AudioClient.Downsample | lib/AudioClient.js:349-357 | the typed array has samples/2 entries, entry k is input 2k clamped to int16, and an odd count's last write is dropped |
| AudioClient.SadMonotone | lib/AudioClient.js:586-593 | the running sum of absolute differences never decreases with more samples, so stopping once it passes the threshold cannot miss a match |
| AudioClient.FirstMatch | lib/AudioClient.js:580-600 | the search result is -1 or a candidate inside the scanned range whose difference sum is below the threshold |
| AudioClient.FirstMatchIsFirst | lib/AudioClient.js:580-600 | -1 means no scanned candidate matches; a returned candidate is preceded in scan order only by candidates that fail, so the search is first-match rather than best-match |
| AudioClient.SearchForMatch | lib/AudioClient.js:580-600 | the nested loop with early break returns exactly the first matching candidate in scan order |
| AudioClient.Window | lib/AudioClient.js:513-519 | the search window is the trailing SEARCH_WIN_SIZE samples, or the whole frame when it is shorter |
| AudioClient.SearchIndex | lib/AudioClient.js:520-533 | a splice point found when adding lies before samples-16 in the window; one found when removing lies in (8, samples-8] |
| AudioClient.SeamBlended | lib/AudioClient.js:568-570 | the blend keeps the frame length |
| AudioClient.CorrectionEffect | lib/AudioClient.js:502-578 | frames under 64 samples are untouched; addition leaves the frame unchanged although its count, when non-zero, lies in (8, window-8]; removal drops exactly the reported count (more than 8) from the front, keeps at least 8 samples, and keeps the original samples |
| AudioClient.TallyAgrees | lib/AudioClient.js:520-578 | the added/removed statistics move by exactly the reported count; successes never exceed attempts; attempts grow by at most one; after a search the success rate lies within [0, 100] |
| AudioClient.SuccessRateBounded | lib/AudioClient.js:545-546 | after an attempt is counted, successes do not exceed attempts and the rate is a percentage |
| AudioClient.AudioClient.constructor | lib/AudioClient.js:49-66 | MAX_BUF_SIZE is 200 ms, MID_POINT is HOLD_OFF_MS and SEARCH_WIN_SIZE is 8 ms of samples (floored), SAMP_ERR is half of MID_POINT, and the buffer and statistics start empty |
| AudioClient.AudioClient.Upsample | lib/AudioClient.js:307-331 | the output is twice as long; every odd position is the input sample; every even position is the floored mean of it and the previous sample, the first using the last buffered sample (or 0) |
| AudioClient.AudioClient.SteeringDeadZone | lib/AudioClient.js:486-494 | removal is attempted exactly when 2*offset > MID_POINT and addition exactly when 2*offset < -MID_POINT |
| AudioClient.AudioClient.AddSamples | lib/AudioClient.js:550-563 | returns samples - search_idx - 8 and adds it to the `added` statistic, and nothing else survives |
| AudioClient.AudioClient.RemoveSamples | lib/AudioClient.js:565-578 | the frame is the blended frame with search_idx samples shifted off, which for a match past index 8 is the original frame from search_idx; returns -search_idx and counts it as removed |
| AudioClient.AudioClient.AddRemoveSamples | lib/AudioClient.js:502-548 | the frame and count are those of the specification `Corrected`, and the statistics those of `Tally`, whose properties are the two lemmas above |
| AudioClient.AudioClient.ManageRxBuffer | lib/AudioClient.js:476-500 | the buffer becomes its old contents followed by the corrected frame scaled to floats (the old contents are never touched); the correction applied is the one the offset selects |
| AudioClient.AudioClient.OnRxAudio | lib/AudioClient.js:379-413 | one pull behaves as `Pull`: silence while priming or empty, flush and silence over MAX_BUF_SIZE, a full frame from the front, or the remaining samples padded with zeros and playback paused |
| AudioClient.AudioClient.PullEffect | lib/AudioClient.js:379-413 | every pull delivers exactly 512 samples; the buffer only loses samples from the front, a frame at a time, or all at once past MAX_BUF_SIZE |
| AudioClient.AudioClient.PartialFrameReplayed | lib/AudioClient.js:403-411 | a partial frame stays in the buffer and clears `playing`; the next frame delivered once enough samples arrive starts with it again |
| AudioClient.AudioClient.OnAudioMessage | lib/AudioClient.js:127-131 | an odd byte count throws in `new Int16Array` and changes nothing; otherwise the buffer only grows at its end |
| AudioRouterClient.EscapeRoundTrip | AudioRouterClient/AudioRouterClient.js:215-228 | the string escaping `JSON.stringify` applies to account, room and participant is undone by a JSON reader |
| AudioRouterClient.HeaderNoNewline | AudioRouterClient/AudioRouterClient.js:164-172 | when the identifiers use one-byte characters, no byte of the serialized header equals the separator 10 |
| AudioRouterClient.CodeUnits | AudioRouterClient/AudioRouterClient.js:170-172 | a character is one UTF-16 code unit equal to its code below 0x10000, and otherwise a surrogate pair that decodes back to it |
| AudioRouterClient.Utf16Bmp | AudioRouterClient/AudioRouterClient.js:167-172 | for text in the Basic Multilingual Plane, `length` and `charCodeAt` see one unit per character, equal to its code |
| AudioRouterClient.AstralTakesTwoUnits | AudioRouterClient/AudioRouterClient.js:167-172 | U+1F600 is one character but two code units (0xD83D, 0xDE00), so the header loop writes two bytes for it |
| AudioRouterClient.UnitByte | AudioRouterClient/AudioRouterClient.js:171 | `setInt8` stores a code unit modulo 256, and a unit below 256 unchanged |
| AudioRouterClient.HeaderBytes | AudioRouterClient/AudioRouterClient.js:169-172 | the header occupies one byte per UTF-16 code unit, each the unit stored by `setInt8` |
| AudioRouterClient.LeBytes | AudioRouterClient/AudioRouterClient.js:174-177 | two bytes per sample |
| AudioRouterClient.PacketLayout | AudioRouterClient/AudioRouterClient.js:161-178 | a buffer whose header part and sample part were written as above is exactly the header bytes followed by the sample bytes |
| AudioRouterClient.Int16Array | lib/AudioClient.js:128 | typed-array decoding succeeds exactly for an even byte count and yields half as many int16 values |
| AudioRouterClient.DecodeLeBytes | AudioRouterClient/AudioRouterClient.js:174-177 | the little-endian `setInt16` bytes decode back to each sample modulo 2^16, so int16 samples come back unchanged |
| AudioRouterClient.WriteHeader | AudioRouterClient/AudioRouterClient.js:169-172 | the header loop, bounded by `audioHeader.length`, stores one byte per UTF-16 code unit and leaves the rest of the packet alone |
| AudioRouterClient.WriteSamples | AudioRouterClient/AudioRouterClient.js:174-177 | the sample loop stores low byte then high byte of every sample after the header and leaves the header alone |
| AudioRouterClient.FirstNewlineFrom | AudioRouterClient/AudioRouterClient.js:205-210 | the scan finds the first separator byte, or reports that there is none |
| AudioRouterClient.LastNewlineBefore | AudioRouterClient/AudioRouterClient.js:187-192 | the scan remembers the last separator byte, or reports that there is none |
| AudioRouterClient.SplitAudioPacketBrowser | AudioRouterClient/AudioRouterClient.js:201-213 | returns the bytes after the first separator, or an empty result when there is none |
| AudioRouterClient.SplitAudioPacket | AudioRouterClient/AudioRouterClient.js:181-199 | decodes the bytes after the last separator (all bytes when there is none) as int16, failing on an odd count |
| AudioRouterClient.BrowserSplitRoundTrip | AudioRouterClient/AudioRouterClient.js:201-213 | header, separator, payload: the browser decoder returns exactly the payload whenever the header has no separator byte |
| AudioRouterClient.HeaderLineRoundTrip | AudioRouterClient/AudioRouterClient.js:164-177 | a header line followed by the sample bytes decodes in the browser to the sample bytes, and those to the int16 samples |
| AudioRouterClient.NodeSplitAgreesIff | AudioRouterClient/AudioRouterClient.js:181-199 | the Node decoder returns the whole payload if and only if the payload holds no byte 10, and otherwise strictly less |
| AudioRouterClient.NodeSplitLosesSample | AudioRouterClient/AudioRouterClient.js:187-196 | a single sample of value 10 makes the Node decoder keep one byte and throw, where the browser decoder returns both bytes |
| AudioRouterClient.OptionsCheck | AudioRouterClient/AudioRouterClient.js:25-42 | construction succeeds exactly when options, wsUrlBinary, account, room, participant and rate are all truthy; the errors are reported in that order |
| AudioRouterClient.ReconnectingCloses | AudioRouterClient/AudioRouterClient.js:238-265 | while reconnecting with n attempts left, k closes spend min(k, n) attempts, schedule that many reconnects and emit k-n reconnect errors once the budget is gone |
| AudioRouterClient.ReconnectBudget | AudioRouterClient/AudioRouterClient.js:238-265 | from a connected session with n attempts, k closes schedule min(k, n+1) reconnects (the first close costs no attempt) and report max(0, k-n-1) errors |
| AudioRouterClient.OpenRestoresBudget | AudioRouterClient/AudioRouterClient.js:230-236 | after an open the budget is 5 again whatever came before: k closes schedule min(k, 6) reconnects |
| AudioRouterClient.ClosesWithoutReconnect | AudioRouterClient/AudioRouterClient.js:238-242 | with reconnect off, closes only clear `connected` |
| AudioRouterClient.AudioRouterClient.constructor | AudioRouterClient/AudioRouterClient.js:49-58 | `_reconnect` is `options.reconnect` (the default set at lines 49-51 is overwritten), attempts default to 5, and the identifiers and rate are stored |
| AudioRouterClient.AudioRouterClient.Create | AudioRouterClient/AudioRouterClient.js:22-70 | throws the first failed option check, otherwise returns a new client with the identifiers, rate, `reconnect` and attempt budget of the constructor, not yet connected, with its socket and nothing sent |
| AudioRouterClient.AudioRouterClient.CreatePacket | AudioRouterClient/AudioRouterClient.js:161-179 | the packet is the header's bytes, byte 10, then two little-endian bytes per sample: the header's UTF-16 length + 1 + 2*count bytes |
| AudioRouterClient.AudioRouterClient.PacketRoundTrip | AudioRouterClient/AudioRouterClient.js:161-213 | a packet this client builds decodes in the browser to its samples, when the identifiers use one-byte characters and the samples are int16 |
| AudioRouterClient.AudioRouterClient.SendAudio | AudioRouterClient/AudioRouterClient.js:142-159 | the packet goes out only while connected |
| AudioRouterClient.AudioRouterClient.OnMessage | AudioRouterClient/AudioRouterClient.js:279-290 | the browser handler emits the bytes after the first separator |
| AudioRouterClient.AudioRouterClient.Open | AudioRouterClient/AudioRouterClient.js:230-236 | `_open` connects, clears reconnecting, restores 5 attempts and emits connected |
| AudioRouterClient.AudioRouterClient.OnClosed | AudioRouterClient/AudioRouterClient.js:238-265 | `_closed` disconnects and, with reconnect on, either starts reconnecting or spends an attempt (dropping the socket and scheduling a reconnect), or reports a reconnect error |
| AudioRouterClient.AudioRouterClient.OnError | AudioRouterClient/AudioRouterClient.js:267-272 | `_error` only clears `connected` |
| AudioRouterClient.AudioRouterClient.OnReconnectTimer | AudioRouterClient/AudioRouterClient.js:249-251 | a scheduled reconnect fires and `connect` opens a new socket |
| AudioRouterClient.AudioRouterClient.Close | AudioRouterClient/AudioRouterClient.js:98-104 | `close` turns reconnect off first; it emits `closed` when the socket exists and throws when `_closed` has dropped it |
| WsClient.OptionsCheck | AudioRouterClient/wsClient.js:26-45 | construction succeeds exactly when options, wsUrlBinary, account, room and participant are truthy, with errors in that order |
| WsClient.SendGate | AudioRouterClient/wsClient.js:114-157 | after any notifications the send gate is open exactly when the last open-or-close was an open; errors never change it |
| WsClient.EventsOnlyFromOpens | AudioRouterClient/wsClient.js:121-173 | socket notifications only append to the event log, one `connected` per open |
| WsClient.WsClient.constructor | AudioRouterClient/wsClient.js:47-79 | the socket URL is `wsUrlBinary + '/audio'`; nothing is connected yet |
| WsClient.WsClient.Create | AudioRouterClient/wsClient.js:22-79 | throws the first failed check, otherwise builds the client on `<url>/audio` |
| WsClient.WsClient.Send | AudioRouterClient/wsClient.js:114-119 | audio is sent only while `wsConnected` |
| WsClient.WsClient.OnMessage | AudioRouterClient/wsClient.js:87-107 | received data is emitted unchanged as `audio` |
| WsClient.WsClient.WsOpen | AudioRouterClient/wsClient.js:121-128 | sets `wsConnected`, clears reconnecting, restores 5 attempts, emits connected |
| WsClient.WsClient.WsClosed | AudioRouterClient/wsClient.js:130-157 | only clears `wsConnected`, since `_reconnect` is never assigned |
| WsClient.WsClient.WsError | AudioRouterClient/wsClient.js:168-173 | sets `connected` (not `wsConnected`) to false |
| WsClient.WsClient.Close | AudioRouterClient/wsClient.js:159-166 | always emits `closed` |
| YodlrClientRoom.OptionsCheck | lib/YodlrClientRoom.js:29-46 | construction fails with the room's error unless socket, name, audio and config are all present, then with the upload client's error unless ccUrl and ccPort are truthy |
| YodlrClientRoom.Lower | lib/YodlrClientRoom.js:32 | the stored name has the same length, each letter lower-cased, and no upper-case ASCII letter |
| YodlrClientRoom.Normalize | lib/YodlrClientRoom.js:498-500 | a string `userTalking` becomes true exactly when it is "true"; other values and every other field are kept |
| YodlrClientRoom.Handle | lib/YodlrClientRoom.js:346-541 | a message for another room changes nothing; a message for this room appends one event; only the user it names can gain, lose or change a roster entry; a well-formed roster stays well formed; the socket can only be dropped, by `_leftRoom`; nothing is sent |
| YodlrClientRoom.Send | lib/YodlrClientRoom.js:425-434 | with a socket whose `emit` is a function, the message is sent and no event is emitted; otherwise nothing is sent and a "Socket not connected" error is emitted |
| YodlrClientRoom.OtherRoomsIgnored | lib/YodlrClientRoom.js:346-353 | any run of messages naming other rooms leaves the room exactly as it was |
| YodlrClientRoom.RosterStaysValid | lib/YodlrClientRoom.js:489-541 | every roster entry stays under its own id, and none ever has a string `userTalking` |
| YodlrClientRoom.UntouchedUsersKept | lib/YodlrClientRoom.js:489-541 | a roster entry no message for this room names keeps its presence and value |
| YodlrClientRoom.SocketStaysGone | lib/YodlrClientRoom.js:381-388 | once the socket is dropped, no message restores it |
| YodlrClientRoom.SendAfterLeaving | lib/YodlrClientRoom.js:381-434 | after `_leftRoom` for this room, whatever follows, sending emits the error and sends nothing |
| YodlrClientRoom.YodlrClientRoom.constructor | lib/YodlrClientRoom.js:32-46 | the name is stored lower-cased, `lockEnabled` is false, the roster is empty, the socket is the one given, and an upload client is created on `ccUrl:ccPort` |
| YodlrClientRoom.YodlrClientRoom.Create | lib/YodlrClientRoom.js:25-80 | throws exactly when the option check fails, otherwise returns the initialised room |
| YodlrClientRoom.YodlrClientRoom.OnJoinedRoom | lib/YodlrClientRoom.js:359-375 | for this room, copies lockEnabled and the room fields and emits `joinedRoom`; otherwise nothing |
| YodlrClientRoom.YodlrClientRoom.OnLeftRoom | lib/YodlrClientRoom.js:381-388 | for this room, drops the socket and emits `leftRoom`; otherwise nothing |
| YodlrClientRoom.YodlrClientRoom.OnUserJoined | lib/YodlrClientRoom.js:510-524 | for this room, stores the coerced user under its id, overwriting, and emits it; otherwise nothing |
| YodlrClientRoom.YodlrClientRoom.OnUserChanged | lib/YodlrClientRoom.js:489-504 | for this room, stores the coerced user under its id, overwriting, and emits it; otherwise nothing |
| YodlrClientRoom.YodlrClientRoom.OnUserLeft | lib/YodlrClientRoom.js:530-541 | for this room, deletes only that user's entry and emits it; otherwise nothing |
| YodlrClientRoom.YodlrClientRoom.OnSetLockEnabled | lib/YodlrClientRoom.js:473-483 | for this room, sets `lockEnabled` and emits it with the room name; otherwise nothing |
| YodlrClientRoom.YodlrClientRoom.SendMessage | lib/YodlrClientRoom.js:425-434 | behaves as `Send` on the room's state |
| CaptainCabinetClient.OptionsCheck | CaptainCabinetClient/CaptainCabinetClient.js:39-47 | construction succeeds exactly when options, baseUrl and port are truthy, with errors in that order |
| CaptainCabinetClient.LastIndex | CaptainCabinetClient/CaptainCabinetClient.js:51 | finds the last occurrence of a character, or reports that there is none |
| CaptainCabinetClient.ServerSplits | CaptainCabinetClient/CaptainCabinetClient.js:51 | the server string `baseUrl + ':' + port` splits back at its last colon into the base URL and, for a non-negative port, the port |
| CaptainCabinetClient.Sanitize | CaptainCabinetClient/CaptainCabinetClient.js:112 | the sanitised name has the same length, turns every `/` into `:`, keeps every other character, and contains no `/` |
| CaptainCabinetClient.Request | CaptainCabinetClient/CaptainCabinetClient.js:101-120 | when a name can be chosen, the request is registered with its sanitised name, the file and no fileId, and the upload request goes out with that name; other entries are untouched; the table stays well formed |
| CaptainCabinetClient.Upload | CaptainCabinetClient/CaptainCabinetClient.js:170-194 | `fileUpload` is emitted first; the stream of the registered file starts exactly when the request is pending with a truthy fileId equal to the one given, otherwise an error follows; the table never changes |
| CaptainCabinetClient.Requested | CaptainCabinetClient/CaptainCabinetClient.js:133-156 | on a server error or an unknown request, only an error is emitted and nothing else changes; otherwise fileId is recorded on that entry alone, and the upload starts exactly when the fileId is truthy |
| CaptainCabinetClient.Uploaded | CaptainCabinetClient/CaptainCabinetClient.js:209-228 | the request is deleted on both the error and the success path, other entries are untouched, and exactly one event (an error exactly when the server reported one) is emitted |
| CaptainCabinetClient.RequestLifecycle | CaptainCabinetClient/CaptainCabinetClient.js:101-228 | register, acknowledge with a truthy fileId, finish: the table ends as it began, and exactly the request and one stream of the registered file were sent |
| CaptainCabinetClient.FinishedRequestRefused | CaptainCabinetClient/CaptainCabinetClient.js:143-147 | after the upload is reported finished, a repeated acknowledgement for the request is refused with an error and starts no stream |
| CaptainCabinetClient.TmpFiles.constructor | CaptainCabinetClient/CaptainCabinetClient.js:21 | the shared table starts empty |
| CaptainCabinetClient.CaptainCabinetClient.constructor | CaptainCabinetClient/CaptainCabinetClient.js:49-81 | the server is `baseUrl:port`, the client uses the shared table, and `debug` is the truthiness of the option |
| CaptainCabinetClient.CaptainCabinetClient.Create | CaptainCabinetClient/CaptainCabinetClient.js:36-83 | throws the first failed check, otherwise returns a client on the shared table |
| CaptainCabinetClient.CaptainCabinetClient.OnConnect | CaptainCabinetClient/CaptainCabinetClient.js:58-61 | emits `connected` with the server |
| CaptainCabinetClient.CaptainCabinetClient.OnSocketError | CaptainCabinetClient/CaptainCabinetClient.js:63-66 | re-emits a socket error |
| CaptainCabinetClient.CaptainCabinetClient.FileUploadRequest | CaptainCabinetClient/CaptainCabinetClient.js:101-120 | behaves as `Request` on the shared table, and throws exactly when no name can be chosen |
| CaptainCabinetClient.CaptainCabinetClient.FileUploadRequested | CaptainCabinetClient/CaptainCabinetClient.js:133-156 | behaves as `Requested` |
| CaptainCabinetClient.CaptainCabinetClient.FileUpload | CaptainCabinetClient/CaptainCabinetClient.js:170-194 | behaves as `Upload` |
| CaptainCabinetClient.CaptainCabinetClient.FileUploaded | CaptainCabinetClient/CaptainCabinetClient.js:209-228 | behaves as `Uploaded` |

## Left out

- Floating point: playback samples and the search's difference sums are exact reals. Float32 storage and rounding are not modelled. For int16 inputs the two scalings are exact in double precision anyway.
- Downsample: the input is taken already scaled to the int16 domain. The `parseInt(x * 32767)` of each capture float is not modelled.
- The Web Audio graph, media capture, filters, gain nodes, voice activity (hark) and the rtc client are browser APIs and are left out.
- `MANAGE_BUFFER` is a constant `true`, so its unmanaged branch in `_manageRxBuffer` is left out.
- The counters `attemptOvers` and `attemptUnders` start undefined and only ever hold NaN. No decision reads them, so they are left out.
- Metrics counters and intervals, and debug logging, have no effect on behaviour and are left out.
- Sockets, timers and the network are state and parameters. A message arrival, an open, a close, an error and a timer firing are each a method call. The 1000 ms delay is not modelled.
- AudioClient.AddRemoveSamples: the window start and width are computed by the functions `WindowStart` and `WindowSize` rather than the source's `if` that reassigns `index` and `samples`. Both give the same values.
- AudioClient.AudioClient.AddSamples: the concatenation and blend the source computes on a rebound local are dropped from the model. They can never reach the caller, and the blend reads past the spliced window (NaN in JavaScript).
- AudioClient.SeamBlended: its contract states only the length. The blended values are fixed by the function's definition, and no blended sample survives removal (see `RemoveSamples`).
- AudioClient.AudioClient.OnAudioMessage: requires `SEARCH_WIN_SIZE >= 16`, which holds from a 2 kHz sample rate up. For smaller windows the backward search loop never ends. Its contract states only that the buffer's old contents are kept; `ManageRxBuffer` states the full effect.
- AudioRouterClient.HeaderNoNewline: requires identifiers whose characters have codes below 256. For other characters `setInt8` keeps each UTF-16 code unit modulo 256 (U+010A, or the high surrogate 0xD80A of an astral character), and a stored byte can then equal 10.
- The Node message handler's `emit` of the decoded samples is not a separate method; `SplitAudioPacket` models its decoding.
- AudioRouterClient.Options.reconnectAttempts stands for `options._reconnectAttempts`, the name line 53 reads.
- The `rate` header field is printed as a decimal integer. String-valued and fractional rates and ports are not modelled.
- YodlrClientRoom.Lower: only ASCII letters are lower-cased. Unicode case mapping is not modelled.
- The room's other operations (chat, files, recording, microphone and speaker messages, public send helpers) are not part of this model. The listeners it attaches to the upload client's events, including the `sendFileMessage` forward, are not part of it either.
- `files` on the room starts empty and is never updated by the modelled handlers, so it is left out.
- YodlrClientRoom messages are assumed to carry a `user` where the handler reads one. A missing `user` makes the source throw a TypeError.
- CaptainCabinetClient: `uuid()` is a parameter (`requestId`) and `path.basename` is a parameter (`basename`). A uuid collision simply overwrites the entry. socket.io-stream and `fs`/Blob streaming are modelled as one `UploadStream` record sent with the registered file.
- The `fileUploadRequest` listener the client attaches to itself only re-invokes `FileUploadRequest`, so it is not a separate member.
- lib/YodlrClient.js, lib/YodlrMetric.js and the api message-name tables are not part of this model.
