# prolink remote database client — a verified model

This project models the client side of the Pioneer PRO DJ LINK remote database
in `remotedb.go`. The client keeps one TCP connection per CDJ or rekordbox
device. It asks each device which port its database server listens on. Over
that connection it looks up a track's metadata, file path and artwork, and it
stamps every request with a per-connection 32-bit transaction counter.

The project has two layers.

- **Value model.** Each part is a pure Dafny function, and the source's promises
  are lemmas about those functions:
  - `PortResolver`: the discovery query and the port decode.
  - `Protocol`: requests, messages, the scripted socket, `sendMessage` and the
    counter discipline.
  - `MenuProtocol`: `getMenuItems`.
  - `TrackLookup`: `queryTrackMetadata`, `queryTrackPath`, `getArtwork` and
    `executeQuery`.
  - `ConnectionRegistry`: the device map with open, close and refresh, and the
    `GetTrack` policy.
- **Object model.** `RemoteDBClient` holds the classes `DeviceConnection`,
  `TrackQuery` and `RemoteDB`. Their fields are updated in place, as in the
  source. Each method is proved to do what the matching value-model function
  says. `GetMenuItems` keeps the source's counting loop, and `Deactivate` its
  close-every-connection loop.

The network is modelled as a scripted peer, one per connection:

- The peer holds the read outcomes the device will produce, in order. Once
  they run out, every read reports end of stream.
- It holds the outcomes of the client's writes. Once they run out, every write
  succeeds.
- It records the packets actually written.

The outcomes of dialling and of the connect handshake are parameters.

Three client runs are written out and verified:

- `RemoteDBClient.QueryBeforeLink`: a lookup before any device is tracked is
  refused as not linked, and no connection appears.
- `RemoteDBClient.QueryForCD`: a lookup on a linked device's CD slot is refused
  before anything is written, and the device stays linked.
- `RemoteDBClient.EndOfStreamRecovery`: a lookup on a linked device that sends
  nothing fails with end of stream and leaves the device unlinked. Connecting
  the fresh connection links the device again.

The source requests artwork for every track, even when the title entry carries
artwork id 0. The model does the same.

## Model

| member | source | states |
|---|---|---|
| PortResolver.PortQuery | remotedb.go:44-50 | The discovery query is 19 bytes: `00 00 00 0F`, the 14 bytes of `RemoteDBServer`, then `00`. Its big-endian length field equals the name's length plus its terminator. |
| PortResolver.ServiceNameBytesAreAscii | remotedb.go:46 | The 14 query bytes are the ASCII codes of the characters of `RemoteDBServer`, in order. |
| PortResolver.ServerAddr | remotedb.go:34-69 | Resolution succeeds exactly when the dial and the query write succeed and two reply bytes arrive. The address keeps the device's IP. The port is `reply[0]*256 + reply[1]`, a `uint16`, and re-encoding it gives the two reply bytes back. |
| PortResolver.ServerAddrAsWritten | remotedb.go:34-69 | The source's single `conn.Read` into a zeroed 2-byte buffer. It succeeds whenever the dial and write succeed and at least one byte arrives. With two bytes delivered the port is `reply[0]*256 + reply[1]`; with one it is `reply[0]*256`. |
| PortResolver.AsWrittenAgreesOnFullRead | remotedb.go:59-66 | When the single read delivers both bytes, the as-written resolver and the read-in-full resolver agree. |
| PortResolver.ShortReadMisreadsPort | remotedb.go:59-66 | A reply announcing port 12345 that arrives one byte at a time resolves to 12288 as written, and to 12345 when read in full. |
| Bytes.DecodeEncode16 | remotedb.go:66 | Big-endian decode undoes big-endian encode of a `uint16`. |
| Bytes.EncodeDecode16 | remotedb.go:66 | Big-endian encode undoes big-endian decode of two bytes. |
| Protocol.TransmitConsumesWrite | remotedb.go:397 | One socket write consumes the next scripted outcome, or succeeds once the script is exhausted. Only a written packet is recorded. The counter and the read script are untouched. |
| Protocol.ReceiveConsumesRead | remotedb.go:336 | One read yields the next scripted outcome and consumes it. An exhausted script yields end of stream and changes nothing. Nothing else changes. |
| Protocol.NextTx | remotedb.go:401 | `txCount++` on a `uint32` adds one, and wraps from 2^32-1 to 0. |
| Protocol.Send | remotedb.go:393-404 | The request is stamped with the counter as it was before the call. A successful write appends that packet and advances the counter by one. A failed write changes neither. Exactly one scripted write outcome is consumed, and nothing is read. |
| Protocol.FreshSessionConsistent | remotedb.go:416 | A connection created with counter 1 satisfies the counter discipline: the i-th packet written carries (1+i) mod 2^32. |
| Protocol.SendKeepsCounters | remotedb.go:396-401 | Every send, successful or not, keeps the counter discipline. |
| Protocol.StampsNeverReused | remotedb.go:396-401 | Under the counter discipline, no transaction id is used twice within 2^32 packets. |
| Protocol.StampsIncrease | remotedb.go:396-401 | Before the counter wraps, the packets carry ids 1, 2, 3, … in the order written, so ids strictly increase. |
| MenuProtocol.Messages | remotedb.go:355-358 | The messages of a run of successful reads are those reads' messages, in order. |
| MenuProtocol.CollectKeys | remotedb.go:352-366 | A tag is in the collected map exactly when it was already there or some menu entry carries it. A tag that no entry carries keeps its earlier value. |
| MenuProtocol.CollectLastWins | remotedb.go:364-365 | The entry stored under a tag is the last menu entry carrying that tag. |
| MenuProtocol.CollectSkipsOthers | remotedb.go:360-362 | Removing a message that is not a menu entry from anywhere in the stream leaves the collected map unchanged. |
| MenuProtocol.ReadMenuEntries | remotedb.go:354-366 | The entry loop only reads: the counter, the write script and the written packets are untouched. Any error it returns is a transport error. |
| MenuProtocol.ReadMenuEntriesReceived | remotedb.go:354-366 | When the next n reads all succeed, the loop consumes exactly those n messages and returns the map collected from them. |
| MenuProtocol.ReadMenuEntriesFails | remotedb.go:355-358 | Otherwise the loop returns the error of the first failed read, and end of stream if the script runs out first. |
| MenuProtocol.MenuQuery | remotedb.go:331-369 | `getMenuItems` fails only with a transport error or a setup reply of the wrong type. It writes at most the setup and the render request, in that order, with consecutive ids. |
| MenuProtocol.MenuQueryRejectsNonResponse | remotedb.go:332-343 | A setup reply of any type other than a response gives the invalid-response error carrying that type. Only the setup request was written, and the counter advanced exactly once. |
| MenuProtocol.MenuQuerySucceeds | remotedb.go:331-369 | A menu query succeeds exactly when both writes succeed, the setup reply is a response, and the `count + 2` entries after it are received. It then consumes exactly those entries and returns the map collected from them. It wrote setup and render with consecutive ids. |
| MenuProtocol.MenuQueryKeepsCounters | remotedb.go:331-369 | A menu query keeps the connection's counter discipline. |
| TrackLookup.TrackFromMetadata | remotedb.go:285-297 | The sparse track built from the metadata menu has the queried id, and no path and no artwork. |
| TrackLookup.FieldsOfLastEntry | remotedb.go:283-297 | Read from a collected menu, a tag's text, number and (for the title) artwork id are those of the last menu entry carrying that tag. |
| TrackLookup.FieldsOfMissingTag | remotedb.go:283-297 | A tag that no menu entry carries reads as empty text and number 0. Without a title entry the artwork id is 0. |
| TrackLookup.ArtworkQuery | remotedb.go:372-389 | `getArtwork` succeeds exactly when its write succeeds and the next read yields a message. It then returns that message's image and consumes it. A successful write stamps the request, carrying the given artwork id, with the counter. A failed write returns its error and writes nothing. Every failure is a transport error. |
| TrackLookup.ArtworkQueryKeepsCounters | remotedb.go:379-383 | An artwork request keeps the connection's counter discipline. |
| TrackLookup.Lookup | remotedb.go:226-253 | `executeQuery` fails only with a transport error or a menu reply of the wrong type. |
| TrackLookup.LookupAppendsAtMostFive | remotedb.go:226-253 | Whatever its outcome, a lookup keeps the packets already written as a prefix and appends at most five to them. |
| TrackLookup.LookupAbortsOnMetadataError | remotedb.go:233-236 | A failed metadata query ends the lookup with its error. Nothing more is written, and the query's artwork id is unchanged. |
| TrackLookup.LookupAbortsOnPathError | remotedb.go:238-241 | A failed track-info query ends the lookup with its error at that step's session. The artwork request is not written. The artwork id already holds the title entry's id. |
| TrackLookup.LookupAbortsOnArtworkError | remotedb.go:245-248 | A failed artwork request ends the lookup with its error at that step's session. |
| TrackLookup.LookupCompletes | remotedb.go:226-253 | When all three steps succeed, the result is the metadata track with the track-info menu's path entry and the artwork reply's image filled in. The artwork id is the title entry's. |
| TrackLookup.LookupSuccess | remotedb.go:226-300 | A successful lookup wrote exactly five requests with consecutive ids: metadata setup and render, track-info setup and render, then the artwork request. The artwork request carries the title entry's artwork id. All three steps succeeded, so `TrackLookup.LookupCompletes` gives the whole track. |
| TrackLookup.LookupWrites | remotedb.go:226-253 | When all three steps succeed, the packets written are the metadata setup and render, the track-info setup and render, and the artwork request with the title entry's artwork id, with five consecutive ids. |
| TrackLookup.LookupOnSilentPeer | remotedb.go:233-236 | A device that accepts the metadata request and sends nothing back ends the lookup with end of stream. Only that request is written, and the artwork id is unchanged. |
| TrackLookup.LookupKeepsCounters | remotedb.go:226-253 | A lookup keeps the connection's counter discipline. |
| ConnectionRegistry.OpenEntry | remotedb.go:407-426 | A device of a type other than RB or CDJ leaves the registry unchanged. Otherwise the device's entry becomes a fresh, unlinked record with counter 1. No other entry changes. |
| ConnectionRegistry.CloseEntry | remotedb.go:429-440 | The registry loses exactly that id, which is a no-op for an untracked id. Every other entry is unchanged. |
| ConnectionRegistry.RefreshEntry | remotedb.go:443-446 | For an RB or CDJ device the entry becomes a fresh connection, whether or not one was tracked. For any other type the entry is dropped. |
| ConnectionRegistry.RefreshYieldsFreshEntry | remotedb.go:443-446 | Refreshing a tracked device leaves a fresh, unlinked connection with counter 1 in its place and nothing else changed. |
| ConnectionRegistry.OpenAll | remotedb.go:458-461 | Opening the active devices loses no entry. Every entry afterwards is an earlier one, untouched, or a fresh connection. Which entries are which is given by `ConnectionRegistry.OpenAllLastWins` and `ConnectionRegistry.OpenAllKeepsUnlisted`. |
| ConnectionRegistry.OpenAllLastWins | remotedb.go:458-461 | For each listed RB or CDJ device with no later RB or CDJ device of the same id, its id ends mapped to a fresh connection of that very device, whatever was tracked there before. |
| ConnectionRegistry.OpenAllKeepsUnlisted | remotedb.go:458-461 | A tracked entry whose id no listed RB or CDJ device carries is kept unchanged. |
| ConnectionRegistry.OpenAllKeys | remotedb.go:458-461 | After opening a list of devices, the tracked ids are the earlier ones plus exactly the ids of the RB and CDJ devices in the list. |
| ConnectionRegistry.GetTrackOutcome | remotedb.go:207-224 | The not-linked error is returned exactly when the device is not linked. The CD error is returned exactly for a linked device's CD slot. In a well-formed registry no other device's entry changes. |
| ConnectionRegistry.GetTrackAfterLookup | remotedb.go:216-223 | Past both checks, the outcome is the lookup's result and artwork id on the device's advanced session. The device's entry is refreshed exactly when the result is end of stream. |
| ConnectionRegistry.GetTrackNotLinked | remotedb.go:207-210 | A device that is not linked is reported as such before the slot is looked at, with no I/O and no change. |
| ConnectionRegistry.GetTrackCDUnsupported | remotedb.go:212-214 | A CD slot on a linked device is refused with no I/O and no change. |
| ConnectionRegistry.GetTrackRefreshesOnEOF | remotedb.go:216-223 | End of stream during the lookup replaces the device's entry with a fresh, unlinked record and still returns end of stream. |
| ConnectionRegistry.GetTrackKeepsOtherEntries | remotedb.go:216-223 | Any other lookup outcome keeps the same tracked ids and keeps the device linked. Only that device's session advances. |
| ConnectionRegistry.GetTrackKeepsInvariants | remotedb.go:207-224 | `GetTrack` keeps the registry well formed and keeps every connection's counter discipline. |
| RemoteDBClient.DeviceConnection.constructor | remotedb.go:412-418 | A new connection is unlinked, has counter 1 and no socket traffic. |
| RemoteDBClient.DeviceConnection.Connect | remotedb.go:85-121 | Connect succeeds exactly when the read-in-full port resolution `PortResolver.ServerAddr` succeeds and the handshake succeeds, and the socket is then open. A failure returns the first error and leaves the connection as it was. The counter is not used. |
| RemoteDBClient.DeviceConnection.Close | remotedb.go:153-163 | The socket is dropped, so the connection is unlinked. Nothing else changes. |
| RemoteDBClient.DeviceConnection.Write | remotedb.go:397 | One socket write consumes the next scripted outcome. Only a written packet is recorded. |
| RemoteDBClient.DeviceConnection.ReadMessage | remotedb.go:336 | One read yields the next scripted outcome, or end of stream once the script is exhausted. |
| RemoteDBClient.TrackQuery.constructor | remotedb.go:182-190 | A query holds its track id, slot and device, and its artwork id starts at 0. |
| RemoteDBClient.RemoteDB.constructor | remotedb.go:478-483 | A new client has no connections. |
| RemoteDBClient.RemoteDB.SetRequestingDeviceID | remotedb.go:450-452 | The announced device id becomes the given id. |
| RemoteDBClient.RemoteDB.IsLinked | remotedb.go:200-204 | A device is linked exactly when it is tracked and its socket is open. |
| RemoteDBClient.RemoteDB.SendMessage | remotedb.go:393-404 | The connection's counter, socket and written packets change as `Protocol.Send` says. |
| RemoteDBClient.RemoteDB.GetMenuItems | remotedb.go:331-369 | The loop over `count + 2` entries returns what `MenuProtocol.MenuQuery` says and leaves the connection in the state it describes. |
| RemoteDBClient.RemoteDB.GetArtwork | remotedb.go:372-389 | Writes the artwork request with the query's artwork id, then returns the binary argument of the reply or the first transport error. |
| RemoteDBClient.RemoteDB.QueryTrackMetadata | remotedb.go:261-300 | On success the query's artwork id is the title entry's, and the track is built from the metadata menu. On error the artwork id is unchanged. |
| RemoteDBClient.RemoteDB.QueryTrackPath | remotedb.go:303-327 | The path is the path entry of the track-info menu, which is rendered with the system render type. Errors pass through. |
| RemoteDBClient.RemoteDB.ExecuteQuery | remotedb.go:226-253 | Metadata, then path, then artwork, stopping at the first error. The result, the artwork id and the connection state are those of `TrackLookup.Lookup`. |
| RemoteDBClient.RemoteDB.GetTrack | remotedb.go:207-224 | The registry, the artwork id and the result are those of `ConnectionRegistry.GetTrackOutcome`. Every connection afterwards was there before or is new. |
| RemoteDBClient.RemoteDB.QueryAndRefresh | remotedb.go:216-223 | On a linked device the lookup runs as `TrackLookup.Lookup` says, and the device's connection is refreshed exactly on end of stream. No other connection changes. |
| RemoteDBClient.RemoteDB.QueryLinked | remotedb.go:216 | The query moves only the queried device's session, and the registry changes in that entry alone. |
| RemoteDBClient.RemoteDB.OpenConnection | remotedb.go:407-426 | The registry changes as `ConnectionRegistry.OpenEntry` says. An accepted device gets a newly allocated connection object. |
| RemoteDBClient.RemoteDB.CloseConnection | remotedb.go:429-440 | The old connection is unlinked and its id removed, as `ConnectionRegistry.CloseEntry` says. |
| RemoteDBClient.RemoteDB.RefreshConnection | remotedb.go:443-446 | Close, then open, as `ConnectionRegistry.RefreshEntry` says. The old connection ends unlinked. |
| RemoteDBClient.RemoteDB.Activate | remotedb.go:457-461 | Opening each active device in turn yields `ConnectionRegistry.OpenAll`. |
| RemoteDBClient.RemoteDB.Deactivate | remotedb.go:469-476 | Every connection is closed and the registry ends empty. |
| RemoteDBClient.LinkedClient | remotedb.go:85-121 | Opening an RB or CDJ device on a new client and connecting it leaves exactly that device tracked and linked, with counter 1 and nothing written. |
| RemoteDBClient.Relink | remotedb.go:85-121 | A tracked device whose port query and handshake succeed is linked afterwards, whatever state its connection was in. |

## Left out

- Real sockets are not modelled. Dialling, writes, reads, the discarded 5-byte
  acknowledgement and `readMessagePacket` are replaced by the scripted peer and
  by status parameters of `Connect`.
- The packet codec is not part of this model: `fieldNumber04`,
  `introducePacket`, the request packet types, `makeMenuItem` and the
  `menuItems` helpers. Requests are modelled by the values they carry, and
  replies by their already-decoded fields.
- The numeric values of the message types and item-type tags are defined in
  the codec. The constants here are distinct stand-ins, and no proof depends on
  their values.
- `TrackLookup.GetText` and `TrackLookup.GetNum` assume that an absent tag
  gives the empty string or 0.
- The `ensureConnect`/`tryConnect` retry goroutine, its ticker, the
  `disconnect` channel and `Open` are not modelled, because they are background
  concurrency and timing. `Connect` models one attempt.
- Mutexes are not modelled. The model is single-threaded.
- The `DeviceManager` listener registration in `activate` and `deactivate` is a
  callback API outside this file. `Activate` models opening the devices already
  active.
- Track length is kept as whole seconds, not a `time.Duration`. `DateAdded` is
  not filled in by this file.
- RemoteDBClient.RemoteDB.QueryTrackMetadata: a metadata reply with no title
  entry makes the source dereference a nil entry and panic. The model uses
  artwork id 0 in that case instead.
- RemoteDBClient.RemoteDB.GetMenuItems: the source panics when the setup
  reply's second argument is not a number. The model's message record always
  carries a count. The same applies to `GetArtwork` and the reply's fourth
  argument (`arguments[3]`).
- RemoteDBClient.DeviceConnection.Close: closing twice panics in the source,
  because it sends on an already closed `disconnect` channel. Without the
  channel, a second `Close` in the model is harmless.
- RemoteDBClient.DeviceConnection.Connect: resolves the port with the
  read-in-full `PortResolver.ServerAddr` (see Findings), not the source's
  single read. Suppose the discovery reply's first read delivers one byte. The
  source takes `reply[0]*256` as the port and goes on to dial and run the
  handshake. `Connect` instead fails with `PortQueryFailed(EOF)` when fewer
  than two bytes arrive.
- RemoteDBClient.DeviceConnection.Connect: connecting while a socket is already
  open replaces it without closing the old one, and the model does the same.
  The leaked socket is not represented.
- ConnectionRegistry.OpenEntry: replacing an existing entry does not close the
  replaced connection, exactly as in the source. The replaced connection's
  socket is not represented after that.

## Findings

| source | as written | input that shows it | evidently intended | confidence | as-written member | corrected member |
|---|---|---|---|---|---|---|
| remotedb.go:59-66 | One `conn.Read` into a zeroed 2-byte buffer; its byte count is ignored. | The device answers `30 39` (port 12345) and the bytes arrive in two TCP segments. The read returns one byte, and the port resolves to `0x3000` = 12288. | Read both bytes in full (`io.ReadFull`), and fail if fewer arrive. | medium, not executed | PortResolver.ServerAddrAsWritten, PortResolver.ShortReadMisreadsPort | PortResolver.ServerAddr |
