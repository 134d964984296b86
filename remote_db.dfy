/** The remote database client as objects: one `DeviceConnection` per
    device, the `TrackQuery` a lookup fills in, and the `RemoteDB` registry
    with its query and lifecycle operations. Each operation is proved to act
    as the value model in `Protocol`, `MenuProtocol`, `TrackLookup` and
    `ConnectionRegistry` says. */
module RemoteDBClient {
  import opened Bytes
  import opened Errors
  import opened Protocol
  import opened MenuProtocol
  import opened TrackLookup
  import opened ConnectionRegistry
  import PortResolver

  /** `deviceConnection`: the device, whether its socket is open, the
      transaction counter, and the socket, modelled as a scripted peer. */
  class DeviceConnection {
    const device: Device
    var linked: bool
    var txCount: uint32
    var inbox: seq<ReadOutcome>
    var writeResults: seq<WriteOutcome>
    var sent: seq<Packet>

    function SessionState(): Session
      reads this
    {
      Session(txCount, inbox, writeResults, sent)
    }

    function State(): ConnState
      reads this
    {
      ConnState(device, linked, SessionState())
    }

    /** The record `openConnection` allocates: counter 1, no socket yet. */
    constructor (dev: Device)
      ensures State() == NewConn(dev)
    {
      device := dev;
      linked := false;
      txCount := 1;
      inbox := [];
      writeResults := [];
      sent := [];
    }

    /** `connect`: ask the device for its database server's port (reading
        the two reply bytes in full, see `PortResolver.ServerAddr`), dial that
        port, then write the preamble and introduce messages and read the
        acknowledgement. The outcomes of the discovery exchange and of the rest
        of the handshake are inputs; on success the socket is open, scripted by
        `peerInbox` and `peerWrites`; a failed attempt leaves the connection as
        it was. The handshake does not use the counter. */
    method Connect(dial: PortResolver.IoStatus, query: PortResolver.IoStatus, reply: seq<byte>,
                   handshake: Status, peerInbox: seq<ReadOutcome>, peerWrites: seq<WriteOutcome>)
      returns (r: Status)
      modifies this
      ensures var addr := PortResolver.ServerAddr(device.ip, dial, query, reply);
        && (r.Pass? <==> addr.Ok? && handshake.Pass?)
        && r == (if addr.Err? then Fail(addr.error) else handshake)
      ensures r.Pass? ==> linked && inbox == peerInbox && writeResults == peerWrites
      ensures r.Fail? ==> linked == old(linked) && inbox == old(inbox) && writeResults == old(writeResults)
      ensures txCount == old(txCount) && sent == old(sent)
    {
      var addr := PortResolver.ServerAddr(device.ip, dial, query, reply);
      if addr.Err? {
        return Fail(addr.error);
      }
      if handshake.Fail? {
        return handshake;
      }
      inbox, writeResults := peerInbox, peerWrites;
      linked := true;
      return Pass;
    }

    /** `Close`: an open socket is closed and dropped; nothing else changes. */
    method Close()
      modifies this
      ensures State() == old(State()).(linked := false)
    {
      if linked {
        linked := false;
      }
    }

    /** `conn.Write` of one packet. */
    method Write(p: Packet) returns (w: WriteOutcome)
      modifies this
      ensures (SessionState(), w) == Transmit(old(SessionState()), p)
      ensures linked == old(linked)
    {
      if |writeResults| == 0 {
        w := Written;
      } else {
        w := writeResults[0];
        writeResults := writeResults[1..];
      }
      if w.Written? {
        sent := sent + [p];
      }
    }

    /** `readMessagePacket` on the socket. */
    method ReadMessage() returns (o: ReadOutcome)
      modifies this
      ensures (SessionState(), o) == Receive(old(SessionState()))
      ensures linked == old(linked)
    {
      if |inbox| == 0 {
        o := ReadFailed(EOF);
      } else {
        o := inbox[0];
        inbox := inbox[1..];
      }
    }
  }

  /** `TrackQuery`: what to look up, and the artwork id field that the
      metadata step fills in for the artwork step. */
  class TrackQuery {
    const trackID: uint32
    const slot: TrackSlot
    const deviceID: DeviceID
    var artworkID: uint32

    constructor (trackID: uint32, slot: TrackSlot, deviceID: DeviceID)
      ensures this.trackID == trackID && this.slot == slot && this.deviceID == deviceID
      ensures artworkID == 0
    {
      this.trackID := trackID;
      this.slot := slot;
      this.deviceID := deviceID;
      artworkID := 0;
    }
  }

  /** `RemoteDB`: the id this client announces and the connections by device. */
  class RemoteDB {
    var deviceID: DeviceID
    var conns: map<DeviceID, DeviceConnection>

    /** Every connection sits under its own device's id (so distinct ids hold
        distinct connections) and belongs to a database-serving device type. */
    ghost predicate Valid()
      reads this
    {
      forall k :: k in conns ==> conns[k].device.id == k && conns[k].device.kind in AllowedDevices
    }

    /** The registry as a value. */
    function Registry(): Conns
      reads this, conns.Values
    {
      map k | k in conns :: conns[k].State()
    }

    /** `newRemoteDB`: no connections. */
    constructor ()
      ensures Valid() && conns == map[] && Registry() == map[]
    {
      deviceID := 0;
      conns := map[];
    }

    /** `setRequestingDeviceID`. */
    method SetRequestingDeviceID(id: DeviceID)
      modifies this`deviceID
      ensures deviceID == id
    {
      deviceID := id;
    }

    /** `IsLinked`: the device is tracked and its socket is open. */
    predicate IsLinked(devID: DeviceID)
      reads this, conns.Values
      ensures IsLinked(devID) == Linked(Registry(), devID)
    {
      devID in conns && conns[devID].linked
    }

    /** `sendMessage`. */
    method SendMessage(devID: DeviceID, req: Request) returns (w: WriteOutcome)
      requires devID in conns && conns[devID].linked
      modifies conns[devID]
      ensures conns[devID].linked
      ensures (conns[devID].SessionState(), w) == Send(old(conns[devID].SessionState()), req)
    {
      var devConn := conns[devID];
      w := devConn.Write(Packet(devConn.txCount, req));
      if w.WriteFailed? {
        return;
      }
      devConn.txCount := NextTx(devConn.txCount);
    }

    /** `getMenuItems`. */
    method GetMenuItems(devID: DeviceID, setup: Request, render: Request) returns (r: Result<Items>)
      requires devID in conns && conns[devID].linked
      modifies conns[devID]
      ensures conns[devID].linked
      ensures (conns[devID].SessionState(), r) == MenuQuery(old(conns[devID].SessionState()), setup, render)
    {
      var devConn := conns[devID];
      var w := SendMessage(devID, setup);
      if w.WriteFailed? {
        return Err(Transport(w.reason));
      }
      var resp := devConn.ReadMessage();
      if resp.ReadFailed? {
        return Err(Transport(resp.reason));
      }
      if resp.msg.msgType != MsgTypeResponse {
        return Err(InvalidMenuResponse(resp.msg.msgType));
      }
      w := SendMessage(devID, render);
      if w.WriteFailed? {
        return Err(Transport(w.reason));
      }

      // the header and the footer entry come on top of the announced items
      var entryCount := resp.msg.count + 2;
      var items: Items := map[];
      ghost var start := devConn.SessionState();
      for i := 0 to entryCount
        invariant devConn.linked
        invariant ReadMenuEntries(devConn.SessionState(), entryCount - i, items)
               == ReadMenuEntries(start, entryCount, map[])
      {
        var entry := devConn.ReadMessage();
        if entry.ReadFailed? {
          return Err(Transport(entry.reason));
        }
        if entry.msg.msgType != MsgTypeMenuItem {
          continue;
        }
        items := items[entry.msg.item.itemType := entry.msg.item];
      }
      return Ok(items);
    }

    /** `getArtwork`. */
    method GetArtwork(q: TrackQuery) returns (r: Result<seq<byte>>)
      requires q.deviceID in conns && conns[q.deviceID].linked
      modifies conns[q.deviceID]
      ensures conns[q.deviceID].linked
      ensures (conns[q.deviceID].SessionState(), r)
           == ArtworkQuery(old(conns[q.deviceID].SessionState()), deviceID, q.slot, q.artworkID)
    {
      var w := SendMessage(q.deviceID, ArtworkRequest(deviceID, q.slot, q.artworkID));
      if w.WriteFailed? {
        return Err(Transport(w.reason));
      }
      var resp := conns[q.deviceID].ReadMessage();
      if resp.ReadFailed? {
        return Err(Transport(resp.reason));
      }
      return Ok(resp.msg.artwork);
    }

    /** `queryTrackMetadata`: on success the query's artwork id field holds
        the title entry's artwork id. */
    method QueryTrackMetadata(q: TrackQuery) returns (r: Result<Track>)
      requires q.deviceID in conns && conns[q.deviceID].linked
      modifies q, conns[q.deviceID]
      ensures conns[q.deviceID].linked
      ensures var m := MenuQuery(old(conns[q.deviceID].SessionState()),
                                 MetadataSetup(deviceID, q.slot, q.trackID), MetadataRender(deviceID, q.slot));
        && conns[q.deviceID].SessionState() == m.0
        && (m.1.Err? ==> r == Err(m.1.error) && q.artworkID == old(q.artworkID))
        && (m.1.Ok? ==> r == Ok(TrackFromMetadata(q.trackID, m.1.value)) && q.artworkID == TitleArtworkID(m.1.value))
    {
      var getMetadata := MetadataRequest(deviceID, q.slot, q.trackID);
      var renderData := RenderRequest(deviceID, q.slot, RenderDefault, 0, RenderLimit);
      var items := GetMenuItems(q.deviceID, getMetadata, renderData);
      if items.Err? {
        return Err(items.error);
      }
      q.artworkID := TitleArtworkID(items.value);
      return Ok(TrackFromMetadata(q.trackID, items.value));
    }

    /** `queryTrackPath`. */
    method QueryTrackPath(q: TrackQuery) returns (r: Result<string>)
      requires q.deviceID in conns && conns[q.deviceID].linked
      modifies conns[q.deviceID]
      ensures conns[q.deviceID].linked
      ensures var m := MenuQuery(old(conns[q.deviceID].SessionState()),
                                 PathSetup(deviceID, q.slot, q.trackID), PathRender(deviceID, q.slot));
        && conns[q.deviceID].SessionState() == m.0
        && r == (if m.1.Err? then Err(m.1.error) else Ok(GetText(m.1.value, ItemTypePath)))
    {
      var trackInfoRequest := TrackInfoRequest(deviceID, q.slot, q.trackID);
      var renderRequest := RenderRequest(deviceID, q.slot, RenderSystem, 0, RenderLimit);
      var items := GetMenuItems(q.deviceID, trackInfoRequest, renderRequest);
      if items.Err? {
        return Err(items.error);
      }
      return Ok(GetText(items.value, ItemTypePath));
    }

    /** `executeQuery`: metadata, then path, then artwork; the first error
        ends the query. */
    method ExecuteQuery(q: TrackQuery) returns (r: Result<Track>)
      requires q.deviceID in conns && conns[q.deviceID].linked
      modifies q, conns[q.deviceID]
      ensures conns[q.deviceID].linked
      ensures var l := Lookup(old(conns[q.deviceID].SessionState()), deviceID, q.trackID, q.slot, old(q.artworkID));
        && conns[q.deviceID].SessionState() == l.session
        && q.artworkID == l.artworkID
        && r == l.result
    {
      var meta := QueryTrackMetadata(q);
      if meta.Err? {
        return Err(meta.error);
      }
      var track := meta.value;
      var path := QueryTrackPath(q);
      if path.Err? {
        return Err(path.error);
      }
      track := track.(path := path.value);
      var artwork := GetArtwork(q);
      if artwork.Err? {
        return Err(artwork.error);
      }
      track := track.(artwork := artwork.value);
      return Ok(track);
    }

    /** `GetTrack`. */
    method GetTrack(q: TrackQuery) returns (r: Result<Track>)
      requires Valid()
      modifies this`conns, q, conns.Values
      ensures Valid()
      ensures var o := GetTrackOutcome(old(Registry()), deviceID, q.deviceID, q.trackID, q.slot, old(q.artworkID));
        && Registry() == o.registry
        && q.artworkID == o.artworkID
        && r == o.result
      ensures forall c :: c in conns.Values ==> c in old(conns.Values) || fresh(c)
    {
      ghost var before := Registry();
      if !IsLinked(q.deviceID) {
        GetTrackNotLinked(before, deviceID, q.deviceID, q.trackID, q.slot, q.artworkID);
        return Err(ErrDeviceNotLinked);
      }
      if q.slot == SlotCD {
        GetTrackCDUnsupported(before, deviceID, q.deviceID, q.trackID, q.artworkID);
        return Err(ErrCDUnsupported);
      }
      ghost var l := Lookup(before[q.deviceID].session, deviceID, q.trackID, q.slot, q.artworkID);
      GetTrackAfterLookup(before, deviceID, q.deviceID, q.trackID, q.slot, q.artworkID, l);
      r := QueryAndRefresh(q);
    }

    /** The part of `GetTrack` after its two checks: run the query and, if it
        meets end of stream, refresh the device's connection. */
    method QueryAndRefresh(q: TrackQuery) returns (r: Result<Track>)
      requires Valid() && q.deviceID in conns && conns[q.deviceID].linked
      modifies this`conns, q, conns.Values
      ensures Valid()
      ensures var reg := old(Registry());
        var l := Lookup(reg[q.deviceID].session, deviceID, q.trackID, q.slot, old(q.artworkID));
        var after := reg[q.deviceID := reg[q.deviceID].(session := l.session)];
        && Registry() == (if l.result == Err(Transport(EOF)) then RefreshEntry(after, reg[q.deviceID].device) else after)
        && q.artworkID == l.artworkID
        && r == l.result
      ensures forall c :: c in conns.Values ==> c in old(conns.Values) || fresh(c)
    {
      ghost var dev := conns[q.deviceID].device;
      r := QueryLinked(q);
      ghost var mid := Registry();
      if r.Err? && r.error == Transport(EOF) {
        RefreshConnection(conns[q.deviceID].device);
        assert Registry() == RefreshEntry(mid, dev);
      }
    }

    /** `executeQuery` on a tracked, linked device, seen from the registry:
        only that device's session moves. */
    method QueryLinked(q: TrackQuery) returns (r: Result<Track>)
      requires Valid() && q.deviceID in conns && conns[q.deviceID].linked
      modifies q, conns[q.deviceID]
      ensures Valid() && conns == old(conns)
      ensures var reg := old(Registry());
        var l := Lookup(reg[q.deviceID].session, deviceID, q.trackID, q.slot, old(q.artworkID));
        && Registry() == reg[q.deviceID := reg[q.deviceID].(session := l.session)]
        && q.artworkID == l.artworkID
        && r == l.result
    {
      ghost var before := Registry();
      assert before[q.deviceID].session == conns[q.deviceID].SessionState();
      r := ExecuteQuery(q);
      assert Registry() == before[q.deviceID := before[q.deviceID].(session := conns[q.deviceID].SessionState())];
    }

    /** `openConnection`. */
    method OpenConnection(dev: Device)
      requires Valid()
      modifies this`conns
      ensures Valid()
      ensures Registry() == OpenEntry(old(Registry()), dev)
      ensures dev.kind !in AllowedDevices ==> conns == old(conns)
      ensures dev.kind in AllowedDevices ==>
        dev.id in conns && fresh(conns[dev.id]) && conns == old(conns)[dev.id := conns[dev.id]]
    {
      if dev.kind !in AllowedDevices {
        return;
      }
      var conn := new DeviceConnection(dev);
      conns := conns[dev.id := conn];
    }

    /** `closeConnection`. */
    method CloseConnection(dev: Device)
      requires Valid()
      modifies this`conns, if dev.id in conns then {conns[dev.id]} else {}
      ensures Valid()
      ensures conns == old(conns) - {dev.id}
      ensures Registry() == CloseEntry(old(Registry()), dev.id)
      ensures dev.id in old(conns) ==> !old(conns)[dev.id].linked
    {
      if dev.id !in conns {
        return;
      }
      conns[dev.id].Close();
      conns := conns - {dev.id};
    }

    /** `refreshConnection`. */
    method RefreshConnection(dev: Device)
      requires Valid()
      modifies this`conns, if dev.id in conns then {conns[dev.id]} else {}
      ensures Valid()
      ensures Registry() == RefreshEntry(old(Registry()), dev)
      ensures forall c :: c in conns.Values ==> c in old(conns.Values) || fresh(c)
      ensures dev.id in old(conns) ==> !old(conns)[dev.id].linked
    {
      CloseConnection(dev);
      OpenConnection(dev);
    }

    /** The start of `activate`: open a connection to every device already
        on the network. */
    method Activate(devices: seq<Device>)
      requires Valid()
      modifies this`conns
      ensures Valid()
      ensures Registry() == OpenAll(old(Registry()), devices)
    {
      for i := 0 to |devices|
        invariant Valid()
        invariant Registry() == OpenAll(old(Registry()), devices[..i])
      {
        assert devices[..i + 1][..i] == devices[..i];
        OpenConnection(devices[i]);
      }
      assert devices[..|devices|] == devices;
    }

    /** `deactivate`: close and forget every connection. */
    method Deactivate()
      requires Valid()
      modifies this`conns, conns.Values
      ensures Valid()
      ensures conns == map[] && Registry() == map[]
      ensures forall k :: k in old(conns) ==> !old(conns)[k].linked
    {
      while conns != map[]
        invariant Valid()
        invariant forall k :: k in conns ==> k in old(conns) && conns[k] == old(conns)[k]
        invariant forall k :: k in old(conns) && k !in conns ==> !old(conns)[k].linked
        decreases conns.Keys
      {
        var k :| k in conns;
        CloseConnection(conns[k].device);
      }
    }
  }

  /** A new client that has opened a connection to `dev` and linked it to a
      peer that takes every write and sends nothing. */
  method LinkedClient(dev: Device) returns (db: RemoteDB)
    requires dev.kind in AllowedDevices
    ensures fresh(db) && db.Valid() && db.conns.Keys == {dev.id}
    ensures forall c :: c in db.conns.Values ==> fresh(c)
    ensures db.Registry() == map[dev.id := ConnState(dev, true, FreshSession())]
  {
    db := new RemoteDB();
    db.OpenConnection(dev);
    var status := db.conns[dev.id].Connect(PortResolver.Completed, PortResolver.Completed, [0x30, 0x39], Pass, [], []);
    assert status == Pass;
  }

  /** A client run against a device that links and then sends nothing: the
      query fails with end of stream, the link is dropped and can be made again. */
  method EndOfStreamRecovery()
  {
    var dev := Device(3, DeviceTypeCDJ, [192, 168, 1, 3]);
    var db := LinkedClient(dev);
    var q := new TrackQuery(42, SlotUSB, dev.id);
    LookupOnSilentPeer(FreshSession(), db.deviceID, 42, SlotUSB, q.artworkID);
    GetTrackRefreshesOnEOF(db.Registry(), db.deviceID, dev.id, 42, SlotUSB, q.artworkID);
    var r := db.GetTrack(q);
    assert r == Err(Transport(EOF));
    assert !db.IsLinked(dev.id);

    var status := Relink(db, dev.id);
    assert db.IsLinked(dev.id);
  }

  /** A tracked device whose port query and handshake succeed is linked
      afterwards, whatever state its connection was in. */
  method Relink(db: RemoteDB, id: DeviceID) returns (status: Status)
    requires id in db.conns
    modifies db.conns[id]
    ensures status == Pass && db.IsLinked(id)
  {
    status := db.conns[id].Connect(PortResolver.Completed, PortResolver.Completed, [0x30, 0x39], Pass, [], []);
  }

  /** A client run that asks for a track before any device is tracked: the
      query is refused and no connection appears. */
  method QueryBeforeLink()
  {
    var db := new RemoteDB();
    var q := new TrackQuery(42, SlotUSB, 3);
    var r := db.GetTrack(q);
    assert r == Err(ErrDeviceNotLinked) && db.Registry() == map[];
  }

  /** A client run that asks a linked device for a CD track: the query is
      refused before anything is written and the link stays up. */
  method QueryForCD()
  {
    var dev := Device(3, DeviceTypeCDJ, [192, 168, 1, 3]);
    var db := LinkedClient(dev);
    var cd := new TrackQuery(42, SlotCD, dev.id);
    var r := db.GetTrack(cd);
    assert r == Err(ErrCDUnsupported) && db.IsLinked(dev.id);
    assert db.conns[dev.id].sent == [];
  }
}
