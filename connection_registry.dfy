/** The connection registry of `RemoteDB` as a value: a map from device id to
    the state of that device's connection, with the operations that open,
    close and refresh entries and the `GetTrack` policy over it. */
module ConnectionRegistry {
  import opened Bytes
  import opened Errors
  import opened Protocol
  import opened TrackLookup
  import PortResolver

  /** Kinds of device on the network (`DeviceType`). */
  datatype DeviceType = DeviceTypeCDJ | DeviceTypeMixer | DeviceTypeRB

  /** A device seen on the network. */
  datatype Device = Device(id: DeviceID, kind: DeviceType, ip: PortResolver.IP)

  /** Device types that serve the remote database (`allowedDevices`). */
  const AllowedDevices: set<DeviceType> := {DeviceTypeRB, DeviceTypeCDJ}

  /** The state of one `deviceConnection`: its device, whether its socket is
      open (`conn != nil`), and its counter and socket script. */
  datatype ConnState = ConnState(device: Device, linked: bool, session: Session)

  type Conns = map<DeviceID, ConnState>

  /** A connection as `openConnection` creates it: not yet connected, counter 1. */
  function NewConn(dev: Device): ConnState
  {
    ConnState(dev, false, FreshSession())
  }

  /** Every entry sits under its own device's id and belongs to an allowed
      device type. */
  ghost predicate WellFormed(reg: Conns)
  {
    forall k :: k in reg ==> reg[k].device.id == k && reg[k].device.kind in AllowedDevices
  }

  /** Every entry keeps the counter discipline. */
  ghost predicate CountersHold(reg: Conns)
  {
    forall k :: k in reg ==> CountersConsistent(reg[k].session)
  }

  /** `IsLinked`: the device has an entry and that entry's socket is open. */
  predicate Linked(reg: Conns, id: DeviceID)
  {
    id in reg && reg[id].linked
  }

  /** `openConnection`: a device of a type that serves no database is ignored;
      otherwise its entry is set, replacing any earlier one, to a fresh
      connection. No other entry changes. */
  function OpenEntry(reg: Conns, dev: Device): (r: Conns)
    ensures dev.kind !in AllowedDevices ==> r == reg
    ensures dev.kind in AllowedDevices ==> dev.id in r && r[dev.id] == NewConn(dev)
    ensures forall k :: k != dev.id ==> (k in r <==> k in reg)
    ensures forall k :: k != dev.id && k in r ==> r[k] == reg[k]
  {
    if dev.kind in AllowedDevices then reg[dev.id := NewConn(dev)] else reg
  }

  /** `closeConnection`: removes the device's entry, if any; no other entry
      changes. */
  function CloseEntry(reg: Conns, id: DeviceID): (r: Conns)
    ensures r.Keys == reg.Keys - {id}
    ensures forall k :: k in r ==> r[k] == reg[k]
  {
    reg - {id}
  }

  /** `refreshConnection`: close, then open. For a device of an allowed type
      the entry becomes a fresh connection, whether or not one was tracked;
      for any other type the entry is dropped. */
  function RefreshEntry(reg: Conns, dev: Device): (r: Conns)
    ensures dev.kind in AllowedDevices ==> r == reg[dev.id := NewConn(dev)]
    ensures dev.kind !in AllowedDevices ==> r == reg - {dev.id}
  {
    OpenEntry(CloseEntry(reg, dev.id), dev)
  }

  /** For a tracked device, a refresh leaves a fresh, unlinked connection with
      counter 1 in place of the old one and changes nothing else. */
  lemma RefreshYieldsFreshEntry(reg: Conns, dev: Device)
    requires WellFormed(reg) && dev.id in reg && dev == reg[dev.id].device
    ensures RefreshEntry(reg, dev) == reg[dev.id := NewConn(dev)]
    ensures !Linked(RefreshEntry(reg, dev), dev.id)
    ensures RefreshEntry(reg, dev)[dev.id].session.txCount == 1
  {
  }

  /** `openConnection` applied to each device in turn (the start of
      `activate`). No entry is lost, and every entry is either an earlier one
      untouched or a fresh connection; `OpenAllLastWins` and
      `OpenAllKeepsUnlisted` say which. */
  function OpenAll(reg: Conns, devs: seq<Device>): (r: Conns)
    ensures reg.Keys <= r.Keys
    ensures forall k :: k in r ==> (k in reg && r[k] == reg[k]) || r[k] == NewConn(r[k].device)
    decreases |devs|
  {
    if |devs| == 0 then reg else OpenEntry(OpenAll(reg, devs[..|devs| - 1]), devs[|devs| - 1])
  }

  /** After opening a list of devices, the tracked ids are the earlier ones
      plus exactly the ids of the devices of an allowed type. */
  lemma {:induction false} OpenAllKeys(reg: Conns, devs: seq<Device>, id: DeviceID)
    ensures id in OpenAll(reg, devs) <==>
      id in reg || exists i :: 0 <= i < |devs| && devs[i].id == id && devs[i].kind in AllowedDevices
    decreases |devs|
  {
    if |devs| > 0 {
      var init := devs[..|devs| - 1];
      OpenAllKeys(reg, init, id);
      if exists i :: 0 <= i < |init| && init[i].id == id && init[i].kind in AllowedDevices {
        var i :| 0 <= i < |init| && init[i].id == id && init[i].kind in AllowedDevices;
        assert devs[i] == init[i];
      }
      if exists i :: 0 <= i < |devs| && devs[i].id == id && devs[i].kind in AllowedDevices {
        var i :| 0 <= i < |devs| && devs[i].id == id && devs[i].kind in AllowedDevices;
        if i < |devs| - 1 {
          assert init[i] == devs[i];
        }
      }
    }
  }

  /** The last listed device of an allowed type with a given id leaves a
      fresh connection for itself under that id, whatever was tracked there
      before. */
  lemma {:induction false} OpenAllLastWins(reg: Conns, devs: seq<Device>, i: nat)
    requires i < |devs| && devs[i].kind in AllowedDevices
    requires forall j :: i < j < |devs| && devs[j].kind in AllowedDevices ==> devs[j].id != devs[i].id
    ensures devs[i].id in OpenAll(reg, devs) && OpenAll(reg, devs)[devs[i].id] == NewConn(devs[i])
    decreases |devs|
  {
    var init := devs[..|devs| - 1];
    if i < |devs| - 1 {
      assert init[i] == devs[i];
      forall j | i < j < |init| && init[j].kind in AllowedDevices
        ensures init[j].id != init[i].id
      {
        assert init[j] == devs[j];
      }
      OpenAllLastWins(reg, init, i);
    }
  }

  /** An entry whose id no listed device of an allowed type carries is kept
      as it was. */
  lemma {:induction false} OpenAllKeepsUnlisted(reg: Conns, devs: seq<Device>, id: DeviceID)
    requires id in reg
    requires forall j :: 0 <= j < |devs| && devs[j].kind in AllowedDevices ==> devs[j].id != id
    ensures id in OpenAll(reg, devs) && OpenAll(reg, devs)[id] == reg[id]
    decreases |devs|
  {
    if |devs| > 0 {
      var init := devs[..|devs| - 1];
      forall j | 0 <= j < |init| && init[j].kind in AllowedDevices
        ensures init[j].id != id
      {
        assert init[j] == devs[j];
      }
      OpenAllKeepsUnlisted(reg, init, id);
    }
  }

  /** Outcome of `GetTrack`: the registry after it, the query's artwork id
      field after it, and the result. */
  datatype TrackOutcome = TrackOutcome(registry: Conns, artworkID: uint32, result: Result<Track>)

  /** `GetTrack`: a device that is not linked is rejected first, then a CD
      slot; otherwise the lookup runs on the device's connection, and if it
      fails with end of stream the connection is refreshed and the error
      still returned. The two refusals are told apart from every lookup error,
      and in a well-formed registry no other device's entry is touched. */
  function GetTrackOutcome(reg: Conns, requester: DeviceID, deviceID: DeviceID, trackID: uint32,
                           slot: TrackSlot, artworkID: uint32): (o: TrackOutcome)
    ensures o.result == Err(ErrDeviceNotLinked) <==> !Linked(reg, deviceID)
    ensures o.result == Err(ErrCDUnsupported) <==> Linked(reg, deviceID) && slot == SlotCD
    ensures WellFormed(reg) ==> forall k :: k != deviceID ==> (k in o.registry <==> k in reg)
    ensures WellFormed(reg) ==> forall k :: k != deviceID && k in reg ==> o.registry[k] == reg[k]
  {
    if !Linked(reg, deviceID) then TrackOutcome(reg, artworkID, Err(ErrDeviceNotLinked))
    else if slot == SlotCD then TrackOutcome(reg, artworkID, Err(ErrCDUnsupported))
    else
      var c := reg[deviceID];
      var l := Lookup(c.session, requester, trackID, slot, artworkID);
      var after := reg[deviceID := c.(session := l.session)];
      if l.result == Err(Transport(EOF)) then TrackOutcome(RefreshEntry(after, c.device), l.artworkID, l.result)
      else TrackOutcome(after, l.artworkID, l.result)
  }

  /** The outcome of `GetTrack` on a linked device and a slot other than CD,
      given the outcome `l` of the lookup on that device's connection. */
  lemma GetTrackAfterLookup(reg: Conns, requester: DeviceID, deviceID: DeviceID, trackID: uint32,
                            slot: TrackSlot, artworkID: uint32, l: LookupOutcome)
    requires Linked(reg, deviceID) && slot != SlotCD
    requires l == Lookup(reg[deviceID].session, requester, trackID, slot, artworkID)
    ensures var after := reg[deviceID := reg[deviceID].(session := l.session)];
      GetTrackOutcome(reg, requester, deviceID, trackID, slot, artworkID)
        == if l.result == Err(Transport(EOF))
           then TrackOutcome(RefreshEntry(after, reg[deviceID].device), l.artworkID, l.result)
           else TrackOutcome(after, l.artworkID, l.result)
  {
  }

  /** A device that is not linked is reported as such whatever the slot (even
      a CD slot), with no I/O: the registry and the artwork id are unchanged. */
  lemma GetTrackNotLinked(reg: Conns, requester: DeviceID, deviceID: DeviceID, trackID: uint32,
                          slot: TrackSlot, artworkID: uint32)
    requires !Linked(reg, deviceID)
    ensures GetTrackOutcome(reg, requester, deviceID, trackID, slot, artworkID)
      == TrackOutcome(reg, artworkID, Err(ErrDeviceNotLinked))
  {
  }

  /** A CD slot on a linked device is refused with no I/O. */
  lemma GetTrackCDUnsupported(reg: Conns, requester: DeviceID, deviceID: DeviceID, trackID: uint32,
                              artworkID: uint32)
    requires Linked(reg, deviceID)
    ensures GetTrackOutcome(reg, requester, deviceID, trackID, SlotCD, artworkID)
      == TrackOutcome(reg, artworkID, Err(ErrCDUnsupported))
  {
  }

  /** End of stream during the lookup replaces the device's connection with a
      fresh, unlinked one with counter 1, leaves every other entry alone, and
      is still returned to the caller. */
  lemma GetTrackRefreshesOnEOF(reg: Conns, requester: DeviceID, deviceID: DeviceID, trackID: uint32,
                               slot: TrackSlot, artworkID: uint32)
    requires WellFormed(reg) && Linked(reg, deviceID) && slot != SlotCD
    requires Lookup(reg[deviceID].session, requester, trackID, slot, artworkID).result == Err(Transport(EOF))
    ensures var o := GetTrackOutcome(reg, requester, deviceID, trackID, slot, artworkID);
      && o.result == Err(Transport(EOF))
      && o.registry == reg[deviceID := NewConn(reg[deviceID].device)]
      && !Linked(o.registry, deviceID)
  {
    var c := reg[deviceID];
    var l := Lookup(c.session, requester, trackID, slot, artworkID);
    var after := reg[deviceID := c.(session := l.session)];
    RefreshYieldsFreshEntry(after, c.device);
  }

  /** Any other outcome of the lookup keeps the registry's shape: the same
      ids, the device still linked, only its connection's session advanced. */
  lemma GetTrackKeepsOtherEntries(reg: Conns, requester: DeviceID, deviceID: DeviceID, trackID: uint32,
                                  slot: TrackSlot, artworkID: uint32)
    requires Linked(reg, deviceID) && slot != SlotCD
    requires Lookup(reg[deviceID].session, requester, trackID, slot, artworkID).result != Err(Transport(EOF))
    ensures var o := GetTrackOutcome(reg, requester, deviceID, trackID, slot, artworkID);
      && o.registry.Keys == reg.Keys
      && Linked(o.registry, deviceID)
      && o.registry[deviceID].device == reg[deviceID].device
      && o.registry[deviceID].session == Lookup(reg[deviceID].session, requester, trackID, slot, artworkID).session
      && forall k :: k in reg && k != deviceID ==> o.registry[k] == reg[k]
  {
  }

  /** `GetTrack` keeps the registry well formed and every connection's
      counter discipline. */
  lemma GetTrackKeepsInvariants(reg: Conns, requester: DeviceID, deviceID: DeviceID, trackID: uint32,
                                slot: TrackSlot, artworkID: uint32)
    requires WellFormed(reg) && CountersHold(reg)
    ensures WellFormed(GetTrackOutcome(reg, requester, deviceID, trackID, slot, artworkID).registry)
    ensures CountersHold(GetTrackOutcome(reg, requester, deviceID, trackID, slot, artworkID).registry)
  {
    if Linked(reg, deviceID) && slot != SlotCD {
      LookupKeepsCounters(reg[deviceID].session, requester, trackID, slot, artworkID);
      FreshSessionConsistent();
    }
  }
}
