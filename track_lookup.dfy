/** One track lookup over one connection (`executeQuery`): the metadata menu
    query, the track-info menu query for the path, and the artwork request,
    in that order, stopping at the first error. */
module TrackLookup {
  import opened Bytes
  import opened Errors
  import opened Protocol
  import opened MenuProtocol

  /** Item-type tags the lookup reads. The protocol's tag values are defined
      with the packet codec, outside this model; these stand-ins are pairwise
      distinct and nothing proved depends on their values. */
  const ItemTypeAlbum: byte := 0x02
  const ItemTypeTitle: byte := 0x04
  const ItemTypeGenre: byte := 0x06
  const ItemTypeArtist: byte := 0x07
  const ItemTypeDuration: byte := 0x0b
  const ItemTypeLabel: byte := 0x0e
  const ItemTypeKey: byte := 0x0f
  const ItemTypeComment: byte := 0x23
  const ItemTypePath: byte := 0x2f

  /** Number of entries each render request asks for (`limit: 32`). */
  const RenderLimit: nat := 32

  /** Track details retrieved from the remote database. The length is kept as
      its count of seconds. */
  datatype Track = Track(
    id: uint32,
    path: string,
    title: string,
    artist: string,
    album: string,
    recordLabel: string,
    genre: string,
    comment: string,
    key: string,
    lengthSeconds: uint32,
    artwork: seq<byte>)

  /** `menuItems.getText`: the text of the entry with the tag, empty if none. */
  function GetText(items: Items, tag: byte): string
  {
    if tag in items then items[tag].text else ""
  }

  /** `menuItems.getNum`: the number of the entry with the tag, 0 if none. */
  function GetNum(items: Items, tag: byte): uint32
  {
    if tag in items then items[tag].num else 0
  }

  /** The artwork id carried by the title entry (0 when there is none). */
  function TitleArtworkID(items: Items): uint32
  {
    if ItemTypeTitle in items then items[ItemTypeTitle].artworkID else 0
  }

  /** The sparse track `queryTrackMetadata` builds: the queried id, the texts
      and duration of the metadata menu, and no path and no artwork, which
      are looked up separately. */
  function TrackFromMetadata(trackID: uint32, items: Items): (t: Track)
    ensures t.id == trackID && t.path == "" && t.artwork == []
  {
    Track(trackID, "", GetText(items, ItemTypeTitle), GetText(items, ItemTypeArtist),
          GetText(items, ItemTypeAlbum), GetText(items, ItemTypeLabel), GetText(items, ItemTypeGenre),
          GetText(items, ItemTypeComment), GetText(items, ItemTypeKey), GetNum(items, ItemTypeDuration), [])
  }

  function MetadataSetup(requester: DeviceID, slot: TrackSlot, trackID: uint32): Request
  {
    MetadataRequest(requester, slot, trackID)
  }

  function MetadataRender(requester: DeviceID, slot: TrackSlot): Request
  {
    RenderRequest(requester, slot, RenderDefault, 0, RenderLimit)
  }

  function PathSetup(requester: DeviceID, slot: TrackSlot, trackID: uint32): Request
  {
    TrackInfoRequest(requester, slot, trackID)
  }

  function PathRender(requester: DeviceID, slot: TrackSlot): Request
  {
    RenderRequest(requester, slot, RenderSystem, 0, RenderLimit)
  }

  /** The field of the collected menu under the tag of its last menu entry
      is that entry's: `getText` gives its text, `getNum` its number, and for
      the title tag the artwork id is the one the entry carries. */
  lemma {:induction false} FieldsOfLastEntry(msgs: seq<Message>, j: nat)
    requires j < |msgs| && IsMenuItem(msgs[j])
    requires forall i :: j < i < |msgs| ==>
      !(IsMenuItem(msgs[i]) && msgs[i].item.itemType == msgs[j].item.itemType)
    ensures GetText(Collect(msgs), msgs[j].item.itemType) == msgs[j].item.text
    ensures GetNum(Collect(msgs), msgs[j].item.itemType) == msgs[j].item.num
    ensures msgs[j].item.itemType == ItemTypeTitle ==> TitleArtworkID(Collect(msgs)) == msgs[j].item.artworkID
  {
    CollectLastWins(map[], msgs, j);
  }

  /** A tag that no menu entry carries reads as empty text and number 0, and
      without a title entry the artwork id is 0. */
  lemma {:induction false} FieldsOfMissingTag(msgs: seq<Message>, tag: byte)
    requires !HasItem(msgs, tag)
    ensures GetText(Collect(msgs), tag) == "" && GetNum(Collect(msgs), tag) == 0
    ensures tag == ItemTypeTitle ==> TitleArtworkID(Collect(msgs)) == 0
  {
    CollectKeys(map[], msgs, tag);
  }

  /** `getArtwork`: write the artwork request, read one message and return
      its binary argument. */
  function ArtworkQuery(s: Session, requester: DeviceID, slot: TrackSlot, artworkID: uint32)
    : (r: (Session, Result<seq<byte>>))
    ensures r.1.Ok? <==> WriteAt(s, 0).Written? && |s.inbox| > 0 && s.inbox[0].Received?
    ensures r.1.Ok? ==> r.1.value == s.inbox[0].msg.artwork && r.0.inbox == s.inbox[1..]
    ensures r.1.Err? ==> r.1.error.Transport?
    ensures WriteAt(s, 0).Written? ==>
      r.0.sent == s.sent + [Packet(s.txCount, ArtworkRequest(requester, slot, artworkID))]
      && r.0.txCount == NextTx(s.txCount)
    ensures WriteAt(s, 0).WriteFailed? ==>
      r.0.sent == s.sent && r.0.txCount == s.txCount && r.1 == Err(Transport(WriteAt(s, 0).reason))
  {
    var (s1, w) := Send(s, ArtworkRequest(requester, slot, artworkID));
    if w.WriteFailed? then (s1, Err(Transport(w.reason)))
    else
      var (s2, o) := Receive(s1);
      if o.ReadFailed? then (s2, Err(Transport(o.reason)))
      else (s2, Ok(o.msg.artwork))
  }

  /** The connection state after a lookup, the query's artwork id field after
      it, and the lookup's result. */
  datatype LookupOutcome = LookupOutcome(session: Session, artworkID: uint32, result: Result<Track>)

  /** `executeQuery`: metadata, then path, then artwork; the first error ends
      the lookup. `artworkID` is the query's artwork id field on entry; the
      metadata step overwrites it with the title entry's artwork id, and the
      artwork request is made with that id whatever its value. A lookup fails
      only with a transport error or a menu reply of the wrong type;
      `LookupAppendsAtMostFive` bounds what it writes. */
  function Lookup(s: Session, requester: DeviceID, trackID: uint32, slot: TrackSlot, artworkID: uint32)
    : (l: LookupOutcome)
    ensures l.result.Err? ==> l.result.error.Transport? || l.result.error.InvalidMenuResponse?
  {
    var (s1, meta) := MenuQuery(s, MetadataSetup(requester, slot, trackID), MetadataRender(requester, slot));
    if meta.Err? then LookupOutcome(s1, artworkID, Err(meta.error))
    else
      var art := TitleArtworkID(meta.value);
      var track := TrackFromMetadata(trackID, meta.value);
      var (s2, info) := MenuQuery(s1, PathSetup(requester, slot, trackID), PathRender(requester, slot));
      if info.Err? then LookupOutcome(s2, art, Err(info.error))
      else
        var track := track.(path := GetText(info.value, ItemTypePath));
        var (s3, image) := ArtworkQuery(s2, requester, slot, art);
        if image.Err? then LookupOutcome(s3, art, Err(image.error))
        else LookupOutcome(s3, art, Ok(track.(artwork := image.value)))
  }

  /** A failed metadata query ends the lookup: its error is returned, nothing
      further is written and the artwork id field is left as it was. */
  lemma LookupAbortsOnMetadataError(s: Session, requester: DeviceID, trackID: uint32, slot: TrackSlot, artworkID: uint32)
    requires MenuQuery(s, MetadataSetup(requester, slot, trackID), MetadataRender(requester, slot)).1.Err?
    ensures var meta := MenuQuery(s, MetadataSetup(requester, slot, trackID), MetadataRender(requester, slot));
      Lookup(s, requester, trackID, slot, artworkID) == LookupOutcome(meta.0, artworkID, Err(meta.1.error))
  {
  }

  /** A device that takes the metadata request but never answers ends the
      lookup with end of stream, the error on which `GetTrack` refreshes the
      connection; only that request has been written. */
  lemma LookupOnSilentPeer(s: Session, requester: DeviceID, trackID: uint32, slot: TrackSlot, artworkID: uint32)
    requires WriteAt(s, 0).Written? && s.inbox == []
    ensures var l := Lookup(s, requester, trackID, slot, artworkID);
      && l.result == Err(Transport(EOF))
      && l.artworkID == artworkID
      && l.session.sent == s.sent + [Packet(s.txCount, MetadataSetup(requester, slot, trackID))]
  {
  }

  /** A failed track-info query ends the lookup after the metadata step: its
      error is returned, the artwork request is not written, and the artwork
      id field already holds the title entry's artwork id. */
  lemma LookupAbortsOnPathError(s: Session, requester: DeviceID, trackID: uint32, slot: TrackSlot, artworkID: uint32)
    requires MenuQuery(s, MetadataSetup(requester, slot, trackID), MetadataRender(requester, slot)).1.Ok?
    requires MenuQuery(MenuQuery(s, MetadataSetup(requester, slot, trackID), MetadataRender(requester, slot)).0,
                       PathSetup(requester, slot, trackID), PathRender(requester, slot)).1.Err?
    ensures var meta := MenuQuery(s, MetadataSetup(requester, slot, trackID), MetadataRender(requester, slot));
      var info := MenuQuery(meta.0, PathSetup(requester, slot, trackID), PathRender(requester, slot));
      Lookup(s, requester, trackID, slot, artworkID)
        == LookupOutcome(info.0, TitleArtworkID(meta.1.value), Err(info.1.error))
  {
  }

  /** A failed artwork request ends the lookup with its error; the artwork id
      field holds the title entry's artwork id. */
  lemma LookupAbortsOnArtworkError(s: Session, requester: DeviceID, trackID: uint32, slot: TrackSlot, artworkID: uint32)
    requires MenuQuery(s, MetadataSetup(requester, slot, trackID), MetadataRender(requester, slot)).1.Ok?
    requires MenuQuery(MenuQuery(s, MetadataSetup(requester, slot, trackID), MetadataRender(requester, slot)).0,
                       PathSetup(requester, slot, trackID), PathRender(requester, slot)).1.Ok?
    requires
      var meta := MenuQuery(s, MetadataSetup(requester, slot, trackID), MetadataRender(requester, slot));
      var info := MenuQuery(meta.0, PathSetup(requester, slot, trackID), PathRender(requester, slot));
      ArtworkQuery(info.0, requester, slot, TitleArtworkID(meta.1.value)).1.Err?
    ensures var meta := MenuQuery(s, MetadataSetup(requester, slot, trackID), MetadataRender(requester, slot));
      var info := MenuQuery(meta.0, PathSetup(requester, slot, trackID), PathRender(requester, slot));
      var image := ArtworkQuery(info.0, requester, slot, TitleArtworkID(meta.1.value));
      Lookup(s, requester, trackID, slot, artworkID)
        == LookupOutcome(image.0, TitleArtworkID(meta.1.value), Err(image.1.error))
  {
  }

  /** When all three steps succeed, the track is the sparse metadata track
      with the path entry of the track-info menu and the image of the artwork
      reply filled in, and the connection is left where the artwork step left
      it. */
  lemma LookupCompletes(s: Session, requester: DeviceID, trackID: uint32, slot: TrackSlot, artworkID: uint32)
    requires MenuQuery(s, MetadataSetup(requester, slot, trackID), MetadataRender(requester, slot)).1.Ok?
    requires MenuQuery(MenuQuery(s, MetadataSetup(requester, slot, trackID), MetadataRender(requester, slot)).0,
                       PathSetup(requester, slot, trackID), PathRender(requester, slot)).1.Ok?
    requires
      var meta := MenuQuery(s, MetadataSetup(requester, slot, trackID), MetadataRender(requester, slot));
      var info := MenuQuery(meta.0, PathSetup(requester, slot, trackID), PathRender(requester, slot));
      ArtworkQuery(info.0, requester, slot, TitleArtworkID(meta.1.value)).1.Ok?
    ensures var meta := MenuQuery(s, MetadataSetup(requester, slot, trackID), MetadataRender(requester, slot));
      var info := MenuQuery(meta.0, PathSetup(requester, slot, trackID), PathRender(requester, slot));
      var image := ArtworkQuery(info.0, requester, slot, TitleArtworkID(meta.1.value));
      Lookup(s, requester, trackID, slot, artworkID)
        == LookupOutcome(image.0, TitleArtworkID(meta.1.value),
             Ok(TrackFromMetadata(trackID, meta.1.value).(path := GetText(info.1.value, ItemTypePath),
                                                          artwork := image.1.value)))
  {
  }

  /** A successful lookup has written exactly five requests with consecutive
      transaction ids: the metadata setup and render requests, the track-info
      setup and render requests, and the artwork request carrying the title
      entry's artwork id. Each of the three steps succeeded. */
  lemma LookupSuccess(s: Session, requester: DeviceID, trackID: uint32, slot: TrackSlot, artworkID: uint32)
    ensures var l := Lookup(s, requester, trackID, slot, artworkID);
      var t1 := NextTx(s.txCount);
      var t2 := NextTx(t1);
      var t3 := NextTx(t2);
      var t4 := NextTx(t3);
      l.result.Ok? ==>
        && l.session.sent == s.sent + [
             Packet(s.txCount, MetadataSetup(requester, slot, trackID)),
             Packet(t1, MetadataRender(requester, slot)),
             Packet(t2, PathSetup(requester, slot, trackID)),
             Packet(t3, PathRender(requester, slot)),
             Packet(t4, ArtworkRequest(requester, slot, l.artworkID))]
        && l.session.txCount == NextTx(t4)
        && l.result.value.id == trackID
    ensures var l := Lookup(s, requester, trackID, slot, artworkID);
      var meta := MenuQuery(s, MetadataSetup(requester, slot, trackID), MetadataRender(requester, slot));
      var info := MenuQuery(meta.0, PathSetup(requester, slot, trackID), PathRender(requester, slot));
      l.result.Ok? ==>
        && meta.1.Ok?
        && info.1.Ok?
        && l.artworkID == TitleArtworkID(meta.1.value)
        && ArtworkQuery(info.0, requester, slot, l.artworkID).1.Ok?
  {
    var meta := MenuQuery(s, MetadataSetup(requester, slot, trackID), MetadataRender(requester, slot));
    if meta.1.Err? {
      LookupAbortsOnMetadataError(s, requester, trackID, slot, artworkID);
      return;
    }
    var info := MenuQuery(meta.0, PathSetup(requester, slot, trackID), PathRender(requester, slot));
    if info.1.Err? {
      LookupAbortsOnPathError(s, requester, trackID, slot, artworkID);
      return;
    }
    if ArtworkQuery(info.0, requester, slot, TitleArtworkID(meta.1.value)).1.Err? {
      LookupAbortsOnArtworkError(s, requester, trackID, slot, artworkID);
      return;
    }
    LookupCompletes(s, requester, trackID, slot, artworkID);
    LookupWrites(s, requester, trackID, slot, artworkID);
  }

  /** The packets a lookup whose three steps succeed has written, in order. */
  lemma LookupWrites(s: Session, requester: DeviceID, trackID: uint32, slot: TrackSlot, artworkID: uint32)
    requires MenuQuery(s, MetadataSetup(requester, slot, trackID), MetadataRender(requester, slot)).1.Ok?
    requires MenuQuery(MenuQuery(s, MetadataSetup(requester, slot, trackID), MetadataRender(requester, slot)).0,
                       PathSetup(requester, slot, trackID), PathRender(requester, slot)).1.Ok?
    requires
      var meta := MenuQuery(s, MetadataSetup(requester, slot, trackID), MetadataRender(requester, slot));
      var info := MenuQuery(meta.0, PathSetup(requester, slot, trackID), PathRender(requester, slot));
      ArtworkQuery(info.0, requester, slot, TitleArtworkID(meta.1.value)).1.Ok?
    ensures var meta := MenuQuery(s, MetadataSetup(requester, slot, trackID), MetadataRender(requester, slot));
      var l := Lookup(s, requester, trackID, slot, artworkID);
      var t1 := NextTx(s.txCount);
      var t2 := NextTx(t1);
      var t3 := NextTx(t2);
      var t4 := NextTx(t3);
      && l.session.sent == s.sent + [
           Packet(s.txCount, MetadataSetup(requester, slot, trackID)),
           Packet(t1, MetadataRender(requester, slot)),
           Packet(t2, PathSetup(requester, slot, trackID)),
           Packet(t3, PathRender(requester, slot)),
           Packet(t4, ArtworkRequest(requester, slot, TitleArtworkID(meta.1.value)))]
      && l.session.txCount == NextTx(t4)
  {
    var ms, mr := MetadataSetup(requester, slot, trackID), MetadataRender(requester, slot);
    var ps, pr := PathSetup(requester, slot, trackID), PathRender(requester, slot);
    var meta := MenuQuery(s, ms, mr);
    var info := MenuQuery(meta.0, ps, pr);
    var art := TitleArtworkID(meta.1.value);
    var image := ArtworkQuery(info.0, requester, slot, art);
    LookupCompletes(s, requester, trackID, slot, artworkID);
    MenuQuerySucceeds(s, ms, mr);
    MenuQuerySucceeds(meta.0, ps, pr);
    var t1 := NextTx(s.txCount);
    var t2 := NextTx(t1);
    var t3 := NextTx(t2);
    assert meta.0.sent == s.sent + [Packet(s.txCount, ms), Packet(t1, mr)];
    assert info.0.sent == meta.0.sent + [Packet(t2, ps), Packet(t3, pr)];
    assert image.0.sent == info.0.sent + [Packet(NextTx(t3), ArtworkRequest(requester, slot, art))];
    JoinWrites(s.sent, Packet(s.txCount, ms), Packet(t1, mr), Packet(t2, ps), Packet(t3, pr),
               Packet(NextTx(t3), ArtworkRequest(requester, slot, art)));
  }

  lemma JoinWrites(sent: seq<Packet>, a: Packet, b: Packet, c: Packet, d: Packet, e: Packet)
    ensures sent + [a, b] + [c, d] + [e] == sent + [a, b, c, d, e]
  {
  }

  /** `after` is `before` with at most `n` more packets written after it. */
  ghost predicate AppendsAtMost(before: seq<Packet>, after: seq<Packet>, n: nat)
  {
    |before| <= |after| <= |before| + n && after[..|before|] == before
  }

  lemma AppendsAtMostTrans(a: seq<Packet>, b: seq<Packet>, c: seq<Packet>, m: nat, n: nat)
    requires AppendsAtMost(a, b, m) && AppendsAtMost(b, c, n)
    ensures AppendsAtMost(a, c, m + n)
  {
    assert c[..|a|] == c[..|b|][..|a|];
  }

  /** Whatever its outcome, a lookup keeps the packets already written and
      appends at most five to them. */
  lemma LookupAppendsAtMostFive(s: Session, requester: DeviceID, trackID: uint32, slot: TrackSlot, artworkID: uint32)
    ensures var l := Lookup(s, requester, trackID, slot, artworkID);
      |s.sent| <= |l.session.sent| <= |s.sent| + 5 && l.session.sent[..|s.sent|] == s.sent
  {
    var meta := MenuQuery(s, MetadataSetup(requester, slot, trackID), MetadataRender(requester, slot));
    assert AppendsAtMost(s.sent, meta.0.sent, 2);
    if meta.1.Err? {
      LookupAbortsOnMetadataError(s, requester, trackID, slot, artworkID);
      return;
    }
    var info := MenuQuery(meta.0, PathSetup(requester, slot, trackID), PathRender(requester, slot));
    assert AppendsAtMost(meta.0.sent, info.0.sent, 2);
    AppendsAtMostTrans(s.sent, meta.0.sent, info.0.sent, 2, 2);
    if info.1.Err? {
      LookupAbortsOnPathError(s, requester, trackID, slot, artworkID);
      return;
    }
    var image := ArtworkQuery(info.0, requester, slot, TitleArtworkID(meta.1.value));
    assert AppendsAtMost(info.0.sent, image.0.sent, 1);
    AppendsAtMostTrans(s.sent, info.0.sent, image.0.sent, 4, 1);
    if image.1.Err? {
      LookupAbortsOnArtworkError(s, requester, trackID, slot, artworkID);
    } else {
      LookupCompletes(s, requester, trackID, slot, artworkID);
    }
  }

  /** An artwork request keeps the counter discipline of its connection. */
  lemma ArtworkQueryKeepsCounters(s: Session, requester: DeviceID, slot: TrackSlot, artworkID: uint32)
    requires CountersConsistent(s)
    ensures CountersConsistent(ArtworkQuery(s, requester, slot, artworkID).0)
  {
    SendKeepsCounters(s, ArtworkRequest(requester, slot, artworkID));
  }

  /** A lookup keeps the counter discipline of its connection. */
  lemma LookupKeepsCounters(s: Session, requester: DeviceID, trackID: uint32, slot: TrackSlot, artworkID: uint32)
    requires CountersConsistent(s)
    ensures CountersConsistent(Lookup(s, requester, trackID, slot, artworkID).session)
  {
    var meta := MenuQuery(s, MetadataSetup(requester, slot, trackID), MetadataRender(requester, slot));
    MenuQueryKeepsCounters(s, MetadataSetup(requester, slot, trackID), MetadataRender(requester, slot));
    if meta.1.Ok? {
      var info := MenuQuery(meta.0, PathSetup(requester, slot, trackID), PathRender(requester, slot));
      MenuQueryKeepsCounters(meta.0, PathSetup(requester, slot, trackID), PathRender(requester, slot));
      if info.1.Ok? {
        ArtworkQueryKeepsCounters(info.0, requester, slot, TitleArtworkID(meta.1.value));
      }
    }
  }
}
