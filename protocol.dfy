/** The message layer of the database protocol as the remote database client
    sees it: the requests it writes, each stamped with the connection's
    transaction counter (`sendMessage`), and the decoded messages it reads
    back (`readMessagePacket`).

    The socket of one connection is a scripted peer held in a `Session`: the
    read outcomes the device will produce, in order (once they run out every
    read reports end of stream, the device having closed the connection), the
    outcomes of the client's writes, in order (once they run out every write
    succeeds), and the packets actually written. */
module Protocol {
  import opened Bytes
  import opened Errors

  /** Message type of the reply to a setup request (`msgTypeResponse`). */
  const MsgTypeResponse: uint16 := 0x4000

  /** Message type of one rendered menu entry (`msgTypeMenuItem`). */
  const MsgTypeMenuItem: uint16 := 0x4101

  /** Number of distinct values of the 32-bit transaction counter. */
  const TxModulus: int := 0x1_0000_0000

  type DeviceID = byte

  /** Storage slot of a track on a player (`TrackSlot`). */
  datatype TrackSlot = SlotCD | SlotSD | SlotUSB | SlotRB

  /** The `renderType` of a render request: left at its zero value for the
      metadata menu, `renderSystem` for the track-info menu. */
  datatype RenderKind = RenderDefault | RenderSystem

  /** The requests the client writes. Their byte layouts belong to the packet
      codec; only the values they carry are modelled. */
  datatype Request =
    | MetadataRequest(requester: DeviceID, slot: TrackSlot, trackID: uint32)
    | TrackInfoRequest(requester: DeviceID, slot: TrackSlot, trackID: uint32)
    | RenderRequest(requester: DeviceID, slot: TrackSlot, kind: RenderKind, offset: nat, limit: nat)
    | ArtworkRequest(requester: DeviceID, slot: TrackSlot, artworkID: uint32)

  /** A request as written: stamped with a transaction id. */
  datatype Packet = Packet(txID: uint32, request: Request)

  /** A decoded menu entry (`menuItem`): its item-type tag and payload. */
  datatype MenuItem = MenuItem(itemType: byte, num: uint32, text: string, artworkID: uint32)

  /** A decoded message: its type and the values the client extracts from its
      arguments: argument 1 as a number (the item count of a setup reply),
      the menu entry `makeMenuItem` builds from it, and argument 3 as a binary
      field (the image of an artwork reply). */
  datatype Message = Message(msgType: uint16, count: uint32, item: MenuItem, artwork: seq<byte>)

  datatype ReadOutcome = Received(msg: Message) | ReadFailed(reason: IoError)

  datatype WriteOutcome = Written | WriteFailed(reason: IoError)

  /** The state of one connection's socket and transaction counter. */
  datatype Session = Session(
    txCount: uint32,
    inbox: seq<ReadOutcome>,
    writeResults: seq<WriteOutcome>,
    sent: seq<Packet>)

  /** The state of a connection that has just been created: counter 1, no
      socket traffic yet. */
  function FreshSession(): Session
  {
    Session(1, [], [], [])
  }

  /** Go's `txCount++` on a `uint32`: one more, wrapping to 0 after 2^32 - 1. */
  function NextTx(t: uint32): (r: uint32)
    ensures t + 1 < TxModulus ==> r == t + 1
    ensures t + 1 == TxModulus ==> r == 0
  {
    (t + 1) % TxModulus
  }

  /** The outcome of the i-th write from now on: the scripted one, or success
      once the script is exhausted. */
  function WriteAt(s: Session, i: nat): WriteOutcome
  {
    if i < |s.writeResults| then s.writeResults[i] else Written
  }

  /** One `conn.Write` of a packet: consumes the next scripted write outcome;
      only a written packet reaches the device. */
  function Transmit(s: Session, p: Packet): (Session, WriteOutcome)
  {
    if |s.writeResults| == 0 then (s.(sent := s.sent + [p]), Written)
    else
      var w := s.writeResults[0];
      (s.(writeResults := s.writeResults[1..], sent := if w.Written? then s.sent + [p] else s.sent), w)
  }

  /** One `readMessagePacket`: the next scripted read outcome, end of stream
      once the script is exhausted. */
  function Receive(s: Session): (Session, ReadOutcome)
  {
    if |s.inbox| == 0 then (s, ReadFailed(EOF))
    else (s.(inbox := s.inbox[1..]), s.inbox[0])
  }

  /** `sendMessage`: the request is stamped with the counter as it was before
      the call; a successful write advances the counter by one and a failed
      write leaves it unchanged. Exactly one scripted write outcome is
      consumed, and nothing is read. */
  function Send(s: Session, req: Request): (r: (Session, WriteOutcome))
    ensures r.0.inbox == s.inbox
    ensures r.1 == (if |s.writeResults| == 0 then Written else s.writeResults[0])
    ensures r.1.Written? ==> r.0.txCount == NextTx(s.txCount) && r.0.sent == s.sent + [Packet(s.txCount, req)]
    ensures r.1.WriteFailed? ==> r.0.txCount == s.txCount && r.0.sent == s.sent
    ensures forall i: nat :: WriteAt(r.0, i) == WriteAt(s, i + 1)
  {
    var (s1, w) := Transmit(s, Packet(s.txCount, req));
    if w.Written? then (s1.(txCount := NextTx(s.txCount)), w) else (s1, w)
  }

  /** A write consumes the next scripted outcome (success once the script is
      exhausted) and records the packet only when it is written; the counter
      and the read script are untouched. */
  lemma TransmitConsumesWrite(s: Session, p: Packet)
    ensures var r := Transmit(s, p);
      && r.1 == WriteAt(s, 0)
      && (r.1.Written? ==> r.0.sent == s.sent + [p])
      && (r.1.WriteFailed? ==> r.0.sent == s.sent)
      && (forall i: nat :: WriteAt(r.0, i) == WriteAt(s, i + 1))
      && r.0.txCount == s.txCount && r.0.inbox == s.inbox
  {
  }

  /** A read yields and consumes the next scripted outcome; once the script
      is exhausted it yields end of stream and changes nothing. Nothing but
      the read script changes. */
  lemma ReceiveConsumesRead(s: Session)
    ensures |s.inbox| == 0 ==> Receive(s) == (s, ReadFailed(EOF))
    ensures |s.inbox| > 0 ==> Receive(s).1 == s.inbox[0] && Receive(s).0.inbox == s.inbox[1..]
    ensures var r := Receive(s);
      r.0.txCount == s.txCount && r.0.writeResults == s.writeResults && r.0.sent == s.sent
  {
  }

  /** The counter discipline of a connection created with counter 1: the i-th
      packet written carries (1 + i) mod 2^32, and the counter holds the stamp
      of the next packet. */
  ghost predicate CountersConsistent(s: Session)
  {
    && s.txCount == (1 + |s.sent|) % TxModulus
    && forall i :: 0 <= i < |s.sent| ==> s.sent[i].txID == (1 + i) % TxModulus
  }

  lemma FreshSessionConsistent()
    ensures CountersConsistent(FreshSession())
  {
  }

  /** A send keeps the counter discipline, whether or not its write succeeds. */
  lemma SendKeepsCounters(s: Session, req: Request)
    requires CountersConsistent(s)
    ensures CountersConsistent(Send(s, req).0)
  {
    var (s1, w) := Send(s, req);
    if w.Written? {
      var n := |s.sent|;
      assert s1.txCount == ((1 + n) % TxModulus + 1) % TxModulus;
      assert s1.txCount == (1 + (n + 1)) % TxModulus;
      assert s1.sent[n].txID == s.txCount;
    }
  }

  /** Within 2^32 packets no transaction id is used twice. */
  lemma StampsNeverReused(s: Session)
    requires CountersConsistent(s)
    requires |s.sent| <= TxModulus
    ensures forall i, j :: 0 <= i < j < |s.sent| ==> s.sent[i].txID != s.sent[j].txID
  {
    forall i, j | 0 <= i < j < |s.sent|
      ensures s.sent[i].txID != s.sent[j].txID
    {
      assert s.sent[i].txID == 1 + i;
      if j + 1 < TxModulus {
        assert s.sent[j].txID == 1 + j;
      } else {
        assert s.sent[j].txID == 0;
      }
    }
  }

  /** Before the counter wraps, transaction ids strictly increase in the order
      the packets were written, starting at 1. */
  lemma StampsIncrease(s: Session)
    requires CountersConsistent(s)
    requires |s.sent| < TxModulus
    ensures forall i :: 0 <= i < |s.sent| ==> s.sent[i].txID == i + 1
    ensures forall i, j :: 0 <= i < j < |s.sent| ==> s.sent[i].txID < s.sent[j].txID
  {
    forall i | 0 <= i < |s.sent|
      ensures s.sent[i].txID == i + 1
    {
      assert (1 + i) % TxModulus == 1 + i;
    }
  }
}
