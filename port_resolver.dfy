/** The one-shot discovery exchange that asks a device on the fixed port
    12523 which TCP port its database server listens on. */
module PortResolver {
  import opened Bytes
  import opened Errors

  /** The port on which every device answers the discovery query. */
  const QueryPort: uint16 := 12523

  /** The service the discovery query names. */
  const ServiceName: string := "RemoteDBServer"

  type IP = seq<byte>

  /** A `host:port` address; the source formats it as a string. */
  datatype Addr = Addr(ip: IP, port: uint16)

  /** Outcome of a dial or of a write. */
  datatype IoStatus = Completed | IoFailed(reason: IoError)

  /** The bytes Go's `[]byte("RemoteDBServer")` produces. */
  const ServiceNameBytes: seq<byte> :=
    [0x52, 0x65, 0x6d, 0x6f, 0x74, 0x65, 0x44, 0x42, 0x53, 0x65, 0x72, 0x76, 0x65, 0x72]

  /** Each byte of `ServiceNameBytes` is the ASCII code of the matching
      character of the service name. */
  lemma ServiceNameBytesAreAscii()
    ensures |ServiceNameBytes| == |ServiceName|
    ensures forall i :: 0 <= i < |ServiceName| ==> ServiceNameBytes[i] == ServiceName[i] as int
  {
  }

  /** The discovery request: a 4-byte big-endian length, the service name and
      a terminating zero byte. The length counts the name and its terminator. */
  function PortQuery(): (packet: seq<byte>)
    ensures |packet| == 19
    ensures packet[..4] == [0x00, 0x00, 0x00, 0x0f]
    ensures BigEndian32(packet[..4]) == |ServiceNameBytes| + 1
    ensures packet[4..18] == ServiceNameBytes
    ensures packet[18] == 0x00
  {
    var length: seq<byte> := [0x00, 0x00, 0x00, 0x0f];
    var packet := length + ServiceNameBytes + [0x00];
    assert packet[..4] == length;
    assert packet[4..18] == ServiceNameBytes;
    packet
  }

  /** `getRemoteDBServerAddr` as written: after dialling and writing the query,
      ONE `conn.Read` fills a zeroed two-byte buffer. `reply` is the byte stream
      the device sends before closing and `delivered` how many of its bytes
      that single read returns (a TCP read may return fewer bytes than the
      buffer holds); the bytes not delivered stay zero. */
  function ServerAddrAsWritten(ip: IP, dial: IoStatus, write: IoStatus, reply: seq<byte>, delivered: nat)
    : (r: Result<Addr>)
    requires |reply| > 0 ==> 1 <= delivered <= 2 && delivered <= |reply|
    ensures r.Ok? <==> dial.Completed? && write.Completed? && |reply| > 0
    ensures r.Ok? ==> r.value.ip == ip
    ensures r.Ok? && delivered == 2 ==> r.value.port == reply[0] as int * 0x100 + reply[1]
    ensures r.Ok? && delivered == 1 ==> r.value.port == reply[0] as int * 0x100
  {
    if dial.IoFailed? then Err(Transport(dial.reason))
    else if write.IoFailed? then Err(PortQueryFailed(write.reason))
    else if |reply| == 0 then Err(PortQueryFailed(EOF))
    else
      var data := reply[..delivered] + seq(2 - delivered, _ => 0);
      Ok(Addr(ip, BigEndian16(data)))
  }

  /** The discovery exchange with the two reply bytes read in full (Go's
      `io.ReadFull`): the port is the big-endian decode of the first two bytes
      of the reply, and a reply shorter than two bytes is an error. */
  function ServerAddr(ip: IP, dial: IoStatus, write: IoStatus, reply: seq<byte>): (r: Result<Addr>)
    ensures r.Ok? <==> dial.Completed? && write.Completed? && |reply| >= 2
    ensures r.Ok? ==> r.value.ip == ip
    ensures r.Ok? ==> r.value.port == reply[0] as int * 0x100 + reply[1]
    ensures r.Ok? ==> PutBigEndian16(r.value.port) == reply[..2]
  {
    if dial.IoFailed? then Err(Transport(dial.reason))
    else if write.IoFailed? then Err(PortQueryFailed(write.reason))
    else if |reply| < 2 then Err(PortQueryFailed(EOF))
    else
      EncodeDecode16(reply[..2]);
      Ok(Addr(ip, BigEndian16(reply[..2])))
  }

  /** When the single read delivers both bytes the source's resolver and the
      read-in-full resolver agree. */
  lemma AsWrittenAgreesOnFullRead(ip: IP, dial: IoStatus, write: IoStatus, reply: seq<byte>)
    requires |reply| >= 2
    ensures ServerAddrAsWritten(ip, dial, write, reply, 2) == ServerAddr(ip, dial, write, reply)
  {
    assert reply[..2] + seq(0, _ => 0) == reply[..2];
  }

  /** A device announcing port 12345 (bytes 0x30 0x39) whose reply arrives in
      two segments: the source's single read sees 0x30 only and resolves port
      0x3000 = 12288, the read-in-full resolver resolves 12345. */
  lemma ShortReadMisreadsPort(ip: IP)
    ensures ServerAddrAsWritten(ip, Completed, Completed, [0x30, 0x39], 1) == Ok(Addr(ip, 12288))
    ensures ServerAddr(ip, Completed, Completed, [0x30, 0x39]) == Ok(Addr(ip, 12345))
  {
    assert [0x30, 0x39][..1] + seq(1, _ => 0) == [0x30, 0x00];
  }
}
