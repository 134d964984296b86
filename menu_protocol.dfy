/** The two-phase menu query of `getMenuItems`: a setup request whose reply
    must be a response carrying an item count, then a render request after
    which `count + 2` entries (header, items, footer) are read and the menu
    entries among them indexed by item-type tag. */
module MenuProtocol {
  import opened Bytes
  import opened Errors
  import opened Protocol

  /** The reply of a menu query, by item-type tag (`menuItems`). */
  type Items = map<byte, MenuItem>

  predicate IsMenuItem(m: Message)
  {
    m.msgType == MsgTypeMenuItem
  }

  /** One step of the render loop: a menu entry is stored under its tag,
      replacing an earlier entry with the same tag; anything else is skipped. */
  function Put(items: Items, m: Message): Items
  {
    if IsMenuItem(m) then items[m.item.itemType := m.item] else items
  }

  /** The render loop over a list of messages, from the map `acc` on. */
  function CollectInto(acc: Items, msgs: seq<Message>): Items
    decreases |msgs|
  {
    if |msgs| == 0 then acc else CollectInto(Put(acc, msgs[0]), msgs[1..])
  }

  /** The map the render loop builds from an empty one. */
  function Collect(msgs: seq<Message>): Items
  {
    CollectInto(map[], msgs)
  }

  /** Some menu entry in `msgs` carries tag `k`. */
  ghost predicate HasItem(msgs: seq<Message>, k: byte)
  {
    exists i :: 0 <= i < |msgs| && IsMenuItem(msgs[i]) && msgs[i].item.itemType == k
  }

  lemma HasItemUnfold(msgs: seq<Message>, k: byte)
    requires |msgs| > 0
    ensures HasItem(msgs, k) <==>
      (IsMenuItem(msgs[0]) && msgs[0].item.itemType == k) || HasItem(msgs[1..], k)
  {
    if HasItem(msgs[1..], k) {
      var i :| 0 <= i < |msgs[1..]| && IsMenuItem(msgs[1..][i]) && msgs[1..][i].item.itemType == k;
      assert msgs[i + 1] == msgs[1..][i];
    }
    if HasItem(msgs, k) {
      var i :| 0 <= i < |msgs| && IsMenuItem(msgs[i]) && msgs[i].item.itemType == k;
      if i > 0 {
        assert msgs[1..][i - 1] == msgs[i];
      }
    }
  }

  /** The keys of the collected map are the keys already present plus exactly
      the tags of the menu entries; a tag no menu entry carries keeps its
      earlier value. */
  lemma {:induction false} CollectKeys(acc: Items, msgs: seq<Message>, k: byte)
    ensures k in CollectInto(acc, msgs) <==> k in acc || HasItem(msgs, k)
    ensures !HasItem(msgs, k) && k in acc ==> CollectInto(acc, msgs)[k] == acc[k]
    decreases |msgs|
  {
    if |msgs| > 0 {
      HasItemUnfold(msgs, k);
      CollectKeys(Put(acc, msgs[0]), msgs[1..], k);
    }
  }

  /** Last write wins: the entry stored under a tag is the last menu entry
      that carries the tag. */
  lemma {:induction false} CollectLastWins(acc: Items, msgs: seq<Message>, j: nat)
    requires j < |msgs| && IsMenuItem(msgs[j])
    requires forall i :: j < i < |msgs| ==>
      !(IsMenuItem(msgs[i]) && msgs[i].item.itemType == msgs[j].item.itemType)
    ensures msgs[j].item.itemType in CollectInto(acc, msgs)
    ensures CollectInto(acc, msgs)[msgs[j].item.itemType] == msgs[j].item
    decreases |msgs|
  {
    var k := msgs[j].item.itemType;
    if j == 0 {
      forall i | 0 <= i < |msgs[1..]|
        ensures !(IsMenuItem(msgs[1..][i]) && msgs[1..][i].item.itemType == k)
      {
        assert msgs[1..][i] == msgs[i + 1];
      }
      CollectKeys(Put(acc, msgs[0]), msgs[1..], k);
    } else {
      forall i | j - 1 < i < |msgs[1..]|
        ensures !(IsMenuItem(msgs[1..][i]) && msgs[1..][i].item.itemType == k)
      {
        assert msgs[1..][i] == msgs[i + 1];
      }
      CollectLastWins(Put(acc, msgs[0]), msgs[1..], j - 1);
    }
  }

  /** Messages that are not menu entries change nothing: removing one from
      anywhere in the stream leaves the collected map as it was. */
  lemma {:induction false} CollectSkipsOthers(acc: Items, before: seq<Message>, m: Message, after: seq<Message>)
    requires !IsMenuItem(m)
    ensures CollectInto(acc, before + [m] + after) == CollectInto(acc, before + after)
    decreases |before|
  {
    if |before| == 0 {
      assert before + [m] + after == [m] + after;
      assert ([m] + after)[1..] == after;
      assert before + after == after;
    } else {
      CollectSkipsOthers(Put(acc, before[0]), before[1..], m, after);
      assert (before + [m] + after)[1..] == before[1..] + [m] + after;
      assert (before + after)[1..] == before[1..] + after;
    }
  }

  /** Every outcome in `o` is a received message. */
  predicate AllReceived(o: seq<ReadOutcome>)
  {
    forall i :: 0 <= i < |o| ==> o[i].Received?
  }

  /** The messages of a run of successful reads. */
  function Messages(o: seq<ReadOutcome>): (msgs: seq<Message>)
    requires AllReceived(o)
    ensures |msgs| == |o|
    ensures forall i :: 0 <= i < |o| ==> msgs[i] == o[i].msg
  {
    if |o| == 0 then [] else [o[0].msg] + Messages(o[1..])
  }

  /** The error of the first failed read of a script (end of stream when the
      script runs out first). */
  function FirstReadError(o: seq<ReadOutcome>): IoError
  {
    if |o| == 0 then EOF
    else if o[0].ReadFailed? then o[0].reason
    else FirstReadError(o[1..])
  }

  /** The render loop of `getMenuItems`: reads `n` entries, from the map
      `items` on, and stops at the first failed read. It only reads: the
      counter, the write script and the written packets are untouched. */
  function ReadMenuEntries(s: Session, n: nat, items: Items): (r: (Session, Result<Items>))
    ensures r.0.txCount == s.txCount && r.0.sent == s.sent && r.0.writeResults == s.writeResults
    ensures r.1.Err? ==> r.1.error.Transport?
    decreases n
  {
    if n == 0 then (s, Ok(items))
    else
      var (s1, o) := Receive(s);
      match o
      case ReadFailed(e) => (s1, Err(Transport(e)))
      case Received(m) => ReadMenuEntries(s1, n - 1, Put(items, m))
  }

  /** When the next `n` reads all succeed, the loop consumes exactly those
      `n` messages and returns the map collected from them. */
  lemma {:induction false} ReadMenuEntriesReceived(s: Session, n: nat, acc: Items)
    requires n <= |s.inbox| && AllReceived(s.inbox[..n])
    ensures ReadMenuEntries(s, n, acc) ==
      (s.(inbox := s.inbox[n..]), Ok(CollectInto(acc, Messages(s.inbox[..n]))))
    decreases n
  {
    if n > 0 {
      var m := s.inbox[0].msg;
      var s1 := s.(inbox := s.inbox[1..]);
      assert s1.inbox[..n - 1] == s.inbox[1..n];
      assert s.inbox[..n][0] == s.inbox[0];
      ReadMenuEntriesReceived(s1, n - 1, Put(acc, m));
      var msgs := Messages(s.inbox[..n]);
      assert msgs[1..] == Messages(s1.inbox[..n - 1]);
      assert s1.inbox[n - 1..] == s.inbox[n..];
    }
  }

  /** Otherwise the loop fails with the first read error it meets. */
  lemma {:induction false} ReadMenuEntriesFails(s: Session, n: nat, acc: Items)
    requires !(n <= |s.inbox| && AllReceived(s.inbox[..n]))
    ensures ReadMenuEntries(s, n, acc).1 == Err(Transport(FirstReadError(s.inbox)))
    decreases n
  {
    if |s.inbox| > 0 && s.inbox[0].Received? {
      var s1 := s.(inbox := s.inbox[1..]);
      assert !(n - 1 <= |s1.inbox| && AllReceived(s1.inbox[..n - 1])) by {
        if n - 1 <= |s1.inbox| && AllReceived(s1.inbox[..n - 1]) {
          forall i | 0 <= i < n
            ensures s.inbox[..n][i].Received?
          {
            if i > 0 {
              assert s.inbox[..n][i] == s1.inbox[..n - 1][i - 1];
            }
          }
        }
      }
      ReadMenuEntriesFails(s1, n - 1, Put(acc, s.inbox[0].msg));
    }
  }

  /** `getMenuItems`: send the setup request, read its reply and check that it
      is a response, send the render request, then read `count + 2` entries,
      where `count` is the reply's second argument. It fails only with a
      transport error or a setup reply of the wrong type, and writes at most
      the setup and the render request, in that order, with consecutive ids. */
  function MenuQuery(s: Session, setup: Request, render: Request): (r: (Session, Result<Items>))
    ensures r.1.Err? ==> r.1.error.Transport? || r.1.error.InvalidMenuResponse?
    ensures r.0.sent == s.sent
         || r.0.sent == s.sent + [Packet(s.txCount, setup)]
         || r.0.sent == s.sent + [Packet(s.txCount, setup), Packet(NextTx(s.txCount), render)]
  {
    var (s1, w1) := Send(s, setup);
    if w1.WriteFailed? then (s1, Err(Transport(w1.reason)))
    else
      var (s2, o) := Receive(s1);
      if o.ReadFailed? then (s2, Err(Transport(o.reason)))
      else if o.msg.msgType != MsgTypeResponse then (s2, Err(InvalidMenuResponse(o.msg.msgType)))
      else
        var (s3, w3) := Send(s2, render);
        if w3.WriteFailed? then (s3, Err(Transport(w3.reason)))
        else ReadMenuEntries(s3, o.msg.count + 2, map[])
  }

  /** A setup reply of any type other than a response is a protocol error and
      the render request is not sent: the counter advanced exactly once. */
  lemma MenuQueryRejectsNonResponse(s: Session, setup: Request, render: Request)
    requires WriteAt(s, 0).Written?
    requires |s.inbox| > 0 && s.inbox[0].Received? && s.inbox[0].msg.msgType != MsgTypeResponse
    ensures MenuQuery(s, setup, render).1 == Err(InvalidMenuResponse(s.inbox[0].msg.msgType))
    ensures MenuQuery(s, setup, render).0.txCount == NextTx(s.txCount)
    ensures MenuQuery(s, setup, render).0.sent == s.sent + [Packet(s.txCount, setup)]
    ensures MenuQuery(s, setup, render).0.inbox == s.inbox[1..]
  {
  }

  /** The reply to the setup request is a response, the render request is
      written, and the `count + 2` entries after the reply are all received. */
  ghost predicate MenuQueryCanSucceed(s: Session)
  {
    && WriteAt(s, 0).Written?
    && WriteAt(s, 1).Written?
    && |s.inbox| > 0
    && s.inbox[0].Received?
    && s.inbox[0].msg.msgType == MsgTypeResponse
    && 1 + s.inbox[0].msg.count + 2 <= |s.inbox|
    && AllReceived(s.inbox[1..1 + s.inbox[0].msg.count + 2])
  }

  /** A menu query succeeds exactly when both writes succeed, the setup reply
      is a response and the `count + 2` entries after it are received. It then
      reads exactly those `count + 2` entries, returns the map collected from
      them, and has written the two requests with consecutive transaction ids. */
  lemma MenuQuerySucceeds(s: Session, setup: Request, render: Request)
    ensures MenuQuery(s, setup, render).1.Ok? <==> MenuQueryCanSucceed(s)
    ensures MenuQueryCanSucceed(s) ==>
      var entries := s.inbox[1..1 + s.inbox[0].msg.count + 2];
      var r := MenuQuery(s, setup, render);
      && r.1.value == Collect(Messages(entries))
      && r.0.inbox == s.inbox[1 + s.inbox[0].msg.count + 2..]
      && r.0.sent == s.sent + [Packet(s.txCount, setup), Packet(NextTx(s.txCount), render)]
      && r.0.txCount == NextTx(NextTx(s.txCount))
  {
    var (s1, w1) := Send(s, setup);
    if w1.Written? {
      var (s2, o) := Receive(s1);
      if o.Received? && o.msg.msgType == MsgTypeResponse {
        var (s3, w3) := Send(s2, render);
        assert w3 == WriteAt(s, 1);
        var n := o.msg.count + 2;
        assert s3.inbox == s.inbox[1..];
        if n <= |s3.inbox| {
          assert 1 + n <= |s.inbox|;
          assert s3.inbox[..n] == s.inbox[1..1 + n];
          assert s3.inbox[n..] == s.inbox[1 + n..];
        }
        if n <= |s3.inbox| && AllReceived(s3.inbox[..n]) {
          ReadMenuEntriesReceived(s3, n, map[]);
        } else {
          ReadMenuEntriesFails(s3, n, map[]);
        }
      }
    }
  }

  /** A menu query keeps the counter discipline of its connection. */
  lemma MenuQueryKeepsCounters(s: Session, setup: Request, render: Request)
    requires CountersConsistent(s)
    ensures CountersConsistent(MenuQuery(s, setup, render).0)
  {
    SendKeepsCounters(s, setup);
    var (s1, w1) := Send(s, setup);
    if w1.Written? {
      var (s2, o) := Receive(s1);
      assert CountersConsistent(s2);
      if o.Received? && o.msg.msgType == MsgTypeResponse {
        SendKeepsCounters(s2, render);
      }
    }
  }
}
