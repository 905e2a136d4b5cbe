/**
 * The handshake stage (client/peer.go): the message the client sends to
 * every peer, the check of each peer's answer against the torrent's info
 * hash ("peer protocol" section of BEP 3), and the in-place update of that
 * peer's slot.
 *
 * Two details follow the code, not BEP 3: the eight reserved bytes sent are
 * the ASCII character '0' rather than zero bytes, and the id kept from an
 * accepted answer is its last 20 bytes minus the final one (19 bytes).
 *
 * Dialling, writing and reading are an input: `dial` gives what the peer at
 * an address answers to the message sent. The per-peer tasks run one after
 * another in slot order; each writes only its own slot.
 */
module Handshaking {
  import opened Base
  import opened Swarm

  const ProtocolName: seq<byte> := Ascii("BitTorrent protocol")
  /** Eight ASCII '0' characters (BEP 3 has eight zero bytes here). */
  const Reserved: seq<byte> := [48, 48, 48, 48, 48, 48, 48, 48]

  /** The outbound handshake: the length 19, the protocol name, eight ASCII
      '0' characters, the info hash, then the client's id. */
  function ClientHandshake(infoHash: Digest, id: seq<byte>): (msg: seq<byte>)
    ensures |msg| == 48 + |id|
    ensures msg[0] == |ProtocolName| == 19
    ensures msg[1..20] == ProtocolName
    ensures forall k :: 20 <= k < 28 ==> msg[k] == '0' as int
    ensures msg[28..48] == infoHash
    ensures msg[48..] == id
  {
    [|ProtocolName|] + ProtocolName + Reserved + infoHash + id
  }

  /** What a peer does after the client dials it and sends the handshake:
      the connection fails (refused, timed out), the read of the length
      byte fails, or it sends a length byte `pstrlen` and the next read
      delivers the bytes `got` (possibly fewer than asked for) or fails. */
  datatype PeerReply =
    | Unreachable
    | NoLength
    | Reply(pstrlen: byte, readFailed: bool, got: seq<byte>)

  /** `conn.Read` into a fresh buffer of `size` bytes: the bytes delivered
      fill its start, the rest keeps its zero value. */
  function ReadInto(size: nat, got: seq<byte>): (buf: seq<byte>)
    ensures |buf| == size
    ensures forall k :: 0 <= k < size ==> buf[k] == if k < |got| then got[k] else 0
  {
    if |got| >= size then got[..size] else got + seq(size - |got|, _ => 0)
  }

  /** The answer check of one handshake task: the id it records, if the
      answer is accepted. An answer is accepted when its length byte is not
      zero, the second read delivered something without error, and the 20
      bytes after the protocol name and the 8 reserved bytes of the
      `48 + pstrlen` byte buffer equal the torrent's info hash; the id kept
      is the 19 bytes after them. */
  function AcceptedId(infoHash: Digest, reply: PeerReply): (r: Option<seq<byte>>)
    ensures r.Some? <==>
      && reply.Reply? && reply.pstrlen != 0 && !reply.readFailed && reply.got != []
      && ReadInto(48 + reply.pstrlen, reply.got)[reply.pstrlen + 8 .. reply.pstrlen + 28] == infoHash
    ensures r.Some? ==> |r.value| == 19
    ensures r.Some? ==> r.value == ReadInto(48 + reply.pstrlen, reply.got)[reply.pstrlen + 28 .. reply.pstrlen + 47]
  {
    match reply
    case Unreachable => None
    case NoLength => None
    case Reply(pstrlen, readFailed, got) =>
      if pstrlen == 0 then None
      else
        var buf := ReadInto(48 + pstrlen, got);
        var n := if |got| < |buf| then |got| else |buf|;
        if readFailed || n == 0 then None
        else
          var l := |buf|;
          if buf[l - 40 .. l - 20] != infoHash then None else Some(buf[l - 20 .. l - 1])
  }

  /** A complete BEP 3 answer carrying the right info hash is accepted, and
      the id recorded is the peer's 20-byte id without its last byte. */
  lemma WellFormedReplyAccepted(infoHash: Digest, pstr: seq<byte>, reserved: seq<byte>, peerId: seq<byte>)
    requires 0 < |pstr| < 256 && |reserved| == 8 && |peerId| == 20
    ensures AcceptedId(infoHash, Reply(|pstr|, false, pstr + reserved + infoHash + peerId)) == Some(peerId[..19])
  {
    var got := pstr + reserved + infoHash + peerId;
    var p := |pstr|;
    var buf := ReadInto(48 + p, got);
    assert buf == got;
    assert got[p + 8 .. p + 28] == infoHash;
    assert got[p + 28 .. p + 47] == peerId[..19];
  }

  /** An answer carrying another info hash is refused. */
  lemma WrongHashRefused(infoHash: Digest, pstr: seq<byte>, reserved: seq<byte>, other: Digest, peerId: seq<byte>)
    requires 0 < |pstr| < 256 && |reserved| == 8 && |peerId| == 20
    requires other != infoHash
    ensures AcceptedId(infoHash, Reply(|pstr|, false, pstr + reserved + other + peerId)) == None
  {
    var got := pstr + reserved + other + peerId;
    var p := |pstr|;
    assert ReadInto(48 + p, got) == got;
    assert got[p + 8 .. p + 28] == other;
  }

  /** A short read is not refused: an answer that stops right after the
      info hash is accepted, and the id recorded is the buffer's zeros. */
  lemma ShortReadAccepted(infoHash: Digest, pstr: seq<byte>, reserved: seq<byte>)
    requires 0 < |pstr| < 256 && |reserved| == 8
    ensures AcceptedId(infoHash, Reply(|pstr|, false, pstr + reserved + infoHash)) == Some(seq(19, _ => 0))
  {
    var got := pstr + reserved + infoHash;
    var p := |pstr|;
    var buf := ReadInto(48 + p, got);
    assert buf[p + 8 .. p + 28] == got[p + 8 .. p + 28] == infoHash;
    assert buf[p + 28 .. p + 47] == seq(19, _ => 0);
  }

  /** A peer that answers with the client's own handshake is accepted, and
      what is recorded is the first 19 bytes of the client's 20-byte id. */
  lemma EchoAccepted(infoHash: Digest, id: seq<byte>)
    requires |id| == 20
    ensures var msg := ClientHandshake(infoHash, id);
      AcceptedId(infoHash, Reply(msg[0], false, msg[1..])) == Some(id[..19])
  {
    var msg := ClientHandshake(infoHash, id);
    assert msg[1..] == ProtocolName + Reserved + infoHash + id;
    WellFormedReplyAccepted(infoHash, ProtocolName, Reserved, id);
  }

  /** The slot of a peer after its handshake task: on an accepted answer
      the recorded id replaces the claimed one and the peer becomes
      available; otherwise the slot is unchanged. The flags `choked` and
      `interested`, the address and the port never change. */
  function AfterHandshake(p: Peer, infoHash: Digest, reply: PeerReply): (q: Peer)
    ensures q.choked == p.choked && q.interested == p.interested
    ensures q.connection.ip == p.connection.ip && q.connection.port == p.connection.port
    ensures AcceptedId(infoHash, reply).None? ==> q == p
    ensures AcceptedId(infoHash, reply).Some? ==>
      q.available && q.connection.id == AcceptedId(infoHash, reply).value
  {
    match AcceptedId(infoHash, reply)
    case None => p
    case Some(id) => p.(connection := p.connection.(id := id), available := true)
  }

  /** What the peer in a slot answers to the message sent. */
  function ReplyOf(p: Peer, msg: seq<byte>, dial: (seq<byte>, Int64, seq<byte>) -> PeerReply): PeerReply
  {
    dial(p.connection.ip, p.connection.port, msg)
  }

  /** Every slot after every handshake task has run. */
  function HandshakeAll(peers: seq<Peer>, infoHash: Digest, id: seq<byte>,
                        dial: (seq<byte>, Int64, seq<byte>) -> PeerReply): (r: seq<Peer>)
    ensures |r| == |peers|
    ensures forall i :: 0 <= i < |r| && !peers[i].available ==>
      (r[i].available <==> AcceptedId(infoHash, ReplyOf(peers[i], ClientHandshake(infoHash, id), dial)).Some?)
  {
    var msg := ClientHandshake(infoHash, id);
    seq(|peers|, i requires 0 <= i < |peers| => AfterHandshake(peers[i], infoHash, ReplyOf(peers[i], msg, dial)))
  }

  /** One handshake task: dials the peer in slot `idx`, sends the message,
      reads the length byte and then a `48 + pstrlen` byte buffer, and on a
      matching info hash records the id and marks the peer available. No
      other slot changes. */
  method HandshakePeer(t: Torrent, idx: nat, msg: seq<byte>,
                       dial: (seq<byte>, Int64, seq<byte>) -> PeerReply)
    requires idx < |t.peers|
    modifies t`peers
    ensures t.peers == old(t.peers)[idx := AfterHandshake(old(t.peers)[idx], t.metainfo.infoHash,
                                                          ReplyOf(old(t.peers)[idx], msg, dial))]
  {
    var ip := t.peers[idx].connection.ip;
    var port := t.peers[idx].connection.port;
    var reply := dial(ip, port, msg);
    match reply {
      case Unreachable =>
        return;
      case NoLength =>
        return;
      case Reply(pstrlen, readFailed, got) =>
        if pstrlen == 0 {
          return;
        }
        var peerHandshake := ReadInto(48 + pstrlen, got);
        var n := if |got| < |peerHandshake| then |got| else |peerHandshake|;
        if readFailed || n == 0 {
          return;
        }
        var l := |peerHandshake|;
        if peerHandshake[l - 40 .. l - 20] != t.metainfo.infoHash {
          return;
        }
        var connection := t.peers[idx].connection.(id := peerHandshake[l - 20 .. l - 1]);
        t.peers := t.peers[idx := t.peers[idx].(connection := connection, available := true)];
    }
  }

  /** `handshake`: runs the handshake task of every slot. The number of
      peers does not change, each slot ends as its own task left it, and
      the result is always nil. */
  method Handshake(t: Torrent, dial: (seq<byte>, Int64, seq<byte>) -> PeerReply)
    returns (err: Option<Error>)
    modifies t`peers
    ensures err == None
    ensures t.peers == HandshakeAll(old(t.peers), t.metainfo.infoHash, t.id, dial)
  {
    var clientHandshake := ClientHandshake(t.metainfo.infoHash, t.id);
    var i := 0;
    while i < |t.peers|
      invariant 0 <= i <= |t.peers| == |old(t.peers)|
      invariant forall k :: 0 <= k < i ==>
        t.peers[k] == AfterHandshake(old(t.peers)[k], t.metainfo.infoHash, ReplyOf(old(t.peers)[k], clientHandshake, dial))
      invariant forall k :: i <= k < |t.peers| ==> t.peers[k] == old(t.peers)[k]
    {
      HandshakePeer(t, i, clientHandshake, dial);
      i := i + 1;
    }
    err := None;
  }
}
