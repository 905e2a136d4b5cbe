/**
 * The state one torrent owns: the records of the trackers that answered
 * and of the peers they returned, and the torrent object itself, whose
 * `trackers` and `peers` slices the announce and handshake stages update
 * in place.
 */
module Swarm {
  import opened Base
  import opened Meta

  /** A tracker that answered an announce: its re-announce interval and the
      full request URL that was used. */
  datatype Tracker = Tracker(interval: Int64, url: seq<byte>)

  /** Where a peer is, and the id it claims (`peer id`, `ip`, `port`). */
  datatype PeerConnection = PeerConnection(id: seq<byte>, ip: seq<byte>, port: Int64)

  /** A peer and its session flags. Two peers are the same peer exactly
      when all four fields are equal. */
  datatype Peer = Peer(choked: bool, available: bool, connection: PeerConnection, interested: bool)

  /** A peer as the announce stage creates it: choked, not interested,
      not yet known to be available. */
  function FreshPeer(c: PeerConnection): (p: Peer)
    ensures p.choked && !p.interested && !p.available && p.connection == c
  {
    Peer(true, false, c, false)
  }

  /** A copy of a torrent's fields, as `*torrent` copies the struct. */
  datatype TorrentValue = TorrentValue(
    id: seq<byte>,
    metainfo: Metainfo,
    trackers: seq<Tracker>,
    peers: seq<Peer>)

  /** The `torrent` struct: the client's own peer id, the descriptor, and
      the trackers and peers found so far. */
  class Torrent {
    var id: seq<byte>
    var metainfo: Metainfo
    var trackers: seq<Tracker>
    var peers: seq<Peer>

    /** `&torrent{metainfo: *m}`: no id yet, no trackers, no peers. */
    constructor (m: Metainfo)
      ensures metainfo == m
      ensures id == [] && trackers == [] && peers == []
    {
      id := [];
      metainfo := m;
      trackers := [];
      peers := [];
    }

    /** The torrent's fields as a value. */
    function Value(): TorrentValue
      reads this
    {
      TorrentValue(id, metainfo, trackers, peers)
    }
  }
}
