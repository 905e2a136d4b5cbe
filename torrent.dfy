/**
 * Building a torrent (client/torrent.go): the client's peer id, the torrent
 * read from a descriptor file, and the fail-closed sequence parse, id,
 * announce, handshake.
 *
 * The file system and the random generator are inputs: `Source` says what
 * opening the path twice finds, `Entropy` what `rand.Read` produced.
 */
module Construction {
  import opened Base
  import opened Meta
  import opened Swarm
  import opened Announcing
  import opened Handshaking

  /** The Azureus-style prefix: client "GG", version 0001. */
  const IdPrefix: seq<byte> := Ascii("-GG0001-")

  /** The outcome of `rand.Read` on the 12-byte suffix buffer. */
  datatype Entropy = Drawn(bytes: seq<byte>) | Exhausted

  /** `createId`: the prefix followed by exactly the 12 random bytes, or an
      error and no id when the generator fails. */
  function CreateId(rnd: Entropy): (r: Result<seq<byte>>)
    requires rnd.Drawn? ==> |rnd.bytes| == 12
    ensures rnd.Exhausted? ==> r == Err(RandomFailed)
    ensures rnd.Drawn? ==> r.Ok? && |r.value| == 20
    ensures r.Ok? ==> r.value[..8] == Ascii("-GG0001-") && r.value[8..] == rnd.bytes
  {
    if rnd.Exhausted? then Err(RandomFailed) else Ok(IdPrefix + rnd.bytes)
  }

  /** What the input names: a path `os.Open` cannot open (`interpretInput`
      calls it invalid), or a file, with whether the second `os.Open` in
      `createTorrentFromFileContents` succeeds and what decoding its
      contents gives. */
  datatype Source = Unopenable | File(reopens: bool, contents: Decoded)

  /** `createTorrentFromFileContents`: a torrent around the decoded
      descriptor, with no id, trackers or peers yet; on any error, no
      torrent. */
  method CreateTorrentFromFileContents(reopens: bool, contents: Decoded)
    returns (t: Torrent?, err: Option<Error>)
    ensures !reopens ==> t == null && err == Some(OpenFailed)
    ensures reopens && NewMetainfo(contents).Err? ==>
      t == null && err == Some(NewMetainfo(contents).error)
    ensures reopens && NewMetainfo(contents).Ok? ==>
      && err.None? && t != null && fresh(t)
      && t.Value() == TorrentValue([], NewMetainfo(contents).value, [], [])
  {
    if !reopens {
      return null, Some(OpenFailed);
    }
    var m := NewMetainfo(contents);
    if m.Err? {
      return null, Some(m.error);
    }
    t := new Torrent(m.value);
    err := None;
  }

  /** What the announce and the handshake of `newTorrent` yield for a
      descriptor and an id: no torrent when no tracker returned a peer,
      otherwise the trackers that answered and the merged peers after their
      handshakes. */
  function Discover(m: Metainfo, id: seq<byte>, escape: seq<byte> -> seq<byte>,
                    fetch: seq<byte> -> Response,
                    dial: (seq<byte>, Int64, seq<byte>) -> PeerReply): (r: Result<TorrentValue>)
    ensures r.Err? <==> Gathered(AnnounceAll(m, id, escape, fetch)) == []
    ensures r.Err? ==> r.error == NoPeersFound
    ensures r.Ok? ==> r.value.metainfo == m && r.value.id == id && |r.value.peers| > 0
    ensures r.Ok? ==> r.value.trackers == Recorded(AnnounceAll(m, id, escape, fetch))
    ensures r.Ok? ==> r.value.peers == HandshakeAll(
      Dedup(Gathered(AnnounceAll(m, id, escape, fetch))), m.infoHash, id, dial)
  {
    var all := AnnounceAll(m, id, escape, fetch);
    if Gathered(all) == [] then Err(NoPeersFound)
    else
      DedupEmpty(Gathered(all));
      Ok(TorrentValue(id, m, Recorded(all), HandshakeAll(Dedup(Gathered(all)), m.infoHash, id, dial)))
  }

  /** What the steps of `newTorrent` after reading the descriptor yield:
      the id, then the announce (the request URLs carry the id), then the
      handshake on the merged announce result; the first failure ends
      construction. */
  function Populate(m: Metainfo, rnd: Entropy, escape: seq<byte> -> seq<byte>,
                    fetch: seq<byte> -> Response,
                    dial: (seq<byte>, Int64, seq<byte>) -> PeerReply): (r: Result<TorrentValue>)
    requires rnd.Drawn? ==> |rnd.bytes| == 12
    ensures rnd.Exhausted? ==> r == Err(RandomFailed)
    ensures r.Err? && rnd.Drawn? ==> r.error == NoPeersFound
    ensures rnd.Drawn? ==> (r.Ok? <==> Gathered(AnnounceAll(m, IdPrefix + rnd.bytes, escape, fetch)) != [])
    ensures r.Ok? ==> r.value.metainfo == m
    ensures r.Ok? ==> rnd.Drawn? && r.value.id == IdPrefix + rnd.bytes
    ensures r.Ok? ==> |r.value.peers| > 0
    ensures r.Ok? ==> r.value.trackers == Recorded(AnnounceAll(m, r.value.id, escape, fetch))
    ensures r.Ok? ==> r.value.peers == HandshakeAll(
      Dedup(Gathered(AnnounceAll(m, r.value.id, escape, fetch))), m.infoHash, r.value.id, dial)
  {
    match CreateId(rnd)
    case Err(e) => Err(e)
    case Ok(id) => Discover(m, id, escape, fetch, dial)
  }

  /** What `newTorrent` yields: the descriptor read and checked, then the
      remaining steps; the first failure ends construction. */
  function Construct(input: Source, rnd: Entropy, escape: seq<byte> -> seq<byte>,
                     fetch: seq<byte> -> Response,
                     dial: (seq<byte>, Int64, seq<byte>) -> PeerReply): (r: Result<TorrentValue>)
    requires rnd.Drawn? ==> |rnd.bytes| == 12
    ensures input.Unopenable? ==> r == Err(InvalidInput)
    ensures input.File? && !input.reopens ==> r == Err(OpenFailed)
    ensures input.File? && input.reopens && NewMetainfo(input.contents).Err? ==>
      r == Err(NewMetainfo(input.contents).error)
    ensures input.File? && input.reopens && NewMetainfo(input.contents).Ok? && rnd.Exhausted? ==>
      r == Err(RandomFailed)
    ensures input.File? && input.reopens && NewMetainfo(input.contents).Ok? && rnd.Drawn? ==>
      (r.Ok? <==> Gathered(AnnounceAll(NewMetainfo(input.contents).value, IdPrefix + rnd.bytes, escape, fetch)) != [])
    ensures input.File? && input.reopens && NewMetainfo(input.contents).Ok? && rnd.Drawn? && r.Err? ==>
      r.error == NoPeersFound
    ensures r.Ok? ==> input.File? && NewMetainfo(input.contents) == Ok(r.value.metainfo)
    ensures r.Ok? ==> WellFormed(r.value.metainfo)
    ensures r.Ok? ==> rnd.Drawn? && r.value.id == IdPrefix + rnd.bytes
    ensures r.Ok? ==> |r.value.peers| > 0
    ensures r.Ok? ==> r.value.trackers == Recorded(AnnounceAll(r.value.metainfo, r.value.id, escape, fetch))
    ensures r.Ok? ==> r.value.peers == HandshakeAll(
      Dedup(Gathered(AnnounceAll(r.value.metainfo, r.value.id, escape, fetch))),
      r.value.metainfo.infoHash, r.value.id, dial)
  {
    match input
    case Unopenable => Err(InvalidInput)
    case File(reopens, contents) =>
      if !reopens then Err(OpenFailed)
      else match NewMetainfo(contents)
        case Err(e) => Err(e)
        case Ok(m) => Populate(m, rnd, escape, fetch, dial)
  }

  /** A descriptor that passes validation and an id that can be drawn still
      give no torrent when no tracker returns a peer. */
  lemma NoPeersNoTorrent(input: Source, rnd: Entropy, escape: seq<byte> -> seq<byte>,
                         fetch: seq<byte> -> Response, dial: (seq<byte>, Int64, seq<byte>) -> PeerReply)
    requires rnd.Drawn? && |rnd.bytes| == 12
    requires input.File? && input.reopens && NewMetainfo(input.contents).Ok?
    requires Gathered(AnnounceAll(NewMetainfo(input.contents).value, IdPrefix + rnd.bytes, escape, fetch)) == []
    ensures Construct(input, rnd, escape, fetch, dial) == Err(NoPeersFound)
  {
  }

  /** The announce and the handshake of `newTorrent`, on a torrent with
      its id set and no trackers or peers yet. */
  method DiscoverPeers(t: Torrent, escape: seq<byte> -> seq<byte>,
                       fetch: seq<byte> -> Response,
                       dial: (seq<byte>, Int64, seq<byte>) -> PeerReply)
    returns (err: Option<Error>)
    requires t.trackers == [] && t.peers == []
    modifies t`trackers, t`peers
    ensures Discover(t.metainfo, t.id, escape, fetch, dial).Err? ==>
      err == Some(Discover(t.metainfo, t.id, escape, fetch, dial).error)
    ensures Discover(t.metainfo, t.id, escape, fetch, dial).Ok? ==>
      err.None? && t.Value() == Discover(t.metainfo, t.id, escape, fetch, dial).value
  {
    err := RequestPeers(t, escape, fetch);
    if err.Some? {
      return;
    }

    // `handshake` always returns nil, so its error check never fires.
    var _ := Handshake(t, dial);
  }

  /** The steps of `newTorrent` on a torrent just built from its
      descriptor: sets the id, requests peers, and handshakes with them. */
  method PopulateTorrent(t: Torrent, rnd: Entropy, escape: seq<byte> -> seq<byte>,
                         fetch: seq<byte> -> Response,
                         dial: (seq<byte>, Int64, seq<byte>) -> PeerReply)
    returns (err: Option<Error>)
    requires rnd.Drawn? ==> |rnd.bytes| == 12
    requires t.id == [] && t.trackers == [] && t.peers == []
    modifies t`id, t`trackers, t`peers
    ensures Populate(old(t.metainfo), rnd, escape, fetch, dial).Err? ==>
      err == Some(Populate(old(t.metainfo), rnd, escape, fetch, dial).error)
    ensures Populate(old(t.metainfo), rnd, escape, fetch, dial).Ok? ==>
      err.None? && t.Value() == Populate(old(t.metainfo), rnd, escape, fetch, dial).value
  {
    ghost var m := t.metainfo;
    var id := CreateId(rnd);
    if id.Err? {
      return Some(id.error);
    }
    t.id := id.value;
    assert Populate(m, rnd, escape, fetch, dial) == Discover(m, id.value, escape, fetch, dial);
    err := DiscoverPeers(t, escape, fetch, dial);
  }

  /** `newTorrent`: builds the torrent step by step; on the first error it
      returns that error and no torrent, otherwise the torrent the steps
      populated. */
  method NewTorrent(input: Source, rnd: Entropy, escape: seq<byte> -> seq<byte>,
                    fetch: seq<byte> -> Response,
                    dial: (seq<byte>, Int64, seq<byte>) -> PeerReply)
    returns (t: Torrent?, err: Option<Error>)
    requires rnd.Drawn? ==> |rnd.bytes| == 12
    ensures Construct(input, rnd, escape, fetch, dial).Err? ==>
      t == null && err == Some(Construct(input, rnd, escape, fetch, dial).error)
    ensures Construct(input, rnd, escape, fetch, dial).Ok? ==>
      err.None? && t != null && fresh(t) && t.Value() == Construct(input, rnd, escape, fetch, dial).value
  {
    match input {
      case Unopenable =>
        return null, Some(InvalidInput);
      case File(reopens, contents) =>
        var created, e := CreateTorrentFromFileContents(reopens, contents);
        if e.Some? {
          return null, e;
        }
        t := created;
    }

    err := PopulateTorrent(t, rnd, escape, fetch, dial);
    if err.Some? {
      t := null;
    }
  }
}
