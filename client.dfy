/**
 * The registry of torrents (client/client.go): a map from each torrent's
 * name to a copy of the torrent, which refuses a second torrent of the same
 * name and removes one torrent chosen by a name prefix.
 *
 * Go's map iteration order is unspecified; the loops below pick the next
 * key with `:|`, so their contracts hold whatever order the runtime uses.
 */
module Registry {
  import opened Base
  import opened Swarm
  import opened Announcing
  import opened Handshaking
  import opened Construction

  /** The `Client` struct: torrents by name. */
  class Client {
    var torrents: map<seq<byte>, TorrentValue>

    /** Every torrent is filed under the name in its descriptor. */
    ghost predicate Valid()
      reads this
    {
      forall name :: name in torrents ==> torrents[name].metainfo.info.name == name
    }

    /** `New`: an empty registry. */
    constructor ()
      ensures torrents == map[]
      ensures Valid()
    {
      torrents := map[];
    }

    /** `AddTorrent`: builds the torrent described by `input`; a failed
        build is returned as is and a name already present is refused, both
        leaving the registry unchanged. Otherwise the torrent is filed under
        its name, no other entry changes, and it is started. */
    method AddTorrent(input: Source, rnd: Entropy, escape: seq<byte> -> seq<byte>,
                      fetch: seq<byte> -> Response,
                      dial: (seq<byte>, Int64, seq<byte>) -> PeerReply)
      returns (err: Option<Error>)
      requires rnd.Drawn? ==> |rnd.bytes| == 12
      requires Valid()
      modifies this
      ensures Valid()
      ensures Construct(input, rnd, escape, fetch, dial).Err? ==>
        err == Some(Construct(input, rnd, escape, fetch, dial).error) && torrents == old(torrents)
      ensures Construct(input, rnd, escape, fetch, dial).Ok? ==>
        var v := Construct(input, rnd, escape, fetch, dial).value;
        var name := v.metainfo.info.name;
        && (name in old(torrents) ==> err == Some(AlreadyExists(name)) && torrents == old(torrents))
        && (name !in old(torrents) ==> err.None? && torrents == old(torrents)[name := v])
    {
      var t, e := NewTorrent(input, rnd, escape, fetch, dial);
      if e.Some? {
        return e;
      }
      var newName := t.metainfo.info.name;

      var present := IsRegistered(newName);
      if present {
        return Some(AlreadyExists(newName));
      }

      torrents := torrents[newName := t.Value()];
      var _ := StartTorrent(newName);
      err := None;
    }

    /** The key loop of `AddTorrent`: whether some key equals `newName`. */
    method IsRegistered(newName: seq<byte>) returns (present: bool)
      ensures present <==> newName in torrents
    {
      var names := torrents.Keys;
      while names != {}
        invariant names <= torrents.Keys
        invariant newName !in torrents.Keys - names
        decreases |names|
      {
        var name :| name in names;
        if name == newName {
          return true;
        }
        names := names - {name};
      }
      return false;
    }

    /** `RemoveTorrent`: stops and deletes one torrent whose name starts
        with `prefix` (which one, when several do, depends on the map's
        iteration order) and keeps every other; when no name has the
        prefix, it fails and nothing changes. */
    method RemoveTorrent(prefix: seq<byte>) returns (err: Option<Error>)
      requires Valid()
      modifies this
      ensures Valid()
      ensures err.Some? <==> forall name :: name in old(torrents) ==> !HasPrefix(name, prefix)
      ensures err.Some? ==> err == Some(NoPrefixMatch(prefix)) && torrents == old(torrents)
      ensures err.None? ==> exists name :: name in old(torrents) && HasPrefix(name, prefix)
                                           && torrents == old(torrents) - {name}
    {
      var names := torrents.Keys;
      while names != {}
        invariant names <= torrents.Keys
        invariant forall name :: name in torrents.Keys - names ==> !HasPrefix(name, prefix)
        decreases |names|
      {
        var name :| name in names;
        if HasPrefix(name, prefix) {
          var _ := StopTorrent(name);
          torrents := torrents - {name};
          return None;
        }
        names := names - {name};
      }
      err := Some(NoPrefixMatch(prefix));
    }

    /** `StartTorrent`: does nothing yet and reports success. */
    method StartTorrent(prefix: seq<byte>) returns (err: Option<Error>)
      ensures err == None
    {
      err := None;
    }

    /** `StopTorrent`: does nothing yet and reports success. */
    method StopTorrent(prefix: seq<byte>) returns (err: Option<Error>)
      ensures err == None
    {
      err := None;
    }
  }
}
