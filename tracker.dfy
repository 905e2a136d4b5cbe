/**
 * The announce stage (client/tracker.go): the list of announce URLs, the
 * GET request sent to each ("trackers" section of BEP 3), the handling of
 * one decoded tracker response, and the deduplicating merge of every
 * tracker's peers into the torrent.
 *
 * The HTTP exchange and bencode decoding are an input: `fetch` gives the
 * decoded response to a request URL. `url.QueryEscape` is the parameter
 * `escape`. The announces run one after another in URL order, which is one
 * of the orders the concurrent original can produce.
 */
module Announcing {
  import opened Base
  import opened Meta
  import opened Swarm

  // ---------------------------------------------------------------------
  // Announce URLs

  /** The URLs of every tier, tier after tier, in order. */
  function Flatten(tiers: seq<seq<seq<byte>>>): seq<seq<byte>>
  {
    if tiers == [] then [] else Flatten(tiers[..|tiers| - 1]) + tiers[|tiers| - 1]
  }

  /** How many URLs the tiers hold in all. */
  function TotalUrls(tiers: seq<seq<seq<byte>>>): nat
  {
    if tiers == [] then 0 else TotalUrls(tiers[..|tiers| - 1]) + |tiers[|tiers| - 1]|
  }

  lemma {:induction false} FlattenLength(tiers: seq<seq<seq<byte>>>)
    ensures |Flatten(tiers)| == TotalUrls(tiers)
  {
    if tiers != [] {
      FlattenLength(tiers[..|tiers| - 1]);
    }
  }

  /** URL `j` of tier `i` sits after all URLs of the earlier tiers. */
  lemma {:induction false} FlattenAt(tiers: seq<seq<seq<byte>>>, i: nat, j: nat)
    requires i < |tiers| && j < |tiers[i]|
    ensures TotalUrls(tiers[..i]) + j < |Flatten(tiers)|
    ensures Flatten(tiers)[TotalUrls(tiers[..i]) + j] == tiers[i][j]
  {
    var n := |tiers| - 1;
    var init := tiers[..n];
    FlattenLength(init);
    FlattenLength(tiers);
    if i == n {
      assert tiers[..i] == init;
    } else {
      assert tiers[..i] == init[..i];
      FlattenAt(init, i, j);
    }
  }

  /** A URL is announced to exactly when some tier lists it. */
  lemma {:induction false} FlattenMembership(tiers: seq<seq<seq<byte>>>, u: seq<byte>)
    ensures u in Flatten(tiers) <==> exists i :: 0 <= i < |tiers| && u in tiers[i]
  {
    if tiers != [] {
      var n := |tiers| - 1;
      var init := tiers[..n];
      FlattenMembership(init, u);
      if u in Flatten(tiers) && u !in tiers[n] {
        var i :| 0 <= i < |init| && u in init[i];
        assert u in tiers[i];
      }
      if exists i :: 0 <= i < |tiers| && u in tiers[i] {
        var i :| 0 <= i < |tiers| && u in tiers[i];
        if i < n {
          assert u in init[i];
        }
      }
    }
  }

  /** The announce URLs: the primary `announce` URL (even when empty), then
      the URLs of every tier of `announce-list`. */
  function AnnounceTargets(m: Metainfo): (urls: seq<seq<byte>>)
    ensures |urls| == 1 + TotalUrls(m.announceList.Items())
    ensures urls[0] == m.announce
    ensures urls[1..] == Flatten(m.announceList.Items())
  {
    FlattenLength(m.announceList.Items());
    [m.announce] + Flatten(m.announceList.Items())
  }

  /** The loop of `requestPeers` that collects the announce URLs. */
  method AnnounceUrls(m: Metainfo) returns (urls: seq<seq<byte>>)
    ensures urls == AnnounceTargets(m)
  {
    urls := [m.announce];
    var tiers := m.announceList.Items();
    var i := 0;
    while i < |tiers|
      invariant 0 <= i <= |tiers|
      invariant urls == [m.announce] + Flatten(tiers[..i])
    {
      assert tiers[..i + 1][..i] == tiers[..i];
      urls := urls + tiers[i];
      i := i + 1;
    }
    assert tiers[..i] == tiers;
  }

  // ---------------------------------------------------------------------
  // The request URL

  const InfoHashKey: seq<byte> := Ascii("?info_hash=")
  const PeerIdKey: seq<byte> := Ascii("&peer_id=")
  const Counters: seq<byte> := Ascii("&uploaded=0&downloaded=0&left=")

  /** The GET request for one announce URL: the URL, then the escaped info
      hash, the escaped client id, zero bytes uploaded and downloaded, and
      `left` set to the single-file length field (the lengths of a
      multi-file torrent's files are not added up). */
  function RequestUrl(base: seq<byte>, infoHash: Digest, id: seq<byte>, left: Int64,
                      escape: seq<byte> -> seq<byte>): (r: seq<byte>)
    ensures var head := base + InfoHashKey + escape(infoHash) + PeerIdKey;
      && |r| == |head| + |escape(id)| + |Counters + Decimal(left)|
      && HasPrefix(r, head)
      && r[|head|..|head| + |escape(id)|] == escape(id)
      && r[|r| - |Counters + Decimal(left)|..] == Counters + Decimal(left)
      && r[|r| - |Decimal(left)|..] == Decimal(left)
  {
    var head := base + InfoHashKey + escape(infoHash) + PeerIdKey;
    var r := head + escape(id) + (Counters + Decimal(left));
    ConcatParts(head, escape(id), Counters + Decimal(left));
    SuffixOfSuffix(r, Counters, Decimal(left));
    r
  }

  /** The `left` parameter reads back as the length it was built from. */
  lemma RequestCarriesLength(base: seq<byte>, infoHash: Digest, id: seq<byte>, left: Int64,
                             escape: seq<byte> -> seq<byte>)
    ensures var r := RequestUrl(base, infoHash, id, left, escape);
      && |Decimal(left)| <= |r|
      && ParseDecimal(r[|r| - |Decimal(left)|..]) == left
  {
    DecimalRoundTrip(left);
  }

  /** `tryToAnnounce` refuses URLs starting with "udp" or "dht". */
  predicate UnsupportedScheme(url: seq<byte>) {
    HasPrefix(url, Ascii("udp")) || HasPrefix(url, Ascii("dht"))
  }

  /** The scheme test runs on the full request URL, but its verdict is the
      one it would give on the announce URL alone. */
  lemma RequestKeepsScheme(base: seq<byte>, infoHash: Digest, id: seq<byte>, left: Int64,
                           escape: seq<byte> -> seq<byte>)
    ensures UnsupportedScheme(RequestUrl(base, infoHash, id, left, escape)) <==> UnsupportedScheme(base)
  {
    var r := RequestUrl(base, infoHash, id, left, escape);
    var head := base + InfoHashKey + escape(infoHash) + PeerIdKey;
    assert r[..|head|] == head;
    if |base| >= 3 {
      assert r[..3] == base[..3];
    } else {
      assert r[|base|] == InfoHashKey[0] == '?' as int;
      assert Ascii("udp")[|base|] != '?' as int;
      assert Ascii("dht")[|base|] != '?' as int;
    }
  }

  // ---------------------------------------------------------------------
  // One announce

  /** One entry of the response's `peers` list: either it unmarshals into
      a peer connection or the JSON round trip fails. */
  datatype PeerRecord = Record(connection: PeerConnection) | Malformed

  /** What the GET of one request URL gives: the request failed (refused,
      timed out), the body is not bencode, the tracker sent a string
      `failure reason`, or it sent an `interval` and a `peers` list. */
  datatype Response =
    | NoResponse
    | Undecodable
    | Rejected(reason: seq<byte>)
    | Answered(interval: Int64, records: seq<PeerRecord>)

  /** The effect of one announce: the tracker record it appends, if any, and
      the peers it returns or its error. */
  datatype Announcement = Announcement(tracker: Option<Tracker>, result: Result<seq<Peer>>) {
    function Recorded(): seq<Tracker> {
      if tracker.Some? then [tracker.value] else []
    }
    function Found(): seq<Peer> {
      if result.Ok? then result.value else []
    }
  }

  predicate AllDecoded(records: seq<PeerRecord>) {
    forall i :: 0 <= i < |records| ==> records[i].Record?
  }

  /** Each record as a peer in its initial state, in response order. */
  function FreshPeers(records: seq<PeerRecord>): (peers: seq<Peer>)
    requires AllDecoded(records)
  {
    seq(|records|, i requires 0 <= i < |records| => FreshPeer(records[i].connection))
  }

  /** The peer loop of `tryToAnnounce`: the first record that does not
      unmarshal is an error and no peer is returned; otherwise every record
      becomes a choked, uninterested, unavailable peer, in order. */
  method ParsePeers(records: seq<PeerRecord>) returns (peers: seq<Peer>, err: Option<Error>)
    ensures err.None? <==> AllDecoded(records)
    ensures err.Some? ==> err == Some(MalformedPeer) && peers == []
    ensures err.None? ==> |peers| == |records|
    ensures err.None? ==> forall i :: 0 <= i < |peers| ==>
      && peers[i].choked && !peers[i].interested && !peers[i].available
      && peers[i].connection == records[i].connection
  {
    peers := [];
    var i := 0;
    while i < |records|
      invariant 0 <= i <= |records|
      invariant |peers| == i
      invariant forall k :: 0 <= k < i ==> records[k].Record? && peers[k] == FreshPeer(records[k].connection)
    {
      if records[i].Malformed? {
        return [], Some(MalformedPeer);
      }
      peers := peers + [FreshPeer(records[i].connection)];
      i := i + 1;
    }
    err := None;
  }

  /** `tryToAnnounce` on a decoded response. */
  function Announce(url: seq<byte>, resp: Response): (a: Announcement)
    ensures UnsupportedScheme(url) ==> a == Announcement(None, Err(UnsupportedTransport))
    ensures a.tracker.Some? <==> !UnsupportedScheme(url) && resp.Answered?
    ensures a.tracker.Some? ==> a.tracker.value == Tracker(resp.interval, url)
    ensures !UnsupportedScheme(url) && resp.Rejected? ==>
      a == Announcement(None, Err(TrackerRejected(resp.reason)))
    ensures a.result.Ok? <==> !UnsupportedScheme(url) && resp.Answered? && AllDecoded(resp.records)
    ensures a.result.Ok? ==> |a.result.value| == |resp.records|
    ensures a.result.Ok? ==> forall i :: 0 <= i < |a.result.value| ==>
      a.result.value[i] == FreshPeer(resp.records[i].connection)
  {
    if UnsupportedScheme(url) then Announcement(None, Err(UnsupportedTransport))
    else match resp
      case NoResponse => Announcement(None, Err(TrackerUnreachable))
      case Undecodable => Announcement(None, Err(UndecodableResponse))
      case Rejected(reason) => Announcement(None, Err(TrackerRejected(reason)))
      case Answered(interval, records) =>
        Announcement(Some(Tracker(interval, url)),
                     if AllDecoded(records) then Ok(FreshPeers(records)) else Err(MalformedPeer))
  }

  /** A tracker that answers records itself before its peers are read, so
      a malformed peer entry still leaves the tracker on the torrent. */
  lemma TrackerKeptDespiteBadPeer(url: seq<byte>, interval: Int64, records: seq<PeerRecord>)
    requires !UnsupportedScheme(url)
    requires !AllDecoded(records)
    ensures Announce(url, Answered(interval, records)) ==
      Announcement(Some(Tracker(interval, url)), Err(MalformedPeer))
  {
  }

  /** `tryToAnnounce`: appends the tracker record to the torrent and returns
      the peers or the error. */
  method TryToAnnounce(t: Torrent, url: seq<byte>, resp: Response)
    returns (peers: seq<Peer>, err: Option<Error>)
    modifies t`trackers
    ensures t.trackers == old(t.trackers) + Announce(url, resp).Recorded()
    ensures Announce(url, resp).result.Ok? ==> err.None? && peers == Announce(url, resp).result.value
    ensures Announce(url, resp).result.Err? ==> err == Some(Announce(url, resp).result.error) && peers == []
  {
    if UnsupportedScheme(url) {
      return [], Some(UnsupportedTransport);
    }
    match resp {
      case NoResponse =>
        return [], Some(TrackerUnreachable);
      case Undecodable =>
        return [], Some(UndecodableResponse);
      case Rejected(reason) =>
        return [], Some(TrackerRejected(reason));
      case Answered(interval, records) =>
        t.trackers := t.trackers + [Tracker(interval, url)];
        peers, err := ParsePeers(records);
        if err.None? {
          assert peers == FreshPeers(records);
        }
    }
  }

  // ---------------------------------------------------------------------
  // Every announce, and the merge

  /** The request URL and the announce for each announce URL, in order. */
  function AnnounceAll(m: Metainfo, id: seq<byte>, escape: seq<byte> -> seq<byte>,
                       fetch: seq<byte> -> Response): (all: seq<Announcement>)
    ensures |all| == |AnnounceTargets(m)|
  {
    var urls := AnnounceTargets(m);
    seq(|urls|, k requires 0 <= k < |urls| =>
      var req := RequestUrl(urls[k], m.infoHash, id, m.info.length, escape);
      Announce(req, fetch(req)))
  }

  /** The tracker records of a run of announces, in order. */
  function Recorded(all: seq<Announcement>): seq<Tracker>
  {
    if all == [] then [] else Recorded(all[..|all| - 1]) + all[|all| - 1].Recorded()
  }

  /** The peers returned by a run of announces, in order, duplicates kept. */
  function Gathered(all: seq<Announcement>): seq<Peer>
  {
    if all == [] then [] else Gathered(all[..|all| - 1]) + all[|all| - 1].Found()
  }

  /** Keeps the first occurrence of every peer, in order: what the merge
      through the seen-set produces. */
  function Dedup(s: seq<Peer>): seq<Peer>
  {
    if s == [] then []
    else
      var init := s[..|s| - 1];
      if s[|s| - 1] in init then Dedup(init) else Dedup(init) + [s[|s| - 1]]
  }

  lemma DedupSnoc(s: seq<Peer>, x: Peer)
    ensures Dedup(s + [x]) == if x in s then Dedup(s) else Dedup(s) + [x]
  {
    assert (s + [x])[..|s|] == s;
  }

  /** The merge keeps every peer it is given and invents none. */
  lemma {:induction false} DedupElems(s: seq<Peer>)
    ensures forall x :: x in Dedup(s) <==> x in s
  {
    if s != [] {
      var init := s[..|s| - 1];
      DedupElems(init);
      assert s == init + [s[|s| - 1]];
    }
  }

  /** The merge never appends a peer twice. */
  lemma {:induction false} DedupDistinct(s: seq<Peer>)
    ensures forall i, j :: 0 <= i < j < |Dedup(s)| ==> Dedup(s)[i] != Dedup(s)[j]
  {
    if s != [] {
      var init := s[..|s| - 1];
      DedupDistinct(init);
      DedupElems(init);
    }
  }

  /** Peers that are already pairwise distinct pass through unchanged. */
  lemma {:induction false} DedupOfDistinct(s: seq<Peer>)
    requires forall i, j :: 0 <= i < j < |s| ==> s[i] != s[j]
    ensures Dedup(s) == s
  {
    if s != [] {
      var init := s[..|s| - 1];
      DedupOfDistinct(init);
      assert s == init + [s[|s| - 1]];
    }
  }

  /** Nothing is merged exactly when no tracker returned a peer. */
  lemma DedupEmpty(s: seq<Peer>)
    ensures Dedup(s) == [] <==> s == []
  {
    DedupElems(s);
    if s != [] {
      assert s[0] in Dedup(s);
    }
  }

  /** One step of the merge loop: the next peer extends the peers handled
      so far, and the seen-set tells whether it is new. */
  lemma MergeStep(before: seq<Peer>, peers: seq<Peer>, j: nat, seen: set<Peer>)
    requires j < |peers| && seen == Elems(before + peers[..j])
    ensures before + peers[..j + 1] == (before + peers[..j]) + [peers[j]]
    ensures peers[j] in seen <==> peers[j] in before + peers[..j]
    ensures Elems(before + peers[..j + 1]) == seen + {peers[j]}
    ensures Dedup(before + peers[..j + 1]) ==
      if peers[j] in seen then Dedup(before + peers[..j]) else Dedup(before + peers[..j]) + [peers[j]]
  {
    var s := before + peers[..j];
    assert before + peers[..j + 1] == s + [peers[j]];
    DedupSnoc(s, peers[j]);
  }

  /** The locked section of `requestPeers`: appends to the torrent each
      peer of one tracker's answer that no earlier answer in this call
      returned, and adds it to the seen-set. */
  method MergePeers(t: Torrent, seen: set<Peer>, peers: seq<Peer>,
                    ghost base: seq<Peer>, ghost before: seq<Peer>)
    returns (seen': set<Peer>)
    requires seen == Elems(before)
    requires t.peers == base + Dedup(before)
    modifies t`peers
    ensures seen' == Elems(before + peers)
    ensures t.peers == base + Dedup(before + peers)
  {
    seen' := seen;
    ghost var handled := before;
    var j := 0;
    assert before + peers[..j] == before;
    while j < |peers|
      invariant 0 <= j <= |peers|
      invariant handled == before + peers[..j]
      invariant t.peers == base + Dedup(handled)
      invariant seen' == Elems(handled)
    {
      var p := peers[j];
      MergeStep(before, peers, j, seen');
      if p !in seen' {
        seen' := seen' + {p};
        t.peers := t.peers + [p];
      }
      handled := handled + [p];
      j := j + 1;
    }
    assert peers[..j] == peers;
  }

  lemma AnnounceAllAt(m: Metainfo, id: seq<byte>, escape: seq<byte> -> seq<byte>,
                      fetch: seq<byte> -> Response, urls: seq<seq<byte>>, i: nat)
    requires urls == AnnounceTargets(m) && i < |urls|
    ensures var req := RequestUrl(urls[i], m.infoHash, id, m.info.length, escape);
      i < |AnnounceAll(m, id, escape, fetch)| && AnnounceAll(m, id, escape, fetch)[i] == Announce(req, fetch(req))
  {
  }

  lemma NoneSeen(found: seq<Peer>, seen: set<Peer>)
    requires seen == Elems(found)
    ensures |seen| == 0 <==> found == []
  {
    if found != [] {
      assert found[0] in seen;
    }
  }

  lemma RunSnoc(all: seq<Announcement>, i: nat)
    requires i < |all|
    ensures Gathered(all[..i + 1]) == Gathered(all[..i]) + all[i].Found()
    ensures Recorded(all[..i + 1]) == Recorded(all[..i]) + all[i].Recorded()
  {
    assert all[..i + 1][..i] == all[..i];
  }

  /** One announce task of `requestPeers`, the `i`-th of the run `all`:
      its announce, and on success the merge of its peers under the lock. */
  method AnnounceTask(t: Torrent, requestUrl: seq<byte>, resp: Response, seen: set<Peer>,
                      ghost all: seq<Announcement>, ghost i: nat,
                      ghost trackers: seq<Tracker>, ghost peers: seq<Peer>)
    returns (seen': set<Peer>)
    requires i < |all| && all[i] == Announce(requestUrl, resp)
    requires t.trackers == trackers + Recorded(all[..i])
    requires t.peers == peers + Dedup(Gathered(all[..i]))
    requires seen == Elems(Gathered(all[..i]))
    modifies t`trackers, t`peers
    ensures t.trackers == trackers + Recorded(all[..i + 1])
    ensures t.peers == peers + Dedup(Gathered(all[..i + 1]))
    ensures seen' == Elems(Gathered(all[..i + 1]))
  {
    RunSnoc(all, i);
    seen' := AnnounceAndMerge(t, requestUrl, resp, seen, peers, Gathered(all[..i]));
  }

  /** The body of one announce task: announce, and on success merge the
      peers under the lock. */
  method AnnounceAndMerge(t: Torrent, requestUrl: seq<byte>, resp: Response, seen: set<Peer>,
                          ghost base: seq<Peer>, ghost before: seq<Peer>)
    returns (seen': set<Peer>)
    requires seen == Elems(before)
    requires t.peers == base + Dedup(before)
    modifies t`trackers, t`peers
    ensures t.trackers == old(t.trackers) + Announce(requestUrl, resp).Recorded()
    ensures seen' == Elems(before + Announce(requestUrl, resp).Found())
    ensures t.peers == base + Dedup(before + Announce(requestUrl, resp).Found())
  {
    var found, err := TryToAnnounce(t, requestUrl, resp);
    if err != None {
      // logged and skipped
      assert before + Announce(requestUrl, resp).Found() == before;
      return seen;
    }
    seen' := MergePeers(t, seen, found, base, before);
  }

  /** `requestPeers`: announces to every URL, records every tracker that
      answered, and appends to the torrent's peers each returned peer not
      already returned in this call (equal whole peer values, claimed id
      included). Failures of single trackers are skipped; the call fails
      exactly when no tracker returned any peer. */
  method RequestPeers(t: Torrent, escape: seq<byte> -> seq<byte>, fetch: seq<byte> -> Response)
    returns (err: Option<Error>)
    modifies t`trackers, t`peers
    ensures t.trackers == old(t.trackers) + Recorded(AnnounceAll(t.metainfo, t.id, escape, fetch))
    ensures t.peers == old(t.peers) + Dedup(Gathered(AnnounceAll(t.metainfo, t.id, escape, fetch)))
    ensures err.Some? <==> Gathered(AnnounceAll(t.metainfo, t.id, escape, fetch)) == []
    ensures err.Some? <==> t.peers == old(t.peers)
    ensures err.Some? ==> err == Some(NoPeersFound)
  {
    var urls := AnnounceUrls(t.metainfo);
    ghost var all := AnnounceAll(t.metainfo, t.id, escape, fetch);
    var seen: set<Peer> := {};
    var i := 0;
    while i < |urls|
      invariant 0 <= i <= |urls| == |all|
      invariant t.trackers == old(t.trackers) + Recorded(all[..i])
      invariant t.peers == old(t.peers) + Dedup(Gathered(all[..i]))
      invariant seen == Elems(Gathered(all[..i]))
    {
      var requestUrl := RequestUrl(urls[i], t.metainfo.infoHash, t.id, t.metainfo.info.length, escape);
      AnnounceAllAt(t.metainfo, t.id, escape, fetch, urls, i);
      seen := AnnounceTask(t, requestUrl, fetch(requestUrl), seen, all, i, old(t.trackers), old(t.peers));
      i := i + 1;
    }
    assert all[..i] == all;
    DedupEmpty(Gathered(all));
    NoneSeen(Gathered(all), seen);
    err := if |seen| == 0 then Some(NoPeersFound) else None;
  }
}
