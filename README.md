# gotorrent client core in Dafny

A model of the discovery-and-handshake core of the `gotorrent` BitTorrent
client (package `client`), with proofs about it. The network, the bencode,
JSON and SHA-1 libraries, the file system and the random generator are
inputs to the model. What the model covers:

- **The descriptor** (`metainfo.dfy`, module `Meta`). The metainfo file
  layout follows section "metainfo files" of BEP 3. Five field checks run
  in order and the first failure names the error. Construction fails
  closed: no descriptor comes out of a decoding or validation error. The
  info hash and the multiple-files flag are set only after validation.
- **Announcing** (`tracker.dfy`, module `Announcing`). This covers the
  announce URLs (the primary URL, even when empty, then every tier), the
  GET request of section "trackers" of BEP 3, and the refusal of
  `udp`/`dht` URLs. It also covers one tracker response (its tracker
  record and its fresh peers) and the deduplicating merge of all peers
  into the torrent. Two peers are the same peer when the whole peer value
  is equal, the tracker-supplied peer id included; the address alone does
  not decide. The `left` parameter is the single-file `length` field, even
  for a multi-file torrent.
- **The handshake** (`peer.dfy`, module `Handshaking`). This covers the
  outbound message, the check of each answer against the info hash (the
  "peer protocol" section of BEP 3), and the in-place update of each
  peer's slot. Two details follow the code, not BEP 3. The eight reserved
  bytes sent are the character `'0'`, not zero bytes. The id kept from an
  accepted answer is the 19 bytes `[l-20, l-1)` of the `l`-byte buffer,
  not 20 bytes.
- **Torrent construction** (`torrent.dfy`, module `Construction`). The
  client id is `-GG0001-` followed by 12 random bytes. The steps run in
  order: read the descriptor, draw the id, announce, handshake. The first
  failure yields no torrent.
- **The registry** (`client.dfy`, module `Registry`). A map from torrent
  name to torrent. Adding refuses a name that is already present. Removing
  deletes one entry whose name has a given prefix.

Shared types are in `base.dfy` (module `Base`): Go strings as byte
sequences, Go's nil-or-present slices, the client's error values, and
`%d` formatting. Torrent records are in `swarm.dfy` (module `Swarm`).

Goroutines are serialised. The announces run in URL order and the
handshakes in slot order. This is one of the interleavings the original
allows. The merge runs under one lock and each handshake task writes only
its own slot, so the outcome is the one the concurrent program gives for
that order. The unlocked append to the torrent's trackers is modelled as
one append per answering tracker; an append lost to that race is not
modelled.

`WellFormed`, `UnsupportedScheme`, `Dedup`, `Recorded`, `Gathered`,
`AllDecoded` and `Flatten` are specification helpers: they have no
contract of their own, and the members below state what they mean.

## Model

| member | source | states |
|---|---|---|
| `Meta.CheckFields` | client/metainfo.go:40-54 | No error exactly when all five checks pass. Each error is returned exactly when the checks before it pass and its own fails: empty `announce` with nil `announce-list`, info equal to the zero value, empty name, zero piece length or empty pieces, no files and zero length. |
| `Meta.EmptyAnnounceListIsEnough` | client/metainfo.go:41-42 | An empty but present `announce-list` passes the announce check. |
| `Meta.ZeroInfoRefusedAnyway` | client/metainfo.go:41-46 | A zero info block is refused with "no info" once the announce check passes; it would also fail the name check. |
| `Meta.EmptyFileListIsNotZeroInfo` | client/metainfo.go:43-46 | A present but empty file list makes the info block differ from the zero value, so the name check decides. |
| `Meta.NegativePieceLengthAccepted` | client/metainfo.go:47-48 | A negative piece length passes validation. |
| `Meta.SetRemainingFields` | client/metainfo.go:56-61 | Stores the digest. `hasMultipleFiles` holds iff the file list is non-empty. Every other field is unchanged, and validity is unchanged. |
| `Meta.NewMetainfo` | client/metainfo.go:63-87 | Each decoding failure and each validation error is returned, with no descriptor. A descriptor comes out iff the unmarshalled fields are valid. It is then valid and carries the digest, set after validation. |
| `Base.Decimal` | client/tracker.go:96-102 | `%d` output starts with a minus sign iff the number is negative. Every other byte is a decimal digit, there is at least one, a non-zero number has no leading zero, and zero is the single digit `0`. |
| `Base.DecimalRoundTrip` | client/tracker.go:96-102 | Parsing the `%d` output of a number gives the number back. |
| `Swarm.FreshPeer` | client/tracker.go:72-77 | A new peer is choked, not interested and not available, with the given connection. |
| `Swarm.Torrent.constructor` | client/torrent.go:50 | A new torrent holds the descriptor, with no id, no trackers and no peers. |
| `Announcing.FlattenAt` | client/tracker.go:87-89 | URL `j` of tier `i` sits in the flattened list after all URLs of the earlier tiers. |
| `Announcing.FlattenMembership` | client/tracker.go:87-89 | A URL is in the flattened list iff some tier lists it. |
| `Announcing.AnnounceTargets` | client/tracker.go:85-89 | The announce list has 1 plus the sum of the tier sizes URLs. The primary URL comes first, even when empty, then the flattened tiers. |
| `Announcing.AnnounceUrls` | client/tracker.go:85-89 | The list-building loop produces exactly `AnnounceTargets`. |
| `Announcing.RequestUrl` | client/tracker.go:95-103 | The request is the base URL, `?info_hash=`, the escaped hash and `&peer_id=`, then the escaped client id, then `&uploaded=0&downloaded=0&left=` and the decimal `length` field, each part at its position and nothing else; the decimal field is the last thing in the request. |
| `Announcing.RequestCarriesLength` | client/tracker.go:95-103 | The `left` value reads back as the descriptor's `length` field. |
| `Announcing.RequestKeepsScheme` | client/tracker.go:95-108 | The scheme test on a full request URL gives the same verdict as on its announce URL. |
| `Announcing.ParsePeers` | client/tracker.go:58-81 | The peer loop fails iff some record does not unmarshal, and then returns no peers. Otherwise there is one fresh peer per record, in response order. |
| `Announcing.Announce` | client/tracker.go:27-82 | `udp`/`dht` URLs fail before any request. A failure reason is an error with no tracker and no peers. A tracker `{interval, request URL}` is recorded iff the tracker answered. Peers are returned iff every record decodes, one fresh peer per record. |
| `Announcing.TrackerKeptDespiteBadPeer` | client/tracker.go:52-69 | A tracker that answered stays recorded even when one of its peer records is malformed. |
| `Announcing.TryToAnnounce` | client/tracker.go:27-82 | Appends exactly the tracker record of `Announce` and returns its peers or its error. |
| `Announcing.AnnounceAll` | client/tracker.go:93-112 | There is one announce per announce URL, in URL order. |
| `Announcing.DedupElems` | client/tracker.go:117-123 | The merge keeps every peer returned and adds none. |
| `Announcing.DedupDistinct` | client/tracker.go:117-123 | The peers the merge appends are pairwise distinct. |
| `Announcing.DedupOfDistinct` | client/tracker.go:117-123 | Peers that are already distinct are all appended, in order. |
| `Announcing.DedupEmpty` | client/tracker.go:129-131 | Nothing is merged iff no tracker returned a peer. |
| `Announcing.MergePeers` | client/tracker.go:117-123 | The locked loop appends each peer not yet seen in this call and adds it to the seen-set. Earlier entries of `t.peers` are untouched. |
| `Announcing.AnnounceAndMerge` | client/tracker.go:106-125 | One announce task records its tracker and, on success, merges its peers. On error, only the tracker record changes. |
| `Announcing.AnnounceTask` | client/tracker.go:95-125 | After task `i`, trackers and peers are those of the first `i + 1` announces. |
| `Announcing.RequestPeers` | client/tracker.go:84-134 | Appends the tracker records of all announces. Appends the first occurrence of each returned peer and keeps existing peers. Fails with "no peers found" iff no tracker returned a peer, which is exactly when `t.peers` does not change. |
| `Handshaking.ClientHandshake` | client/peer.go:24-29 | The message is byte 19, "BitTorrent protocol", eight ASCII `'0'`, the info hash, then the id: 48 bytes plus the id. |
| `Handshaking.ReadInto` | client/peer.go:71-72 | The buffer has exactly `size` bytes: those the read delivered, then zeros. |
| `Handshaking.AcceptedId` | client/peer.go:61-86 | An answer is accepted iff the length byte is not 0, the read delivered bytes without error, and bytes `[l-40, l-20)` of the `48 + pstrlen` buffer equal the info hash. The id kept is then bytes `[l-20, l-1)`, 19 bytes. |
| `Handshaking.WellFormedReplyAccepted` | client/peer.go:61-86 | A complete BEP 3 answer with the right hash is accepted, and the kept id is the peer's id without its last byte. |
| `Handshaking.WrongHashRefused` | client/peer.go:79-82 | An answer carrying another info hash is refused. |
| `Handshaking.ShortReadAccepted` | client/peer.go:71-86 | A read that stops after the info hash is still accepted, and the kept id is zero bytes. |
| `Handshaking.EchoAccepted` | client/peer.go:24-86 | The client's own message, sent back, is accepted, and the kept id is the client id without its last byte. |
| `Handshaking.AfterHandshake` | client/peer.go:66-87 | A refused answer leaves the slot unchanged. An accepted one sets the id and `available`. `choked`, `interested`, ip and port never change. |
| `Handshaking.HandshakeAll` | client/peer.go:32-88 | The number of peers is kept. A slot not yet available becomes available iff its answer is accepted. |
| `Handshaking.HandshakePeer` | client/peer.go:35-88 | One task changes only slot `idx`, and that slot becomes its `AfterHandshake` value. |
| `Handshaking.Handshake` | client/peer.go:23-93 | Every slot ends as its own task left it, and the result is always nil. |
| `Construction.CreateId` | client/torrent.go:53-64 | The id is `-GG0001-` followed by exactly the 12 drawn bytes, 20 bytes. A generator failure is an error with no id. |
| `Construction.CreateTorrentFromFileContents` | client/torrent.go:38-51 | An open or descriptor error gives that error and no torrent. Otherwise a fresh torrent holds the descriptor, with no id, trackers or peers. |
| `Construction.Discover` | client/torrent.go:86-96 | Fails with "no peers found" iff no tracker returned a peer. Otherwise the torrent keeps its descriptor and id, holds every tracker record, and holds the merged peers after the handshake, at least one. |
| `Construction.Populate` | client/torrent.go:81-96 | A generator failure gives `RandomFailed`. With a drawn id, the build succeeds iff some tracker returns a peer to requests carrying that id, and otherwise fails with "no peers found". On success the torrent holds the id, every tracker record, and the merged peers after the handshake. |
| `Construction.Construct` | client/torrent.go:66-97 | Invalid input, open, descriptor, id and announce errors come out in that order. With a valid descriptor and a drawn id, construction succeeds iff some tracker returns a peer. A built torrent has a valid descriptor, the drawn id, at least one peer, the announce's trackers, and the handshaken merged peers. |
| `Construction.NoPeersNoTorrent` | client/torrent.go:86-89 | A valid descriptor and a drawn id still give no torrent when no tracker returns a peer. |
| `Construction.DiscoverPeers` | client/torrent.go:86-96 | Requesting peers, then handshaking, changes the torrent exactly as `Discover` says. A `requestPeers` error stops before the handshake. |
| `Construction.PopulateTorrent` | client/torrent.go:81-96 | Setting the id, requesting peers and handshaking change the torrent exactly as `Populate` says. An error stops before the later steps. |
| `Construction.NewTorrent` | client/torrent.go:66-97 | The first error is returned with no torrent. Otherwise the result is a fresh torrent equal to `Construct`'s value. |
| `Registry.Client.constructor` | client/client.go:17-19 | A new registry is empty. |
| `Registry.Client.AddTorrent` | client/client.go:21-39 | A build error is returned and the map is unchanged. A name already present is refused and the map is unchanged. Otherwise only that name is bound, to the built torrent. Every key stays its torrent's name. |
| `Registry.Client.IsRegistered` | client/client.go:30-34 | The key loop finds a key equal to the new name iff the name is in the map. |
| `Registry.Client.RemoveTorrent` | client/client.go:41-52 | Fails, changing nothing, iff no name has the prefix. Otherwise exactly one name with the prefix is removed and every other entry is kept. |
| `Registry.Client.StartTorrent` | client/client.go:54-56 | Returns nil and changes nothing. |
| `Registry.Client.StopTorrent` | client/client.go:58-60 | Returns nil and changes nothing. |

## Left out

- Networking: the HTTP GET, the TCP dial, `Write`, `Read` and the 5-second timeouts and deadlines. A tracker's decoded answer is the parameter `fetch` (a function of the request URL). A peer's answer to the handshake is the parameter `dial` (a function of ip, port and message).
- `fetch` and `dial` are functions, so asking the same URL, or the same peer with the same message, twice gives the same answer. Repeated URLs or peers in the original could receive different answers.
- The bencode decoder and encoder, `encoding/json` and `sha1.Sum`: their outcome is the input `Decoded`. The per-peer JSON round trip is a `PeerRecord` that decoded or is `Malformed`.
- `url.QueryEscape`: the uninterpreted parameter `escape`.
- Goroutines, `sync.WaitGroup` and `sync.Mutex`: serialised in URL order and slot order. The unlocked append to `t.trackers` is therefore modelled in URL order, not as an arbitrary interleaving.
- Unlocked tracker appends: the model appends every answering tracker's record once, in URL order. A record lost to the data race on the slice is not modelled.
- Meta.NewMetainfo: `Unmarshalled` fields may carry a non-zero `infoHash` or a set `hasMultipleFiles`, which `json.Unmarshal` never produces since the fields are unexported. On such inputs the zero-info check answers differently from the original; they are outside what the original can reach.
- The `safePeers.peers` map: modelled as the set of peers seen, since only its keys are ever read.
- Meta.SetRemainingFields: modelled as a function returning the updated descriptor, not as an update through a pointer. The descriptor is a value copied into the torrent, so nothing else observes the in-place write.
- Announcing.Announce: a response without an integer `interval` or without a `peers` list panics in the original; those responses are not modelled. A `failure reason` that is not a string is ignored by the original, and the model has no such response.
- `interpretInput` and `os.Open`: what opening the path gives is the input `Source`. `math/rand`: what it draws is the input `Entropy`.
- Construction.NewTorrent: the error check after `handshake` is not modelled, because `handshake` always returns nil.
- Registry.Client.AddTorrent: the error of `StartTorrent` is ignored, as in the original, where it is always nil.
- `ShowTorrents`, the `fmt.Printf` in `RemoveTorrent` and the `log.Println` of per-URL errors: console output only.
- `main.go` (the command loop, standard input and output, log file setup) is not part of this model.
- Error messages are named constructors of `Error`. The text of the message and the wrapped library error are not modelled.
