/**
 * The torrent descriptor ("metainfo" file, section "metainfo files" of
 * BEP 3) as the client holds it after decoding: validation of the decoded
 * fields, the two fields filled in after validation, and the fail-closed
 * construction. Bencode decoding, the JSON round trip into the struct and
 * the SHA-1 of the re-encoded info dictionary are not modelled: their
 * outcome is an input (`Decoded`).
 */
module Meta {
  import opened Base

  datatype FileEntry = FileEntry(length: Int64, path: seq<seq<byte>>)

  /** The `info` dictionary. `hasMultipleFiles` is not a JSON field: it is
      false after unmarshalling and set by `SetRemainingFields`. */
  datatype Info = Info(
    files: Slice<FileEntry>,
    hasMultipleFiles: bool,
    length: Int64,
    name: seq<byte>,
    pieceLength: Int64,
    pieces: seq<byte>)

  /** The whole descriptor. `infoHash` is not a JSON field either: it is the
      zero digest until `SetRemainingFields` stores the SHA-1 of the info
      dictionary. */
  datatype Metainfo = Metainfo(
    announce: seq<byte>,
    announceList: Slice<seq<seq<byte>>>,
    comment: seq<byte>,
    createdBy: seq<byte>,
    creationDate: Int64,
    info: Info,
    infoHash: Digest)

  /** Go's zero value `info{}`: nil file list, every other field zero. */
  const ZeroInfo: Info := Info(Nil, false, 0, [], 0, [])

  /** The descriptor invariant the client relies on: somewhere to announce
      to, a name, piece information, and either files or a length. A
      negative piece length or length is not excluded. */
  predicate WellFormed(m: Metainfo) {
    && (m.announce != [] || m.announceList.Slice?)
    && m.info.name != []
    && m.info.pieceLength != 0
    && m.info.pieces != []
    && (|m.info.files.Items()| > 0 || m.info.length != 0)
  }

  /** `checkFieldsPostUnmarshal`: five checks in order; the first that fails
      names the error, and there is no error exactly when all pass. */
  function CheckFields(m: Metainfo): (r: Option<Error>)
    ensures r.None? <==> WellFormed(m)
    ensures r == Some(NoAnnounceUrl) <==> m.announce == [] && m.announceList.Nil?
    ensures r == Some(NoInfo) <==>
      (m.announce != [] || m.announceList.Slice?) && m.info == ZeroInfo
    ensures r == Some(NoName) <==>
      (m.announce != [] || m.announceList.Slice?) && m.info != ZeroInfo && m.info.name == []
    ensures r == Some(NoPieceInfo) <==>
      (m.announce != [] || m.announceList.Slice?) && m.info.name != []
      && (m.info.pieceLength == 0 || m.info.pieces == [])
    ensures r == Some(NoFilesOrLength) <==>
      (m.announce != [] || m.announceList.Slice?) && m.info.name != []
      && m.info.pieceLength != 0 && m.info.pieces != []
      && |m.info.files.Items()| == 0 && m.info.length == 0
  {
    if m.announce == [] && m.announceList.Nil? then Some(NoAnnounceUrl)
    else if m.info == ZeroInfo then Some(NoInfo)
    else if m.info.name == [] then Some(NoName)
    else if m.info.pieceLength == 0 || m.info.pieces == [] then Some(NoPieceInfo)
    else if |m.info.files.Items()| == 0 && m.info.length == 0 then Some(NoFilesOrLength)
    else None
  }

  /** An announce list that is present but empty satisfies the first check. */
  lemma EmptyAnnounceListIsEnough(m: Metainfo)
    requires m.announce == [] && m.announceList == Slice([])
    ensures CheckFields(m) != Some(NoAnnounceUrl)
  {
  }

  /** The zero-info check only chooses the error message: a zero info block
      also has an empty name, so it would be refused by the name check. */
  lemma ZeroInfoRefusedAnyway(m: Metainfo)
    requires m.info == ZeroInfo
    ensures !WellFormed(m)
    ensures CheckFields(m) == if m.announce == [] && m.announceList.Nil?
                              then Some(NoAnnounceUrl) else Some(NoInfo)
  {
  }

  /** An info block whose file list is present but empty is not the zero
      value (`reflect.DeepEqual` tells nil from empty), so a descriptor
      whose only info field is such a list is refused for its name. */
  lemma EmptyFileListIsNotZeroInfo(m: Metainfo)
    requires m.announce != []
    requires m.info == ZeroInfo.(files := Slice([]))
    ensures CheckFields(m) == Some(NoName)
  {
  }

  /** A negative piece length passes validation. */
  lemma NegativePieceLengthAccepted(m: Metainfo)
    requires WellFormed(m.(info := m.info.(pieceLength := 1)))
    requires m.info.pieceLength < 0
    ensures CheckFields(m) == None
  {
  }

  /** `setRemainingFields`: stores the digest of the info dictionary and
      whether the torrent has several files; nothing else changes. */
  function SetRemainingFields(m: Metainfo, infoHash: Digest): (r: Metainfo)
    ensures r.infoHash == infoHash
    ensures r.info.hasMultipleFiles <==> |m.info.files.Items()| != 0
    ensures r.(infoHash := m.infoHash, info := r.info.(hasMultipleFiles := m.info.hasMultipleFiles)) == m
    ensures WellFormed(r) <==> WellFormed(m)
  {
    m.(infoHash := infoHash,
       info := m.info.(hasMultipleFiles := |m.info.files.Items()| != 0))
  }

  /** What the foreign steps of `newMetainfo` produce: a failure of
      `bencode.Decode`, of `json.Marshal` or of `json.Unmarshal`, or the
      unmarshalled struct together with the SHA-1 of the bencoded `info`
      value of the decoded stream. `json.Unmarshal` leaves the unexported
      fields `infoHash` and `hasMultipleFiles` at their zero values. */
  datatype Decoded =
    | DecodeError
    | MarshalError
    | UnmarshalError
    | Unmarshalled(fields: Metainfo, infoHash: Digest)

  /** `newMetainfo`: fails closed. Any decoding or validation error yields
      no metainfo; the digest and the multiple-files flag are set only on a
      descriptor that passed validation. */
  function NewMetainfo(d: Decoded): (r: Result<Metainfo>)
    ensures d.DecodeError? ==> r == Err(DecodeFailed)
    ensures d.MarshalError? ==> r == Err(MarshalFailed)
    ensures d.UnmarshalError? ==> r == Err(UnmarshalFailed)
    ensures d.Unmarshalled? && CheckFields(d.fields).Some? ==>
      r == Err(CheckFields(d.fields).value)
    ensures r.Ok? <==> d.Unmarshalled? && WellFormed(d.fields)
    ensures r.Ok? ==>
      && WellFormed(r.value)
      && r.value.infoHash == d.infoHash
      && r.value == SetRemainingFields(d.fields, d.infoHash)
  {
    match d
    case DecodeError => Err(DecodeFailed)
    case MarshalError => Err(MarshalFailed)
    case UnmarshalError => Err(UnmarshalFailed)
    case Unmarshalled(m, h) =>
      var check := CheckFields(m);
      if check.Some? then Err(check.value) else Ok(SetRemainingFields(m, h))
  }
}
