/** What a merge reports. Texts are UTF-8 bytes. */
module MergeTypes {
  import opened Bytes

  datatype ConflictKind = Content | AddAdd | ModifyDelete | DeleteModify | Type | Binary | Markers | Mode

  datatype Hunk = Hunk(line: nat, ours: seq<seq<byte>>, theirs: seq<seq<byte>>)

  datatype Conflict = Conflict(path: seq<byte>, kind: ConflictKind, hunks: seq<Hunk>)

  datatype LwwDecision = LwwDecision(path: seq<byte>, keptOurs: bool, deleted: bool, rule: seq<byte>)

  datatype Side = Ours | Theirs

  /** `keptTime` is seconds and nanoseconds since the Unix epoch. */
  datatype UnitReport = UnitReport(
    name: seq<byte>,
    kept: Side,
    seconds: int,
    nanoseconds: nat,
    changedOurs: nat,
    changedTheirs: nat,
    dropped: nat,
    crossLinks: nat)
}
