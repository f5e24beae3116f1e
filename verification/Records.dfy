/** The rows of the database, as the migrations declare them. */
module Records {
  import opened Contract

  datatype JobStatus = Queued | Running | Succeeded | Failed

  datatype JobMode = Derive | Remux

  datatype Job = Job(
    account: Id, asset: Id, intent: Intent, status: JobStatus, retries: nat,
    reason: Option<ReasonCode>, created: int, heartbeat: Option<int>,
    mode: JobMode, sourceKey: Option<string>)

  datatype RenditionStatus = Ready | Pending | Refused | NotDerived

  datatype RenditionRecord = RenditionRecord(
    key: string, width: Option<int>, height: Option<int>, durationS: Option<real>, hasAudio: Option<bool>)

  datatype Rendition = Rendition(status: RenditionStatus, reason: Option<ReasonCode>, record: Option<RenditionRecord>)

  /** An asset and its immutable vault object; width and height are what was probed of it. */
  datatype Asset = Asset(
    account: Id, kind: Kind, vaultKey: string, vaultSize: int, width: Option<int>, height: Option<int>,
    checksum: string, checksumVerified: bool, checkedAt: Option<int>,
    created: int, deletedAt: Option<int>)

  /** A brokered upload; `rendition` binds an authored file to the asset and intent it is for. */
  datatype Upload = Upload(
    account: Id, key: string, contentType: string, skipDerivations: bool, rendition: Option<(Id, Intent)>,
    created: int, finalizedAt: Option<int>, sweptAt: Option<int>)

  /** A grant and an export have the same columns: a frozen set, an expiry, a revocation. */
  datatype Share = Share(account: Id, assets: seq<Id>, created: int, expires: int, revokedAt: Option<int>)

  /** The tables the worker's statements touch. Jobs and renditions reference assets and go with them. */
  datatype Tables = Tables(
    assets: map<Id, Asset>, jobs: map<Id, Job>, renditions: map<(Id, Intent), Rendition>)

  /** The whole database. */
  datatype Db = Db(
    accounts: set<Id>, uploads: map<Id, Upload>, t: Tables, grants: map<Id, Share>, exports: map<Id, Share>)

  predicate Terminal(status: JobStatus) {
    status == Succeeded || status == Failed
  }
}
