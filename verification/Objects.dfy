/** `stored_objects`: the CHECK constraints, the immutability trigger that judges every update,
    and what they imply for the whole history of an object. */
module Objects {
  import opened Support

  datatype Lifecycle = PendingUpload | Uploaded | Quarantined | Available | Rejected | Deleted

  datatype Scan = ScanPending | Clean | Infected | ScanFailed | Bypassed

  datatype Kind =
    | XmlUpload | ZipUpload | SatDownload | ExtractedXml | CredentialCertificate | CredentialPrivateKey | Export

  /** Tenant scope, physical location and declared facts. */
  datatype Identity = Identity(
    org: Org, clientAccount: Id, legalEntity: Id, kind: Kind, provider: string, container: string,
    objectKey: string, filename: Option<string>, declaredMime: Option<string>, encryption: string)

  datatype Bytes = Bytes(size: Option<nat>, sha256: Option<string>, etag: Option<string>, versionId: Option<string>)

  datatype StoredObject = StoredObject(
    identity: Identity,
    bytes: Bytes,
    lifecycle: Lifecycle,
    scan: Scan,
    scannedAt: Option<Time>,
    quarantineReason: Option<string>,
    retentionUntil: Option<Time>,
    holdUntil: Option<Time>,
    redundantAt: Option<Time>,
    eligibleAt: Option<Time>,
    uploadedAt: Option<Time>,
    availableAt: Option<Time>,
    deletedAt: Option<Time>,
    cleanupRequestedAt: Option<Time>,
    createdAt: Time,
    updatedAt: Time,
    version: int)

  predicate ObjectChecks(o: StoredObject) {
    && (o.lifecycle.PendingUpload? ==> o.bytes.size.None? && o.bytes.sha256.None? && o.uploadedAt.None?)
    && (o.lifecycle.Uploaded? || o.lifecycle.Quarantined? || o.lifecycle.Available? ==>
          o.bytes.size.Some? && o.bytes.sha256.Some? && o.uploadedAt.Some?)
    && (o.lifecycle.Deleted? <==> o.deletedAt.Some?)
    && (o.lifecycle.Available? ==> (o.scan.Clean? || o.scan.Bypassed?) && o.scannedAt.Some? && o.availableAt.Some?)
    && (o.scan.ScanPending? <==> o.scannedAt.None?)
    && (o.quarantineReason.Some? ==> o.lifecycle.Quarantined? || o.lifecycle.Rejected? || o.lifecycle.Deleted?)
    && o.version > 0
  }

  predicate LegalTransition(from: Lifecycle, to: Lifecycle) {
    match from
    case PendingUpload => to.Uploaded? || to.Rejected? || to.Deleted?
    case Uploaded => to.Quarantined? || to.Available? || to.Rejected? || to.Deleted?
    case Quarantined => to.Available? || to.Rejected? || to.Deleted?
    case Available => to.Quarantined? || to.Deleted?
    case Rejected => to.Deleted?
    case Deleted => false
  }

  /** enforce_stored_object_immutability */
  predicate TriggerAccepts(was: StoredObject, is': StoredObject) {
    && is'.identity == was.identity
    && (!was.lifecycle.PendingUpload? ==> is'.bytes == was.bytes)
    && (is'.lifecycle != was.lifecycle ==> LegalTransition(was.lifecycle, is'.lifecycle))
  }

  /** An update PostgreSQL lets through. */
  predicate Accepted(was: StoredObject, is': StoredObject) {
    TriggerAccepts(was, is') && ObjectChecks(is')
  }

  /** The successive rows of one object, each accepted in its turn. */
  predicate History(h: seq<StoredObject>) {
    && h != [] && ObjectChecks(h[0])
    && forall i | 0 <= i < |h| - 1 :: Accepted(h[i], h[i + 1])
  }

  /** The states from which a later state can still follow, over any number of updates. */
  predicate MayFollow(from: Lifecycle, to: Lifecycle) {
    || from == to
    || from.PendingUpload?
    || (from.Uploaded? && !to.PendingUpload?)
    || ((from.Quarantined? || from.Available?) && !to.PendingUpload? && !to.Uploaded?)
    || (from.Rejected? && to.Deleted?)
  }

  lemma {:induction false} Follows(h: seq<StoredObject>, i: nat, k: nat)
    requires History(h) && i <= k < |h|
    ensures MayFollow(h[i].lifecycle, h[k].lifecycle) && h[k].identity == h[i].identity && ObjectChecks(h[k])
    ensures !h[i].lifecycle.PendingUpload? ==> h[k].bytes == h[i].bytes
    decreases k - i
  {
    if i < k {
      Follows(h, i, k - 1);
      assert Accepted(h[k - 1], h[k]);
    } else if i > 0 {
      assert Accepted(h[i - 1], h[i]);
    }
  }

  /** The history of an object: `pending_upload` is never entered again, `deleted` is final and `rejected` is left
      only for `deleted`; the location never changes; size, hash, etag and version are fixed by the first row
      that is not pending; and every available row has been scanned and has its bytes. */
  lemma HistoryIsOneWay(h: seq<StoredObject>, i: nat, k: nat)
    requires History(h) && i <= k < |h|
    ensures h[k].lifecycle.PendingUpload? ==> h[i].lifecycle.PendingUpload?
    ensures h[i].lifecycle.Deleted? ==> h[k].lifecycle.Deleted?
    ensures h[i].lifecycle.Rejected? ==> h[k].lifecycle.Rejected? || h[k].lifecycle.Deleted?
    ensures h[k].identity == h[i].identity
    ensures !h[i].lifecycle.PendingUpload? ==> h[k].bytes == h[i].bytes
    ensures h[k].lifecycle.Available? ==>
              && (h[k].scan.Clean? || h[k].scan.Bypassed?) && h[k].scannedAt.Some?
              && h[k].bytes.size.Some? && h[k].bytes.sha256.Some? && h[k].availableAt.Some?
    ensures h[k].lifecycle == Uploaded ==> h[i].lifecycle == PendingUpload || h[i].lifecycle == Uploaded
    ensures h[k].lifecycle == PendingUpload ==> h[k].bytes.size == None && h[k].bytes.sha256 == None && h[k].uploadedAt == None
    ensures h[k].lifecycle == Uploaded || h[k].lifecycle == Quarantined ==>
              h[k].bytes.size.Some? && h[k].bytes.sha256.Some? && h[k].uploadedAt.Some?
    ensures h[k].deletedAt.Some? <==> h[k].lifecycle == Deleted
    ensures h[k].scannedAt.Some? <==> h[k].scan != ScanPending
    ensures h[k].quarantineReason.Some? ==> h[k].lifecycle == Quarantined || h[k].lifecycle == Rejected || h[k].lifecycle == Deleted
    ensures k == i + 1 && h[i].lifecycle == Available ==> h[k].lifecycle != Rejected
    ensures k == i + 1 && h[i].lifecycle == PendingUpload ==> h[k].lifecycle != Quarantined && h[k].lifecycle != Available
  {
    assert k == i + 1 ==> Accepted(h[i], h[i + 1]);
    Follows(h, i, k);
  }

  /** The bound on histories is exact: wherever one state may follow another, some history leads there. */
  lemma FollowingIsReachable(from: Lifecycle, to: Lifecycle)
    requires MayFollow(from, to) && from != to
    ensures LegalTransition(from, to)
         || exists mid: Lifecycle ::
              LegalTransition(from, mid)
              && (LegalTransition(mid, to) || exists next: Lifecycle :: LegalTransition(mid, next) && LegalTransition(next, to))
  {
    if from.PendingUpload? {
      assert LegalTransition(PendingUpload, Uploaded);
      assert LegalTransition(Uploaded, Quarantined);
    } else if from.Available? {
      assert LegalTransition(Available, Quarantined);
    }
  }
}
