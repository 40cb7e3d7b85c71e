/**
 The portable HSM vocabulary of hsm-core: identities, receipts, entity states, operation
 contexts and failure classes. Error messages carry no protocol meaning and are dropped.
 */
module Managed {

  type byte = b: int | 0 <= b < 256
  type Bytes = seq<byte>

  datatype Option<+T> = None | Some(value: T)

  datatype Result<+T> = Ok(value: T) | Err(error: HsmError)

  datatype HsmError =
    | Invalid | Conflict | Busy | NotFound | Fenced | Integrity | Unknown | Unsupported | Io

  /** Unknown and Io may have taken effect; every other class is a definite negative outcome. */
  predicate Definite(e: HsmError) {
    e != HsmError.Unknown && e != Io
  }

  datatype EntityKey = EntityKey(storage: string, ns: string, entity: string)

  datatype DataKey = DataKey(entity: EntityKey, generation: nat)

  datatype ArchiveKey = ArchiveKey(backend: string, objectId: string)

  datatype ContentDigest = ContentDigest(algorithm: string, value: Bytes)

  /** Directories a capability can name. Only the two managed kinds exist on a modelled disk. */
  datatype Path =
    | SourceLayout(id: string)
    | AttemptLayout(id: string)
    | Absolute(name: string)
    | Relative(name: string)

  /** The decoded form of a capability's bytes. */
  datatype Capability = Local(root: Path, path: string) | Undecodable

  datatype DataEndpoint = DataEndpoint(adapter: string, capability: Capability)

  datatype OperationContext = OperationContext(operationId: string, controllerEpoch: nat, attemptEpoch: nat)
  {
    predicate Valid() {
      operationId != "" && controllerEpoch != 0 && attemptEpoch != 0
    }
  }

  datatype ManagedAction = Archive(key: ArchiveKey) | Release | Recall(key: ArchiveKey)

  datatype DataView = DataView(data: DataKey, viewId: string, length: nat, digest: ContentDigest, source: DataEndpoint)

  datatype ArchiveTarget = ArchiveTarget(key: ArchiveKey, destination: DataEndpoint)

  datatype TransferEvidence = TransferEvidence(length: nat, digest: ContentDigest)

  datatype ArchiveReceipt = ArchiveReceipt(
    key: ArchiveKey, data: DataKey, length: nat, digest: ContentDigest,
    receiptId: string, durabilityProfile: string)

  datatype ArchiveStatus = Absent | Pending | Committed(receipt: ArchiveReceipt) | Uncertain

  datatype RecallTarget = RecallTarget(data: DataKey, layoutId: string, archive: ArchiveKey, destination: DataEndpoint)

  datatype Residency = Online | Dual | Offline

  datatype EntityState = EntityState(
    data: DataKey, revision: nat, residency: Residency, length: nat, digest: ContentDigest,
    anchors: seq<ArchiveReceipt>)

  const LOCAL_ADAPTER := "local-managed-v1"
  const LOCAL_PROFILE := "local-fsync-v1"

  // Values for the places where a partial lookup has nothing to say.
  const NO_RECEIPT :=
    ArchiveReceipt(ArchiveKey("", ""), DataKey(EntityKey("", "", ""), 0), 0, ContentDigest("", []), "", "")

  const NO_STATE := EntityState(NO_RECEIPT.data, 0, Offline, 0, NO_RECEIPT.digest, [])

  /** Every entry of `m` is still there in `m'`. */
  ghost predicate Extends<K, V>(m: map<K, V>, m': map<K, V>) {
    forall k | k in m :: k in m' && m'[k] == m[k]
  }

  lemma UpdateExtends<K, V>(m: map<K, V>, k: K, v: V)
    requires k !in m
    ensures Extends(m, m[k := v])
  {
  }

  lemma ExtendsTransitive<K, V>(a: map<K, V>, b: map<K, V>, c: map<K, V>)
    requires Extends(a, b) && Extends(b, c)
    ensures Extends(a, c)
  {
  }
}
