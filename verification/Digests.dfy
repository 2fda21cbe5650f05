// The commitment records and their hashes. A hash is the term it was computed from: the leaf, node and batch
// preimages start with different domain strings, and canonical JSON and ABI encoding are injective, so two
// hashes are equal exactly when their preimages are.
module Digests {
  import opened Prelude

  datatype ObjectType =
    | AgentVersion | PolicyLocked | ActionAccepted | ActionRejected | Execution | TransferObject | Valuation
    | Evaluation | Incident | Correction | Publication | StoppedEarly

  datatype AuditEvent = AuditEvent(
    experimentId: Id, sequence: int, objectType: ObjectType, occurredAt: Timestamp, resultProvenance: string,
    objectSchemaVersion: string, contentHash: Hash, previousEventHash: Option<Hash>,
    supersedesContentHash: Option<Hash>)

  datatype Leaf = Leaf(
    experimentId: Id, sequence: int, objectType: ObjectType, objectSchemaVersion: string, contentHash: Hash,
    auditEventHash: Hash, leafHash: Hash)

  datatype LeafSet = LeafSet(batchId: Id, firstSequence: int, lastSequence: int, leaves: seq<Leaf>)

  // Opaque stands for any other 32-byte value: the hash of a document the chain does not look into.
  datatype Hash =
    | Zero
    | Opaque(text: string)
    | EventDigest(event: AuditEvent)
    | LeafDigest(experimentId: Id, sequence: int, objectType: ObjectType, objectSchemaVersion: string,
                 contentHash: Hash, auditEventHash: Hash)
    | LeafSetDigest(leafSet: LeafSet)
    | NodeDigest(left: Hash, right: Hash)
    | BatchDigest(experimentId: Id, firstSequence: int, lastSequence: int, root: Hash, previous: Hash,
                  leavesObjectHash: Hash)
}
