/** The tables one transaction of the engine reads and writes besides the integrity checkpoints. */
module Database {
  import opened Common
  import opened Ledger

  /** One row of the accepted_observations read model. */
  datatype Row = Row(
    observationId: string, position: nat, eventId: string, tenantId: string, ownerId: string,
    applicationId: string, domainPack: string, schemaVersion: string, subject: string, statement: string,
    knowledgeClass: string, unknownReason: Option<UnknownReason>, observedBy: string,
    context: map<string, Json>, sourceIds: seq<string>, metadata: map<string, Json>,
    occurredAt: Option<Time>, createdAt: Time, auditId: string)

  /** Rows by primary key. */
  type Table = map<string, Row>

  function Upsert(t: Table, r: Row): Table { t[r.observationId := r] }

  datatype CheckpointStatus = READY | STOPPED

  datatype Checkpoint = Checkpoint(
    position: nat, eventId: Option<string>, status: CheckpointStatus, checksum: Option<map<string, Checked>>)

  /** The eight columns a checksum covers. */
  datatype Checked = Checked(
    observationId: string, position: nat, eventId: string, ownerId: string, applicationId: string,
    statement: string, subject: string, knowledgeClass: string)

  datatype Scope = Scope(applicationId: string, ownerId: string, action: string, key: string)

  /** What the client controls in a submission; its canonical hash stands for it. */
  datatype Content = Content(
    schemaVersion: string, domainPack: string, subject: string, statement: string, knowledgeClass: string,
    unknownReason: Option<UnknownReason>, observedBy: string, context: map<string, Json>,
    occurredAt: Option<Time>, sourceIds: seq<string>, metadata: map<string, Json>)

  datatype PayloadHash = HashOf(content: Content) | HashOfOther(text: string)

  datatype Record = Record(
    tenantId: string, actorId: string, payloadHash: PayloadHash, primaryId: string, eventId: string, auditId: string)

  datatype Audit = Audit(
    requestId: string, key: StreamKey, actor: Actor, action: string, inputIds: seq<string>,
    outputIds: seq<string>, eventIds: seq<string>, timestamp: Time)

  datatype Db = Db(
    ledger: Ledger, live: Table, shadow: Table, checkpoint: Option<Checkpoint>,
    audits: map<string, Audit>, records: map<Scope, Record>)

  const EMPTY_DB := Db(EMPTY, map[], map[], None, map[], map[])
}
