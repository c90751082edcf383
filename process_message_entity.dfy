/** The outbox record (`process_message` table). The scheduler reads and
    writes a `status` and a `retryCount` besides the columns the entity lists. */
module ProcessMessageEntity {
  import opened Results

  /** Store-generated primary key (a generated UUID in the source). */
  type MessageId = nat

  /** There is no FAILED status: a failed send only raises `retryCount`. */
  datatype MessageStatus = PENDING | SENT

  datatype ProcessMessage = ProcessMessage(
    messageId: Option<MessageId>,   // None until the store generates it on first save
    messageName: string,
    correlationId: Option<string>,  // None: the engine starts a new process instance
    variables: string,              // serialised variable map
    createdAt: nat,                 // clock reading at construction
    status: MessageStatus,
    retryCount: nat)

  /** The two records describe the same outbox message: they differ at most in
      status and retry count, the only fields the scheduler changes. */
  predicate SameMessage(a: ProcessMessage, b: ProcessMessage)
  {
    a.messageId == b.messageId && a.messageName == b.messageName &&
    a.correlationId == b.correlationId && a.variables == b.variables &&
    a.createdAt == b.createdAt
  }

  /** A freshly constructed, not yet saved record with the entity's defaults. */
  function NewMessage(messageName: string, correlationId: Option<string>, variables: string, now: nat): (m: ProcessMessage)
    ensures m.messageId == None && m.status == PENDING && m.retryCount == 0 && m.createdAt == now
    ensures m.messageName == messageName && m.correlationId == correlationId && m.variables == variables
  {
    ProcessMessage(None, messageName, correlationId, variables, now, PENDING, 0)
  }
}
