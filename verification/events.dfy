/** The records the core stores, queues and audits. */
module Events {
  import opened Common

  // Status values written by the core (the column is a free string).
  const SCHEDULED := "SCHEDULED"
  const QUEUED := "QUEUED"
  const DELIVERED := "DELIVERED"
  const RETRY_SCHEDULED := "RETRY_SCHEDULED"
  const FAILED := "FAILED"
  const DEAD_LETTERED := "DEAD_LETTERED"

  // Audit actions that are not also status names.
  const CREATED := "CREATED"
  const SENT := "SENT"

  /** The retry limit hard-coded in the delivery worker. */
  const MaxRetries: int := 3

  /** A notification event: the union of the fields the services read and
      write. Timestamps are abstract instants (seconds). */
  datatype Event = Event(
    id: int,
    recipient: string,
    message: string,
    subject: Option<string>,
    channel: string,
    priority: string,
    notificationType: Option<string>,
    status: string,
    retryCount: int,
    failureReason: Option<string>,
    scheduledAt: Option<int>,
    createdAt: int,
    updatedAt: int)

  /** One row of the append-only audit trail. */
  datatype AuditEntry = AuditEntry(eventId: int, action: string, details: string, timestamp: int)

  /** A message on the main queue: the serialised event and the broker
      priority set at publish time (none for a re-publish). */
  datatype Message = Message(event: Event, priority: Option<int>)

  /** The submission accepted by the dispatcher; every field may be null. */
  datatype Request = Request(
    notificationType: Option<string>,
    recipient: Option<string>,
    message: Option<string>,
    channel: Option<string>,
    priority: Option<string>,
    subject: Option<string>,
    scheduledTime: Option<string>)

  /** What the dispatcher returns to the submitter. */
  datatype Response = Response(eventId: int, status: string, message: string)

  /** The retry counter is within the worker's limit. */
  predicate InRetryBounds(e: Event) {
    0 <= e.retryCount <= MaxRetries
  }
}
