/**
 * The records the tracker stores: approval requests and audit entries, with the
 * fields and defaults of `backend/models.py` and the columns of the `approvals`
 * and `audit` tables.
 */
module Records {
  import opened Wrappers

  /** The `status` column: PENDING, APPROVED or ESCALATED. */
  datatype Status = Pending | Approved | Escalated

  datatype Approver = Approver(name: string, role: string, level: int)

  /**
   * A UTC timestamp as the tracker keeps it: the ISO-8601 text stored in a
   * column, and the instant that text denotes, in microseconds since the epoch
   * (the resolution of Python's `datetime`).
   */
  datatype Instant = Instant(iso: string, micros: int)

  /**
   * One purchase request. `amountCents` is the amount in cents (the prototype
   * only creates non-negative amounts with two decimals); `requester` is the
   * nullable column added by the schema migration.
   */
  datatype Approval = Approval(
    id: string,
    vendorName: string,
    amountCents: nat,
    approvers: seq<Approver>,
    status: Status,
    submittedAt: Instant,
    slaHours: int,
    lastReminderAt: Option<Instant>,
    escalationLevel: int,
    requester: Option<string>)

  /** Who wrote an audit entry; `Label` is the text of its `actor` column. */
  datatype Actor = System | User | Agent {
    function Label(): string {
      match this
      case System => "system"
      case User => "user"
      case Agent => "agent"
    }
  }

  /** What an audit entry records; `Label` is the text of its `action` column. */
  datatype AuditAction = Created | ApprovedByUser | Reminder | Escalation {
    function Label(): string {
      match this
      case Created => "created"
      case ApprovedByUser => "approved"
      case Reminder => "reminder"
      case Escalation => "escalation"
    }
  }

  /** Distinct actions are logged under distinct labels. */
  lemma AuditLabelsDistinct(x: AuditAction, y: AuditAction)
    requires x.Label() == y.Label()
    ensures x == y
  {
    match x
    case Created => assert x.Label()[0] == 'c';
    case ApprovedByUser => assert x.Label()[0] == 'a';
    case Reminder => assert x.Label()[0] == 'r';
    case Escalation => assert x.Label()[0] == 'e';
  }

  /**
   * One row of the append-only audit table. `metaLevel` is the structured
   * metadata `{"escalation_level": n}` that escalation entries carry.
   */
  datatype AuditEntry = AuditEntry(
    timestamp: Instant,
    approvalId: string,
    actor: Actor,
    action: AuditAction,
    message: Option<string>,
    metaLevel: Option<int>)

  /** The cap on `escalation_level` (0 = none, 1 = chair, 2 = finance head). */
  const MaxEscalationLevel: int := 2

  /** What every operation of the tracker keeps true of a stored approval. */
  predicate RecordOk(a: Approval) {
    && 0 <= a.escalationLevel <= MaxEscalationLevel
    && (a.status == Escalated ==> a.escalationLevel >= 1)
  }

  /** The approvals table: keyed by its primary key, every record well formed. */
  predicate StoreOk(m: map<string, Approval>) {
    forall id :: id in m ==> m[id].id == id && RecordOk(m[id])
  }
}
