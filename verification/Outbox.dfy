/** The workflow worker as a state machine of single SQL statements. Every statement
    commits on its own, and the process may die between any two of them. */
module Outbox {
  import opened Schema

  const MAX_ATTEMPTS := 5

  // ---- worker/registry.py ----

  datatype Handler =
    | AbsentAlert | ReceiptPush | ManualReminder | NotifyClaimed | NotifyRejected
    | ParentPing | PublishNotify | NotifyStale | NotifyEscalated | NotifyTimeout

  /** __name__ of the handler. */
  function Name(h: Handler): string {
    match h
    case AbsentAlert => "absent_alert"
    case ReceiptPush => "receipt_push"
    case ManualReminder => "manual_reminder"
    case NotifyClaimed => "payment_claimed"
    case NotifyRejected => "payment_rejected"
    case ParentPing => "parent_ping"
    case PublishNotify => "publish_notify"
    case NotifyStale => "admission_stale"
    case NotifyEscalated => "claim_escalated"
    case NotifyTimeout => "payment_timeout"
  }

  /** HANDLERS.get(event_type, []) */
  function HandlersFor(kind: EventType): seq<Handler> {
    match kind
    case AttendanceSubmitted => [AbsentAlert]
    case AttendanceCorrected => [AbsentAlert]
    case AttendanceOverride => [AbsentAlert]
    case FeePaid => [ReceiptPush]
    case ReminderSent => [ManualReminder]
    case PaymentClaimed => [NotifyClaimed]
    case PaymentRejected => [NotifyRejected]
    case HomeworkAssigned => [ParentPing]
    case ExamPublished => [PublishNotify]
    case AdmissionStale => [NotifyStale]
    case ClaimEscalated => [NotifyEscalated]
    case PaymentTimeout => [NotifyTimeout]
    case _ => []
  }

  /** The values of HANDLERS, flattened in table order. */
  const REGISTERED := [AbsentAlert, AbsentAlert, AbsentAlert, ReceiptPush, ManualReminder, NotifyClaimed,
                       NotifyRejected,
                       ParentPing, PublishNotify, NotifyStale, NotifyEscalated, NotifyTimeout]

  /** The dictionary {h.__name__: h}: a later handler of the same name would win. */
  function ByName(name: string, handlers: seq<Handler>): Option<Handler> { LastWith(handlers, h => Name(h) == name) }

  function LastWith(handlers: seq<Handler>, p: Handler -> bool): Option<Handler> {
    if handlers == [] then None
    else if p(handlers[|handlers| - 1]) then Some(handlers[|handlers| - 1])
    else LastWith(handlers[..|handlers| - 1], p)
  }

  // ---- notifications ----

  datatype Recipient = User(user: nat) | ParentOf(student: StudentId)
  datatype NoteType =
    FeeReceipt | FeeReconcile | FeeVerify | FeeRejected | FeeOverdue | Absent | Homework | Results | Aging
  datatype Ref =
    | Subject(id: nat) | Reminder(event: nat)
    | Escalation(payment: PaymentId, day: int) | PrincipalEscalation(payment: PaymentId, day: int)

  /** The columns of notifications_dedup_idx. */
  datatype Key = Key(tenant: TenantId, recipient: Recipient, noteType: NoteType, ref: Ref)
  datatype Note = Note(key: Key, title: string)

  /** INSERT ... ON CONFLICT DO NOTHING of several rows. */
  function InsertNotes(notes: seq<Note>, rows: seq<Note>): seq<Note> {
    if rows == [] then notes else
      var n := |rows| - 1;
      var sofar := InsertNotes(notes, rows[..n]);
      if HasKey(sofar, rows[n].key) then sofar else sofar + [rows[n]]
  }

  predicate HasKey(notes: seq<Note>, key: Key) { exists note :: note in notes && note.key == key }

  function CountKey(notes: seq<Note>, key: Key): nat {
    if notes == [] then 0 else
      var n := |notes| - 1;
      CountKey(notes[..n], key) + if notes[n].key == key then 1 else 0
  }

  function ToUsers(e: Event, users: seq<nat>, noteType: NoteType, ref: Ref, title: string): seq<Note> {
    seq(|users|, i requires 0 <= i < |users| => Note(Key(e.tenant, User(users[i]), noteType, ref), title))
  }

  function ToParents(e: Event, students: seq<nat>, noteType: NoteType, ref: Ref, title: string): seq<Note> {
    seq(|students|, i requires 0 <= i < |students| => Note(Key(e.tenant, ParentOf(students[i]), noteType, ref), title))
  }

  function ToParent(e: Event, noteType: NoteType, ref: Ref, title: string): seq<Note> {
    [Note(Key(e.tenant, ParentOf(e.student), noteType, ref), title)]
  }

  /** How many statements a handler runs. */
  function Length(h: Handler): nat { if h.ReceiptPush? || h.NotifyEscalated? then 2 else 1 }

  /** The rows statement `k` of a handler offers for event number `id`. `found` is what the
      statement's SELECT over users or students returns just then, `day` the date. */
  function Rows(h: Handler, k: nat, id: nat, e: Event, found: seq<nat>, day: int): seq<Note> {
    match h
    case ReceiptPush =>
      if k == 0 then ToParent(e, FeeReceipt, Subject(e.subject), "Payment received")
      else ToUsers(e, found, FeeReconcile, Subject(e.subject), "Payment to reconcile")
    case NotifyClaimed => ToUsers(e, found, FeeVerify, Subject(e.subject), "Payment to verify")
    case NotifyRejected => ToParent(e, FeeRejected, Subject(e.subject), "Payment not verified")
    case NotifyTimeout => ToParent(e, FeeRejected, Subject(e.subject), "Payment did not complete")
    case ManualReminder => if found == [] then [] else ToParent(e, FeeOverdue, Reminder(id), "Fee payment reminder")
    case NotifyEscalated =>
      if k == 0 then ToUsers(e, found, FeeVerify, Escalation(e.subject, day), "URGENT: Payment awaiting verification")
      else ToUsers(e, found, FeeVerify, PrincipalEscalation(e.subject, day), "ESCALATED: Unverified payment")
    case AbsentAlert => ToParents(e, found, Absent, Subject(e.subject), "Absent today")
    case ParentPing => ToParents(e, found, Homework, Subject(e.subject), "New classroom post")
    case PublishNotify => ToParents(e, found, Results, Subject(e.subject), "Exam results published")
    case NotifyStale => ToUsers(e, found, Aging, Subject(e.subject), "Admission needs attention")
  }

  // ---- The worker ----

  /** A worker_dlq row: it carries its own copy of the event. The column holds the
      handler's name, which is all a retry goes by. */
  datatype Parked = Parked(event: nat, handler: Handler, copy: Event, attempts: nat, retryAt: int, resolved: bool)

  /** What the process is doing; lost when it dies. Event number `at` is log[at]. */
  datatype Task =
    | Idle
    | Handling(at: nat, end: nat, h: nat, k: nat)
    | Raised(at: nat, end: nat, h: nat)
    | Retrying(row: nat, handler: Handler, k: nat)
    | Retried(row: nat)
    | RetryRaised(row: nat)

  /** A handler's statement `k` has run for an event, its SELECT part returning `found`. */
  datatype Ran = Ran(event: nat, handler: Handler, k: nat, found: seq<nat>, day: int)

  /** `done` and `ran` are history: which handler has run to its end for which event, and
      every statement of a handler that has run. */
  datatype Worker = Worker(
    cursor: nat, dlq: seq<Parked>, notes: seq<Note>, done: set<(nat, Handler)>, ran: set<Ran>, task: Task)

  const FRESH := Worker(0, [], [], {}, {}, Idle)

  function Pow2(n: nat): nat { if n == 0 then 1 else 2 * Pow2(n - 1) }

  /** min(30 * 2 ** attempts, 3600) */
  function Backoff(attempts: nat): nat {
    if 30 * Pow2(attempts) < 3600 then 30 * Pow2(attempts) else 3600
  }

  datatype WorkStep =
    /** SELECT the cursor, then the next events */
    | Fetch(limit: nat)
    /** the next statement of the running handler */
    | Statement(found: seq<nat>, day: int)
    /** the running handler raises */
    | Raise
    /** the handler returned: on to the next one */
    | Return
    /** INSERT INTO worker_dlq */
    | Park(now: int)
    /** UPDATE worker_cursors */
    | Advance
    /** pick a due row of worker_dlq */
    | PickRow(row: nat, now: int)
    /** UPDATE worker_dlq SET resolved_at */
    | Resolve
    /** UPDATE worker_dlq SET attempts = attempts + 1 */
    | Postpone(now: int)
    /** the process dies, or a statement outside any handler fails */
    | Crash

  function Min(a: nat, b: nat): nat { if a < b then a else b }

  predicate Running(w: Worker, log: seq<Event>) {
    w.task.Handling? && w.task.at < |log| && w.task.h < |HandlersFor(log[w.task.at].kind)|
  }

  function Work(w: Worker, log: seq<Event>, step: WorkStep): Worker {
    match step
    case Fetch(limit) =>
      if w.task.Idle? && w.cursor < |log| && limit > 0
      then w.(task := Handling(w.cursor, Min(w.cursor + limit, |log|), 0, 0)) else w
    case Statement(found, day) =>
      if Running(w, log) && w.task.k < Length(HandlersFor(log[w.task.at].kind)[w.task.h]) then
        var h := HandlersFor(log[w.task.at].kind)[w.task.h];
        w.(notes := InsertNotes(w.notes, Rows(h, w.task.k, w.task.at, log[w.task.at], found, day)),
           ran := w.ran + {Ran(w.task.at, h, w.task.k, found, day)},
           task := Handling(w.task.at, w.task.end, w.task.h, w.task.k + 1))
      else if w.task.Retrying? && w.task.row < |w.dlq| && w.task.k < Length(w.task.handler) then
        var row := w.dlq[w.task.row];
        w.(notes := InsertNotes(w.notes, Rows(w.task.handler, w.task.k, row.event, row.copy, found, day)),
           ran := w.ran + {Ran(row.event, w.task.handler, w.task.k, found, day)},
           task := Retrying(w.task.row, w.task.handler, w.task.k + 1))
      else w
    case Raise =>
      if Running(w, log) then w.(task := Raised(w.task.at, w.task.end, w.task.h))
      else if w.task.Retrying? || w.task.Retried? then w.(task := RetryRaised(w.task.row))
      else w
    case Return =>
      if Running(w, log) && w.task.k == Length(HandlersFor(log[w.task.at].kind)[w.task.h]) then
        w.(done := w.done + {(w.task.at, HandlersFor(log[w.task.at].kind)[w.task.h])},
           task := Handling(w.task.at, w.task.end, w.task.h + 1, 0))
      else if w.task.Retrying? && w.task.row < |w.dlq| && w.task.k == Length(w.task.handler) then
        w.(done := w.done + {(w.dlq[w.task.row].event, w.task.handler)}, task := Retried(w.task.row))
      else w
    case Park(now) =>
      if w.task.Raised? && w.task.at < |log| && w.task.h < |HandlersFor(log[w.task.at].kind)| then
        w.(dlq := w.dlq + [Parked(w.task.at, HandlersFor(log[w.task.at].kind)[w.task.h], log[w.task.at], 1, now + 30,
                                  false)],
           task := Handling(w.task.at, w.task.end, w.task.h + 1, 0))
      else w
    case Advance =>
      if w.task.Handling? && w.task.at < |log| && w.task.h == |HandlersFor(log[w.task.at].kind)| then
        w.(cursor := w.task.at + 1,
           task := if w.task.at + 1 < w.task.end then Handling(w.task.at + 1, w.task.end, 0, 0) else Idle)
      else w
    case PickRow(row, now) =>
      if w.task.Idle? && row < |w.dlq| && !w.dlq[row].resolved && w.dlq[row].attempts < MAX_ATTEMPTS
          && w.dlq[row].retryAt <= now then
        match ByName(Name(w.dlq[row].handler), REGISTERED)
        case None => w.(dlq := w.dlq[row := w.dlq[row].(resolved := true)])
        case Some(h) => w.(task := Retrying(row, h, 0))
      else w
    case Resolve =>
      if w.task.Retried? && w.task.row < |w.dlq|
      then w.(dlq := w.dlq[w.task.row := w.dlq[w.task.row].(resolved := true)], task := Idle) else w
    case Postpone(now) =>
      if w.task.RetryRaised? && w.task.row < |w.dlq| then
        var row := w.dlq[w.task.row];
        w.(dlq := w.dlq[w.task.row := row.(attempts := row.attempts + 1, retryAt := now + Backoff(row.attempts))],
           task := Idle)
      else w
    case Crash => w.(task := Idle)
  }

  function Works(w: Worker, log: seq<Event>, steps: seq<WorkStep>): Worker {
    if steps == [] then w else
      Work(Works(w, log, steps[..|steps| - 1]), log, steps[|steps| - 1])
  }
}
