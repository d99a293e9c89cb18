/** The tables of the fee protocol, and the event log, as values.

    Row identifiers are UUIDs in the database. Ledger rows and payments are never
    deleted by the protocol, so a row's identifier is its position in its table. */
module Schema {
  datatype Option<+T> = None | Some(value: T)

  type TenantId = nat
  type StudentId = nat
  type HeadId = nat
  type YearId = nat
  type LedgerId = nat
  type PaymentId = nat
  /** NUMERIC(10,2) rupees, counted in paise. */
  type Paise = nat

  datatype LedgerStatus = Pending | Due | Overdue | Settled | Waived
  {
    predicate Payable() { Pending? || Due? || Overdue? }
  }

  /** `Settled` is the stored value 'paid'; `payment` is the payment_id column. */
  datatype LedgerRow = LedgerRow(
    tenant: TenantId, student: StudentId, head: HeadId, year: YearId,
    month: Option<nat>, periodYear: int,
    amountDue: Paise, dueDate: Option<int>,
    status: LedgerStatus, payment: Option<PaymentId>)

  datatype Gateway = Razorpay | PhonePe | Mock | Upi | Offline
  {
    predicate Online() { Razorpay? || PhonePe? || Mock? }
  }

  /** `Initiated` is the stored value 'pending'. */
  datatype PaymentStatus =
    Initiated | Processing | PendingVerification | Paid | Failed | Rejected | Refunded

  /** `receipt` is the sequence number inside receipt_number. */
  datatype Payment = Payment(
    tenant: TenantId, student: StudentId, gateway: Gateway, amount: Paise,
    status: PaymentStatus, orderId: Option<nat>, gatewayPaymentId: Option<nat>,
    receipt: Option<nat>)

  datatype LineItem = LineItem(tenant: TenantId, payment: PaymentId, row: LedgerId, amount: Paise)

  /** A selected ledger row with the amount read from it. */
  datatype Quote = Quote(row: LedgerId, amount: Paise)

  /** The event types the worker's registry lists, plus everything it does not. */
  datatype EventType =
    | AttendanceSubmitted | AttendanceCorrected | AttendanceOverride
    | FeePaid | ReminderSent | PaymentClaimed | PaymentRejected
    | HomeworkAssigned | ExamPublished
    | ExamMarksOpened | ExamMarksLocked | ExamReopened | YearRolledOver
    | EnquiryReceived | DocumentUploaded | AdmissionStatusChanged | AdmissionApproved
    | AdmissionStale | ClaimEscalated | PaymentTimeout
    | StudentDiscountSet(discounts: seq<(HeadId, nat)>, rows: nat)
    | Unlisted(name: string)
  {
    /** The four event types that report a change of a payment's status. */
    predicate PaymentEvent() { FeePaid? || PaymentClaimed? || PaymentRejected? || PaymentTimeout? }
  }

  /** An audit_events row. `subject` is the payload's payment_id (or session, post,
      term, admission); `amount` and `receipt` are 0 when the payload has none. */
  datatype Event = Event(
    tenant: TenantId, kind: EventType, subject: nat, student: StudentId,
    amount: Paise, receipt: nat)
}
