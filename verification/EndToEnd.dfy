/** The fee protocol and the worker running side by side over one event log. Events are
    taken to become visible in id order, which `WHERE id > cursor` relies on. */
module EndToEnd {
  import opened Schema
  import opened Statements
  import FeeProtocol
  import FeeInvariants
  import Outbox
  import opened OutboxInvariants

  datatype School = School(fees: FeeProtocol.Fees, worker: Outbox.Worker)

  datatype Action = Serve(step: FeeProtocol.Step) | Process(work: Outbox.WorkStep)

  function Act(s: School, a: Action): School {
    match a
    case Serve(step) => s.(fees := FeeProtocol.Apply(s.fees, true, step))
    case Process(work) => s.(worker := Outbox.Work(s.worker, s.fees.log, work))
  }

  function Live(actions: seq<Action>): School {
    if actions == [] then School(FeeProtocol.EMPTY, Outbox.FRESH) else
      Act(Live(actions[..|actions| - 1]), actions[|actions| - 1])
  }

  ghost predicate Sound(s: School) { FeeInvariants.Inv(s.fees) && WorkInv(s.worker, s.fees.log) }

  // ---- The log only grows ----

  lemma {:induction false} SweepLog(s: FeeProtocol.Fees, expired: seq<PaymentId>)
    ensures s.log <= FeeProtocol.Sweep(s, expired).log
  {
    if expired == [] {
    } else {
      SweepLog(s, expired[..|expired| - 1]);
    }
  }

  lemma CollectLog(s: FeeProtocol.Fees, tenant: TenantId, student: StudentId, ids: seq<LedgerId>, how: string)
    ensures s.log <= FeeProtocol.Collect(s, true, tenant, student, ids, how).0.log
  {
  }

  lemma StepLog(s: FeeProtocol.Fees, step: FeeProtocol.Step)
    ensures s.log <= FeeProtocol.Apply(s, true, step).log
  {
    match step
    case SCollect(tenant, student, ids, how) => CollectLog(s, tenant, student, ids, how);
    case SSweep(expired) => SweepLog(s, expired);
    case _ =>
  }

  lemma {:induction false} LiveSound(actions: seq<Action>)
    ensures Sound(Live(actions))
  {
    if actions == [] {
      FeeInvariants.Initially();
    } else {
      var n := |actions| - 1;
      LiveSound(actions[..n]);
      var s := Live(actions[..n]);
      match actions[n]
      case Serve(step) =>
        FeeInvariants.StepKeepsInv(s.fees, step);
        StepLog(s.fees, step);
        LogGrows(s.worker, s.fees.log, FeeProtocol.Apply(s.fees, true, step).log);
      case Process(work) =>
        WorkKeepsInv(s.worker, s.fees.log, work);
    }
  }

  /** In every reachable state each event the cursor has passed has, for each of its
      handlers, been handled to the end or left a dead-letter row; a row says so truthfully
      when it is resolved, and its attempts stay between 1 and 5. */
  lemma EveryEventAccountedFor(actions: seq<Action>)
    ensures var s := Live(actions);
            && s.worker.cursor <= |s.fees.log|
            && (forall at, h :: 0 <= at < s.worker.cursor && h in Outbox.HandlersFor(s.fees.log[at].kind) ==>
                  Handled(s.worker.dlq, s.worker.done, at, h))
            && (forall r :: 0 <= r < |s.worker.dlq| ==>
                  && 1 <= s.worker.dlq[r].attempts <= 5
                  && (s.worker.dlq[r].resolved ==> (s.worker.dlq[r].event, s.worker.dlq[r].handler) in s.worker.done))
  {
    LiveSound(actions);
    var s := Live(actions);
    assert forall r :: 0 <= r < |s.worker.dlq| ==> RowOk(s.worker.dlq[r], s.worker.done, s.fees.log);
  }

  /** The cursor never goes back. */
  lemma CursorMonotone(actions: seq<Action>, a: Action)
    ensures Live(actions).worker.cursor <= Act(Live(actions), a).worker.cursor
  {
    LiveSound(actions);
    match a
    case Serve(_) =>
    case Process(work) => WorkKeepsInv(Live(actions).worker, Live(actions).fees.log, work);
  }

  // ---- Exactly-once receipts ----

  function ReceiptKey(s: School, p: PaymentId): Outbox.Key
    requires p < |s.fees.payments|
  {
    var pay := s.fees.payments[p];
    Outbox.Key(pay.tenant, Outbox.ParentOf(pay.student), Outbox.FeeReceipt, Outbox.Subject(p))
  }

  function RejectionKey(s: School, p: PaymentId): Outbox.Key
    requires p < |s.fees.payments|
  {
    ReceiptKey(s, p).(noteType := Outbox.FeeRejected)
  }

  predicate PaidEvent(e: Event, p: PaymentId) { e.kind.FeePaid? && e.subject == p }

  /** The worker is past event `at` and no unresolved dead-letter row is left for it. */
  predicate Settled(w: Outbox.Worker, at: nat) {
    at < w.cursor && forall r :: 0 <= r < |w.dlq| && w.dlq[r].event == at ==> w.dlq[r].resolved
  }

  /** Past an event, with its dead letters resolved, every handler of it has run. */
  lemma SettledMeansDone(w: Outbox.Worker, log: seq<Event>, at: nat, h: Outbox.Handler)
    requires WorkInv(w, log) && Settled(w, at) && at < |log| && h in Outbox.HandlersFor(log[at].kind)
    ensures (at, h) in w.done && Delivered(w.notes, h, log[at], 1)
  {
  }

  /** A paid payment has exactly one FEE_PAID event, no other payment has any, and the
      event names the payment's tenant, student, amount and receipt number. */
  lemma OnePaidEvent(actions: seq<Action>, p: PaymentId)
    requires p < |Live(actions).fees.payments|
    ensures var fees := Live(actions).fees;
            && CountEvents(fees.log, FeePaid, p) == (if fees.payments[p].status.Paid? then 1 else 0)
            && forall e :: e in fees.log && e.kind.FeePaid? && e.subject == p ==>
                 e.tenant == fees.payments[p].tenant && e.student == fees.payments[p].student
                 && e.amount == fees.payments[p].amount && fees.payments[p].receipt == Some(e.receipt)
  {
    LiveSound(actions);
    assert CountEvents(Live(actions).fees.log, FeePaid, p)
        == FeeInvariants.Expected(Live(actions).fees.payments[p], FeePaid);
  }

  /** End to end, whatever crashes, replays and retries happened: a payment never has two
      FEE_RECEIPT notifications, it has none unless it is paid, and once the worker is past
      its FEE_PAID event with no unresolved dead letter, it has exactly one. */
  lemma ReceiptExactlyOnce(actions: seq<Action>, p: PaymentId)
    requires p < |Live(actions).fees.payments|
    ensures var s := Live(actions);
            var count := Outbox.CountKey(s.worker.notes, ReceiptKey(s, p));
            && count <= 1
            && (count == 1 ==> s.fees.payments[p].status.Paid?)
            && (forall at :: 0 <= at < |s.fees.log| && PaidEvent(s.fees.log[at], p) && Settled(s.worker, at) ==>
                  count == 1)
  {
    LiveSound(actions);
    var s := Live(actions);
    var key := ReceiptKey(s, p);
    CountIsOne(s.worker.notes, key);
    if Outbox.HasKey(s.worker.notes, key) {
      var note :| note in s.worker.notes && note.key == key;
      ReceiptMeansPaid(s, note, p);
    }
    forall at | 0 <= at < |s.fees.log| && PaidEvent(s.fees.log[at], p) && Settled(s.worker, at)
      ensures Outbox.HasKey(s.worker.notes, key)
    {
      PaidEventDelivered(s, p, at);
    }
  }

  lemma PaidEventDelivered(s: School, p: PaymentId, at: nat)
    requires Sound(s) && p < |s.fees.payments| && at < |s.fees.log| && Settled(s.worker, at)
    requires PaidEvent(s.fees.log[at], p)
    ensures Outbox.HasKey(s.worker.notes, ReceiptKey(s, p))
  {
    var e := s.fees.log[at];
    assert Outbox.HandlersFor(e.kind) == [Outbox.ReceiptPush];
    SettledMeansDone(s.worker, s.fees.log, at, Outbox.ReceiptPush);
    assert e in s.fees.log && FeeInvariants.NoteOk(s.fees.payments, e);
  }

  lemma EventMeansStatus(s: School, p: PaymentId, at: nat)
    requires Sound(s) && p < |s.fees.payments| && at < |s.fees.log| && s.fees.log[at].subject == p
    ensures s.fees.log[at].kind.FeePaid? ==> s.fees.payments[p].status.Paid?
    ensures s.fees.log[at].kind.PaymentRejected? ==> s.fees.payments[p].status.Rejected?
    ensures s.fees.log[at].kind.PaymentTimeout? ==> s.fees.payments[p].status.Failed?
  {
    var kind := s.fees.log[at].kind;
    if kind.PaymentEvent() {
      CountEventsPositive(s.fees.log, kind, p);
      assert CountEvents(s.fees.log, kind, p) == FeeInvariants.Expected(s.fees.payments[p], kind);
    }
  }

  lemma ReceiptMeansPaid(s: School, note: Outbox.Note, p: PaymentId)
    requires Sound(s) && p < |s.fees.payments| && note in s.worker.notes && note.key == ReceiptKey(s, p)
    ensures s.fees.payments[p].status.Paid?
  {
    assert Caused(note, s.fees.log);
    var at :| 0 <= at < |s.fees.log| && CausedAt(note, s.fees.log[at]);
    WhatANoteReports(note, s.fees.log[at]);
    EventMeansStatus(s, p, at);
  }

  /** The two titles the handlers that share the FEE_REJECTED key can give. */
  predicate TitleFits(title: string, status: PaymentStatus) {
    (status.Rejected? && title == "Payment not verified") || (status.Failed? && title == "Payment did not complete")
  }

  lemma RejectionMeansStatus(s: School, note: Outbox.Note, p: PaymentId)
    requires Sound(s) && p < |s.fees.payments| && note in s.worker.notes && note.key == RejectionKey(s, p)
    ensures TitleFits(note.title, s.fees.payments[p].status)
  {
    assert Caused(note, s.fees.log);
    var at :| 0 <= at < |s.fees.log| && CausedAt(note, s.fees.log[at]);
    WhatANoteReports(note, s.fees.log[at]);
    EventMeansStatus(s, p, at);
  }

  /** A payment's FEE_REJECTED notification is unique and says what happened to it: the two
      handlers that share the key never meet, as no payment is both rejected and timed out. */
  lemma RejectionNoticeTruthful(actions: seq<Action>, p: PaymentId, note: Outbox.Note)
    requires p < |Live(actions).fees.payments|
    requires note in Live(actions).worker.notes && note.key == RejectionKey(Live(actions), p)
    ensures TitleFits(note.title, Live(actions).fees.payments[p].status)
    ensures Outbox.CountKey(Live(actions).worker.notes, note.key) == 1
  {
    LiveSound(actions);
    RejectionMeansStatus(Live(actions), note, p);
    CountIsOne(Live(actions).worker.notes, note.key);
  }

  lemma RejectionEventDelivered(s: School, p: PaymentId, at: nat)
    requires Sound(s) && p < |s.fees.payments| && at < |s.fees.log| && Settled(s.worker, at)
    requires s.fees.log[at].subject == p
    requires s.fees.log[at].kind.PaymentRejected? || s.fees.log[at].kind.PaymentTimeout?
    ensures Outbox.HasKey(s.worker.notes, RejectionKey(s, p))
  {
    var e := s.fees.log[at];
    var h := if e.kind.PaymentRejected? then Outbox.NotifyRejected else Outbox.NotifyTimeout;
    assert Outbox.HandlersFor(e.kind) == [h];
    SettledMeansDone(s.worker, s.fees.log, at, h);
    assert e in s.fees.log && FeeInvariants.NoteOk(s.fees.payments, e);
  }

  /** Once the worker has settled a rejection or a timeout, the parent has been told. */
  lemma RejectionDelivered(actions: seq<Action>, p: PaymentId, at: nat)
    requires p < |Live(actions).fees.payments| && at < |Live(actions).fees.log| && Settled(Live(actions).worker, at)
    requires Live(actions).fees.log[at].subject == p
    requires Live(actions).fees.log[at].kind.PaymentRejected? || Live(actions).fees.log[at].kind.PaymentTimeout?
    ensures Outbox.CountKey(Live(actions).worker.notes, RejectionKey(Live(actions), p)) == 1
  {
    LiveSound(actions);
    RejectionEventDelivered(Live(actions), p, at);
    CountIsOne(Live(actions).worker.notes, RejectionKey(Live(actions), p));
  }
}
