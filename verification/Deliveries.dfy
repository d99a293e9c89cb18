/** Who has been told what once the worker is through with an event. Each law names the
    notifications themselves, by the columns of notifications_dedup_idx. */
module Deliveries {
  import opened Schema
  import FeeProtocol
  import FeeInvariants
  import Outbox
  import opened OutboxInvariants
  import opened EndToEnd

  // ---- Statements that have run ----

  predicate StatementRan(ran: set<Outbox.Ran>, at: nat, h: Outbox.Handler, k: nat) {
    exists r :: r in ran && r.event == at && r.handler == h && r.k == k
  }

  predicate AllRan(ran: set<Outbox.Ran>, at: nat, h: Outbox.Handler, n: nat) {
    forall k :: 0 <= k < n ==> StatementRan(ran, at, h, k)
  }

  /** Whatever rows a statement offered are there. */
  predicate RanOk(r: Outbox.Ran, notes: seq<Outbox.Note>, log: seq<Event>) {
    && r.event < |log|
    && forall note :: note in Outbox.Rows(r.handler, r.k, r.event, log[r.event], r.found, r.day) ==>
         Outbox.HasKey(notes, note.key)
  }

  predicate TaskRan(w: Outbox.Worker, log: seq<Event>) {
    match w.task
    case Handling(at, _, h, k) =>
      at < |log| && h < |Outbox.HandlersFor(log[at].kind)| ==> AllRan(w.ran, at, Outbox.HandlersFor(log[at].kind)[h], k)
    case Retrying(row, handler, k) => row < |w.dlq| ==> AllRan(w.ran, w.dlq[row].event, handler, k)
    case _ => true
  }

  /** A handler that has run to its end has run each of its statements. */
  predicate Traced(w: Outbox.Worker, log: seq<Event>) {
    && (forall r :: r in w.ran ==> RanOk(r, w.notes, log))
    && (forall d :: d in w.done ==> AllRan(w.ran, d.0, d.1, Outbox.Length(d.1)))
    && TaskRan(w, log)
  }

  lemma StatementKeepsTrace(notes: seq<Outbox.Note>, ran: set<Outbox.Ran>, log: seq<Event>, r: Outbox.Ran)
    requires r.event < |log| && forall x :: x in ran ==> RanOk(x, notes, log)
    ensures var after := Outbox.InsertNotes(notes, Outbox.Rows(r.handler, r.k, r.event, log[r.event], r.found, r.day));
            forall x :: x in ran + {r} ==> RanOk(x, after, log)
  {
    var rows := Outbox.Rows(r.handler, r.k, r.event, log[r.event], r.found, r.day);
    var after := Outbox.InsertNotes(notes, rows);
    InsertNotesFacts(notes, rows);
    forall x | x in ran ensures RanOk(x, after, log) {
      forall note | note in Outbox.Rows(x.handler, x.k, x.event, log[x.event], x.found, x.day)
        ensures Outbox.HasKey(after, note.key)
      {
        HasKeyGrows(notes, after, note.key);
      }
    }
  }

  lemma RanGrows(ran: set<Outbox.Ran>, r: Outbox.Ran, at: nat, h: Outbox.Handler, n: nat)
    requires AllRan(ran, at, h, n)
    ensures AllRan(ran + {r}, at, h, n)
    ensures r.event == at && r.handler == h && r.k == n ==> AllRan(ran + {r}, at, h, n + 1)
  {
    forall k | 0 <= k < n ensures StatementRan(ran + {r}, at, h, k) {
      assert StatementRan(ran, at, h, k);
      var x :| x in ran && x.event == at && x.handler == h && x.k == k;
      assert x in ran + {r};
    }
    assert r in ran + {r};
  }

  lemma DoneGrows(ran: set<Outbox.Ran>, done: set<(nat, Outbox.Handler)>, r: Outbox.Ran)
    requires forall d :: d in done ==> AllRan(ran, d.0, d.1, Outbox.Length(d.1))
    ensures forall d :: d in done ==> AllRan(ran + {r}, d.0, d.1, Outbox.Length(d.1))
  {
    forall d | d in done ensures AllRan(ran + {r}, d.0, d.1, Outbox.Length(d.1)) {
      RanGrows(ran, r, d.0, d.1, Outbox.Length(d.1));
    }
  }

  /** The statement a worker is about to run. */
  predicate Doing(w: Outbox.Worker, log: seq<Event>, at: nat, h: Outbox.Handler, k: nat) {
    || (Outbox.Running(w, log) && w.task.at == at && Outbox.HandlersFor(log[at].kind)[w.task.h] == h && w.task.k == k)
    || (w.task.Retrying? && w.task.row < |w.dlq| && w.dlq[w.task.row].event == at
        && w.task.handler == h && w.task.k == k)
  }

  lemma RunStatement(w: Outbox.Worker, log: seq<Event>, found: seq<nat>, day: int)
    requires WorkInv(w, log) && Traced(w, log)
    ensures Traced(Outbox.Work(w, log, Outbox.Statement(found, day)), log)
  {
    if Outbox.Running(w, log) && w.task.k < Outbox.Length(Outbox.HandlersFor(log[w.task.at].kind)[w.task.h]) {
      var r := Outbox.Ran(w.task.at, Outbox.HandlersFor(log[w.task.at].kind)[w.task.h], w.task.k, found, day);
      StatementKeepsTrace(w.notes, w.ran, log, r);
      DoneGrows(w.ran, w.done, r);
      RanGrows(w.ran, r, r.event, r.handler, r.k);
    } else if w.task.Retrying? && w.task.row < |w.dlq| && w.task.k < Outbox.Length(w.task.handler) {
      assert RowOk(w.dlq[w.task.row], w.done, log);
      var r := Outbox.Ran(w.dlq[w.task.row].event, w.task.handler, w.task.k, found, day);
      StatementKeepsTrace(w.notes, w.ran, log, r);
      DoneGrows(w.ran, w.done, r);
      RanGrows(w.ran, r, r.event, r.handler, r.k);
    }
  }

  lemma WorkKeepsTrace(w: Outbox.Worker, log: seq<Event>, step: Outbox.WorkStep)
    requires WorkInv(w, log) && Traced(w, log)
    ensures Traced(Outbox.Work(w, log, step), log)
  {
    match step
    case Statement(found, day) => RunStatement(w, log, found, day);
    case _ =>
  }

  lemma LogGrowsTrace(w: Outbox.Worker, log: seq<Event>, more: seq<Event>)
    requires WorkInv(w, log) && Traced(w, log) && log <= more
    ensures Traced(w, more)
  {
    forall r | r in w.ran ensures RanOk(r, w.notes, more) { assert RanOk(r, w.notes, log); }
  }

  lemma {:induction false} LiveTraced(actions: seq<Action>)
    ensures Traced(Live(actions).worker, Live(actions).fees.log)
  {
    if actions == [] {
    } else {
      var n := |actions| - 1;
      var s := Live(actions[..n]);
      LiveSound(actions[..n]);
      LiveTraced(actions[..n]);
      match actions[n]
      case Serve(step) =>
        StepLog(s.fees, step);
        LogGrowsTrace(s.worker, s.fees.log, FeeProtocol.Apply(s.fees, true, step).log);
      case Process(work) => WorkKeepsTrace(s.worker, s.fees.log, work);
    }
  }

  // ---- Delivery ----

  /** Action `j` runs statement `k` of handler `h` for event `at`; its SELECT finds `found`. */
  predicate ExecutedAt(actions: seq<Action>, j: nat, at: nat, h: Outbox.Handler, k: nat, found: seq<nat>, day: int) {
    && j < |actions| && actions[j] == Process(Outbox.Statement(found, day))
    && Doing(Live(actions[..j]).worker, Live(actions[..j]).fees.log, at, h, k)
  }

  predicate Executed(actions: seq<Action>, at: nat, h: Outbox.Handler, k: nat, found: seq<nat>, day: int) {
    exists j :: 0 <= j < |actions| && ExecutedAt(actions, j, at, h, k, found, day)
  }

  lemma {:induction false} RanWasExecuted(actions: seq<Action>, r: Outbox.Ran)
    requires r in Live(actions).worker.ran
    ensures Executed(actions, r.event, r.handler, r.k, r.found, r.day)
  {
    if actions == [] {
    } else {
      var n := |actions| - 1;
      if r in Live(actions[..n]).worker.ran {
        RanWasExecuted(actions[..n], r);
        var j :| 0 <= j < n && ExecutedAt(actions[..n], j, r.event, r.handler, r.k, r.found, r.day);
        assert actions[..n][..j] == actions[..j];
        assert ExecutedAt(actions, j, r.event, r.handler, r.k, r.found, r.day);
      } else {
        assert ExecutedAt(actions, n, r.event, r.handler, r.k, r.found, r.day);
      }
    }
  }

  predicate ToldOnce(s: School, key: Outbox.Key) { Outbox.CountKey(s.worker.notes, key) == 1 }

  /** Once the worker is through with an event, each statement of each of its handlers has
      run, and every row it offered is there once. */
  lemma StatementDelivered(actions: seq<Action>, at: nat, h: Outbox.Handler, k: nat) returns (found: seq<nat>, day: int)
    requires at < |Live(actions).fees.log| && EndToEnd.Settled(Live(actions).worker, at)
    requires h in Outbox.HandlersFor(Live(actions).fees.log[at].kind) && k < Outbox.Length(h)
    ensures Executed(actions, at, h, k, found, day)
    ensures forall note :: note in Outbox.Rows(h, k, at, Live(actions).fees.log[at], found, day) ==>
              ToldOnce(Live(actions), note.key)
  {
    LiveSound(actions);
    LiveTraced(actions);
    var w, log := Live(actions).worker, Live(actions).fees.log;
    SettledMeansDone(w, log, at, h);
    var r := SomeRan(w, log, at, h, k);
    found, day := r.found, r.day;
    RanWasExecuted(actions, r);
    forall note | note in Outbox.Rows(h, k, at, log[at], found, day) ensures ToldOnce(Live(actions), note.key) {
      CountIsOne(w.notes, note.key);
    }
  }

  lemma SomeRan(w: Outbox.Worker, log: seq<Event>, at: nat, h: Outbox.Handler, k: nat) returns (r: Outbox.Ran)
    requires Traced(w, log) && (at, h) in w.done && k < Outbox.Length(h)
    ensures r in w.ran && r.event == at && r.handler == h && r.k == k && RanOk(r, w.notes, log)
  {
    assert AllRan(w.ran, at, h, Outbox.Length(h));
    assert StatementRan(w.ran, at, h, k);
    r :| r in w.ran && r.event == at && r.handler == h && r.k == k;
  }

  // ---- Event type by event type ----

  /** The worker is through with event `at`. */
  predicate Through(actions: seq<Action>, at: nat) {
    at < |Live(actions).fees.log| && EndToEnd.Settled(Live(actions).worker, at)
  }

  function EventAt(actions: seq<Action>, at: nat): Event
    requires at < |Live(actions).fees.log|
  {
    Live(actions).fees.log[at]
  }

  /** Each user found has exactly one notice of this type and reference. */
  predicate UsersTold(actions: seq<Action>, e: Event, found: seq<nat>, noteType: Outbox.NoteType, ref: Outbox.Ref) {
    forall u :: u in found ==> ToldOnce(Live(actions), Outbox.Key(e.tenant, Outbox.User(u), noteType, ref))
  }

  /** The parent of each student found has. */
  predicate ParentsTold(actions: seq<Action>, e: Event, found: seq<nat>, noteType: Outbox.NoteType, ref: Outbox.Ref) {
    forall u :: u in found ==> ToldOnce(Live(actions), Outbox.Key(e.tenant, Outbox.ParentOf(u), noteType, ref))
  }

  lemma UsersFound(actions: seq<Action>, e: Event, found: seq<nat>, noteType: Outbox.NoteType, ref: Outbox.Ref,
                   title: string)
    requires forall note :: note in Outbox.ToUsers(e, found, noteType, ref, title) ==>
               ToldOnce(Live(actions), note.key)
    ensures UsersTold(actions, e, found, noteType, ref)
  {
    forall u | u in found ensures ToldOnce(Live(actions), Outbox.Key(e.tenant, Outbox.User(u), noteType, ref)) {
      var i :| 0 <= i < |found| && found[i] == u;
      assert Outbox.ToUsers(e, found, noteType, ref, title)[i].key
          == Outbox.Key(e.tenant, Outbox.User(u), noteType, ref);
    }
  }

  lemma ParentsFound(actions: seq<Action>, e: Event, found: seq<nat>, noteType: Outbox.NoteType, ref: Outbox.Ref,
                     title: string)
    requires forall note :: note in Outbox.ToParents(e, found, noteType, ref, title) ==>
               ToldOnce(Live(actions), note.key)
    ensures ParentsTold(actions, e, found, noteType, ref)
  {
    forall u | u in found ensures ToldOnce(Live(actions), Outbox.Key(e.tenant, Outbox.ParentOf(u), noteType, ref)) {
      var i :| 0 <= i < |found| && found[i] == u;
      assert Outbox.ToParents(e, found, noteType, ref, title)[i].key
          == Outbox.Key(e.tenant, Outbox.ParentOf(u), noteType, ref);
    }
  }

  /** A claim: each accountant the handler found has one notice to verify the payment. */
  lemma ClaimNotices(actions: seq<Action>, at: nat) returns (found: seq<nat>, day: int)
    requires Through(actions, at) && EventAt(actions, at).kind.PaymentClaimed?
    ensures Executed(actions, at, Outbox.NotifyClaimed, 0, found, day)
    ensures var e := EventAt(actions, at); UsersTold(actions, e, found, Outbox.FeeVerify, Outbox.Subject(e.subject))
  {
    var e := EventAt(actions, at);
    found, day := StatementDelivered(actions, at, Outbox.NotifyClaimed, 0);
    UsersFound(actions, e, found, Outbox.FeeVerify, Outbox.Subject(e.subject), "Payment to verify");
  }

  /** A paid payment: each accountant found has one note to reconcile it. */
  lemma ReconciliationNotices(actions: seq<Action>, at: nat) returns (found: seq<nat>, day: int)
    requires Through(actions, at) && EventAt(actions, at).kind.FeePaid?
    ensures Executed(actions, at, Outbox.ReceiptPush, 1, found, day)
    ensures var e := EventAt(actions, at); UsersTold(actions, e, found, Outbox.FeeReconcile, Outbox.Subject(e.subject))
  {
    var e := EventAt(actions, at);
    found, day := StatementDelivered(actions, at, Outbox.ReceiptPush, 1);
    UsersFound(actions, e, found, Outbox.FeeReconcile, Outbox.Subject(e.subject), "Payment to reconcile");
  }

  /** Marks submitted, corrected or overridden: the parent of each absentee found is told once. */
  lemma AbsenceNotices(actions: seq<Action>, at: nat) returns (found: seq<nat>, day: int)
    requires Through(actions, at)
    requires EventAt(actions, at).kind in {AttendanceSubmitted, AttendanceCorrected, AttendanceOverride}
    ensures Executed(actions, at, Outbox.AbsentAlert, 0, found, day)
    ensures var e := EventAt(actions, at); ParentsTold(actions, e, found, Outbox.Absent, Outbox.Subject(e.subject))
  {
    var e := EventAt(actions, at);
    found, day := StatementDelivered(actions, at, Outbox.AbsentAlert, 0);
    ParentsFound(actions, e, found, Outbox.Absent, Outbox.Subject(e.subject), "Absent today");
  }

  /** A classroom post: the parent of each student found is told once. */
  lemma HomeworkNotices(actions: seq<Action>, at: nat) returns (found: seq<nat>, day: int)
    requires Through(actions, at) && EventAt(actions, at).kind.HomeworkAssigned?
    ensures Executed(actions, at, Outbox.ParentPing, 0, found, day)
    ensures var e := EventAt(actions, at); ParentsTold(actions, e, found, Outbox.Homework, Outbox.Subject(e.subject))
  {
    var e := EventAt(actions, at);
    found, day := StatementDelivered(actions, at, Outbox.ParentPing, 0);
    ParentsFound(actions, e, found, Outbox.Homework, Outbox.Subject(e.subject), "New classroom post");
  }

  /** Results published: the parent of each student found is told once. */
  lemma ResultsNotices(actions: seq<Action>, at: nat) returns (found: seq<nat>, day: int)
    requires Through(actions, at) && EventAt(actions, at).kind.ExamPublished?
    ensures Executed(actions, at, Outbox.PublishNotify, 0, found, day)
    ensures var e := EventAt(actions, at); ParentsTold(actions, e, found, Outbox.Results, Outbox.Subject(e.subject))
  {
    var e := EventAt(actions, at);
    found, day := StatementDelivered(actions, at, Outbox.PublishNotify, 0);
    ParentsFound(actions, e, found, Outbox.Results, Outbox.Subject(e.subject), "Exam results published");
  }

  /** A stale admission: each principal or vice principal found is told once. */
  lemma AgingNotices(actions: seq<Action>, at: nat) returns (found: seq<nat>, day: int)
    requires Through(actions, at) && EventAt(actions, at).kind.AdmissionStale?
    ensures Executed(actions, at, Outbox.NotifyStale, 0, found, day)
    ensures var e := EventAt(actions, at); UsersTold(actions, e, found, Outbox.Aging, Outbox.Subject(e.subject))
  {
    var e := EventAt(actions, at);
    found, day := StatementDelivered(actions, at, Outbox.NotifyStale, 0);
    UsersFound(actions, e, found, Outbox.Aging, Outbox.Subject(e.subject), "Admission needs attention");
  }

  /** A stale claim: each accountant found is told once that day. */
  lemma EscalationNotices(actions: seq<Action>, at: nat) returns (found: seq<nat>, day: int)
    requires Through(actions, at) && EventAt(actions, at).kind.ClaimEscalated?
    ensures Executed(actions, at, Outbox.NotifyEscalated, 0, found, day)
    ensures var e := EventAt(actions, at);
            UsersTold(actions, e, found, Outbox.FeeVerify, Outbox.Escalation(e.subject, day))
  {
    var e := EventAt(actions, at);
    found, day := StatementDelivered(actions, at, Outbox.NotifyEscalated, 0);
    UsersFound(actions, e, found, Outbox.FeeVerify, Outbox.Escalation(e.subject, day),
               "URGENT: Payment awaiting verification");
  }

  /** And so is each principal or vice principal found, if the claim is old enough for any. */
  lemma PrincipalNotices(actions: seq<Action>, at: nat) returns (found: seq<nat>, day: int)
    requires Through(actions, at) && EventAt(actions, at).kind.ClaimEscalated?
    ensures Executed(actions, at, Outbox.NotifyEscalated, 1, found, day)
    ensures var e := EventAt(actions, at);
            UsersTold(actions, e, found, Outbox.FeeVerify, Outbox.PrincipalEscalation(e.subject, day))
  {
    var e := EventAt(actions, at);
    found, day := StatementDelivered(actions, at, Outbox.NotifyEscalated, 1);
    UsersFound(actions, e, found, Outbox.FeeVerify, Outbox.PrincipalEscalation(e.subject, day),
               "ESCALATED: Unverified payment");
  }

  /** A reminder sent: the student's parent has one for this very event, if the student is
      found. */
  lemma ReminderNotices(actions: seq<Action>, at: nat) returns (found: seq<nat>, day: int)
    requires Through(actions, at) && EventAt(actions, at).kind.ReminderSent?
    ensures Executed(actions, at, Outbox.ManualReminder, 0, found, day)
    ensures var e := EventAt(actions, at);
            var key := Outbox.Key(e.tenant, Outbox.ParentOf(e.student), Outbox.FeeOverdue, Outbox.Reminder(at));
            found != [] ==> ToldOnce(Live(actions), key)
  {
    var e := EventAt(actions, at);
    found, day := StatementDelivered(actions, at, Outbox.ManualReminder, 0);
    var rows := Outbox.ToParent(e, Outbox.FeeOverdue, Outbox.Reminder(at), "Fee payment reminder");
    if found != [] { assert rows[0] in rows; }
  }
}
