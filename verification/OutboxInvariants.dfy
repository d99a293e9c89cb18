/** What every statement of the worker keeps: at-least-once handling, dead-letter rows
    that can be retried, and notifications that exist once and have a cause. */
module OutboxInvariants {
  import opened Schema
  import opened Outbox

  // ---- Registry ----

  lemma DistinctNames(a: Handler, b: Handler)
    ensures Name(a) == Name(b) ==> a == b
  {
  }

  lemma {:induction false} LastWithFinds(handlers: seq<Handler>, p: Handler -> bool, h: Handler)
    requires h in handlers && p(h) && forall x :: p(x) ==> x == h
    ensures LastWith(handlers, p) == Some(h)
  {
    var n := |handlers| - 1;
    if p(handlers[n]) {
    } else {
      assert handlers == handlers[..n] + [handlers[n]];
      LastWithFinds(handlers[..n], p, h);
    }
  }

  lemma AllRegistered(h: Handler)
    ensures h in REGISTERED
  {
  }

  /** Retrying a dead-letter row by name runs the handler that failed. */
  lemma RetryRunsTheHandlerThatFailed(h: Handler)
    ensures ByName(Name(h), REGISTERED) == Some(h)
  {
    AllRegistered(h);
    forall x | Name(x) == Name(h) ensures x == h { DistinctNames(x, h); }
    LastWithFinds(REGISTERED, x => Name(x) == Name(h), h);
  }

  // ---- Insert-if-absent ----

  predicate UniqueKeys(notes: seq<Note>) {
    forall i, j :: 0 <= i < j < |notes| ==> notes[i].key != notes[j].key
  }

  lemma {:induction false} InsertNotesFacts(notes: seq<Note>, rows: seq<Note>)
    ensures notes <= InsertNotes(notes, rows)
    ensures UniqueKeys(notes) ==> UniqueKeys(InsertNotes(notes, rows))
    ensures forall note :: note in InsertNotes(notes, rows) ==> note in notes || note in rows
    ensures forall row :: row in rows ==> HasKey(InsertNotes(notes, rows), row.key)
  {
    if rows == [] {
    } else {
      var n := |rows| - 1;
      InsertNotesFacts(notes, rows[..n]);
      var sofar := InsertNotes(notes, rows[..n]);
      assert rows == rows[..n] + [rows[n]];
      if !HasKey(sofar, rows[n].key) {
        assert forall i :: 0 <= i < |sofar| ==> sofar[i] in sofar;
        assert rows[n] in sofar + [rows[n]];
        forall row | row in rows[..n] ensures HasKey(sofar + [rows[n]], row.key) {
          var note :| note in sofar && note.key == row.key;
          assert note in sofar + [rows[n]];
        }
      }
    }
  }

  /** Replaying a statement that has run changes nothing. */
  lemma {:induction false} InsertNotesIdempotent(notes: seq<Note>, rows: seq<Note>)
    requires forall row :: row in rows ==> HasKey(notes, row.key)
    ensures InsertNotes(notes, rows) == notes
  {
    if rows == [] {
    } else {
      var n := |rows| - 1;
      assert rows == rows[..n] + [rows[n]];
      InsertNotesIdempotent(notes, rows[..n]);
    }
  }

  /** Offering rows again, as after a crash, adds nothing: the same rows, or any whose keys
      have been offered before. */
  lemma ReplayAddsNothing(notes: seq<Note>, rows: seq<Note>, again: seq<Note>)
    requires forall note :: note in again ==> HasKey(rows, note.key)
    ensures InsertNotes(InsertNotes(notes, rows), again) == InsertNotes(notes, rows)
  {
    InsertNotesFacts(notes, rows);
    forall note | note in again ensures HasKey(InsertNotes(notes, rows), note.key) {
      var row :| row in rows && row.key == note.key;
    }
    InsertNotesIdempotent(InsertNotes(notes, rows), again);
  }

  /** A replay whose SELECT finds other recipients adds notes for the new ones only. */
  lemma {:induction false} ReplayAddsOnlyNew(notes: seq<Note>, again: seq<Note>)
    ensures notes <= InsertNotes(notes, again)
    ensures forall i :: |notes| <= i < |InsertNotes(notes, again)| ==>
              InsertNotes(notes, again)[i] in again && !HasKey(notes, InsertNotes(notes, again)[i].key)
  {
    if again == [] {
    } else {
      var n := |again| - 1;
      ReplayAddsOnlyNew(notes, again[..n]);
      assert again == again[..n] + [again[n]];
      if !HasKey(InsertNotes(notes, again[..n]), again[n].key) && HasKey(notes, again[n].key) {
        HasKeyGrows(notes, InsertNotes(notes, again[..n]), again[n].key);
      }
    }
  }

  lemma HasKeyGrows(notes: seq<Note>, more: seq<Note>, key: Key)
    requires notes <= more && HasKey(notes, key)
    ensures HasKey(more, key)
  {
  }

  lemma {:induction false} CountIsOne(notes: seq<Note>, key: Key)
    requires UniqueKeys(notes)
    ensures CountKey(notes, key) == if HasKey(notes, key) then 1 else 0
  {
    if notes == [] {
    } else {
      var n := |notes| - 1;
      CountIsOne(notes[..n], key);
      assert forall note :: note in notes <==> note in notes[..n] || note == notes[n];
      assert forall note :: note in notes[..n] ==> note.key != notes[n].key;
    }
  }

  // ---- The invariants ----

  /** The notification a handler's first statement inserts whatever the tables hold. */
  function Promise(h: Handler, e: Event): Option<Key> {
    match h
    case ReceiptPush => Some(Key(e.tenant, ParentOf(e.student), FeeReceipt, Subject(e.subject)))
    case NotifyRejected => Some(Key(e.tenant, ParentOf(e.student), FeeRejected, Subject(e.subject)))
    case NotifyTimeout => Some(Key(e.tenant, ParentOf(e.student), FeeRejected, Subject(e.subject)))
    case _ => None
  }

  predicate Delivered(notes: seq<Note>, h: Handler, e: Event, k: nat) {
    k > 0 && Promise(h, e).Some? ==> HasKey(notes, Promise(h, e).value)
  }

  predicate InQueue(dlq: seq<Parked>, at: nat, h: Handler) {
    exists r :: 0 <= r < |dlq| && dlq[r].event == at && dlq[r].handler == h
  }

  /** A handler is accounted for: it has run to its end, or a dead-letter row says it owes. */
  predicate Handled(dlq: seq<Parked>, done: set<(nat, Handler)>, at: nat, h: Handler) {
    (at, h) in done || InQueue(dlq, at, h)
  }

  predicate AtLeastOnce(dlq: seq<Parked>, done: set<(nat, Handler)>, log: seq<Event>, cursor: nat) {
    && cursor <= |log|
    && forall at, h :: 0 <= at < cursor && h in HandlersFor(log[at].kind) ==> Handled(dlq, done, at, h)
  }

  predicate RowOk(row: Parked, done: set<(nat, Handler)>, log: seq<Event>) {
    && row.event < |log| && row.copy == log[row.event]
    && 1 <= row.attempts <= MAX_ATTEMPTS
    && row.handler in HandlersFor(row.copy.kind)
    && (row.resolved ==> (row.event, row.handler) in done)
  }

  predicate QueueOk(dlq: seq<Parked>, done: set<(nat, Handler)>, log: seq<Event>) {
    forall r :: 0 <= r < |dlq| ==> RowOk(dlq[r], done, log)
  }

  predicate DoneOk(done: set<(nat, Handler)>, notes: seq<Note>, log: seq<Event>) {
    forall d :: d in done ==> d.0 < |log| && d.1 in HandlersFor(log[d.0].kind) && Delivered(notes, d.1, log[d.0], 1)
  }

  predicate TaskOk(w: Worker, log: seq<Event>) {
    match w.task
    case Idle => true
    case Handling(at, end, h, k) =>
      && at == w.cursor < end <= |log| && h <= |HandlersFor(log[at].kind)|
      && (forall j :: 0 <= j < h ==> Handled(w.dlq, w.done, at, HandlersFor(log[at].kind)[j]))
      && (h < |HandlersFor(log[at].kind)| ==>
            k <= Length(HandlersFor(log[at].kind)[h]) && Delivered(w.notes, HandlersFor(log[at].kind)[h], log[at], k))
    case Raised(at, end, h) =>
      && at == w.cursor < end <= |log| && h < |HandlersFor(log[at].kind)|
      && (forall j :: 0 <= j < h ==> Handled(w.dlq, w.done, at, HandlersFor(log[at].kind)[j]))
    case Retrying(row, handler, k) =>
      && Due(w.dlq, row) && handler == w.dlq[row].handler
      && k <= Length(handler) && Delivered(w.notes, handler, w.dlq[row].copy, k)
    case Retried(row) => Due(w.dlq, row) && (w.dlq[row].event, w.dlq[row].handler) in w.done
    case RetryRaised(row) => Due(w.dlq, row)
  }

  predicate Due(dlq: seq<Parked>, row: nat) { row < |dlq| && !dlq[row].resolved && dlq[row].attempts < MAX_ATTEMPTS }

  /** What a fee notification says about the event it came from. */
  predicate Reports(note: Note, e: Event, h: Handler) {
    && note.key.tenant == e.tenant
    && match h
       case ReceiptPush =>
         note.key.ref == Subject(e.subject)
         && (note.key.noteType.FeeReceipt? ==> note.key.recipient == ParentOf(e.student))
         && !note.key.noteType.FeeRejected?
       case NotifyRejected =>
         note.key.ref == Subject(e.subject) && note.key.noteType.FeeRejected? && note.title == "Payment not verified"
       case NotifyTimeout =>
         note.key.ref == Subject(e.subject) && note.key.noteType.FeeRejected?
             && note.title == "Payment did not complete"
       case _ => !note.key.noteType.FeeReceipt? && !note.key.noteType.FeeRejected?
  }

  predicate Caused(note: Note, log: seq<Event>) {
    exists at :: 0 <= at < |log| && CausedAt(note, log[at])
  }

  predicate CausedAt(note: Note, e: Event) { exists h :: h in HandlersFor(e.kind) && Reports(note, e, h) }

  /** A fee receipt or a fee rejection names its payment and the kind of event behind it. */
  lemma WhatANoteReports(note: Note, e: Event)
    requires CausedAt(note, e)
    ensures note.key.noteType.FeeReceipt? ==> e.kind.FeePaid? && note.key.ref == Subject(e.subject)
    ensures note.key.noteType.FeeRejected? ==>
              && note.key.ref == Subject(e.subject)
              && ((e.kind.PaymentRejected? && note.title == "Payment not verified")
                  || (e.kind.PaymentTimeout? && note.title == "Payment did not complete"))
  {
  }

  predicate NotesOk(notes: seq<Note>, log: seq<Event>) {
    UniqueKeys(notes) && forall note :: note in notes ==> Caused(note, log)
  }

  predicate WorkInv(w: Worker, log: seq<Event>) {
    && AtLeastOnce(w.dlq, w.done, log, w.cursor) && QueueOk(w.dlq, w.done, log)
    && DoneOk(w.done, w.notes, log) && NotesOk(w.notes, log) && TaskOk(w, log)
  }

  // ---- Preservation ----

  lemma RowsReport(h: Handler, k: nat, id: nat, e: Event, found: seq<nat>, day: int)
    requires h in HandlersFor(e.kind)
    ensures forall note :: note in Rows(h, k, id, e, found, day) ==> Reports(note, e, h)
    ensures k == 0 && Promise(h, e).Some? ==>
              exists note :: note in Rows(h, k, id, e, found, day) && note.key == Promise(h, e).value
  {
    if k == 0 && Promise(h, e).Some? {
      var rows := Rows(h, k, id, e, found, day);
      assert rows[0] in rows && rows[0].key == Promise(h, e).value;
    }
  }

  /** Running one statement of a handler for an event of the log. */
  lemma StatementFacts(notes: seq<Note>, log: seq<Event>, done: set<(nat, Handler)>, h: Handler, k: nat, at: nat,
                       found: seq<nat>, day: int)
    requires NotesOk(notes, log) && DoneOk(done, notes, log)
    requires at < |log| && h in HandlersFor(log[at].kind) && Delivered(notes, h, log[at], k)
    ensures var after := InsertNotes(notes, Rows(h, k, at, log[at], found, day));
            NotesOk(after, log) && DoneOk(done, after, log) && Delivered(after, h, log[at], k + 1)
            && forall h', e, k' :: Delivered(notes, h', e, k') ==> Delivered(after, h', e, k')
  {
    var rows := Rows(h, k, at, log[at], found, day);
    var after := InsertNotes(notes, rows);
    InsertNotesFacts(notes, rows);
    RowsReport(h, k, at, log[at], found, day);
    forall h', e, k' | Delivered(notes, h', e, k') ensures Delivered(after, h', e, k') {
      if k' > 0 && Promise(h', e).Some? { HasKeyGrows(notes, after, Promise(h', e).value); }
    }
    forall note | note in after ensures Caused(note, log) {
      if note in rows { assert CausedAt(note, log[at]); }
    }
    if k > 0 { assert Delivered(after, h, log[at], k); }
  }

  lemma StatementKeeps(w: Worker, log: seq<Event>, found: seq<nat>, day: int)
    requires WorkInv(w, log)
    ensures WorkInv(Work(w, log, Statement(found, day)), log)
  {
    if Running(w, log) && w.task.k < Length(HandlersFor(log[w.task.at].kind)[w.task.h]) {
      StatementFacts(w.notes, log, w.done, HandlersFor(log[w.task.at].kind)[w.task.h], w.task.k, w.task.at, found, day);
    } else if w.task.Retrying? && w.task.k < Length(w.task.handler) {
      assert RowOk(w.dlq[w.task.row], w.done, log);
      StatementFacts(w.notes, log, w.done, w.task.handler, w.task.k, w.dlq[w.task.row].event, found, day);
    }
  }

  lemma HandlerReturns(w: Worker, log: seq<Event>)
    requires WorkInv(w, log) && Running(w, log) && w.task.k == Length(HandlersFor(log[w.task.at].kind)[w.task.h])
    ensures WorkInv(Work(w, log, Return), log)
  {
  }

  lemma RetryReturns(w: Worker, log: seq<Event>)
    requires WorkInv(w, log) && w.task.Retrying? && w.task.k == Length(w.task.handler)
    ensures WorkInv(Work(w, log, Return), log)
  {
  }

  lemma ReturnKeeps(w: Worker, log: seq<Event>)
    requires WorkInv(w, log)
    ensures WorkInv(Work(w, log, Return), log)
  {
    if Running(w, log) && w.task.k == Length(HandlersFor(log[w.task.at].kind)[w.task.h]) {
      HandlerReturns(w, log);
    } else if w.task.Retrying? && w.task.k == Length(w.task.handler) {
      RetryReturns(w, log);
    }
  }

  /** Appending rows or changing a row's bookkeeping keeps every debt on the books. */
  lemma QueueKeeps(before: seq<Parked>, after: seq<Parked>, done: set<(nat, Handler)>, log: seq<Event>, cursor: nat)
    requires AtLeastOnce(before, done, log, cursor) && |before| <= |after|
    requires forall r :: 0 <= r < |before| ==>
        after[r].event == before[r].event && after[r].handler == before[r].handler
    ensures AtLeastOnce(after, done, log, cursor)
    ensures forall at, h :: Handled(before, done, at, h) ==> Handled(after, done, at, h)
  {
  }

  lemma ParkedRow(dlq: seq<Parked>, done: set<(nat, Handler)>, log: seq<Event>, at: nat, h: Handler, retryAt: int)
    requires QueueOk(dlq, done, log) && at < |log| && h in HandlersFor(log[at].kind)
    ensures var row := Parked(at, h, log[at], 1, retryAt, false);
            QueueOk(dlq + [row], done, log) && InQueue(dlq + [row], at, h)
  {
    var row := Parked(at, h, log[at], 1, retryAt, false);
    assert RowOk(row, done, log);
    assert (dlq + [row])[|dlq|] == row;
  }

  /** A handler that raised is parked with one attempt, to be retried 30 seconds later, with
      its event. */
  lemma ParkedFor30Seconds(w: Worker, log: seq<Event>, now: int)
    requires WorkInv(w, log) && w.task.Raised?
    ensures var t, at := Work(w, log, Park(now)), w.task.at;
            && at < |log| && t.cursor == w.cursor && t.notes == w.notes
            && |t.dlq| == |w.dlq| + 1 && t.dlq[..|w.dlq|] == w.dlq
            && var row := t.dlq[|w.dlq|];
               row.event == at && row.copy == log[at] && row.attempts == 1 && row.retryAt == now + 30 && !row.resolved
               && row.handler == HandlersFor(log[at].kind)[w.task.h]
  {
  }

  lemma ParkedTask(w: Worker, log: seq<Event>, dlq: seq<Parked>)
    requires TaskOk(w, log) && w.task.Raised?
    requires forall at, h :: Handled(w.dlq, w.done, at, h) ==> Handled(dlq, w.done, at, h)
    requires Handled(dlq, w.done, w.task.at, HandlersFor(log[w.task.at].kind)[w.task.h])
    ensures TaskOk(w.(dlq := dlq, task := Handling(w.task.at, w.task.end, w.task.h + 1, 0)), log)
  {
  }

  lemma ParkKeepsQueue(w: Worker, log: seq<Event>, now: int)
    requires AtLeastOnce(w.dlq, w.done, log, w.cursor) && QueueOk(w.dlq, w.done, log) && TaskOk(w, log)
        && w.task.Raised?
    ensures var t := Work(w, log, Park(now));
            AtLeastOnce(t.dlq, t.done, log, t.cursor) && QueueOk(t.dlq, t.done, log) && TaskOk(t, log)
  {
    var h := HandlersFor(log[w.task.at].kind)[w.task.h];
    var dlq := w.dlq + [Parked(w.task.at, h, log[w.task.at], 1, now + 30, false)];
    ParkedRow(w.dlq, w.done, log, w.task.at, h, now + 30);
    QueueKeeps(w.dlq, dlq, w.done, log, w.cursor);
    ParkedTask(w, log, dlq);
    assert Work(w, log, Park(now)) == w.(dlq := dlq, task := Handling(w.task.at, w.task.end, w.task.h + 1, 0));
  }

  lemma ParkKeeps(w: Worker, log: seq<Event>, now: int)
    requires WorkInv(w, log)
    ensures WorkInv(Work(w, log, Park(now)), log)
  {
    if w.task.Raised? { ParkKeepsQueue(w, log, now); }
  }

  lemma AdvanceKeeps(w: Worker, log: seq<Event>)
    requires WorkInv(w, log)
    ensures WorkInv(Work(w, log, Advance), log)
  {
  }

  lemma RetryKeeps(w: Worker, log: seq<Event>, step: WorkStep)
    requires WorkInv(w, log) && (step.PickRow? || step.Resolve? || step.Postpone?)
    ensures WorkInv(Work(w, log, step), log)
  {
    var t := Work(w, log, step);
    if step.PickRow? && step.row < |w.dlq| {
      RetryRunsTheHandlerThatFailed(w.dlq[step.row].handler);
    }
    QueueKeeps(w.dlq, t.dlq, w.done, log, w.cursor);
    forall r | 0 <= r < |t.dlq| ensures RowOk(t.dlq[r], t.done, log) { assert RowOk(w.dlq[r], w.done, log); }
  }

  lemma WorkKeepsInv(w: Worker, log: seq<Event>, step: WorkStep)
    requires WorkInv(w, log)
    ensures WorkInv(Work(w, log, step), log)
    ensures w.cursor <= Work(w, log, step).cursor
  {
    match step
    case Statement(found, day) => StatementKeeps(w, log, found, day);
    case Return => ReturnKeeps(w, log);
    case Park(now) => ParkKeeps(w, log, now);
    case Advance => AdvanceKeeps(w, log);
    case PickRow(_, _) => RetryKeeps(w, log, step);
    case Resolve => RetryKeeps(w, log, step);
    case Postpone(_) => RetryKeeps(w, log, step);
    case _ =>
  }

  /** New events at the end of the log disturb nothing. */
  lemma LogGrows(w: Worker, log: seq<Event>, more: seq<Event>)
    requires WorkInv(w, log) && log <= more
    ensures WorkInv(w, more)
  {
  }

  lemma {:induction false} WorksKeepInv(w: Worker, log: seq<Event>, steps: seq<WorkStep>)
    requires WorkInv(w, log)
    ensures WorkInv(Works(w, log, steps), log)
    ensures w.cursor <= Works(w, log, steps).cursor
  {
    if steps == [] {
    } else {
      WorksKeepInv(w, log, steps[..|steps| - 1]);
      WorkKeepsInv(Works(w, log, steps[..|steps| - 1]), log, steps[|steps| - 1]);
    }
  }

  // ---- Dead-letter termination ----

  /** Retries that unresolved rows have left. */
  function Budget(dlq: seq<Parked>): int {
    if dlq == [] then 0 else
      var n := |dlq| - 1;
      Budget(dlq[..n]) + if dlq[n].resolved then 0 else MAX_ATTEMPTS - dlq[n].attempts
  }

  lemma {:induction false} BudgetUpdate(dlq: seq<Parked>, r: nat, row: Parked)
    requires r < |dlq|
    ensures Budget(dlq[r := row]) == Budget(dlq)
              - (if dlq[r].resolved then 0 else MAX_ATTEMPTS - dlq[r].attempts)
              + (if row.resolved then 0 else MAX_ATTEMPTS - row.attempts)
  {
    var n := |dlq| - 1;
    if r < n {
      BudgetUpdate(dlq[..n], r, row);
      assert dlq[r := row][..n] == dlq[..n][r := row];
    } else {
      assert dlq[r := row][..n] == dlq[..n];
    }
  }

  lemma {:induction false} BudgetNonNegative(dlq: seq<Parked>)
    requires forall r :: 0 <= r < |dlq| ==> dlq[r].attempts <= MAX_ATTEMPTS
    ensures Budget(dlq) >= 0
  {
    if dlq == [] {
    } else {
      BudgetNonNegative(dlq[..|dlq| - 1]);
    }
  }

  /** A retry has come to its end: its row is resolved, or put off. */
  predicate EndsRetry(w: Worker, step: WorkStep) {
    (step.Postpone? && w.task.RetryRaised?) || (step.Resolve? && w.task.Retried?)
  }

  /** Completed retries, failed or resolved, and newly parked rows in a run of the worker. */
  function Retries(w: Worker, log: seq<Event>, steps: seq<WorkStep>): nat {
    if steps == [] then 0 else
      var n := |steps| - 1;
      Retries(w, log, steps[..n]) + if EndsRetry(Works(w, log, steps[..n]), steps[n]) then 1 else 0
  }

  function NewlyParked(w: Worker, log: seq<Event>, steps: seq<WorkStep>): nat {
    if steps == [] then 0 else
      var n := |steps| - 1;
      NewlyParked(w, log, steps[..n]) + if steps[n].Park? && Works(w, log, steps[..n]).task.Raised? then 1 else 0
  }

  lemma BudgetPark(dlq: seq<Parked>, row: Parked)
    requires row.attempts == 1 && !row.resolved
    ensures Budget(dlq + [row]) == Budget(dlq) + 4
  {
  }

  lemma BudgetPostpone(w: Worker, log: seq<Event>, now: int)
    requires w.task.RetryRaised? && Due(w.dlq, w.task.row)
    ensures Budget(Work(w, log, Postpone(now)).dlq) == Budget(w.dlq) - 1
  {
    var row := w.dlq[w.task.row];
    BudgetUpdate(w.dlq, w.task.row, row.(attempts := row.attempts + 1, retryAt := now + Backoff(row.attempts)));
  }

  lemma BudgetResolve(w: Worker, log: seq<Event>)
    requires WorkInv(w, log) && w.task.Retried?
    ensures Budget(Work(w, log, Resolve).dlq) <= Budget(w.dlq) - 1
  {
    BudgetUpdate(w.dlq, w.task.row, w.dlq[w.task.row].(resolved := true));
  }

  lemma BudgetStep(w: Worker, log: seq<Event>, step: WorkStep)
    requires WorkInv(w, log)
    ensures Budget(Work(w, log, step).dlq)
              + (if EndsRetry(w, step) then 1 else 0)
         <= Budget(w.dlq) + (if step.Park? && w.task.Raised? then 4 else 0)
  {
    match step
    case Park(now) =>
      if w.task.Raised? {
        BudgetPark(w.dlq, Parked(w.task.at, HandlersFor(log[w.task.at].kind)[w.task.h], log[w.task.at], 1, now + 30,
                                 false));
      }
    case Resolve => if w.task.Retried? { BudgetResolve(w, log); }
    case Postpone(now) => if w.task.RetryRaised? { BudgetPostpone(w, log, now); }
    case PickRow(row, now) => PickKeepsQueue(w, log, row, now);
    case _ =>
  }

  /** No row is ever written off because its handler is gone from the registry. */
  lemma PickKeepsQueue(w: Worker, log: seq<Event>, row: nat, now: int)
    ensures Work(w, log, PickRow(row, now)).dlq == w.dlq
  {
    if row < |w.dlq| { RetryRunsTheHandlerThatFailed(w.dlq[row].handler); }
  }

  /** Over any run, whatever crashes: completed retries are bounded by those the queue had
      left, plus four for each handler newly parked. */
  lemma {:induction false} RetriesBounded(w: Worker, log: seq<Event>, steps: seq<WorkStep>)
    requires WorkInv(w, log)
    ensures Retries(w, log, steps) + Budget(Works(w, log, steps).dlq) <= Budget(w.dlq) + 4 * NewlyParked(w, log, steps)
    ensures 0 <= Budget(Works(w, log, steps).dlq)
  {
    WorksKeepInv(w, log, steps);
    var t := Works(w, log, steps);
    assert forall r :: 0 <= r < |t.dlq| ==> RowOk(t.dlq[r], t.done, log);
    BudgetNonNegative(t.dlq);
    if steps == [] {
    } else {
      var n := |steps| - 1;
      RetriesBounded(w, log, steps[..n]);
      WorksKeepInv(w, log, steps[..n]);
      BudgetStep(Works(w, log, steps[..n]), log, steps[n]);
    }
  }

  /** With no event left beyond the cursor nothing is handled afresh, so nothing is parked. */
  lemma {:induction false} AtHeadNothingParked(w: Worker, log: seq<Event>, steps: seq<WorkStep>)
    requires WorkInv(w, log) && w.cursor == |log|
    ensures NewlyParked(w, log, steps) == 0 && Works(w, log, steps).cursor == |log|
  {
    if steps == [] {
    } else {
      var n := |steps| - 1;
      AtHeadNothingParked(w, log, steps[..n]);
      WorksKeepInv(w, log, steps[..n]);
    }
    WorksKeepInv(w, log, steps);
  }

  /** A row that may be retried has a retry left. */
  lemma {:induction false} DueHasBudget(dlq: seq<Parked>, r: nat)
    requires Due(dlq, r) && forall i :: 0 <= i < |dlq| ==> dlq[i].attempts <= MAX_ATTEMPTS
    ensures Budget(dlq) > 0
  {
    var n := |dlq| - 1;
    if r == n {
      BudgetNonNegative(dlq[..n]);
    } else {
      DueHasBudget(dlq[..n], r);
    }
  }

  /** Dead-letter termination: with no new events, however often the worker crashes, at most
      the sum of (5 - attempts) over the unresolved rows of retries complete, failed or
      resolved, and once that many have, no row is left to retry. */
  lemma RetriesEnd(w: Worker, log: seq<Event>, steps: seq<WorkStep>)
    requires WorkInv(w, log) && w.cursor == |log|
    ensures Retries(w, log, steps) <= Budget(w.dlq)
    ensures Retries(w, log, steps) == Budget(w.dlq) ==> forall r: nat :: !Due(Works(w, log, steps).dlq, r)
  {
    AtHeadNothingParked(w, log, steps);
    RetriesBounded(w, log, steps);
    WorksKeepInv(w, log, steps);
    var t := Works(w, log, steps);
    assert forall r :: 0 <= r < |t.dlq| ==> RowOk(t.dlq[r], t.done, log);
    forall r: nat | Due(t.dlq, r) ensures Budget(t.dlq) > 0 { DueHasBudget(t.dlq, r); }
  }

  /** The delay of every retry that is ever scheduled is 60, 120, 240 or 480 seconds: the
      cap of 3600 never binds, and a row's attempts end at 5. */
  lemma BackoffNeverCapped(w: Worker, log: seq<Event>, now: int)
    requires WorkInv(w, log) && w.task.RetryRaised?
    ensures var row, after := w.dlq[w.task.row], Work(w, log, Postpone(now)).dlq[w.task.row];
            && after.retryAt - now in {60, 120, 240, 480} && after.retryAt - now == 30 * Pow2(row.attempts)
            && after.attempts == row.attempts + 1 <= 5
  {
    assert RowOk(w.dlq[w.task.row], w.done, log) && Due(w.dlq, w.task.row);
    Powers();
  }

  lemma Powers()
    ensures Pow2(1) == 2 && Pow2(2) == 4 && Pow2(3) == 8 && Pow2(4) == 16
  {
    assert Pow2(0) == 1;
    assert Pow2(1) == 2 * Pow2(0);
    assert Pow2(2) == 2 * Pow2(1);
    assert Pow2(3) == 2 * Pow2(2);
  }
}
