/** worker/main.py as it is written: loops over rows that advance the stored cursor and
    update dead-letter rows. What comes back from each SQL statement, including that the
    process dies, is given by a script; every method is proved to be a run of the
    statement-by-statement machine. */
module OutboxService {
  import opened Schema
  import opened Outbox
  import opened OutboxInvariants

  /** How the next statement goes: it succeeds, its SELECT part returning `found`; it
      raises; or the process dies before it. */
  datatype Reply = Ok(found: seq<nat>) | Fails | Dies

  /** How a run of a handler's statements ended. */
  datatype Ending = Returned | Threw | Died

  class WorkerProcess {
    var cursor: nat
    var dlq: seq<Parked>
    var notes: seq<Note>
    var script: seq<Reply>
    ghost var done: set<(nat, Handler)>
    ghost var ran: set<Ran>
    ghost var task: Task

    ghost function State(): Worker
      reads this
    {
      Worker(cursor, dlq, notes, done, ran, task)
    }

    constructor (script: seq<Reply>)
      ensures State() == FRESH && this.script == script
    {
      cursor, dlq, notes, done, ran, task := 0, [], [], {}, {}, Idle;
      this.script := script;
    }

    /** A script that has run out means the process is gone. */
    method NextReply() returns (r: Reply)
      modifies this`script
    {
      if script == [] {
        r := Dies;
      } else {
        r, script := script[0], script[1..];
      }
    }

    /** One statement of a handler inside _process_batch. */
    method RunStatement(log: seq<Event>, at: nat, end: nat, i: nat, k: nat, day: int)
      returns (reply: Reply, ghost step: WorkStep)
      requires at < |log| && i < |HandlersFor(log[at].kind)| && task == Handling(at, end, i, k)
      requires k < Length(HandlersFor(log[at].kind)[i])
      modifies this
      ensures State() == Work(old(State()), log, step) && cursor == old(cursor) && dlq == old(dlq)
      ensures task == match reply
                      case Ok(_) => Handling(at, end, i, k + 1)
                      case Fails => Raised(at, end, i)
                      case Dies => Idle
    {
      reply := NextReply();
      match reply {
        case Dies => task, step := Idle, Crash;
        case Fails => task, step := Raised(at, end, i), Raise;
        case Ok(found) =>
          notes := InsertNotes(notes, Rows(HandlersFor(log[at].kind)[i], k, at, log[at], found, day));
          ran := ran + {Ran(at, HandlersFor(log[at].kind)[i], k, found, day)};
          task, step := Handling(at, end, i, k + 1), Statement(found, day);
      }
    }

    /** `await handler(conn, event)` inside _process_batch, statement by statement. */
    method RunHandler(log: seq<Event>, at: nat, end: nat, i: nat, day: int)
      returns (ending: Ending, ghost steps: seq<WorkStep>)
      requires at < |log| && i < |HandlersFor(log[at].kind)| && task == Handling(at, end, i, 0)
      modifies this
      ensures State() == Works(old(State()), log, steps) && cursor == old(cursor) && dlq == old(dlq)
      ensures task == match ending
                      case Returned => Handling(at, end, i, Length(HandlersFor(log[at].kind)[i]))
                      case Threw => Raised(at, end, i)
                      case Died => Idle
    {
      ghost var start := State();
      steps := [];
      for k := 0 to Length(HandlersFor(log[at].kind)[i])
        invariant cursor == old(cursor) && dlq == old(dlq)
        invariant State() == Works(start, log, steps) && task == Handling(at, end, i, k)
      {
        var reply;
        ghost var step;
        reply, step := RunStatement(log, at, end, i, k, day);
        Snoc(start, log, steps, step);
        steps := steps + [step];
        if !reply.Ok? { return if reply.Dies? then Died else Threw, steps; }
      }
      ending := Returned;
    }

    /** INSERT INTO worker_dlq for a handler that raised. */
    method ParkHandler(log: seq<Event>, at: nat, end: nat, i: nat, now: int) returns (alive: bool, ghost step: WorkStep)
      requires at < |log| && i < |HandlersFor(log[at].kind)| && task == Raised(at, end, i)
      modifies this
      ensures State() == Work(old(State()), log, step) && cursor == old(cursor)
      ensures if alive then task == Handling(at, end, i + 1, 0) && InQueue(dlq, at, HandlersFor(log[at].kind)[i])
          else task.Idle?
    {
      var reply := NextReply();
      alive := reply.Ok?;
      if alive {
        dlq := dlq + [Parked(at, HandlersFor(log[at].kind)[i], log[at], 1, now + 30, false)];
        assert dlq[|dlq| - 1].event == at;
        task, step := Handling(at, end, i + 1, 0), Park(now);
      } else {
        task, step := Idle, Crash;
      }
    }

    /** The handler came back: on to the next. */
    method ReturnHandler(log: seq<Event>, at: nat, end: nat, i: nat)
      requires at < |log| && i < |HandlersFor(log[at].kind)|
      requires task == Handling(at, end, i, Length(HandlersFor(log[at].kind)[i]))
      modifies this`done, this`task
      ensures State() == Work(old(State()), log, Return)
      ensures task == Handling(at, end, i + 1, 0) && (at, HandlersFor(log[at].kind)[i]) in done
    {
      done := done + {(at, HandlersFor(log[at].kind)[i])};
      task := Handling(at, end, i + 1, 0);
    }

    /** One handler inside _process_batch; if it raises, it is parked. */
    method Handle(log: seq<Event>, at: nat, end: nat, i: nat, day: int, now: int)
      returns (alive: bool, ghost steps: seq<WorkStep>)
      requires at < |log| && i < |HandlersFor(log[at].kind)| && task == Handling(at, end, i, 0)
      modifies this
      ensures State() == Works(old(State()), log, steps) && cursor == old(cursor)
      ensures if alive then task == Handling(at, end, i + 1, 0) else task.Idle?
      ensures alive ==> Handled(dlq, done, at, HandlersFor(log[at].kind)[i])
    {
      ghost var start := State();
      var ending;
      ending, steps := RunHandler(log, at, end, i, day);
      if ending.Died? { return false, steps; }
      ghost var step;
      if ending.Threw? {
        alive, step := ParkHandler(log, at, end, i, now);
      } else {
        ReturnHandler(log, at, end, i);
        alive, step := true, Return;
      }
      Snoc(start, log, steps, step);
      steps := steps + [step];
    }

    /** All handlers of one event, then the cursor. */
    method HandleEvent(log: seq<Event>, at: nat, end: nat, day: int, now: int)
      returns (alive: bool, ghost steps: seq<WorkStep>)
      requires at < end <= |log| && task == Handling(at, end, 0, 0) && cursor == at
      modifies this
      ensures State() == Works(old(State()), log, steps)
      ensures if alive then cursor == at + 1 && task == (if at + 1 < end then Handling(at + 1, end, 0, 0) else Idle)
              else cursor == at && task.Idle?
    {
      ghost var start := State();
      var hs := HandlersFor(log[at].kind);
      steps := [];
      for i := 0 to |hs|
        invariant cursor == at && task == Handling(at, end, i, 0)
        invariant State() == Works(start, log, steps)
      {
        ghost var more;
        alive, more := Handle(log, at, end, i, day, now);
        Concat(start, log, steps, more);
        steps := steps + more;
        if !alive { return; }
      }
      ghost var step;
      alive, step := AdvanceCursor(log, at, end);
      Snoc(start, log, steps, step);
      steps := steps + [step];
    }

    /** UPDATE worker_cursors, once every handler of the event is through. */
    method AdvanceCursor(log: seq<Event>, at: nat, end: nat) returns (alive: bool, ghost step: WorkStep)
      requires at < end <= |log| && task == Handling(at, end, |HandlersFor(log[at].kind)|, 0) && cursor == at
      modifies this
      ensures State() == Work(old(State()), log, step)
      ensures if alive then cursor == at + 1 && task == (if at + 1 < end then Handling(at + 1, end, 0, 0) else Idle)
              else cursor == at && task.Idle?
    {
      var reply := NextReply();
      alive := reply.Ok?;
      if alive {
        cursor := at + 1;
        task := if at + 1 < end then Handling(at + 1, end, 0, 0) else Idle;
        step := Advance;
      } else {
        task := Idle;
        step := Crash;
      }
    }

    /** _process_batch: whatever fails on the way, the process has done a run of the
        machine; if it lives, the cursor is past the whole batch. */
    method ProcessBatch(log: seq<Event>, limit: nat, day: int, now: int)
      returns (processed: nat, alive: bool, ghost steps: seq<WorkStep>)
      requires task.Idle? && limit > 0
      modifies this
      ensures State() == Works(old(State()), log, steps) && task.Idle?
      ensures old(cursor) <= cursor && processed == cursor - old(cursor)
      ensures old(cursor) <= |log| ==> cursor <= |log|
      ensures alive && old(cursor) <= |log| ==> cursor == Min(old(cursor) + limit, |log|)
      ensures WorkInv(old(State()), log) ==> WorkInv(State(), log)
    {
      ghost var start := State();
      processed, steps := 0, [];
      if cursor >= |log| { return 0, true, []; }
      var end := Min(cursor + limit, |log|);
      var first := cursor;
      task := Handling(first, end, 0, 0);
      Snoc(start, log, [], Fetch(limit));
      steps := [] + [Fetch(limit)];
      for at := first to end
        invariant cursor == at && task == if at < end then Handling(at, end, 0, 0) else Idle
        invariant State() == Works(start, log, steps)
      {
        ghost var more;
        alive, more := HandleEvent(log, at, end, day, now);
        Concat(start, log, steps, more);
        steps := steps + more;
        if !alive {
          KeepsInv(start, log, steps);
          return cursor - first, false, steps;
        }
      }
      KeepsInv(start, log, steps);
      return cursor - first, true, steps;
    }

    /** One statement of a handler inside _retry_dlq. */
    method RetryStatement(log: seq<Event>, row: nat, h: Handler, k: nat, day: int)
      returns (reply: Reply, ghost step: WorkStep)
      requires row < |dlq| && task == Retrying(row, h, k) && k < Length(h)
      modifies this
      ensures State() == Work(old(State()), log, step) && cursor == old(cursor) && dlq == old(dlq)
      ensures task == match reply
                      case Ok(_) => Retrying(row, h, k + 1)
                      case Fails => RetryRaised(row)
                      case Dies => Idle
    {
      reply := NextReply();
      match reply {
        case Dies => task, step := Idle, Crash;
        case Fails => task, step := RetryRaised(row), Raise;
        case Ok(found) =>
          notes := InsertNotes(notes, Rows(h, k, dlq[row].event, dlq[row].copy, found, day));
          ran := ran + {Ran(dlq[row].event, h, k, found, day)};
          task, step := Retrying(row, h, k + 1), Statement(found, day);
      }
    }

    /** `await handler(conn, event)` inside _retry_dlq. */
    method RunRetry(log: seq<Event>, row: nat, h: Handler, day: int)
      returns (ending: Ending, ghost steps: seq<WorkStep>)
      requires row < |dlq| && task == Retrying(row, h, 0)
      modifies this
      ensures State() == Works(old(State()), log, steps) && cursor == old(cursor) && dlq == old(dlq)
      ensures task == match ending
                      case Returned => Retrying(row, h, Length(h))
                      case Threw => RetryRaised(row)
                      case Died => Idle
    {
      ghost var start := State();
      steps := [];
      for k := 0 to Length(h)
        invariant cursor == old(cursor) && dlq == old(dlq)
        invariant State() == Works(start, log, steps) && task == Retrying(row, h, k)
      {
        var reply;
        ghost var step;
        reply, step := RetryStatement(log, row, h, k, day);
        Snoc(start, log, steps, step);
        steps := steps + [step];
        if !reply.Ok? { return if reply.Dies? then Died else Threw, steps; }
      }
      ending := Returned;
    }

    /** After a retry that came back: UPDATE worker_dlq SET resolved_at, still inside try. */
    method ResolveRow(log: seq<Event>, row: nat, h: Handler) returns (ending: Ending, ghost steps: seq<WorkStep>)
      requires row < |dlq| && task == Retrying(row, h, Length(h))
      modifies this
      ensures State() == Works(old(State()), log, steps) && cursor == old(cursor)
      ensures dlq == if ending.Returned? then old(dlq)[row := old(dlq)[row].(resolved := true)] else old(dlq)
      ensures task == if ending.Threw? then RetryRaised(row) else Idle
    {
      ghost var start := State();
      done := done + {(dlq[row].event, h)};
      task := Retried(row);
      Snoc(start, log, [], Return);
      steps := [] + [Return];
      ghost var step;
      ending, step := MarkResolved(log, row);
      Snoc(start, log, steps, step);
      steps := steps + [step];
    }

    method MarkResolved(log: seq<Event>, row: nat) returns (ending: Ending, ghost step: WorkStep)
      requires row < |dlq| && task == Retried(row)
      modifies this
      ensures State() == Work(old(State()), log, step) && cursor == old(cursor)
      ensures dlq == if ending.Returned? then old(dlq)[row := old(dlq)[row].(resolved := true)] else old(dlq)
      ensures task == if ending.Threw? then RetryRaised(row) else Idle
    {
      var reply := NextReply();
      match reply {
        case Dies => task, step, ending := Idle, Crash, Died;
        case Fails => task, step, ending := RetryRaised(row), Raise, Threw;
        case Ok(_) =>
          dlq := dlq[row := dlq[row].(resolved := true)];
          task, step, ending := Idle, Resolve, Returned;
      }
    }

    /** The try block of _retry_dlq. */
    method TryRow(log: seq<Event>, row: nat, h: Handler, day: int) returns (ending: Ending, ghost steps: seq<WorkStep>)
      requires row < |dlq| && task == Retrying(row, h, 0)
      modifies this
      ensures State() == Works(old(State()), log, steps) && cursor == old(cursor)
      ensures dlq == if ending.Returned? then old(dlq)[row := old(dlq)[row].(resolved := true)] else old(dlq)
      ensures task == if ending.Threw? then RetryRaised(row) else Idle
    {
      ghost var start := State();
      ending, steps := RunRetry(log, row, h, day);
      if ending.Returned? {
        ghost var more;
        ending, more := ResolveRow(log, row, h);
        Concat(start, log, steps, more);
        steps := steps + more;
      }
    }

    /** SELECT of a row, and its handler looked up by name. */
    method PickRow(log: seq<Event>, row: nat, now: int) returns (h: Handler)
      requires task.Idle? && OutboxInvariants.Due(dlq, row) && dlq[row].retryAt <= now
      modifies this`task
      ensures State() == Work(old(State()), log, WorkStep.PickRow(row, now)) && task == Retrying(row, h, 0)
      ensures h == dlq[row].handler
    {
      RetryRunsTheHandlerThatFailed(dlq[row].handler);
      var named := ByName(Name(dlq[row].handler), REGISTERED);
      h := named.value;
      task := Retrying(row, h, 0);
    }

    /** One row of _retry_dlq. */
    method RetryRow(log: seq<Event>, row: nat, day: int, now: int) returns (alive: bool, ghost steps: seq<WorkStep>)
      requires task.Idle? && OutboxInvariants.Due(dlq, row) && dlq[row].retryAt <= now
      modifies this
      ensures State() == Works(old(State()), log, steps) && task.Idle? && cursor == old(cursor)
      ensures |dlq| == |old(dlq)| && forall r :: 0 <= r < |dlq| && r != row ==> dlq[r] == old(dlq)[r]
      ensures if alive then TriedOnce(old(dlq)[row], dlq[row], now) else dlq[row] == old(dlq)[row]
    {
      ghost var start := State();
      var h := PickRow(log, row, now);
      Snoc(start, log, [], WorkStep.PickRow(row, now));
      var ending;
      ending, steps := TryRow(log, row, h, day);
      Concat(start, log, [] + [WorkStep.PickRow(row, now)], steps);
      steps := [] + [WorkStep.PickRow(row, now)] + steps;
      alive := !ending.Died?;
      if ending.Threw? {
        ghost var step;
        alive, step := PostponeRow(log, row, now);
        Snoc(start, log, steps, step);
        steps := steps + [step];
      }
    }

    /** The except branch of _retry_dlq. */
    method PostponeRow(log: seq<Event>, row: nat, now: int) returns (alive: bool, ghost step: WorkStep)
      requires row < |dlq| && task == RetryRaised(row)
      modifies this
      ensures State() == Work(old(State()), log, step) && task.Idle? && cursor == old(cursor)
      ensures dlq == if alive then old(dlq)[row := old(dlq)[row].(attempts := old(dlq)[row].attempts + 1,
                                                                  retryAt := now + Backoff(old(dlq)[row].attempts))]
                     else old(dlq)
    {
      var reply := NextReply();
      alive := reply.Ok?;
      task := Idle;
      if alive {
        dlq := dlq[row := dlq[row].(attempts := dlq[row].attempts + 1, retryAt := now + Backoff(dlq[row].attempts))];
        step := Postpone(now);
      } else {
        step := Crash;
      }
    }

    /** _retry_dlq: `rows` is what its SELECT returned. Each row ends resolved or put off
        by its back-off, the others are not touched. */
    method RetryDlq(log: seq<Event>, rows: seq<nat>, day: int, now: int)
      returns (alive: bool, ghost steps: seq<WorkStep>)
      requires task.Idle? && forall i, j :: 0 <= i < j < |rows| ==> rows[i] != rows[j]
      requires forall r :: r in rows ==> OutboxInvariants.Due(dlq, r) && dlq[r].retryAt <= now
      modifies this
      ensures State() == Works(old(State()), log, steps) && task.Idle? && cursor == old(cursor)
      ensures |dlq| == |old(dlq)| && forall r :: 0 <= r < |dlq| && r !in rows ==> dlq[r] == old(dlq)[r]
      ensures alive ==> forall r :: 0 <= r < |dlq| && r in rows ==> TriedOnce(old(dlq)[r], dlq[r], now)
      ensures WorkInv(old(State()), log) ==> WorkInv(State(), log)
    {
      ghost var start := State();
      steps := [];
      for i := 0 to |rows|
        invariant task.Idle? && cursor == old(cursor) && State() == Works(start, log, steps)
        invariant |dlq| == |old(dlq)|
        invariant forall r :: 0 <= r < |dlq| && r !in rows[..i] ==> dlq[r] == old(dlq)[r]
        invariant forall r :: 0 <= r < |dlq| && r in rows[..i] ==> TriedOnce(old(dlq)[r], dlq[r], now)
      {
        assert rows[i] in rows && rows[i] !in rows[..i];
        assert rows[..i + 1] == rows[..i] + [rows[i]];
        ghost var more;
        alive, more := RetryRow(log, rows[i], day, now);
        Concat(start, log, steps, more);
        steps := steps + more;
        if !alive {
          KeepsInv(start, log, steps);
          return;
        }
      }
      assert rows[..|rows|] == rows;
      KeepsInv(start, log, steps);
      alive := true;
    }

    /** The first row, by retry time, that is due now and not among `taken`. */
    method Earliest(now: int, taken: seq<nat>) returns (best: Option<nat>)
      ensures best.Some? ==> DueNow(dlq, best.value, now) && best.value !in taken
      ensures forall r :: 0 <= r < |dlq| && DueNow(dlq, r, now) && r !in taken ==>
                best.Some? && dlq[best.value].retryAt <= dlq[r].retryAt
    {
      best := None;
      for i := 0 to |dlq|
        invariant best.Some? ==> DueNow(dlq, best.value, now) && best.value !in taken
        invariant forall r :: 0 <= r < i && DueNow(dlq, r, now) && r !in taken ==>
                    best.Some? && dlq[best.value].retryAt <= dlq[r].retryAt
      {
        if DueNow(dlq, i, now) && i !in taken && (best.None? || dlq[i].retryAt < dlq[best.value].retryAt) {
          best := Some(i);
        }
      }
    }

    /** The SELECT of _retry_dlq: the rows due by now, earliest first, up to a limit. */
    method SelectDue(now: int, limit: nat) returns (rows: seq<nat>)
      ensures |rows| <= limit && forall i, j :: 0 <= i < j < |rows| ==> rows[i] != rows[j]
      ensures forall r :: r in rows ==> DueNow(dlq, r, now)
      ensures forall r :: 0 <= r < |dlq| && DueNow(dlq, r, now) && r !in rows ==>
                |rows| == limit && forall x :: x in rows ==> x < |dlq| && dlq[x].retryAt <= dlq[r].retryAt
    {
      rows := [];
      while |rows| < limit
        invariant |rows| <= limit && forall i, j :: 0 <= i < j < |rows| ==> rows[i] != rows[j]
        invariant forall r :: r in rows ==> DueNow(dlq, r, now)
        invariant forall r, x :: x in rows && 0 <= r < |dlq| && DueNow(dlq, r, now) && r !in rows ==>
                    dlq[x].retryAt <= dlq[r].retryAt
        decreases limit - |rows|
      {
        var best := Earliest(now, rows);
        if best.None? { return; }
        assert forall i :: 0 <= i < |rows| ==> rows[i] in rows;
        rows := rows + [best.value];
      }
    }

    /** One pass of the main loop: a batch, then the retries due; if the batch fails the
        retries are left for the next pass. */
    method Tick(log: seq<Event>, limit: nat, retries: nat, day: int, now: int)
      returns (alive: bool, ghost steps: seq<WorkStep>)
      requires task.Idle? && limit > 0
      modifies this
      ensures State() == Works(old(State()), log, steps) && task.Idle? && old(cursor) <= cursor
      ensures old(cursor) <= |log| ==> cursor <= |log|
      ensures alive && old(cursor) <= |log| ==> cursor == Min(old(cursor) + limit, |log|)
      ensures WorkInv(old(State()), log) ==> WorkInv(State(), log)
    {
      ghost var start := State();
      var processed;
      processed, alive, steps := ProcessBatch(log, limit, day, now);
      if alive {
        var rows := SelectDue(now, retries);
        ghost var more;
        alive, more := RetryDlq(log, rows, day, now);
        Concat(start, log, steps, more);
        steps := steps + more;
      }
    }

    /** The main loop with no new events coming in, whatever the clock says at each pass:
        unless it dies or a pass fails, it reaches the head. */
    method CatchUp(log: seq<Event>, limit: nat, retries: nat, day: nat -> int, clock: nat -> int)
      returns (alive: bool, ghost steps: seq<WorkStep>)
      requires task.Idle? && limit > 0 && cursor <= |log|
      modifies this
      ensures State() == Works(old(State()), log, steps) && task.Idle?
      ensures alive ==> cursor == |log|
      ensures WorkInv(old(State()), log) ==> WorkInv(State(), log)
    {
      ghost var start := State();
      steps := [];
      alive := true;
      var pass: nat := 0;
      while cursor < |log|
        invariant task.Idle? && alive && State() == Works(start, log, steps)
        invariant cursor <= |log|
        decreases |log| - cursor
      {
        ghost var more;
        alive, more := Tick(log, limit, retries, day(pass), clock(pass));
        Concat(start, log, steps, more);
        steps := steps + more;
        if !alive {
          KeepsInv(start, log, steps);
          return;
        }
        pass := pass + 1;
      }
      KeepsInv(start, log, steps);
    }
  }

  predicate DueNow(dlq: seq<Parked>, row: nat, now: int) {
    row < |dlq| && !dlq[row].resolved && dlq[row].attempts < 5 && dlq[row].retryAt <= now
  }

  /** A dead-letter row after a retry: resolved, or put off with one more attempt. */
  predicate TriedOnce(before: Parked, after: Parked, now: int) {
    || after == before.(resolved := true)
    || after == before.(attempts := before.attempts + 1, retryAt := now + Backoff(before.attempts))
  }

  // ---- Proof steps ----

  lemma Snoc(w: Worker, log: seq<Event>, steps: seq<WorkStep>, step: WorkStep)
    ensures Works(w, log, steps + [step]) == Work(Works(w, log, steps), log, step)
  {
  }

  lemma {:induction false} Concat(w: Worker, log: seq<Event>, a: seq<WorkStep>, b: seq<WorkStep>)
    ensures Works(w, log, a + b) == Works(Works(w, log, a), log, b)
  {
    if b == [] {
      assert a + b == a;
    } else {
      var n := |b| - 1;
      assert (a + b)[..|a| + n] == a + b[..n];
      Concat(w, log, a, b[..n]);
    }
  }

  lemma KeepsInv(w: Worker, log: seq<Event>, steps: seq<WorkStep>)
    ensures WorkInv(w, log) ==> WorkInv(Works(w, log, steps), log)
  {
    if WorkInv(w, log) { WorksKeepInv(w, log, steps); }
  }
}
