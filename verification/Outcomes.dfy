/**
 What a dispatched delivery leaves of the task table and the broker, column by column (deepwiki/internal/task/manager.go,
 `dispatch` and `resetAndRetry`).
 */
module Outcomes {
  import opened Options
  import opened TaskModel
  import opened TaskRows
  import opened Protocol

  /** An acknowledged delivery is gone; the broker only listens to the worker that holds it. */
  function Acked(msgs: map<nat, Message>, m: nat, w: nat): map<nat, Message> {
    if m in msgs && msgs[m].place == Held(w) then msgs - {m} else msgs
  }

  /** A delivery refused without requeue becomes a dead letter. */
  function DeadLettered(msgs: map<nat, Message>, m: nat, w: nat): map<nat, Message> {
    if m in msgs && msgs[m].place == Held(w) then msgs[m := msgs[m].(place := InDlq)] else msgs
  }

  function With(msgs: map<nat, Message>, next: nat, g: Message, pub: PubOut): map<nat, Message> {
    if pub.NotSent? then msgs else msgs[next := g]
  }

  /** One guarded write of a row; it has no effect on a finished row. */
  predicate Wrote(rows: map<TaskId, Row>, t: TaskId, r: Row, out: StoreOut, rows': map<TaskId, Row>)
    requires t in rows
  {
    rows' == if out.ErrLost? || rows[t].state.IsTerminal() then rows else rows[t := r]
  }

  /** What `resetAndRetry` leaves below the bound: the row pending again, then the next attempt's message, then the delivery settled. */
  predicate Retried(rows: map<TaskId, Row>, msgs: map<nat, Message>, next: nat, now: nat, d: Worker, w: nat, reset: StoreOut, pub: PubOut,
                    rows': map<TaskId, Row>, msgs': map<nat, Message>)
    requires d.task in rows
  {
    var r := rows[d.task];
    var g := if d.retry < 3 then Message(d.task, d.typ, d.retry + 1, d.root, InRetry(d.retry)) else Message(d.task, d.typ, 0, d.root, InDlq);
    && Wrote(rows, d.task, r.(state := Pending, updatedAt := now), reset, rows')
    && msgs' == if !reset.Done? || r.state.IsTerminal() then DeadLettered(msgs, d.mid, w)
                else if pub.Confirmed? then Acked(With(msgs, next, g, pub), d.mid, w)
                else DeadLettered(With(msgs, next, g, pub), d.mid, w)
  }

  /** And at the bound: the row failed, a dead letter for the record, and the delivery acknowledged. */
  predicate GivenUp(rows: map<TaskId, Row>, msgs: map<nat, Message>, next: nat, now: nat, d: Worker, w: nat, e: TaskError, fail: StoreOut, pub: PubOut,
                    rows': map<TaskId, Row>, msgs': map<nat, Message>)
    requires d.task in rows
  {
    && Wrote(rows, d.task, rows[d.task].(state := Failed, err := Some(e), finishedAt := Some(now), updatedAt := now), fail, rows')
    && msgs' == Acked(With(msgs, next, Message(d.task, d.typ, 0, d.root, InDlq), pub), d.mid, w)
  }

  /** The bulk reset: every running row without a recent heartbeat is pending again, and looks fresh; no other row changes. */
  ghost predicate StaleAreReset(rows: map<TaskId, Row>, staleBefore: int, now: nat, out: StoreOut, rows': map<TaskId, Row>) {
    && (forall t :: t in rows' <==> t in rows)
    && forall t :: t in rows ==>
         var r := rows[t];
         rows'[t] == if !out.ErrLost? && r.state.IsRunning() && r.updatedAt < staleBefore then r.(state := Pending, updatedAt := now) else r
  }

  /** The query's answer names exactly the unfinished rows, or of these the ones without a recent write. */
  ghost predicate Unfinished(rows: map<TaskId, Row>, staleBefore: int, all: bool, order: seq<TaskId>) {
    forall t :: t in order <==> t in rows && !rows[t].state.IsTerminal() && (all || rows[t].updatedAt < staleBefore)
  }

  /** How an executor's run ends, as `dispatch` tells the cases apart. */
  datatype RunErr = Nil | CancelError | OtherError | Panicked

  /** `finishTerminal(cancelled)`: every row but a completed or failed one. */
  predicate CancelWritten(rows: map<TaskId, Row>, t: TaskId, now: nat, out: StoreOut, rows': map<TaskId, Row>)
    requires t in rows
  {
    var r := rows[t];
    rows' == if out.ErrLost? || r.state.Completed? || r.state.Failed? then rows
             else rows[t := r.(state := Cancelled, err := None, finishedAt := Some(now), updatedAt := now)]
  }

  /** Only this row may have changed. */
  predicate OnlyRow(rows: map<TaskId, Row>, t: TaskId, rows': map<TaskId, Row>) {
    t in rows && t in rows' && rows' == rows[t := rows'[t]]
  }

  lemma OnlyRowTwice(rows: map<TaskId, Row>, t: TaskId, rows': map<TaskId, Row>, rows'': map<TaskId, Row>)
    requires OnlyRow(rows, t, rows') && OnlyRow(rows', t, rows'')
    ensures OnlyRow(rows, t, rows'')
  {
  }

  lemma SameRows(rows: map<TaskId, Row>, t: TaskId)
    requires t in rows
    ensures OnlyRow(rows, t, rows)
  {
  }

  /** A report that was accepted: the stage and the progress, and the time if it is the last. */
  predicate Reported(rows: map<TaskId, Row>, t: TaskId, st: TaskState, p: Progress, now: nat, rows': map<TaskId, Row>)
    requires t in rows
  {
    var r := rows[t];
    rows' == rows[t := r.(state := st, progress := p, finishedAt := if st.IsTerminal() then Some(now) else r.finishedAt, updatedAt := now)]
  }
}
