/**
 The task store (deepwiki/internal/task/store.go): the `tasks` table as a map of rows that guarded updates change in place.
 Every call takes the outcome its database access has, because a failing call may or may not have had its effect.
 */
module TaskStore {
  import opened Options
  import opened TaskModel
  import opened TaskRows
  import opened Protocol
  import opened Outcomes

  /** What the caller is told: a database error hides everything else. */
  function Told(out: StoreOut, e: Option<StoreError>): Option<StoreError> {
    if out.Done? then e else Some(Unavailable)
  }

  /** The SET list of `UpdateState`, column by column; only the columns a patch names change. */
  method Columns(cur: Row, patch: TaskPatch, finished: Option<nat>, now: nat) returns (row: Row)
    ensures row.typ == cur.typ && row.cancelFlag == cur.cancelFlag && row.createdAt == cur.createdAt && row.updatedAt == now
    ensures row.state == Or(patch.state, cur.state) && row.progress == Or(patch.progress, cur.progress)
    ensures row.err == if patch.clearErr then None else if patch.err.Some? then patch.err else cur.err
    ensures row.queuePosition == Or(patch.queuePosition, cur.queuePosition)
    ensures row.startedAt == if patch.startedAt.Some? then patch.startedAt else cur.startedAt
    ensures row.finishedAt == if finished.Some? then finished else cur.finishedAt
  {
    row := cur.(updatedAt := now);
    if patch.state.Some? {
      row := row.(state := patch.state.value);
    }
    if patch.progress.Some? {
      row := row.(progress := patch.progress.value);
    }
    if patch.clearErr {
      row := row.(err := None);
    } else if patch.err.Some? {
      row := row.(err := patch.err);
    }
    if patch.queuePosition.Some? {
      row := row.(queuePosition := patch.queuePosition.value);
    }
    if patch.startedAt.Some? {
      row := row.(startedAt := patch.startedAt);
    }
    if finished.Some? {
      row := row.(finishedAt := finished);
    }
  }

  class TaskTable {
    var rows: map<TaskId, Row>
    var clock: nat

    constructor ()
      ensures rows == map[] && clock == 0
    {
      rows := map[];
      clock := 0;
    }

    /** `Create` inserts; the primary key refuses a second row. */
    method Create(t: TaskId, r: Row, out: StoreOut) returns (err: Option<StoreError>)
      modifies `rows
      ensures rows == if t in old(rows) || out.ErrLost? then old(rows) else old(rows)[t := r]
      ensures err == Told(out, if t in old(rows) then Some(AlreadyExists) else None)
    {
      if out.ErrLost? {
        return Some(Unavailable);
      }
      var taken := t in rows;
      if !taken {
        rows := rows[t := r];
      }
      err := if out.ErrApplied? then Some(Unavailable) else if taken then Some(AlreadyExists) else None;
    }

    method Get(t: TaskId, out: StoreOut) returns (row: Option<Row>, err: Option<StoreError>)
      ensures err == Told(out, if t in rows then None else Some(NotFound))
      ensures row == if out.Done? && t in rows then Some(rows[t]) else None
    {
      if !out.Done? {
        return None, Some(Unavailable);
      }
      if t !in rows {
        return None, Some(NotFound);
      }
      return Some(rows[t]), None;
    }

    /** `UpdateState`: the row is locked, the transition checked, the columns of the patch collected and written at once. */
    method UpdateState(t: TaskId, patch: TaskPatch, out: StoreOut) returns (err: Option<StoreError>)
      modifies `rows
      ensures t !in old(rows) ==> rows == old(rows) && err == Told(out, Some(NotFound))
      ensures t in old(rows) ==>
                && rows == old(rows)[t := Kept(out, old(rows)[t], RowAfter(old(rows)[t], patch, clock))]
                && err == Told(out, match Patched(old(rows)[t], patch, clock) case Written(_) => None case Refused(e) => Some(e))
    {
      if out.ErrLost? {
        assert t in rows ==> rows[t := rows[t]] == rows;
        return Some(Unavailable);
      }
      if t !in rows {
        return Told(out, Some(NotFound));
      }
      var cur := rows[t];
      assert rows[t := cur] == rows;
      var finished := patch.finishedAt;
      if patch.state.Some? {
        if patch.state.value != cur.state && !CanTransition(cur.state, patch.state.value) {
          return Told(out, Some(InvalidTaskState));
        }
        if patch.state.value.IsTerminal() && patch.finishedAt.None? {
          finished := Some(clock);
        }
        if patch.state.value.Failed? && patch.err.None? {
          return Told(out, Some(FailedNeedsErr));
        }
      }
      var row := Columns(cur, patch, finished, clock);
      rows := rows[t := row];
      err := Told(out, None);
    }

    method SetCancelFlag(t: TaskId, out: StoreOut) returns (err: Option<StoreError>)
      modifies `rows
      ensures t !in old(rows) ==> rows == old(rows)
      ensures t in old(rows) ==> rows == old(rows)[t := Kept(out, old(rows)[t], Flagged(old(rows)[t], clock))]
      ensures t in old(rows) && !out.ErrLost? ==> rows == old(rows)[t := old(rows)[t].(cancelFlag := true, updatedAt := clock)]
      ensures err == Told(out, if t in old(rows) then None else Some(NotFound))
    {
      var affected := t in rows;
      if affected && !out.ErrLost? {
        rows := rows[t := rows[t].(cancelFlag := true, updatedAt := clock)];
      }
      err := Told(out, if affected then None else Some(NotFound));
    }

    /** `ClaimPending`: compare-and-set from pending to the type's first state; the answer says whether this caller won. */
    method ClaimPending(t: TaskId, to: TaskState, out: StoreOut) returns (claimed: bool, err: Option<StoreError>)
      requires CanTransition(Pending, to)
      modifies `rows
      ensures t !in old(rows) ==> rows == old(rows)
      ensures t in old(rows) ==> rows == old(rows)[t := Kept(out, old(rows)[t], Claimed(old(rows)[t], to, clock))]
      ensures !out.ErrLost? && t in old(rows) && old(rows)[t].state.Pending? ==>
                rows == old(rows)[t := old(rows)[t].(state := to, startedAt := Some(clock), updatedAt := clock)]
      ensures out.ErrLost? || t !in old(rows) || !old(rows)[t].state.Pending? ==> rows == old(rows)
      ensures err == Told(out, None)
      ensures claimed <==> out.Done? && t in old(rows) && old(rows)[t].state.Pending?
    {
      var affected := t in rows && rows[t].state.Pending?;
      if affected && !out.ErrLost? {
        rows := rows[t := rows[t].(state := to, startedAt := Some(clock), updatedAt := clock)];
      }
      claimed := affected && out.Done?;
      err := Told(out, None);
    }

    /** `ResetToPending`: any unfinished row; a finished one counts as not found. */
    method ResetToPending(t: TaskId, out: StoreOut) returns (err: Option<StoreError>)
      modifies `rows
      ensures t !in old(rows) ==> rows == old(rows)
      ensures t in old(rows) ==> rows == old(rows)[t := Kept(out, old(rows)[t], ResetPending(old(rows)[t], clock))]
      ensures t in old(rows) ==> Wrote(old(rows), t, old(rows)[t].(state := Pending, updatedAt := clock), out, rows)
      ensures err == Told(out, if t in old(rows) && !old(rows)[t].state.IsTerminal() then None else Some(NotFound))
    {
      var affected := t in rows && !rows[t].state.IsTerminal();
      if affected && !out.ErrLost? {
        rows := rows[t := rows[t].(state := Pending, updatedAt := clock)];
      }
      err := Told(out, if affected then None else Some(NotFound));
    }

    /** `FailTask` bypasses the transition table but not the guard on finished rows. */
    method FailTask(t: TaskId, e: TaskError, out: StoreOut) returns (err: Option<StoreError>)
      modifies `rows
      ensures t !in old(rows) ==> rows == old(rows)
      ensures t in old(rows) ==> rows == old(rows)[t := Kept(out, old(rows)[t], FailedWith(old(rows)[t], e, clock))]
      ensures t in old(rows) ==>
                Wrote(old(rows), t, old(rows)[t].(state := Failed, err := Some(e), finishedAt := Some(clock), updatedAt := clock), out, rows)
      ensures err == Told(out, if t in old(rows) && !old(rows)[t].state.IsTerminal() then None else Some(NotFound))
    {
      var affected := t in rows && !rows[t].state.IsTerminal();
      if affected && !out.ErrLost? {
        rows := rows[t := rows[t].(state := Failed, err := Some(e), finishedAt := Some(clock), updatedAt := clock)];
      }
      err := Told(out, if affected then None else Some(NotFound));
    }

    /** `ResetStaleRunning`: one statement over all running rows without a recent heartbeat; it refreshes `updated_at`. */
    method ResetStaleRunning(staleBefore: int, out: StoreOut) returns (count: nat, err: Option<StoreError>)
      modifies `rows
      ensures rows == if out.ErrLost? then old(rows) else map t | t in old(rows) :: ResetIfStale(old(rows)[t], staleBefore, clock)
      ensures StaleAreReset(old(rows), staleBefore, clock, out, rows)
      ensures err == Told(out, None)
      ensures out.Done? ==> count == |set t | t in old(rows) && StaleRunning(old(rows)[t], staleBefore)|
    {
      var stale := set t | t in rows && StaleRunning(rows[t], staleBefore);
      if !out.ErrLost? {
        rows := map t | t in rows :: if t in stale then rows[t].(state := Pending, updatedAt := clock) else rows[t];
      }
      count := if out.Done? then |stale| else 0;
      err := Told(out, None);
    }

    /** `FindStale` (`all` false) and `FindInterrupted` (`all` true): every matching row once, oldest first. */
    method Find(staleBefore: int, all: bool) returns (order: seq<TaskId>)
      ensures Lists(rows, staleBefore, all, order)
      ensures Unfinished(rows, staleBefore, all, order)
    {
      var rest := set t | t in rows && Picked(rows[t], staleBefore, all);
      ghost var picked := rest;
      order := [];
      while rest != {}
        invariant rest <= picked && (forall t :: t in order <==> t in picked && t !in rest)
        invariant forall i, j :: 0 <= i < j < |order| ==> order[i] != order[j]
        invariant forall i :: 0 <= i < |order| ==> order[i] in rows
        invariant forall i, j :: 0 <= i < j < |order| ==> rows[order[i]].createdAt <= rows[order[j]].createdAt
        invariant forall i, t :: 0 <= i < |order| && t in rest ==> rows[order[i]].createdAt <= rows[t].createdAt
        decreases rest
      {
        OldestExists(rows, rest);
        var t :| t in rest && forall u :: u in rest ==> rows[t].createdAt <= rows[u].createdAt;
        order := order + [t];
        rest := rest - {t};
      }
    }
  }

  lemma {:induction false} OldestExists(rows: map<TaskId, Row>, ts: set<TaskId>)
    requires ts != {} && ts <= rows.Keys
    ensures exists t :: t in ts && forall u :: u in ts ==> rows[t].createdAt <= rows[u].createdAt
    decreases ts
  {
    var t :| t in ts;
    if ts == {t} {
      assert forall u :: u in ts ==> u == t;
    } else {
      OldestExists(rows, ts - {t});
      var o :| o in ts - {t} && forall u :: u in ts - {t} ==> rows[o].createdAt <= rows[u].createdAt;
      var best := if rows[t].createdAt <= rows[o].createdAt then t else o;
      assert forall u :: u in ts ==> rows[best].createdAt <= rows[u].createdAt;
    }
  }
}
