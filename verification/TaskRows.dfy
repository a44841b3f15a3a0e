/**
 The guarded row updates of the `tasks` table (deepwiki/internal/task/store.go), as functions on one row.
 Each SQL `UPDATE ... WHERE` is one atomic function; `now` is the database clock.
 */
module TaskRows {
  import opened Options
  import opened TaskModel

  datatype Row = Row(
    typ: TaskType,
    state: TaskState,
    progress: Progress,
    err: Option<TaskError>,
    queuePosition: int,
    cancelFlag: bool,
    createdAt: nat,
    startedAt: Option<nat>,
    finishedAt: Option<nat>,
    updatedAt: nat)

  datatype TaskPatch = TaskPatch(
    state: Option<TaskState>,
    progress: Option<Progress>,
    err: Option<TaskError>,
    clearErr: bool,
    queuePosition: Option<int>,
    startedAt: Option<nat>,
    finishedAt: Option<nat>)

  const EMPTY_PATCH := TaskPatch(None, None, None, false, None, None, None)

  datatype StoreError = NotFound | InvalidTaskState | FailedNeedsErr | AlreadyExists | Unavailable

  datatype RowResult = Written(row: Row) | Refused(error: StoreError)

  const NO_PROGRESS := Progress(0, 0, 0)

  function PendingRow(tt: TaskType, position: int, now: nat): Row {
    Row(tt, Pending, NO_PROGRESS, None, position, false, now, None, None, now)
  }

  /** A task refused because the queue is full is inserted directly in its final state. */
  function RejectedRow(tt: TaskType, e: TaskError, now: nat): Row {
    Row(tt, Failed, NO_PROGRESS, Some(e), 0, false, now, None, Some(now), now)
  }

  /** `UpdateState`: the guard first, then the columns of the patch. */
  function Patched(r: Row, p: TaskPatch, now: nat): RowResult {
    if p.state.Some? && p.state.value != r.state && !CanTransition(r.state, p.state.value) then
      Refused(InvalidTaskState)
    else if p.state.Some? && p.state.value.Failed? && p.err.None? then
      Refused(FailedNeedsErr)
    else
      var finish := if p.state.Some? && p.state.value.IsTerminal() && p.finishedAt.None? then Some(now) else p.finishedAt;
      Written(r.(
        state := Or(p.state, r.state),
        progress := Or(p.progress, r.progress),
        err := if p.clearErr then None else if p.err.Some? then p.err else r.err,
        queuePosition := Or(p.queuePosition, r.queuePosition),
        startedAt := if p.startedAt.Some? then p.startedAt else r.startedAt,
        finishedAt := if finish.Some? then finish else r.finishedAt,
        updatedAt := now))
  }

  function Or<T>(o: Option<T>, d: T): T {
    match o
    case Some(v) => v
    case None => d
  }

  function Claimed(r: Row, to: TaskState, now: nat): Row {
    if r.state.Pending? then r.(state := to, startedAt := Some(now), updatedAt := now) else r
  }

  function ResetPending(r: Row, now: nat): Row {
    if r.state.IsTerminal() then r else r.(state := Pending, updatedAt := now)
  }

  function FailedWith(r: Row, e: TaskError, now: nat): Row {
    if r.state.IsTerminal() then r
    else r.(state := Failed, err := Some(e), finishedAt := Some(now), updatedAt := now)
  }

  function Flagged(r: Row, now: nat): Row {
    r.(cancelFlag := true, updatedAt := now)
  }

  predicate StaleRunning(r: Row, staleBefore: int) {
    r.state.IsRunning() && r.updatedAt < staleBefore
  }

  predicate Stale(r: Row, staleBefore: int) {
    !r.state.IsTerminal() && r.updatedAt < staleBefore
  }

  function ResetIfStale(r: Row, staleBefore: int, now: nat): Row {
    if StaleRunning(r, staleBefore) then r.(state := Pending, updatedAt := now) else r
  }

  /** What every row keeps: its state fits its type, `finished_at` marks exactly the terminal rows, failures explain themselves. */
  predicate RowOk(r: Row) {
    && Belongs(r.typ, r.state)
    && !r.typ.Other?
    && (r.state.IsTerminal() <==> r.finishedAt.Some?)
    && (r.state.Failed? ==> r.err.Some?)
  }

  /** What no writer may do to a row: change its type, lower its cancel flag, or leave a terminal state. */
  predicate Grows(r: Row, r': Row) {
    && r'.typ == r.typ
    && (r.cancelFlag ==> r'.cancelFlag)
    && (r.state.IsTerminal() ==> r'.state == r.state)
  }

  /** A patch as the callers build it: the store's own comment calls `Err` and `ClearErr` mutually exclusive. */
  predicate SanePatch(p: TaskPatch) {
    && (p.finishedAt.Some? ==> p.state.Some? && p.state.value.IsTerminal())
    && !(p.clearErr && p.err.Some?)
    && (p.clearErr ==> p.state.Some?)
  }

  /**
   `UpdateState` keeps a row well formed for every sane patch whose state is one the row's own
   type can reach, and never moves a terminal row.
   */
  lemma PatchedKeepsRow(r: Row, p: TaskPatch, now: nat)
    requires RowOk(r) && SanePatch(p)
    requires p.state.Some? ==> Belongs(r.typ, p.state.value)
    ensures Patched(r, p, now).Written? ==> RowOk(Patched(r, p, now).row) && Grows(r, Patched(r, p, now).row)
  {
    if Patched(r, p, now).Written? && p.state.Some? && p.state.value != r.state {
      assert r.state.IsTerminal() ==> ValidTransitions(r.state) == {};
    }
  }

  /** The mutual exclusion is needed: with both set, the row ends up failed without an error record. */
  lemma ClearErrLosesTheError(r: Row, e: TaskError, now: nat)
    requires r.state.IsRunning()
    ensures var p := EMPTY_PATCH.(state := Some(Failed), err := Some(e), clearErr := true);
            Patched(r, p, now).Written? && Patched(r, p, now).row.state.Failed? && Patched(r, p, now).row.err.None?
  {
    assert Failed in ValidTransitions(r.state);
  }
}
