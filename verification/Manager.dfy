/**
 The task manager (deepwiki/internal/task/manager.go), the dead-letter consumer (dlq.go), the pool's panic guard (pool.go)
 and the reconciler (deepwiki/internal/queue/reconciler.go) as methods on a store and a broker that they change call by call.
 The manager keeps, as ghost history, the run of the delivery protocol its calls amount to: every method extends that run by
 steps of its own, so whatever holds of every run holds of what these methods do to the real fields.
 */
module Manager {
  import opened Options
  import opened TaskModel
  import opened TaskRows
  import opened Protocol
  import opened ProtocolInvariant
  import opened ProtocolSafety
  import opened ProtocolShapes
  import opened Delivery
  import opened Queues
  import opened TaskStore
  import opened Outcomes

  /** One call an executor makes on the store, and the outcome it gets. */
  datatype ExecCall =
    | NextStage(p: Progress, out: StoreOut)
    | SameStage(p: Progress, out: StoreOut)
    | Heartbeat(out: StoreOut)

  /** How an executor ends, unless a report has already failed. */
  datatype ExecEnd = Succeeds | FailsStage(e: TaskError, out: StoreOut) | IsCancelled | Errs | Panics

  /** The environment of one dispatch: the outcome of every call it may make. */
  datatype Fate = Fate(
    claim: StoreOut,
    load: StoreOut,
    calls: seq<ExecCall>,
    end: ExecEnd,
    finish: StoreOut,
    fail: StoreOut,
    reset: StoreOut,
    retry: PubOut,
    dlq: PubOut)

  /** A moment in the history. */
  datatype Mark = Mark(states: seq<State>, steps: seq<Step>)

  datatype SubmitError = InvalidType | RefreshConflict | LockUnavailable | QueueFull | NotStored | QueueUnavailable

  /** The repository's refresh lock: acquired, held by another refresh, or not to be had. */
  datatype LockAnswer = Acquired | HeldByOther | NoLock

  datatype CancelError = CancelNotFound | CancelInvalidState | CancelUnavailable

  const QUEUE_FULL := TaskError(42902, "pending")
  const QUEUE_UNAVAILABLE := TaskError(50302, "pending")
  const NO_EXECUTOR := TaskError(50001, "")
  const EXHAUSTED := TaskError(50003, "failed")

  class Manager {
    const cfg: Config
    const store: TaskTable
    const broker: Broker
    ghost var states: seq<State>
    ghost var steps: seq<Step>

    /** The recorded history is a run from the empty system, and its last state is what the store and the broker hold. */
    ghost predicate Valid()
      reads this, store, broker
    {
      && states != [] && Run(cfg, states, steps) && states[0] == INIT
      && Sys().rows == store.rows && Sys().clock == store.clock
      && Sys().msgs == broker.msgs && Sys().next == broker.next
    }

    ghost function Sys(): State
      requires states != []
      reads this
    {
      states[|states| - 1]
    }

    constructor (cfg: Config)
      ensures Valid() && fresh(store) && fresh(broker) && this.cfg == cfg && Sys() == INIT
    {
      this.cfg := cfg;
      store := new TaskTable();
      broker := new Broker();
      states := [INIT];
      steps := [];
    }

    /** Adds one step to the history. */
    ghost method Record(step: Step)
      requires Run(cfg, states, steps) && states[0] == INIT && Enabled(Sys(), step)
      modifies `states, `steps
      ensures Run(cfg, states, steps) && states[0] == INIT
      ensures states == old(states) + [Apply(cfg, old(Sys()), step)] && steps == old(steps) + [step]
    {
      hide Enabled, Apply;
      var s' := Apply(cfg, Sys(), step);
      states, steps := states + [s'], steps + [step];
    }

    /** Worker `w` works on delivery `d` and has come to `pc`. */
    ghost predicate On(w: nat, d: Worker, pc: Pc)
      requires states != []
      reads this
    {
      w in Sys().workers && Sys().workers[w] == d.(pc := pc)
    }

    /** Since `mark`, the history has only grown, and only by moves of worker `w` with the outcomes it was given. */
    ghost predicate Since(mark: Mark, w: nat, fate: Fate)
      reads this
    {
      && mark.states <= states && mark.steps <= steps
      && OwnMoves(steps[|mark.steps|..], w, fate)
    }

    /** Records a worker's move whose effect on the rows and queues has just been carried out. */
    ghost method Moved(w: nat, d: Worker, mv: WorkerMove, e: Effect, mark: Mark, fate: Fate)
      requires Run(cfg, states, steps) && states[0] == INIT && WorkEnabled(Sys(), w, mv)
      requires e.ending.At? && Sys().workers[w] == d.(pc := Sys().workers[w].pc) && Since(mark, w, fate) && Follows(mv, fate)
      requires e == EffectOf(cfg, w, Sys().workers[w], Sys().rows[d.task], Sys().hist[d.task], Sys().clock, mv)
      requires store.rows == Sys().rows[d.task := e.row] && store.clock == Sys().clock
      requires broker.msgs == if e.sent.Some? then Sys().msgs[Sys().next := e.sent.value] else Sys().msgs
      requires broker.next == if e.sent.Some? then Sys().next + 1 else Sys().next
      modifies `states, `steps
      ensures Valid() && On(w, d, e.ending.pc) && Since(mark, w, fate)
    {
      MoveShape(cfg, Sys(), w, mv, e);
      hide Work, EffectOf, WorkEnabled, Follows;
      Record(Working(w, mv));
    }

    /** Records a worker's final move. */
    ghost method Settled(w: nat, mv: WorkerMove, mark: Mark, fate: Fate)
      requires Run(cfg, states, steps) && states[0] == INIT && WorkEnabled(Sys(), w, mv) && (mv.Ack? || mv.Nack?)
      requires store.rows == Sys().rows && store.clock == Sys().clock && broker.next == Sys().next && Since(mark, w, fate)
      requires var m := Sys().workers[w].mid;
               broker.msgs == if !(m in Sys().msgs && Sys().msgs[m].place == Held(w)) then Sys().msgs
                              else if mv.Nack? then Sys().msgs[m := Sys().msgs[m].(place := InDlq)] else Sys().msgs - {m}
      modifies `states, `steps
      ensures Valid() && w !in Sys().workers && Since(mark, w, fate)
    {
      SettleShape(cfg, Sys(), w, mv);
      hide Work, WorkEnabled;
      Record(Working(w, mv));
    }

    /** What the run so far says about a worker's task. */
    lemma Known(w: nat, d: Worker, pc: Pc)
      requires Valid() && On(w, d, pc)
      ensures d.task in Sys().rows && d.task in Sys().hist && d.task in store.rows
      ensures PcOk(cfg, w, Sys().workers[w], Sys().rows[d.task], Sys().hist[d.task])
      ensures store.rows[d.task := store.rows[d.task]] == store.rows
    {
      RunInv(cfg, states, steps, |states| - 1);
      InvGivesWorker(cfg, Sys(), w);
    }

    lemma KnownStages(w: nat, d: Worker, tt: TaskType, at: nat)
      requires Valid() && On(w, d, Executing(tt, at))
      ensures Stages(tt) != []
    {
      RunInv(cfg, states, steps, |states| - 1);
      InvGivesWorker(cfg, Sys(), w);
    }

    /** The effect of a move on the task of delivery `d`, in the present state. */
    ghost function Effecting(w: nat, d: Worker, mv: WorkerMove): Effect
      requires states != [] && w in Sys().workers && d.task in Sys().rows && d.task in Sys().hist && MoveEnabled(Sys().workers[w], mv)
      reads this
    {
      EffectOf(cfg, w, Sys().workers[w], Sys().rows[d.task], Sys().hist[d.task], Sys().clock, mv)
    }

    /** `Ack`, or `Nack` without requeue, which dead-letters. */
    method Finish(w: nat, d: Worker, ack: bool, ghost mark: Mark, ghost fate: Fate)
      requires Valid() && On(w, d, if ack then Acking else Nacking) && Since(mark, w, fate)
      modifies broker`msgs, `states, `steps
      ensures Valid() && w !in Sys().workers && Since(mark, w, fate)
      ensures broker.msgs == if ack then Acked(old(broker.msgs), d.mid, w) else DeadLettered(old(broker.msgs), d.mid, w)
    {
      Known(w, d, if ack then Acking else Nacking);
      broker.Settle(d.mid, w, if ack then None else Some(InDlq));
      Settled(w, if ack then Ack else Nack, mark, fate);
    }

    // ---------- resetAndRetry ----------

    method Reset(w: nat, d: Worker, fate: Fate, ghost mark: Mark) returns (ok: bool)
      requires Valid() && On(w, d, Resetting) && Since(mark, w, fate)
      modifies store`rows, `states, `steps
      ensures Valid() && On(w, d, if ok then Republishing else Nacking) && Since(mark, w, fate)
      ensures d.task in old(store.rows) && var r := old(store.rows)[d.task];
                (ok <==> fate.reset.Done? && !r.state.IsTerminal())
                && Wrote(old(store.rows), d.task, r.(state := Pending, updatedAt := store.clock), fate.reset, store.rows)
    {
      Known(w, d, Resetting);
      ghost var e := Effecting(w, d, WorkerMove.Reset(fate.reset));
      var err := store.ResetToPending(d.task, fate.reset);
      ok := err.None?;
      Moved(w, d, WorkerMove.Reset(fate.reset), e, mark, fate);
    }

    method Republish(w: nat, d: Worker, fate: Fate, ghost mark: Mark) returns (ok: bool)
      requires Valid() && On(w, d, Republishing) && Since(mark, w, fate)
      modifies broker`msgs, broker`next, `states, `steps
      ensures Valid() && On(w, d, if ok then Acking else Nacking) && Since(mark, w, fate)
      ensures var g := if d.retry < 3 then Message(d.task, d.typ, d.retry + 1, d.root, InRetry(d.retry))
                       else Message(d.task, d.typ, 0, d.root, InDlq);
              (ok <==> fate.retry.Confirmed?) && broker.msgs == With(old(broker.msgs), old(broker.next), g, fate.retry)
    {
      Known(w, d, Republishing);
      ghost var e := Effecting(w, d, WorkerMove.Republish(fate.retry));
      ok := broker.PublishRetry(d, d.retry, fate.retry);
      Moved(w, d, WorkerMove.Republish(fate.retry), e, mark, fate);
    }

    method GiveUp(w: nat, d: Worker, fate: Fate, ghost mark: Mark)
      requires Valid() && On(w, d, Exhausted) && Since(mark, w, fate)
      modifies store`rows, broker`msgs, broker`next, `states, `steps
      ensures Valid() && On(w, d, Acking) && Since(mark, w, fate)
      ensures d.task in old(store.rows) && var r := old(store.rows)[d.task];
                Wrote(old(store.rows), d.task, r.(state := Failed, err := Some(EXHAUSTED), finishedAt := Some(store.clock), updatedAt := store.clock),
                      fate.fail, store.rows)
      ensures broker.msgs == With(old(broker.msgs), old(broker.next), Message(d.task, d.typ, 0, d.root, InDlq), fate.dlq)
    {
      Known(w, d, Exhausted);
      ghost var e := Effecting(w, d, FailExhausted(EXHAUSTED, fate.fail));
      var _ := store.FailTask(d.task, EXHAUSTED, fate.fail);
      Moved(w, d, FailExhausted(EXHAUSTED, fate.fail), e, mark, fate);
      Known(w, d, DeadLettering);
      ghost var e' := Effecting(w, d, DeadLetter(fate.dlq));
      var _ := broker.PublishToDlq(d, fate.dlq);
      Moved(w, d, DeadLetter(fate.dlq), e', mark, fate);
    }

    /** What an attempt that ended in an error leaves: another attempt below the bound, and a failed task at it. */
    ghost predicate RetriedOrGivenUp(rows: map<TaskId, Row>, msgs: map<nat, Message>, next: nat, d: Worker, w: nat, fate: Fate)
      requires d.task in rows
      reads this, store, broker
    {
      if d.retry < cfg.maxRetries then Retried(rows, msgs, next, store.clock, d, w, fate.reset, fate.retry, store.rows, broker.msgs)
      else GivenUp(rows, msgs, next, store.clock, d, w, EXHAUSTED, fate.fail, fate.dlq, store.rows, broker.msgs)
    }

    /** `resetAndRetry`: reset the row, then publish, then acknowledge; a failure on the way dead-letters, and so does the last attempt. */
    method ResetAndRetry(w: nat, d: Worker, fate: Fate, ghost mark: Mark)
      requires Valid() && On(w, d, AfterError(cfg, d.retry)) && Since(mark, w, fate)
      modifies store`rows, broker`msgs, broker`next, `states, `steps
      ensures Valid() && w !in Sys().workers && Since(mark, w, fate)
      ensures d.task in old(store.rows) && RetriedOrGivenUp(old(store.rows), old(broker.msgs), old(broker.next), d, w, fate)
    {
      hide Valid, Since;
      if d.retry < cfg.maxRetries {
        var ok := Reset(w, d, fate, mark);
        if !ok {
          Finish(w, d, false, mark, fate);
          return;
        }
        ok := Republish(w, d, fate, mark);
        Finish(w, d, ok, mark, fate);
        return;
      }
      GiveUp(w, d, fate, mark);
      Finish(w, d, true, mark, fate);
    }

    // ---------- the executor, as the manager sees it ----------

    /** One call of an executor; a refused or failing report ends the execution with an error. */
    method Call(w: nat, d: Worker, tt: TaskType, at: nat, call: ExecCall, fate: Fate, ghost mark: Mark) returns (at': nat, ok: bool)
      requires Valid() && On(w, d, Executing(tt, at)) && Since(mark, w, fate) && call in fate.calls && at <= |Stages(tt)|
      modifies store`rows, `states, `steps
      ensures at' <= |Stages(tt)|
      ensures Valid() && On(w, d, if ok then Executing(tt, at') else AfterError(cfg, d.retry)) && Since(mark, w, fate)
      ensures OnlyRow(old(store.rows), d.task, store.rows)
    {
      Known(w, d, Executing(tt, at));
      SameRows(store.rows, d.task);
      at', ok := at, true;
      match call {
        case NextStage(p, out) =>
          if at < |Stages(tt)| {
            ok := Report(w, d, tt, at, p, out, fate, mark);
            if ok { at' := at + 1; }
          }
        case SameStage(p, out) =>
          if tt.Wiki? && at == 2 {
            ok := ReportAgain(w, d, tt, p, out, fate, mark);
          }
        case Heartbeat(out) =>
          Touch(w, d, tt, at, out, fate, mark);
      }
    }

    method Report(w: nat, d: Worker, tt: TaskType, at: nat, p: Progress, out: StoreOut, fate: Fate, ghost mark: Mark) returns (ok: bool)
      requires Valid() && On(w, d, Executing(tt, at)) && Since(mark, w, fate) && NextStage(p, out) in fate.calls && at < |Stages(tt)|
      modifies store`rows, `states, `steps
      ensures Valid() && On(w, d, if ok then Executing(tt, at + 1) else AfterError(cfg, d.retry)) && Since(mark, w, fate)
      ensures OnlyRow(old(store.rows), d.task, store.rows)
      ensures ok ==> Reported(old(store.rows), d.task, Stages(tt)[at], p, store.clock, store.rows)
      ensures !ok && !out.ErrApplied? ==> store.rows == old(store.rows)
    {
      hide Stages, Patched, RowAfter;
      Known(w, d, Executing(tt, at));
      StagesAreLegal(tt, at);
      ReportShape(store.rows, d.task, Stages(tt)[at], p, store.clock);
      ghost var e := Effecting(w, d, WorkerMove.Report(p, out));
      var err := store.UpdateState(d.task, ReportPatch(Stages(tt)[at], p), out);
      ok := err.None?;
      Moved(w, d, WorkerMove.Report(p, out), e, mark, fate);
    }

    method ReportAgain(w: nat, d: Worker, tt: TaskType, p: Progress, out: StoreOut, fate: Fate, ghost mark: Mark) returns (ok: bool)
      requires Valid() && On(w, d, Executing(tt, 2)) && Since(mark, w, fate) && SameStage(p, out) in fate.calls && tt.Wiki?
      modifies store`rows, `states, `steps
      ensures Valid() && On(w, d, if ok then Executing(tt, 2) else AfterError(cfg, d.retry)) && Since(mark, w, fate)
      ensures OnlyRow(old(store.rows), d.task, store.rows)
      ensures ok ==> Reported(old(store.rows), d.task, Generating, p, store.clock, store.rows)
      ensures !ok && !out.ErrApplied? ==> store.rows == old(store.rows)
    {
      hide Stages, Patched, RowAfter;
      Known(w, d, Executing(tt, 2));
      ReportShape(store.rows, d.task, Generating, p, store.clock);
      ghost var e := Effecting(w, d, Repeat(p, out));
      var err := store.UpdateState(d.task, ReportPatch(Generating, p), out);
      ok := err.None?;
      Moved(w, d, Repeat(p, out), e, mark, fate);
    }

    method Touch(w: nat, d: Worker, tt: TaskType, at: nat, out: StoreOut, fate: Fate, ghost mark: Mark)
      requires Valid() && On(w, d, Executing(tt, at)) && Since(mark, w, fate) && Heartbeat(out) in fate.calls
      modifies store`rows, `states, `steps
      ensures Valid() && On(w, d, Executing(tt, at)) && Since(mark, w, fate)
      ensures OnlyRow(old(store.rows), d.task, store.rows)
      ensures store.rows == if out.ErrLost? then old(store.rows) else old(store.rows)[d.task := old(store.rows)[d.task].(updatedAt := store.clock)]
    {
      hide Stages, Patched, RowAfter;
      Known(w, d, Executing(tt, at));
      BeatShape(store.rows[d.task], store.clock);
      ghost var e := Effecting(w, d, Beat(out));
      var _ := store.UpdateState(d.task, EMPTY_PATCH, out);
      Moved(w, d, Beat(out), e, mark, fate);
    }

    /** A move that only changes the program point. */
    ghost method Goes(w: nat, d: Worker, pc: Pc, mv: WorkerMove, pc': Pc, mark: Mark, fate: Fate)
      requires Valid() && On(w, d, pc) && Since(mark, w, fate) && MoveEnabled(d.(pc := pc), mv) && Follows(mv, fate)
      requires (mv.ReturnNil? && pc' == Acking) || (mv.ReturnCancelled? && pc' == Interrupted) || (mv.Panic? && pc' == Nacking)
            || (mv.ReturnError? && pc' == AfterError(cfg, d.retry)) || (mv.Reject? && pc' == Nacking)
      modifies `states, `steps
      ensures Valid() && On(w, d, pc') && Since(mark, w, fate)
    {
      hide Stages, Follows;
      Known(w, d, pc);
      Moved(w, d, mv, Effecting(w, d, mv), mark, fate);
    }

    method FailStage(w: nat, d: Worker, tt: TaskType, at: nat, e: TaskError, out: StoreOut, fate: Fate, ghost mark: Mark)
      requires Valid() && On(w, d, Executing(tt, at)) && Since(mark, w, fate) && fate.end == FailsStage(e, out) && 0 < at < |Stages(tt)|
      modifies store`rows, `states, `steps
      ensures Valid() && On(w, d, Acking) && Since(mark, w, fate)
      ensures OnlyRow(old(store.rows), d.task, store.rows)
      ensures !out.ErrLost? && old(store.rows)[d.task].state.IsRunning() ==>
                store.rows[d.task] == old(store.rows)[d.task].(state := Failed, err := Some(e), finishedAt := Some(store.clock), updatedAt := store.clock)
    {
      hide Stages, Patched, RowAfter;
      Known(w, d, Executing(tt, at));
      FailShape(store.rows[d.task], e, store.clock);
      ghost var eff := Effecting(w, d, StageFail(e, out));
      var _ := store.UpdateState(d.task, FailPatch(e, store.clock), out);
      Moved(w, d, StageFail(e, out), eff, mark, fate);
    }

    /** `Execute`: reports stage by stage; a business failure is written by the executor itself and returned as nil. */
    method Execute(w: nat, d: Worker, tt: TaskType, fate: Fate, ghost mark: Mark) returns (err: RunErr)
      requires Valid() && On(w, d, Executing(tt, 0)) && Since(mark, w, fate)
      modifies store`rows, `states, `steps
      ensures Valid() && On(w, d, match err
                                  case Nil => Acking
                                  case CancelError => Interrupted
                                  case OtherError => AfterError(cfg, d.retry)
                                  case Panicked => Nacking) && Since(mark, w, fate)
      ensures OnlyRow(old(store.rows), d.task, store.rows)
      ensures ReturnsAs(err, fate, old(store.rows), store.rows)
      ensures err.Nil? && fate.end.Succeeds? ==> store.rows[d.task].state.IsTerminal()
    {
      hide Since, Stages, Next, OnlyRow, OwnMoves;
      var at: nat := 0;
      Known(w, d, Executing(tt, 0));
      SameRows(store.rows, d.task);
      for i := 0 to |fate.calls|
        invariant OnlyRow(old(store.rows), d.task, store.rows) && (i == 0 ==> at == 0 && store.rows == old(store.rows))
        invariant Valid() && On(w, d, Executing(tt, at)) && Since(mark, w, fate) && at <= |Stages(tt)|
      {
        var ok;
        ghost var before := store.rows;
        at, ok := Call(w, d, tt, at, fate.calls[i], fate, mark);
        OnlyRowTwice(old(store.rows), d.task, before, store.rows);
        if !ok {
          return OtherError;
        }
      }
      if fate.end.Succeeds? && at == |Stages(tt)| {
        Known(w, d, Executing(tt, at));
        KnownStages(w, d, tt, at);
        Goes(w, d, Executing(tt, at), ReturnNil, Acking, mark, fate);
        return Nil;
      }
      if fate.end.FailsStage? && 0 < at < |Stages(tt)| {
        ghost var before := store.rows;
        FailStage(w, d, tt, at, fate.end.e, fate.end.out, fate, mark);
        OnlyRowTwice(old(store.rows), d.task, before, store.rows);
        return Nil;
      }
      if fate.end.IsCancelled? {
        Goes(w, d, Executing(tt, at), ReturnCancelled, Interrupted, mark, fate);
        return CancelError;
      }
      if fate.end.Panics? {
        Goes(w, d, Executing(tt, at), Panic, Nacking, mark, fate);
        return Panicked;
      }
      Goes(w, d, Executing(tt, at), ReturnError, AfterError(cfg, d.retry), mark, fate);
      return OtherError;
    }

    // ---------- dispatch ----------

    method Claim(w: nat, d: Worker, first: TaskState, fate: Fate, ghost mark: Mark) returns (claimed: bool, failed: bool)
      requires Valid() && On(w, d, Claiming) && Since(mark, w, fate) && FirstStateOf(d.typ) == Some(first)
      modifies store`rows, `states, `steps
      ensures Valid() && On(w, d, if failed then Nacking else if claimed then Loading else Acking) && Since(mark, w, fate)
      ensures d.task in old(store.rows) && var r := old(store.rows)[d.task];
                && (failed <==> !fate.claim.Done?) && (claimed <==> fate.claim.Done? && r.state.Pending?)
                && store.rows == if fate.claim.ErrLost? || !r.state.Pending? then old(store.rows)
                                 else old(store.rows)[d.task := r.(state := first, startedAt := Some(store.clock), updatedAt := store.clock)]
    {
      Known(w, d, Claiming);
      ghost var e := Effecting(w, d, WorkerMove.Claim(fate.claim));
      var err;
      claimed, err := store.ClaimPending(d.task, first, fate.claim);
      failed := err.Some?;
      Moved(w, d, WorkerMove.Claim(fate.claim), e, mark, fate);
    }

    method Load(w: nat, d: Worker, fate: Fate, ghost mark: Mark) returns (row: Option<Row>)
      requires Valid() && On(w, d, Loading) && Since(mark, w, fate)
      modifies `states, `steps
      ensures Valid() && Since(mark, w, fate)
      ensures On(w, d, match row
                       case None => AfterError(cfg, d.retry)
                       case Some(r) => if r.cancelFlag then Cancelling
                                       else if r.typ !in cfg.executors then Unregistered else Executing(r.typ, 0))
      ensures d.task in store.rows && row == if fate.load.Done? then Some(store.rows[d.task]) else None
    {
      Known(w, d, Loading);
      ghost var e := Effecting(w, d, WorkerMove.Load(fate.load));
      var err;
      row, err := store.Get(d.task, fate.load);
      Moved(w, d, WorkerMove.Load(fate.load), e, mark, fate);
    }

    /** `finishTerminal(cancelled)`; its error is ignored. */
    method FinishCancelled(w: nat, d: Worker, pc: Pc, fate: Fate, ghost mark: Mark)
      requires Valid() && On(w, d, pc) && (pc.Cancelling? || pc.Interrupted?) && Since(mark, w, fate)
      modifies store`rows, `states, `steps
      ensures Valid() && On(w, d, Acking) && Since(mark, w, fate)
      ensures d.task in old(store.rows) && CancelWritten(old(store.rows), d.task, store.clock, fate.finish, store.rows)
    {
      hide Patched, RowAfter;
      Known(w, d, pc);
      CancelShape(store.rows, d.task, store.clock, fate.finish);
      ghost var e := Effecting(w, d, WorkerMove.FinishCancelled(fate.finish));
      var _ := store.UpdateState(d.task, FinishPatch(store.clock), fate.finish);
      Moved(w, d, WorkerMove.FinishCancelled(fate.finish), e, mark, fate);
    }

    method FailUnregistered(w: nat, d: Worker, fate: Fate, ghost mark: Mark)
      requires Valid() && On(w, d, Unregistered) && Since(mark, w, fate)
      modifies store`rows, `states, `steps
      ensures Valid() && On(w, d, Acking) && Since(mark, w, fate)
      ensures d.task in old(store.rows) && var r := old(store.rows)[d.task];
                Wrote(old(store.rows), d.task, r.(state := Failed, err := Some(NO_EXECUTOR), finishedAt := Some(store.clock), updatedAt := store.clock),
                      fate.fail, store.rows)
    {
      Known(w, d, Unregistered);
      ghost var e := Effecting(w, d, WorkerMove.FailUnregistered(NO_EXECUTOR, fate.fail));
      var _ := store.FailTask(d.task, NO_EXECUTOR, fate.fail);
      Moved(w, d, WorkerMove.FailUnregistered(NO_EXECUTOR, fate.fail), e, mark, fate);
    }

    lemma ReportShape(rows: map<TaskId, Row>, t: TaskId, st: TaskState, p: Progress, now: nat)
      requires t in rows && !st.Failed?
      ensures rows[t := rows[t]] == rows
      ensures RowAfter(rows[t], ReportPatch(st, p), now) ==
                if Patched(rows[t], ReportPatch(st, p), now).Written?
                then rows[t].(state := st, progress := p, finishedAt := if st.IsTerminal() then Some(now) else rows[t].finishedAt, updatedAt := now)
                else rows[t]
    {
    }

    lemma BeatShape(r: Row, now: nat)
      ensures RowAfter(r, EMPTY_PATCH, now) == r.(updatedAt := now)
    {
    }

    lemma FailShape(r: Row, e: TaskError, now: nat)
      ensures r.state.IsRunning() ==>
                RowAfter(r, FailPatch(e, now), now) == r.(state := Failed, err := Some(e), finishedAt := Some(now), updatedAt := now)
    {
      assert r.state.IsRunning() ==> CanTransition(r.state, Failed);
    }

    lemma CancelShape(rows: map<TaskId, Row>, t: TaskId, now: nat, out: StoreOut)
      requires t in rows
      ensures CancelWritten(rows, t, now, out, rows[t := Kept(out, rows[t], RowAfter(rows[t], FinishPatch(now), now))])
    {
      assert rows[t := rows[t]] == rows;
      var st := rows[t].state;
      assert CanTransition(st, Cancelled) <==> !st.IsTerminal();
    }

    /**
     `dispatch` under the pool's panic guard: whatever its calls answer, the delivery is settled exactly once, at the end,
     and everything done on the way is a run of the protocol's worker with those answers.
     */
    method Dispatch(w: nat, d: Worker, fate: Fate) returns (ghost ran: Option<(RunErr, Row)>)
      requires Valid() && w in Sys().workers && Sys().workers[w] == d && d.pc == Claiming
      modifies store`rows, broker`msgs, broker`next, `states, `steps
      ensures Valid() && w !in Sys().workers && Since(Mark(old(states), old(steps)), w, fate)
      ensures d.task in old(store.rows) && Dispatched(old(store.rows), old(broker.msgs), old(broker.next), d, w, fate, ran)
      ensures forall m :: m in broker.msgs ==> broker.msgs[m].place != Held(w)
      ensures forall v :: v != w ==> (v in old(Sys().workers) <==> v in Sys().workers)
      ensures forall v :: v in old(Sys().workers) && v != w ==> Sys().workers[v] == old(Sys().workers[v])
    {
      ghost var mark := Mark(states, steps);
      ghost var s := Sys();
      assert mark.states[|mark.steps|] == s;
      ran := Body(w, d, fate, mark);
      hide Dispatched;
      Released(w);
      OthersWait(mark, w, fate);
      forall v | v != w ensures (v in s.workers <==> v in Sys().workers) && (v in s.workers ==> Sys().workers[v] == s.workers[v]) {
        assert SameWorker(s, Sys(), v);
      }
    }

    /** Moves of one worker leave every other worker where it is. */
    lemma OthersWait(mark: Mark, w: nat, fate: Fate)
      requires Valid() && Since(mark, w, fate) && |mark.states| == |mark.steps| + 1
      ensures forall v :: v != w ==> SameWorker(mark.states[|mark.steps|], Sys(), v)
    {
      hide Run, OwnMoves, SameWorker;
      forall v | v != w ensures SameWorker(mark.states[|mark.steps|], Sys(), v) {
        OwnSteps(mark, w, fate);
        OneWaits(cfg, states, steps, |mark.steps|, |steps|, w, v);
      }
    }

    lemma OwnSteps(mark: Mark, w: nat, fate: Fate)
      requires Valid() && Since(mark, w, fate) && |mark.states| == |mark.steps| + 1
      ensures |states| == |steps| + 1 && mark.states[|mark.steps|] == states[|mark.steps|]
      ensures forall i :: |mark.steps| <= i < |steps| ==> steps[i].Working? && steps[i].w == w
    {
      forall i | |mark.steps| <= i < |steps| ensures steps[i].Working? && steps[i].w == w {
        assert steps[i] == steps[|mark.steps|..][i - |mark.steps|];
      }
    }

    /**
     What a dispatch leaves, in columns: an unknown type or a claim that errs dead-letters the delivery, a lost one acknowledges it; a claimed task
     that cannot be read is tried again, a flagged one is cancelled, one without an executor failed; and an execution that left
     the row as `ran.1` is acknowledged, cancelled, tried again or dead-lettered as it returned.
     */
    ghost predicate Dispatched(rows: map<TaskId, Row>, msgs: map<nat, Message>, next: nat, d: Worker, w: nat, fate: Fate, ran: Option<(RunErr, Row)>)
      requires d.task in rows
      reads this, store, broker
    {
      var r := rows[d.task];
      var first := match d.typ case Ingest => Cloning case Refresh => Fetching case Wiki => Outlining case Other(_) => Pending;
      var claimed := rows[d.task := r.(state := first, startedAt := Some(store.clock), updatedAt := store.clock)];
      if d.typ.Other? then
        broker.msgs == DeadLettered(msgs, d.mid, w) && store.rows == rows
      else if !fate.claim.Done? then
        broker.msgs == DeadLettered(msgs, d.mid, w) && store.rows == if fate.claim.ErrLost? || !r.state.Pending? then rows else claimed
      else if !r.state.Pending? then
        broker.msgs == Acked(msgs, d.mid, w) && store.rows == rows
      else if !fate.load.Done? then
        RetriedOrGivenUp(claimed, msgs, next, d, w, fate)
      else if r.cancelFlag then
        broker.msgs == Acked(msgs, d.mid, w) && CancelWritten(claimed, d.task, store.clock, fate.finish, store.rows)
      else if r.typ !in cfg.executors then
        && broker.msgs == Acked(msgs, d.mid, w)
        && Wrote(claimed, d.task, claimed[d.task].(state := Failed, err := Some(NO_EXECUTOR), finishedAt := Some(store.clock)), fate.fail, store.rows)
      else
        ran.Some? && Ended(claimed, msgs, next, d, w, fate, ran.value.0, ran.value.1)
    }

    /** What follows an execution of the claimed row that returned `err` and left the row as `row`. */
    ghost predicate Ended(claimed: map<TaskId, Row>, msgs: map<nat, Message>, next: nat, d: Worker, w: nat, fate: Fate, err: RunErr, row: Row)
      requires d.task in claimed
      reads this, store, broker
    {
      var after := claimed[d.task := row];
      && ReturnsAs(err, fate, claimed, after) && (err.Nil? && fate.end.Succeeds? ==> row.state.IsTerminal())
      && match err
         case Nil => broker.msgs == Acked(msgs, d.mid, w) && store.rows == after
         case CancelError => broker.msgs == Acked(msgs, d.mid, w) && CancelWritten(after, d.task, store.clock, fate.finish, store.rows)
         case OtherError => RetriedOrGivenUp(after, msgs, next, d, w, fate)
         case Panicked => broker.msgs == DeadLettered(msgs, d.mid, w) && store.rows == after
    }

    /** The executor's run, and what its end leads to. */
    method RunExecutor(w: nat, d: Worker, tt: TaskType, fate: Fate, ghost mark: Mark) returns (ghost ran: (RunErr, Row))
      requires Valid() && On(w, d, Executing(tt, 0)) && Since(mark, w, fate)
      modifies store`rows, broker`msgs, broker`next, `states, `steps
      ensures Valid() && w !in Sys().workers && Since(mark, w, fate)
      ensures d.task in old(store.rows) && Ended(old(store.rows), old(broker.msgs), old(broker.next), d, w, fate, ran.0, ran.1)
    {
      hide Valid, Since, Stages, Retried, GivenUp, Acked, DeadLettered, ReturnsAs, CancelWritten;
      var err := Execute(w, d, tt, fate, mark);
      ran := (err, store.rows[d.task]);
      match err {
        case Nil =>
          Finish(w, d, true, mark, fate);
        case CancelError =>
          FinishCancelled(w, d, Interrupted, fate, mark);
          Finish(w, d, true, mark, fate);
        case OtherError =>
          ResetAndRetry(w, d, fate, mark);
        case Panicked =>
          Finish(w, d, false, mark, fate);
      }
    }

    method Body(w: nat, d: Worker, fate: Fate, ghost mark: Mark) returns (ghost ran: Option<(RunErr, Row)>)
      requires Valid() && On(w, d, Claiming) && Since(mark, w, fate)
      modifies store`rows, broker`msgs, broker`next, `states, `steps
      ensures Valid() && w !in Sys().workers && Since(mark, w, fate)
      ensures d.task in old(store.rows) && Dispatched(old(store.rows), old(broker.msgs), old(broker.next), d, w, fate, ran)
    {
      ran := None;
      Known(w, d, Claiming);
      hide Valid, Since, Stages, Retried, GivenUp, Acked, DeadLettered, ReturnsAs, CancelWritten, Ended;
      var first := FirstStateOf(d.typ);
      if first.None? {
        Goes(w, d, Claiming, Reject, Nacking, mark, fate);
        Finish(w, d, false, mark, fate);
        return;
      }
      var claimed, failed := Claim(w, d, first.value, fate, mark);
      if failed || !claimed {
        Finish(w, d, !failed, mark, fate);
        return;
      }
      var row := Load(w, d, fate, mark);
      if row.None? {
        ResetAndRetry(w, d, fate, mark);
        return;
      }
      if row.value.cancelFlag {
        FinishCancelled(w, d, Cancelling, fate, mark);
        Finish(w, d, true, mark, fate);
        return;
      }
      if row.value.typ !in cfg.executors {
        FailUnregistered(w, d, fate, mark);
        Finish(w, d, true, mark, fate);
        return;
      }
      ghost var end := RunExecutor(w, d, row.value.typ, fate, mark);
      ran := Some(end);
    }

    /** No message is held by a worker that is gone. */
    lemma Released(w: nat)
      requires Valid() && w !in Sys().workers
      ensures forall m :: m in broker.msgs ==> broker.msgs[m].place != Held(w)
    {
      RunInv(cfg, states, steps, |states| - 1);
      forall m | m in broker.msgs ensures broker.msgs[m].place != Held(w) {
        InvGivesMessage(cfg, Sys(), m);
      }
    }

    // ---------- the broker hands out a message ----------

    /** The history has grown since the given moment. */
    ghost predicate Grown(mark: Mark)
      reads this
    {
      mark.states <= states && mark.steps <= steps
    }

    /** Records a step that is not a worker's, once the fields show its effect. */
    ghost method Stepped(step: Step, mark: Mark)
      requires Run(cfg, states, steps) && states[0] == INIT && Enabled(Sys(), step) && Grown(mark)
      requires var s' := Apply(cfg, Sys(), step);
               s'.rows == store.rows && s'.clock == store.clock && s'.msgs == broker.msgs && s'.next == broker.next
      modifies `states, `steps
      ensures Valid() && Grown(mark) && Sys() == Apply(cfg, old(Sys()), step) && steps == old(steps) + [step]
    {
      hide Enabled, Apply;
      Record(step);
    }

    lemma KnownMessage(m: nat)
      requires Valid() && m in broker.msgs
      ensures broker.msgs[m].task in store.rows && m in Sys().msgs && Sys().msgs[m] == broker.msgs[m] && broker.msgs[m].task in Sys().rows
    {
      RunInv(cfg, states, steps, |states| - 1);
      InvGivesMessage(cfg, Sys(), m);
    }

    /** A message of the jobs queue is handed to a free worker, whatever other deliveries are out. */
    method Deliver(m: nat) returns (w: nat, d: Worker)
      requires Valid() && m in broker.msgs && broker.msgs[m].place.InJobs?
      modifies broker`msgs, broker`next, `states, `steps
      ensures Valid() && Grown(Mark(old(states), old(steps))) && steps == old(steps) + [Queueing(m, QueueMove.Deliver)]
      ensures w == old(broker.next) && w in Sys().workers && Sys().workers[w] == d && w !in old(Sys().workers)
      ensures var g := old(broker.msgs)[m]; d == Worker(m, g.task, g.typ, g.retry, g.root, Claiming) && broker.next == w + 1
      ensures broker.msgs == old(broker.msgs)[m := old(broker.msgs)[m].(place := Held(w))]
      ensures forall v :: v in old(Sys().workers) ==> v in Sys().workers && Sys().workers[v] == old(Sys().workers[v])
    {
      ghost var mark := Mark(states, steps);
      var g := broker.msgs[m];
      KnownMessage(m);
      KnownWorkers();
      w := broker.next;
      broker.msgs := broker.msgs[m := g.(place := Held(w))];
      broker.next := w + 1;
      d := Worker(m, g.task, g.typ, g.retry, g.root, Claiming);
      DeliverShape(Sys(), m);
      hide Queue;
      Stepped(Queueing(m, QueueMove.Deliver), mark);
    }

    lemma KnownWorkers()
      requires Valid()
      ensures forall w :: w in Sys().workers ==> w < broker.next
    {
      RunInv(cfg, states, steps, |states| - 1);
      forall w | w in Sys().workers ensures w < broker.next {
        InvGivesWorker(cfg, Sys(), w);
      }
    }

    /** `handleOne`: the next message of the jobs queue is delivered and dispatched; afterwards its delivery is settled. */
    method HandleOne(m: nat, fate: Fate) returns (w: nat, ghost ran: Option<(RunErr, Row)>)
      requires Valid() && m in broker.msgs && broker.msgs[m].place.InJobs?
      modifies store`rows, broker`msgs, broker`next, `states, `steps
      ensures Valid() && Grown(Mark(old(states), old(steps)))
      ensures w == old(broker.next)
      ensures var g := old(broker.msgs)[m];
              && g.task in old(store.rows)
              && Dispatched(old(store.rows), old(broker.msgs)[m := g.(place := Held(w))], w + 1,
                            Worker(m, g.task, g.typ, g.retry, g.root, Claiming), w, fate, ran)
      ensures forall k :: k in broker.msgs ==> broker.msgs[k].place != Held(w)
      ensures var n := |old(steps)|; |steps| > n && steps[n] == Queueing(m, QueueMove.Deliver) && OwnMoves(steps[n + 1..], w, fate)
    {
      var d;
      w, d := Deliver(m);
      hide Dispatched;
      ran := Dispatch(w, d, fate);
    }

    /** Two deliveries out at once, settled in either order. */
    method HandleTwo(m: nat, n: nat, mFate: Fate, nFate: Fate, mFirst: bool) returns (w: nat, v: nat)
      requires Valid() && m != n && m in broker.msgs && broker.msgs[m].place.InJobs? && n in broker.msgs && broker.msgs[n].place.InJobs?
      modifies store`rows, broker`msgs, broker`next, `states, `steps
      ensures Valid() && w != v && w !in Sys().workers && v !in Sys().workers
      ensures var k := |old(steps)|; |steps| > k + 1 && steps[k] == Queueing(m, QueueMove.Deliver) && steps[k + 1] == Queueing(n, QueueMove.Deliver)
    {
      var d, e;
      w, d := Deliver(m);
      v, e := Deliver(n);
      if mFirst {
        var _ := Dispatch(w, d, mFate);
        var _ := Dispatch(v, e, nFate);
      } else {
        var _ := Dispatch(v, e, nFate);
        var _ := Dispatch(w, d, mFate);
      }
    }

    // ---------- time, expiry and faults ----------

    method Advance(elapsed: nat)
      requires Valid()
      modifies store`clock, `states, `steps
      ensures Valid() && store.clock == old(store.clock) + elapsed && steps == old(steps) + [Tick(elapsed)]
    {
      ghost var mark := Mark(states, steps);
      store.clock := store.clock + elapsed;
      Stepped(Tick(elapsed), mark);
    }

    /** A waiting message's time to live runs out. */
    method Expire(m: nat)
      requires Valid() && m in broker.msgs && broker.msgs[m].place.InRetry?
      modifies broker`msgs, `states, `steps
      ensures Valid() && steps == old(steps) + [Queueing(m, QueueMove.Expire)]
      ensures broker.msgs == old(broker.msgs)[m := old(broker.msgs)[m].(place := InJobs)]
    {
      ghost var mark := Mark(states, steps);
      KnownMessage(m);
      broker.msgs := broker.msgs[m := broker.msgs[m].(place := InJobs)];
      Stepped(Queueing(m, QueueMove.Expire), mark);
    }

    /** The broker takes back an unsettled delivery whose connection is gone; its worker works on without knowing. */
    method Disconnect(m: nat)
      requires Valid() && m in broker.msgs && (broker.msgs[m].place.Held? || broker.msgs[m].place.DlqHeld? || broker.msgs[m].place.DlqDone?)
      modifies broker`msgs, `states, `steps
      ensures Valid() && steps == old(steps) + [Queueing(m, QueueMove.Disconnect)]
      ensures broker.msgs == old(broker.msgs)[m := old(broker.msgs)[m].(place := if old(broker.msgs)[m].place.Held? then InJobs else InDlq)]
    {
      ghost var mark := Mark(states, steps);
      KnownMessage(m);
      broker.msgs := broker.msgs[m := broker.msgs[m].(place := if broker.msgs[m].place.Held? then InJobs else InDlq)];
      Stepped(Queueing(m, QueueMove.Disconnect), mark);
    }

    /** The broker loses a queued message. */
    method Lose(m: nat)
      requires Valid() && m in broker.msgs && (broker.msgs[m].place.InJobs? || broker.msgs[m].place.InRetry? || broker.msgs[m].place.InDlq?)
      modifies broker`msgs, `states, `steps
      ensures Valid() && steps == old(steps) + [Queueing(m, QueueMove.Drop)] && broker.msgs == old(broker.msgs) - {m}
    {
      ghost var mark := Mark(states, steps);
      KnownMessage(m);
      broker.msgs := broker.msgs - {m};
      Stepped(Queueing(m, QueueMove.Drop), mark);
    }

    /** The process of a worker dies at any point; its delivery goes back to the jobs queue. */
    method Crash(w: nat, d: Worker)
      requires Valid() && w in Sys().workers && Sys().workers[w] == d
      modifies broker`msgs, `states, `steps
      ensures Valid() && w !in Sys().workers && steps == old(steps) + [Working(w, WorkerMove.Crash)]
      ensures store.rows == old(store.rows)
    {
      ghost var mark := Mark(states, steps);
      Known(w, d, d.pc);
      CrashShape(cfg, Sys(), w);
      broker.Settle(d.mid, w, Some(InJobs));
      hide Work, WorkEnabled;
      Stepped(Working(w, WorkerMove.Crash), mark);
    }

    // ---------- the dead-letter consumer ----------

    /** `handleDLQ`: an unfinished task is failed, whatever the answer, and the dead letter acknowledged. */
    method HandleDlq(m: nat, fail: StoreOut)
      requires Valid() && m in broker.msgs && broker.msgs[m].place.InDlq?
      modifies store`rows, broker`msgs, `states, `steps
      ensures Valid() && Grown(Mark(old(states), old(steps)))
      ensures broker.msgs == old(broker.msgs) - {m}
      ensures var t := old(broker.msgs)[m].task;
              && t in old(store.rows)
              && var r := old(store.rows)[t];
                 Wrote(old(store.rows), t, r.(state := Failed, err := Some(EXHAUSTED), finishedAt := Some(store.clock), updatedAt := store.clock),
                       fail, store.rows)
    {
      ghost var mark := Mark(states, steps);
      KnownMessage(m);
      var t := broker.msgs[m].task;
      broker.msgs := broker.msgs[m := broker.msgs[m].(place := DlqHeld)];
      Stepped(Queueing(m, DlqDeliver), mark);
      var _ := store.FailTask(t, EXHAUSTED, fail);
      broker.msgs := broker.msgs[m := broker.msgs[m].(place := DlqDone)];
      Stepped(Queueing(m, DlqFail(EXHAUSTED, fail)), mark);
      broker.msgs := broker.msgs - {m};
      Stepped(Queueing(m, DlqAck), mark);
      assert broker.msgs == old(broker.msgs) - {m};
    }

    // ---------- Submit ----------

    /**
     `Submit`: a refresh needs its repository's lock first. The task is stored before its message is published; a publish without
     a confirm fails the task, a full queue stores it failed. A depth that cannot be read counts as zero.
     */
    method Submit(t: TaskId, tt: TaskType, lock: LockAnswer, queueDepth: Option<nat>, queueSize: nat, create: StoreOut, pub: PubOut, fail: StoreOut)
      returns (err: Option<SubmitError>)
      requires Valid()
      modifies store`rows, broker`msgs, broker`next, `states, `steps
      ensures Valid() && Grown(Mark(old(states), old(steps)))
      ensures tt.Other? ==> err == Some(InvalidType)
      ensures tt.Refresh? && !lock.Acquired? ==> err == Some(if lock.HeldByOther? then RefreshConflict else LockUnavailable)
      ensures !Admitted(tt, lock) || t in old(store.rows) || create.ErrLost? ==> store.rows == old(store.rows) && broker.msgs == old(broker.msgs)
      ensures Admitted(tt, lock) && (t in old(store.rows) || !create.Done?) ==> err == Some(NotStored)
      ensures Admitted(tt, lock) && t !in old(store.rows) && create.Done? ==>
                var depth := if queueDepth.Some? then queueDepth.value else 0;
                if depth >= queueSize then
                  && err == Some(QueueFull) && broker.msgs == old(broker.msgs)
                  && store.rows == old(store.rows)[t := Row(tt, Failed, NO_PROGRESS, Some(QUEUE_FULL), 0, false, store.clock, None, Some(store.clock), store.clock)]
                else
                  var r := Row(tt, Pending, NO_PROGRESS, None, depth + 1, false, store.clock, None, None, store.clock);
                  var failed := r.(state := Failed, err := Some(QUEUE_UNAVAILABLE), finishedAt := Some(store.clock));
                  && err == (if pub.Confirmed? then None else Some(QueueUnavailable))
                  && store.rows == old(store.rows)[t := if pub.Confirmed? || fail.ErrLost? then r else failed]
                  && broker.msgs == if Sent(pub) then old(broker.msgs)[old(broker.next) := Message(t, tt, 0, old(broker.next), InJobs)] else old(broker.msgs)
    {
      hide Run, SubmitEnabled, Grown, FailedWith;
      ghost var mark := Mark(states, steps);
      SinceNow(mark);
      if FirstStateOf(tt).None? {
        return Some(InvalidType);
      }
      if tt.Refresh? && !lock.Acquired? {
        return Some(if lock.HeldByOther? then RefreshConflict else LockUnavailable);
      }
      var depth := 0;
      if queueDepth.Some? {
        depth := queueDepth.value;
      }
      err := Accept(t, tt, depth, queueSize, create, pub, fail, mark);
    }

    /** A task of a known type, with its lock: stored and published, or stored failed. */
    method Accept(t: TaskId, tt: TaskType, depth: nat, queueSize: nat, create: StoreOut, pub: PubOut, fail: StoreOut, ghost mark: Mark)
      returns (err: Option<SubmitError>)
      requires Valid() && Grown(mark) && !tt.Other?
      modifies store`rows, broker`msgs, broker`next, `states, `steps
      ensures Valid() && Grown(mark)
      ensures t in old(store.rows) || create.ErrLost? ==> store.rows == old(store.rows) && broker.msgs == old(broker.msgs)
      ensures t in old(store.rows) || !create.Done? ==> err == Some(NotStored)
      ensures t !in old(store.rows) && create.Done? ==>
                if depth >= queueSize then
                  && err == Some(QueueFull) && broker.msgs == old(broker.msgs)
                  && store.rows == old(store.rows)[t := Row(tt, Failed, NO_PROGRESS, Some(QUEUE_FULL), 0, false, store.clock, None, Some(store.clock), store.clock)]
                else
                  var r := Row(tt, Pending, NO_PROGRESS, None, depth + 1, false, store.clock, None, None, store.clock);
                  var failed := r.(state := Failed, err := Some(QUEUE_UNAVAILABLE), finishedAt := Some(store.clock));
                  && err == (if pub.Confirmed? then None else Some(QueueUnavailable))
                  && store.rows == old(store.rows)[t := if pub.Confirmed? || fail.ErrLost? then r else failed]
                  && broker.msgs == if Sent(pub) then old(broker.msgs)[old(broker.next) := Message(t, tt, 0, old(broker.next), InJobs)] else old(broker.msgs)
    {
      hide Run, SubmitEnabled, Grown;
      if depth >= queueSize {
        var full := Insert(t, tt, RejectedRow(tt, QUEUE_FULL, store.clock), Rejected(tt, QUEUE_FULL), create, mark);
        return Some(if full then QueueFull else NotStored);
      }
      var stored := Insert(t, tt, PendingRow(tt, depth + 1, store.clock), SubmitMove.Create(tt, depth), create, mark);
      if !stored {
        return Some(NotStored);
      }
      err := PublishOrFail(t, tt, pub, fail, mark);
    }

    lemma SinceNow(mark: Mark)
      requires mark == Mark(states, steps)
      ensures Grown(mark)
    {
    }

    /** Inserts a new task's row; after an insert that errs although it took effect, nobody goes on to publish. */
    method Insert(t: TaskId, tt: TaskType, r: Row, mv: SubmitMove, create: StoreOut, ghost mark: Mark) returns (ok: bool)
      requires Valid() && Grown(mark) && !tt.Other?
      requires (mv.Rejected? && mv == Rejected(tt, QUEUE_FULL) && r == RejectedRow(tt, QUEUE_FULL, store.clock))
            || (mv.Create? && mv == SubmitMove.Create(tt, mv.depth) && r == PendingRow(tt, mv.depth + 1, store.clock))
      modifies store`rows, `states, `steps
      ensures Valid() && Grown(mark)
      ensures ok <==> t !in old(store.rows) && create.Done?
      ensures store.rows == if t in old(store.rows) || create.ErrLost? then old(store.rows) else old(store.rows)[t := r]
      ensures ok && mv.Create? ==> t in Sys().subs && Sys().subs[t].Publishing?
    {
      var err := store.Create(t, r, create);
      ok := err.None?;
      if t !in old(store.rows) && !create.ErrLost? {
        InsertShape(Sys(), t, tt, if mv.Create? then mv.depth else 0, QUEUE_FULL);
        Stepped(Submitting(t, mv), mark);
        if create.ErrApplied? && mv.Create? {
          Stepped(Submitting(t, Abandon), mark);
        }
      }
    }

    method PublishOrFail(t: TaskId, tt: TaskType, pub: PubOut, fail: StoreOut, ghost mark: Mark) returns (err: Option<SubmitError>)
      requires Valid() && Grown(mark) && t in Sys().subs && Sys().subs[t].Publishing?
      requires t in store.rows && store.rows[t].typ == tt && store.rows[t].state.Pending?
      modifies store`rows, broker`msgs, broker`next, `states, `steps
      ensures Valid() && Grown(mark)
      ensures err == if pub.Confirmed? then None else Some(QueueUnavailable)
      ensures var r := old(store.rows)[t];
              store.rows == old(store.rows)[t := if pub.Confirmed? then r else Kept(fail, r, FailedWith(r, QUEUE_UNAVAILABLE, store.clock))]
      ensures broker.msgs == if Sent(pub) then old(broker.msgs)[old(broker.next) := Message(t, tt, 0, old(broker.next), InJobs)] else old(broker.msgs)
    {
      var ok := broker.Publish(t, tt, pub);
      PublishShape(Sys(), t, pub);
      Stepped(Submitting(t, SubmitMove.Publish(pub)), mark);
      if !ok {
        var _ := store.FailTask(t, QUEUE_UNAVAILABLE, fail);
        FailUnsentShape(Sys(), t, QUEUE_UNAVAILABLE, fail);
        Stepped(Submitting(t, FailUnsent(QUEUE_UNAVAILABLE, fail)), mark);
        return Some(QueueUnavailable);
      }
      assert store.rows == old(store.rows)[t := old(store.rows)[t]];
      return None;
    }

    // ---------- Cancel ----------

    /** One fresh identifier, as the model numbers messages, workers, cancellations and rounds alike. */
    method Reserve() returns (id: nat)
      modifies broker`next
      ensures id == old(broker.next) && broker.next == id + 1
    {
      id := broker.next;
      broker.next := id + 1;
    }

    /** `Cancel`: flag first, then the final state; nil is only returned once the row is cancelled and flagged. */
    method Cancel(t: TaskId, get: StoreOut, flag: StoreOut, update: StoreOut) returns (err: Option<CancelError>, ghost c: nat)
      requires Valid()
      modifies store`rows, broker`next, `states, `steps
      ensures Valid() && Grown(Mark(old(states), old(steps)))
      ensures err.None? ==> c in Sys().cancels && Sys().cancels[c] == CancelDone(t, true)
      ensures err.None? <==> t in old(store.rows) && !old(store.rows)[t].state.IsTerminal() && get.Done? && flag.Done? && update.Done?
      ensures err.None? ==> t in old(store.rows) && var r := old(store.rows)[t];
                store.rows == old(store.rows)[t := r.(state := Cancelled, cancelFlag := true, finishedAt := Some(store.clock), updatedAt := store.clock)]
      ensures t !in old(store.rows) || old(store.rows)[t].state.IsTerminal() || !get.Done? ==>
                store.rows == old(store.rows) && (get.Done? && t in old(store.rows) ==> err == Some(CancelInvalidState))
    {
      c := 0;
      ghost var mark := Mark(states, steps);
      var row, missing := store.Get(t, get);
      if row.None? {
        return Some(if missing == Some(NotFound) then CancelNotFound else CancelUnavailable), c;
      }
      if row.value.state.IsTerminal() {
        return Some(CancelInvalidState), c;
      }
      c := broker.next;
      var _ := Reserve();
      Stepped(BeginCancel(t), mark);
      err := FlagAndCancel(t, c, flag, update, mark);
    }

    method FlagAndCancel(t: TaskId, ghost c: nat, flag: StoreOut, update: StoreOut, ghost mark: Mark) returns (err: Option<CancelError>)
      requires Valid() && Grown(mark) && c in Sys().cancels && Sys().cancels[c] == Flagging(t)
      requires t in store.rows && !store.rows[t].state.IsTerminal()
      modifies store`rows, `states, `steps
      ensures Valid() && Grown(mark)
      ensures err.None? <==> flag.Done? && update.Done?
      ensures err.None? ==> c in Sys().cancels && Sys().cancels[c] == CancelDone(t, true)
      ensures err.None? ==> var r := old(store.rows)[t];
                store.rows == old(store.rows)[t := r.(state := Cancelled, cancelFlag := true, finishedAt := Some(store.clock), updatedAt := store.clock)]
    {
      hide Run;
      var flagErr := store.SetCancelFlag(t, flag);
      SetFlagShape(Sys(), c, flag);
      Stepped(Cancelation(c, SetFlag(flag)), mark);
      if flagErr.Some? {
        return Some(CancelUnavailable);
      }
      err := SetCancelledState(t, c, update, mark);
    }

    method SetCancelledState(t: TaskId, ghost c: nat, update: StoreOut, ghost mark: Mark) returns (err: Option<CancelError>)
      requires Valid() && Grown(mark) && c in Sys().cancels && Sys().cancels[c] == Updating(t)
      requires t in store.rows && !store.rows[t].state.IsTerminal()
      modifies store`rows, `states, `steps
      ensures Valid() && Grown(mark)
      ensures err.None? <==> update.Done?
      ensures err.None? ==> c in Sys().cancels && Sys().cancels[c] == CancelDone(t, true)
      ensures err.None? ==> var r := old(store.rows)[t];
                store.rows == old(store.rows)[t := r.(state := Cancelled, finishedAt := Some(store.clock), updatedAt := store.clock)]
    {
      hide Run;
      assert CanTransition(store.rows[t].state, Cancelled);
      var updateErr := store.UpdateState(t, CancelPatch(store.clock), update);
      SetCancelledShape(Sys(), c, update);
      Stepped(Cancelation(c, SetCancelled(update)), mark);
      return if updateErr.Some? then Some(CancelUnavailable) else None;
    }

    // ---------- the reconciler ----------

    /**
     `RecoverStale` (`all` false) and the start-up `Recover` (`all` true): the bulk reset, the query on what it left, and one
     publish per row found; a failing publish is skipped.
     */
    method RecoverRound(all: bool, reset: StoreOut, found: bool, pubs: nat -> PubOut) returns (republished: nat, err: Option<StoreError>)
      requires Valid()
      modifies store`rows, broker`msgs, broker`next, `states, `steps
      ensures Valid() && Grown(Mark(old(states), old(steps)))
      ensures err.None? <==> reset.Done? && found
      ensures store.rows == if reset.ErrLost? then old(store.rows)
                            else map t | t in old(store.rows) :: ResetIfStale(old(store.rows)[t], store.clock - cfg.staleAfter, store.clock)
      ensures StaleAreReset(old(store.rows), store.clock - cfg.staleAfter, store.clock, reset, store.rows)
      ensures err.Some? ==> broker.msgs == old(broker.msgs) && republished == 0
      ensures err.None? ==> exists order: seq<TaskId> ::
                && Lists(store.rows, store.clock - cfg.staleAfter, all, order)
                && Unfinished(store.rows, store.clock - cfg.staleAfter, all, order)
                && Resent(old(broker.msgs), old(broker.next) + 1, broker.msgs, store.rows, order, pubs, |order|)
                && republished == Confirmations(pubs, |order|)
    {
      hide ResetStaleStep, Recover, Lists, Todo, Resent, Confirmations, ResetIfStale, Run, StaleAreReset, Unfinished;
      ghost var mark := Mark(states, steps);
      republished := 0;
      var staleBefore := store.clock - cfg.staleAfter;
      var n, failed := ResetRows(all, reset, mark);
      if failed.Some? {
        return 0, failed;
      }
      if !found {
        return 0, Some(Unavailable);
      }
      var order := store.Find(staleBefore, all);
      ghost var s1 := Sys();
      FindRoundShape(s1, n, order);
      Stepped(Recovering(n, RoundMove.Find(order)), mark);
      republished := ResendAll(n, order, pubs, mark);
      err := None;
    }

    method ResetRows(all: bool, reset: StoreOut, ghost mark: Mark) returns (ghost n: nat, err: Option<StoreError>)
      requires Valid() && Grown(mark)
      modifies store`rows, broker`next, `states, `steps
      ensures Valid() && Grown(mark)
      ensures err.None? <==> reset.Done?
      ensures store.rows == if reset.ErrLost? then old(store.rows)
                            else map t | t in old(store.rows) :: ResetIfStale(old(store.rows)[t], store.clock - cfg.staleAfter, store.clock)
      ensures StaleAreReset(old(store.rows), store.clock - cfg.staleAfter, store.clock, reset, store.rows)
      ensures reset.Done? ==> n in Sys().rounds && Sys().rounds[n] == Finding(store.clock - cfg.staleAfter, all) && broker.next == old(broker.next) + 1
    {
      hide ResetStaleStep, ResetIfStale, Run;
      n := broker.next;
      KnownKeys();
      ResetRoundShape(cfg, Sys(), all, reset);
      var count;
      count, err := store.ResetStaleRunning(store.clock - cfg.staleAfter, reset);
      if err.None? {
        var _ := Reserve();
      }
      Stepped(ResetStale(all, reset), mark);
    }

    lemma KnownKeys()
      requires Valid()
      ensures Sys().rows.Keys <= Sys().hist.Keys
    {
      RunInv(cfg, states, steps, |states| - 1);
      InvGivesKeys(cfg, Sys());
    }

    method ResendAll(ghost n: nat, order: seq<TaskId>, pubs: nat -> PubOut, ghost mark: Mark) returns (republished: nat)
      requires Valid() && Grown(mark) && n in Sys().rounds
      requires forall t :: t in order ==> t in store.rows
      requires Sys().rounds[n] == Sending(Todo(store.rows, order))
      modifies broker`msgs, broker`next, `states, `steps
      ensures Valid() && Grown(mark)
      ensures Resent(old(broker.msgs), old(broker.next), broker.msgs, store.rows, order, pubs, |order|)
      ensures republished == Confirmations(pubs, |order|)
    {
      hide Recover, Lists, Resent, Run;
      NothingResent(broker.msgs, broker.next, store.rows, order, pubs);
      republished := 0;
      ghost var todo := Todo(store.rows, order);
      MessagesAreFresh();
      for i := 0 to |order|
        invariant Valid() && Grown(mark) && n in Sys().rounds && Sys().rounds[n] == Sending(todo[i..])
        invariant old(broker.next) <= broker.next && forall m :: m in broker.msgs ==> m < broker.next
        invariant Resent(old(broker.msgs), old(broker.next), broker.msgs, store.rows, order, pubs, i)
        invariant republished == Confirmations(pubs, i)
      {
        var t := order[i];
        ghost var s := Sys();
        ghost var before := broker.msgs;
        assert todo[i..][0] == (t, store.rows[t].typ) && todo[i..][1..] == todo[i + 1..];
        ResendRoundShape(s, n, pubs(i));
        var ok := broker.Publish(t, store.rows[t].typ, pubs(i));
        Stepped(Recovering(n, Resend(pubs(i))), mark);
        if ok {
          republished := republished + 1;
        }
        OneMoreResent(old(broker.msgs), old(broker.next), before, s.next, broker.msgs, store.rows, order, pubs, i);
      }
    }

    lemma MessagesAreFresh()
      requires Valid()
      ensures forall m :: m in broker.msgs ==> m < broker.next
    {
      RunInv(cfg, states, steps, |states| - 1);
      forall m | m in broker.msgs ensures m < broker.next {
        InvGivesMessage(cfg, Sys(), m);
      }
    }
  }

  /**
   What the theorems about runs say of the real table: a task that was finished at any earlier moment of the manager's life
   is still in the table, in the same final state.
   */
  lemma FinishedTasksStay(m: Manager, i: nat, t: TaskId)
    requires m.Valid() && i < |m.states| && t in m.states[i].rows && m.states[i].rows[t].state.IsTerminal()
    ensures t in m.store.rows && m.store.rows[t].state == m.states[i].rows[t].state
  {
    TerminalAbsorbs(m.cfg, m.states, m.steps, i, |m.states| - 1, t);
  }

  /** A task whose `Cancel` has returned nil is cancelled in the table ever after. */
  lemma CancelledTasksStay(m: Manager, i: nat, c: nat, t: TaskId)
    requires m.Valid() && i < |m.states| && c in m.states[i].cancels && m.states[i].cancels[c] == CancelDone(t, true)
    ensures t in m.store.rows && m.store.rows[t].state.Cancelled?
  {
    CancelLasts(m.cfg, m.states, m.steps, i, |m.states| - 1, c, t);
  }

  /** The task's type is known, and a refresh has its lock. */
  predicate Admitted(tt: TaskType, lock: LockAnswer) {
    !tt.Other? && (tt.Refresh? ==> lock.Acquired?)
  }

  predicate SameWorker(s: State, s': State, v: nat) {
    (v in s.workers <==> v in s'.workers) && (v in s.workers ==> s'.workers[v] == s.workers[v])
  }

  /** A worker that is not the one moving stays as it is. */
  lemma {:induction false} OneWaits(cfg: Config, states: seq<State>, steps: seq<Step>, i: nat, j: nat, w: nat, v: nat)
    requires Run(cfg, states, steps) && states[0] == INIT && i <= j < |states|
    requires forall k :: i <= k < j ==> steps[k].Working? && steps[k].w == w
    requires v != w
    ensures SameWorker(states[i], states[j], v)
    decreases j
  {
    hide Inv, Enabled, Apply, EffectOf;
    if i < j {
      OneWaits(cfg, states, steps, i, j - 1, w, v);
      assert Next(cfg, states[j - 1], steps[j - 1], states[j]);
      RunInv(cfg, states, steps, j - 1);
      OthersMove(cfg, states[j - 1], steps[j - 1], states[j], v);
    }
  }

  lemma OthersMove(cfg: Config, s: State, step: Step, s': State, v: nat)
    requires Inv(cfg, s) && Next(cfg, s, step, s') && step.Working? && v != step.w
    ensures SameWorker(s, s', v)
  {
    hide Inv, Work, EffectOf;
    var wk := s.workers[step.w];
    MessagesAreOld(cfg, s);
    WorkFrame(cfg, s, step.w, step.work, EffectOf(cfg, step.w, wk, s.rows[wk.task], s.hist[wk.task], s.clock, step.work));
  }

  /** An executor returns what its end says, unless a call of its fails; one that makes no call leaves the rows alone. */
  predicate ReturnsAs(err: RunErr, fate: Fate, rows: map<TaskId, Row>, rows': map<TaskId, Row>) {
    && (err.Nil? ==> fate.end.Succeeds? || fate.end.FailsStage?)
    && (err.CancelError? ==> fate.end.IsCancelled?)
    && (err.Panicked? ==> fate.end.Panics?)
    && (fate.calls == [] ==>
          && rows' == rows && !err.Nil?
          && (err.CancelError? <==> fate.end.IsCancelled?) && (err.Panicked? <==> fate.end.Panics?))
  }

  /** Every one of these steps is a move of worker `w` with the outcome the environment gave it. */
  predicate OwnMoves(more: seq<Step>, w: nat, fate: Fate) {
    forall i :: 0 <= i < |more| ==> more[i].Working? && more[i].w == w && Follows(more[i].work, fate)
  }

  predicate Follows(mv: WorkerMove, fate: Fate) {
    match mv
    case Claim(out) => out == fate.claim
    case Load(out) => out == fate.load
    case FinishCancelled(out) => out == fate.finish
    case FailUnregistered(_, out) => out == fate.fail
    case Report(p, out) => NextStage(p, out) in fate.calls
    case Repeat(p, out) => SameStage(p, out) in fate.calls
    case Beat(out) => Heartbeat(out) in fate.calls
    case StageFail(e, out) => fate.end == FailsStage(e, out)
    case ReturnNil => fate.end.Succeeds?
    case ReturnCancelled => fate.end.IsCancelled?
    case ReturnError => !fate.end.IsCancelled? && !fate.end.Panics?
    case Panic => fate.end.Panics?
    case Reset(out) => out == fate.reset
    case Republish(pub) => pub == fate.retry
    case FailExhausted(_, out) => out == fate.fail
    case DeadLetter(pub) => pub == fate.dlq
    case Crash => false
    case _ => true
  }
}
