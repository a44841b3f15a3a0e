/**
 When executions start. Every `Execute` that starts between two moments belongs to a claim made in between or to a worker
 that was already between its claim and its read at the first moment; without such a latecomer, between two resets
 at most one starts. A latecomer can break this: from the empty system, eight steps lead to one and four more start two executions
 (module DoubleStart).
 */
module Starts {
  import opened Options
  import opened TaskModel
  import opened TaskRows
  import opened Protocol
  import opened ProtocolInvariant
  import opened ProtocolSafety
  import opened Delivery

  /** Worker `w` has claimed task `t` and not yet read the row. */
  predicate LoadingFor(s: State, t: TaskId, w: nat) {
    w in s.workers && s.workers[w].task == t && s.workers[w].pc.Loading?
  }

  /** What one step does to starts and latecomers. */
  predicate StartsFollow(s: State, s': State, t: TaskId, w: nat)
    requires t in s.hist && t in s'.hist
  {
    && (w in s'.hist[t].starters && w !in s.hist[t].starters ==> LoadingFor(s, t, w))
    && (LoadingFor(s', t, w) ==> LoadingFor(s, t, w) || (w in s'.hist[t].claimers && w !in s.hist[t].claimers))
  }

  lemma EffectStarts(cfg: Config, w: nat, wk: Worker, r: Row, h: History, now: nat, mv: WorkerMove)
    requires MoveEnabled(wk, mv) && (wk.pc.Claiming? ==> w !in h.claimers)
    ensures var e := EffectOf(cfg, w, wk, r, h, now, mv);
            && (e.hist.starters != h.starters ==> wk.pc.Loading? && e.hist.starters == h.starters + {w})
            && (e.ending.At? && e.ending.pc.Loading? ==> w in e.hist.claimers && w !in h.claimers)
  {
    hide Stages, Patched, RowAfter, FailedWith, ResetPending;
  }

  lemma WorkStarts(cfg: Config, s: State, v: nat, mv: WorkerMove, t: TaskId, w: nat)
    requires Inv(cfg, s) && WorkEnabled(s, v, mv) && t in s.hist
    ensures var s' := Work(cfg, s, v, mv); t in s'.hist && StartsFollow(s, s', t, w)
  {
    hide Work, EffectOf, MoveEnabled, Inv, Holds, RowOk, HistoryOk;
    var wk := s.workers[v];
    InvGivesWorker(cfg, s, v);
    MessagesAreOld(cfg, s);
    var e := EffectOf(cfg, v, wk, s.rows[wk.task], s.hist[wk.task], s.clock, mv);
    EffectStarts(cfg, v, wk, s.rows[wk.task], s.hist[wk.task], s.clock, mv);
    WorkFrame(cfg, s, v, mv, e);
    WorkerPlaces(cfg, s, v, mv, e);
  }

  /** A worker after another's or its own move. */
  lemma WorkerPlaces(cfg: Config, s: State, v: nat, mv: WorkerMove, e: Effect)
    requires WorkEnabled(s, v, mv)
    requires e == EffectOf(cfg, v, s.workers[v], s.rows[s.workers[v].task], s.hist[s.workers[v].task], s.clock, mv)
    ensures var s' := Work(cfg, s, v, mv);
            v in s'.workers ==> e.ending.At? && s'.workers[v].task == s.workers[v].task
  {
    hide EffectOf, MoveEnabled, PerformRow, PerformSend;
    RowPartWorkers(s, v, e);
    SendPartWorkers(PerformRow(s, v, e), e);
    if e.ending.Settled? { SettlePartWorkers(PerformSend(PerformRow(s, v, e), e), v, e.ending.place); }
    hide Settle;
  }

  lemma RowPartWorkers(s: State, w: nat, e: Effect)
    requires w in s.workers
    ensures PerformRow(s, w, e).workers == s.workers
  {
  }

  lemma SendPartWorkers(s: State, e: Effect)
    ensures PerformSend(s, e).workers == s.workers
  {
  }

  lemma SettlePartWorkers(s: State, w: nat, place: Option<Place>)
    requires w in s.workers
    ensures Settle(s, w, place).workers == s.workers - {w}
  {
    hide Move;
    if place.Some? && Holds(s, w) { MovePart(s.(workers := s.workers - {w}), s.workers[w].mid, place.value); }
  }

  lemma MovePart(s: State, m: nat, p: Place)
    ensures m in s.msgs ==> Move(s, m, p).workers == s.workers
  {
  }

  /** The steps of submitters, cancellers, the broker and the reconciler start nothing. */
  lemma OtherStarts(cfg: Config, s: State, step: Step, t: TaskId, w: nat)
    requires Inv(cfg, s) && Enabled(s, step) && !step.Working? && t in s.hist
    ensures t in Apply(cfg, s, step).hist && StartsFollow(s, Apply(cfg, s, step), t, w)
  {
    InvGivesKeys(cfg, s);
    hide Inv, Work, WorkEnabled, Submit, SubmitEnabled, Queue, QueueEnabled, Cancel, CancelEnabled, ResetStaleStep, StaleRowsReset, Recover, RoundEnabled;
    match step
    case Submitting(u, mv) => SubmitLeavesStarts(s, u, mv, t);
    case Queueing(m, mv) => QueueLeavesStarts(s, m, mv, t, w);
    case Cancelation(c, mv) => CancelLeavesStarts(s, c, mv);
    case ResetStale(all, out) => ResetStepLeavesStarts(cfg, s, all, out, t);
    case Recovering(n, mv) => RoundLeavesStarts(s, n, mv);
    case _ =>
  }

  lemma SubmitLeavesStarts(s: State, u: TaskId, mv: SubmitMove, t: TaskId)
    requires SubmitEnabled(s, u, mv) && t in s.hist && s.rows.Keys == s.hist.Keys
    ensures var s' := Submit(s, u, mv); t in s'.hist && s'.hist[t] == s.hist[t] && s'.workers == s.workers
  {
    hide Kept, FailedWith;
  }

  lemma QueueLeavesStarts(s: State, m: nat, mv: QueueMove, t: TaskId, w: nat)
    requires QueueEnabled(s, m, mv) && t in s.hist
    ensures var s' := Queue(s, m, mv);
            s'.hist == s.hist && (LoadingFor(s', t, w) ==> LoadingFor(s, t, w))
  {
    hide Kept, FailedWith;
  }

  lemma CancelLeavesStarts(s: State, c: nat, mv: CancelMove)
    requires CancelEnabled(s, c, mv)
    ensures Cancel(s, c, mv).hist == s.hist && Cancel(s, c, mv).workers == s.workers
  {
    hide Kept, RowAfter, Flagged, Patched;
  }

  lemma ResetLeavesStarts(s: State, cutoff: int, t: TaskId)
    requires s.rows.Keys <= s.hist.Keys && t in s.hist
    ensures var s' := StaleRowsReset(s, cutoff);
            t in s'.hist && s'.hist[t].starters == s.hist[t].starters && s'.hist[t].claimers == s.hist[t].claimers && s'.workers == s.workers
  {
  }

  lemma ResetStepLeavesStarts(cfg: Config, s: State, all: bool, out: StoreOut, t: TaskId)
    requires s.rows.Keys <= s.hist.Keys && t in s.hist
    ensures var s' := ResetStaleStep(cfg, s, all, out);
            t in s'.hist && s'.hist[t].starters == s.hist[t].starters && s'.hist[t].claimers == s.hist[t].claimers && s'.workers == s.workers
  {
    hide *;
    ResetStaleShape(cfg, s, all, out);
    ResetLeavesStarts(s, s.clock - cfg.staleAfter, t);
  }

  lemma RoundLeavesStarts(s: State, n: nat, mv: RoundMove)
    requires RoundEnabled(s, n, mv)
    ensures Recover(s, n, mv).hist == s.hist && Recover(s, n, mv).workers == s.workers
  {
    hide Todo, Lists;
  }

  lemma StepStarts(cfg: Config, s: State, step: Step, t: TaskId, w: nat)
    requires Inv(cfg, s) && Enabled(s, step) && t in s.hist
    ensures t in Apply(cfg, s, step).hist && StartsFollow(s, Apply(cfg, s, step), t, w)
  {
    if step.Working? {
      WorkStarts(cfg, s, step.w, step.work, t, w);
    } else {
      OtherStarts(cfg, s, step, t, w);
    }
    hide Work, WorkEnabled, StartsFollow;
  }

  /** In every run, an `Execute` started between two moments was claimed in between, or its worker was a latecomer at the first. */
  lemma {:induction false} StartsComeFromClaims(cfg: Config, states: seq<State>, steps: seq<Step>, i: nat, j: nat, t: TaskId, w: nat)
    requires Run(cfg, states, steps) && states[0] == INIT && i <= j < |states| && t in states[i].hist
    ensures t in states[j].hist
    ensures w in states[j].hist[t].starters && w !in states[i].hist[t].starters ==>
              LoadingFor(states[i], t, w) || (w in states[j].hist[t].claimers && w !in states[i].hist[t].claimers)
    ensures LoadingFor(states[j], t, w) ==>
              LoadingFor(states[i], t, w) || (w in states[j].hist[t].claimers && w !in states[i].hist[t].claimers)
    decreases j
  {
    hide Apply, Enabled, Inv, RowsGrow, LoadingFor;
    if i < j {
      StartsComeFromClaims(cfg, states, steps, i, j - 1, t, w);
      RunInv(cfg, states, steps, j - 1);
      assert Next(cfg, states[j - 1], steps[j - 1], states[j]);
      StepStarts(cfg, states[j - 1], steps[j - 1], t, w);
      HistoriesOnlyGrow(cfg, states, steps, i, j - 1, t);
      HistoriesOnlyGrow(cfg, states, steps, j - 1, j, t);
    }
  }

  lemma HistoriesOnlyGrow(cfg: Config, states: seq<State>, steps: seq<Step>, i: nat, j: nat, t: TaskId)
    requires Run(cfg, states, steps) && states[0] == INIT && i <= j < |states| && t in states[i].hist
    ensures t in states[j].hist && t in states[i].rows
    ensures states[i].hist[t].claimers <= states[j].hist[t].claimers && states[i].hist[t].starters <= states[j].hist[t].starters
  {
    RunGrows(cfg, states, steps, i, j);
    RunInv(cfg, states, steps, i);
    InvGivesKeys(cfg, states[i]);
    hide Inv;
  }

  /** The workers that have claimed the task but not yet read its row. */
  function Latecomers(s: State, t: TaskId): set<nat> {
    set w | w in s.workers && LoadingFor(s, t, w)
  }

  /**
   However many duplicate messages exist, between two moments no more executions of a task start than there are resets,
   latecomers at the first moment, and one more if the row was pending then.
   */
  lemma StartsPerReset(cfg: Config, states: seq<State>, steps: seq<Step>, i: nat, j: nat, t: TaskId)
    requires Run(cfg, states, steps) && states[0] == INIT && i <= j < |states| && t in states[i].rows
    ensures t in states[i].hist && t in states[j].hist
    ensures |states[j].hist[t].starters - states[i].hist[t].starters|
              <= states[j].hist[t].resets - states[i].hist[t].resets + |Latecomers(states[i], t)| + (if states[i].rows[t].state.Pending? then 1 else 0)
  {
    RunInv(cfg, states, steps, i);
    InvGivesKeys(cfg, states[i]);
    ClaimsPerReset(cfg, states, steps, i, j, t);
    hide Inv, Apply, Enabled, LoadingFor;
    var started := states[j].hist[t].starters - states[i].hist[t].starters;
    var claimed := states[j].hist[t].claimers - states[i].hist[t].claimers;
    forall w | w in started ensures w in claimed + Latecomers(states[i], t) {
      StartsComeFromClaims(cfg, states, steps, i, j, t, w);
      assert LoadingFor(states[i], t, w) ==> w in states[i].workers by { AtWork(states[i], t, w); }
    }
    SubsetSize(started, claimed + Latecomers(states[i], t));
    UnionSize(claimed, Latecomers(states[i], t));
  }

  lemma AtWork(s: State, t: TaskId, w: nat)
    ensures LoadingFor(s, t, w) ==> w in s.workers
  {
  }

  lemma UnionSize(a: set<nat>, b: set<nat>)
    ensures |a + b| <= |a| + |b|
  {
    assert a + b == a + (b - a);
    SubsetSize(b - a, b);
  }

  /** A running row cannot be claimed before its next reset. */
  lemma ClaimsPerReset(cfg: Config, states: seq<State>, steps: seq<Step>, i: nat, j: nat, t: TaskId)
    requires Run(cfg, states, steps) && states[0] == INIT && i <= j < |states| && t in states[i].rows
    ensures t in states[i].hist && t in states[j].hist
    ensures |states[j].hist[t].claimers - states[i].hist[t].claimers|
              <= states[j].hist[t].resets - states[i].hist[t].resets + (if states[i].rows[t].state.Pending? then 1 else 0)
  {
    RunInv(cfg, states, steps, i);
    InvGivesKeys(cfg, states[i]);
    RunGrows(cfg, states, steps, i, j);
    hide Inv;
    assert TaskGrows(states[i].rows[t], states[i].hist[t], states[j].rows[t], states[j].hist[t]);
    DisjointParts(states[i].hist[t].claimers, states[j].hist[t].claimers);
  }

  // ---------- the latecomer ----------

  /** A pending, unflagged task with a registered executor, a queued message and a latecomer. */
  predicate Overtakable(cfg: Config, s: State, t: TaskId, w: nat, m: nat) {
    && t in s.rows && s.rows[t].state.Pending? && !s.rows[t].cancelFlag && s.rows[t].typ in cfg.executors
    && LoadingFor(s, t, w)
    && m in s.msgs && s.msgs[m].task == t && s.msgs[m].place.InJobs?
  }

  /** One move of a worker on the task, as the facts its effect leaves behind. */
  lemma MoveFacts(cfg: Config, s: State, v: nat, mv: WorkerMove, t: TaskId, w: nat)
    requires Inv(cfg, s) && WorkEnabled(s, v, mv) && s.workers[v].task == t && (mv.Claim? || mv.Load?)
    ensures var s' := Work(cfg, s, v, mv);
            var e := EffectOf(cfg, v, s.workers[v], s.rows[t], s.hist[t], s.clock, mv);
            && Inv(cfg, s')
            && t in s'.rows && s'.rows[t] == e.row && t in s'.hist && s'.hist[t] == e.hist
            && (e.ending.At? ==> v in s'.workers && s'.workers[v].task == t && s'.workers[v].typ == s.workers[v].typ && s'.workers[v].pc == e.ending.pc)
            && (w != v && LoadingFor(s, t, w) ==> LoadingFor(s', t, w))
  {
    var e := EffectOf(cfg, v, s.workers[v], s.rows[t], s.hist[t], s.clock, mv);
    MessagesAreOld(cfg, s);
    WorkKeepsInv(cfg, s, v, mv);
    WorkFrame(cfg, s, v, mv, e);
    hide Work, EffectOf, MoveEnabled, Inv, Holds;
    WorkerPlaces(cfg, s, v, mv, e);
    var s' := Work(cfg, s, v, mv);
    if e.ending.At? { InvGivesWorker(cfg, s', v); InvGivesWorker(cfg, s, v); SameType(cfg, s, v, mv, e); }
  }

  lemma SameType(cfg: Config, s: State, v: nat, mv: WorkerMove, e: Effect)
    requires WorkEnabled(s, v, mv) && (mv.Claim? || mv.Load?)
    requires e == EffectOf(cfg, v, s.workers[v], s.rows[s.workers[v].task], s.hist[s.workers[v].task], s.clock, mv)
    ensures e.row.typ == s.rows[s.workers[v].task].typ
  {
  }

  lemma DeliverFacts(cfg: Config, s: State, t: TaskId, w: nat, m: nat)
    requires Inv(cfg, s) && Overtakable(cfg, s, t, w, m)
    ensures QueueEnabled(s, m, Deliver)
    ensures var s' := Queue(s, m, Deliver); var v := s.next;
            && Inv(cfg, s') && t in s.hist
            && s'.rows == s.rows && s'.hist == s.hist
            && v != w && v !in s.hist[t].starters && v !in s.hist[t].claimers
            && v in s'.workers && s'.workers[v].task == t && s'.workers[v].typ == s.rows[t].typ && s'.workers[v].pc.Claiming?
            && LoadingFor(s', t, w)
  {
    QueueKeepsInv(cfg, s, m, Deliver);
    InvGivesRow(cfg, s, t);
    InvGivesMessage(cfg, s, m);
    InvGivesWorker(cfg, s, w);
    hide Inv;
  }

  /** A claim that succeeds, and a read that enters the executor. */
  lemma ClaimFacts(cfg: Config, s: State, v: nat, t: TaskId, w: nat)
    requires Inv(cfg, s) && v in s.workers && s.workers[v].task == t && s.workers[v].pc.Claiming? && v != w && LoadingFor(s, t, w)
    requires t in s.rows && s.rows[t].state.Pending? && s.workers[v].typ == s.rows[t].typ
    ensures WorkEnabled(s, v, Claim(Done))
    ensures var s' := Work(cfg, s, v, Claim(Done));
            && Inv(cfg, s') && LoadingFor(s', t, v) && LoadingFor(s', t, w) && t in s.hist && t in s'.rows && t in s'.hist
            && s'.rows[t].typ == s.rows[t].typ && s'.rows[t].cancelFlag == s.rows[t].cancelFlag
            && s'.hist[t].starters == s.hist[t].starters && s'.hist[t].resets == s.hist[t].resets
  {
    InvGivesRow(cfg, s, t);
    hide Inv, Work;
    MoveFacts(cfg, s, v, Claim(Done), t, w);
  }

  lemma LoadFacts(cfg: Config, s: State, v: nat, t: TaskId, w: nat)
    requires Inv(cfg, s) && LoadingFor(s, t, v)
    requires t in s.rows && !s.rows[t].cancelFlag && s.rows[t].typ in cfg.executors
    ensures WorkEnabled(s, v, Load(Done))
    ensures var s' := Work(cfg, s, v, Load(Done));
            && Inv(cfg, s') && t in s.hist && t in s'.rows && t in s'.hist
            && (v != w && LoadingFor(s, t, w) ==> LoadingFor(s', t, w))
            && s'.rows[t].typ == s.rows[t].typ && s'.rows[t].cancelFlag == s.rows[t].cancelFlag
            && v !in s.hist[t].starters && s'.hist[t].starters == s.hist[t].starters + {v} && s'.hist[t].resets == s.hist[t].resets
  {
    InvGivesWorker(cfg, s, v);
    hide Inv, Work;
    MoveFacts(cfg, s, v, Load(Done), t, w);
  }

  lemma DeliverIsNext(cfg: Config, s: State, m: nat)
    requires QueueEnabled(s, m, Deliver)
    ensures Next(cfg, s, Queueing(m, Deliver), Queue(s, m, Deliver)) && !IsFault(cfg, s, Queueing(m, Deliver))
  {
    hide Queue, QueueEnabled;
  }

  lemma WorkIsNext(cfg: Config, s: State, w: nat, mv: WorkerMove)
    requires WorkEnabled(s, w, mv) && (mv == Claim(Done) || mv == Load(Done))
    ensures Next(cfg, s, Working(w, mv), Work(cfg, s, w, mv)) && !IsFault(cfg, s, Working(w, mv))
  {
    hide Work, WorkEnabled;
  }

  lemma FourSteps(cfg: Config, states: seq<State>, steps: seq<Step>)
    requires |states| == 5 && |steps| == 4
    requires Next(cfg, states[0], steps[0], states[1]) && !IsFault(cfg, states[0], steps[0])
    requires Next(cfg, states[1], steps[1], states[2]) && !IsFault(cfg, states[1], steps[1])
    requires Next(cfg, states[2], steps[2], states[3]) && !IsFault(cfg, states[2], steps[2])
    requires Next(cfg, states[3], steps[3], states[4]) && !IsFault(cfg, states[3], steps[3])
    ensures Run(cfg, states, steps) && FaultFree(cfg, states, steps)
  {
    hide Next, IsFault;
  }

  /** The overtaking worker's three steps. */
  lemma Overtake(cfg: Config, s: State, t: TaskId, w: nat, m: nat) returns (s1: State, s2: State, s3: State)
    requires Inv(cfg, s) && Overtakable(cfg, s, t, w, m)
    ensures Next(cfg, s, Queueing(m, Deliver), s1) && !IsFault(cfg, s, Queueing(m, Deliver))
    ensures Next(cfg, s1, Working(s.next, Claim(Done)), s2) && !IsFault(cfg, s1, Working(s.next, Claim(Done)))
    ensures Next(cfg, s2, Working(s.next, Load(Done)), s3) && !IsFault(cfg, s2, Working(s.next, Load(Done)))
    ensures Inv(cfg, s3) && LoadingFor(s3, t, w) && t in s3.rows && !s3.rows[t].cancelFlag && s3.rows[t].typ in cfg.executors
    ensures t in s.hist && t in s3.hist && s.next !in s.hist[t].starters && s.next != w
    ensures s3.hist[t].starters == s.hist[t].starters + {s.next} && s3.hist[t].resets == s.hist[t].resets
  {
    hide Inv, Queue, Work, WorkEnabled, QueueEnabled, LoadingFor, Next, IsFault;
    var v := s.next;
    DeliverFacts(cfg, s, t, w, m);
    DeliverIsNext(cfg, s, m);
    s1 := Queue(s, m, Deliver);
    ClaimFacts(cfg, s1, v, t, w);
    WorkIsNext(cfg, s1, v, Claim(Done));
    s2 := Work(cfg, s1, v, Claim(Done));
    LoadFacts(cfg, s2, v, t, w);
    WorkIsNext(cfg, s2, v, Load(Done));
    s3 := Work(cfg, s2, v, Load(Done));
  }

  /** The bound is tight: a latecomer of a pending task can be overtaken, without any fault, by a second worker, and both enter `Execute`. */
  lemma LatecomerStartsTwice(cfg: Config, s: State, t: TaskId, w: nat, m: nat) returns (states: seq<State>, steps: seq<Step>)
    requires Inv(cfg, s) && Overtakable(cfg, s, t, w, m)
    ensures Run(cfg, states, steps) && FaultFree(cfg, states, steps) && states[0] == s && |steps| == 4
    ensures t in s.hist && t in states[4].hist
    ensures states[4].hist[t].resets == s.hist[t].resets && |states[4].hist[t].starters - s.hist[t].starters| == 2
  {
    hide *;
    var s1, s2, s3 := Overtake(cfg, s, t, w, m);
    LoadFacts(cfg, s3, w, t, s.next);
    WorkIsNext(cfg, s3, w, Load(Done));
    var s4 := Work(cfg, s3, w, Load(Done));
    states := [s, s1, s2, s3, s4];
    steps := [Queueing(m, Deliver), Working(s.next, Claim(Done)), Working(s.next, Load(Done)), Working(w, Load(Done))];
    FourSteps(cfg, states, steps);
    assert s4.hist[t].starters - s.hist[t].starters == {s.next, w};
  }
}
