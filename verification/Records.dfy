/**
 What the histories of the protocol's states record: the theorems about starts, claims, resets and executions speak of counts kept
 in the states, and these are the counts of the run's own steps.
 */
module Records {
  import opened Options
  import opened TaskModel
  import opened TaskRows
  import opened Protocol
  import opened ProtocolInvariant
  import opened ProtocolSafety
  import opened Delivery
  import opened Starts
  import Lineage

  // ---------- what one step does ----------

  /** The step is a worker's entry into its executor. */
  predicate Enters(s: State, step: Step, s': State) {
    step.Working? && step.w in s.workers && s.workers[step.w].pc.Loading? && step.w in s'.workers && s'.workers[step.w].pc.Executing?
  }

  /** The step is a claim that took the row of task `t` out of pending. */
  predicate Claims(s: State, step: Step, s': State, t: TaskId) {
    && step.Working? && step.w in s.workers && s.workers[step.w].pc.Claiming? && s.workers[step.w].task == t
    && t in s.rows && s.rows[t].state.Pending? && t in s'.rows && !s'.rows[t].state.Pending?
  }

  /** The step took the running row of task `t` back to pending. */
  predicate Resets(s: State, s': State, t: TaskId) {
    t in s.rows && s.rows[t].state.IsRunning() && t in s'.rows && s'.rows[t].state.Pending?
  }

  function One(b: bool): nat { if b then 1 else 0 }

  function Only(w: nat, b: bool): set<nat> { if b then {w} else {} }

  function Actor(step: Step): nat { if step.Working? then step.w else 0 }

  /** The history of task `t` after a step, in terms of what the step did. */
  predicate RecordsTask(s: State, step: Step, s': State, t: TaskId) {
    t in s'.hist ==>
      var before := if t in s.hist then s.hist[t] else History({}, {}, 0);
      && s'.hist[t].claimers == before.claimers + Only(Actor(step), Claims(s, step, s', t))
      && s'.hist[t].starters == before.starters + Only(Actor(step), Enters(s, step, s') && s.workers[step.w].task == t)
      && s'.hist[t].resets == before.resets + One(Resets(s, s', t))
  }

  predicate RecordsRoot(s: State, step: Step, s': State, root: nat) {
    Execs(s', root) == Execs(s, root) + One(Enters(s, step, s') && s.workers[step.w].root == root)
  }

  lemma EffectRecords(cfg: Config, w: nat, wk: Worker, r: Row, h: History, now: nat, mv: WorkerMove)
    requires MoveEnabled(wk, mv)
    ensures var e := EffectOf(cfg, w, wk, r, h, now, mv);
            var enters := wk.pc.Loading? && e.ending.At? && e.ending.pc.Executing?;
            && e.hist.claimers == h.claimers + Only(w, wk.pc.Claiming? && r.state.Pending? && !e.row.state.Pending?)
            && e.hist.starters == h.starters + Only(w, enters) && (e.starts <==> enters)
            && e.hist.resets == h.resets + One(r.state.IsRunning() && e.row.state.Pending?)
  {
    if mv.Report? { StagesAreLegal(wk.pc.typ, wk.pc.at); }
    if mv.Claim? { FirstIsRunning(wk.typ); }
    hide Stages;
  }

  lemma FirstIsRunning(tt: TaskType)
    ensures FirstStateOf(tt).Some? ==> !FirstStateOf(tt).value.Pending?
  {
  }

  lemma WorkRecords(cfg: Config, s: State, w: nat, mv: WorkerMove)
    requires Inv(cfg, s) && WorkEnabled(s, w, mv)
    ensures var s' := Work(cfg, s, w, mv);
            (forall t :: RecordsTask(s, Working(w, mv), s', t)) && (forall root :: RecordsRoot(s, Working(w, mv), s', root))
  {
    hide Inv, EffectOf, MoveEnabled, Holds, RowOk, HistoryOk, Work, PcOk;
    var wk := s.workers[w];
    MessagesAreOld(cfg, s);
    InvGivesWorker(cfg, s, w);
    InvGivesKeys(cfg, s);
    var e := EffectOf(cfg, w, wk, s.rows[wk.task], s.hist[wk.task], s.clock, mv);
    EffectRecords(cfg, w, wk, s.rows[wk.task], s.hist[wk.task], s.clock, mv);
    WorkFrame(cfg, s, w, mv, e);
    WorkerPlaces(cfg, s, w, mv, e);
    WorkCounts(cfg, s, w, mv, e);
    EffectShows(s, Working(w, mv), Work(cfg, s, w, mv), e);
  }

  /** A step that changes one task's row and history, one root's count and one worker's place as the effect says. */
  lemma EffectShows(s: State, step: Step, s': State, e: Effect)
    requires step.Working? && step.w in s.workers && s.workers[step.w].task in s.rows && s.workers[step.w].task in s.hist
    requires var wk := s.workers[step.w]; var r, h := s.rows[wk.task], s.hist[wk.task];
             var enters := wk.pc.Loading? && e.ending.At? && e.ending.pc.Executing?;
             && s'.rows == s.rows[wk.task := e.row] && s'.hist == s.hist[wk.task := e.hist]
             && s'.execs == (if e.starts then s.execs[wk.root := Execs(s, wk.root) + 1] else s.execs)
             && (step.w in s'.workers <==> e.ending.At?) && (e.ending.At? ==> s'.workers[step.w].pc == e.ending.pc)
             && e.hist.claimers == h.claimers + Only(step.w, wk.pc.Claiming? && r.state.Pending? && !e.row.state.Pending?)
             && e.hist.starters == h.starters + Only(step.w, enters) && (e.starts <==> enters)
             && e.hist.resets == h.resets + One(r.state.IsRunning() && e.row.state.Pending?)
    ensures (forall t :: RecordsTask(s, step, s', t)) && (forall root :: RecordsRoot(s, step, s', root))
  {
    forall t ensures RecordsTask(s, step, s', t) {
      if t != s.workers[step.w].task && t in s'.hist { Unchanged(s, step, s', t); }
    }
  }

  lemma Unchanged(s: State, step: Step, s': State, t: TaskId)
    requires t in s.hist && t in s'.hist && s'.hist[t] == s.hist[t] && (t in s'.rows ==> t in s.rows && s'.rows[t] == s.rows[t])
    requires step.Working? ==> step.w in s.workers && s.workers[step.w].task != t
    ensures RecordsTask(s, step, s', t)
  {
  }

  lemma WorkCounts(cfg: Config, s: State, w: nat, mv: WorkerMove, e: Effect)
    requires WorkEnabled(s, w, mv)
    requires e == EffectOf(cfg, w, s.workers[w], s.rows[s.workers[w].task], s.hist[s.workers[w].task], s.clock, mv)
    ensures Work(cfg, s, w, mv).execs == if e.starts then s.execs[s.workers[w].root := Execs(s, s.workers[w].root) + 1] else s.execs
  {
    hide EffectOf, MoveEnabled, Settle, PerformRow;
    RowCounts(s, w, e);
    if e.ending.Settled? { SettleCounts(PerformSend(PerformRow(s, w, e), e), w, e.ending.place); }
  }

  lemma RowCounts(s: State, w: nat, e: Effect)
    requires w in s.workers
    ensures PerformRow(s, w, e).workers == s.workers
    ensures PerformRow(s, w, e).execs == if e.starts then s.execs[s.workers[w].root := Execs(s, s.workers[w].root) + 1] else s.execs
  {
  }

  lemma SettleCounts(s: State, w: nat, place: Option<Place>)
    requires w in s.workers
    ensures Settle(s, w, place).execs == s.execs
  {
    hide Move;
    if place.Some? && Holds(s, w) { MoveCounts(s.(workers := s.workers - {w}), s.workers[w].mid, place.value); }
  }

  lemma MoveCounts(s: State, m: nat, p: Place)
    ensures m in s.msgs ==> Move(s, m, p).execs == s.execs
  {
  }

  // ---------- the other actors ----------

  /** A step of another actor: every task's history is its old one, counting a reset of its row; executions are as before. */
  ghost predicate Quiet(s: State, s': State) {
    && s'.execs == s.execs
    && (forall t :: t in s.hist ==> t in s.rows && t in s'.rows && t in s'.hist && s'.hist[t] == CountReset(s.hist[t], s.rows[t], s'.rows[t]))
    && (forall t :: t in s'.hist && t !in s.hist ==> s'.hist[t] == History({}, {}, 0) && t !in s.rows)
  }

  lemma QuietRecords(s: State, step: Step, s': State)
    requires Quiet(s, s') && !step.Working?
    ensures (forall t :: RecordsTask(s, step, s', t)) && (forall root :: RecordsRoot(s, step, s', root))
  {
    forall t ensures RecordsTask(s, step, s', t) {
      if t in s.hist { assert s'.hist[t] == CountReset(s.hist[t], s.rows[t], s'.rows[t]); }
    }
  }

  lemma SubmitIsQuiet(s: State, t: TaskId, mv: SubmitMove)
    requires s.rows.Keys == s.hist.Keys && SubmitEnabled(s, t, mv)
    ensures Quiet(s, Submit(s, t, mv))
  {
  }

  lemma QueueIsQuiet(s: State, m: nat, mv: QueueMove)
    requires s.rows.Keys == s.hist.Keys && QueueEnabled(s, m, mv)
    ensures Quiet(s, Queue(s, m, mv))
  {
  }

  lemma CancelIsQuiet(s: State, c: nat, mv: CancelMove)
    requires s.rows.Keys == s.hist.Keys && CancelEnabled(s, c, mv)
    ensures Quiet(s, Cancel(s, c, mv))
  {
  }

  lemma RoundIsQuiet(s: State, n: nat, mv: RoundMove)
    requires s.rows.Keys == s.hist.Keys && RoundEnabled(s, n, mv)
    ensures Quiet(s, Recover(s, n, mv))
  {
    hide Lists, Todo;
  }

  lemma ResetIsQuiet(cfg: Config, s: State, all: bool, out: StoreOut)
    requires s.rows.Keys == s.hist.Keys
    ensures Quiet(s, ResetStaleStep(cfg, s, all, out))
  {
    ResetStaleShape(cfg, s, all, out);
    StaleResetIsQuiet(s, s.clock - cfg.staleAfter);
  }

  lemma StaleResetIsQuiet(s: State, cutoff: int)
    requires s.rows.Keys == s.hist.Keys
    ensures Quiet(s, StaleRowsReset(s, cutoff))
  {
  }

  lemma OtherRecords(cfg: Config, s: State, step: Step)
    requires Inv(cfg, s) && Enabled(s, step) && !step.Working?
    ensures Quiet(s, Apply(cfg, s, step))
  {
    InvGivesKeys(cfg, s);
    hide Inv, Submit, SubmitEnabled, Queue, QueueEnabled, Cancel, CancelEnabled, ResetStaleStep, Recover, RoundEnabled;
    match step
    case Submitting(t, mv) => SubmitIsQuiet(s, t, mv);
    case Queueing(m, mv) => QueueIsQuiet(s, m, mv);
    case Cancelation(c, mv) => CancelIsQuiet(s, c, mv);
    case ResetStale(all, out) => ResetIsQuiet(cfg, s, all, out);
    case Recovering(n, mv) => RoundIsQuiet(s, n, mv);
    case _ =>
  }

  /** Every step, faults included, is recorded for what it is. */
  lemma StepRecords(cfg: Config, s: State, step: Step, s': State)
    requires Inv(cfg, s) && Next(cfg, s, step, s')
    ensures (forall t :: RecordsTask(s, step, s', t)) && (forall root :: RecordsRoot(s, step, s', root))
  {
    hide Inv, RecordsTask, RecordsRoot, Work, WorkEnabled, Quiet;
    if step.Working? {
      WorkRecords(cfg, s, step.w, step.work);
    } else {
      OtherRecords(cfg, s, step);
      QuietRecords(s, step, s');
    }
  }

  // ---------- what a run's states record ----------

  /** How often an executor was entered on behalf of a lineage in the first `j` steps. */
  function Entries(states: seq<State>, steps: seq<Step>, root: nat, j: nat): nat
    requires j <= |steps| < |states|
  {
    if j == 0 then 0
    else Entries(states, steps, root, j - 1)
         + One(Enters(states[j - 1], steps[j - 1], states[j]) && states[j - 1].workers[steps[j - 1].w].root == root)
  }

  /** The workers that entered the executor of a task in the first `j` steps. */
  function Entrants(states: seq<State>, steps: seq<Step>, t: TaskId, j: nat): set<nat>
    requires j <= |steps| < |states|
  {
    if j == 0 then {}
    else Entrants(states, steps, t, j - 1)
         + Only(Actor(steps[j - 1]), Enters(states[j - 1], steps[j - 1], states[j]) && states[j - 1].workers[steps[j - 1].w].task == t)
  }

  /** The workers whose claim of a task succeeded in the first `j` steps. */
  function Claimers(states: seq<State>, steps: seq<Step>, t: TaskId, j: nat): set<nat>
    requires j <= |steps| < |states|
  {
    if j == 0 then {}
    else Claimers(states, steps, t, j - 1) + Only(Actor(steps[j - 1]), Claims(states[j - 1], steps[j - 1], states[j], t))
  }

  /** How often a running task's row went back to pending in the first `j` steps. */
  function ResetCount(states: seq<State>, t: TaskId, j: nat): nat
    requires j < |states|
  {
    if j == 0 then 0 else ResetCount(states, t, j - 1) + One(Resets(states[j - 1], states[j], t))
  }

  /** In every run the states record exactly what the steps did. */
  lemma {:induction false} RecordsAreTrue(cfg: Config, states: seq<State>, steps: seq<Step>, j: nat)
    requires Run(cfg, states, steps) && states[0] == INIT && j < |states|
    ensures forall root :: Execs(states[j], root) == Entries(states, steps, root, j)
    ensures forall t :: t in states[j].hist ==>
              var h := states[j].hist[t];
              && h.claimers == Claimers(states, steps, t, j) && h.starters == Entrants(states, steps, t, j)
              && h.resets == ResetCount(states, t, j)
    ensures forall t :: t !in states[j].hist ==>
              Claimers(states, steps, t, j) == {} && Entrants(states, steps, t, j) == {} && ResetCount(states, t, j) == 0
  {
    hide Apply, Enabled, Inv, Enters, Claims, Resets;
    if j > 0 {
      var s, step, s' := states[j - 1], steps[j - 1], states[j];
      RecordsAreTrue(cfg, states, steps, j - 1);
      assert Next(cfg, s, step, s');
      RunInv(cfg, states, steps, j - 1);
      StepRecords(cfg, s, step, s');
      RunInv(cfg, states, steps, j);
      forall root ensures Execs(s', root) == Entries(states, steps, root, j) { assert RecordsRoot(s, step, s', root); }
      forall t ensures RecordsTask(s, step, s', t) && (t !in s'.hist ==> t !in s.hist && Idle(s, step, s', t)) {
        UnknownIsIdle(cfg, s, step, s', t);
      }
    }
  }

  predicate Idle(s: State, step: Step, s': State, t: TaskId) {
    !Claims(s, step, s', t) && !(Enters(s, step, s') && s.workers[step.w].task == t) && !Resets(s, s', t)
  }

  /** Nothing happens to a task before it has a row. */
  lemma UnknownIsIdle(cfg: Config, s: State, step: Step, s': State, t: TaskId)
    requires Inv(cfg, s) && Inv(cfg, s') && Next(cfg, s, step, s')
    ensures t !in s'.hist ==> t !in s.hist && Idle(s, step, s', t)
  {
    hide Inv, Apply, Enabled, WorkerOk, PcOk, RowOk, HistoryOk, TaskGrows;
    StepKeepsInv(cfg, s, step);
    InvGivesKeys(cfg, s);
    InvGivesKeys(cfg, s');
    if step.Working? && step.w in s.workers { InvGivesWorker(cfg, s, step.w); }
  }

  /** So in a fault-free run the executor is entered at most 1 + min(maxRetries, 3) times on behalf of one publish and its retries. */
  lemma EntriesAreBounded(cfg: Config, states: seq<State>, steps: seq<Step>, j: nat, root: nat)
    requires Run(cfg, states, steps) && FaultFree(cfg, states, steps) && states[0] == INIT && j < |states|
    ensures Entries(states, steps, root, j) <= 1 + cfg.maxRetries && Entries(states, steps, root, j) <= 4
  {
    hide Run, FaultFree;
    RecordsAreTrue(cfg, states, steps, j);
    Lineage.ExecutionsAreBounded(cfg, states, steps, j, root);
  }
}
