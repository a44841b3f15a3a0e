/**
 Safety over whole runs, faults included: terminal states absorb, a confirmed cancellation lasts,
 claims are exclusive, rows and messages keep to their type, and retry counts are bounded.
 Every lemma speaks about any two moments `i <= j` of any run that started empty.
 */
module ProtocolSafety {
  import opened Options
  import opened TaskModel
  import opened TaskRows
  import opened Protocol
  import opened ProtocolInvariant

  lemma InitInv(cfg: Config)
    ensures Inv(cfg, INIT)
  {
  }

  lemma {:induction false} RunInv(cfg: Config, states: seq<State>, steps: seq<Step>, j: nat)
    requires Run(cfg, states, steps) && states[0] == INIT && j < |states|
    ensures Inv(cfg, states[j])
  {
    InitInv(cfg);
    hide Inv, Apply, Enabled;
    if j > 0 {
      RunInv(cfg, states, steps, j - 1);
      assert Next(cfg, states[j - 1], steps[j - 1], states[j]);
      StepKeepsInv(cfg, states[j - 1], steps[j - 1]);
    }
  }

  lemma {:induction false} RunGrows(cfg: Config, states: seq<State>, steps: seq<Step>, i: nat, j: nat)
    requires Run(cfg, states, steps) && states[0] == INIT && i <= j < |states|
    ensures RowsGrow(states[i], states[j])
    decreases j
  {
    hide Inv, RowsGrow, Apply, Enabled;
    if i == j {
      GrowthIsReflexive(states[i], states[i]);
    } else {
      RunGrows(cfg, states, steps, i, j - 1);
      RunInv(cfg, states, steps, j - 1);
      assert Next(cfg, states[j - 1], steps[j - 1], states[j]);
      StepKeepsInv(cfg, states[j - 1], steps[j - 1]);
      GrowthIsTransitive(states[i], states[j - 1], states[j]);
    }
  }

  /** A completed, failed or cancelled task never changes state again, whatever is still running, queued or retried. */
  lemma TerminalAbsorbs(cfg: Config, states: seq<State>, steps: seq<Step>, i: nat, j: nat, t: TaskId)
    requires Run(cfg, states, steps) && states[0] == INIT && i <= j < |states|
    requires t in states[i].rows && states[i].rows[t].state.IsTerminal()
    ensures t in states[j].rows && states[j].rows[t].state == states[i].rows[t].state
  {
    RunInv(cfg, states, steps, i);
    RunGrows(cfg, states, steps, i, j);
    hide RowOk, HistoryOk, MessagesInv, WorkersInv, OthersInv, HistoryGrows;
    assert TaskGrows(states[i].rows[t], states[i].hist[t], states[j].rows[t], states[j].hist[t]);
  }

  /** Every row of every reachable state: `finished_at` marks exactly the terminal rows, and a failure has its error record. */
  lemma RowsExplainThemselves(cfg: Config, states: seq<State>, steps: seq<Step>, j: nat, t: TaskId)
    requires Run(cfg, states, steps) && states[0] == INIT && j < |states| && t in states[j].rows
    ensures var r := states[j].rows[t];
            && (r.state.IsTerminal() <==> r.finishedAt.Some?)
            && (r.state.Failed? ==> r.err.Some?)
  {
    RunInv(cfg, states, steps, j);
  }

  /** Once `Cancel` has returned nil, the task stays cancelled under every later claim, retry, reset, report and dead letter. */
  lemma CancelLasts(cfg: Config, states: seq<State>, steps: seq<Step>, i: nat, j: nat, c: nat, t: TaskId)
    requires Run(cfg, states, steps) && states[0] == INIT && i <= j < |states|
    requires c in states[i].cancels && states[i].cancels[c] == CancelDone(t, true)
    ensures t in states[j].rows && states[j].rows[t].state.Cancelled?
  {
    RunInv(cfg, states, steps, i);
    assert CancelOk(states[i], c, states[i].cancels[c]);
    TerminalAbsorbs(cfg, states, steps, i, j, t);
  }

  /**
   The table of transitions is shared by three task types, yet no row ever enters another type's stage,
   no message carries another type than its row, and no executor of another type writes the row.
   */
  lemma TypesNeverMix(cfg: Config, states: seq<State>, steps: seq<Step>, j: nat)
    requires Run(cfg, states, steps) && states[0] == INIT && j < |states|
    ensures forall t :: t in states[j].rows ==> Belongs(states[j].rows[t].typ, states[j].rows[t].state)
    ensures forall m :: m in states[j].msgs ==>
              states[j].msgs[m].task in states[j].rows && states[j].msgs[m].typ == states[j].rows[states[j].msgs[m].task].typ
    ensures forall w :: w in states[j].workers && states[j].workers[w].pc.Executing? ==>
              states[j].workers[w].task in states[j].rows && states[j].workers[w].pc.typ == states[j].rows[states[j].workers[w].task].typ
  {
    RunInv(cfg, states, steps, j);
    var s := states[j];
    forall t | t in s.rows ensures Belongs(s.rows[t].typ, s.rows[t].state) { InvGivesRow(cfg, s, t); }
    forall m | m in s.msgs ensures s.msgs[m].task in s.rows && s.msgs[m].typ == s.rows[s.msgs[m].task].typ { InvGivesMessage(cfg, s, m); }
    forall w | w in s.workers && s.workers[w].pc.Executing?
      ensures s.workers[w].task in s.rows && s.workers[w].pc.typ == s.rows[s.workers[w].task].typ
    {
      InvGivesWorker(cfg, s, w);
    }
  }

  /** No message ever carries more than min(maxRetries, 3) retries, and a message waiting in retry queue i carries i + 1. */
  lemma RetriesAreBounded(cfg: Config, states: seq<State>, steps: seq<Step>, j: nat, m: nat)
    requires Run(cfg, states, steps) && states[0] == INIT && j < |states| && m in states[j].msgs
    ensures var g := states[j].msgs[m];
            && g.retry <= cfg.maxRetries && g.retry <= RETRY_QUEUES
            && (g.place.InRetry? ==> g.place.attempt < RETRY_QUEUES && g.retry == g.place.attempt + 1)
  {
    RunInv(cfg, states, steps, j);
    InvGivesMessage(cfg, states[j], m);
  }

  /**
   In every run, a worker gives its task up as exhausted only at the bound and tries it again only below it; and an execution that
   returned an error always does one of the two next.
   */
  lemma TriedAgainBelowTheBound(cfg: Config, states: seq<State>, steps: seq<Step>, i: nat, w: nat)
    requires Run(cfg, states, steps) && states[0] == INIT && i < |steps| && steps[i].Working? && steps[i].w == w
    ensures w in states[i].workers
    ensures var retry, mv := states[i].workers[w].retry, steps[i].work;
            && (mv.FailExhausted? || mv.DeadLetter? ==> retry >= cfg.maxRetries)
            && (mv.Reset? || mv.Republish? ==> retry < cfg.maxRetries)
            && (mv.ReturnError? ==> w in states[i + 1].workers && var pc := states[i + 1].workers[w].pc;
                 if retry < cfg.maxRetries then pc.Resetting? else pc.Exhausted?)
  {
    hide Inv, Apply, EffectOf;
    assert Next(cfg, states[i], steps[i], states[i + 1]);
    RunInv(cfg, states, steps, i);
    InvGivesWorker(cfg, states[i], w);
    if steps[i].work.ReturnError? { ErrorLeadsOn(cfg, states[i], steps[i], states[i + 1]); }
  }

  lemma ErrorLeadsOn(cfg: Config, s: State, step: Step, s': State)
    requires Next(cfg, s, step, s') && step.Working? && step.work.ReturnError?
    ensures step.w in s'.workers && var retry, pc := s.workers[step.w].retry, s'.workers[step.w].pc;
              if retry < cfg.maxRetries then pc.Resetting? else pc.Exhausted?
  {
  }

  // ---------- exclusive claims ----------

  lemma DisjointParts(a: set<nat>, b: set<nat>)
    requires a <= b
    ensures |b - a| == |b| - |a|
  {
    assert b == a + (b - a);
  }

  lemma SubsetSize(a: set<nat>, b: set<nat>)
    requires a <= b
    ensures |a| <= |b|
  {
    DisjointParts(a, b);
  }

  /**
   However many duplicate messages exist: between any two moments a task is claimed at most once more than
   its running row was reset, every `Execute` belongs to a claim of its own, and so over the whole run
   at most one plus the number of resets executions start.
   */
  lemma ClaimsAreExclusive(cfg: Config, states: seq<State>, steps: seq<Step>, i: nat, j: nat, t: TaskId)
    requires Run(cfg, states, steps) && states[0] == INIT && i <= j < |states|
    requires t in states[i].rows
    ensures t in states[i].hist && t in states[j].hist
    ensures var h := states[i].hist[t]; var h' := states[j].hist[t];
            && |h'.claimers - h.claimers| <= (h'.resets - h.resets) + 1
            && h'.starters <= h'.claimers
            && |h'.starters| <= h'.resets + 1
  {
    RunInv(cfg, states, steps, i);
    RunInv(cfg, states, steps, j);
    RunGrows(cfg, states, steps, i, j);
    var h := states[i].hist[t];
    var h' := states[j].hist[t];
    assert TaskGrows(states[i].rows[t], h, states[j].rows[t], h');
    assert HistoryOk(states[j].rows[t], h', states[j].next);
    DisjointParts(h.claimers, h'.claimers);
    SubsetSize(h'.starters, h'.claimers);
  }

  /** Once the cancel flag is set, no `Execute` whose preceding read comes later ever starts. */
  lemma NoStartAfterFlag(cfg: Config, states: seq<State>, steps: seq<Step>, i: nat, j: nat, t: TaskId)
    requires Run(cfg, states, steps) && states[0] == INIT && i <= j < |states|
    requires t in states[i].rows && states[i].rows[t].cancelFlag
    ensures t in states[i].hist && t in states[j].hist && states[j].hist[t].starters == states[i].hist[t].starters
  {
    RunInv(cfg, states, steps, i);
    RunGrows(cfg, states, steps, i, j);
  }
}
