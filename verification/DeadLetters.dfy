/**
 What becomes of a delivery answered with a negative acknowledgement. The bindings of the dead-letter exchange
 (deepwiki/internal/queue/rabbitmq.go) send it to the dead-letter queue, from which nothing returns to the jobs or retry queues:
 it ends with the dead-letter consumer failing its task.
 */
module DeadLetters {
  import opened Options
  import opened TaskModel
  import opened TaskRows
  import opened Protocol
  import opened ProtocolInvariant
  import opened ProtocolSafety

  predicate Dead(p: Place) {
    p.InDlq? || p.DlqHeld? || p.DlqDone?
  }

  predicate DeadIn(s: State, m: nat, t: TaskId) {
    m in s.msgs && Dead(s.msgs[m].place) && s.msgs[m].task == t
  }

  /** A message the dead-letter consumer has dealt with: failed and perhaps acknowledged, or lost by the broker. */
  predicate Over(s: State, m: nat) {
    m !in s.msgs || s.msgs[m].place.DlqDone?
  }

  /** The two steps that can end a dead letter. */
  predicate Ends(step: Step, m: nat) {
    step.Queueing? && step.m == m && (step.queue.DlqFail? || step.queue.Drop?)
  }

  lemma NackDeadLetters(cfg: Config, s: State, w: nat)
    requires WorkEnabled(s, w, Nack) && Holds(s, w)
    ensures var m := s.workers[w].mid; DeadIn(Work(cfg, s, w, Nack), m, s.msgs[m].task) && !Over(Work(cfg, s, w, Nack), m)
  {
  }

  lemma EndLeavesDead(s: State, w: nat, e: Effect, m: nat, t: TaskId)
    requires w in s.workers && DeadIn(s, m, t)
    ensures m in PerformEnd(s, w, e).msgs && PerformEnd(s, w, e).msgs[m] == s.msgs[m]
  {
    if e.ending.Settled? { SettleMessages(s, w, e.ending.place); }
    hide Settle;
  }

  /** Settling touches at most the message the worker holds. */
  lemma SettleMessages(s: State, w: nat, place: Option<Place>)
    requires w in s.workers
    ensures var s' := Settle(s, w, place);
            forall m :: (m in s'.msgs ==> m in s.msgs) && (m in s.msgs && s.msgs[m].place != Held(w) ==> m in s'.msgs && s'.msgs[m] == s.msgs[m])
  {
  }

  lemma WorkLeavesDead(cfg: Config, s: State, w: nat, mv: WorkerMove, m: nat, t: TaskId)
    requires WorkEnabled(s, w, mv) && DeadIn(s, m, t) && m < s.next
    ensures var s' := Work(cfg, s, w, mv); m in s'.msgs && s'.msgs[m] == s.msgs[m]
  {
    hide EffectOf, PerformEnd;
    var wk := s.workers[w];
    var e := EffectOf(cfg, w, wk, s.rows[wk.task], s.hist[wk.task], s.clock, mv);
    var s2 := PerformSend(PerformRow(s, w, e), e);
    assert m in s2.msgs && s2.msgs[m] == s.msgs[m];
    EndLeavesDead(s2, w, e, m, t);
  }

  lemma QueueLeavesDead(s: State, k: nat, mv: QueueMove, m: nat, t: TaskId)
    requires QueueEnabled(s, k, mv) && DeadIn(s, m, t)
    ensures var s' := Queue(s, k, mv);
            && (Over(s', m) || DeadIn(s', m, t))
            && (m in s'.msgs ==> DeadIn(s', m, t))
            && (!Over(s, m) && Over(s', m) ==> Ends(Queueing(k, mv), m))
  {
  }

  lemma SubmitLeavesDead(s: State, u: TaskId, mv: SubmitMove, m: nat, t: TaskId)
    requires SubmitEnabled(s, u, mv) && DeadIn(s, m, t) && m < s.next
    ensures var s' := Submit(s, u, mv); m in s'.msgs && s'.msgs[m] == s.msgs[m]
  {
  }

  lemma CancelLeavesDead(s: State, c: nat, mv: CancelMove, m: nat, t: TaskId)
    requires CancelEnabled(s, c, mv) && DeadIn(s, m, t)
    ensures var s' := Cancel(s, c, mv); m in s'.msgs && s'.msgs[m] == s.msgs[m]
  {
    hide Patched, RowAfter;
  }

  lemma RoundLeavesDead(s: State, n: nat, mv: RoundMove, m: nat, t: TaskId)
    requires RoundEnabled(s, n, mv) && DeadIn(s, m, t) && m < s.next
    ensures var s' := Recover(s, n, mv); m in s'.msgs && s'.msgs[m] == s.msgs[m]
  {
    hide Lists, Todo;
  }

  lemma OthersLeaveDead(cfg: Config, s: State, step: Step, m: nat, t: TaskId)
    requires Enabled(s, step) && !step.Working? && !step.Queueing? && DeadIn(s, m, t) && m < s.next
    ensures var s' := Apply(cfg, s, step); m in s'.msgs && s'.msgs[m] == s.msgs[m]
  {
    hide Submit, Cancel, Recover, SubmitEnabled, CancelEnabled, RoundEnabled;
    match step {
      case Submitting(u, mv) => SubmitLeavesDead(s, u, mv, m, t);
      case Cancelation(c, mv) => CancelLeavesDead(s, c, mv, m, t);
      case Recovering(n, mv) => RoundLeavesDead(s, n, mv, m, t);
      case _ =>
    }
  }

  /** One step on a dead letter: it stays one until the consumer has failed its task or the broker drops it. */
  lemma DeadLetterStep(cfg: Config, s: State, step: Step, m: nat, t: TaskId)
    requires Inv(cfg, s) && Enabled(s, step) && DeadIn(s, m, t)
    ensures var s' := Apply(cfg, s, step);
            && (m in s'.msgs ==> DeadIn(s', m, t))
            && (!Over(s, m) && Over(s', m) ==> Ends(step, m))
  {
    hide Inv, Work, Queue;
    InvGivesMessage(cfg, s, m);
    match step {
      case Working(w, mv) => WorkLeavesDead(cfg, s, w, mv, m, t);
      case Queueing(k, mv) => QueueLeavesDead(s, k, mv, m, t);
      case _ => OthersLeaveDead(cfg, s, step, m, t);
    }
  }

  /** No identifier is used twice. */
  lemma GoneStaysGone(cfg: Config, s: State, step: Step, m: nat)
    requires Enabled(s, step) && m !in s.msgs && m < s.next
    ensures m !in Apply(cfg, s, step).msgs
  {
    hide Work, Queue, Submit, Cancel, Recover;
    match step {
      case Working(w, mv) => WorkAddsNext(cfg, s, w, mv, m);
      case Queueing(k, mv) => QueueAddsNothing(s, k, mv, m);
      case Submitting(t, mv) => SubmitAddsNext(s, t, mv, m);
      case Cancelation(c, mv) => CancelAddsNothing(s, c, mv, m);
      case Recovering(n, mv) => RoundAddsNext(s, n, mv, m);
      case _ =>
    }
  }

  lemma WorkAddsNext(cfg: Config, s: State, w: nat, mv: WorkerMove, m: nat)
    requires WorkEnabled(s, w, mv) && m !in s.msgs && m < s.next
    ensures m !in Work(cfg, s, w, mv).msgs
  {
    hide EffectOf, PerformEnd;
    var wk := s.workers[w];
    var e := EffectOf(cfg, w, wk, s.rows[wk.task], s.hist[wk.task], s.clock, mv);
    EndAddsNothing(PerformSend(PerformRow(s, w, e), e), w, e, m);
  }

  lemma QueueAddsNothing(s: State, k: nat, mv: QueueMove, m: nat)
    requires QueueEnabled(s, k, mv) && m !in s.msgs
    ensures m !in Queue(s, k, mv).msgs
  {
  }

  lemma SubmitAddsNext(s: State, t: TaskId, mv: SubmitMove, m: nat)
    requires SubmitEnabled(s, t, mv) && m !in s.msgs && m < s.next
    ensures m !in Submit(s, t, mv).msgs
  {
  }

  lemma CancelAddsNothing(s: State, c: nat, mv: CancelMove, m: nat)
    requires CancelEnabled(s, c, mv) && m !in s.msgs
    ensures m !in Cancel(s, c, mv).msgs
  {
    hide Patched, RowAfter;
  }

  lemma RoundAddsNext(s: State, n: nat, mv: RoundMove, m: nat)
    requires RoundEnabled(s, n, mv) && m !in s.msgs && m < s.next
    ensures m !in Recover(s, n, mv).msgs
  {
    hide Lists, Todo;
  }

  lemma EndAddsNothing(s: State, w: nat, e: Effect, m: nat)
    requires w in s.workers && m !in s.msgs
    ensures m !in PerformEnd(s, w, e).msgs
  {
    if e.ending.Settled? { SettleMessages(s, w, e.ending.place); }
    hide Settle;
  }

  /** From one moment on, a dead letter of `t` has either ended in one of the two ways, or is still one. */
  lemma {:induction false} DeadLetterRun(cfg: Config, states: seq<State>, steps: seq<Step>, i: nat, j: nat, m: nat, t: TaskId)
    requires Run(cfg, states, steps) && states[0] == INIT && i <= j < |states|
    requires DeadIn(states[i], m, t) && !Over(states[i], m)
    ensures m < states[j].next && (m in states[j].msgs ==> DeadIn(states[j], m, t))
    ensures Over(states[j], m) ==> exists x :: i <= x < j && Ends(steps[x], m)
    decreases j
  {
    hide Inv, Enabled, Apply, DeadIn, Over, Ends;
    RunInv(cfg, states, steps, j);
    if i < j {
      DeadLetterRun(cfg, states, steps, i, j - 1, m, t);
      RunInv(cfg, states, steps, j - 1);
      assert Next(cfg, states[j - 1], steps[j - 1], states[j]);
      if m in states[j - 1].msgs {
        DeadLetterStep(cfg, states[j - 1], steps[j - 1], m, t);
      } else {
        GoneStaysGone(cfg, states[j - 1], steps[j - 1], m);
        GoneIsOver(states[j - 1], m);
      }
      NextGrows(cfg, states, steps, j - 1);
    } else {
      KnownId(cfg, states[j], m, t);
    }
  }

  lemma NextGrows(cfg: Config, states: seq<State>, steps: seq<Step>, i: nat)
    requires Run(cfg, states, steps) && states[0] == INIT && i < |steps|
    ensures states[i].next <= states[i + 1].next
  {
    hide Next, Grows, TaskGrows;
    RunGrows(cfg, states, steps, i, i + 1);
  }

  lemma GoneIsOver(s: State, m: nat)
    ensures m !in s.msgs ==> Over(s, m)
  {
  }

  lemma KnownId(cfg: Config, s: State, m: nat, t: TaskId)
    requires Inv(cfg, s) && DeadIn(s, m, t)
    ensures m < s.next
  {
    hide Inv;
    InvGivesMessage(cfg, s, m);
  }

  /**
   A delivery answered negatively never returns to the jobs or retry queues and is never delivered to a worker again. When it is
   over, the dead-letter consumer has tried to fail its task or the broker has lost it; and once a try went through, the
   task is finished.
   */
  lemma NackedOnlyFails(cfg: Config, states: seq<State>, steps: seq<Step>, i: nat, j: nat, w: nat)
    requires Run(cfg, states, steps) && states[0] == INIT && i < j < |states|
    requires steps[i] == Working(w, Nack) && Holds(states[i], w)
    ensures var m := states[i].workers[w].mid; var t := states[i].msgs[m].task;
            && (m in states[j].msgs ==> DeadIn(states[j], m, t))
            && (Over(states[j], m) ==> exists x :: i < x < j && Ends(steps[x], m))
            && (forall x :: i < x < j && Ends(steps[x], m) && steps[x].queue.DlqFail? && !steps[x].queue.out.ErrLost? ==>
                  t in states[j].rows && states[j].rows[t].state.IsTerminal())
  {
    hide Next, Work, Queue, DeadIn, Over, Inv;
    var m := states[i].workers[w].mid;
    var t := states[i].msgs[m].task;
    StepOf(cfg, states, steps, i);
    NackIsNext(cfg, states[i], states[i + 1], w);
    NackDeadLetters(cfg, states[i], w);
    DeadLetterRun(cfg, states, steps, i + 1, j, m, t);
    forall x | i < x < j && Ends(steps[x], m) && steps[x].queue.DlqFail? && !steps[x].queue.out.ErrLost?
      ensures t in states[j].rows && states[j].rows[t].state.IsTerminal()
    {
      StepOf(cfg, states, steps, x);
      DeadLetterRun(cfg, states, steps, i + 1, x, m, t);
      FailedByConsumer(cfg, states[x], steps[x], states[x + 1], m, t);
      TerminalAbsorbs(cfg, states, steps, x + 1, j, t);
    }
  }

  lemma StepOf(cfg: Config, states: seq<State>, steps: seq<Step>, x: nat)
    requires Run(cfg, states, steps) && x < |steps|
    ensures |states| == |steps| + 1 && Next(cfg, states[x], steps[x], states[x + 1])
  {
  }

  lemma NackIsNext(cfg: Config, s: State, s': State, w: nat)
    requires Next(cfg, s, Working(w, Nack), s')
    ensures WorkEnabled(s, w, Nack) && s' == Work(cfg, s, w, Nack)
  {
  }

  lemma FailedByConsumer(cfg: Config, s: State, step: Step, s': State, m: nat, t: TaskId)
    requires Next(cfg, s, step, s') && Ends(step, m) && step.queue.DlqFail? && !step.queue.out.ErrLost?
    requires m in s.msgs ==> DeadIn(s, m, t)
    ensures t in s'.rows && s'.rows[t].state.IsTerminal()
  {
  }
}
