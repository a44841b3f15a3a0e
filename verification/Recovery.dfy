/**
 Recovery over whole runs, faults included. A reconciler round is a bulk reset, a query and one publish per row found,
 with anything else going on in between. The bulk reset refreshes `updated_at`, so the same round's query cannot see
 the rows it has just reset: a crashed task needs two rounds.
 */
module Recovery {
  import opened Options
  import opened TaskModel
  import opened TaskRows
  import opened Protocol
  import opened ProtocolInvariant
  import opened ProtocolSafety

  /** Step `x` puts a message for task `t` into the jobs queue on behalf of round `n`. */
  predicate Republishes(states: seq<State>, steps: seq<Step>, n: nat, t: TaskId, x: nat) {
    && x < |steps| < |states|
    && steps[x] == Recovering(n, Resend(Confirmed))
    && n in states[x].rounds && states[x].rounds[n].Sending?
    && states[x].rounds[n].todo != [] && states[x].rounds[n].todo[0].0 == t
  }

  ghost predicate Republished(states: seq<State>, steps: seq<Step>, n: nat, t: TaskId, i: nat, j: nat) {
    exists x :: i <= x < j && Republishes(states, steps, n, t, x)
  }

  predicate Listed(p: RoundPc, t: TaskId) {
    p.Sending? && exists i :: 0 <= i < |p.todo| && p.todo[i].0 == t
  }

  ghost predicate AllConfirmed(steps: seq<Step>, n: nat, i: nat, j: nat)
    requires j <= |steps|
  {
    forall x :: i <= x < j && steps[x].Recovering? && steps[x].n == n && steps[x].round.Resend? ==> steps[x].round.pub.Confirmed?
  }

  /** Nobody writes the row of `t` between moments `i` and `j`. */
  ghost predicate Untouched(states: seq<State>, t: TaskId, i: nat, j: nat)
    requires i <= j < |states|
  {
    forall x :: i <= x <= j ==> t in states[x].rows && t in states[i].rows && states[x].rows[t] == states[i].rows[t]
  }

  // ---------- one step of a round ----------

  /** Only its own moves change a round. */
  lemma RoundFrame(cfg: Config, s: State, step: Step, n: nat)
    requires Enabled(s, step) && n in s.rounds && n < s.next && !(step.Recovering? && step.n == n)
    ensures var s' := Apply(cfg, s, step); n in s'.rounds && s'.rounds[n] == s.rounds[n]
  {
    hide Work, WorkEnabled, Submit, SubmitEnabled, Queue, QueueEnabled, Cancel, CancelEnabled, ResetStaleStep, StaleRowsReset, Lists, Todo;
    match step
    case Working(w, mv) => WorkLeavesRounds(cfg, s, w, mv);
    case Submitting(t, mv) => SubmitLeavesRounds(s, t, mv);
    case Queueing(m, mv) => QueueLeavesRounds(s, m, mv);
    case Cancelation(c, mv) => CancelLeavesRounds(s, c, mv);
    case ResetStale(all, out) => ResetStaleShape(cfg, s, all, out); ResetLeavesRounds(s, s.clock - cfg.staleAfter);
    case _ =>
  }

  lemma WorkLeavesRounds(cfg: Config, s: State, w: nat, mv: WorkerMove)
    requires WorkEnabled(s, w, mv)
    ensures Work(cfg, s, w, mv).rounds == s.rounds
  {
    hide EffectOf, MoveEnabled, PerformRow, PerformSend, PerformEnd;
    var e := EffectOf(cfg, w, s.workers[w], s.rows[s.workers[w].task], s.hist[s.workers[w].task], s.clock, mv);
    RowPartLeavesRounds(s, w, e);
    SendPartLeavesRounds(PerformRow(s, w, e), e);
    EndPartLeavesRounds(PerformSend(PerformRow(s, w, e), e), w, e);
  }

  lemma RowPartLeavesRounds(s: State, w: nat, e: Effect)
    requires w in s.workers
    ensures PerformRow(s, w, e).rounds == s.rounds && PerformRow(s, w, e).workers == s.workers
  {
  }

  lemma SendPartLeavesRounds(s: State, e: Effect)
    ensures PerformSend(s, e).rounds == s.rounds && PerformSend(s, e).workers == s.workers
  {
  }

  lemma EndPartLeavesRounds(s: State, w: nat, e: Effect)
    requires w in s.workers
    ensures PerformEnd(s, w, e).rounds == s.rounds
  {
    hide Settle;
    if e.ending.Settled? { SettleLeavesRounds(s, w, e.ending.place); }
  }

  lemma SettleLeavesRounds(s: State, w: nat, place: Option<Place>)
    requires w in s.workers
    ensures Settle(s, w, place).rounds == s.rounds
  {
    hide Move;
    if place.Some? && Holds(s, w) { MoveLeavesRounds(s.(workers := s.workers - {w}), s.workers[w].mid, place.value); }
  }

  lemma MoveLeavesRounds(s: State, m: nat, p: Place)
    ensures m in s.msgs ==> Move(s, m, p).rounds == s.rounds
  {
  }

  lemma SubmitLeavesRounds(s: State, t: TaskId, mv: SubmitMove)
    requires SubmitEnabled(s, t, mv)
    ensures Submit(s, t, mv).rounds == s.rounds
  {
  }

  lemma QueueLeavesRounds(s: State, m: nat, mv: QueueMove)
    requires QueueEnabled(s, m, mv)
    ensures Queue(s, m, mv).rounds == s.rounds
  {
  }

  lemma CancelLeavesRounds(s: State, c: nat, mv: CancelMove)
    requires CancelEnabled(s, c, mv)
    ensures Cancel(s, c, mv).rounds == s.rounds
  {
  }

  lemma ResetLeavesRounds(s: State, cutoff: int)
    requires s.rows.Keys <= s.hist.Keys
    ensures StaleRowsReset(s, cutoff).rounds == s.rounds && StaleRowsReset(s, cutoff).next == s.next
  {
  }

  lemma ResendShape(s: State, n: nat, pub: PubOut)
    requires RoundEnabled(s, n, Resend(pub))
    ensures var s' := Recover(s, n, Resend(pub));
            && n in s'.rounds && s'.rounds[n] == Sending(s.rounds[n].todo[1..])
            && (pub.Confirmed? ==> s.next in s'.msgs && s'.msgs[s.next] == RootMessage(s, s.rounds[n].todo[0].0, s.rounds[n].todo[0].1))
  {
  }

  lemma FindShape(s: State, n: nat, order: seq<TaskId>, t: TaskId)
    requires RoundEnabled(s, n, Find(order))
    ensures var s' := Recover(s, n, Find(order));
            && n in s'.rounds && s'.rounds[n].Sending?
            && (Listed(s'.rounds[n], t) <==> t in s.rows && Picked(s.rows[t], s.rounds[n].cutoff, s.rounds[n].all))
  {
    var s' := Recover(s, n, Find(order));
    if t in order {
      var i :| 0 <= i < |order| && order[i] == t;
      assert s'.rounds[n].todo[i].0 == t;
    }
  }

  // ---------- a whole round ----------

  /** After its query, a round has published exactly what it listed, less what is still on its list. */
  lemma {:induction false} ListShrinks(cfg: Config, states: seq<State>, steps: seq<Step>, n: nat, t: TaskId, f: nat, k: nat)
    requires Run(cfg, states, steps) && states[0] == INIT && f <= k < |states|
    requires n in states[f].rounds && states[f].rounds[n].Sending?
    requires AllConfirmed(steps, n, f, k)
    ensures n in states[k].rounds && states[k].rounds[n].Sending?
    ensures Listed(states[f].rounds[n], t) <==> Republished(states, steps, n, t, f, k) || Listed(states[k].rounds[n], t)
    decreases k
  {
    hide Apply, Enabled, Inv, Listed;
    if f < k {
      var j := k - 1;
      ListShrinks(cfg, states, steps, n, t, f, j);
      assert Next(cfg, states[j], steps[j], states[k]);
      RunInv(cfg, states, steps, j);
      InvGivesRound(cfg, states[j], n);
      OneMove(cfg, states, steps, n, t, j);
      PublishedSoFar(states, steps, n, t, f, j);
    }
  }

  lemma PublishedSoFar(states: seq<State>, steps: seq<Step>, n: nat, t: TaskId, f: nat, j: nat)
    requires f <= j
    ensures Republished(states, steps, n, t, f, j + 1) <==> Republished(states, steps, n, t, f, j) || Republishes(states, steps, n, t, j)
  {
    hide Republishes;
    if Republishes(states, steps, n, t, j) { assert f <= j < j + 1; }
  }

  lemma OneMove(cfg: Config, states: seq<State>, steps: seq<Step>, n: nat, t: TaskId, j: nat)
    requires j < |steps| && |states| == |steps| + 1 && Next(cfg, states[j], steps[j], states[j + 1])
    requires n in states[j].rounds && states[j].rounds[n].Sending? && n < states[j].next
    requires AllConfirmed(steps, n, j, j + 1)
    ensures n in states[j + 1].rounds && states[j + 1].rounds[n].Sending?
    ensures Listed(states[j].rounds[n], t) <==> Republishes(states, steps, n, t, j) || Listed(states[j + 1].rounds[n], t)
  {
    hide Apply, Enabled, Listed;
    var s := states[j];
    if steps[j].Recovering? && steps[j].n == n {
      OwnMove(cfg, s, steps[j], states[j + 1]);
      ResendShape(s, n, Confirmed);
      HeadOrTail(s.rounds[n].todo, t);
    } else {
      RoundFrame(cfg, s, steps[j], n);
    }
  }

  lemma OwnMove(cfg: Config, s: State, step: Step, s': State)
    requires Next(cfg, s, step, s') && step.Recovering?
    ensures RoundEnabled(s, step.n, step.round) && s' == Recover(s, step.n, step.round)
  {
  }

  lemma HeadOrTail(todo: seq<(TaskId, TaskType)>, t: TaskId)
    requires todo != []
    ensures Listed(Sending(todo), t) <==> todo[0].0 == t || Listed(Sending(todo[1..]), t)
  {
    if Listed(Sending(todo), t) && todo[0].0 != t {
      var i :| 0 <= i < |todo| && todo[i].0 == t;
      assert todo[1..][i - 1].0 == t;
    }
    if Listed(Sending(todo[1..]), t) {
      var i :| 0 <= i < |todo[1..]| && todo[1..][i].0 == t;
      assert todo[i + 1].0 == t;
    }
  }

  /** Until its query, a round keeps the time limit of its reset and publishes nothing. */
  lemma {:induction false} WaitsForFind(cfg: Config, states: seq<State>, steps: seq<Step>, n: nat, i: nat, f: nat, pc: RoundPc)
    requires Run(cfg, states, steps) && states[0] == INIT && i <= f < |states|
    requires n in states[i].rounds && states[i].rounds[n] == pc && pc.Finding?
    ensures n in states[f].rounds
    ensures states[f].rounds[n].Finding? ==> states[f].rounds[n] == pc
    ensures states[f].rounds[n].Finding? ==> forall t :: !Republished(states, steps, n, t, i, f)
    decreases f
  {
    hide Apply, Enabled, Inv;
    if i < f {
      var j := f - 1;
      WaitsForFind(cfg, states, steps, n, i, j, pc);
      assert Next(cfg, states[j], steps[j], states[f]);
      RunInv(cfg, states, steps, j);
      InvGivesRound(cfg, states[j], n);
      if steps[j].Recovering? && steps[j].n == n {
        OwnMove(cfg, states[j], steps[j], states[f]);
        assert states[f].rounds[n].Sending?;
      } else {
        RoundFrame(cfg, states[j], steps[j], n);
        forall t ensures Republished(states, steps, n, t, i, f) ==> Republished(states, steps, n, t, i, j) {
          PublishedSoFar(states, steps, n, t, i, j);
        }
      }
    }
  }

  /** What the bulk reset does to one row, and the round it opens. */
  lemma ResetShape(cfg: Config, s: State, t: TaskId, all: bool, out: StoreOut)
    requires s.rows.Keys <= s.hist.Keys && t in s.rows && !out.ErrLost?
    ensures var s' := ResetStaleStep(cfg, s, all, out);
            && t in s'.rows && s'.rows[t] == ResetIfStale(s.rows[t], s.clock - cfg.staleAfter, s.clock)
            && (out.Done? ==> s.next in s'.rounds && s'.rounds[s.next] == Finding(s.clock - cfg.staleAfter, all))
  {
    ResetStaleShape(cfg, s, all, out);
  }

  /** A completed reconciler round: its reset, its query and the moment its list is used up, every publish confirmed. */
  ghost predicate Round(states: seq<State>, steps: seq<Step>, n: nat, all: bool, i: nat, f: nat, k: nat) {
    && i < f < k <= |steps| < |states|
    && steps[i] == ResetStale(all, Done) && n == states[i].next
    && steps[f].Recovering? && steps[f].n == n && steps[f].round.Find?
    && n in states[k].rounds && states[k].rounds[n] == Sending([])
    && AllConfirmed(steps, n, i, k)
  }

  /** A round publishes exactly the rows its query picks, with the row's type and a retry count of zero. */
  lemma RoundPublishes(cfg: Config, states: seq<State>, steps: seq<Step>, n: nat, all: bool, i: nat, f: nat, k: nat, t: TaskId)
    requires Run(cfg, states, steps) && states[0] == INIT && Round(states, steps, n, all, i, f, k)
    ensures Republished(states, steps, n, t, i, k) <==>
              t in states[f].rows && var r := states[f].rows[t]; !r.state.IsTerminal() && (all || r.updatedAt < states[i].clock - cfg.staleAfter)
  {
    hide Apply, Enabled, Inv, Listed;
    assert Next(cfg, states[i], steps[i], states[i + 1]);
    OpensRound(cfg, states[i], steps[i], states[i + 1]);
    WaitsForFind(cfg, states, steps, n, i + 1, f, Finding(states[i].clock - cfg.staleAfter, all));
    assert Next(cfg, states[f], steps[f], states[f + 1]);
    OwnMove(cfg, states[f], steps[f], states[f + 1]);
    FindShape(states[f], n, steps[f].round.order, t);
    ListShrinks(cfg, states, steps, n, t, f + 1, k);
    assert !Listed(Sending([]), t) by { NothingListed(t); }
    Before(states, steps, n, t, i, f, k);
  }

  lemma NothingListed(t: TaskId)
    ensures !Listed(Sending([]), t)
  {
  }

  lemma OpensRound(cfg: Config, s: State, step: Step, s': State)
    requires Next(cfg, s, step, s') && step.ResetStale? && step.out.Done?
    ensures s.next in s'.rounds && s'.rounds[s.next] == Finding(s.clock - cfg.staleAfter, step.all)
    ensures s.rows.Keys <= s.hist.Keys && s' == ResetStaleStep(cfg, s, step.all, step.out)
  {
  }

  lemma Before(states: seq<State>, steps: seq<Step>, n: nat, t: TaskId, i: nat, f: nat, k: nat)
    requires i < f < k <= |steps| && steps[i].ResetStale? && steps[f].Recovering? && steps[f].round.Find?
    requires !Republished(states, steps, n, t, i + 1, f)
    ensures Republished(states, steps, n, t, i, k) <==> Republished(states, steps, n, t, f + 1, k)
  {
    if Republished(states, steps, n, t, i, k) {
      var x :| i <= x < k && Republishes(states, steps, n, t, x);
      assert x != i && x != f;
      assert x > f;
    }
  }

  // ---------- the theorems ----------

  /** A first-attempt message for `t`, of the row's type, in the jobs queue. */
  predicate Queued(s: State, t: TaskId, m: nat) {
    t in s.rows && m in s.msgs && s.msgs[m] == Message(t, s.rows[t].typ, 0, m, InJobs)
  }

  ghost predicate AwaitsWorker(s: State, t: TaskId) {
    exists m :: Queued(s, t, m)
  }

  /** A publish of a round is a message in the jobs queue, carrying the row's type and no retries. */
  lemma RepublishedIsQueued(cfg: Config, states: seq<State>, steps: seq<Step>, n: nat, t: TaskId, x: nat)
    requires Run(cfg, states, steps) && states[0] == INIT && Republishes(states, steps, n, t, x)
    ensures t in states[x + 1].rows
    ensures AwaitsWorker(states[x + 1], t)
  {
    hide Apply, Enabled, Inv;
    assert Next(cfg, states[x], steps[x], states[x + 1]);
    OwnMove(cfg, states[x], steps[x], states[x + 1]);
    ResendShape(states[x], n, Confirmed);
    RunInv(cfg, states, steps, x + 1);
    var m := states[x].next;
    InvGivesMessage(cfg, states[x + 1], m);
    assert Queued(states[x + 1], t, m);
  }

  /**
   One periodic round over a stale unfinished row that nobody else touches leaves it pending, and republishes it
   if and only if it was pending already: a stale running row is reset but not yet queued again.
   */
  lemma OneRound(cfg: Config, states: seq<State>, steps: seq<Step>, n: nat, i: nat, f: nat, k: nat, t: TaskId)
    requires Run(cfg, states, steps) && states[0] == INIT && Round(states, steps, n, false, i, f, k)
    requires t in states[i].rows && var r := states[i].rows[t]; !r.state.IsTerminal() && r.updatedAt < states[i].clock - cfg.staleAfter
    requires Untouched(states, t, i + 1, f)
    ensures states[f].rows[t].state.Pending?
    ensures Republished(states, steps, n, t, i, k) <==> states[i].rows[t].state.Pending?
  {
    hide Apply, Enabled, ResetStaleStep;
    assert Next(cfg, states[i], steps[i], states[i + 1]);
    OpensRound(cfg, states[i], steps[i], states[i + 1]);
    ResetShape(cfg, states[i], t, false, Done);
    RoundPublishes(cfg, states, steps, n, false, i, f, k, t);
    assert states[f].rows[t] == states[i + 1].rows[t];
  }

  /**
   Two-round recovery, from any reachable state and with faults anywhere: an unfinished row stale at one bulk reset
   and untouched until a second round more than `staleAfter` later is pending at that round's query and gets a jobs message; if nobody
   touches it until the publish either, it is pending while the message is queued.
   */
  lemma TwoRounds(cfg: Config, states: seq<State>, steps: seq<Step>, i1: nat, n: nat, i: nat, f: nat, k: nat, t: TaskId)
    requires Run(cfg, states, steps) && states[0] == INIT && Round(states, steps, n, false, i, f, k)
    requires i1 < i && steps[i1].ResetStale? && !steps[i1].out.ErrLost?
    requires t in states[i1].rows && var r := states[i1].rows[t]; !r.state.IsTerminal() && r.updatedAt < states[i1].clock - cfg.staleAfter
    requires Untouched(states, t, i1 + 1, i) && Untouched(states, t, i + 1, f)
    requires states[i].clock > states[i1].clock + cfg.staleAfter
    ensures states[f].rows[t].state.Pending?
    ensures Republished(states, steps, n, t, i, k)
    ensures exists x :: i < x <= k && AwaitsWorker(states[x], t) && (Untouched(states, t, i + 1, x) ==> states[x].rows[t].state.Pending?)
  {
    hide Enabled, Apply, ResetStaleStep;
    assert Next(cfg, states[i1], steps[i1], states[i1 + 1]);
    FirstReset(cfg, states[i1], steps[i1], states[i1 + 1], t);
    assert states[i].rows[t] == states[i1 + 1].rows[t];
    OneRound(cfg, states, steps, n, i, f, k, t);
    var x :| i <= x < k && Republishes(states, steps, n, t, x);
    RepublishedIsQueued(cfg, states, steps, n, t, x);
    assert i < x + 1 <= k;
    assert states[f].rows[t] == states[i + 1].rows[t];
  }

  lemma FirstReset(cfg: Config, s: State, step: Step, s': State, t: TaskId)
    requires Next(cfg, s, step, s') && step.ResetStale? && !step.out.ErrLost?
    requires t in s.rows && !s.rows[t].state.IsTerminal() && s.rows[t].updatedAt < s.clock - cfg.staleAfter
    ensures t in s'.rows && s'.rows[t].state.Pending? && s'.rows[t].updatedAt <= s.clock
  {
    hide ResetStaleStep;
    ResetShape(cfg, s, t, step.all, step.out);
  }

  /** The start-up round republishes every unfinished row it finds, stale or not. */
  lemma StartupRound(cfg: Config, states: seq<State>, steps: seq<Step>, n: nat, i: nat, f: nat, k: nat, t: TaskId)
    requires Run(cfg, states, steps) && states[0] == INIT && Round(states, steps, n, true, i, f, k)
    requires t in states[f].rows
    ensures Republished(states, steps, n, t, i, k) <==> !states[f].rows[t].state.IsTerminal()
  {
    RoundPublishes(cfg, states, steps, n, true, i, f, k, t);
  }
}
