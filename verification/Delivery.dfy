/**
 No task is lost: in every run without a crash, a dropped message, a failing store call or a stale running
 row (publishes may still fail and confirms may still get lost), every unfinished task is owed progress by somebody.
 The order reset, publish, acknowledge in `resetAndRetry` is what this rests on.
 */
module Delivery {
  import opened Options
  import opened TaskModel
  import opened TaskRows
  import opened Protocol
  import opened ProtocolInvariant
  import opened ProtocolSafety

  /** The program points at which a worker's own delivery still moves its task on. */
  predicate OwnServes(r: Row, h: History, w: nat, pc: Pc) {
    if r.state.Pending? then pc.Claiming? || pc.Republishing? || pc.Nacking?
    else w in h.claimers && (OwnerPc(pc) || pc.Nacking?)
  }

  /**
   A message that moves an unfinished task on: for a pending one a queued message or a delivery still to be
   claimed or resent, for a running one a dead letter or the unsettled delivery of a worker that claimed it.
   */
  predicate Carries(s: State, t: TaskId, m: nat)
    requires t in s.rows && t in s.hist
  {
    && m in s.msgs && s.msgs[m].task == t
    && match s.msgs[m].place
       case InJobs => s.rows[t].state.Pending?
       case InRetry(_) => s.rows[t].state.Pending?
       case InDlq => true
       case DlqHeld => true
       case DlqDone => false
       case Held(w) => w in s.workers && OwnServes(s.rows[t], s.hist[t], w, s.workers[w].pc)
  }

  ghost predicate Covered(s: State, t: TaskId)
    requires t in s.rows && t in s.hist
  {
    || s.rows[t].state.IsTerminal()
    || (s.rows[t].state.Pending? && t in s.subs)
    || exists m :: Carries(s, t, m)
  }

  ghost predicate AllCovered(s: State) {
    && (forall t :: t in s.rows && t in s.hist ==> Covered(s, t))
    && (forall w :: w in s.workers ==> Holds(s, w))
  }

  // ---------- a worker's move ----------

  /** What a worker's move must leave behind so that its task stays covered. */
  predicate EffectServes(w: nat, wk: Worker, r: Row, h: History, e: Effect) {
    || e.row.state.IsTerminal()
    || (e.ending.At? && OwnServes(e.row, e.hist, w, e.ending.pc))
    || e.ending == Settled(Some(InDlq))
    || (e.sent.Some? && (e.sent.value.place.InDlq? || (e.sent.value.place.InRetry? && e.row.state.Pending?)))
    || (e.row.state.Pending? == r.state.Pending? && h.claimers <= e.hist.claimers && !OwnServes(r, h, w, wk.pc))
  }

  lemma UnfinishedMayEnd(st: TaskState)
    ensures !st.IsTerminal() ==> CanTransition(st, Cancelled)
    ensures st.IsRunning() ==> CanTransition(st, Failed)
  {
  }

  lemma EffectsServe(cfg: Config, w: nat, wk: Worker, r: Row, h: History, now: nat, mv: WorkerMove)
    requires PcOk(cfg, w, wk, r, h) && MoveEnabled(wk, mv)
    requires WorkOutcome(mv).Done? && !mv.Crash?
    ensures EffectServes(w, wk, r, h, EffectOf(cfg, w, wk, r, h, now, mv))
  {
    UnfinishedMayEnd(r.state);
    hide Stages, ValidTransitions;
    if mv.Report? { StagesAreLegal(wk.pc.typ, wk.pc.at); }
  }

  /** What the parts of an effect leave alone. */
  lemma RowFrame(s: State, w: nat, e: Effect)
    requires w in s.workers
    ensures var s' := PerformRow(s, w, e);
            && s'.workers == s.workers && s'.msgs == s.msgs && s'.subs == s.subs && s'.next == s.next
            && s'.rows == s.rows[s.workers[w].task := e.row] && s'.hist == s.hist[s.workers[w].task := e.hist]
  {
  }

  lemma SendFrame(s: State, e: Effect)
    requires forall m :: m in s.msgs ==> m < s.next
    ensures var s' := PerformSend(s, e);
            && s'.workers == s.workers && s'.subs == s.subs && s'.rows == s.rows && s'.hist == s.hist
            && (forall m :: m in s.msgs ==> m in s'.msgs && s'.msgs[m] == s.msgs[m])
            && (e.sent.Some? ==> s.next in s'.msgs && s'.msgs[s.next] == e.sent.value)
  {
  }

  predicate EndsAs(s: State, w: nat, e: Effect, s': State)
    requires w in s.workers
  {
    var k := s.workers[w].mid;
    && s'.subs == s.subs && s'.rows == s.rows && s'.hist == s.hist
    && (forall v :: v in s.workers && v != w ==> v in s'.workers && s'.workers[v] == s.workers[v])
    && (forall v :: v in s'.workers ==> v in s.workers && s'.workers[v].mid == s.workers[v].mid)
    && (forall m :: m in s.msgs && m != k ==> m in s'.msgs && s'.msgs[m] == s.msgs[m])
    && (w in s'.workers && k in s.msgs ==> k in s'.msgs && s'.msgs[k] == s.msgs[k])
    && (e.ending.At? ==> w in s'.workers && s'.workers[w].pc == e.ending.pc)
    && (e.ending == Settled(Some(InDlq)) && Holds(s, w) ==> k in s'.msgs && s'.msgs[k] == s.msgs[k].(place := InDlq))
  }

  lemma AtFrame(s: State, w: nat, e: Effect)
    requires w in s.workers && e.ending.At?
    ensures EndsAs(s, w, e, PerformEnd(s, w, e))
  {
  }

  lemma SettledFrame(s: State, w: nat, e: Effect)
    requires w in s.workers && e.ending.Settled?
    ensures EndsAs(s, w, e, PerformEnd(s, w, e))
  {
    if Holds(s, w) { HeldSettledFrame(s, w, e); } else { LooseSettledFrame(s, w, e); }
  }

  lemma LooseSettledFrame(s: State, w: nat, e: Effect)
    requires w in s.workers && e.ending.Settled? && !Holds(s, w)
    ensures EndsAs(s, w, e, PerformEnd(s, w, e))
  {
    assert PerformEnd(s, w, e) == s.(workers := s.workers - {w});
  }

  lemma HeldSettledFrame(s: State, w: nat, e: Effect)
    requires w in s.workers && e.ending.Settled? && Holds(s, w)
    ensures EndsAs(s, w, e, PerformEnd(s, w, e))
  {
    var k := s.workers[w].mid;
    var s' := PerformEnd(s, w, e);
    assert s'.workers == s.workers - {w};
    assert s'.msgs == if e.ending.place.Some? then s.msgs[k := s.msgs[k].(place := e.ending.place.value)] else s.msgs - {k};
    assert s'.subs == s.subs && s'.rows == s.rows && s'.hist == s.hist;
  }

  lemma WorkShape(cfg: Config, s: State, w: nat, mv: WorkerMove, e: Effect)
    requires WorkEnabled(s, w, mv)
    requires e == EffectOf(cfg, w, s.workers[w], s.rows[s.workers[w].task], s.hist[s.workers[w].task], s.clock, mv)
    ensures Work(cfg, s, w, mv) == PerformEnd(PerformSend(PerformRow(s, w, e), e), w, e)
  {
    hide EffectOf, PerformRow, PerformSend, PerformEnd;
  }

  /** Everything a worker's move does and leaves alone, in terms of its effect. */
  lemma WorkFrame(cfg: Config, s: State, w: nat, mv: WorkerMove, e: Effect)
    requires WorkEnabled(s, w, mv)
    requires forall m :: m in s.msgs ==> m < s.next
    requires e == EffectOf(cfg, w, s.workers[w], s.rows[s.workers[w].task], s.hist[s.workers[w].task], s.clock, mv)
    ensures var s' := Work(cfg, s, w, mv);
            var k := s.workers[w].mid;
            && s'.subs == s.subs
            && s'.rows == s.rows[s.workers[w].task := e.row] && s'.hist == s.hist[s.workers[w].task := e.hist]
            && (forall v :: v in s.workers && v != w ==> v in s'.workers && s'.workers[v] == s.workers[v])
            && (forall v :: v in s'.workers ==> v in s.workers && s'.workers[v].mid == s.workers[v].mid)
            && (forall m :: m in s.msgs && m != k ==> m in s'.msgs && s'.msgs[m] == s.msgs[m])
            && (w in s'.workers && k in s.msgs ==> k in s'.msgs && s'.msgs[k] == s.msgs[k])
            && (e.sent.Some? && k != s.next ==> s.next in s'.msgs && s'.msgs[s.next] == e.sent.value)
            && (e.ending.At? ==> w in s'.workers && s'.workers[w].pc == e.ending.pc)
            && (e.ending == Settled(Some(InDlq)) && Holds(s, w) ==> k in s'.msgs && s'.msgs[k] == s.msgs[k].(place := InDlq))
  {
    hide Work, MoveEnabled, EffectOf, PerformRow, PerformSend, PerformEnd;
    WorkShape(cfg, s, w, mv, e);
    var s1 := PerformRow(s, w, e);
    RowFrame(s, w, e);
    var s2 := PerformSend(s1, e);
    SendFrame(s1, e);
    if e.ending.At? { AtFrame(s2, w, e); } else { SettledFrame(s2, w, e); }
  }

  lemma MessagesAreOld(cfg: Config, s: State)
    requires Inv(cfg, s)
    ensures forall m :: m in s.msgs ==> m < s.next
  {
  }

  /** A carrier the step does not touch stays a carrier. */
  lemma StillCarries(s: State, s': State, t: TaskId, m: nat)
    requires t in s.rows && t in s.hist && t in s'.rows && t in s'.hist
    requires s'.rows[t].state.Pending? == s.rows[t].state.Pending? && s.hist[t].claimers <= s'.hist[t].claimers
    requires Carries(s, t, m) && m in s'.msgs && s'.msgs[m] == s.msgs[m]
    requires s.msgs[m].place.Held? ==>
               var v := s.msgs[m].place.worker; v in s.workers ==> v in s'.workers && s'.workers[v].pc == s.workers[v].pc
    ensures Carries(s', t, m)
  {
  }

  lemma WorkKeepsOthersCovered(cfg: Config, s: State, w: nat, mv: WorkerMove, e: Effect, t: TaskId)
    requires Inv(cfg, s) && WorkEnabled(s, w, mv) && Holds(s, w) && t in s.rows && t in s.hist && Covered(s, t) && t != s.workers[w].task
    requires e == EffectOf(cfg, w, s.workers[w], s.rows[s.workers[w].task], s.hist[s.workers[w].task], s.clock, mv)
    ensures var s' := Work(cfg, s, w, mv); t in s'.rows && t in s'.hist && Covered(s', t)
  {
    hide Work, MoveEnabled, EffectOf, Inv, Carries, OwnServes;
    MessagesAreOld(cfg, s);
    WorkFrame(cfg, s, w, mv, e);
    var s' := Work(cfg, s, w, mv);
    if !s.rows[t].state.IsTerminal() && !(s.rows[t].state.Pending? && t in s.subs) {
      var m :| Carries(s, t, m);
      CarrierElsewhere(cfg, s, w, t, m);
      StillCarries(s, s', t, m);
    }
  }

  /** Another task's carrier is neither the worker's own message nor held by it. */
  lemma CarrierElsewhere(cfg: Config, s: State, w: nat, t: TaskId, m: nat)
    requires Inv(cfg, s) && w in s.workers && t in s.rows && t in s.hist && Carries(s, t, m)
    requires Holds(s, w) && (t != s.workers[w].task || m != s.workers[w].mid)
    ensures m in s.msgs && m != s.workers[w].mid && s.msgs[m].place != Held(w)
  {
    assert HeldOk(s, m, s.msgs[m]);
    assert HeldOk(s, s.workers[w].mid, s.msgs[s.workers[w].mid]);
  }

  /** A move that keeps its own delivery, dead-letters it or sends another leaves a carrier. */
  lemma ServingMoveCarries(cfg: Config, s: State, w: nat, mv: WorkerMove, e: Effect)
    requires Inv(cfg, s) && WorkEnabled(s, w, mv) && Holds(s, w)
    requires e == EffectOf(cfg, w, s.workers[w], s.rows[s.workers[w].task], s.hist[s.workers[w].task], s.clock, mv)
    requires EffectOk(cfg, s.next, w, s.workers[w], s.rows[s.workers[w].task], s.hist[s.workers[w].task], e)
    requires || (e.ending.At? && OwnServes(e.row, e.hist, w, e.ending.pc))
             || e.ending == Settled(Some(InDlq))
             || (e.sent.Some? && (e.sent.value.place.InDlq? || (e.sent.value.place.InRetry? && e.row.state.Pending?)))
    ensures var s' := Work(cfg, s, w, mv); var t := s.workers[w].task;
            t in s'.rows && t in s'.hist && exists m :: Carries(s', t, m)
  {
    hide Work, MoveEnabled, EffectOf, Inv, CargoOk, RowOk, HistoryOk, PcOk, OwnServes;
    MessagesAreOld(cfg, s);
    InvGivesMessage(cfg, s, s.workers[w].mid);
    WorkFrame(cfg, s, w, mv, e);
    var s' := Work(cfg, s, w, mv);
    var t := s.workers[w].task;
    if (e.ending.At? && OwnServes(e.row, e.hist, w, e.ending.pc)) || e.ending == Settled(Some(InDlq)) {
      assert Carries(s', t, s.workers[w].mid);
    } else {
      assert Carries(s', t, s.next);
    }
  }

  lemma WorkKeepsOwnCovered(cfg: Config, s: State, w: nat, mv: WorkerMove, e: Effect)
    requires Inv(cfg, s) && WorkEnabled(s, w, mv) && Holds(s, w) && Covered(s, s.workers[w].task)
    requires e == EffectOf(cfg, w, s.workers[w], s.rows[s.workers[w].task], s.hist[s.workers[w].task], s.clock, mv)
    requires EffectServes(w, s.workers[w], s.rows[s.workers[w].task], s.hist[s.workers[w].task], e)
    requires EffectOk(cfg, s.next, w, s.workers[w], s.rows[s.workers[w].task], s.hist[s.workers[w].task], e)
    ensures var s' := Work(cfg, s, w, mv); var t := s.workers[w].task; t in s'.rows && t in s'.hist && Covered(s', t)
  {
    hide Work, MoveEnabled, EffectOf, RowOk, HistoryOk, HistoryGrows, PcOk, Inv, OwnServes, Carries;
    MessagesAreOld(cfg, s);
    WorkFrame(cfg, s, w, mv, e);
    var s' := Work(cfg, s, w, mv);
    var t := s.workers[w].task;
    if e.row.state.IsTerminal() {
    } else if || (e.ending.At? && OwnServes(e.row, e.hist, w, e.ending.pc))
              || e.ending == Settled(Some(InDlq))
              || (e.sent.Some? && (e.sent.value.place.InDlq? || (e.sent.value.place.InRetry? && e.row.state.Pending?))) {
      ServingMoveCarries(cfg, s, w, mv, e);
    } else if !(s.rows[t].state.Pending? && t in s.subs) && !s.rows[t].state.IsTerminal() {
      var m :| Carries(s, t, m);
      IdleCarrier(cfg, s, w, t, m);
      StillCarries(s, s', t, m);
    }
  }

  /** A worker whose own delivery does not serve the task is not what carries it. */
  lemma IdleCarrier(cfg: Config, s: State, w: nat, t: TaskId, m: nat)
    requires Inv(cfg, s) && w in s.workers && Holds(s, w) && t == s.workers[w].task
    requires t in s.rows && t in s.hist && Carries(s, t, m) && !OwnServes(s.rows[t], s.hist[t], w, s.workers[w].pc)
    ensures m in s.msgs && m != s.workers[w].mid && s.msgs[m].place != Held(w)
  {
    hide OwnServes;
    assert HeldOk(s, m, s.msgs[m]);
  }

  lemma WorkKeepsCovered(cfg: Config, s: State, w: nat, mv: WorkerMove)
    requires Inv(cfg, s) && AllCovered(s) && WorkEnabled(s, w, mv) && WorkOutcome(mv).Done? && !mv.Crash?
    ensures AllCovered(Work(cfg, s, w, mv))
  {
    hide Inv, Work, MoveEnabled, EffectOf, EffectOk, EffectServes, PcOk, RowOk, HistoryOk, Covered;
    InvGivesWorker(cfg, s, w);
    var wk := s.workers[w];
    var t := wk.task;
    var e := EffectOf(cfg, w, wk, s.rows[t], s.hist[t], s.clock, mv);
    EffectsAreOk(cfg, s.next, w, wk, s.rows[t], s.hist[t], s.clock, mv);
    EffectsServe(cfg, w, wk, s.rows[t], s.hist[t], s.clock, mv);
    MessagesAreOld(cfg, s);
    WorkFrame(cfg, s, w, mv, e);
    var s' := Work(cfg, s, w, mv);
    forall v | v in s'.workers ensures Holds(s', v) {
      HoldersDiffer(cfg, s, w, v);
    }
    forall u | u in s'.rows && u in s'.hist ensures Covered(s', u) {
      assert u in s.rows && u in s.hist;
      if u == t {
        WorkKeepsOwnCovered(cfg, s, w, mv, e);
      } else {
        WorkKeepsOthersCovered(cfg, s, w, mv, e, u);
      }
    }
  }

  lemma HoldersDiffer(cfg: Config, s: State, w: nat, v: nat)
    requires w in s.workers && v in s.workers && Holds(s, w) && Holds(s, v)
    ensures v != w ==> s.workers[v].mid != s.workers[w].mid
  {
  }

  // ---------- the other steps ----------

  /** How a step that neither delivers nor settles may change one task: it is finished, or its class and its carriers stay. */
  ghost predicate TaskKept(s: State, s': State, t: TaskId)
    requires t in s'.rows && t in s'.hist
  {
    || s'.rows[t].state.IsTerminal()
    || (s'.rows[t].state.Pending? && t in s'.subs)
    || (exists m :: Carries(s', t, m))
    || (&& t in s.rows && t in s.hist
        && s'.rows[t].state.Pending? == s.rows[t].state.Pending? && s.rows[t].state.IsTerminal() == s'.rows[t].state.IsTerminal()
        && s.hist[t].claimers <= s'.hist[t].claimers
        && (s.rows[t].state.Pending? && t in s.subs ==> t in s'.subs))
  }

  lemma KeptTasksAreCovered(s: State, s': State)
    requires AllCovered(s) && s'.workers == s.workers
    requires forall m :: m in s.msgs ==> m in s'.msgs && s'.msgs[m] == s.msgs[m]
    requires forall t :: t in s'.rows && t in s'.hist ==> TaskKept(s, s', t)
    ensures AllCovered(s')
  {
    forall t | t in s'.rows && t in s'.hist ensures Covered(s', t) {
      assert TaskKept(s, s', t);
      if !s'.rows[t].state.IsTerminal() && !(s'.rows[t].state.Pending? && t in s'.subs) && !(exists m :: Carries(s', t, m)) {
        assert Covered(s, t);
        var m :| Carries(s, t, m);
        StillCarries(s, s', t, m);
      }
    }
  }

  lemma SubmitKeepsTask(s: State, t: TaskId, mv: SubmitMove, u: TaskId)
    requires SubmitEnabled(s, t, mv) && !mv.Abandon? && (mv.FailUnsent? ==> mv.out.Done?)
    requires u in Submit(s, t, mv).rows && u in Submit(s, t, mv).hist && s.rows.Keys == s.hist.Keys
    ensures TaskKept(s, Submit(s, t, mv), u)
  {
    var s' := Submit(s, t, mv);
    if u == t && mv.Publish? && mv.pub.Confirmed? && s.rows[t].state.Pending? {
      assert Carries(s', t, s.next);
    }
  }

  lemma SubmitKeepsCovered(cfg: Config, s: State, t: TaskId, mv: SubmitMove)
    requires Inv(cfg, s) && AllCovered(s) && SubmitEnabled(s, t, mv) && !mv.Abandon? && (mv.FailUnsent? ==> mv.out.Done?)
    ensures AllCovered(Submit(s, t, mv))
  {
    hide Inv, AllCovered, TaskKept;
    MessagesAreOld(cfg, s);
    InvGivesKeys(cfg, s);
    var s' := Submit(s, t, mv);
    forall u | u in s'.rows && u in s'.hist ensures TaskKept(s, s', u) { SubmitKeepsTask(s, t, mv, u); }
    KeptTasksAreCovered(s, s');
  }

  lemma QueueKeepsOthersCovered(cfg: Config, s: State, m0: nat, mv: QueueMove, t: TaskId)
    requires Inv(cfg, s) && QueueEnabled(s, m0, mv) && t in s.rows && t in s.hist && Covered(s, t)
    requires !mv.Disconnect? && !mv.Drop? && (mv.DlqFail? ==> mv.out.Done?)
    requires forall w :: w in s.workers ==> w < s.next
    ensures var s' := Queue(s, m0, mv); t in s'.rows && t in s'.hist && Covered(s', t)
  {
    hide Inv;
    var s' := Queue(s, m0, mv);
    if !s'.rows[t].state.IsTerminal() && !(s.rows[t].state.Pending? && t in s.subs) {
      var m :| Carries(s, t, m);
      if m != m0 {
        StillCarries(s, s', t, m);
      } else {
        assert Carries(s', t, m0);
      }
    }
  }

  lemma WorkersAreOld(cfg: Config, s: State)
    requires Inv(cfg, s)
    ensures forall w :: w in s.workers ==> w < s.next
  {
    forall w | w in s.workers ensures w < s.next { InvGivesWorker(cfg, s, w); }
  }

  lemma QueueKeepsHolding(s: State, m: nat, mv: QueueMove)
    requires QueueEnabled(s, m, mv) && !mv.Disconnect? && !mv.Drop?
    requires forall w :: w in s.workers ==> w < s.next && Holds(s, w)
    ensures var s' := Queue(s, m, mv); forall w :: w in s'.workers ==> Holds(s', w)
  {
    hide Kept, FailedWith;
    var s' := Queue(s, m, mv);
    forall w | w in s'.workers ensures Holds(s', w) {
      if w in s.workers { assert Holds(s, w); }
    }
  }

  lemma QueueKeepsCovered(cfg: Config, s: State, m: nat, mv: QueueMove)
    requires Inv(cfg, s) && AllCovered(s) && QueueEnabled(s, m, mv)
    requires !mv.Disconnect? && !mv.Drop? && (mv.DlqFail? ==> mv.out.Done?)
    ensures AllCovered(Queue(s, m, mv))
  {
    hide Inv, Covered, Holds;
    WorkersAreOld(cfg, s);
    QueueKeepsHolding(s, m, mv);
    var s' := Queue(s, m, mv);
    assert s'.hist == s.hist && s'.rows.Keys == s.rows.Keys;
    forall t | t in s'.rows && t in s'.hist ensures Covered(s', t) {
      QueueKeepsOthersCovered(cfg, s, m, mv, t);
    }
  }

  lemma CancelKeepsCovered(s: State, c: nat, mv: CancelMove)
    requires AllCovered(s) && CancelEnabled(s, c, mv) && mv.out.Done?
    ensures AllCovered(Cancel(s, c, mv))
  {
    var s' := Cancel(s, c, mv);
    var t := s.cancels[c].task;
    UnfinishedMayEnd(s.rows[t].state);
    hide AllCovered, ValidTransitions;
    KeptTasksAreCovered(s, s');
  }

  lemma NothingStale(cfg: Config, s: State, all: bool)
    requires s.rows.Keys <= s.hist.Keys && !IsFault(cfg, s, ResetStale(all, Done))
    ensures StaleRowsReset(s, s.clock - cfg.staleAfter).rows == s.rows && StaleRowsReset(s, s.clock - cfg.staleAfter).hist == s.hist
  {
    var s' := StaleRowsReset(s, s.clock - cfg.staleAfter);
    forall t | t in s.rows ensures s'.rows[t] == s.rows[t] {
      assert !StaleRunning(s.rows[t], s.clock - cfg.staleAfter);
    }
  }

  lemma SameTasksAreCovered(s: State, s': State)
    requires AllCovered(s) && s'.workers == s.workers && s'.rows == s.rows && s'.hist == s.hist && s'.subs == s.subs
    requires forall m :: m in s.msgs ==> m in s'.msgs && s'.msgs[m] == s.msgs[m]
    ensures AllCovered(s')
  {
    hide AllCovered, Carries;
    KeptTasksAreCovered(s, s');
  }

  lemma QuietResetKeepsCovered(cfg: Config, s: State, all: bool)
    requires AllCovered(s) && s.rows.Keys <= s.hist.Keys && !IsFault(cfg, s, ResetStale(all, Done))
    ensures AllCovered(ResetStaleStep(cfg, s, all, Done))
  {
    hide AllCovered, StaleRowsReset;
    NothingStale(cfg, s, all);
    StaleResetTouchesRows(s, s.clock - cfg.staleAfter);
    SameTasksAreCovered(s, ResetStaleStep(cfg, s, all, Done));
  }

  lemma RoundKeepsCovered(cfg: Config, s: State, n: nat, mv: RoundMove)
    requires Inv(cfg, s) && AllCovered(s) && RoundEnabled(s, n, mv)
    ensures AllCovered(Recover(s, n, mv))
  {
    hide Inv, AllCovered, Todo, Lists;
    MessagesAreOld(cfg, s);
    SameTasksAreCovered(s, Recover(s, n, mv));
  }


  lemma StaleResetTouchesRows(s: State, cutoff: int)
    requires s.rows.Keys <= s.hist.Keys
    ensures var s' := StaleRowsReset(s, cutoff); s' == s.(rows := s'.rows, hist := s'.hist)
  {
  }

  lemma StepKeepsCovered(cfg: Config, s: State, step: Step)
    requires Inv(cfg, s) && AllCovered(s) && Enabled(s, step) && !IsFault(cfg, s, step)
    ensures AllCovered(Apply(cfg, s, step))
  {
    hide Inv, AllCovered, Work, WorkEnabled, Submit, SubmitEnabled, Queue, QueueEnabled, Cancel, CancelEnabled, ResetStaleStep, Recover, RoundEnabled;
    match step
    case Submitting(t, mv) => SubmitKeepsCovered(cfg, s, t, mv);
    case Working(w, mv) => WorkKeepsCovered(cfg, s, w, mv);
    case Queueing(m, mv) => QueueKeepsCovered(cfg, s, m, mv);
    case Cancelation(c, mv) => CancelKeepsCovered(s, c, mv);
    case ResetStale(all, out) => QuietResetKeepsCovered(cfg, s, all);
    case Recovering(n, mv) => RoundKeepsCovered(cfg, s, n, mv);
    case Tick(_) => SameTasksAreCovered(s, Apply(cfg, s, step));
    case BeginCancel(_) => SameTasksAreCovered(s, Apply(cfg, s, step));
  }

  // ---------- whole runs ----------

  lemma InitCovered()
    ensures AllCovered(INIT)
  {
  }

  lemma {:induction false} RunCovered(cfg: Config, states: seq<State>, steps: seq<Step>, j: nat)
    requires Run(cfg, states, steps) && FaultFree(cfg, states, steps) && states[0] == INIT && j < |states|
    ensures AllCovered(states[j])
  {
    hide AllCovered, Inv, Apply, Enabled, IsFault;
    if j == 0 {
      InitCovered();
    } else {
      RunCovered(cfg, states, steps, j - 1);
      RunInv(cfg, states, steps, j - 1);
      assert Next(cfg, states[j - 1], steps[j - 1], states[j]);
      StepKeepsCovered(cfg, states[j - 1], steps[j - 1]);
    }
  }

  /** A queued message, or a delivery its consumer has not settled. */
  predicate InBroker(s: State, t: TaskId, m: nat) {
    m in s.msgs && s.msgs[m].task == t && !s.msgs[m].place.DlqDone?
  }

  predicate DeadLetterOf(s: State, t: TaskId, m: nat) {
    m in s.msgs && s.msgs[m].task == t && (s.msgs[m].place.InDlq? || s.msgs[m].place.DlqHeld?)
  }

  /** The unsettled delivery of a worker that claimed the task. */
  predicate ClaimersDelivery(s: State, t: TaskId, m: nat) {
    && m in s.msgs && s.msgs[m].task == t && s.msgs[m].place.Held?
    && s.msgs[m].place.worker in s.workers
    && t in s.hist && s.msgs[m].place.worker in s.hist[t].claimers
  }

  /**
   In every fault-free run, at every moment: a pending task has a submitter still publishing or a message in the
   jobs, retry or dead-letter queue or held unsettled; a running task has its claimer's unsettled delivery or a dead letter.
   */
  lemma NoTaskIsLost(cfg: Config, states: seq<State>, steps: seq<Step>, j: nat, t: TaskId)
    requires Run(cfg, states, steps) && FaultFree(cfg, states, steps) && states[0] == INIT && j < |states|
    requires t in states[j].rows
    ensures var s := states[j];
            && (s.rows[t].state.Pending? ==> t in s.subs || exists m :: InBroker(s, t, m))
            && (s.rows[t].state.IsRunning() ==> exists m :: DeadLetterOf(s, t, m) || ClaimersDelivery(s, t, m))
  {
    RunCovered(cfg, states, steps, j);
    RunInv(cfg, states, steps, j);
    var s := states[j];
    InvGivesKeys(cfg, s);
    hide Inv;
    assert Covered(s, t);
    if !s.rows[t].state.IsTerminal() && !(s.rows[t].state.Pending? && t in s.subs) {
      var m :| Carries(s, t, m);
      assert InBroker(s, t, m);
      assert s.rows[t].state.IsRunning() ==> DeadLetterOf(s, t, m) || ClaimersDelivery(s, t, m);
    }
  }

  /** Once a fault-free system has drained, every task has reached a final state. */
  lemma DrainedMeansFinished(cfg: Config, states: seq<State>, steps: seq<Step>, j: nat)
    requires Run(cfg, states, steps) && FaultFree(cfg, states, steps) && states[0] == INIT && j < |states|
    requires states[j].msgs == map[] && states[j].subs == map[]
    ensures forall t :: t in states[j].rows ==> states[j].rows[t].state.IsTerminal()
  {
    forall t | t in states[j].rows ensures states[j].rows[t].state.IsTerminal() {
      NoTaskIsLost(cfg, states, steps, j, t);
    }
  }
}
