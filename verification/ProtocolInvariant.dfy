/**
 What every step of the protocol keeps, faults included: well-formed rows, messages and workers
 that carry their row's type, bounded retry counts, and the claim count.
 */
module ProtocolInvariant {
  import opened Options
  import opened TaskModel
  import opened TaskRows
  import opened Protocol

  /** Successful claims never outnumber the resets by more than one, and not at all while the row is pending. */
  predicate HistoryOk(r: Row, h: History, next: nat) {
    && |h.claimers| <= h.resets + (if r.state.Pending? then 0 else 1)
    && h.starters <= h.claimers
    && (forall w :: w in h.claimers ==> w < next)
  }

  ghost predicate RowsInv(s: State) {
    && s.rows.Keys == s.hist.Keys
    && (forall t :: t in s.rows ==> RowOk(s.rows[t]))
    && (forall t :: t in s.rows ==> HistoryOk(s.rows[t], s.hist[t], s.next))
    && (forall t :: t in s.subs ==> t in s.rows)
  }

  /** A message without its place: the row's type, and a retry count that its queue confirms. */
  predicate CargoOk(cfg: Config, s: State, g: Message) {
    && g.task in s.rows
    && g.typ == s.rows[g.task].typ
    && g.retry <= RetryCap(cfg)
    && (g.place.InRetry? ==> g.place.attempt < RETRY_QUEUES && g.retry == g.place.attempt + 1)
  }

  predicate HeldOk(s: State, m: nat, g: Message) {
    g.place.Held? ==>
      g.place.worker in s.workers && var wk := s.workers[g.place.worker];
      wk.mid == m && wk.task == g.task && wk.retry == g.retry && wk.root == g.root
  }

  ghost predicate MessagesInv(cfg: Config, s: State) {
    forall m :: m in s.msgs ==> m < s.next && CargoOk(cfg, s, s.msgs[m]) && HeldOk(s, m, s.msgs[m])
  }

  /** The program points at which a worker's claim is still in force. */
  predicate OwnerPc(pc: Pc) {
    pc.Loading? || pc.Cancelling? || pc.Unregistered? || pc.Executing? || pc.Interrupted? || pc.Resetting? || pc.Exhausted?
  }

  /** What a worker's program point says about its task's row and history. */
  predicate PcOk(cfg: Config, w: nat, wk: Worker, r: Row, h: History) {
    && wk.typ == r.typ
    && wk.retry <= RetryCap(cfg)
    && (wk.pc.Resetting? || wk.pc.Republishing? ==> wk.retry < cfg.maxRetries)
    && (wk.pc.Exhausted? || wk.pc.DeadLettering? ==> wk.retry >= cfg.maxRetries)
    && (wk.pc.Claiming? ==> w !in h.claimers)
    && (wk.pc.Loading? ==> w !in h.starters)
    && (OwnerPc(wk.pc) ==> w in h.claimers)
    && (wk.pc.Executing? ==>
          && wk.pc.typ == wk.typ
          && wk.pc.at <= |Stages(wk.typ)|
          && (wk.pc.at == |Stages(wk.typ)| ==> r.state.IsTerminal()))
  }

  predicate WorkerOk(cfg: Config, s: State, w: nat, wk: Worker) {
    && w < s.next
    && wk.task in s.rows && wk.task in s.hist
    && PcOk(cfg, w, wk, s.rows[wk.task], s.hist[wk.task])
  }

  ghost predicate WorkersInv(cfg: Config, s: State) {
    forall w :: w in s.workers ==> WorkerOk(cfg, s, w, s.workers[w])
  }

  predicate CancelOk(s: State, c: nat, p: CancelPc) {
    && c < s.next
    && p.task in s.rows
    && (p.Updating? ==> s.rows[p.task].cancelFlag)
    && (p.CancelDone? && p.ok ==> s.rows[p.task].state.Cancelled? && s.rows[p.task].cancelFlag)
  }

  predicate RoundOk(s: State, n: nat, p: RoundPc) {
    && n < s.next
    && (p.Sending? ==> forall i :: 0 <= i < |p.todo| ==> p.todo[i].0 in s.rows && p.todo[i].1 == s.rows[p.todo[i].0].typ)
  }

  ghost predicate OthersInv(s: State) {
    && (forall c :: c in s.cancels ==> CancelOk(s, c, s.cancels[c]))
    && (forall n :: n in s.rounds ==> RoundOk(s, n, s.rounds[n]))
  }

  ghost predicate Inv(cfg: Config, s: State) {
    RowsInv(s) && MessagesInv(cfg, s) && WorkersInv(cfg, s) && OthersInv(s)
  }

  // ---------- growth ----------

  /** Resets, plus one once the row has left pending, minus successful claims. */
  function Slack(r: Row, h: History): int {
    h.resets + (if r.state.Pending? then 0 else 1) - |h.claimers|
  }

  /** How a task's history may continue: no step lowers the slack, and a flagged task starts no further `Execute`. */
  predicate HistoryGrows(r: Row, h: History, r': Row, h': History) {
    && h.claimers <= h'.claimers
    && h.starters <= h'.starters
    && h.resets <= h'.resets
    && Slack(r, h) <= Slack(r', h')
    && (r.cancelFlag ==> h'.starters == h.starters)
  }

  predicate TaskGrows(r: Row, h: History, r': Row, h': History) {
    Grows(r, r') && HistoryGrows(r, h, r', h')
  }

  /** How one state's rows relate to a later state's: rows stay, and each only grows. */
  ghost predicate RowsGrow(s: State, s': State) {
    && s.next <= s'.next
    && (forall t :: t in s.rows && t in s.hist ==> t in s'.rows && t in s'.hist && TaskGrows(s.rows[t], s.hist[t], s'.rows[t], s'.hist[t]))
  }

  lemma GrowthIsReflexive(s: State, s': State)
    requires s'.rows == s.rows && s'.hist == s.hist && s.next <= s'.next
    ensures RowsGrow(s, s')
  {
  }

  lemma GrowthIsTransitive(a: State, b: State, c: State)
    requires RowsGrow(a, b) && RowsGrow(b, c)
    ensures RowsGrow(a, c)
  {
    forall t | t in a.rows && t in a.hist ensures t in c.rows && t in c.hist && TaskGrows(a.rows[t], a.hist[t], c.rows[t], c.hist[t]) {
      assert TaskGrows(a.rows[t], a.hist[t], b.rows[t], b.hist[t]);
    }
  }

  predicate NoNewClaims(s: State, s': State) {
    forall t :: t in s.hist && t in s'.hist ==> s'.hist[t].claimers == s.hist[t].claimers && s'.hist[t].starters == s.hist[t].starters
  }

  lemma GrowthKeepsMessages(cfg: Config, s: State, s': State)
    requires RowsInv(s) && MessagesInv(cfg, s) && RowsGrow(s, s') && s'.msgs == s.msgs && s'.workers == s.workers
    ensures MessagesInv(cfg, s')
  {
    hide RowOk, HistoryOk, HistoryGrows;
    forall m | m in s'.msgs ensures m < s'.next && CargoOk(cfg, s', s'.msgs[m]) && HeldOk(s', m, s'.msgs[m]) {
      assert CargoOk(cfg, s, s.msgs[m]) && HeldOk(s, m, s.msgs[m]);
    }
  }

  lemma GrowthKeepsWorkers(cfg: Config, s: State, s': State)
    requires WorkersInv(cfg, s) && RowsGrow(s, s') && NoNewClaims(s, s') && s'.workers == s.workers
    ensures WorkersInv(cfg, s')
  {
    hide RowOk, HistoryOk, HistoryGrows, Stages;
    forall w | w in s'.workers ensures WorkerOk(cfg, s', w, s'.workers[w]) {
      assert WorkerOk(cfg, s, w, s.workers[w]);
    }
  }

  lemma GrowthKeepsOthers(s: State, s': State)
    requires RowsInv(s) && OthersInv(s) && RowsGrow(s, s') && s'.cancels == s.cancels && s'.rounds == s.rounds
    ensures OthersInv(s')
  {
    hide RowOk, HistoryOk, HistoryGrows;
    forall c | c in s'.cancels ensures CancelOk(s', c, s'.cancels[c]) {
      assert CancelOk(s, c, s.cancels[c]);
    }
    forall n | n in s'.rounds ensures RoundOk(s', n, s'.rounds[n]) {
      assert RoundOk(s, n, s.rounds[n]);
    }
  }

  /** What messages, workers, cancellers and rounds rely on only improves when rows grow without a new claim. */
  lemma GrowthKeepsInv(cfg: Config, s: State, s': State)
    requires Inv(cfg, s) && RowsInv(s') && RowsGrow(s, s') && NoNewClaims(s, s')
    requires s'.msgs == s.msgs && s'.workers == s.workers && s'.cancels == s.cancels && s'.rounds == s.rounds
    ensures Inv(cfg, s')
  {
    hide RowsInv, MessagesInv, WorkersInv, OthersInv, RowsGrow, NoNewClaims;
    GrowthKeepsMessages(cfg, s, s');
    GrowthKeepsWorkers(cfg, s, s');
    GrowthKeepsOthers(s, s');
  }

  // ---------- access ----------

  lemma InvGivesRow(cfg: Config, s: State, t: TaskId)
    requires Inv(cfg, s) && t in s.rows
    ensures RowOk(s.rows[t]) && t in s.hist && HistoryOk(s.rows[t], s.hist[t], s.next)
  {
  }

  lemma InvGivesWorker(cfg: Config, s: State, w: nat)
    requires Inv(cfg, s) && w in s.workers
    ensures WorkerOk(cfg, s, w, s.workers[w])
    ensures s.workers[w].task in s.rows && s.workers[w].task in s.hist && w < s.next
    ensures RowOk(s.rows[s.workers[w].task]) && HistoryOk(s.rows[s.workers[w].task], s.hist[s.workers[w].task], s.next)
    ensures PcOk(cfg, w, s.workers[w], s.rows[s.workers[w].task], s.hist[s.workers[w].task])
  {
  }

  lemma InvGivesMessage(cfg: Config, s: State, m: nat)
    requires Inv(cfg, s) && m in s.msgs
    ensures m < s.next && CargoOk(cfg, s, s.msgs[m]) && HeldOk(s, m, s.msgs[m]) && RowOk(s.rows[s.msgs[m].task])
  {
  }

  lemma InvGivesCancel(cfg: Config, s: State, c: nat)
    requires Inv(cfg, s) && c in s.cancels
    ensures CancelOk(s, c, s.cancels[c]) && RowOk(s.rows[s.cancels[c].task])
  {
  }

  lemma InvGivesRound(cfg: Config, s: State, n: nat)
    requires Inv(cfg, s) && n in s.rounds
    ensures RoundOk(s, n, s.rounds[n])
  {
  }

  lemma InvGivesKeys(cfg: Config, s: State)
    requires Inv(cfg, s)
    ensures s.subs.Keys <= s.rows.Keys && s.rows.Keys == s.hist.Keys
  {
  }

  // ---------- changes to one part of the state ----------

  lemma PutRowKeepsRows(s: State, t: TaskId, r: Row)
    requires RowsInv(s) && t in s.rows && RowOk(r) && Grows(s.rows[t], r) && (r.state.Pending? ==> s.rows[t].state.Pending?)
    ensures RowsInv(PutRow(s, t, r)) && RowsGrow(s, PutRow(s, t, r))
  {
    hide RowOk;
  }

  /** A write that does not send the row back to pending needs no new history. */
  lemma PutRowKeepsInv(cfg: Config, s: State, t: TaskId, r: Row)
    requires Inv(cfg, s) && t in s.rows
    requires RowOk(r) && Grows(s.rows[t], r) && (r.state.Pending? ==> s.rows[t].state.Pending?)
    ensures Inv(cfg, PutRow(s, t, r)) && RowsGrow(s, PutRow(s, t, r))
  {
    hide RowOk, RowsGrow, RowsInv, MessagesInv, WorkersInv, OthersInv, Grows;
    PutRowKeepsRows(s, t, r);
    GrowthKeepsInv(cfg, s, PutRow(s, t, r));
  }

  lemma SendKeepsInv(cfg: Config, s: State, pub: PubOut, g: Message)
    requires Inv(cfg, s) && !g.place.Held? && CargoOk(cfg, s, g)
    ensures Inv(cfg, Send(s, pub, g)) && RowsGrow(s, Send(s, pub, g))
  {
    var s' := Send(s, pub, g);
    GrowthIsReflexive(s, s');
    hide RowOk, RowsGrow, RetryCap, PcOk;
    forall m | m in s'.msgs ensures m < s'.next && CargoOk(cfg, s', s'.msgs[m]) && HeldOk(s', m, s'.msgs[m]) {
      if m in s.msgs { assert CargoOk(cfg, s, s.msgs[m]) && HeldOk(s, m, s.msgs[m]); }
    }
  }

  lemma MoveKeepsInv(cfg: Config, s: State, m: nat, p: Place)
    requires Inv(cfg, s) && m in s.msgs && !p.Held? && !p.InRetry?
    ensures Inv(cfg, Move(s, m, p)) && RowsGrow(s, Move(s, m, p))
  {
    var s' := Move(s, m, p);
    GrowthIsReflexive(s, s');
    hide RowOk, RowsGrow, RetryCap, PcOk, HistoryOk;
    forall k | k in s'.msgs ensures k < s'.next && CargoOk(cfg, s', s'.msgs[k]) && HeldOk(s', k, s'.msgs[k]) {
      assert CargoOk(cfg, s, s.msgs[k]) && HeldOk(s, k, s.msgs[k]);
    }
  }

  lemma RemoveKeepsInv(cfg: Config, s: State, m: nat)
    requires Inv(cfg, s)
    ensures Inv(cfg, s.(msgs := s.msgs - {m})) && RowsGrow(s, s.(msgs := s.msgs - {m}))
  {
    GrowthIsReflexive(s, s.(msgs := s.msgs - {m}));
    hide RowOk, RowsGrow, RetryCap, PcOk, HistoryOk;
  }

  /** Removing a worker is safe once no message is held by it. */
  lemma RetireKeepsInv(cfg: Config, s: State, w: nat)
    requires Inv(cfg, s) && w in s.workers
    requires forall m :: m in s.msgs ==> s.msgs[m].place != Held(w)
    ensures Inv(cfg, s.(workers := s.workers - {w})) && RowsGrow(s, s.(workers := s.workers - {w}))
  {
    var s' := s.(workers := s.workers - {w});
    GrowthIsReflexive(s, s');
    hide RowOk, RowsGrow, RetryCap, PcOk, HistoryOk;
    forall m | m in s'.msgs ensures m < s'.next && CargoOk(cfg, s', s'.msgs[m]) && HeldOk(s', m, s'.msgs[m]) {
      assert CargoOk(cfg, s, s.msgs[m]) && HeldOk(s, m, s.msgs[m]);
    }
  }

  lemma HeldOnce(cfg: Config, s: State, w: nat, m: nat)
    requires Inv(cfg, s) && m in s.msgs && s.msgs[m].place == Held(w)
    ensures w in s.workers && s.workers[w].mid == m && s.workers[w].task == s.msgs[m].task
  {
    assert HeldOk(s, m, s.msgs[m]);
  }

  lemma SettleKeepsInv(cfg: Config, s: State, w: nat, place: Option<Place>)
    requires Inv(cfg, s) && w in s.workers
    requires place.Some? ==> !place.value.Held? && !place.value.InRetry?
    ensures Inv(cfg, Settle(s, w, place)) && RowsGrow(s, Settle(s, w, place))
  {
    hide Inv, RowsGrow;
    var m := s.workers[w].mid;
    var s1 := if !Holds(s, w) then s
              else match place
                   case Some(p) => Move(s, m, p)
                   case None => s.(msgs := s.msgs - {m});
    if Holds(s, w) {
      if place.Some? { MoveKeepsInv(cfg, s, m, place.value); } else { RemoveKeepsInv(cfg, s, m); }
    } else {
      GrowthIsReflexive(s, s);
    }
    forall k | k in s1.msgs ensures s1.msgs[k].place != Held(w) {
      if k in s.msgs && s.msgs[k].place == Held(w) {
        HeldOnce(cfg, s, w, k);
      }
    }
    RetireKeepsInv(cfg, s1, w);
    GrowthIsTransitive(s, s1, s1.(workers := s1.workers - {w}));
    assert Settle(s, w, place) == s1.(workers := s1.workers - {w});
  }

  // ---------- a worker's move ----------

  /** What an effect must respect, all of it about one task and one worker. */
  predicate EffectOk(cfg: Config, next: nat, w: nat, wk: Worker, r: Row, h: History, e: Effect) {
    && RowOk(e.row) && HistoryOk(e.row, e.hist, next)
    && TaskGrows(r, h, e.row, e.hist)
    && e.hist.claimers <= h.claimers + {w} && e.hist.starters <= h.starters + {w}
    && (e.sent.Some? ==> var g := e.sent.value;
          && g.task == wk.task && g.typ == e.row.typ && g.retry <= RetryCap(cfg) && !g.place.Held?
          && (g.place.InRetry? ==> g.place.attempt < RETRY_QUEUES && g.retry == g.place.attempt + 1))
    && match e.ending
       case At(pc) => PcOk(cfg, w, wk.(pc := pc), e.row, e.hist)
       case Settled(place) => place.Some? ==> !place.value.Held? && !place.value.InRetry?
  }

  lemma WritesKeepRow(r: Row, now: nat, e: TaskError)
    requires RowOk(r)
    ensures forall p :: p in {FinishPatch(now), CancelPatch(now), FailPatch(e, now), EMPTY_PATCH} ==>
              RowOk(RowAfter(r, p, now)) && Grows(r, RowAfter(r, p, now)) && (RowAfter(r, p, now).state.Pending? ==> r.state.Pending?)
    ensures RowOk(FailedWith(r, e, now)) && Grows(r, FailedWith(r, e, now)) && !FailedWith(r, e, now).state.Pending?
    ensures RowOk(Flagged(r, now)) && Grows(r, Flagged(r, now)) && Flagged(r, now).state == r.state
  {
    PatchedKeepsRow(r, FinishPatch(now), now);
    PatchedKeepsRow(r, CancelPatch(now), now);
    PatchedKeepsRow(r, FailPatch(e, now), now);
    PatchedKeepsRow(r, EMPTY_PATCH, now);
  }

  lemma OneMore(a: set<nat>, w: nat)
    requires w !in a
    ensures |a + {w}| == |a| + 1
  {
  }

  /** Claims, reads, reports and resets respect the rules. */
  lemma StoreEffectsAreOk(cfg: Config, next: nat, w: nat, wk: Worker, r: Row, h: History, now: nat, mv: WorkerMove)
    requires RowOk(r) && HistoryOk(r, h, next) && PcOk(cfg, w, wk, r, h) && w < next && MoveEnabled(wk, mv)
    requires mv.Claim? || mv.Load? || mv.Reset?
    ensures EffectOk(cfg, next, w, wk, r, h, EffectOf(cfg, w, wk, r, h, now, mv))
  {
    if mv.Claim? { OneMore(h.claimers, w); }
  }

  lemma ReportEffectsAreOk(cfg: Config, next: nat, w: nat, wk: Worker, r: Row, h: History, now: nat, mv: WorkerMove)
    requires RowOk(r) && HistoryOk(r, h, next) && PcOk(cfg, w, wk, r, h) && w < next && MoveEnabled(wk, mv)
    requires mv.Report? || mv.Repeat?
    ensures EffectOk(cfg, next, w, wk, r, h, EffectOf(cfg, w, wk, r, h, now, mv))
  {
    var st := if mv.Report? then Stages(wk.pc.typ)[wk.pc.at] else Generating;
    if mv.Report? { StagesAreLegal(wk.pc.typ, wk.pc.at); }
    PatchedKeepsRow(r, ReportPatch(st, mv.p), now);
    hide RowOk, Belongs, Stages;
  }

  predicate WritesRow(mv: WorkerMove) {
    mv.FinishCancelled? || mv.FailUnregistered? || mv.Beat? || mv.StageFail? || mv.FailExhausted?
  }

  lemma OtherEffectsAreOk(cfg: Config, next: nat, w: nat, wk: Worker, r: Row, h: History, now: nat, mv: WorkerMove)
    requires RowOk(r) && HistoryOk(r, h, next) && PcOk(cfg, w, wk, r, h) && w < next && MoveEnabled(wk, mv)
    requires !mv.Claim? && !mv.Load? && !mv.Reset? && !mv.Report? && !mv.Repeat? && !WritesRow(mv)
    ensures EffectOk(cfg, next, w, wk, r, h, EffectOf(cfg, w, wk, r, h, now, mv))
  {
    hide RowOk, RowAfter, FailedWith, Stages, ClaimEffect, LoadEffect, ReportEffect, ResetEffect, HistoryOk;
    assert TaskGrows(r, h, r, h);
    hide TaskGrows;
  }

  lemma WriteEffectsAreOk(cfg: Config, next: nat, w: nat, wk: Worker, r: Row, h: History, now: nat, mv: WorkerMove)
    requires RowOk(r) && HistoryOk(r, h, next) && PcOk(cfg, w, wk, r, h) && w < next && MoveEnabled(wk, mv)
    requires WritesRow(mv)
    ensures EffectOk(cfg, next, w, wk, r, h, EffectOf(cfg, w, wk, r, h, now, mv))
  {
    var e := if mv.FailUnregistered? || mv.FailExhausted? || mv.StageFail? then mv.e else TaskError(0, "");
    WritesKeepRow(r, now, e);
    hide RowOk, RowAfter, FailedWith, Stages, ClaimEffect, LoadEffect, ReportEffect, ResetEffect;
  }

  lemma EffectsAreOk(cfg: Config, next: nat, w: nat, wk: Worker, r: Row, h: History, now: nat, mv: WorkerMove)
    requires RowOk(r) && HistoryOk(r, h, next) && PcOk(cfg, w, wk, r, h) && w < next && MoveEnabled(wk, mv)
    ensures EffectOk(cfg, next, w, wk, r, h, EffectOf(cfg, w, wk, r, h, now, mv))
  {
    hide *;
    if mv.Claim? || mv.Load? || mv.Reset? {
      StoreEffectsAreOk(cfg, next, w, wk, r, h, now, mv);
    } else if mv.Report? || mv.Repeat? {
      ReportEffectsAreOk(cfg, next, w, wk, r, h, now, mv);
    } else if WritesRow(mv) {
      WriteEffectsAreOk(cfg, next, w, wk, r, h, now, mv);
    } else {
      OtherEffectsAreOk(cfg, next, w, wk, r, h, now, mv);
    }
  }

  /** Everything but the moving worker is as before. */
  ghost predicate InvBut(cfg: Config, s: State, w: nat) {
    && RowsInv(s) && MessagesInv(cfg, s) && OthersInv(s)
    && w in s.workers
    && (forall v :: v in s.workers && v != w ==> WorkerOk(cfg, s, v, s.workers[v]))
  }

  lemma RowPartKeepsWorkers(cfg: Config, s: State, w: nat, e: Effect)
    requires WorkersInv(cfg, s) && w in s.workers && WorkerOk(cfg, s, w, s.workers[w])
    requires TaskGrows(s.rows[s.workers[w].task], s.hist[s.workers[w].task], e.row, e.hist)
    requires e.hist.claimers <= s.hist[s.workers[w].task].claimers + {w}
    requires e.hist.starters <= s.hist[s.workers[w].task].starters + {w}
    ensures var s' := PerformRow(s, w, e);
            forall v :: v in s'.workers && v != w ==> WorkerOk(cfg, s', v, s'.workers[v])
  {
    hide Stages, Slack;
    var s' := PerformRow(s, w, e);
    forall v | v in s'.workers && v != w ensures WorkerOk(cfg, s', v, s'.workers[v]) {
      assert WorkerOk(cfg, s, v, s.workers[v]);
    }
  }

  lemma RowPartKeepsRows(s: State, w: nat, e: Effect)
    requires RowsInv(s) && w in s.workers && s.workers[w].task in s.rows
    requires RowOk(e.row) && HistoryOk(e.row, e.hist, s.next)
    requires TaskGrows(s.rows[s.workers[w].task], s.hist[s.workers[w].task], e.row, e.hist)
    ensures RowsInv(PerformRow(s, w, e)) && RowsGrow(s, PerformRow(s, w, e))
  {
    hide RowOk, HistoryOk;
  }

  lemma RowPartKeepsInv(cfg: Config, s: State, w: nat, e: Effect)
    requires Inv(cfg, s) && w in s.workers && WorkerOk(cfg, s, w, s.workers[w])
    requires EffectOk(cfg, s.next, w, s.workers[w], s.rows[s.workers[w].task], s.hist[s.workers[w].task], e)
    ensures InvBut(cfg, PerformRow(s, w, e), w) && RowsGrow(s, PerformRow(s, w, e))
  {
    hide RowOk, HistoryOk, TaskGrows, RowsInv, MessagesInv, WorkersInv, OthersInv, RowsGrow, PcOk;
    var s' := PerformRow(s, w, e);
    RowPartKeepsRows(s, w, e);
    RowPartKeepsWorkers(cfg, s, w, e);
    GrowthKeepsMessages(cfg, s, s');
    GrowthKeepsOthers(s, s');
  }

  lemma SendPartKeepsInv(cfg: Config, s: State, w: nat, e: Effect)
    requires InvBut(cfg, s, w)
    requires e.sent.Some? ==> CargoOk(cfg, s, e.sent.value) && !e.sent.value.place.Held?
    ensures InvBut(cfg, PerformSend(s, e), w) && RowsGrow(s, PerformSend(s, e))
  {
    hide RowOk, RowsGrow, RetryCap, PcOk, HistoryOk;
    var s' := PerformSend(s, e);
    GrowthIsReflexive(s, s');
    SendPartKeepsRows(s, e);
    forall m | m in s'.msgs ensures m < s'.next && CargoOk(cfg, s', s'.msgs[m]) && HeldOk(s', m, s'.msgs[m]) {
      if m in s.msgs { assert CargoOk(cfg, s, s.msgs[m]) && HeldOk(s, m, s.msgs[m]); }
    }
    forall v | v in s'.workers && v != w ensures WorkerOk(cfg, s', v, s'.workers[v]) {
      assert WorkerOk(cfg, s, v, s.workers[v]);
    }
  }

  lemma SendPartKeepsRows(s: State, e: Effect)
    requires RowsInv(s)
    ensures RowsInv(PerformSend(s, e))
  {
    hide RowOk;
  }

  lemma EndPartKeepsInv(cfg: Config, s: State, w: nat, pc: Pc)
    requires InvBut(cfg, s, w) && WorkerOk(cfg, s, w, s.workers[w].(pc := pc))
    ensures var s' := s.(workers := s.workers[w := s.workers[w].(pc := pc)]);
            Inv(cfg, s') && RowsGrow(s, s')
  {
    var s' := s.(workers := s.workers[w := s.workers[w].(pc := pc)]);
    GrowthIsReflexive(s, s');
    hide RowOk, RowsGrow, RetryCap, PcOk, HistoryOk;
    forall m | m in s'.msgs ensures m < s'.next && CargoOk(cfg, s', s'.msgs[m]) && HeldOk(s', m, s'.msgs[m]) {
      assert CargoOk(cfg, s, s.msgs[m]) && HeldOk(s, m, s.msgs[m]);
    }
    forall v | v in s'.workers ensures WorkerOk(cfg, s', v, s'.workers[v]) {
      if v != w { assert WorkerOk(cfg, s, v, s.workers[v]); }
    }
  }

  /** A move that settles its delivery neither writes a row nor sends. */
  lemma SettlingEffect(cfg: Config, w: nat, wk: Worker, r: Row, h: History, now: nat, mv: WorkerMove)
    requires MoveEnabled(wk, mv)
    ensures var e := EffectOf(cfg, w, wk, r, h, now, mv);
            e.ending.Settled? ==> e.row == r && e.hist == h && e.sent.None? && !e.starts
  {
    hide ClaimEffect, LoadEffect, ReportEffect, ResetEffect, Kept, RowAfter, FailedWith, RetryMessage, Stages;
    assert mv.Claim? && FirstStateOf(wk.typ).Some? ==> ClaimEffect(w, wk, r, h, now, mv.out).ending.At? by { EndsAt(cfg, w, wk, r, h, now, mv); }
    EndsAt(cfg, w, wk, r, h, now, mv);
  }

  lemma EndsAt(cfg: Config, w: nat, wk: Worker, r: Row, h: History, now: nat, mv: WorkerMove)
    requires MoveEnabled(wk, mv)
    ensures mv.Claim? ==> ClaimEffect(w, wk, r, h, now, mv.out).ending.At?
    ensures mv.Load? ==> LoadEffect(cfg, w, wk, r, h, mv.out).ending.At?
    ensures mv.Reset? ==> ResetEffect(r, h, now, mv.out).ending.At?
    ensures forall p: TaskPatch, next: Pc, out: StoreOut :: ReportEffect(cfg, wk, r, h, now, p, next, out).ending.At?
  {
  }

  lemma WorkKeepsInv(cfg: Config, s: State, w: nat, mv: WorkerMove)
    requires Inv(cfg, s) && WorkEnabled(s, w, mv)
    ensures Inv(cfg, Work(cfg, s, w, mv)) && RowsGrow(s, Work(cfg, s, w, mv))
  {
    hide Inv, InvBut, RowsGrow, RowOk, HistoryOk, TaskGrows, PcOk, MoveEnabled, EffectOf, Settle, RetryCap;
    var wk := s.workers[w];
    InvGivesWorker(cfg, s, w);
    var r := s.rows[wk.task];
    var h := s.hist[wk.task];
    var e := EffectOf(cfg, w, wk, r, h, s.clock, mv);
    EffectsAreOk(cfg, s.next, w, wk, r, h, s.clock, mv);
    if e.ending.Settled? {
      SettlingEffect(cfg, w, wk, r, h, s.clock, mv);
      assert s.rows[wk.task := r] == s.rows && s.hist[wk.task := h] == s.hist;
      SettleKeepsInv(cfg, s, w, e.ending.place);
    } else {
      var s1 := PerformRow(s, w, e);
      RowPartKeepsInv(cfg, s, w, e);
      var s2 := PerformSend(s1, e);
      SendPartKeepsInv(cfg, s1, w, e);
      EndPartKeepsInv(cfg, s2, w, e.ending.pc);
      var s3 := PerformEnd(s2, w, e);
      GrowthIsTransitive(s, s1, s2);
      GrowthIsTransitive(s, s2, s3);
    }
  }

  // ---------- submitters ----------

  lemma NewRowKeepsInv(cfg: Config, s: State, t: TaskId, r: Row)
    requires Inv(cfg, s) && t !in s.rows && RowOk(r)
    ensures Inv(cfg, NewRow(s, t, r)) && RowsGrow(s, NewRow(s, t, r))
  {
    hide RowOk, HistoryOk, HistoryGrows, MessagesInv, WorkersInv, OthersInv, Slack;
    NewRowKeepsRows(s, t, r);
    GrowthKeepsInv(cfg, s, NewRow(s, t, r));
  }

  lemma NewRowKeepsRows(s: State, t: TaskId, r: Row)
    requires RowsInv(s) && t !in s.rows && RowOk(r)
    ensures RowsInv(NewRow(s, t, r)) && RowsGrow(s, NewRow(s, t, r))
  {
    hide RowOk;
  }

  /** Submitters are only required to have a row. */
  lemma SubsKeepInv(cfg: Config, s: State, subs: map<TaskId, SubPc>)
    requires Inv(cfg, s) && subs.Keys <= s.rows.Keys
    ensures Inv(cfg, s.(subs := subs)) && RowsGrow(s, s.(subs := subs))
  {
    GrowthIsReflexive(s, s.(subs := subs));
    hide RowOk, HistoryOk, RowsGrow, MessagesInv, WorkersInv, OthersInv;
    GrowthKeepsInv(cfg, s, s.(subs := subs));
  }

  lemma ThenSubs(cfg: Config, s: State, s1: State, subs: map<TaskId, SubPc>)
    requires Inv(cfg, s1) && RowsGrow(s, s1) && subs.Keys <= s1.rows.Keys
    ensures Inv(cfg, s1.(subs := subs)) && RowsGrow(s, s1.(subs := subs))
  {
    hide *;
    SubsKeepInv(cfg, s1, subs);
    GrowthIsTransitive(s, s1, s1.(subs := subs));
  }

  lemma CreateKeepsInv(cfg: Config, s: State, t: TaskId, tt: TaskType, depth: nat)
    requires Inv(cfg, s) && SubmitEnabled(s, t, Create(tt, depth))
    ensures Inv(cfg, Submit(s, t, Create(tt, depth))) && RowsGrow(s, Submit(s, t, Create(tt, depth)))
  {
    hide Inv, RowsGrow;
    InvGivesKeys(cfg, s);
    NewRowKeepsInv(cfg, s, t, PendingRow(tt, depth + 1, s.clock));
    ThenSubs(cfg, s, NewRow(s, t, PendingRow(tt, depth + 1, s.clock)), s.subs[t := Publishing]);
  }

  lemma PublishKeepsInv(cfg: Config, s: State, t: TaskId, pub: PubOut)
    requires Inv(cfg, s) && SubmitEnabled(s, t, Publish(pub))
    ensures Inv(cfg, Submit(s, t, Publish(pub))) && RowsGrow(s, Submit(s, t, Publish(pub)))
  {
    hide Inv, RowsGrow;
    InvGivesKeys(cfg, s);
    var s1 := Send(s, pub, RootMessage(s, t, s.rows[t].typ));
    SendKeepsInv(cfg, s, pub, RootMessage(s, t, s.rows[t].typ));
    ThenSubs(cfg, s, s1, if pub.Confirmed? then s.subs - {t} else s.subs[t := Failing]);
  }

  lemma FailUnsentKeepsInv(cfg: Config, s: State, t: TaskId, e: TaskError, out: StoreOut)
    requires Inv(cfg, s) && SubmitEnabled(s, t, FailUnsent(e, out))
    ensures Inv(cfg, Submit(s, t, FailUnsent(e, out))) && RowsGrow(s, Submit(s, t, FailUnsent(e, out)))
  {
    hide Inv, RowsGrow, HistoryOk, RowOk, FailedWith;
    InvGivesKeys(cfg, s);
    InvGivesRow(cfg, s, t);
    WritesKeepRow(s.rows[t], s.clock, e);
    var r' := Kept(out, s.rows[t], FailedWith(s.rows[t], e, s.clock));
    PutRowKeepsInv(cfg, s, t, r');
    ThenSubs(cfg, s, PutRow(s, t, r'), s.subs - {t});
  }

  lemma SubmitKeepsInv(cfg: Config, s: State, t: TaskId, mv: SubmitMove)
    requires Inv(cfg, s) && SubmitEnabled(s, t, mv)
    ensures Inv(cfg, Submit(s, t, mv)) && RowsGrow(s, Submit(s, t, mv))
  {
    hide Inv, RowsGrow, NewRow;
    InvGivesKeys(cfg, s);
    match mv
    case Rejected(tt, e) => NewRowKeepsInv(cfg, s, t, RejectedRow(tt, e, s.clock));
    case Create(tt, depth) => CreateKeepsInv(cfg, s, t, tt, depth);
    case Publish(pub) => PublishKeepsInv(cfg, s, t, pub);
    case FailUnsent(e, out) => FailUnsentKeepsInv(cfg, s, t, e, out);
    case Abandon => SubsKeepInv(cfg, s, s.subs - {t});
  }

  // ---------- the broker and the dead-letter consumer ----------

  lemma DeliverKeepsRows(s: State, next: nat)
    requires RowsInv(s) && s.next <= next
    ensures RowsInv(s.(next := next))
  {
    hide RowOk;
  }

  lemma DeliverKeepsMessages(cfg: Config, s: State, m: nat)
    requires Inv(cfg, s) && QueueEnabled(s, m, Deliver)
    ensures MessagesInv(cfg, Queue(s, m, Deliver))
  {
    hide RowOk, RowsInv, OthersInv, PcOk, RetryCap;
    var s' := Queue(s, m, Deliver);
    assert forall w :: w in s.workers ==> w < s.next;
    forall k | k in s'.msgs ensures k < s'.next && CargoOk(cfg, s', s'.msgs[k]) && HeldOk(s', k, s'.msgs[k]) {
      assert CargoOk(cfg, s, s.msgs[k]) && HeldOk(s, k, s.msgs[k]);
    }
  }

  lemma DeliverKeepsWorkers(cfg: Config, s: State, m: nat)
    requires Inv(cfg, s) && QueueEnabled(s, m, Deliver)
    ensures WorkersInv(cfg, Queue(s, m, Deliver))
  {
    hide RowOk, OthersInv, HeldOk, RetryCap, Stages, StatesOf;
    var s' := Queue(s, m, Deliver);
    InvGivesRow(cfg, s, s.msgs[m].task);
    assert CargoOk(cfg, s, s.msgs[m]);
    forall v | v in s'.workers ensures WorkerOk(cfg, s', v, s'.workers[v]) {
      if v in s.workers { assert WorkerOk(cfg, s, v, s.workers[v]); }
    }
  }

  lemma DeliverKeepsInv(cfg: Config, s: State, m: nat)
    requires Inv(cfg, s) && QueueEnabled(s, m, Deliver)
    ensures Inv(cfg, Queue(s, m, Deliver)) && RowsGrow(s, Queue(s, m, Deliver))
  {
    hide RowOk, RowsGrow, RowsInv, MessagesInv, WorkersInv, RetryCap, Stages;
    var s' := Queue(s, m, Deliver);
    GrowthIsReflexive(s, s');
    DeliverKeepsRows(s, s'.next);
    assert s.(next := s'.next).rows == s'.rows;
    assert RowsInv(s') by { SameRowsInv(s.(next := s'.next), s'); }
    DeliverKeepsMessages(cfg, s, m);
    DeliverKeepsWorkers(cfg, s, m);
  }

  lemma SameRowsInv(s: State, s': State)
    requires RowsInv(s) && s'.rows == s.rows && s'.hist == s.hist && s'.subs == s.subs && s'.next == s.next
    ensures RowsInv(s')
  {
    hide RowOk, HistoryOk;
  }

  lemma DlqFailKeepsInv(cfg: Config, s: State, m: nat, e: TaskError, out: StoreOut)
    requires Inv(cfg, s) && QueueEnabled(s, m, DlqFail(e, out))
    ensures Inv(cfg, Queue(s, m, DlqFail(e, out))) && RowsGrow(s, Queue(s, m, DlqFail(e, out)))
  {
    hide Inv, RowsGrow, RowOk, FailedWith, CargoOk, HeldOk;
    InvGivesMessage(cfg, s, m);
    var g := s.msgs[m];
    WritesKeepRow(s.rows[g.task], s.clock, e);
    var r' := Kept(out, s.rows[g.task], FailedWith(s.rows[g.task], e, s.clock));
    PutRowKeepsInv(cfg, s, g.task, r');
    var s1 := PutRow(s, g.task, r');
    MoveKeepsInv(cfg, s1, m, DlqDone);
    GrowthIsTransitive(s, s1, Move(s1, m, DlqDone));
  }

  lemma QueueKeepsInv(cfg: Config, s: State, m: nat, mv: QueueMove)
    requires Inv(cfg, s) && QueueEnabled(s, m, mv)
    ensures Inv(cfg, Queue(s, m, mv)) && RowsGrow(s, Queue(s, m, mv))
  {
    hide Inv, RowsGrow;
    match mv
    case Deliver => DeliverKeepsInv(cfg, s, m);
    case DlqAck => RemoveKeepsInv(cfg, s, m);
    case Drop => RemoveKeepsInv(cfg, s, m);
    case DlqFail(e, out) => DlqFailKeepsInv(cfg, s, m, e, out);
    case Expire => MoveKeepsInv(cfg, s, m, InJobs);
    case DlqDeliver => MoveKeepsInv(cfg, s, m, DlqHeld);
    case Disconnect => MoveKeepsInv(cfg, s, m, if s.msgs[m].place.Held? then InJobs else InDlq);
  }

  // ---------- cancellers and reconcilers ----------

  /** A canceller may move on as far as its own row has come. */
  lemma CancelsKeepInv(cfg: Config, s: State, c: nat, p: CancelPc)
    requires Inv(cfg, s) && CancelOk(s, c, p)
    ensures var s' := s.(cancels := s.cancels[c := p]); Inv(cfg, s') && RowsGrow(s, s')
  {
    var s' := s.(cancels := s.cancels[c := p]);
    GrowthIsReflexive(s, s');
    hide RowOk, HistoryOk, RowsGrow, PcOk;
    GrowthKeepsMessages(cfg, s, s');
    forall k | k in s'.cancels ensures CancelOk(s', k, s'.cancels[k]) {
      if k != c { assert CancelOk(s, k, s.cancels[k]); }
    }
    forall v | v in s'.workers ensures WorkerOk(cfg, s', v, s'.workers[v]) {
      assert WorkerOk(cfg, s, v, s.workers[v]);
    }
  }

  lemma CancelKeepsInv(cfg: Config, s: State, c: nat, mv: CancelMove)
    requires Inv(cfg, s) && CancelEnabled(s, c, mv)
    ensures Inv(cfg, Cancel(s, c, mv)) && RowsGrow(s, Cancel(s, c, mv))
  {
    hide Inv, RowsGrow;
    InvGivesCancel(cfg, s, c);
    var t := s.cancels[c].task;
    var s' := Cancel(s, c, mv);
    WritesKeepRow(s.rows[t], s.clock, TaskError(0, ""));
    PutRowKeepsInv(cfg, s, t, s'.rows[t]);
    var s1 := PutRow(s, t, s'.rows[t]);
    CancelsKeepInv(cfg, s1, c, s'.cancels[c]);
    GrowthIsTransitive(s, s1, s');
  }

  lemma BumpKeepsInv(cfg: Config, s: State, next: nat)
    requires Inv(cfg, s) && s.next <= next
    ensures Inv(cfg, s.(next := next)) && RowsGrow(s, s.(next := next))
  {
    GrowthIsReflexive(s, s.(next := next));
    hide RowOk, RowsGrow, MessagesInv, WorkersInv, OthersInv;
    GrowthKeepsInv(cfg, s, s.(next := next));
  }

  lemma BeginCancelKeepsInv(cfg: Config, s: State, t: TaskId)
    requires Inv(cfg, s) && t in s.rows
    ensures var s' := s.(cancels := s.cancels[s.next := Flagging(t)], next := s.next + 1);
            Inv(cfg, s') && RowsGrow(s, s')
  {
    hide Inv, RowsGrow;
    var s1 := s.(next := s.next + 1);
    BumpKeepsInv(cfg, s, s.next + 1);
    CancelsKeepInv(cfg, s1, s.next, Flagging(t));
    GrowthIsTransitive(s, s1, s1.(cancels := s1.cancels[s.next := Flagging(t)]));
  }

  lemma RoundKeepsInv(cfg: Config, s: State, n: nat, p: RoundPc)
    requires Inv(cfg, s) && RoundOk(s, n, p)
    ensures var s' := s.(rounds := s.rounds[n := p]); Inv(cfg, s') && RowsGrow(s, s')
  {
    var s' := s.(rounds := s.rounds[n := p]);
    GrowthIsReflexive(s, s');
    hide RowOk, HistoryOk, RowsGrow, PcOk;
    GrowthKeepsMessages(cfg, s, s');
    forall k | k in s'.rounds ensures RoundOk(s', k, s'.rounds[k]) {
      if k != n { assert RoundOk(s, k, s.rounds[k]); }
    }
    forall k | k in s'.cancels ensures CancelOk(s', k, s'.cancels[k]) {
      assert CancelOk(s, k, s.cancels[k]);
    }
    forall v | v in s'.workers ensures WorkerOk(cfg, s', v, s'.workers[v]) {
      assert WorkerOk(cfg, s, v, s.workers[v]);
    }
  }

  lemma StaleResetIsOk(r: Row, h: History, next: nat, cutoff: int, now: nat)
    requires RowOk(r) && HistoryOk(r, h, next)
    ensures var r' := ResetIfStale(r, cutoff, now);
            && RowOk(r') && HistoryOk(r', CountReset(h, r, r'), next) && TaskGrows(r, h, r', CountReset(h, r, r'))
            && CountReset(h, r, r').claimers == h.claimers && CountReset(h, r, r').starters == h.starters
  {
  }

  lemma StaleRowsKeepInv(cfg: Config, s: State, cutoff: int)
    requires Inv(cfg, s)
    ensures s.rows.Keys <= s.hist.Keys
    ensures Inv(cfg, StaleRowsReset(s, cutoff)) && RowsGrow(s, StaleRowsReset(s, cutoff))
  {
    hide MessagesInv, WorkersInv, OthersInv, RowOk, HistoryOk, TaskGrows, ResetIfStale, CountReset;
    var s' := StaleRowsReset(s, cutoff);
    forall t | t in s.rows
      ensures t in s'.rows && RowOk(s'.rows[t]) && HistoryOk(s'.rows[t], s'.hist[t], s'.next)
      ensures TaskGrows(s.rows[t], s.hist[t], s'.rows[t], s'.hist[t])
      ensures s'.hist[t].claimers == s.hist[t].claimers && s'.hist[t].starters == s.hist[t].starters
    {
      StaleResetIsOk(s.rows[t], s.hist[t], s.next, cutoff, s.clock);
    }
    GrowthKeepsInv(cfg, s, s');
  }

  lemma ThenRound(cfg: Config, s: State, s1: State, p: RoundPc)
    requires Inv(cfg, s1) && RowsGrow(s, s1) && p.Finding?
    ensures var s' := s1.(rounds := s1.rounds[s1.next := p], next := s1.next + 1); Inv(cfg, s') && RowsGrow(s, s')
  {
    hide Inv, RowsGrow;
    var s2 := s1.(next := s1.next + 1);
    BumpKeepsInv(cfg, s1, s1.next + 1);
    RoundKeepsInv(cfg, s2, s1.next, p);
    GrowthIsTransitive(s, s1, s2);
    GrowthIsTransitive(s, s2, s2.(rounds := s2.rounds[s1.next := p]));
  }

  lemma ResetStaleShape(cfg: Config, s: State, all: bool, out: StoreOut)
    requires s.rows.Keys <= s.hist.Keys
    ensures var cutoff := s.clock - cfg.staleAfter;
            var s1 := StaleRowsReset(s, cutoff);
            ResetStaleStep(cfg, s, all, out) ==
              match out
              case ErrLost => s
              case ErrApplied => s1
              case Done => s1.(rounds := s1.rounds[s1.next := Finding(cutoff, all)], next := s1.next + 1)
  {
  }

  lemma ResetStaleKeepsInv(cfg: Config, s: State, all: bool, out: StoreOut)
    requires Inv(cfg, s) && s.rows.Keys <= s.hist.Keys
    ensures Inv(cfg, ResetStaleStep(cfg, s, all, out)) && RowsGrow(s, ResetStaleStep(cfg, s, all, out))
  {
    hide *;
    ResetStaleShape(cfg, s, all, out);
    var cutoff := s.clock - cfg.staleAfter;
    GrowthIsReflexive(s, s);
    StaleRowsKeepInv(cfg, s, cutoff);
    ThenRound(cfg, s, StaleRowsReset(s, cutoff), Finding(cutoff, all));
  }

  lemma FindKeepsInv(cfg: Config, s: State, n: nat, order: seq<TaskId>)
    requires Inv(cfg, s) && RoundEnabled(s, n, Find(order))
    ensures Inv(cfg, Recover(s, n, Find(order))) && RowsGrow(s, Recover(s, n, Find(order)))
  {
    InvGivesRound(cfg, s, n);
    hide Inv, RowsGrow;
    RoundKeepsInv(cfg, s, n, Sending(Todo(s.rows, order)));
  }

  lemma ResendKeepsInv(cfg: Config, s: State, n: nat, pub: PubOut)
    requires Inv(cfg, s) && RoundEnabled(s, n, Resend(pub))
    ensures Inv(cfg, Recover(s, n, Resend(pub))) && RowsGrow(s, Recover(s, n, Resend(pub)))
  {
    hide Inv, RowsGrow;
    InvGivesRound(cfg, s, n);
    var todo := s.rounds[n].todo;
    var s1 := Send(s, pub, RootMessage(s, todo[0].0, todo[0].1));
    SendKeepsInv(cfg, s, pub, RootMessage(s, todo[0].0, todo[0].1));
    RoundKeepsInv(cfg, s1, n, Sending(todo[1..]));
    GrowthIsTransitive(s, s1, s1.(rounds := s1.rounds[n := Sending(todo[1..])]));
  }

  // ---------- every step ----------

  lemma TickKeepsInv(cfg: Config, s: State, elapsed: nat)
    requires Inv(cfg, s)
    ensures Inv(cfg, s.(clock := s.clock + elapsed)) && RowsGrow(s, s.(clock := s.clock + elapsed))
  {
    GrowthIsReflexive(s, s.(clock := s.clock + elapsed));
    hide RowOk, HistoryOk, RowsGrow, MessagesInv, WorkersInv, OthersInv;
    GrowthKeepsInv(cfg, s, s.(clock := s.clock + elapsed));
  }

  /** Every step, faults included, keeps the invariant, and every row only grows. */
  lemma StepKeepsInv(cfg: Config, s: State, step: Step)
    requires Inv(cfg, s) && Enabled(s, step)
    ensures Inv(cfg, Apply(cfg, s, step)) && RowsGrow(s, Apply(cfg, s, step))
  {
    hide Inv, RowsGrow, Work, WorkEnabled, Submit, Queue, Cancel, ResetStaleStep, Recover;
    match step
    case Tick(elapsed) => TickKeepsInv(cfg, s, elapsed);
    case Submitting(t, mv) => SubmitKeepsInv(cfg, s, t, mv);
    case Working(w, mv) => WorkKeepsInv(cfg, s, w, mv);
    case Queueing(m, mv) => QueueKeepsInv(cfg, s, m, mv);
    case BeginCancel(t) => BeginCancelKeepsInv(cfg, s, t);
    case Cancelation(c, mv) => CancelKeepsInv(cfg, s, c, mv);
    case ResetStale(all, out) => ResetStaleKeepsInv(cfg, s, all, out);
    case Recovering(n, mv) =>
      if mv.Find? { FindKeepsInv(cfg, s, n, mv.order); } else { ResendKeepsInv(cfg, s, n, mv.pub); }
  }
}
