/**
 Bounded executions: in a fault-free run, one published message together with all the retries descending from it
 enters `Execute` at most 1 + min(maxRetries, 3) times. A message's unused attempts are the measure.
 */
module Lineage {
  import opened Options
  import opened TaskModel
  import opened TaskRows
  import opened Protocol
  import opened ProtocolInvariant
  import opened ProtocolSafety
  import opened Delivery

  /** The program points from which a delivery can still execute or be resent. */
  predicate ArmedPc(pc: Pc) {
    pc.Claiming? || pc.Loading? || pc.Executing? || pc.Resetting? || pc.Republishing?
  }

  predicate Armed(s: State, m: nat) {
    && m in s.msgs
    && match s.msgs[m].place
       case InJobs => true
       case InRetry(_) => true
       case Held(w) => w in s.workers && ArmedPc(s.workers[w].pc)
       case _ => false
  }

  /** Whether this delivery has used its own attempt. */
  function Spent(pc: Pc): nat {
    if pc.Claiming? || pc.Loading? then 0 else 1
  }

  function Used(s: State, m: nat): nat
    requires m in s.msgs
  {
    match s.msgs[m].place
    case Held(w) => s.msgs[m].retry + (if w in s.workers then Spent(s.workers[w].pc) else 1)
    case _ => s.msgs[m].retry
  }

  /** An armed message's lineage has executed no more often than its retry count and its own attempt say, and a lineage has one armed message. */
  ghost predicate Bounded(cfg: Config, s: State) {
    && (forall m :: Armed(s, m) ==> s.msgs[m].root < s.next && Execs(s, s.msgs[m].root) <= Used(s, m))
    && (forall m, n :: Armed(s, m) && Armed(s, n) && s.msgs[m].root == s.msgs[n].root ==> m == n)
    && (forall root :: root in s.execs ==> root < s.next && s.execs[root] <= 1 + RetryCap(cfg))
  }

  /** Message `m` of the later state continues message `o` of the earlier one without using more than it gains. */
  predicate Inherits(s: State, s': State, m: nat, o: nat)
    requires m in s'.msgs
  {
    && Armed(s, o)
    && s.msgs[o].root == s'.msgs[m].root
    && Execs(s', s'.msgs[m].root) - Execs(s, s'.msgs[m].root) <= Used(s', m) - Used(s, o)
  }

  /** A step that lets every armed message continue itself, except a new one that starts a lineage or continues `k`, keeps the bound. */
  lemma InheritanceKeepsBounded(cfg: Config, s: State, s': State, k: nat)
    requires Bounded(cfg, s) && s.next <= s'.next && (s.next in s'.msgs ==> s.next < s'.next)
    requires forall m :: Armed(s', m) && m != s.next ==> Inherits(s, s', m, m)
    requires Armed(s', s.next) ==>
               || (s'.msgs[s.next].root == s.next && s.next !in s'.execs)
               || (Inherits(s, s', s.next, k) && !Armed(s', k))
    requires forall root :: root in s'.execs ==> root < s.next && s'.execs[root] <= 1 + RetryCap(cfg)
    ensures Bounded(cfg, s')
  {
    hide RetryCap, Used;
    forall m | Armed(s', m) ensures s'.msgs[m].root < s'.next && Execs(s', s'.msgs[m].root) <= Used(s', m) {
    }
    forall m, n | Armed(s', m) && Armed(s', n) && s'.msgs[m].root == s'.msgs[n].root ensures m == n {
    }
  }

  // ---------- a worker's move ----------

  /** What a worker's move does to its lineage. */
  lemma EffectKeepsLineage(cfg: Config, w: nat, wk: Worker, r: Row, h: History, now: nat, mv: WorkerMove)
    requires MoveEnabled(wk, mv) && !mv.Crash?
    ensures LineageEffect(wk, EffectOf(cfg, w, wk, r, h, now, mv))
  {
    hide Stages, Patched, RowAfter, FailedWith, ResetPending;
  }

  predicate LineageEffect(wk: Worker, e: Effect) {
    && (e.starts ==> wk.pc.Loading? && e.ending.At? && e.ending.pc.Executing? && e.sent.None?)
    && (e.ending.At? && ArmedPc(e.ending.pc) ==>
          && ArmedPc(wk.pc) && e.sent.None?
          && Spent(wk.pc) + (if e.starts then 1 else 0) <= Spent(e.ending.pc))
    && (e.sent.Some? && e.sent.value.place.InRetry? ==>
          wk.pc.Republishing? && e.sent.value.retry == wk.retry + 1 && e.sent.value.root == wk.root)
    && (e.sent.Some? ==> !e.starts && !e.sent.value.place.InJobs? && !e.sent.value.place.Held?)
    && (e.ending.Settled? ==> e.sent.None? && !e.starts)
    && (e.ending.Settled? && e.ending.place.Some? ==> e.ending.place.value.InDlq?)
  }

  /** Where the messages, workers and counts after a worker's move come from. */
  predicate Origins(s: State, w: nat, e: Effect, s': State)
    requires w in s.workers
  {
    var k := s.workers[w].mid;
    && s'.execs == (if e.starts then s.execs[s.workers[w].root := Execs(s, s.workers[w].root) + 1] else s.execs)
    && s'.next == (if e.sent.Some? then s.next + 1 else s.next)
    && (forall m :: m in s'.msgs ==>
          || (m == s.next && e.sent == Some(s'.msgs[m]))
          || (m in s.msgs && s'.msgs[m] == s.msgs[m] && (m == k ==> e.ending.At?))
          || (m == k && e.ending.Settled? && e.ending.place == Some(s'.msgs[m].place)))
    && (forall v :: v in s'.workers ==>
          v in s.workers && s'.workers[v] == if v == w && e.ending.At? then s.workers[v].(pc := e.ending.pc) else s.workers[v])
  }

  lemma PerformedOrigins(s: State, w: nat, e: Effect)
    requires w in s.workers && Holds(s, w) && (e.ending.Settled? ==> e.sent.None?)
    requires s.workers[w].mid < s.next
    ensures Origins(s, w, e, PerformEnd(PerformSend(PerformRow(s, w, e), e), w, e))
  {
    if e.ending.Settled? { SettledOrigins(s, w, e); }
  }

  lemma SettledOrigins(s: State, w: nat, e: Effect)
    requires w in s.workers && Holds(s, w) && e.ending.Settled? && e.sent.None?
    ensures Origins(s, w, e, PerformEnd(PerformRow(s, w, e), w, e))
  {
    var k := s.workers[w].mid;
    var s1 := PerformRow(s, w, e);
    assert Holds(s1, w) && s1.msgs == s.msgs && s1.workers == s.workers && s1.next == s.next;
    var s' := Settle(s1, w, e.ending.place);
    hide PerformRow;
    assert s'.workers == s.workers - {w} && s'.next == s.next && s'.execs == s1.execs;
    assert s'.msgs == if e.ending.place.Some? then s.msgs[k := s.msgs[k].(place := e.ending.place.value)] else s.msgs - {k};
  }

  lemma WorkKeepsBounded(cfg: Config, s: State, w: nat, mv: WorkerMove)
    requires Inv(cfg, s) && AllCovered(s) && Bounded(cfg, s) && WorkEnabled(s, w, mv) && !mv.Crash?
    ensures Bounded(cfg, Work(cfg, s, w, mv))
  {
    var wk := s.workers[w];
    var e := EffectOf(cfg, w, wk, s.rows[wk.task], s.hist[wk.task], s.clock, mv);
    assert Holds(s, w);
    InvGivesMessage(cfg, s, wk.mid);
    MessagesAreOld(cfg, s);
    EffectKeepsLineage(cfg, w, wk, s.rows[wk.task], s.hist[wk.task], s.clock, mv);
    PerformedOrigins(s, w, e);
    OriginsKeepBounded(cfg, s, w, e, Work(cfg, s, w, mv));
  }

  lemma OriginsKeepBounded(cfg: Config, s: State, w: nat, e: Effect, s': State)
    requires Bounded(cfg, s) && w in s.workers && Holds(s, w)
    requires forall m :: m in s.msgs ==> m < s.next && HeldOk(s, m, s.msgs[m])
    requires s.msgs[s.workers[w].mid].retry <= RetryCap(cfg)
    requires LineageEffect(s.workers[w], e) && Origins(s, w, e, s')
    ensures Bounded(cfg, s')
  {
    hide RetryCap;
    var wk := s.workers[w];
    var k := wk.mid;
    assert HeldOk(s, k, s.msgs[k]);
    forall m | Armed(s', m) && m != s.next ensures Inherits(s, s', m, m) {
      if m in s.msgs && s.msgs[m].place == Held(w) { assert HeldOk(s, m, s.msgs[m]); }
    }
    InheritanceKeepsBounded(cfg, s, s', k);
  }

  // ---------- the other steps ----------

  /** A step that starts no execution and arms no message but, possibly, a new root. */
  lemma SameLineages(cfg: Config, s: State, s': State)
    requires Bounded(cfg, s) && s.next <= s'.next && s'.execs == s.execs && (s.next in s'.msgs ==> s.next < s'.next)
    requires forall m :: Armed(s', m) && m != s.next ==> Armed(s, m) && s'.msgs[m].root == s.msgs[m].root && Used(s, m) <= Used(s', m)
    requires Armed(s', s.next) ==> s'.msgs[s.next].root == s.next
    ensures Bounded(cfg, s')
  {
    hide Armed, Used, RetryCap;
    forall root | root in s'.execs ensures root < s.next { assert root in s.execs; }
    InheritanceKeepsBounded(cfg, s, s', 0);
  }

  lemma QueueKeepsBounded(cfg: Config, s: State, m: nat, mv: QueueMove)
    requires Bounded(cfg, s) && QueueEnabled(s, m, mv) && !mv.Disconnect? && !mv.Drop?
    requires forall k :: k in s.msgs ==> k < s.next && HeldOk(s, k, s.msgs[k])
    requires forall w :: w in s.workers ==> w < s.next
    ensures Bounded(cfg, Queue(s, m, mv))
  {
    hide Bounded, Kept, FailedWith;
    var s' := Queue(s, m, mv);
    SameLineages(cfg, s, s');
  }

  /** Publishing opens a lineage of its own. */
  lemma PublishKeepsBounded(cfg: Config, s: State, pub: PubOut, g: Message, s': State)
    requires Bounded(cfg, s) && g.root == s.next && forall k :: k in s.msgs ==> k < s.next
    requires s'.msgs == Send(s, pub, g).msgs && s'.next == Send(s, pub, g).next && s'.workers == s.workers && s'.execs == s.execs
    ensures Bounded(cfg, s')
  {
    hide Bounded;
    SameLineages(cfg, s, s');
  }

  lemma SubmitKeepsBounded(cfg: Config, s: State, t: TaskId, mv: SubmitMove)
    requires Bounded(cfg, s) && SubmitEnabled(s, t, mv) && forall k :: k in s.msgs ==> k < s.next
    ensures Bounded(cfg, Submit(s, t, mv))
  {
    hide Bounded, Kept, FailedWith;
    if mv.Publish? {
      PublishKeepsBounded(cfg, s, mv.pub, RootMessage(s, t, s.rows[t].typ), Submit(s, t, mv));
    } else {
      QuietKeepsBounded(cfg, s, Submit(s, t, mv));
    }
  }

  lemma RoundKeepsBounded(cfg: Config, s: State, n: nat, mv: RoundMove)
    requires Bounded(cfg, s) && RoundEnabled(s, n, mv) && forall k :: k in s.msgs ==> k < s.next
    ensures Bounded(cfg, Recover(s, n, mv))
  {
    hide Bounded, Todo, Lists;
    if mv.Resend? {
      PublishKeepsBounded(cfg, s, mv.pub, RootMessage(s, s.rounds[n].todo[0].0, s.rounds[n].todo[0].1), Recover(s, n, mv));
    } else {
      QuietKeepsBounded(cfg, s, Recover(s, n, mv));
    }
  }

  lemma CancelFrame(s: State, c: nat, mv: CancelMove)
    requires CancelEnabled(s, c, mv)
    ensures var s' := Cancel(s, c, mv); s'.msgs == s.msgs && s'.workers == s.workers && s'.execs == s.execs && s'.next == s.next
  {
    hide Kept, RowAfter, Flagged, Patched;
  }

  lemma QuietSteps(cfg: Config, s: State, step: Step)
    requires Enabled(s, step) && (step.Cancelation? || step.ResetStale? || step.Tick? || step.BeginCancel?)
    ensures var s' := Apply(cfg, s, step);
            s'.msgs == s.msgs && s'.workers == s.workers && s'.execs == s.execs && s.next <= s'.next
  {
    hide Work, WorkEnabled, Submit, SubmitEnabled, Queue, QueueEnabled, Cancel, CancelEnabled, Recover, RoundEnabled, ResetStaleStep, StaleRowsReset;
    if step.Cancelation? { CancelFrame(s, step.c, step.cancel); }
    if step.ResetStale? {
      ResetStaleShape(cfg, s, step.all, step.out);
      StaleResetTouchesRows(s, s.clock - cfg.staleAfter);
    }
  }

  lemma QuietKeepsBounded(cfg: Config, s: State, s': State)
    requires Bounded(cfg, s) && s'.msgs == s.msgs && s'.workers == s.workers && s'.execs == s.execs && s.next <= s'.next
    requires forall k :: k in s.msgs ==> k < s.next
    ensures Bounded(cfg, s')
  {
    hide Bounded;
    SameLineages(cfg, s, s');
  }

  lemma HoldersAreOk(cfg: Config, s: State)
    requires Inv(cfg, s)
    ensures forall m :: m in s.msgs ==> m < s.next && HeldOk(s, m, s.msgs[m])
  {
  }

  lemma StepKeepsBounded(cfg: Config, s: State, step: Step)
    requires Inv(cfg, s) && AllCovered(s) && Bounded(cfg, s) && Enabled(s, step) && !IsFault(cfg, s, step)
    ensures Bounded(cfg, Apply(cfg, s, step))
  {
    hide Inv, AllCovered, Bounded, HeldOk, Work, WorkEnabled, Submit, SubmitEnabled, Queue, QueueEnabled, Cancel, CancelEnabled,
         ResetStaleStep, Recover, RoundEnabled;
    HoldersAreOk(cfg, s);
    WorkersAreOld(cfg, s);
    match step
    case Submitting(t, mv) => SubmitKeepsBounded(cfg, s, t, mv);
    case Working(w, mv) => WorkKeepsBounded(cfg, s, w, mv);
    case Queueing(m, mv) => QueueKeepsBounded(cfg, s, m, mv);
    case Recovering(n, mv) => RoundKeepsBounded(cfg, s, n, mv);
    case _ =>
      QuietSteps(cfg, s, step);
      QuietKeepsBounded(cfg, s, Apply(cfg, s, step));
  }

  lemma {:induction false} RunBounded(cfg: Config, states: seq<State>, steps: seq<Step>, j: nat)
    requires Run(cfg, states, steps) && FaultFree(cfg, states, steps) && states[0] == INIT && j < |states|
    ensures Bounded(cfg, states[j])
  {
    hide AllCovered, Inv, Apply, Enabled, IsFault;
    if j > 0 {
      hide Bounded;
      RunBounded(cfg, states, steps, j - 1);
      RunInv(cfg, states, steps, j - 1);
      RunCovered(cfg, states, steps, j - 1);
      assert Next(cfg, states[j - 1], steps[j - 1], states[j]);
      StepKeepsBounded(cfg, states[j - 1], steps[j - 1]);
    }
  }

  predicate Waiting(s: State, m: nat) {
    m in s.msgs && (s.msgs[m].place.InJobs? || s.msgs[m].place.InRetry?)
  }

  /**
   In a fault-free run, every published message and the retries descending from it enter `Execute` at most
   1 + min(maxRetries, 3) times, and a message that can still execute has attempts left: its lineage has executed
   at most as often as its retry count.
   */
  lemma ExecutionsAreBounded(cfg: Config, states: seq<State>, steps: seq<Step>, j: nat, root: nat)
    requires Run(cfg, states, steps) && FaultFree(cfg, states, steps) && states[0] == INIT && j < |states|
    ensures Execs(states[j], root) <= 1 + cfg.maxRetries && Execs(states[j], root) <= 1 + RETRY_QUEUES
    ensures forall m :: Waiting(states[j], m) && states[j].msgs[m].root == root ==> Execs(states[j], root) <= states[j].msgs[m].retry
    ensures forall m, n :: Waiting(states[j], m) && Waiting(states[j], n) && states[j].msgs[m].root == states[j].msgs[n].root ==> m == n
  {
    RunBounded(cfg, states, steps, j);
    var s := states[j];
    forall m | Waiting(s, m) ensures Armed(s, m) && Used(s, m) == s.msgs[m].retry {
    }
  }
}
