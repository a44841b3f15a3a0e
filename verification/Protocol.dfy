/**
 The task delivery protocol as a transition system: the `tasks` table, the broker's queues, the
 workers running `dispatch`, submitters, cancellers, the dead-letter consumer and the reconciler.
 One step is one call to the store or the broker (or one return of an executor), so every interleaving
 of any number of workers is a run. Crashes, lost connections, dropped messages and failing store calls
 are steps of their own (`IsFault`).
 */
module Protocol {
  import opened Options
  import opened TaskModel
  import opened TaskRows

  type TaskId = string

  datatype Config = Config(maxRetries: nat, executors: set<TaskType>, staleAfter: nat)

  /** Where the broker keeps a message. A held message is a delivery its consumer has not settled. */
  datatype Place = InJobs | InRetry(attempt: nat) | InDlq | Held(worker: nat) | DlqHeld | DlqDone

  /** `retry` is the `x-retry-count` header; `root` names the publish a chain of retries started from. */
  datatype Message = Message(task: TaskId, typ: TaskType, retry: nat, root: nat, place: Place)

  /** The program points of `dispatch` and `resetAndRetry`. */
  datatype Pc =
    | Claiming
    | Loading
    | Cancelling
    | Unregistered
    | Executing(typ: TaskType, at: nat)
    | Interrupted
    | Resetting
    | Republishing
    | Exhausted
    | DeadLettering
    | Acking
    | Nacking

  datatype Worker = Worker(mid: nat, task: TaskId, typ: TaskType, retry: nat, root: nat, pc: Pc)

  datatype SubPc = Publishing | Failing

  datatype CancelPc = Flagging(task: TaskId) | Updating(task: TaskId) | CancelDone(task: TaskId, ok: bool)

  datatype RoundPc = Finding(cutoff: int, all: bool) | Sending(todo: seq<(TaskId, TaskType)>)

  /** What has happened to one task so far: the workers whose claim succeeded, those that entered `Execute`, and the resets of a running row. */
  datatype History = History(claimers: set<nat>, starters: set<nat>, resets: nat)

  datatype State = State(
    clock: nat,
    rows: map<TaskId, Row>,
    msgs: map<nat, Message>,
    workers: map<nat, Worker>,
    subs: map<TaskId, SubPc>,
    cancels: map<nat, CancelPc>,
    rounds: map<nat, RoundPc>,
    next: nat,
    hist: map<TaskId, History>,
    execs: map<nat, nat>)

  const INIT := State(0, map[], map[], map[], map[], map[], map[], 0, map[], map[])

  /** A store call is carried out, or errs without or with its effect in the database. */
  datatype StoreOut = Done | ErrLost | ErrApplied

  /** A publish is confirmed, never reaches its queue, or reaches it without a confirm. */
  datatype PubOut = Confirmed | NotSent | Unconfirmed

  datatype SubmitMove =
    | Rejected(tt: TaskType, e: TaskError)
    | Create(tt: TaskType, depth: nat)
    | Publish(pub: PubOut)
    | FailUnsent(e: TaskError, out: StoreOut)
    | Abandon

  datatype WorkerMove =
    | Reject
    | Claim(out: StoreOut)
    | Load(out: StoreOut)
    | FinishCancelled(out: StoreOut)
    | FailUnregistered(e: TaskError, out: StoreOut)
    | Report(p: Progress, out: StoreOut)
    | Repeat(p: Progress, out: StoreOut)
    | Beat(out: StoreOut)
    | StageFail(e: TaskError, out: StoreOut)
    | ReturnNil
    | ReturnCancelled
    | ReturnError
    | Panic
    | Reset(out: StoreOut)
    | Republish(pub: PubOut)
    | FailExhausted(e: TaskError, out: StoreOut)
    | DeadLetter(pub: PubOut)
    | Ack
    | Nack
    | Crash

  datatype QueueMove =
    | Deliver
    | Expire
    | DlqDeliver
    | DlqFail(e: TaskError, out: StoreOut)
    | DlqAck
    | Disconnect
    | Drop

  datatype CancelMove = SetFlag(out: StoreOut) | SetCancelled(out: StoreOut)

  datatype RoundMove = Find(order: seq<TaskId>) | Resend(pub: PubOut)

  datatype Step =
    | Tick(elapsed: nat)
    | Submitting(t: TaskId, sub: SubmitMove)
    | Working(w: nat, work: WorkerMove)
    | Queueing(m: nat, queue: QueueMove)
    | BeginCancel(t: TaskId)
    | Cancelation(c: nat, cancel: CancelMove)
    | ResetStale(all: bool, out: StoreOut)
    | Recovering(n: nat, round: RoundMove)

  // ---------- what each call does ----------

  const RETRY_QUEUES: nat := 3

  function Min(a: nat, b: nat): nat { if a < b then a else b }

  /** The largest retry count a message can carry. */
  function RetryCap(cfg: Config): nat { Min(cfg.maxRetries, RETRY_QUEUES) }

  function Kept(out: StoreOut, before: Row, after: Row): Row {
    if out.ErrLost? then before else after
  }

  function RowAfter(r: Row, p: TaskPatch, now: nat): Row {
    match Patched(r, p, now)
    case Written(r') => r'
    case Refused(_) => r
  }

  function CancelPatch(now: nat): TaskPatch {
    EMPTY_PATCH.(state := Some(Cancelled), finishedAt := Some(now))
  }

  /** `finishTerminal(cancelled)` also clears the error column. */
  function FinishPatch(now: nat): TaskPatch {
    CancelPatch(now).(clearErr := true)
  }

  function FailPatch(e: TaskError, now: nat): TaskPatch {
    EMPTY_PATCH.(state := Some(Failed), err := Some(e), finishedAt := Some(now))
  }

  function ReportPatch(st: TaskState, p: Progress): TaskPatch {
    EMPTY_PATCH.(state := Some(st), progress := Some(p))
  }

  /** `resetAndRetry` compares the retry header with the configured bound. */
  function AfterError(cfg: Config, retry: nat): Pc {
    if retry < cfg.maxRetries then Resetting else Exhausted
  }

  /** `PublishRetry`: one retry queue per attempt, and the dead-letter queue past the last. */
  function RetryMessage(wk: Worker): Message {
    if wk.retry < RETRY_QUEUES then Message(wk.task, wk.typ, wk.retry + 1, wk.root, InRetry(wk.retry))
    else Message(wk.task, wk.typ, 0, wk.root, InDlq)
  }

  predicate Sent(pub: PubOut) { !pub.NotSent? }

  function PutRow(s: State, t: TaskId, r: Row): State { s.(rows := s.rows[t := r]) }

  function Send(s: State, pub: PubOut, m: Message): State {
    if Sent(pub) then s.(msgs := s.msgs[s.next := m], next := s.next + 1) else s
  }

  function Move(s: State, m: nat, p: Place): State
    requires m in s.msgs
  {
    s.(msgs := s.msgs[m := s.msgs[m].(place := p)])
  }

  predicate Holds(s: State, w: nat) {
    && w in s.workers
    && s.workers[w].mid in s.msgs
    && s.msgs[s.workers[w].mid].place == Held(w)
  }

  /** Settling a delivery the broker no longer waits for has no effect on the broker. */
  function Settle(s: State, w: nat, place: Option<Place>): State
    requires w in s.workers
  {
    var s' := s.(workers := s.workers - {w});
    var m := s.workers[w].mid;
    if !Holds(s, w) then s'
    else match place
         case Some(p) => Move(s', m, p)
         case None => s'.(msgs := s'.msgs - {m})
  }

  function NewRow(s: State, t: TaskId, r: Row): State {
    PutRow(s, t, r).(hist := s.hist[t := History({}, {}, 0)])
  }

  function RootMessage(s: State, t: TaskId, tt: TaskType): Message {
    Message(t, tt, 0, s.next, InJobs)
  }

  function CountReset(h: History, r: Row, r': Row): History {
    if r.state.IsRunning() && r'.state.Pending? then h.(resets := h.resets + 1) else h
  }

  predicate Picked(r: Row, cutoff: int, all: bool) {
    if all then !r.state.IsTerminal() else Stale(r, cutoff)
  }

  /** A query's answer: every picked row once, oldest first. */
  ghost predicate Lists(rows: map<TaskId, Row>, cutoff: int, all: bool, order: seq<TaskId>) {
    && (forall t :: t in order <==> t in rows && Picked(rows[t], cutoff, all))
    && (forall i, j :: 0 <= i < j < |order| ==> order[i] != order[j])
    && (forall i, j :: 0 <= i < j < |order| && order[i] in rows && order[j] in rows ==>
          rows[order[i]].createdAt <= rows[order[j]].createdAt)
  }

  function Todo(rows: map<TaskId, Row>, order: seq<TaskId>): (todo: seq<(TaskId, TaskType)>)
    requires forall t :: t in order ==> t in rows
    ensures |todo| == |order|
    ensures forall i :: 0 <= i < |order| ==> order[i] in rows && todo[i] == (order[i], rows[order[i]].typ)
  {
    seq(|order|, i requires 0 <= i < |order| => assert order[i] in order; (order[i], rows[order[i]].typ))
  }

  ghost predicate SubmitEnabled(s: State, t: TaskId, mv: SubmitMove) {
    match mv
    case Rejected(tt, _) => t !in s.rows && !tt.Other?
    case Create(tt, _) => t !in s.rows && !tt.Other?
    case Publish(_) => t in s.rows && t in s.subs && s.subs[t].Publishing?
    case FailUnsent(_, _) => t in s.rows && t in s.subs && s.subs[t].Failing?
    case Abandon => t in s.subs
  }

  /** Which moves a worker's program point allows. */
  predicate MoveEnabled(wk: Worker, mv: WorkerMove) {
    match mv
    case Reject => wk.pc.Claiming? && FirstStateOf(wk.typ).None?
    case Claim(_) => wk.pc.Claiming? && FirstStateOf(wk.typ).Some?
    case Load(_) => wk.pc.Loading?
    case FinishCancelled(_) => wk.pc.Cancelling? || wk.pc.Interrupted?
    case FailUnregistered(_, _) => wk.pc.Unregistered?
    case Report(_, _) => wk.pc.Executing? && wk.pc.at < |Stages(wk.pc.typ)|
    case Repeat(_, _) => wk.pc.Executing? && wk.pc.typ.Wiki? && wk.pc.at == 2
    case Beat(_) => wk.pc.Executing?
    case StageFail(_, _) => wk.pc.Executing? && 0 < wk.pc.at < |Stages(wk.pc.typ)|
    case ReturnNil => wk.pc.Executing? && wk.pc.at == |Stages(wk.pc.typ)|
    case ReturnCancelled => wk.pc.Executing?
    case ReturnError => wk.pc.Executing?
    case Panic => !wk.pc.Acking? && !wk.pc.Nacking?
    case Reset(_) => wk.pc.Resetting?
    case Republish(_) => wk.pc.Republishing?
    case FailExhausted(_, _) => wk.pc.Exhausted?
    case DeadLetter(_) => wk.pc.DeadLettering?
    case Ack => wk.pc.Acking?
    case Nack => wk.pc.Nacking?
    case Crash => true
  }

  predicate WorkEnabled(s: State, w: nat, mv: WorkerMove) {
    && w in s.workers && s.workers[w].task in s.rows && s.workers[w].task in s.hist
    && MoveEnabled(s.workers[w], mv)
  }

  ghost predicate QueueEnabled(s: State, m: nat, mv: QueueMove) {
    && m in s.msgs && s.msgs[m].task in s.rows
    && var p := s.msgs[m].place;
       match mv
       case Deliver => p.InJobs?
       case Expire => p.InRetry?
       case DlqDeliver => p.InDlq?
       case DlqFail(_, _) => p.DlqHeld?
       case DlqAck => p.DlqDone?
       case Disconnect => p.Held? || p.DlqHeld? || p.DlqDone?
       case Drop => p.InJobs? || p.InRetry? || p.InDlq?
  }

  ghost predicate CancelEnabled(s: State, c: nat, mv: CancelMove) {
    && c in s.cancels && s.cancels[c].task in s.rows
    && match mv
       case SetFlag(_) => s.cancels[c].Flagging?
       case SetCancelled(_) => s.cancels[c].Updating?
  }

  ghost predicate RoundEnabled(s: State, n: nat, mv: RoundMove) {
    && n in s.rounds
    && match mv
       case Find(order) => s.rounds[n].Finding? && Lists(s.rows, s.rounds[n].cutoff, s.rounds[n].all, order)
       case Resend(_) => s.rounds[n].Sending? && s.rounds[n].todo != []
  }

  ghost predicate Enabled(s: State, step: Step) {
    match step
    case Tick(_) => true
    case Submitting(t, mv) => SubmitEnabled(s, t, mv)
    case Working(w, mv) => WorkEnabled(s, w, mv)
    case Queueing(m, mv) => QueueEnabled(s, m, mv)
    case BeginCancel(t) => t in s.rows && !s.rows[t].state.IsTerminal()
    case Cancelation(c, mv) => CancelEnabled(s, c, mv)
    case ResetStale(_, _) => s.rows.Keys <= s.hist.Keys
    case Recovering(n, mv) => RoundEnabled(s, n, mv)
  }

  // ---------- a worker's move ----------

  datatype Ending = At(pc: Pc) | Settled(place: Option<Place>)

  /** All a worker's move does: to its task's row and history, to the execution count, to the broker, and to itself. */
  datatype Effect = Effect(row: Row, hist: History, starts: bool, sent: Option<Message>, ending: Ending)

  function Go(r: Row, h: History, pc: Pc): Effect { Effect(r, h, false, None, At(pc)) }

  function ClaimEffect(w: nat, wk: Worker, r: Row, h: History, now: nat, out: StoreOut): Effect
    requires FirstStateOf(wk.typ).Some?
  {
    var pc := if !out.Done? then Nacking else if r.state.Pending? then Loading else Acking;
    if out.ErrLost? || !r.state.Pending? then Go(r, h, pc)
    else Go(Claimed(r, FirstStateOf(wk.typ).value, now), h.(claimers := h.claimers + {w}), pc)
  }

  /** The read after the claim: a failing read is retried, a flagged task is cancelled, otherwise the executor of the row's type is entered. */
  function LoadEffect(cfg: Config, w: nat, wk: Worker, r: Row, h: History, out: StoreOut): Effect {
    if !out.Done? then Go(r, h, AfterError(cfg, wk.retry))
    else if r.cancelFlag then Go(r, h, Cancelling)
    else if r.typ !in cfg.executors then Go(r, h, Unregistered)
    else Effect(r, h.(starters := h.starters + {w}), true, None, At(Executing(r.typ, 0)))
  }

  /** A progress report that is refused or errs makes the executor return an error. */
  function ReportEffect(cfg: Config, wk: Worker, r: Row, h: History, now: nat, patch: TaskPatch, next: Pc, out: StoreOut): Effect {
    Go(Kept(out, r, RowAfter(r, patch, now)), h,
       if out.Done? && Patched(r, patch, now).Written? then next else AfterError(cfg, wk.retry))
  }

  /** Resetting a finished task affects no row, which the caller sees as an error. */
  function ResetEffect(r: Row, h: History, now: nat, out: StoreOut): Effect {
    var r' := Kept(out, r, ResetPending(r, now));
    Go(r', CountReset(h, r, r'), if out.Done? && !r.state.IsTerminal() then Republishing else Nacking)
  }

  function EffectOf(cfg: Config, w: nat, wk: Worker, r: Row, h: History, now: nat, mv: WorkerMove): Effect
    requires MoveEnabled(wk, mv)
  {
    match mv
    case Reject => Go(r, h, Nacking)
    case Claim(out) => ClaimEffect(w, wk, r, h, now, out)
    case Load(out) => LoadEffect(cfg, w, wk, r, h, out)
    case FinishCancelled(out) => Go(Kept(out, r, RowAfter(r, FinishPatch(now), now)), h, Acking)
    case FailUnregistered(e, out) => Go(Kept(out, r, FailedWith(r, e, now)), h, Acking)
    case Report(p, out) =>
      ReportEffect(cfg, wk, r, h, now, ReportPatch(Stages(wk.pc.typ)[wk.pc.at], p), Executing(wk.pc.typ, wk.pc.at + 1), out)
    case Repeat(p, out) => ReportEffect(cfg, wk, r, h, now, ReportPatch(Generating, p), wk.pc, out)
    case Beat(out) => Go(Kept(out, r, RowAfter(r, EMPTY_PATCH, now)), h, wk.pc)
    case StageFail(e, out) => Go(Kept(out, r, RowAfter(r, FailPatch(e, now), now)), h, Acking)
    case ReturnNil => Go(r, h, Acking)
    case ReturnCancelled => Go(r, h, Interrupted)
    case ReturnError => Go(r, h, AfterError(cfg, wk.retry))
    case Panic => Go(r, h, Nacking)
    case Reset(out) => ResetEffect(r, h, now, out)
    case Republish(pub) =>
      Effect(r, h, false, if Sent(pub) then Some(RetryMessage(wk)) else None, At(if pub.Confirmed? then Acking else Nacking))
    case FailExhausted(e, out) => Go(Kept(out, r, FailedWith(r, e, now)), h, DeadLettering)
    case DeadLetter(pub) =>
      Effect(r, h, false, if Sent(pub) then Some(Message(wk.task, wk.typ, 0, wk.root, InDlq)) else None, At(Acking))
    case Ack => Effect(r, h, false, None, Settled(None))
    case Nack => Effect(r, h, false, None, Settled(Some(InDlq)))
    case Crash => Effect(r, h, false, None, Settled(Some(InJobs)))
  }

  function Execs(s: State, root: nat): nat { if root in s.execs then s.execs[root] else 0 }

  /** The part of an effect that concerns rows, histories and counts. */
  function PerformRow(s: State, w: nat, e: Effect): State
    requires w in s.workers
  {
    var wk := s.workers[w];
    s.(rows := s.rows[wk.task := e.row],
       hist := s.hist[wk.task := e.hist],
       execs := if e.starts then s.execs[wk.root := Execs(s, wk.root) + 1] else s.execs)
  }

  function PerformSend(s: State, e: Effect): State {
    if e.sent.Some? then s.(msgs := s.msgs[s.next := e.sent.value], next := s.next + 1) else s
  }

  function PerformEnd(s: State, w: nat, e: Effect): State
    requires w in s.workers
  {
    match e.ending
    case At(pc) => s.(workers := s.workers[w := s.workers[w].(pc := pc)])
    case Settled(place) => Settle(s, w, place)
  }

  function Work(cfg: Config, s: State, w: nat, mv: WorkerMove): State
    requires WorkEnabled(s, w, mv)
  {
    var wk := s.workers[w];
    var e := EffectOf(cfg, w, wk, s.rows[wk.task], s.hist[wk.task], s.clock, mv);
    PerformEnd(PerformSend(PerformRow(s, w, e), e), w, e)
  }

  /** `ResetStaleRunning`: one guarded update of every running row without a recent heartbeat. */
  function StaleRowsReset(s: State, cutoff: int): State
    requires s.rows.Keys <= s.hist.Keys
  {
    s.(rows := map t | t in s.rows :: ResetIfStale(s.rows[t], cutoff, s.clock),
       hist := map t | t in s.hist ::
         if t in s.rows then CountReset(s.hist[t], s.rows[t], ResetIfStale(s.rows[t], cutoff, s.clock)) else s.hist[t])
  }

  function ResetStaleStep(cfg: Config, s: State, all: bool, out: StoreOut): State
    requires s.rows.Keys <= s.hist.Keys
  {
    var cutoff := s.clock - cfg.staleAfter;
    var s1 := if out.ErrLost? then s else StaleRowsReset(s, cutoff);
    if out.Done? then s1.(rounds := s.rounds[s.next := Finding(cutoff, all)], next := s.next + 1) else s1
  }

  function Submit(s: State, t: TaskId, mv: SubmitMove): State
    requires SubmitEnabled(s, t, mv)
  {
    match mv
    case Rejected(tt, e) => NewRow(s, t, RejectedRow(tt, e, s.clock))
    case Create(tt, depth) => NewRow(s, t, PendingRow(tt, depth + 1, s.clock)).(subs := s.subs[t := Publishing])
    case Publish(pub) =>
      Send(s, pub, RootMessage(s, t, s.rows[t].typ)).(subs := if pub.Confirmed? then s.subs - {t} else s.subs[t := Failing])
    case FailUnsent(e, out) => PutRow(s, t, Kept(out, s.rows[t], FailedWith(s.rows[t], e, s.clock))).(subs := s.subs - {t})
    case Abandon => s.(subs := s.subs - {t})
  }

  function Queue(s: State, m: nat, mv: QueueMove): State
    requires QueueEnabled(s, m, mv)
  {
    var g := s.msgs[m];
    match mv
    case Deliver =>
      Move(s, m, Held(s.next)).(workers := s.workers[s.next := Worker(m, g.task, g.typ, g.retry, g.root, Claiming)], next := s.next + 1)
    case Expire => Move(s, m, InJobs)
    case DlqDeliver => Move(s, m, DlqHeld)
    case DlqFail(e, out) => Move(PutRow(s, g.task, Kept(out, s.rows[g.task], FailedWith(s.rows[g.task], e, s.clock))), m, DlqDone)
    case DlqAck => s.(msgs := s.msgs - {m})
    case Disconnect => Move(s, m, if g.place.Held? then InJobs else InDlq)
    case Drop => s.(msgs := s.msgs - {m})
  }

  function Cancel(s: State, c: nat, mv: CancelMove): State
    requires CancelEnabled(s, c, mv)
  {
    var t := s.cancels[c].task;
    var r := s.rows[t];
    match mv
    case SetFlag(out) =>
      PutRow(s, t, Kept(out, r, Flagged(r, s.clock))).(cancels := s.cancels[c := if out.Done? then Updating(t) else CancelDone(t, false)])
    case SetCancelled(out) =>
      PutRow(s, t, Kept(out, r, RowAfter(r, CancelPatch(s.clock), s.clock))).(
        cancels := s.cancels[c := CancelDone(t, out.Done? && Patched(r, CancelPatch(s.clock), s.clock).Written?)])
  }

  function Recover(s: State, n: nat, mv: RoundMove): State
    requires RoundEnabled(s, n, mv)
  {
    match mv
    case Find(order) => s.(rounds := s.rounds[n := Sending(Todo(s.rows, order))])
    case Resend(pub) =>
      var todo := s.rounds[n].todo;
      Send(s, pub, RootMessage(s, todo[0].0, todo[0].1)).(rounds := s.rounds[n := Sending(todo[1..])])
  }

  function Apply(cfg: Config, s: State, step: Step): State
    requires Enabled(s, step)
  {
    match step
    case Tick(elapsed) => s.(clock := s.clock + elapsed)
    case Submitting(t, mv) => Submit(s, t, mv)
    case Working(w, mv) => Work(cfg, s, w, mv)
    case Queueing(m, mv) => Queue(s, m, mv)
    case BeginCancel(t) => s.(cancels := s.cancels[s.next := Flagging(t)], next := s.next + 1)
    case Cancelation(c, mv) => Cancel(s, c, mv)
    case ResetStale(all, out) => ResetStaleStep(cfg, s, all, out)
    case Recovering(n, mv) => Recover(s, n, mv)
  }

  /** The outcome of the store call a worker's move makes; a move without one cannot fail there. */
  function WorkOutcome(mv: WorkerMove): StoreOut {
    match mv
    case Claim(out) => out
    case Load(out) => out
    case FinishCancelled(out) => out
    case FailUnregistered(_, out) => out
    case Report(_, out) => out
    case Repeat(_, out) => out
    case Beat(out) => out
    case StageFail(_, out) => out
    case Reset(out) => out
    case FailExhausted(_, out) => out
    case _ => Done
  }

  /** Faults: store errors, crashes, lost connections, dropped messages, and a reconciler that finds a running row gone stale. */
  predicate IsFault(cfg: Config, s: State, step: Step) {
    match step
    case Tick(_) => false
    case Submitting(_, mv) => mv.Abandon? || (mv.FailUnsent? && !mv.out.Done?)
    case Working(_, mv) => mv.Crash? || !WorkOutcome(mv).Done?
    case Queueing(_, mv) => mv.Disconnect? || mv.Drop? || (mv.DlqFail? && !mv.out.Done?)
    case BeginCancel(_) => false
    case Cancelation(_, mv) => !mv.out.Done?
    case ResetStale(_, out) => !out.Done? || exists t :: t in s.rows && StaleRunning(s.rows[t], s.clock - cfg.staleAfter)
    case Recovering(_, _) => false
  }

  ghost predicate Next(cfg: Config, s: State, step: Step, s': State) {
    Enabled(s, step) && s' == Apply(cfg, s, step)
  }

  /** A run: each state follows from the one before by the step listed between them. */
  ghost predicate Run(cfg: Config, states: seq<State>, steps: seq<Step>) {
    && |states| == |steps| + 1
    && forall i :: 0 <= i < |steps| ==> Next(cfg, states[i], steps[i], states[i + 1])
  }

  ghost predicate FaultFree(cfg: Config, states: seq<State>, steps: seq<Step>)
    requires |states| == |steps| + 1
  {
    forall i :: 0 <= i < |steps| ==> !IsFault(cfg, states[i], steps[i])
  }
}
