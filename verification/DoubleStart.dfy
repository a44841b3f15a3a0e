/**
 A run from the empty system in which one reset is followed by two executions: a worker claims a task and is slow to read its row;
 the row goes stale, is reset and published again; a second worker claims it and starts, and then so does the first.
 */
module DoubleStart {
  import opened Options
  import opened TaskModel
  import opened TaskRows
  import opened Protocol
  import opened ProtocolInvariant
  import opened ProtocolSafety
  import opened Starts

  function StartedRow(tt: TaskType): Row
    requires FirstStateOf(tt).Some?
  {
    Claimed(PendingRow(tt, 1, 0), FirstStateOf(tt).value, 0)
  }

  function ResetRow(cfg: Config, tt: TaskType): Row
    requires FirstStateOf(tt).Some?
  {
    StartedRow(tt).(state := Pending, updatedAt := cfg.staleAfter + 1)
  }

  function Slow(t: TaskId, tt: TaskType, pc: Pc): Worker {
    Worker(0, t, tt, 0, 0, pc)
  }

  /** The states of the first eight steps. */
  function S(cfg: Config, t: TaskId, tt: TaskType, k: nat): State
    requires FirstStateOf(tt).Some?
  {
    var row := if k <= 3 then PendingRow(tt, 1, 0) else if k <= 5 then StartedRow(tt) else ResetRow(cfg, tt);
    var claimers := if k <= 3 then {} else {1};
    var held := Message(t, tt, 0, 0, if k <= 2 then InJobs else Held(1));
    State(
      if k <= 4 then 0 else cfg.staleAfter + 1,
      if k == 0 then map[] else map[t := row],
      if k <= 1 then map[] else if k <= 7 then map[0 := held] else map[0 := held, 3 := Message(t, tt, 0, 3, InJobs)],
      if k <= 2 then map[] else map[1 := Slow(t, tt, if k == 3 then Claiming else Loading)],
      if k == 1 then map[t := Publishing] else map[],
      map[],
      if k <= 5 then map[] else map[2 := if k == 6 then Finding(1, true) else if k == 7 then Sending([(t, tt)]) else Sending([])],
      if k <= 1 then 0 else if k == 2 then 1 else if k <= 5 then 2 else if k <= 7 then 3 else 4,
      if k == 0 then map[] else map[t := History(claimers, {}, if k <= 5 then 0 else 1)],
      map[])
  }

  function StepAt(cfg: Config, t: TaskId, tt: TaskType, k: nat): Step {
    match k
    case 0 => Submitting(t, Create(tt, 0))
    case 1 => Submitting(t, Publish(Confirmed))
    case 2 => Queueing(0, Deliver)
    case 3 => Working(1, Claim(Done))
    case 4 => Tick(cfg.staleAfter + 1)
    case 5 => ResetStale(true, Done)
    case 6 => Recovering(2, Find([t]))
    case _ => Recovering(2, Resend(Confirmed))
  }

  lemma Submitted(cfg: Config, t: TaskId, tt: TaskType)
    requires FirstStateOf(tt).Some?
    ensures Next(cfg, S(cfg, t, tt, 0), StepAt(cfg, t, tt, 0), S(cfg, t, tt, 1))
    ensures Next(cfg, S(cfg, t, tt, 1), StepAt(cfg, t, tt, 1), S(cfg, t, tt, 2))
  {
  }

  lemma ClaimedByOne(cfg: Config, t: TaskId, tt: TaskType)
    requires FirstStateOf(tt).Some?
    ensures Next(cfg, S(cfg, t, tt, 2), StepAt(cfg, t, tt, 2), S(cfg, t, tt, 3))
    ensures Next(cfg, S(cfg, t, tt, 3), StepAt(cfg, t, tt, 3), S(cfg, t, tt, 4))
  {
    var s, s' := S(cfg, t, tt, 3), S(cfg, t, tt, 4);
    var w := Work(cfg, s, 1, Claim(Done));
    assert w.rows == s'.rows && w.workers == s'.workers;
    assert s.hist[t].claimers + {1} == {1};
    assert w.hist == s'.hist;
  }

  lemma TimePasses(cfg: Config, t: TaskId, tt: TaskType)
    requires FirstStateOf(tt).Some?
    ensures Next(cfg, S(cfg, t, tt, 4), StepAt(cfg, t, tt, 4), S(cfg, t, tt, 5))
  {
    hide ResetStaleStep, Work, Queue, Submit, Recover, Cancel;
  }

  lemma GoneStale(cfg: Config, t: TaskId, tt: TaskType)
    requires FirstStateOf(tt).Some?
    ensures Next(cfg, S(cfg, t, tt, 5), StepAt(cfg, t, tt, 5), S(cfg, t, tt, 6))
  {
    hide Work, Queue, Submit, Recover, Cancel;
    assert StaleRowsReset(S(cfg, t, tt, 5), 1).rows == map[t := ResetRow(cfg, tt)];
    assert StaleRowsReset(S(cfg, t, tt, 5), 1).hist == map[t := History({1}, {}, 1)];
  }

  lemma Found(cfg: Config, t: TaskId, tt: TaskType)
    requires FirstStateOf(tt).Some?
    ensures Next(cfg, S(cfg, t, tt, 6), StepAt(cfg, t, tt, 6), S(cfg, t, tt, 7))
  {
    hide Work, Queue, Submit, ResetStaleStep, Cancel;
    var rows := S(cfg, t, tt, 6).rows;
    assert Todo(rows, [t]) == [(t, tt)] by { assert [t][0] in rows; }
  }

  lemma PublishedAgain(cfg: Config, t: TaskId, tt: TaskType)
    requires FirstStateOf(tt).Some?
    ensures Next(cfg, S(cfg, t, tt, 7), StepAt(cfg, t, tt, 7), S(cfg, t, tt, 8))
  {
    hide Work, Queue, Submit, ResetStaleStep, Cancel, Lists, Todo;
    assert [(t, tt)][1..] == [];
  }

  /** The state the eight steps lead to. */
  lemma ItIsOvertakable(cfg: Config, t: TaskId, tt: TaskType)
    requires FirstStateOf(tt).Some? && tt in cfg.executors
    ensures S(cfg, t, tt, 0) == INIT && Overtakable(cfg, S(cfg, t, tt, 8), t, 1, 3)
    ensures t in S(cfg, t, tt, 8).hist && S(cfg, t, tt, 8).hist[t] == History({1}, {}, 1)
  {
  }

  /** Eight steps from the empty system to a latecomer whose task is pending again, with a message queued for another worker. */
  lemma LatecomerIsReachable(cfg: Config, t: TaskId, tt: TaskType) returns (states: seq<State>, steps: seq<Step>)
    requires FirstStateOf(tt).Some? && tt in cfg.executors
    ensures Run(cfg, states, steps) && states[0] == INIT && |steps| == 8
    ensures Overtakable(cfg, states[8], t, 1, 3)
    ensures t in states[8].hist && states[8].hist[t] == History({1}, {}, 1)
  {
    hide Next, StepAt, S, Overtakable;
    states := seq(9, k requires 0 <= k < 9 => S(cfg, t, tt, k));
    steps := seq(8, k requires 0 <= k < 8 => StepAt(cfg, t, tt, k));
    Submitted(cfg, t, tt);
    ClaimedByOne(cfg, t, tt);
    TimePasses(cfg, t, tt);
    GoneStale(cfg, t, tt);
    Found(cfg, t, tt);
    PublishedAgain(cfg, t, tt);
    ItIsOvertakable(cfg, t, tt);
    assert forall i :: 0 <= i < 8 ==> Next(cfg, states[i], steps[i], states[i + 1]);
  }

  lemma Joined(cfg: Config, a: seq<State>, x: seq<Step>, b: seq<State>, y: seq<Step>)
    requires Run(cfg, a, x) && Run(cfg, b, y) && a[|a| - 1] == b[0]
    ensures Run(cfg, a + b[1..], x + y)
  {
    hide Next;
    var states, steps := a + b[1..], x + y;
    forall i | 0 <= i < |steps| ensures Next(cfg, states[i], steps[i], states[i + 1]) {
      if i >= |x| {
        assert states[i] == b[i - |x|] && states[i + 1] == b[i + 1 - |x|] && steps[i] == y[i - |x|];
      }
    }
  }

  /**
   The whole run, twelve steps from the empty system: one reset, and after it two executions of the same task, started by
   two workers without a further reset between them.
   */
  lemma OneResetTwoStarts(cfg: Config, t: TaskId, tt: TaskType) returns (states: seq<State>, steps: seq<Step>)
    requires FirstStateOf(tt).Some? && tt in cfg.executors
    ensures Run(cfg, states, steps) && states[0] == INIT && |steps| == 12
    ensures t in states[8].hist && states[8].hist[t].resets == 1 && states[8].hist[t].starters == {}
    ensures t in states[12].hist && states[12].hist[t].resets == 1 && |states[12].hist[t].starters| == 2
  {
    hide Run, Overtakable, Inv;
    var a, x := LatecomerIsReachable(cfg, t, tt);
    assert |a| == 9 by { RunLength(cfg, a, x); }
    RunInv(cfg, a, x, 8);
    var b, y := LatecomerStartsTwice(cfg, a[8], t, 1, 3);
    assert |b| == 5 by { RunLength(cfg, b, y); }
    Joined(cfg, a, x, b, y);
    states, steps := a + b[1..], x + y;
    assert states[12] == b[4] && states[8] == a[8];
    assert b[4].hist[t].starters - {} == b[4].hist[t].starters;
  }

  lemma RunLength(cfg: Config, states: seq<State>, steps: seq<Step>)
    requires Run(cfg, states, steps)
    ensures |states| == |steps| + 1
  {
  }
}
