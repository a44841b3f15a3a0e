/**
 Task types, task states and the state-transition table
 (deepwiki/internal/model/task.go), with the stage list every executor reports.
 */
module TaskModel {
  import opened Options

  datatype TaskType = Ingest | Refresh | Wiki | Other(name: string)

  datatype TaskState =
    | Pending
    | Cloning | Parsing | Chunking | Embedding | Persisting
    | Outlining | Generating
    | Fetching | Diffing
    | Completed | Failed | Cancelled
  {
    predicate IsTerminal() {
      Completed? || Failed? || Cancelled?
    }

    predicate IsRunning() {
      !IsTerminal() && !Pending?
    }
  }

  datatype TaskError = TaskError(code: int, stage: string)

  datatype Progress = Progress(current: int, total: int, percent: int)

  /** The union of the three task types' state machines, as one table. */
  function ValidTransitions(from: TaskState): set<TaskState> {
    match from
    case Pending => {Cloning, Outlining, Fetching, Cancelled}
    case Cloning => {Parsing, Cancelled, Failed}
    case Parsing => {Chunking, Cancelled, Failed}
    case Chunking => {Embedding, Cancelled, Failed}
    case Embedding => {Persisting, Cancelled, Failed}
    case Persisting => {Completed, Cancelled, Failed}
    case Outlining => {Generating, Cancelled, Failed}
    case Generating => {Completed, Cancelled, Failed}
    case Fetching => {Diffing, Cancelled, Failed}
    case Diffing => {Chunking, Cancelled, Failed}
    case Completed => {}
    case Failed => {}
    case Cancelled => {}
  }

  predicate CanTransition(from: TaskState, to: TaskState) {
    to in ValidTransitions(from)
  }

  function FirstStateOf(tt: TaskType): Option<TaskState> {
    match tt
    case Ingest => Some(Cloning)
    case Refresh => Some(Fetching)
    case Wiki => Some(Outlining)
    case Other(_) => None
  }

  /** The states one executor reports, in order; the last report is always the completion. */
  function Stages(tt: TaskType): seq<TaskState> {
    match tt
    case Ingest => [Cloning, Parsing, Chunking, Embedding, Persisting, Completed]
    case Refresh => [Fetching, Diffing, Chunking, Embedding, Persisting, Completed]
    case Wiki => [Outlining, Generating, Completed]
    case Other(_) => []
  }

  /** The states a row of the given type passes through. */
  function StatesOf(tt: TaskType): set<TaskState> {
    match tt
    case Ingest => {Cloning, Parsing, Chunking, Embedding, Persisting}
    case Refresh => {Fetching, Diffing, Chunking, Embedding, Persisting}
    case Wiki => {Outlining, Generating}
    case Other(_) => {}
  }

  predicate Belongs(tt: TaskType, st: TaskState) {
    st.Pending? || st.IsTerminal() || st in StatesOf(tt)
  }

  /** Executors report the states of their own type, starting with the one the claim wrote and ending with the completion, each a legal successor. */
  lemma StagesAreLegal(tt: TaskType, i: nat)
    requires i < |Stages(tt)|
    ensures Belongs(tt, Stages(tt)[i]) && !Stages(tt)[i].Pending?
    ensures i == 0 ==> FirstStateOf(tt) == Some(Stages(tt)[0])
    ensures i + 1 < |Stages(tt)| ==> CanTransition(Stages(tt)[i], Stages(tt)[i + 1])
    ensures i + 1 == |Stages(tt)| <==> Stages(tt)[i].IsTerminal()
    ensures i + 1 == |Stages(tt)| ==> Stages(tt)[i].Completed?
  {
    assert i == 0 || i == 1 || i == 2 || i == 3 || i == 4 || i == 5;
  }

  /**
   The transition table is a union and does not know task types: it is closed under
   one type's states only because `Pending` is left through that type's own first state.
   */
  lemma TransitionsStayInType(tt: TaskType, from: TaskState, to: TaskState)
    requires !tt.Other? && Belongs(tt, from) && CanTransition(from, to)
    ensures from.Pending? ==> (Belongs(tt, to) <==> to == FirstStateOf(tt).value || to.IsTerminal())
    ensures !from.Pending? ==> Belongs(tt, to)
  {
  }
}
