/**
 The stage pipeline (deepwiki/internal/ingest/pipeline.go): stages run in order, each reported before it starts with the weights of
 the stages behind it, and a completion at the end. Also the embedding stage's gathering of texts and scattering of vectors.
 */
module Pipeline {
  import opened Options
  import opened TaskModel
  import opened TaskRows
  import opened Protocol
  import opened TaskStore
  import opened Chunker

  /** The share of a stage, as one table for all task types. */
  function StageWeight(st: TaskState): nat {
    match st
    case Cloning => 15
    case Parsing => 10
    case Chunking => 10
    case Embedding => 50
    case Persisting => 15
    case Fetching => 20
    case Diffing => 10
    case Outlining => 10
    case Generating => 90
    case _ => 0
  }

  /** The weights of the first `k` stages. */
  function WeightBefore(tt: TaskType, k: nat): nat
    requires k <= |Stages(tt)|
  {
    if k == 0 then 0 else WeightBefore(tt, k - 1) + StageWeight(Stages(tt)[k - 1])
  }

  /** The percentage reported with stage `k`; the completion is always 100. */
  function PercentAt(tt: TaskType, k: nat): nat
    requires k < |Stages(tt)|
  {
    if k == |Stages(tt)| - 1 then 100 else WeightBefore(tt, k)
  }

  /** Refresh weights add up to 105, and no reported percentage ever shows it. */
  lemma WeightsAddUp()
    ensures WeightBefore(Ingest, 5) == 100 && WeightBefore(Refresh, 5) == 105
  {
    assert WeightBefore(Ingest, 1) == 15 && WeightBefore(Ingest, 2) == 25 && WeightBefore(Ingest, 3) == 35 && WeightBefore(Ingest, 4) == 85;
    assert WeightBefore(Refresh, 1) == 20 && WeightBefore(Refresh, 2) == 30 && WeightBefore(Refresh, 3) == 40 && WeightBefore(Refresh, 4) == 90;
  }

  /** Stage by stage, what is reported. */
  function Reports(tt: TaskType): seq<(TaskState, nat)> {
    match tt
    case Ingest => [(Cloning, 0), (Parsing, 15), (Chunking, 25), (Embedding, 35), (Persisting, 85), (Completed, 100)]
    case Refresh => [(Fetching, 0), (Diffing, 20), (Chunking, 30), (Embedding, 40), (Persisting, 90), (Completed, 100)]
    case _ => []
  }

  /** The stages in their order, each with the weights of the stages behind it. */
  lemma ReportsAre(tt: TaskType, k: nat)
    requires (tt.Ingest? || tt.Refresh?) && k < |Stages(tt)|
    ensures k < |Reports(tt)| == |Stages(tt)| && (Stages(tt)[k], PercentAt(tt, k)) == Reports(tt)[k]
  {
    assert WeightBefore(tt, 0) == 0;
    assert WeightBefore(tt, 1) == WeightBefore(tt, 0) + StageWeight(Stages(tt)[0]);
    assert WeightBefore(tt, 2) == WeightBefore(tt, 1) + StageWeight(Stages(tt)[1]);
    assert WeightBefore(tt, 3) == WeightBefore(tt, 2) + StageWeight(Stages(tt)[2]);
    assert WeightBefore(tt, 4) == WeightBefore(tt, 3) + StageWeight(Stages(tt)[3]);
    assert k == 0 || k == 1 || k == 2 || k == 3 || k == 4 || k == 5;
  }

  lemma ReportsSoFar(tt: TaskType, reports: seq<(TaskState, nat)>)
    requires (tt.Ingest? || tt.Refresh?) && |reports| <= |Stages(tt)|
    requires forall k :: 0 <= k < |reports| ==> reports[k] == (Stages(tt)[k], PercentAt(tt, k))
    ensures reports <= Reports(tt) && |Reports(tt)| == |Stages(tt)|
  {
    hide Stages, PercentAt, Reports;
    ReportsAre(tt, 0) by { StageLists(tt); }
    forall k | 0 <= k < |reports| ensures k < |Reports(tt)| && reports[k] == Reports(tt)[k] { ReportsAre(tt, k); }
  }

  lemma StageLists(tt: TaskType)
    ensures tt.Ingest? || tt.Refresh? ==> |Stages(tt)| == 6
  {
  }

  /** Percentages never fall and stay within 0 and 100, though one type's weights exceed it. */
  lemma PercentsNeverFall(tt: TaskType, j: nat, k: nat)
    requires (tt.Ingest? || tt.Refresh?) && j <= k < |Stages(tt)|
    ensures 0 <= PercentAt(tt, j) <= PercentAt(tt, k) <= 100
  {
    WeightsAddUp();
    WeightGrows(tt, j, k);
    WeightGrows(tt, k, 5);
    WeightGrows(tt, k, 4 + k / 5);
    assert WeightBefore(tt, 5) == WeightBefore(tt, 4) + 15;
  }

  lemma {:induction false} WeightGrows(tt: TaskType, j: nat, k: nat)
    requires j <= k <= |Stages(tt)|
    ensures WeightBefore(tt, j) <= WeightBefore(tt, k)
    decreases k
  {
    if j < k { WeightGrows(tt, j, k - 1); }
  }

  datatype Outcome = Finished | CancelledBefore(k: nat) | Denied(k: nat) | StageFailed(k: nat)

  /** The row may report the stages from `k` on: it is in stage `k - 1`, or already in `k` when the claim put it there. */
  predicate Ready(r: Row, tt: TaskType, k: nat) {
    k < |Stages(tt)| && (if k == 0 then r.state == Stages(tt)[0] else r.state == Stages(tt)[k - 1])
  }

  lemma ReportAccepted(r: Row, tt: TaskType, k: nat, p: Progress, now: nat)
    requires Ready(r, tt, k)
    ensures Patched(r, ReportPatch(Stages(tt)[k], p), now).Written?
    ensures Patched(r, ReportPatch(Stages(tt)[k], p), now).row.state == Stages(tt)[k]
    ensures Patched(r, ReportPatch(Stages(tt)[k], p), now).row.progress == p
  {
    if k > 0 { StagesAreLegal(tt, k - 1); }
    StagesAreLegal(tt, k);
  }

  /** Every row but one is as before. */
  ghost predicate OthersKept(rows: map<TaskId, Row>, rows': map<TaskId, Row>, t: TaskId) {
    forall u :: u != t ==> (u in rows <==> u in rows') && (u in rows ==> rows[u] == rows'[u])
  }

  /** One report: on a row that is ready for it, only the store's own failure can refuse it. */
  method Report(tt: TaskType, store: TaskTable, t: TaskId, k: nat, percent: nat, out: StoreOut) returns (ok: bool)
    requires t in store.rows && Ready(store.rows[t], tt, k)
    modifies store`rows
    ensures t in store.rows && OthersKept(old(store.rows), store.rows, t)
    ensures ok <==> out.Done?
    ensures ok ==> store.rows[t].state == Stages(tt)[k] && store.rows[t].progress == Progress(percent, 100, percent)
  {
    hide Stages, Patched, RowAfter;
    var patch := ReportPatch(Stages(tt)[k], Progress(percent, 100, percent));
    ReportAccepted(store.rows[t], tt, k, Progress(percent, 100, percent), store.clock);
    AcceptedRow(store.rows[t], patch, store.clock);
    var err := store.UpdateState(t, patch, out);
    ok := err.None?;
  }

  /**
   `Run` on a row nobody else writes: every report is accepted, the stages come in the type's order with the percentages of
   `PercentAt`, and without a cancellation, a failing store or a failing stage the row ends completed at 100 percent.
   */
  method Run(tt: TaskType, store: TaskTable, t: TaskId, cancelled: nat -> bool, storeFails: nat -> StoreOut, stageFails: nat -> bool)
    returns (outcome: Outcome, reports: seq<(TaskState, nat)>)
    requires tt.Ingest? || tt.Refresh?
    requires t in store.rows && Ready(store.rows[t], tt, 0)
    modifies store`rows
    ensures reports <= Reports(tt)
    ensures t in store.rows && OthersKept(old(store.rows), store.rows, t)
    ensures match outcome
            case Finished => reports == Reports(tt) && store.rows[t].state.Completed? && store.rows[t].progress == Progress(100, 100, 100)
            case CancelledBefore(k) => k == |reports| && cancelled(k)
            case Denied(k) => k + 1 == |reports| && !storeFails(k).Done?
            case StageFailed(k) => k + 1 == |reports| && stageFails(k)
    ensures (forall k :: !cancelled(k) && storeFails(k).Done? && !stageFails(k)) ==> outcome.Finished?
  {
    hide Stages, Ready, OthersKept, WeightBefore, PercentAt, StageWeight, Reports;
    reports := [];
    var cumulative: nat := 0;
    var stages := StageCount(tt);
    LastIsCompleted(tt);
    KeptSoFar(tt, store.rows, store.rows, t);
    for k := 0 to stages
      invariant |reports| == k && cumulative == WeightBefore(tt, k)
      invariant forall i :: 0 <= i < k ==> reports[i] == (Stages(tt)[i], PercentAt(tt, i))
      invariant t in store.rows && Ready(store.rows[t], tt, k) && OthersKept(old(store.rows), store.rows, t)
    {
      ReportsSoFar(tt, reports);
      if cancelled(k) {
        return CancelledBefore(k), reports;
      }
      PercentOf(tt, k);
      reports := reports + [(Stages(tt)[k], cumulative)];
      ReportsSoFar(tt, reports);
      ghost var before := store.rows;
      var ok := Report(tt, store, t, k, cumulative, storeFails(k));
      KeptStep(old(store.rows), before, store.rows, t);
      if !ok {
        return Denied(k), reports;
      }
      NextReady(store.rows[t], tt, k);
      if stageFails(k) {
        return StageFailed(k), reports;
      }
      cumulative := cumulative + StageWeight(Stages(tt)[k]);
    }
    PercentOf(tt, stages);
    reports := reports + [(Completed, 100)];
    ReportsSoFar(tt, reports);
    ghost var before := store.rows;
    var ok := Report(tt, store, t, stages, 100, storeFails(stages));
    KeptStep(old(store.rows), before, store.rows, t);
    return if ok then Finished else Denied(stages), reports;
  }

  lemma PercentOf(tt: TaskType, k: nat)
    requires k < |Stages(tt)|
    ensures PercentAt(tt, k) == if k == |Stages(tt)| - 1 then 100 else WeightBefore(tt, k)
    ensures WeightBefore(tt, k + 1) == WeightBefore(tt, k) + StageWeight(Stages(tt)[k])
    ensures WeightBefore(tt, 0) == 0
  {
    hide Stages;
  }

  lemma NextReady(r: Row, tt: TaskType, k: nat)
    requires k + 1 < |Stages(tt)| && r.state == Stages(tt)[k]
    ensures Ready(r, tt, k + 1)
  {
    hide Stages;
  }

  lemma KeptSoFar(tt: TaskType, rows: map<TaskId, Row>, rows': map<TaskId, Row>, t: TaskId)
    requires rows == rows'
    ensures OthersKept(rows, rows', t) && WeightBefore(tt, 0) == 0
  {
  }

  lemma KeptStep(a: map<TaskId, Row>, b: map<TaskId, Row>, c: map<TaskId, Row>, t: TaskId)
    requires OthersKept(a, b, t) && OthersKept(b, c, t)
    ensures OthersKept(a, c, t)
  {
  }

  method StageCount(tt: TaskType) returns (n: nat)
    requires tt.Ingest? || tt.Refresh?
    ensures |Stages(tt)| == n + 1
  {
    n := |Stages(tt)| - 1;
  }

  lemma LastIsCompleted(tt: TaskType)
    requires tt.Ingest? || tt.Refresh?
    ensures Stages(tt)[|Stages(tt)| - 1] == Completed
  {
  }

  lemma AcceptedRow(r: Row, p: TaskPatch, now: nat)
    ensures Patched(r, p, now).Written? ==> Kept(Done, r, RowAfter(r, p, now)) == Patched(r, p, now).row
  {
  }

  // ---------- the embedding stage ----------

  type Vector = seq<real>

  datatype Embedded = Embedded(chunk: Chunk, vector: Option<Vector>, model: string)

  /** The places of the child chunks. */
  ghost predicate ChildPlaces(items: seq<Embedded>, places: seq<nat>) {
    && (forall j :: 0 <= j < |places| ==> places[j] < |items| && items[places[j]].chunk.parent.Some?)
    && (forall i, j :: 0 <= i < j < |places| ==> places[i] < places[j])
    && (forall i: nat :: i < |items| && items[i].chunk.parent.Some? ==> i in places)
  }

  /** Gathering: the texts of the children, in order, and where they came from. */
  method Gather(items: array<Embedded>) returns (places: seq<nat>, texts: seq<string>)
    ensures ChildPlaces(items[..], places) && |texts| == |places|
    ensures forall j :: 0 <= j < |places| ==> places[j] < items.Length && texts[j] == items[places[j]].chunk.content
  {
    places, texts := [], [];
    for i := 0 to items.Length
      invariant |texts| == |places|
      invariant forall j :: 0 <= j < |places| ==> places[j] < i && items[places[j]].chunk.parent.Some? && texts[j] == items[places[j]].chunk.content
      invariant forall a, b :: 0 <= a < b < |places| ==> places[a] < places[b]
      invariant forall k: nat :: k < i && items[k].chunk.parent.Some? ==> k in places
    {
      if items[i].chunk.parent.Some? {
        places := places + [i];
        texts := texts + [items[i].chunk.content];
      }
    }
  }

  /**
   The stage: every child gets the vector of its own text, parents get none; a wrong number of vectors changes nothing.
   `embed` is the provider's answer text by text.
   */
  method Embed(items: array<Embedded>, embed: string -> Vector, answered: bool, missing: nat, model: string) returns (ok: bool)
    modifies items
    ensures !ok ==> items[..] == old(items[..])
    ensures ok ==> forall i :: 0 <= i < items.Length ==>
              items[i] == if old(items[i]).chunk.parent.Some?
                          then old(items[i]).(vector := Some(embed(old(items[i]).chunk.content)), model := model)
                          else old(items[i])
    ensures ok <==> (forall i :: 0 <= i < items.Length ==> old(items[i]).chunk.parent.None?) || (answered && missing == 0)
  {
    var places, texts := Gather(items);
    if |texts| == 0 {
      NoChildren(items[..], places);
      return true;
    }
    SomeChild(items[..], places);
    if !answered {
      return false;
    }
    var vectors := seq(|texts| + missing, j requires 0 <= j => if j < |texts| then embed(texts[j]) else []);
    if |vectors| != |texts| {
      return false;
    }
    for j := 0 to |places|
      invariant forall i :: 0 <= i < items.Length ==>
        items[i] == if exists a :: 0 <= a < j && places[a] == i
                    then old(items[i]).(vector := Some(embed(old(items[i]).chunk.content)), model := model)
                    else old(items[i])
    {
      items[places[j]] := items[places[j]].(vector := Some(vectors[j]), model := model);
    }
    forall i: nat | i < items.Length && old(items[i]).chunk.parent.Some? ensures exists a :: 0 <= a < |places| && places[a] == i {
      assert old(items[..])[i].chunk.parent.Some?;
      assert i in places;
    }
    return true;
  }

  lemma NoChildren(items: seq<Embedded>, places: seq<nat>)
    requires ChildPlaces(items, places) && places == []
    ensures forall i :: 0 <= i < |items| ==> items[i].chunk.parent.None?
  {
  }

  lemma SomeChild(items: seq<Embedded>, places: seq<nat>)
    requires ChildPlaces(items, places) && places != []
    ensures exists i :: 0 <= i < |items| && items[i].chunk.parent.Some?
  {
    assert items[places[0]].chunk.parent.Some?;
  }
}
