/**
 Single steps of the protocol as equations on the rows, the messages and the one other component each of them changes:
 what the imperative manager needs to know to keep its fields and its recorded run together.
 */
module ProtocolShapes {
  import opened Options
  import opened TaskModel
  import opened TaskRows
  import opened Protocol
  import opened ProtocolInvariant

  // ---------- what a worker's moves do to the state ----------

  lemma SameRow(s: State, t: TaskId)
    requires t in s.rows && t in s.hist
    ensures s.rows[t := s.rows[t]] == s.rows && s.hist[t := s.hist[t]] == s.hist
  {
  }

  lemma MoveShape(cfg: Config, s: State, w: nat, mv: WorkerMove, e: Effect)
    requires WorkEnabled(s, w, mv) && e.ending.At?
    requires e == EffectOf(cfg, w, s.workers[w], s.rows[s.workers[w].task], s.hist[s.workers[w].task], s.clock, mv)
    ensures var s' := Work(cfg, s, w, mv);
            && s'.rows == s.rows[s.workers[w].task := e.row] && s'.clock == s.clock
            && s'.msgs == (if e.sent.Some? then s.msgs[s.next := e.sent.value] else s.msgs)
            && s'.next == (if e.sent.Some? then s.next + 1 else s.next)
            && s'.workers == s.workers[w := s.workers[w].(pc := e.ending.pc)]
  {
    hide EffectOf, MoveEnabled;
  }

  lemma SettleShape(cfg: Config, s: State, w: nat, mv: WorkerMove)
    requires WorkEnabled(s, w, mv) && (mv.Ack? || mv.Nack?)
    ensures var s' := Work(cfg, s, w, mv);
            var m := s.workers[w].mid;
            && s'.rows == s.rows && s'.clock == s.clock && s'.next == s.next && s'.workers == s.workers - {w}
            && s'.msgs == if !(m in s.msgs && s.msgs[m].place == Held(w)) then s.msgs
                          else if mv.Nack? then s.msgs[m := s.msgs[m].(place := InDlq)] else s.msgs - {m}
  {
    SameRow(s, s.workers[w].task);
    var e := Effect(s.rows[s.workers[w].task], s.hist[s.workers[w].task], false, None, Settled(if mv.Nack? then Some(InDlq) else None));
    assert PerformSend(PerformRow(s, w, e), e) == s;
  }

  lemma CrashShape(cfg: Config, s: State, w: nat)
    requires WorkEnabled(s, w, Crash)
    ensures var s' := Work(cfg, s, w, Crash);
            var m := s.workers[w].mid;
            && s'.rows == s.rows && s'.clock == s.clock && s'.next == s.next && s'.workers == s.workers - {w}
            && s'.msgs == if !(m in s.msgs && s.msgs[m].place == Held(w)) then s.msgs else s.msgs[m := s.msgs[m].(place := InJobs)]
  {
    SameRow(s, s.workers[w].task);
  }

  lemma DeliverShape(s: State, m: nat)
    requires m in s.msgs && s.msgs[m].task in s.rows && s.msgs[m].place.InJobs?
    ensures QueueEnabled(s, m, Deliver)
    ensures var s' := Queue(s, m, Deliver); var g := s.msgs[m];
            && s'.rows == s.rows && s'.clock == s.clock && s'.next == s.next + 1
            && s'.msgs == s.msgs[m := g.(place := Held(s.next))]
            && s'.workers == s.workers[s.next := Worker(m, g.task, g.typ, g.retry, g.root, Claiming)]
  {
  }

  lemma InsertShape(s: State, t: TaskId, tt: TaskType, depth: nat, e: TaskError)
    ensures t !in s.rows && !tt.Other? ==>
              && SubmitEnabled(s, t, Rejected(tt, e)) && SubmitEnabled(s, t, SubmitMove.Create(tt, depth))
              && var r := Protocol.Submit(s, t, Rejected(tt, e)); var c := Protocol.Submit(s, t, SubmitMove.Create(tt, depth));
                 && r.rows == s.rows[t := RejectedRow(tt, e, s.clock)] && c.rows == s.rows[t := PendingRow(tt, depth + 1, s.clock)]
                 && r.clock == c.clock == s.clock && r.msgs == c.msgs == s.msgs && r.next == c.next == s.next
                 && c.subs == s.subs[t := Publishing]
  {
  }

  lemma PublishShape(s: State, t: TaskId, pub: PubOut)
    requires SubmitEnabled(s, t, SubmitMove.Publish(pub))
    ensures var s' := Protocol.Submit(s, t, SubmitMove.Publish(pub));
            && s'.rows == s.rows && s'.clock == s.clock
            && s'.msgs == (if Sent(pub) then s.msgs[s.next := Message(t, s.rows[t].typ, 0, s.next, InJobs)] else s.msgs)
            && s'.next == (if Sent(pub) then s.next + 1 else s.next)
            && (!pub.Confirmed? ==> t in s'.subs && s'.subs[t].Failing?)
  {
  }

  lemma FailUnsentShape(s: State, t: TaskId, e: TaskError, out: StoreOut)
    requires SubmitEnabled(s, t, FailUnsent(e, out))
    ensures var s' := Protocol.Submit(s, t, FailUnsent(e, out));
            && s'.rows == s.rows[t := Kept(out, s.rows[t], FailedWith(s.rows[t], e, s.clock))] && s'.clock == s.clock
            && s'.msgs == s.msgs && s'.next == s.next
  {
  }

  lemma SetFlagShape(s: State, c: nat, out: StoreOut)
    requires CancelEnabled(s, c, SetFlag(out))
    ensures var s' := Protocol.Cancel(s, c, SetFlag(out)); var t := s.cancels[c].task;
            && s'.rows == s.rows[t := Kept(out, s.rows[t], Flagged(s.rows[t], s.clock))]
            && s'.clock == s.clock && s'.msgs == s.msgs && s'.next == s.next
            && (out.Done? ==> c in s'.cancels && s'.cancels[c] == Updating(t))
  {
  }

  lemma SetCancelledShape(s: State, c: nat, out: StoreOut)
    requires CancelEnabled(s, c, SetCancelled(out))
    ensures var s' := Protocol.Cancel(s, c, SetCancelled(out)); var t := s.cancels[c].task;
            && s'.rows == s.rows[t := Kept(out, s.rows[t], RowAfter(s.rows[t], CancelPatch(s.clock), s.clock))]
            && s'.clock == s.clock && s'.msgs == s.msgs && s'.next == s.next
            && c in s'.cancels && s'.cancels[c] == CancelDone(t, out.Done? && Patched(s.rows[t], CancelPatch(s.clock), s.clock).Written?)
  {
  }

  lemma ResetRoundShape(cfg: Config, s: State, all: bool, out: StoreOut)
    requires s.rows.Keys <= s.hist.Keys
    ensures var s' := ResetStaleStep(cfg, s, all, out);
            && s'.rows == (if out.ErrLost? then s.rows else map t | t in s.rows :: ResetIfStale(s.rows[t], s.clock - cfg.staleAfter, s.clock))
            && s'.clock == s.clock && s'.msgs == s.msgs && s'.next == (if out.Done? then s.next + 1 else s.next)
            && (out.Done? ==> s.next in s'.rounds && s'.rounds[s.next] == Finding(s.clock - cfg.staleAfter, all))
  {
    ResetStaleShape(cfg, s, all, out);
  }

  lemma FindRoundShape(s: State, n: nat, order: seq<TaskId>)
    requires RoundEnabled(s, n, RoundMove.Find(order))
    ensures var s' := Protocol.Recover(s, n, RoundMove.Find(order));
            && s'.rows == s.rows && s'.clock == s.clock && s'.msgs == s.msgs && s'.next == s.next
            && n in s'.rounds && s'.rounds[n] == Sending(Todo(s.rows, order))
  {
  }

  lemma ResendRoundShape(s: State, n: nat, pub: PubOut)
    requires RoundEnabled(s, n, Resend(pub))
    ensures var s' := Protocol.Recover(s, n, Resend(pub)); var todo := s.rounds[n].todo;
            && s'.rows == s.rows && s'.clock == s.clock
            && s'.msgs == (if Sent(pub) then s.msgs[s.next := Message(todo[0].0, todo[0].1, 0, s.next, InJobs)] else s.msgs)
            && s'.next == (if Sent(pub) then s.next + 1 else s.next)
            && n in s'.rounds && s'.rounds[n] == Sending(todo[1..])
  {
  }

  function Confirmations(pubs: nat -> PubOut, n: nat): nat {
    if n == 0 then 0 else Confirmations(pubs, n - 1) + (if pubs(n - 1).Confirmed? then 1 else 0)
  }

  /** Message `m` offers the `i`-th listed task to the workers. */
  predicate Offers(msgs: map<nat, Message>, m: nat, rows: map<TaskId, Row>, t: TaskId) {
    m in msgs && t in rows && msgs[m] == Message(t, rows[t].typ, 0, m, InJobs)
  }

  /** The first `k` listed tasks have been published: old messages are left alone, each confirmed publish is queued, and nothing else is. */
  ghost predicate Resent(msgs: map<nat, Message>, next: nat, msgs': map<nat, Message>, rows: map<TaskId, Row>,
                         order: seq<TaskId>, pubs: nat -> PubOut, k: nat) {
    && k <= |order|
    && (forall m :: m in msgs ==> m in msgs' && msgs'[m] == msgs[m])
    && (forall i :: 0 <= i < k && pubs(i).Confirmed? ==> exists m :: m !in msgs && Offers(msgs', m, rows, order[i]))
    && (forall m :: m in msgs' && m !in msgs ==> next <= m && exists i :: 0 <= i < k && Sent(pubs(i)) && Offers(msgs', m, rows, order[i]))
  }

  lemma NothingResent(msgs: map<nat, Message>, next: nat, rows: map<TaskId, Row>, order: seq<TaskId>, pubs: nat -> PubOut)
    ensures Resent(msgs, next, msgs, rows, order, pubs, 0)
  {
  }

  lemma OneMoreResent(msgs: map<nat, Message>, next: nat, before: map<nat, Message>, id: nat, after: map<nat, Message>, rows: map<TaskId, Row>,
                      order: seq<TaskId>, pubs: nat -> PubOut, k: nat)
    requires k < |order| && Resent(msgs, next, before, rows, order, pubs, k) && next <= id && id !in before
    requires order[k] in rows
    requires after == if Sent(pubs(k)) then before[id := Message(order[k], rows[order[k]].typ, 0, id, InJobs)] else before
    ensures Resent(msgs, next, after, rows, order, pubs, k + 1)
  {
    forall i | 0 <= i < k + 1 && pubs(i).Confirmed? ensures exists m :: m !in msgs && Offers(after, m, rows, order[i]) {
      if i == k {
        assert Offers(after, id, rows, order[k]);
      } else {
        var m :| m !in msgs && Offers(before, m, rows, order[i]);
        assert Offers(after, m, rows, order[i]);
      }
    }
    forall m | m in after && m !in msgs ensures next <= m && exists i :: 0 <= i < k + 1 && Sent(pubs(i)) && Offers(after, m, rows, order[i]) {
      if m in before {
        var i :| 0 <= i < k && Sent(pubs(i)) && Offers(before, m, rows, order[i]);
        assert Offers(after, m, rows, order[i]);
      } else {
        assert Offers(after, m, rows, order[k]);
      }
    }
  }
}
