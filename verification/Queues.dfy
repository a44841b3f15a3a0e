/** The broker as its publishers and consumers see it (deepwiki/internal/queue/publisher.go, rabbitmq.go). */
module Queues {
  import opened Options
  import opened TaskModel
  import opened Protocol

  /** The broker's queues (publisher.go, rabbitmq.go): publishing adds a message, settling removes or moves the delivery its consumer holds. */
  class Broker {
    var msgs: map<nat, Message>
    var next: nat

    constructor ()
      ensures msgs == map[] && next == 0
    {
      msgs := map[];
      next := 0;
    }

    method Put(g: Message, pub: PubOut) returns (ok: bool)
      modifies `msgs, `next
      ensures ok <==> pub.Confirmed?
      ensures msgs == if Sent(pub) then old(msgs)[old(next) := g] else old(msgs)
      ensures next == if Sent(pub) then old(next) + 1 else old(next)
    {
      if Sent(pub) {
        msgs := msgs[next := g];
        next := next + 1;
      }
      ok := pub.Confirmed?;
    }

    /** `Publish`: the jobs queue, no retry header. */
    method Publish(t: TaskId, tt: TaskType, pub: PubOut) returns (ok: bool)
      modifies `msgs, `next
      ensures ok <==> pub.Confirmed?
      ensures msgs == if Sent(pub) then old(msgs)[old(next) := Message(t, tt, 0, old(next), InJobs)] else old(msgs)
      ensures next == if Sent(pub) then old(next) + 1 else old(next)
    {
      ok := Put(Message(t, tt, 0, next, InJobs), pub);
    }

    /** `PublishRetry`: the retry queue of this attempt, or the dead-letter queue when there is none. */
    method PublishRetry(wk: Worker, attempt: nat, pub: PubOut) returns (ok: bool)
      requires attempt == wk.retry
      modifies `msgs, `next
      ensures ok <==> pub.Confirmed?
      ensures msgs == if Sent(pub) then old(msgs)[old(next) := RetryMessage(wk)] else old(msgs)
      ensures next == if Sent(pub) then old(next) + 1 else old(next)
    {
      if attempt >= RETRY_QUEUES {
        ok := PublishToDlq(wk, pub);
      } else {
        ok := Put(Message(wk.task, wk.typ, attempt + 1, wk.root, InRetry(attempt)), pub);
      }
    }

    method PublishToDlq(wk: Worker, pub: PubOut) returns (ok: bool)
      modifies `msgs, `next
      ensures ok <==> pub.Confirmed?
      ensures msgs == if Sent(pub) then old(msgs)[old(next) := Message(wk.task, wk.typ, 0, wk.root, InDlq)] else old(msgs)
      ensures next == if Sent(pub) then old(next) + 1 else old(next)
    {
      ok := Put(Message(wk.task, wk.typ, 0, wk.root, InDlq), pub);
    }

    /** Settling a delivery: only its current holder's answer counts. */
    method Settle(m: nat, w: nat, place: Option<Place>)
      modifies `msgs
      ensures msgs == if !(m in old(msgs) && old(msgs)[m].place == Held(w)) then old(msgs)
                      else match place
                           case Some(p) => old(msgs)[m := old(msgs)[m].(place := p)]
                           case None => old(msgs) - {m}
    {
      if m in msgs && msgs[m].place == Held(w) {
        match place {
          case Some(p) => msgs := msgs[m := msgs[m].(place := p)];
          case None => msgs := msgs - {m};
        }
      }
    }
  }
}
