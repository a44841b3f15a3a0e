/**
 The sliding-window limiter (deepwiki/internal/ratelimit/redis_lua.go): one key's sorted set of request times, pruned, counted
 and extended in one script, against the count over the full history of admissions. Times are in milliseconds; the key's
 expiry and the requests are read off one clock.
 */
module RateLimit {
  import opened Options

  type Member = string

  datatype Decision = Decision(allowed: bool, limit: int, remaining: int, retryAfter: nat)

  /** How a script call ends: with its reply, without having run, or run but with the reply lost or malformed. */
  datatype Reply = Received | NotRun | Lost

  /** The members with a score above `cut`. */
  function Above(zset: map<Member, nat>, cut: int): (above: map<Member, nat>)
    ensures forall m :: m in above <==> m in zset && zset[m] > cut
  {
    map m | m in zset && zset[m] > cut :: zset[m]
  }

  /** How many of these times lie after `cut`. */
  function Recent(times: seq<nat>, cut: int): (n: nat)
    ensures n <= |times|
  {
    if times == [] then 0
    else Recent(times[..|times| - 1], cut) + if times[|times| - 1] > cut then 1 else 0
  }

  /** How many of these times lie in the half-open window that ends at `t`. */
  function InWindow(times: seq<nat>, window: nat, t: int): (n: nat) {
    if times == [] then 0
    else
      var last := times[|times| - 1];
      InWindow(times[..|times| - 1], window, t) + if t - window < last <= t then 1 else 0
  }

  predicate Sorted(times: seq<nat>) {
    forall i, j :: 0 <= i < j < |times| ==> times[i] <= times[j]
  }

  /** Every admission found fewer than `limit` others in the window before it. */
  predicate Proper(times: seq<nat>, window: nat, limit: int) {
    forall i :: 0 <= i < |times| ==> Recent(times[..i], times[i] - window) < limit
  }

  lemma {:induction false} NoneRecent(times: seq<nat>, cut: int)
    requires forall i :: 0 <= i < |times| ==> times[i] <= cut
    ensures Recent(times, cut) == 0
  {
    if times != [] {
      NoneRecent(times[..|times| - 1], cut);
    }
  }

  lemma {:induction false} WindowIsRecent(times: seq<nat>, window: nat, t: int, cut: int)
    requires cut <= t - window
    ensures InWindow(times, window, t) <= Recent(times, cut)
  {
    if times != [] {
      WindowIsRecent(times[..|times| - 1], window, t, cut);
    }
  }

  lemma ProperInit(times: seq<nat>, window: nat, limit: int)
    requires times != [] && Sorted(times) && Proper(times, window, limit)
    ensures var init := times[..|times| - 1]; var last := times[|times| - 1];
            Sorted(init) && Proper(init, window, limit) && Recent(init, last - window) < limit
  {
    hide Recent;
    var init := times[..|times| - 1];
    assert forall i :: 0 <= i < |init| ==> times[..i] == init[..i];
  }

  /** When every admission finds fewer than `limit` in its own window, every window of the history holds at most `limit`. */
  lemma {:induction false} EveryWindowHoldsLimit(times: seq<nat>, window: nat, limit: int, t: int)
    requires Sorted(times) && Proper(times, window, limit)
    ensures InWindow(times, window, t) <= if limit > 0 then limit else 0
  {
    hide Recent, Sorted, Proper;
    if times != [] {
      ProperInit(times, window, limit);
      var init := times[..|times| - 1];
      var last := times[|times| - 1];
      EveryWindowHoldsLimit(init, window, limit, t);
      if t - window < last <= t {
        WindowIsRecent(init, window, t, last - window);
      }
    }
  }

  lemma AboveAgain(zset: map<Member, nat>, cut: int, cut': int)
    requires cut <= cut'
    ensures Above(Above(zset, cut), cut') == Above(zset, cut')
  {
  }

  lemma SubsetSize(a: set<Member>, b: set<Member>)
    requires a <= b
    ensures |a| <= |b|
  {
    assert b == a + (b - a);
  }

  /** Adding a new member with the latest score: one more above every earlier time. */
  lemma AddedAbove(zset: map<Member, nat>, m: Member, now: nat, cut: int)
    ensures m !in zset ==> |Above(zset[m := now], cut)| == |Above(zset, cut)| + if now > cut then 1 else 0
    ensures (m in zset ==> zset[m] <= now) ==> |Above(zset[m := now], cut)| <= |Above(zset, cut)| + if now > cut then 1 else 0
  {
    var before := Above(zset, cut).Keys;
    var after := Above(zset[m := now], cut).Keys;
    if now > cut {
      assert after == before + {m};
    } else {
      assert after == before - {m};
      SubsetSize(after, before);
    }
  }

  /** After every time from `from` on the set counts no more than were admitted, and exactly as many if `exact`. */
  ghost predicate Counts(zset: map<Member, nat>, admitted: seq<nat>, from: int, exact: bool) {
    forall cut :: cut >= from ==>
      && |Above(zset, cut)| <= Recent(admitted, cut)
      && (exact ==> |Above(zset, cut)| == Recent(admitted, cut))
  }

  lemma PruneCounts(zset: map<Member, nat>, admitted: seq<nat>, from: int, cut0: int, exact: bool)
    requires Counts(zset, admitted, from, exact) && from <= cut0
    ensures Counts(Above(zset, cut0), admitted, cut0, exact)
    ensures |Above(zset, cut0)| <= Recent(admitted, cut0)
    ensures exact ==> |Above(zset, cut0)| == Recent(admitted, cut0)
  {
    hide Recent;
    forall cut | cut >= cut0 ensures Above(Above(zset, cut0), cut) == Above(zset, cut) {
      AboveAgain(zset, cut0, cut);
    }
  }

  /** What pruning to `cut0` leaves, counted. */
  lemma PrunedTwice(zset: map<Member, nat>, admitted: seq<nat>, from: int, cut0: int, exact: bool)
    requires Counts(zset, admitted, from, exact) && from <= cut0
    ensures |Above(zset, cut0)| <= Recent(admitted, cut0) && (exact ==> |Above(zset, cut0)| == Recent(admitted, cut0))
    ensures Above(Above(zset, cut0), cut0) == Above(zset, cut0)
  {
    hide Recent;
  }

  lemma AddCounts(zset: map<Member, nat>, admitted: seq<nat>, from: int, exact: bool, m: Member, now: nat)
    requires Counts(zset, admitted, from, exact) && (m in zset ==> zset[m] <= now)
    ensures Counts(zset[m := now], admitted + [now], from, exact && m !in zset)
  {
    hide Above;
    forall cut | cut >= from
      ensures |Above(zset[m := now], cut)| <= Recent(admitted + [now], cut)
      ensures exact && m !in zset ==> |Above(zset[m := now], cut)| == Recent(admitted + [now], cut)
    {
      AddedAbove(zset, m, now, cut);
      assert (admitted + [now])[..|admitted|] == admitted;
    }
  }

  lemma SortedExtends(admitted: seq<nat>, now: nat)
    requires Sorted(admitted) && forall i :: 0 <= i < |admitted| ==> admitted[i] <= now
    ensures Sorted(admitted + [now]) && forall i :: 0 <= i < |admitted + [now]| ==> (admitted + [now])[i] <= now
  {
  }

  lemma ProperExtends(admitted: seq<nat>, window: nat, limit: int, now: nat)
    requires Proper(admitted, window, limit) && Recent(admitted, now - window) < limit
    ensures Proper(admitted + [now], window, limit)
  {
    hide Recent;
    var more := admitted + [now];
    assert forall i :: 0 <= i <= |admitted| ==> more[..i] == admitted[..i];
    assert admitted[..|admitted|] == admitted;
  }

  lemma AllGone(zset: map<Member, nat>, admitted: seq<nat>, from: int, exact: bool, cut0: int)
    requires Counts(zset, admitted, from, exact) && from <= cut0 && forall i :: 0 <= i < |admitted| ==> admitted[i] <= cut0
    ensures forall cut :: cut >= cut0 ==> Above(zset, cut) == map[]
    ensures Counts(map[], admitted, cut0, exact)
  {
    forall cut | cut >= cut0 ensures Above(zset, cut) == map[] && Recent(admitted, cut) == 0 {
      NoneRecent(admitted, cut);
      assert |Above(zset, cut)| == 0;
    }
    assert forall cut :: Above(map[], cut) == map[];
  }

  /** One key with its window and limit. */
  class SlidingWindow {
    const window: nat
    const limit: int
    var zset: map<Member, nat>
    var expireAt: Option<nat>
    var degraded: bool
    /** The times of all admissions, the time of the last call, and whether a member was ever drawn again while still counted. */
    ghost var admitted: seq<nat>
    ghost var last: nat
    ghost var collided: bool

    constructor (window: nat, limit: int)
      ensures Valid() && zset == map[] && admitted == [] && last == 0 && !collided && this.window == window && this.limit == limit
    {
      this.window, this.limit := window, limit;
      zset, expireAt, degraded := map[], None, false;
      admitted, last, collided := [], 0, false;
      new;
      AllGone(map[], [], 0 - window, true, 0 - window) by { assert forall cut :: Above(map[], cut) == map[]; }
    }

    ghost predicate Valid()
      reads this
    {
      && Counts(zset, admitted, last - window, !collided)
      && Sorted(admitted)
      && (forall i :: 0 <= i < |admitted| ==> admitted[i] <= last)
      && (forall m :: m in zset ==> zset[m] <= last)
      && |zset| <= (if limit > 0 then limit else 0)
      && (forall i :: 0 <= i < |admitted| ==> admitted[i] + window <= if expireAt.Some? then expireAt.value else last)
      && (expireAt.None? ==> zset == map[])
      && (!collided ==> Proper(admitted, window, limit))
    }

    /** Redis may drop the key once it has expired: every later call would have pruned all of it, so no answer changes. */
    method Expire(now: nat)
      requires Valid() && last <= now && expireAt.Some? && expireAt.value <= now
      modifies this
      ensures Valid() && admitted == old(admitted) && collided == old(collided) && last == now
      ensures forall cut :: cut >= now - window ==> Above(zset, cut) == Above(old(zset), cut)
    {
      AllGone(zset, admitted, last - window, !collided, now - window);
      zset := map[];
      expireAt := None;
      last := now;
      assert forall cut :: Above(map[], cut) == map[];
    }

    /**
     The script: prune, count, and add only below the limit. A request is admitted whenever fewer than `limit` were admitted in
     the last window of the full history, and, as long as no member was drawn twice, only then.
     */
    method Script(now: nat, m: Member) returns (allowed: bool, remaining: int)
      requires Valid() && last <= now
      modifies this
      ensures Valid() && last == now && degraded == old(degraded)
      ensures zset == (if allowed then Above(old(zset), now - window)[m := now] else Above(old(zset), now - window))
      ensures admitted == if allowed then old(admitted) + [now] else old(admitted)
      ensures collided <==> old(collided) || (allowed && m in Above(old(zset), now - window))
      ensures allowed <==> |Above(old(zset), now - window)| < limit
      ensures Recent(old(admitted), now - window) < limit ==> allowed
      ensures !old(collided) ==> (allowed <==> Recent(old(admitted), now - window) < limit)
      ensures !old(collided) && allowed ==> remaining == limit - 1 - Recent(old(admitted), now - window)
      ensures !allowed ==> remaining == 0
    {
      hide Counts, Recent, Proper, Sorted, Above;
      Prune(now);
      PrunedTwice(old(zset), old(admitted), old(last) - window, now - window, !old(collided));
      var n := |zset|;
      allowed := n < limit;
      remaining := 0;
      if allowed {
        Admit(now, m);
        remaining := limit - n - 1;
      }
    }

    /** `ZREMRANGEBYSCORE`. */
    method Prune(now: nat)
      requires Valid() && last <= now
      modifies `zset, `last
      ensures Valid() && last == now && zset == Above(old(zset), now - window)
    {
      hide Counts, Recent, Proper, Sorted;
      PruneCounts(zset, admitted, last - window, now - window, !collided);
      SubsetSize(Above(zset, now - window).Keys, zset.Keys);
      zset := Above(zset, now - window);
      last := now;
    }

    /** `ZADD` and `PEXPIRE`, below the limit. */
    method Admit(now: nat, m: Member)
      requires Valid() && last == now && zset == Above(zset, now - window) && |zset| < limit
      modifies `zset, `expireAt, `admitted, `collided
      ensures Valid() && zset == old(zset)[m := now] && admitted == old(admitted) + [now]
      ensures collided <==> old(collided) || m in old(zset)
    {
      hide Counts, Recent, Proper, Sorted, Above;
      AddCounts(zset, admitted, now - window, !collided, m, now);
      SortedExtends(admitted, now);
      PrunedTwice(zset, admitted, now - window, now - window, !collided);
      if !collided { ProperExtends(admitted, window, limit, now); }
      AtMostOneMore(zset, m, now);
      collided := collided || m in zset;
      zset := zset[m := now];
      admitted := admitted + [now];
      expireAt := Some(now + window);
    }

    /** Whether a request at time `t` would be admitted, if nothing else is admitted before. */
    predicate WouldAdmit(t: nat)
      reads `zset
    {
      |Above(zset, t - window)| < limit
    }

    /** `retryAfter`: the time until the oldest counted request leaves the window. After a refusal it is the least wait that gets admitted. */
    method RetryAfter(now: nat) returns (wait: nat)
      requires Valid() && last <= now
      ensures limit > 0 && !WouldAdmit(now) ==> forall t: nat :: t >= now ==> (WouldAdmit(t) <==> t >= now + wait)
      ensures limit <= 0 ==> wait == window && forall t: nat :: !WouldAdmit(t)
    {
      if |zset| == 0 {
        return window;
      }
      var m := Oldest(zset);
      var ms := zset[m] + window - now;
      wait := if ms <= 0 then 0 else ms;
      if !WouldAdmit(now) {
        SubsetSize(Above(zset, now - window).Keys, zset.Keys);
        forall t: nat | t >= now ensures WouldAdmit(t) <==> t >= now + wait {
          OldestLeaves(zset, m, t - window);
        }
      }
    }

    method MarkDegraded(b: bool)
      requires Valid()
      modifies `degraded
      ensures Valid() && degraded == b
    {
      hide Counts, Recent, Proper, Sorted;
      degraded := b;
    }

    /**
     `Allow`: one script run, or the in-process fallback's answer when Redis fails. When only the reply is lost or malformed, the
     script has run and may have recorded an admission the caller does not hear of. A refusal carries the wait.
     */
    method Allow(now: nat, m: Member, reply: Reply, rangeFails: bool, fallback: Decision) returns (d: Decision)
      requires Valid() && last <= now
      modifies this
      ensures Valid() && degraded == !reply.Received?
      ensures !reply.Received? ==> d == fallback
      ensures reply.NotRun? ==> admitted == old(admitted) && zset == old(zset)
      ensures !reply.NotRun? ==>
                var admits := |Above(old(zset), now - window)| < limit;
                && admitted == (if admits then old(admitted) + [now] else old(admitted))
                && (reply.Received? ==> d.limit == limit && d.allowed == admits && (!admits ==> d.remaining == 0))
                && (reply.Received? && admits ==> d.retryAfter == 0 && (!old(collided) ==> d.remaining == limit - 1 - Recent(old(admitted), now - window)))
                && (!old(collided) ==> (admits <==> Recent(old(admitted), now - window) < limit))
      ensures reply.Received? && !d.allowed && limit > 0 && !rangeFails ==>
                forall t: nat :: t >= now ==> (WouldAdmit(t) <==> t >= now + d.retryAfter)
      ensures reply.Received? && !d.allowed && rangeFails ==> d.retryAfter == window
    {
      hide Valid, Recent;
      if reply.NotRun? {
        MarkDegraded(true);
        return fallback;
      }
      var allowed, remaining := Script(now, m);
      MarkDegraded(reply.Lost?);
      if reply.Lost? {
        return fallback;
      }
      d := Decision(allowed, limit, remaining, 0);
      if !allowed {
        AboveAgain(old(zset), now - window, now - window);
        var wait := window;
        if !rangeFails {
          wait := RetryAfter(now);
        }
        d := d.(retryAfter := wait);
      }
    }
  }

  lemma AtMostOneMore(zset: map<Member, nat>, m: Member, now: nat)
    ensures |zset[m := now]| <= |zset| + 1
  {
    assert zset[m := now].Keys == zset.Keys + {m};
  }

  method Oldest(zset: map<Member, nat>) returns (m: Member)
    requires zset != map[]
    ensures m in zset && forall k :: k in zset ==> zset[m] <= zset[k]
  {
    var rest := zset.Keys;
    m :| m in rest;
    rest := rest - {m};
    while rest != {}
      invariant rest <= zset.Keys && m in zset
      invariant forall k :: k in zset && k !in rest ==> zset[m] <= zset[k]
      decreases rest
    {
      var k :| k in rest;
      rest := rest - {k};
      if zset[k] < zset[m] {
        m := k;
      }
    }
  }

  /** Looking back to `cut`, the set is smaller exactly when its oldest member is gone. */
  lemma OldestLeaves(zset: map<Member, nat>, m: Member, cut: int)
    requires m in zset && forall k :: k in zset ==> zset[m] <= zset[k]
    ensures |Above(zset, cut)| < |zset| <==> zset[m] <= cut
  {
    var above := Above(zset, cut).Keys;
    if zset[m] <= cut {
      assert above <= zset.Keys - {m};
      SubsetSize(above, zset.Keys - {m});
    } else {
      assert above == zset.Keys;
    }
  }

  /** In every history the limiter produces without drawing a member twice, every half-open window holds at most `limit`. */
  lemma AtMostLimitPerWindow(w: SlidingWindow, t: int)
    requires w.Valid() && !w.collided
    ensures InWindow(w.admitted, w.window, t) <= if w.limit > 0 then w.limit else 0
  {
    EveryWindowHoldsLimit(w.admitted, w.window, w.limit, t);
  }

  /** Distinct members are needed: with one drawn twice in the same millisecond, a limit of two admits three at once. */
  method DrawnTwice(m: Member, other: Member) returns (w: SlidingWindow, first: bool, second: bool, third: bool)
    requires other != m
    ensures fresh(w) && w.limit == 2 && first && second && third && InWindow(w.admitted, 1000, 5) == 3
  {
    hide Counts, Recent, Proper, Sorted, InWindow;
    w := new SlidingWindow(1000, 2);
    var r;
    assert Above(w.zset, 5 - 1000) == map[];
    first, r := w.Script(5, m);
    assert w.zset == map[m := 5] && map[m := 5].Keys == {m};
    assert Above(w.zset, 5 - 1000) == map[m := 5];
    second, r := w.Script(5, m);
    assert w.zset == map[m := 5] && Above(w.zset, 5 - 1000) == map[m := 5];
    third, r := w.Script(5, other);
    assert w.admitted == [5, 5, 5];
    ThreeAtOnce();
  }

  lemma ThreeAtOnce()
    ensures InWindow([5, 5, 5], 1000, 5) == 3
  {
    assert [5, 5, 5][..2] == [5, 5] && [5, 5][..1] == [5] && [5][..0] == [];
    assert InWindow([5], 1000, 5) == 1 && InWindow([5, 5], 1000, 5) == 2;
  }
}
