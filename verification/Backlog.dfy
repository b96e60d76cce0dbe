/**
 Which waiting rows the passes come to settle when some receipts are missing.  A row without a receipt is
 not updated, stays among the oldest, and is listed again by every pass: a hundred of them keep every newer
 row waiting for ever.
 */
module Backlog {
  import opened Numbers
  import opened Rows
  import opened Protocol
  import opened Repositories

  lemma OneMoreListed(queue: set<Id>, done: seq<Id>, id: Id, ready: set<Id>)
    ensures queue - Listed(done) * ready - {id} * ready == queue - Listed(done + [id]) * ready
  {
    assert Listed(done + [id]) == Listed(done) + {id};
  }

  /** One pass: of the rows it lists, those in `ready`, whose receipts can be had, leave the queue. */
  ghost predicate OnePass(before: set<Id>, after: set<Id>, times: Times, ready: set<Id>) {
    exists scanned :: OldestFirst(scanned, before, PENDING_LIMIT, times) && after == before - Listed(scanned) * ready
  }

  /** The queue before the first pass and after each one. */
  ghost predicate Passes(queues: seq<set<Id>>, times: Times, ready: set<Id>) {
    queues != [] && forall i | 0 <= i < |queues| - 1 :: OnePass(queues[i], queues[i + 1], times, ready)
  }

  function Last(queues: seq<set<Id>>): set<Id>
    requires queues != []
  {
    queues[|queues| - 1]
  }

  /** The other rows of the queue that are certainly, or possibly, listed before `t`. */
  function Older(queue: set<Id>, times: Times, t: Id): set<Id> {
    set u | u in queue && times(u) < times(t)
  }

  function NotNewer(queue: set<Id>, times: Times, t: Id): set<Id> {
    set u | u in queue && u != t && times(u) <= times(t)
  }

  /** A pass depends on the times and the readiness of the rows in its queue only. */
  lemma SamePass(before: set<Id>, after: set<Id>, f: Times, g: Times, ready: set<Id>, ready': set<Id>)
    requires OnePass(before, after, f, ready) && SameTimes(before, f, g) && ready == ready' * before
    ensures OnePass(before, after, g, ready')
  {
    var scanned :| OldestFirst(scanned, before, PENDING_LIMIT, f) && after == before - Listed(scanned) * ready;
    assert OldestFirst(scanned, before, PENDING_LIMIT, g);
    assert before - Listed(scanned) * ready' == after;
  }

  lemma OnePassAdded(queues: seq<set<Id>>, after: set<Id>, times: Times, ready: set<Id>)
    requires Passes(queues, times, ready) && OnePass(Last(queues), after, times, ready)
    ensures Passes(queues + [after], times, ready) && Last(queues + [after]) == after
  {
    var longer := queues + [after];
    forall i | 0 <= i < |longer| - 1 ensures OnePass(longer[i], longer[i + 1], times, ready) {
      if i < |queues| - 1 { assert OnePass(queues[i], queues[i + 1], times, ready); }
    }
  }

  // ----- sizes

  /** What is left ahead after those listed and ready have gone, when the listed ones fill a pass. */
  lemma AheadShrinks(ahead: set<Id>, all: set<Id>, ready: set<Id>)
    requires all <= ahead
    ensures |(ahead - all * ready) * ready| + |all| - |ahead - ready| <= |ahead * ready|
  {
    var gone, rest := all * ready, (ahead - all * ready) * ready;
    assert ahead * ready == rest + gone && rest !! gone;
    assert all == gone + (all - ready) && gone !! (all - ready);
    assert all - ready <= ahead - ready;
    SubsetSize(all - ready, ahead - ready);
  }

  // ----- one pass

  lemma PassOnlyServes(before: set<Id>, after: set<Id>, times: Times, ready: set<Id>)
    requires OnePass(before, after, times, ready)
    ensures after <= before && before - ready <= after
  {
  }

  lemma StarvedIsNotListed(scanned: seq<Id>, before: set<Id>, times: Times, ready: set<Id>, t: Id)
    requires OldestFirst(scanned, before, PENDING_LIMIT, times)
    requires t in before && |Older(before, times, t) - ready| >= PENDING_LIMIT
    ensures t !in scanned
  {
    if t in scanned {
      var older, all := Older(before, times, t), Listed(scanned);
      DistinctSize(scanned);
      assert older + {t} <= all;
      SubsetSize(older + {t}, all);
      SubsetSize(older - ready, older);
    }
  }

  /** A row with a hundred unready rows before it is not listed. */
  lemma PassStarves(before: set<Id>, after: set<Id>, times: Times, ready: set<Id>, t: Id)
    requires OnePass(before, after, times, ready) && t in before && |Older(before, times, t) - ready| >= PENDING_LIMIT
    ensures t in after && Older(after, times, t) - ready == Older(before, times, t) - ready
  {
    var scanned :| OldestFirst(scanned, before, PENDING_LIMIT, times) && after == before - Listed(scanned) * ready;
    StarvedIsNotListed(scanned, before, times, ready, t);
  }

  /** A pass that does not list a row is full of rows that are not newer. */
  lemma UnlistedIsBehind(scanned: seq<Id>, before: set<Id>, times: Times, t: Id)
    requires OldestFirst(scanned, before, PENDING_LIMIT, times) && t in before && t !in scanned
    ensures |Listed(scanned)| == PENDING_LIMIT && Listed(scanned) <= NotNewer(before, times, t)
  {
    DistinctSize(scanned);
    assert Listed(scanned) <= before;
    SubsetSize(Listed(scanned), before);
  }

  /** When fewer stand before it, a pass settles it or comes nearer by as many ready rows as there is room for. */
  lemma PassAdvances(before: set<Id>, after: set<Id>, times: Times, ready: set<Id>, t: Id)
    requires OnePass(before, after, times, ready) && t in after && t in ready
    ensures t in before
    ensures
      var ahead, ahead' := NotNewer(before, times, t), NotNewer(after, times, t);
      ahead' - ready == ahead - ready && |ahead' * ready| + PENDING_LIMIT - |ahead - ready| <= |ahead * ready|
  {
    var scanned :| OldestFirst(scanned, before, PENDING_LIMIT, times) && after == before - Listed(scanned) * ready;
    UnlistedIsBehind(scanned, before, times, t);
    var ahead := NotNewer(before, times, t);
    AheadShrinks(ahead, Listed(scanned), ready);
    assert NotNewer(after, times, t) == ahead - Listed(scanned) * ready;
  }

  // ----- any number of passes

  lemma {:induction false} OnlyReadyLeave(queues: seq<set<Id>>, times: Times, ready: set<Id>)
    requires Passes(queues, times, ready)
    ensures Last(queues) <= queues[0] && queues[0] - ready <= Last(queues)
  {
    if |queues| > 1 {
      PassOnlyServes(queues[0], queues[1], times, ready);
      OnlyReadyLeave(queues[1..], times, ready);
    }
  }

  /** Starvation: however many passes run, such a row stays, although its receipt is at hand. */
  lemma {:induction false} WaitsForever(queues: seq<set<Id>>, times: Times, ready: set<Id>, t: Id)
    requires Passes(queues, times, ready)
    requires t in queues[0] && |Older(queues[0], times, t) - ready| >= PENDING_LIMIT
    ensures t in Last(queues)
  {
    if |queues| > 1 {
      PassStarves(queues[0], queues[1], times, ready, t);
      WaitsForever(queues[1..], times, ready, t);
    }
  }

  lemma Room(passes: nat, room: nat, ahead: nat, ahead': nat)
    requires passes > 0 && ahead' + room <= ahead && passes * room > ahead
    ensures (passes - 1) * room > ahead'
  {
  }

  /** Service: with `room` left by the unready rows before it, a ready row waits no more passes than fill its turn. */
  lemma {:induction false} ServedWithin(queues: seq<set<Id>>, times: Times, ready: set<Id>, t: Id)
    requires Passes(queues, times, ready) && t in queues[0] && t in ready
    requires |NotNewer(queues[0], times, t) - ready| < PENDING_LIMIT
    requires
      var room := PENDING_LIMIT - |NotNewer(queues[0], times, t) - ready|;
      (|queues| - 1) * room > |NotNewer(queues[0], times, t) * ready|
    ensures t !in Last(queues)
  {
    if |queues| > 1 {
      var ahead := NotNewer(queues[0], times, t);
      if t in queues[1] {
        PassAdvances(queues[0], queues[1], times, ready, t);
        Room(|queues| - 1, PENDING_LIMIT - |ahead - ready|, |ahead * ready|, |NotNewer(queues[1], times, t) * ready|);
        ServedWithin(queues[1..], times, ready, t);
      } else {
        OnlyReadyLeave(queues[1..], times, ready);
      }
    }
  }

  /**
   Exactly which rows are settled in the long run, when no two were updated at the same time: those whose receipt is at
   hand and that fewer than a hundred older rows without one stand before.
   */
  lemma ServedIff(queues: seq<set<Id>>, times: Times, ready: set<Id>, t: Id)
    requires Passes(queues, times, ready) && |queues| - 1 > |queues[0]|
    requires forall u, v | u in queues[0] && v in queues[0] && times(u) == times(v) :: u == v
    requires t in queues[0]
    ensures t !in Last(queues) <==> t in ready && |Older(queues[0], times, t) - ready| < PENDING_LIMIT
  {
    OnlyReadyLeave(queues, times, ready);
    var ahead := NotNewer(queues[0], times, t);
    assert ahead == Older(queues[0], times, t);
    if |ahead - ready| >= PENDING_LIMIT {
      WaitsForever(queues, times, ready, t);
    } else if t in ready {
      SubsetSize(ahead * ready, queues[0]);
      Product(|queues| - 1, PENDING_LIMIT - |ahead - ready|);
      ServedWithin(queues, times, ready, t);
    }
  }

  lemma Product(a: nat, b: nat)
    requires b > 0
    ensures a * b >= a
  {
  }
}
