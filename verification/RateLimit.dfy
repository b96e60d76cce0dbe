/**
 The fixed-window rate limit of one user and action.  A request reads the clock to choose its window,
 increments the counter of that window, and the request that finds the counter at one sets its expiry,
 60 seconds from then.  Increments and expiries of different requests interleave; time never goes back.

 An increment may reach the store after its minute has ended.  It is still counted as long as the counter
 lives; the limit of a minute can be passed only through an increment that finds the counter expired and
 starts it over.
 */
module RateLimit {
  import opened Numbers
  import opened Options

  const MINUTE := 60_000

  /** A stored counter; it is gone from its expiry on. */
  datatype Counter = Counter(count: nat, expiresAt: Option<nat>)

  type Counters = map<nat, Counter>

  /** An increment belongs to the minute in which its request read the clock. */
  datatype Event =
    | Increment(readAt: nat, at: nat)
    | Expire(minute: nat, at: nat)
  {
    function Window(): nat {
      if Increment? then WindowOf(readAt) else minute
    }
  }

  function WindowOf(t: nat): nat {
    t / MINUTE
  }

  function WindowEnd(w: nat): nat {
    (w + 1) * MINUTE
  }

  predicate IsLive(c: Counters, w: nat, t: nat) {
    w in c && (c[w].expiresAt.Some? ==> t < c[w].expiresAt.value)
  }

  function Count(c: Counters, w: nat, t: nat): nat {
    if IsLive(c, w, t) then c[w].count else 0
  }

  function Incremented(c: Counters, w: nat, t: nat): Counters {
    c[w := Counter(Count(c, w, t) + 1, if IsLive(c, w, t) then c[w].expiresAt else None)]
  }

  function WithExpiry(c: Counters, w: nat, t: nat): Counters {
    if IsLive(c, w, t) then c[w := c[w].(expiresAt := Some(t + MINUTE))] else c
  }

  function Applied(c: Counters, e: Event): Counters {
    match e
    case Increment(r, t) => Incremented(c, WindowOf(r), t)
    case Expire(w, t) => WithExpiry(c, w, t)
  }

  // ----- runs

  /** Times never go back, and no command for a window comes before that window. */
  predicate InOrder(events: seq<Event>) {
    && (forall i, j | 0 <= i < j < |events| :: events[i].at <= events[j].at)
    && (forall i | 0 <= i < |events| ::
          if events[i].Increment? then events[i].readAt <= events[i].at else events[i].minute * MINUTE <= events[i].at)
  }

  function Stored(events: seq<Event>): Counters {
    if events == [] then map[] else Applied(Stored(events[..|events| - 1]), events[|events| - 1])
  }

  /** What the counter of window `w` says, whether or not it is still live. */
  function Tally(events: seq<Event>, w: nat): nat {
    if w in Stored(events) then Stored(events)[w].count else 0
  }

  /** The last event is an increment that the limit lets through. */
  predicate LastPasses(limit: nat, events: seq<Event>) {
    events != []
    && var e := events[|events| - 1];
    e.Increment? && Count(Stored(events[..|events| - 1]), e.Window(), e.at) < limit
  }

  /** It reached the store within its own minute. */
  predicate LastOnTime(events: seq<Event>) {
    events != [] && events[|events| - 1].at < WindowEnd(events[|events| - 1].Window())
  }

  /** All requests of window `w` let through, whenever their increments reached the store. */
  function All(limit: nat, events: seq<Event>, w: nat): nat {
    if events == [] then 0
    else
      All(limit, events[..|events| - 1], w)
      + if LastPasses(limit, events) && events[|events| - 1].Window() == w then 1 else 0
  }

  /** Requests of window `w` let through while the window lasts. */
  function Passes(limit: nat, events: seq<Event>, w: nat): nat {
    if events == [] then 0
    else
      Passes(limit, events[..|events| - 1], w)
      + if LastPasses(limit, events) && LastOnTime(events) && events[|events| - 1].Window() == w then 1 else 0
  }

  /** All requests let through that read the clock in the 60 seconds from `t`. */
  function AllFrom(limit: nat, events: seq<Event>, t: nat): nat {
    if events == [] then 0
    else
      AllFrom(limit, events[..|events| - 1], t)
      + if LastPasses(limit, events) && t <= events[|events| - 1].readAt < t + MINUTE then 1 else 0
  }

  /** Requests let through on time in the 60 seconds from `t`. */
  function PassesFrom(limit: nat, events: seq<Event>, t: nat): nat {
    if events == [] then 0
    else
      PassesFrom(limit, events[..|events| - 1], t)
      + if LastPasses(limit, events) && LastOnTime(events) && t <= events[|events| - 1].at < t + MINUTE then 1 else 0
  }

  /** The last event is an increment that finds its counter expired, and starts it over. */
  predicate LastRestarts(events: seq<Event>) {
    events != []
    && var e, stored := events[|events| - 1], Stored(events[..|events| - 1]);
    e.Increment? && e.Window() in stored && !IsLive(stored, e.Window(), e.at)
  }

  /** Some increment of window `w` reached the store at or after the expiry of its counter. */
  predicate Restarted(events: seq<Event>, w: nat) {
    events != []
    && (Restarted(events[..|events| - 1], w) || (LastRestarts(events) && events[|events| - 1].Window() == w))
  }

  /** What the finished lives of the counter of window `w` have let through. */
  function Past(limit: nat, events: seq<Event>, w: nat): nat {
    if events == [] then 0
    else
      var before := events[..|events| - 1];
      Past(limit, before, w)
      + if LastRestarts(events) && events[|events| - 1].Window() == w then Min(limit, Tally(before, w)) else 0
  }

  lemma LastPassesIs(limit: nat, before: seq<Event>, r: nat, at: nat)
    ensures LastPasses(limit, before + [Increment(r, at)]) <==> Count(Stored(before), WindowOf(r), at) < limit
  {
    assert (before + [Increment(r, at)])[..|before|] == before;
  }

  lemma WindowStart(t: nat)
    ensures WindowOf(t) * MINUTE <= t
  {
  }

  lemma PrefixGrows(before: seq<Event>, events: seq<Event>, e: Event)
    requires before <= events
    ensures before <= events + [e] && (events + [e])[|events + [e]| - 1] == e
  {
  }

  // ----- the limiter

  /** The store of one user and action; `events` is the history of commands and `clock` the shared time. */
  class EarnMutationRateLimit {
    var counters: Counters
    const limit: nat
    var clock: nat
    ghost var events: seq<Event>

    ghost predicate Valid()
      reads this
    {
      counters == Stored(events) && InOrder(events) && (events != [] ==> events[|events| - 1].at <= clock)
    }

    constructor (limit: nat)
      ensures Valid() && events == [] && this.limit == limit
    {
      counters, this.limit, clock, events := map[], limit, 0, [];
    }

    /** Time passes, and other requests send their commands. */
    method OtherRequests()
      requires Valid()
      modifies this
      ensures Valid() && old(events) <= events && old(clock) <= clock
    {
    }

    method Incr(window: nat, ghost readAt: nat) returns (count: nat)
      requires Valid() && window == WindowOf(readAt) && readAt <= clock
      modifies this
      ensures Valid() && clock == old(clock) && events == old(events) + [Increment(readAt, clock)]
      ensures count == Count(old(counters), window, clock) + 1
    {
      count := Count(counters, window, clock) + 1;
      counters := Incremented(counters, window, clock);
      events := events + [Increment(readAt, clock)];
    }

    method SetExpiry(window: nat)
      requires Valid() && window * MINUTE <= clock
      modifies this
      ensures Valid() && clock == old(clock) && events == old(events) + [Expire(window, clock)]
    {
      counters := WithExpiry(counters, window, clock);
      events := events + [Expire(window, clock)];
    }

    /**
     `assertAllowed`: read the clock, increment the counter of that minute, and set its expiry if the increment was the
     first.  Time passes and other requests act between the three; `before` is the history the increment found.
     */
    method AssertAllowed() returns (allowed: bool, ghost before: seq<Event>, ghost at: nat)
      requires Valid()
      modifies this
      ensures Valid() && old(events) <= before && old(clock) <= at
      ensures before + [Increment(old(clock), at)] <= events
      ensures allowed <==> LastPasses(limit, before + [Increment(old(clock), at)])
      ensures
        var w := WindowOf(old(clock));
        if Count(Stored(before), w, at) == 0 then
          |events| > |before| + 1 && events[|events| - 1] == Expire(w, clock)
        else events == before + [Increment(old(clock), at)]
    {
      var window := WindowOf(clock);
      ghost var readAt := clock;
      WindowStart(clock);
      OtherRequests();
      before, at := events, clock;
      LastPassesIs(limit, before, readAt, at);
      var count := Incr(window, readAt);
      if count == 1 {
        OtherRequests();
        PrefixGrows(before + [Increment(readAt, at)], events, Expire(window, clock));
        SetExpiry(window);
      }
      allowed := count <= limit;
    }
  }

  // ----- the bounds

  /** No counter can expire inside its own minute. */
  lemma {:induction false} ExpiryIsAfterTheWindow(events: seq<Event>, w: nat)
    requires InOrder(events) && w in Stored(events)
    ensures Stored(events)[w].expiresAt.Some? ==> Stored(events)[w].expiresAt.value >= WindowEnd(w)
  {
    var before := events[..|events| - 1];
    if w in Stored(before) { ExpiryIsAfterTheWindow(before, w); }
  }

  /** While its window lasts, a counter has counted every pass, and the limit has cut the passes off. */
  lemma {:induction false} PassesAreCounted(limit: nat, events: seq<Event>, w: nat)
    requires InOrder(events)
    ensures Passes(limit, events, w) <= limit
    ensures
      events == [] || events[|events| - 1].at < WindowEnd(w) ==>
          Passes(limit, events, w) == Min(limit, Tally(events, w))
  {
    if events != [] {
      var before, e := events[..|events| - 1], events[|events| - 1];
      PassesAreCounted(limit, before, w);
      if w in Stored(before) { ExpiryIsAfterTheWindow(before, w); }
    }
  }

  /** What passes in all: the limit or less in each life of the counter.  This holds of every history. */
  lemma {:induction false} AllByLives(limit: nat, events: seq<Event>, w: nat)
    ensures All(limit, events, w) == Past(limit, events, w) + Min(limit, Tally(events, w))
    ensures !Restarted(events, w) ==> Past(limit, events, w) == 0
  {
    if events != [] { AllByLives(limit, events[..|events| - 1], w); }
  }

  /**
   The requests of a clock minute: those on time never exceed the limit, and all of them together, however late, do not
   exceed it either unless one of them finds the counter expired.
   */
  lemma AtMostLimitPerMinute(limit: nat, events: seq<Event>, w: nat)
    requires InOrder(events)
    ensures Passes(limit, events, w) <= limit
    ensures !Restarted(events, w) ==> All(limit, events, w) == Min(limit, Tally(events, w)) <= limit
  {
    PassesAreCounted(limit, events, w);
    AllByLives(limit, events, w);
  }

  /** Exactly when a request exceeds a limit that has been used up: when its increment finds the counter expired. */
  lemma ExceedsIffRestarts(limit: nat, events: seq<Event>, readAt: nat, at: nat)
    requires limit > 0 && !Restarted(events, WindowOf(readAt)) && All(limit, events, WindowOf(readAt)) == limit
    ensures
      var events' := events + [Increment(readAt, at)];
      All(limit, events', WindowOf(readAt)) > limit <==> Restarted(events', WindowOf(readAt))
  {
    var events' := events + [Increment(readAt, at)];
    assert events'[..|events'| - 1] == events;
    AllByLives(limit, events, WindowOf(readAt));
    AllByLives(limit, events', WindowOf(readAt));
  }

  /** An increment within its own minute never finds the counter expired. */
  lemma OnTimeNeverRestarts(events: seq<Event>)
    requires InOrder(events) && LastOnTime(events)
    ensures !LastRestarts(events)
  {
    var before, w := events[..|events| - 1], events[|events| - 1].Window();
    if w in Stored(before) { ExpiryIsAfterTheWindow(before, w); }
  }

  lemma WindowsOfSpan(t: nat, u: nat)
    requires t <= u < t + MINUTE
    ensures WindowOf(u) == WindowOf(t) || WindowOf(u) == WindowOf(t) + 1
  {
  }

  lemma WindowOnTime(w: nat, u: nat)
    requires w * MINUTE <= u < WindowEnd(w)
    ensures WindowOf(u) == w
  {
  }

  lemma {:induction false} SpanIsTwoWindows(limit: nat, events: seq<Event>, t: nat)
    requires InOrder(events)
    ensures PassesFrom(limit, events, t) <= Passes(limit, events, WindowOf(t)) + Passes(limit, events, WindowOf(t) + 1)
    ensures AllFrom(limit, events, t) <= All(limit, events, WindowOf(t)) + All(limit, events, WindowOf(t) + 1)
  {
    if events != [] {
      var before, e := events[..|events| - 1], events[|events| - 1];
      SpanIsTwoWindows(limit, before, t);
      if LastPasses(limit, events) {
        WindowStart(e.readAt);
        if t <= e.readAt < t + MINUTE { WindowsOfSpan(t, e.readAt); }
        if LastOnTime(events) && t <= e.at < t + MINUTE {
          WindowOnTime(e.Window(), e.at);
          WindowsOfSpan(t, e.at);
        }
      }
    }
  }

  /**
   Any 60 seconds: at most twice the limit passes on time; and of all requests that read the clock then, however late
   their increments, no more either unless one of them finds its counter expired.
   */
  lemma AtMostTwicePerSpan(limit: nat, events: seq<Event>, t: nat)
    requires InOrder(events)
    ensures PassesFrom(limit, events, t) <= 2 * limit
    ensures
      !Restarted(events, WindowOf(t)) && !Restarted(events, WindowOf(t) + 1) ==> AllFrom(limit, events, t) <= 2 * limit
  {
    SpanIsTwoWindows(limit, events, t);
    AtMostLimitPerMinute(limit, events, WindowOf(t));
    AtMostLimitPerMinute(limit, events, WindowOf(t) + 1);
  }

  // ----- how long a counter lives

  /** No other expiry of the window is set, and its increments come within the minute from `t`. */
  predicate OnlyIncrements(events: seq<Event>, w: nat, t: nat) {
    forall e | e in events && e.Window() == w :: e.Increment? && e.at < t + MINUTE
  }

  /** Increments leave the expiry of their counter as it was set. */
  lemma {:induction false} ExpiryStands(before: seq<Event>, w: nat, t: nat, events: seq<Event>)
    requires IsLive(Stored(before), w, t) && OnlyIncrements(events, w, t)
    ensures
      var stored := Stored(before + [Expire(w, t)] + events);
      w in stored && stored[w].expiresAt == Some(t + MINUTE)
  {
    var history := before + [Expire(w, t)] + events;
    if events == [] {
      assert history == before + [Expire(w, t)] && history[..|history| - 1] == before;
    } else {
      var rest, last := events[..|events| - 1], events[|events| - 1];
      assert events == rest + [last];
      ExpiryStands(before, w, t, rest);
      assert history[..|history| - 1] == before + [Expire(w, t)] + rest;
    }
  }

  /** So a counter is gone 60 seconds after its expiry was set, and not before, however often it is incremented. */
  lemma LivesForAMinute(before: seq<Event>, w: nat, t: nat, events: seq<Event>, readAt: nat, at: nat)
    requires IsLive(Stored(before), w, t) && OnlyIncrements(events, w, t) && WindowOf(readAt) == w
    ensures LastRestarts(before + [Expire(w, t)] + events + [Increment(readAt, at)]) <==> at >= t + 60_000
  {
    ExpiryStands(before, w, t, events);
    var history := before + [Expire(w, t)] + events;
    assert (history + [Increment(readAt, at)])[..|history|] == history;
  }

  /** An expiry that comes when the counter is gone brings nothing back. */
  lemma ExpiryRevivesNothing(before: seq<Event>, w: nat, t: nat, at: nat)
    requires !IsLive(Stored(before), w, t) && t <= at
    ensures Count(Stored(before + [Expire(w, t)]), w, at) == 0
  {
    var history := before + [Expire(w, t)];
    assert history[..|history| - 1] == before;
  }

  // ----- late increments

  lemma StoredThree(e: Event, f: Event, g: Event)
    ensures
      var events := [e, f, g];
      && events[..2] == [e, f] && events[..2][..1] == [e] && events[..1] == [e] && events[..1][..0] == []
      && Stored(events[..2]) == Applied(Applied(map[], e), f)
  {
    assert [e, f, g][..2] == [e, f] && [e, f][..1] == [e] && [e][..0] == [];
    assert Stored([e]) == Applied(Stored([]), e);
  }

  /** With a limit of one: an increment that lands when the counter has expired is a second pass of its minute. */
  lemma LateIncrementStartsOver()
    ensures
      var events := [Increment(0, 0), Expire(0, 0), Increment(0, MINUTE)];
      InOrder(events) && Restarted(events, 0) && All(1, events, 0) == 2
  {
    var events := [Increment(0, 0), Expire(0, 0), Increment(0, MINUTE)];
    StoredThree(events[0], events[1], events[2]);
    assert All(1, events[..1], 0) == 1;
    assert All(1, events[..2], 0) == 1;
  }

  /** An increment that is late but lands before the expiry is counted and refused. */
  lemma LateIncrementStillCounts()
    ensures
      var events := [Increment(30_000, 30_000), Expire(0, 30_000), Increment(59_999, 70_000)];
      InOrder(events) && !LastOnTime(events) && !LastRestarts(events) && All(1, events, 0) == 1
  {
    var events := [Increment(30_000, 30_000), Expire(0, 30_000), Increment(59_999, 70_000)];
    StoredThree(events[0], events[1], events[2]);
    assert All(1, events[..1], 0) == 1;
    assert All(1, events[..2], 0) == 1;
  }
}
