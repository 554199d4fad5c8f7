/** internal/observability/observability.go: the event deduper, against the full history of calls. */
module EventDeduper {
  import opened Prelude

  datatype Event = Event(key: string, at: int)

  predicate Nondecreasing(calls: seq<Event>) {
    forall i, j :: 0 <= i < j < |calls| ==> calls[i].at <= calls[j].at
  }

  // No event with this key was let through less than one interval ago.
  predicate Due(log: seq<Event>, call: Event, interval: int) {
    forall e :: e in log && e.key == call.key ==> call.at - e.at >= interval
  }

  // The unbounded log: every event that was let through.
  function Log(calls: seq<Event>, interval: int): seq<Event>
    decreases |calls|
  {
    if calls == [] then []
    else
      var log, call := Log(calls[..|calls| - 1], interval), calls[|calls| - 1];
      if Due(log, call, interval) then log + [call] else log
  }

  lemma {:induction false} LogIsPast(calls: seq<Event>, interval: int)
    requires Nondecreasing(calls)
    ensures forall e :: e in Log(calls, interval) ==> e in calls && e.at <= calls[|calls| - 1].at
    decreases |calls|
  {
    if calls != [] {
      LogIsPast(calls[..|calls| - 1], interval);
      assert forall e :: e in calls[..|calls| - 1] ==> e in calls;
    }
  }

  predicate OncePerInterval(log: seq<Event>, interval: int) {
    forall i, j :: 0 <= i < j < |log| && log[i].key == log[j].key ==> log[j].at - log[i].at >= interval
  }

  // What deduplication is for: one key gets through at most once per interval.
  lemma {:induction false} LogIsSpaced(calls: seq<Event>, interval: int)
    ensures OncePerInterval(Log(calls, interval), interval)
    decreases |calls|
  {
    if calls != [] {
      var log := Log(calls[..|calls| - 1], interval);
      LogIsSpaced(calls[..|calls| - 1], interval);
      assert forall i :: 0 <= i < |log| ==> log[i] in log;
    }
  }

  // And nothing is lost for good: every call is preceded, less than an interval ago, by an event with its key
  // that got through, or gets through itself.
  lemma {:induction false} EveryCallIsCovered(calls: seq<Event>, interval: int, k: nat)
    requires k < |calls| && interval > 0
    ensures exists e :: e in Log(calls[..k + 1], interval) && e.key == calls[k].key && calls[k].at - e.at < interval
  {
    var upTo := calls[..k + 1];
    assert upTo[..|upTo| - 1] == calls[..k] && upTo[|upTo| - 1] == calls[k];
    var log := Log(calls[..k], interval);
    if Due(log, calls[k], interval) {
      assert (log + [calls[k]])[|log|] == calls[k];
      assert calls[k] in Log(upTo, interval);
    }
  }

  // The map keeps the latest time of every key, except those at least an interval old.
  predicate Remembers(seen: map<string, int>, log: seq<Event>, now: int, interval: int) {
    && (forall k :: k in seen ==> Event(k, seen[k]) in log)
    && (forall e :: e in log ==> now - e.at >= interval || (e.key in seen && seen[e.key] >= e.at))
  }

  class Deduper {
    var seen: map<string, int>
    const interval: int
    ghost var calls: seq<Event>

    ghost predicate Valid()
      reads this
    {
      && interval > 0
      && (Nondecreasing(calls) && calls != [] ==>
            Remembers(seen, Log(calls, interval), calls[|calls| - 1].at, interval))
      && (calls == [] ==> seen == map[])
    }

    constructor (interval: int)
      ensures Valid() && calls == [] && this.interval == if interval <= 0 then MINUTE else interval
    {
      this.interval := if interval <= 0 then MINUTE else interval;
      seen := map[];
      calls := [];
    }

    method Evict(now: int)
      modifies `seen
      ensures forall k :: k in seen <==> k in old(seen) && now - old(seen)[k] < interval
      ensures forall k :: k in seen ==> seen[k] == old(seen)[k]
    {
      var keys := seen.Keys;
      while keys != {}
        invariant keys <= seen.Keys <= old(seen).Keys
        invariant forall k :: k in seen ==> seen[k] == old(seen)[k]
        invariant forall k :: k in old(seen) && k !in keys ==> (k in seen <==> now - old(seen)[k] < interval)
        decreases |keys|
      {
        var k :| k in keys;
        keys := keys - {k};
        if now - seen[k] >= interval { seen := seen - {k}; }
      }
    }

    // For nondecreasing times the bounded map answers as the unbounded log does, and it keeps only
    // entries younger than the interval.
    method Allow(key: string, now: int) returns (allowed: bool)
      requires Valid()
      modifies this
      ensures Valid() && calls == old(calls) + [Event(key, now)]
      ensures Nondecreasing(calls) ==> allowed == Due(Log(old(calls), interval), Event(key, now), interval)
      ensures forall k :: k in seen ==> now - seen[k] < interval
      ensures allowed ==> key in seen && seen[key] == now
    {
      ghost var before, was := calls, seen;
      Evict(now);
      calls := calls + [Event(key, now)];
      if Nondecreasing(calls) { AllowRemembers(before, was, seen, key, now, interval); }
      if key in seen && now - seen[key] < interval { return false; }
      seen := seen[key := now];
      return true;
    }
  }

  // Eviction drops only what can no longer matter.
  lemma EvictionRemembers(calls: seq<Event>, was: map<string, int>, seen: map<string, int>, now: int, interval: int)
    requires Nondecreasing(calls) && interval > 0 && (calls == [] ==> was == map[])
    requires calls != [] ==> calls[|calls| - 1].at <= now
    requires calls != [] ==> Remembers(was, Log(calls, interval), calls[|calls| - 1].at, interval)
    requires forall k :: k in seen <==> k in was && now - was[k] < interval
    requires forall k :: k in seen ==> seen[k] == was[k]
    ensures Remembers(seen, Log(calls, interval), now, interval)
    ensures forall k :: Due(Log(calls, interval), Event(k, now), interval) <==> k !in seen
  {
    LogIsPast(calls, interval);
    forall k ensures Due(Log(calls, interval), Event(k, now), interval) <==> k !in seen {
      if k in seen { assert Event(k, seen[k]) in Log(calls, interval); }
    }
  }

  lemma AllowRemembers(calls: seq<Event>, was: map<string, int>, seen: map<string, int>, key: string, now: int,
          interval: int)
    requires var all := calls + [Event(key, now)]; Nondecreasing(all)
    requires interval > 0 && (calls == [] ==> was == map[])
    requires Nondecreasing(calls) && calls != [] ==>
             Remembers(was, Log(calls, interval), calls[|calls| - 1].at, interval)
    requires forall k :: k in seen <==> k in was && now - was[k] < interval
    requires forall k :: k in seen ==> seen[k] == was[k]
    ensures Due(Log(calls, interval), Event(key, now), interval) <==> key !in seen
    ensures var all := calls + [Event(key, now)];
            Remembers(if key in seen then seen else seen[key := now], Log(all, interval), now, interval)
  {
    var all := calls + [Event(key, now)];
    assert all[..|all| - 1] == calls && all[|all| - 1] == Event(key, now);
    assert forall i :: 0 <= i < |calls| ==> all[i] == calls[i];
    EvictionRemembers(calls, was, seen, now, interval);
    LogIsPast(calls, interval);
    hide Remembers;
    if key !in seen { RemembersMore(seen, Log(calls, interval), key, now, interval); }
  }

  lemma RemembersMore(seen: map<string, int>, log: seq<Event>, key: string, now: int, interval: int)
    requires Remembers(seen, log, now, interval) && forall e :: e in log ==> e.at <= now
    requires key !in seen && interval > 0
    ensures Remembers(seen[key := now], log + [Event(key, now)], now, interval)
  {
    assert (log + [Event(key, now)])[|log|] == Event(key, now);
  }
}
