/**
 * The per-address rate limiter: a log of admitted requests, pruned to the
 * last minute on every request; an address with ten requests in the window
 * is refused and its request is not logged.
 */
module RateLimiter {

  /** The window, in milliseconds. */
  const Window: int := 60 * 1000
  const MaxRequests: nat := 10

  datatype Record = Record(ip: string, timestamp: int)

  datatype Verdict = Next | Refused(status: int, message: string)

  /** `deleteMany({ timestamp: { $lt: now - Window } })`: what survives keeps its order. */
  function Prune(log: seq<Record>, now: int): (r: seq<Record>)
    ensures |r| <= |log|
    ensures forall x :: x in r <==> x in log && x.timestamp >= now - Window
  {
    if log == [] then []
    else
      var last := log[|log| - 1];
      Prune(log[..|log| - 1], now) + (if last.timestamp >= now - Window then [last] else [])
  }

  /** The records of one address. */
  function Count(log: seq<Record>, ip: string): nat {
    if log == [] then 0
    else Count(log[..|log| - 1], ip) + (if log[|log| - 1].ip == ip then 1 else 0)
  }

  /** `countDocuments({ ip, timestamp: { $gte: since } })`. */
  function CountSince(log: seq<Record>, ip: string, since: int): nat {
    if log == [] then 0
    else
      var last := log[|log| - 1];
      CountSince(log[..|log| - 1], ip, since) + (if last.ip == ip && last.timestamp >= since then 1 else 0)
  }

  /** Logging a request adds one to its own address's count and nothing to any other. */
  lemma CountAppend(log: seq<Record>, x: Record, ip: string)
    ensures Count(log + [x], ip) == Count(log, ip) + (if x.ip == ip then 1 else 0)
  {
    assert (log + [x])[..|log|] == log;
  }

  /** An address's requests within the window are among its requests. */
  lemma {:induction false} CountSinceAtMostCount(log: seq<Record>, ip: string, since: int)
    ensures CountSince(log, ip, since) <= Count(log, ip)
  {
    if log != [] {
      CountSinceAtMostCount(log[..|log| - 1], ip, since);
    }
  }

  /** After pruning, an address's records are exactly its requests within the window. */
  lemma {:induction false} PruneCount(log: seq<Record>, now: int, ip: string)
    ensures Count(Prune(log, now), ip) == CountSince(log, ip, now - Window)
  {
    if log != [] {
      var init := log[..|log| - 1];
      var last := log[|log| - 1];
      PruneCount(init, now, ip);
      if last.timestamp >= now - Window {
        assert Prune(log, now) == Prune(init, now) + [last];
        CountAppend(Prune(init, now), last, ip);
      } else {
        assert Prune(log, now) == Prune(init, now);
      }
    }
  }

  /** A log already inside the window survives pruning whole. */
  lemma {:induction false} PruneKeepsWindow(log: seq<Record>, now: int)
    requires forall i :: 0 <= i < |log| ==> log[i].timestamp >= now - Window
    ensures Prune(log, now) == log
  {
    if log != [] {
      var init := log[..|log| - 1];
      PruneKeepsWindow(init, now);
      assert log == init + [log[|log| - 1]];
    }
  }

  /** Pruning twice at the same instant is pruning once. */
  lemma PruneIdempotent(log: seq<Record>, now: int)
    ensures Prune(Prune(log, now), now) == Prune(log, now)
  {
    var p := Prune(log, now);
    forall i | 0 <= i < |p|
      ensures p[i].timestamp >= now - Window
    {
      assert p[i] in p;
    }
    PruneKeepsWindow(p, now);
  }

  class Limiter {
    /** The `requests` collection. */
    var log: seq<Record>

    /** No address has more than `MaxRequests` records in the collection. */
    ghost predicate Valid()
      reads this
    {
      forall ip :: Count(log, ip) <= MaxRequests
    }

    constructor ()
      ensures Valid() && log == []
    {
      log := [];
    }

    /**
     * One request from `ip` at `now`: prune, count the address's requests
     * in the window, refuse with 429 at `MaxRequests`, otherwise log it and
     * pass it on.
     */
    method Handle(ip: string, now: int) returns (v: Verdict)
      requires Valid()
      modifies this
      ensures Valid()
      ensures v.Next? <==> CountSince(old(log), ip, now - Window) < MaxRequests
      ensures v.Refused? ==> v == Refused(429, "Too many requests, please try again later.")
      ensures v.Next? ==> log == Prune(old(log), now) + [Record(ip, now)]
      ensures v.Refused? ==> log == Prune(old(log), now)
      ensures forall x: Record | x.ip != ip && x.timestamp >= now - Window :: x in log <==> x in old(log)
    {
      var pruned := Prune(log, now);
      forall other
        ensures Count(pruned, other) <= MaxRequests
      {
        PruneCount(log, now, other);
        CountSinceAtMostCount(log, other, now - Window);
      }
      PruneCount(log, now, ip);
      var requestCount := Count(pruned, ip);
      if requestCount >= MaxRequests {
        log := pruned;
        return Refused(429, "Too many requests, please try again later.");
      }
      forall other
        ensures Count(pruned + [Record(ip, now)], other) <= MaxRequests
      {
        CountAppend(pruned, Record(ip, now), other);
      }
      log := pruned + [Record(ip, now)];
      v := Next;
    }
  }
}
