/** The API's sliding-window rate limiter: check_rate_limit, and what its buckets guarantee over whole runs. */
module RateLimit {

  import opened Wrappers

  const WindowSeconds: real := 60.0

  // ------------------------------------------------------------ specification

  /** The bucket without the timestamps that have left the window. */
  function Trim(bucket: seq<real>, now: real): (kept: seq<real>) {
    if bucket != [] && bucket[0] <= now - WindowSeconds then Trim(bucket[1..], now) else bucket
  }

  function Bucket(buckets: map<Key, seq<real>>, key: Key): seq<real> {
    if key in buckets then buckets[key] else []
  }

  predicate Accepts(bucket: seq<real>, limit: nat, now: real) {
    |Trim(bucket, now)| < limit
  }

  function Checked(bucket: seq<real>, limit: nat, now: real): seq<real> {
    if Accepts(bucket, limit, now) then Trim(bucket, now) + [now] else Trim(bucket, now)
  }

  /** int() truncates, and the wait is positive here. */
  function RetryAfter(oldest: real, now: real): int {
    var wait := (WindowSeconds - (now - oldest)).Floor + 1;
    if wait < 1 then 1 else wait
  }

  // ------------------------------------------------------------ the code

  class RateLimiter {
    var buckets: map<Key, seq<real>>

    constructor ()
      ensures buckets == map[]
    {
      buckets := map[];
    }

    method CheckRateLimit(key: Key, limit: nat, now: real) returns (accepted: bool, retryAfter: int)
      requires limit > 0
      modifies this
      ensures accepted == Accepts(Bucket(old(buckets), key), limit, now)
      ensures buckets == old(buckets)[key := Checked(Bucket(old(buckets), key), limit, now)]
      ensures retryAfter == if accepted then 0 else RetryAfter(buckets[key][0], now)
    {
      if key !in buckets {
        buckets := buckets[key := []];
      }
      while buckets[key] != [] && buckets[key][0] <= now - WindowSeconds
        invariant key in buckets && buckets == old(buckets)[key := buckets[key]]
        invariant Trim(buckets[key], now) == Trim(Bucket(old(buckets), key), now)
        decreases |buckets[key]|
      {
        buckets := buckets[key := buckets[key][1..]];
      }
      if |buckets[key]| >= limit {
        return false, RetryAfter(buckets[key][0], now);
      }
      buckets := buckets[key := buckets[key] + [now]];
      return true, 0;
    }
  }

  // ------------------------------------------------------------ one key's history

  predicate Sorted(times: seq<real>) {
    forall i, j :: 0 <= i < j < |times| ==> times[i] <= times[j]
  }

  /** accepted: the accepted requests so far; bucket: what the limiter remembers. */
  datatype History = History(accepted: seq<real>, bucket: seq<real>)

  function After(h: History, limit: nat, now: real): History {
    History(if Accepts(h.bucket, limit, now) then h.accepted + [now] else h.accepted, Checked(h.bucket, limit, now))
  }

  function Run(limit: nat, times: seq<real>): History {
    if times == [] then History([], [])
    else After(Run(limit, times[..|times| - 1]), limit, times[|times| - 1])
  }

  lemma {:induction false} TrimIsTheWindow(times: seq<real>, now: real)
    requires Sorted(times)
    ensures
      var cut := |times| - |Trim(times, now)|;
      && 0 <= cut && Trim(times, now) == times[cut..]
      && forall i :: 0 <= i < |times| ==> (i >= cut <==> times[i] > now - WindowSeconds)
  {
    if times == [] || times[0] > now - WindowSeconds {
    } else {
      TrimIsTheWindow(times[1..], now);
      assert forall i :: 0 < i < |times| ==> times[i] == times[1..][i - 1];
    }
  }

  lemma {:induction false} TrimTwice(times: seq<real>, earlier: real, later: real)
    requires earlier <= later
    ensures Trim(Trim(times, earlier), later) == Trim(times, later)
  {
    if times == [] || times[0] > earlier - WindowSeconds {
    } else {
      TrimTwice(times[1..], earlier, later);
    }
  }

  /** The clock has not gone back since. */
  predicate UpTo(times: seq<real>, now: real) {
    Sorted(times) && forall i :: 0 <= i < |times| ==> times[i] <= now
  }

  lemma {:induction false} TrimAppend(times: seq<real>, now: real)
    ensures Trim(times + [now], now) == Trim(times, now) + [now]
  {
    if times == [] || times[0] > now - WindowSeconds {
    } else {
      assert (times + [now])[1..] == times[1..] + [now];
      TrimAppend(times[1..], now);
    }
  }

  /** The limit, spread over time: any request comes a full window after the one limit places before it. */
  predicate Spaced(accepted: seq<real>, limit: nat) {
    forall i :: 0 <= i < |accepted| - limit ==> accepted[i + limit] >= accepted[i] + WindowSeconds
  }

  predicate Tracks(h: History, limit: nat, now: real) {
    UpTo(h.accepted, now) && h.bucket == Trim(h.accepted, now) && Spaced(h.accepted, limit)
  }

  lemma SpacedApart(accepted: seq<real>, limit: nat, i: nat, j: nat)
    requires Sorted(accepted) && Spaced(accepted, limit) && i <= j < |accepted|
    ensures i + limit <= j ==> accepted[j] >= accepted[i] + WindowSeconds
  {
    if i + limit <= j {
      assert accepted[i + limit] >= accepted[i] + WindowSeconds;
    }
  }

  lemma SpacedAppend(accepted: seq<real>, limit: nat, now: real)
    requires limit > 0 && UpTo(accepted, now) && Spaced(accepted, limit) && |Trim(accepted, now)| < limit
    ensures Spaced(accepted + [now], limit)
  {
    TrimIsTheWindow(accepted, now);
  }

  lemma CheckTracks(h: History, limit: nat, before: real, now: real)
    requires limit > 0 && Tracks(h, limit, before) && before <= now
    ensures Tracks(After(h, limit, now), limit, now)
    ensures Trim(h.bucket, now) == Trim(h.accepted, now)
  {
    TrimTwice(h.accepted, before, now);
    if Accepts(h.bucket, limit, now) {
      SpacedAppend(h.accepted, limit, now);
      TrimAppend(h.accepted, now);
    }
  }

  /** In every run on a clock that never goes back, the bucket is exactly the accepted requests of the last
      window, and acceptances keep their distance. */
  lemma {:induction false} BucketIsTheWindow(limit: nat, times: seq<real>)
    requires limit > 0 && Sorted(times) && times != []
    ensures Tracks(Run(limit, times), limit, times[|times| - 1])
  {
    var earlier := times[..|times| - 1];
    var now := times[|times| - 1];
    if earlier == [] {
      CheckTracks(History([], []), limit, now, now);
    } else {
      BucketIsTheWindow(limit, earlier);
      CheckTracks(Run(limit, earlier), limit, earlier[|earlier| - 1], now);
    }
  }

  /** No window of 60 seconds, wherever it lies, holds more than limit accepted requests. */
  lemma NoWindowOverflows(limit: nat, times: seq<real>, t: real, i: nat, j: nat)
    requires limit > 0 && Sorted(times)
    requires
      var accepted := Run(limit, times).accepted;
      i <= j < |accepted| && t - 60.0 < accepted[i] && accepted[j] <= t
    ensures j - i + 1 <= limit
  {
    BucketIsTheWindow(limit, times);
    SpacedApart(Run(limit, times).accepted, limit, i, j);
  }

  /** What the next request, at any later time, will find. */
  lemma RunTracks(limit: nat, times: seq<real>, now: real)
    requires limit > 0 && UpTo(times, now)
    ensures
      var h := Run(limit, times);
      UpTo(h.accepted, now) && Spaced(h.accepted, limit) && Trim(h.bucket, now) == Trim(h.accepted, now)
  {
    if times != [] {
      BucketIsTheWindow(limit, times);
      CheckTracks(Run(limit, times), limit, times[|times| - 1], now);
    }
  }

  /** The window (now - 60, now] holds exactly the times from index gone on. */
  predicate WindowFrom(times: seq<real>, now: real, gone: nat) {
    gone <= |times| && forall i :: 0 <= i < |times| ==> (i >= gone <==> times[i] > now - 60.0)
  }

  lemma TrimFindsTheWindow(times: seq<real>, now: real, gone: nat)
    requires Sorted(times)
    ensures WindowFrom(times, now, gone) <==> gone == |times| - |Trim(times, now)|
  {
    TrimIsTheWindow(times, now);
    var cut := |times| - |Trim(times, now)|;
    if gone < |times| {
      assert times[gone] > now - 60.0 <==> gone >= cut;
    }
    if cut < |times| {
      assert times[cut] > now - 60.0;
    }
  }

  lemma SomeWindow(limit: nat, times: seq<real>, now: real) returns (gone: nat)
    requires limit > 0 && UpTo(times, now)
    ensures WindowFrom(Run(limit, times).accepted, now, gone)
  {
    RunTracks(limit, times, now);
    var accepted := Run(limit, times).accepted;
    TrimIsTheWindow(accepted, now);
    gone := |accepted| - |Trim(accepted, now)|;
    TrimFindsTheWindow(accepted, now, gone);
  }

  /** A request is accepted exactly when fewer than limit were accepted in the window it closes, and there are
      never more than limit. */
  lemma AcceptedExactlyWhenRoom(limit: nat, times: seq<real>, now: real, gone: nat)
    requires limit > 0 && UpTo(times, now) && WindowFrom(Run(limit, times).accepted, now, gone)
    ensures
      var accepted := Run(limit, times).accepted;
      && |accepted| - gone <= limit
      && Run(limit, times + [now]).accepted == if |accepted| - gone < limit then accepted + [now] else accepted
  {
    assert (times + [now])[..|times|] == times;
    RunTracks(limit, times, now);
    var accepted := Run(limit, times).accepted;
    TrimFindsTheWindow(accepted, now, gone);
    if gone < |accepted| {
      SpacedApart(accepted, limit, gone, |accepted| - 1);
    }
  }

  /** When the window is full, there is room again once its oldest request has left, and not before. */
  lemma FullUntilTheOldestLeaves(accepted: seq<real>, limit: nat, now: real, later: real)
    requires UpTo(accepted, now) && now <= later && |Trim(accepted, now)| == limit > 0
    ensures |Trim(accepted, later)| < limit <==> later >= Trim(accepted, now)[0] + WindowSeconds
  {
    TrimIsTheWindow(accepted, now);
    TrimIsTheWindow(accepted, later);
    var cut := |accepted| - limit;
    assert accepted[cut] == Trim(accepted, now)[0];
  }

  /** A denied caller that comes back after retry_after is accepted, if nothing was accepted meanwhile; before
      the oldest request leaves the window it is denied again; and retry_after asks at most a second too much. */
  lemma WaitingIsEnough(limit: nat, times: seq<real>, now: real, meanwhile: seq<real>, later: real)
    requires limit > 0 && UpTo(times, now) && now <= later && UpTo(times + [now] + meanwhile, later)
    requires !Accepts(Run(limit, times).bucket, limit, now)
    requires Run(limit, times + [now] + meanwhile).accepted == Run(limit, times).accepted
    ensures
      var oldest := Trim(Run(limit, times).bucket, now)[0];
      var acceptedThen := Accepts(Run(limit, times + [now] + meanwhile).bucket, limit, later);
      && (later >= now + RetryAfter(oldest, now) as real ==> acceptedThen)
      && (acceptedThen <==> later >= oldest + 60.0)
      && oldest + 60.0 - now < RetryAfter(oldest, now) as real <= oldest + 60.0 - now + 1.0
  {
    RunTracks(limit, times, now);
    RunTracks(limit, times + [now] + meanwhile, later);
    var gone := SomeWindow(limit, times, now);
    AcceptedExactlyWhenRoom(limit, times, now, gone);
    var accepted := Run(limit, times).accepted;
    TrimIsTheWindow(accepted, now);
    FullUntilTheOldestLeaves(accepted, limit, now, later);
  }

  // ------------------------------------------------------------ many keys

  datatype Request = Request(key: Key, time: real)

  function RunAll(limits: map<Key, nat>, requests: seq<Request>): map<Key, seq<real>>
    requires forall i :: 0 <= i < |requests| ==> requests[i].key in limits
  {
    if requests == [] then map[]
    else
      var last := requests[|requests| - 1];
      var before := RunAll(limits, requests[..|requests| - 1]);
      before[last.key := Checked(Bucket(before, last.key), limits[last.key], last.time)]
  }

  function TimesOf(requests: seq<Request>, key: Key): seq<real> {
    if requests == [] then []
    else
      var last := requests[|requests| - 1];
      TimesOf(requests[..|requests| - 1], key) + if last.key == key then [last.time] else []
  }

  /** Keys do not disturb one another: each bucket is that of its own requests alone. */
  lemma {:induction false} KeysAreIndependent(limits: map<Key, nat>, requests: seq<Request>, key: Key)
    requires key in limits && forall i :: 0 <= i < |requests| ==> requests[i].key in limits
    ensures Bucket(RunAll(limits, requests), key) == Run(limits[key], TimesOf(requests, key)).bucket
  {
    if requests == [] {
    } else {
      var before := requests[..|requests| - 1];
      KeysAreIndependent(limits, before, key);
      var last := requests[|requests| - 1];
      var times := TimesOf(before, key);
      if last.key == key {
        assert (times + [last.time])[..|times|] == times;
      } else {
        assert times + [] == times;
      }
    }
  }
}
