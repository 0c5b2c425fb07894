/** The admission controller (src/utils/rate_limiter.py): per-user sliding
    windows of request timestamps and per-user active-task counters.
    Timestamps are whole seconds supplied by the caller. */
module RateLimiting {
  import opened Values
  import Text

  type UserId = int

  // ----- Sliding-window filters -----

  /** The timestamps of `s` strictly newer than `cutoff`, in order: the list
      comprehension `[t for t in s if t > cutoff]`. */
  function KeepAfter(s: seq<int>, cutoff: int): (r: seq<int>)
    ensures |r| <= |s|
    ensures forall i :: 0 <= i < |r| ==> r[i] > cutoff
  {
    if s == [] then []
    else
      var rest := KeepAfter(s[1..], cutoff);
      if s[0] > cutoff then [s[0]] + rest else rest
  }

  /** Eviction keeps every timestamp newer than the cutoff, as often as it
      occurs, and nothing else. */
  lemma {:induction false} KeepAfterCounts(s: seq<int>, cutoff: int)
    ensures forall x :: multiset(KeepAfter(s, cutoff))[x] == if x > cutoff then multiset(s)[x] else 0
  {
    if s != [] {
      KeepAfterCounts(s[1..], cutoff);
      assert s == [s[0]] + s[1..];
    }
  }

  /** Nothing is evicted exactly when every timestamp is newer than the
      cutoff. */
  lemma {:induction false} KeepAfterAll(s: seq<int>, cutoff: int)
    ensures |KeepAfter(s, cutoff)| == |s| <==> forall i :: 0 <= i < |s| ==> s[i] > cutoff
    ensures (forall i :: 0 <= i < |s| ==> s[i] > cutoff) ==> KeepAfter(s, cutoff) == s
  {
    if s != [] {
      KeepAfterAll(s[1..], cutoff);
      assert forall i :: 1 <= i < |s| ==> s[i] == s[1..][i - 1];
    }
  }

  /** The timestamps of `s` no later than `t`, in order. */
  function KeepUpTo(s: seq<int>, t: int): (r: seq<int>)
    ensures |r| <= |s|
  {
    if s == [] then []
    else
      var rest := KeepUpTo(s[1..], t);
      if s[0] <= t then [s[0]] + rest else rest
  }

  lemma {:induction false} KeepUpToAll(s: seq<int>, t: int)
    requires forall i :: 0 <= i < |s| ==> s[i] <= t
    ensures KeepUpTo(s, t) == s
  {
    if s != [] {
      KeepUpToAll(s[1..], t);
    }
  }

  lemma {:induction false} KeepAfterAppend(a: seq<int>, b: seq<int>, cutoff: int)
    ensures KeepAfter(a + b, cutoff) == KeepAfter(a, cutoff) + KeepAfter(b, cutoff)
  {
    if a == [] {
      assert a + b == b;
    } else {
      assert (a + b)[1..] == a[1..] + b;
      KeepAfterAppend(a[1..], b, cutoff);
    }
  }

  lemma {:induction false} KeepUpToAppend(a: seq<int>, b: seq<int>, t: int)
    ensures KeepUpTo(a + b, t) == KeepUpTo(a, t) + KeepUpTo(b, t)
  {
    if a == [] {
      assert a + b == b;
    } else {
      assert (a + b)[1..] == a[1..] + b;
      KeepUpToAppend(a[1..], b, t);
    }
  }

  /** Evicting at `c` and then at a later cutoff `c2` is evicting at `c2`. */
  lemma {:induction false} KeepAfterTwice(s: seq<int>, c: int, c2: int)
    requires c <= c2
    ensures KeepAfter(KeepAfter(s, c), c2) == KeepAfter(s, c2)
  {
    if s != [] {
      KeepAfterTwice(s[1..], c, c2);
      if s[0] > c {
        assert KeepAfter(s, c) == [s[0]] + KeepAfter(s[1..], c);
        assert KeepAfter(s, c)[1..] == KeepAfter(s[1..], c);
      }
    }
  }

  // ----- The controller -----

  /** Why `is_allowed` refused, in the order it checks. */
  datatype Denial = RateLimited | TooManyActiveTasks

  /** The decision of `is_allowed` once the window holds `kept` recent
      requests and the user has `active` tasks: the rate check comes first. */
  function Decide(kept: nat, active: int, maxRequests: int, maxActiveTasks: int): (d: Option<Denial>)
    ensures d.None? <==> kept < maxRequests && active < maxActiveTasks
    ensures kept >= maxRequests ==> d == Some(RateLimited)
    ensures d == Some(TooManyActiveTasks) <==> kept < maxRequests && active >= maxActiveTasks
  {
    if kept >= maxRequests then Some(RateLimited)
    else if active >= maxActiveTasks then Some(TooManyActiveTasks)
    else None
  }

  /** One `is_allowed` call on one user's window at time `now`: the window
      after eviction, with `now` appended when the request is admitted. */
  function WindowStep(window: seq<int>, now: int, active: int, maxRequests: int,
                      timeWindow: int, maxActiveTasks: int): (res: (Option<Denial>, seq<int>))
    ensures var kept := KeepAfter(window, now - timeWindow);
      res.0 == Decide(|kept|, active, maxRequests, maxActiveTasks) &&
      res.1 == if res.0.None? then kept + [now] else kept
    ensures res.0.None? ==> |res.1| <= maxRequests
    ensures forall i :: 0 <= i < |res.1| - 1 ==> res.1[i] > now - timeWindow
  {
    var kept := KeepAfter(window, now - timeWindow);
    var d := Decide(|kept|, active, maxRequests, maxActiveTasks);
    (d, if d.None? then kept + [now] else kept)
  }

  /** The admitted count never exceeds the limit, or zero when the limit
      is not positive. */
  function Cap(maxRequests: int): nat {
    if maxRequests < 0 then 0 else maxRequests
  }

  class RateLimiter {
    const maxRequests: int
    const timeWindow: int
    /** Fixed at 5: the constructor does not take it from the configuration. */
    const maxActiveTasks: int
    var requests: map<UserId, seq<int>>
    var activeTasks: map<UserId, int>

    /** `RateLimiter(max_requests, time_window)`: both maps start empty. */
    constructor (maxRequests: int, timeWindow: int)
      ensures this.maxRequests == maxRequests && this.timeWindow == timeWindow
      ensures maxActiveTasks == 5
      ensures requests == map[] && activeTasks == map[]
      ensures Valid()
    {
      this.maxRequests := maxRequests;
      this.timeWindow := timeWindow;
      maxActiveTasks := 5;
      requests := map[];
      activeTasks := map[];
    }

    /** A user's window; a user never seen has an empty one. */
    function Requests(u: UserId): seq<int>
      reads this
    {
      if u in requests then requests[u] else []
    }

    /** A user's active-task count; a user never seen has none. */
    function Active(u: UserId): int
      reads this
    {
      if u in activeTasks then activeTasks[u] else 0
    }

    /** The decision `is_allowed(u)` takes at `now`, and the user's window
        after it. */
    function Step(u: UserId, now: int): (Option<Denial>, seq<int>)
      reads this
    {
      WindowStep(Requests(u), now, Active(u), maxRequests, timeWindow, maxActiveTasks)
    }

    /** No counter is negative and no window holds more than the limit. */
    ghost predicate Valid()
      reads this
    {
      (forall u :: u in activeTasks ==> activeTasks[u] >= 0) &&
      (forall u :: u in requests ==> |requests[u]| <= Cap(maxRequests))
    }

    function RateLimitMessage(): string {
      "Rate limit exceeded. Max " + Text.IntToString(maxRequests) + " requests per " +
      Text.IntToString(timeWindow) + " seconds."
    }

    function TooManyTasksMessage(): string {
      "Too many active tasks. Max " + Text.IntToString(maxActiveTasks) + " concurrent tasks."
    }

    /** `is_allowed(user_id)` at time `now`. The user's window loses every
        timestamp at or before `now - time_window`; then the rate check,
        then the active-task check; only an admitted request appends `now`.
        No counter and no other user's window changes. */
    method IsAllowed(u: UserId, now: int) returns (allowed: bool, error: Option<string>)
      requires Valid()
      modifies this
      ensures Valid()
      ensures var step := WindowStep(old(Requests(u)), now, old(Active(u)), maxRequests,
                                     timeWindow, maxActiveTasks);
        allowed == step.0.None? && requests == old(requests)[u := step.1] &&
        error == match step.0
                 case None => None
                 case Some(RateLimited) => Some(RateLimitMessage())
                 case Some(TooManyActiveTasks) => Some(TooManyTasksMessage())
      ensures activeTasks == old(activeTasks)
    {
      var cutoff := now - timeWindow;
      var kept := KeepAfter(Requests(u), cutoff);
      requests := requests[u := kept];
      if |kept| >= maxRequests {
        return false, Some(RateLimitMessage());
      }
      if Active(u) >= maxActiveTasks {
        return false, Some(TooManyTasksMessage());
      }
      requests := requests[u := kept + [now]];
      return true, None;
    }

    /** `increment_active_tasks(user_id)`: exactly one more. */
    method IncrementActiveTasks(u: UserId)
      requires Valid()
      modifies this
      ensures Valid()
      ensures activeTasks == old(activeTasks)[u := old(Active(u)) + 1]
      ensures requests == old(requests)
    {
      activeTasks := activeTasks[u := Active(u) + 1];
    }

    /** `decrement_active_tasks(user_id)`: one less, but never below zero. */
    method DecrementActiveTasks(u: UserId)
      requires Valid()
      modifies this
      ensures Valid()
      ensures old(Active(u)) > 0 ==> activeTasks == old(activeTasks)[u := old(Active(u)) - 1]
      ensures old(Active(u)) <= 0 ==> activeTasks == old(activeTasks)
      ensures Active(u) >= 0
      ensures requests == old(requests)
    {
      if Active(u) > 0 {
        activeTasks := activeTasks[u := Active(u) - 1];
      }
    }

    /** `get_user_stats(user_id)` at time `now`: counts the window's entries
        newer than the cutoff without evicting any, and reports the counter
        and both limits as they are. */
    function GetUserStats(u: UserId, now: int): (st: UserStats)
      reads this
      ensures st.recentRequests == |KeepAfter(Requests(u), now - timeWindow)|
      ensures st.recentRequests <= |Requests(u)|
      ensures st.recentRequests == |Requests(u)| <==>
        forall i :: 0 <= i < |Requests(u)| ==> Requests(u)[i] > now - timeWindow
      ensures st.maxRequests == maxRequests && st.maxActiveTasks == maxActiveTasks
      ensures st.activeTasks == Active(u)
    {
      KeepAfterAll(Requests(u), now - timeWindow);
      UserStats(|KeepAfter(Requests(u), now - timeWindow)|, maxRequests, Active(u), maxActiveTasks)
    }
  }

  datatype UserStats = UserStats(recentRequests: nat, maxRequests: int, activeTasks: int,
                                 maxActiveTasks: int)

  // ----- The sliding-window guarantee over a run of calls -----

  /** One `is_allowed` call of a user: its time, and the user's active-task
      count at that moment (which other calls may have changed). */
  datatype Call = Call(time: int, active: int)

  /** Replays `is_allowed` calls of one user on a fresh limiter. Returns the
      user's window afterwards and the times of the admitted calls. */
  function Replay(calls: seq<Call>, maxRequests: int, timeWindow: int,
                  maxActiveTasks: int): (res: (seq<int>, seq<int>))
    decreases |calls|
  {
    if calls == [] then ([], [])
    else
      var prev := Replay(calls[..|calls| - 1], maxRequests, timeWindow, maxActiveTasks);
      var c := calls[|calls| - 1];
      var step := WindowStep(prev.0, c.time, c.active, maxRequests, timeWindow, maxActiveTasks);
      (step.1, if step.0.None? then prev.1 + [c.time] else prev.1)
  }

  predicate NonDecreasing(calls: seq<Call>) {
    forall i, j :: 0 <= i < j < |calls| ==> calls[i].time <= calls[j].time
  }

  /** Admissions inside the trailing window `(t - timeWindow, t]`. */
  function WindowCount(admitted: seq<int>, t: int, timeWindow: int): nat {
    |KeepAfter(KeepUpTo(admitted, t), t - timeWindow)|
  }

  /** From the last cutoff on, the window evicts exactly like the full
      history of admissions would. */
  ghost predicate Tracks(window: seq<int>, admitted: seq<int>, cutoff: int) {
    forall c :: c >= cutoff ==> KeepAfter(window, c) == KeepAfter(admitted, c)
  }

  /** Evicting at a cutoff no earlier than the last one and appending the
      same entries to the window and to the history keeps the window in
      step with the history. */
  lemma StepTracks(window: seq<int>, admitted: seq<int>, prevCut: int, cut: int, extra: seq<int>)
    requires Tracks(window, admitted, prevCut) && prevCut <= cut
    ensures Tracks(KeepAfter(window, cut) + extra, admitted + extra, cut)
  {
    forall c2 | c2 >= cut
      ensures KeepAfter(KeepAfter(window, cut) + extra, c2) == KeepAfter(admitted + extra, c2)
    {
      KeepAfterAppend(KeepAfter(window, cut), extra, c2);
      KeepAfterTwice(window, cut, c2);
      KeepAfterAppend(admitted, extra, c2);
    }
  }

  /** An admission after `t` does not show in the window ending at `t`. */
  lemma AppendAfterWindow(admitted: seq<int>, now: int, t: int, timeWindow: int)
    requires t < now
    ensures WindowCount(admitted + [now], t, timeWindow) == WindowCount(admitted, t, timeWindow)
  {
    KeepUpToAppend(admitted, [now], t);
    assert KeepUpTo([now], t) == [];
    assert KeepUpTo(admitted + [now], t) == KeepUpTo(admitted, t);
  }

  /** A window ending at or after the latest admission `now` holds no more
      admissions than the window ending at `now`. */
  lemma AppendInsideWindow(admitted: seq<int>, now: int, t: int, timeWindow: int)
    requires now <= t
    requires forall i :: 0 <= i < |admitted| ==> admitted[i] <= now
    ensures WindowCount(admitted + [now], t, timeWindow)
            <= |KeepAfter(admitted, now - timeWindow)| + 1
  {
    var H' := admitted + [now];
    var cut := now - timeWindow;
    assert forall i :: 0 <= i < |H'| ==> H'[i] <= t by {
      forall i | 0 <= i < |H'| ensures H'[i] <= t {
        if i < |admitted| { assert H'[i] == admitted[i]; }
      }
    }
    KeepUpToAll(H', t);
    KeepAfterTwice(H', cut, t - timeWindow);
    KeepAfterAppend(admitted, [now], cut);
    assert |KeepAfter([now], cut)| <= 1;
  }

  /** Admitting at `now` only when fewer than `maxRequests` admissions
      remain after the cutoff keeps every trailing window within the cap. */
  lemma StepBound(admitted: seq<int>, now: int, timeWindow: int, maxRequests: int, extra: seq<int>)
    requires forall t :: WindowCount(admitted, t, timeWindow) <= Cap(maxRequests)
    requires forall i :: 0 <= i < |admitted| ==> admitted[i] <= now
    requires extra == [] ||
             (extra == [now] && |KeepAfter(admitted, now - timeWindow)| < maxRequests)
    ensures forall t :: WindowCount(admitted + extra, t, timeWindow) <= Cap(maxRequests)
  {
    forall t ensures WindowCount(admitted + extra, t, timeWindow) <= Cap(maxRequests) {
      if extra == [] {
        assert admitted + extra == admitted;
      } else if t < now {
        AppendAfterWindow(admitted, now, t, timeWindow);
      } else {
        AppendInsideWindow(admitted, now, t, timeWindow);
      }
    }
  }

  /** What holds of a replay whose last call was at `last`. */
  ghost predicate ReplayOk(window: seq<int>, admitted: seq<int>, last: int, timeWindow: int,
                           maxRequests: int) {
    Tracks(window, admitted, last - timeWindow) &&
    (forall i :: 0 <= i < |admitted| ==> admitted[i] <= last) &&
    (forall t :: WindowCount(admitted, t, timeWindow) <= Cap(maxRequests))
  }

  /** One more call at `now`, no earlier than the previous one, keeps the
      replay invariant. */
  lemma ReplayStep(window: seq<int>, admitted: seq<int>, prevTime: int, now: int, active: int,
                   maxRequests: int, timeWindow: int, maxActiveTasks: int)
    requires ReplayOk(window, admitted, prevTime, timeWindow, maxRequests) && prevTime <= now
    ensures var step := WindowStep(window, now, active, maxRequests, timeWindow, maxActiveTasks);
      ReplayOk(step.1, if step.0.None? then admitted + [now] else admitted, now, timeWindow,
               maxRequests)
  {
    var step := WindowStep(window, now, active, maxRequests, timeWindow, maxActiveTasks);
    var cut := now - timeWindow;
    var extra := if step.0.None? then [now] else [];
    assert step.1 == KeepAfter(window, cut) + extra;
    StepTracks(window, admitted, prevTime - timeWindow, cut, extra);
    assert KeepAfter(window, cut) == KeepAfter(admitted, cut);
    StepBound(admitted, now, timeWindow, maxRequests, extra);
    var H' := admitted + extra;
    assert H' == if step.0.None? then admitted + [now] else admitted;
    forall i | 0 <= i < |H'| ensures H'[i] <= now {
      if i < |admitted| { assert H'[i] == admitted[i]; }
    }
  }

  lemma {:induction false} ReplayInvariant(calls: seq<Call>, maxRequests: int, timeWindow: int,
                                           maxActiveTasks: int)
    requires NonDecreasing(calls) && calls != []
    ensures var res := Replay(calls, maxRequests, timeWindow, maxActiveTasks);
      ReplayOk(res.0, res.1, calls[|calls| - 1].time, timeWindow, maxRequests)
    decreases |calls|
  {
    var n := |calls|;
    var p := calls[..n - 1];
    var c := calls[n - 1];
    if p == [] {
      var empty: seq<int> := [];
      assert forall t :: WindowCount(empty, t, timeWindow) == 0;
      assert ReplayOk(empty, empty, c.time, timeWindow, maxRequests);
      ReplayStep(empty, empty, c.time, c.time, c.active, maxRequests, timeWindow, maxActiveTasks);
    } else {
      assert NonDecreasing(p);
      ReplayInvariant(p, maxRequests, timeWindow, maxActiveTasks);
      var prev := Replay(p, maxRequests, timeWindow, maxActiveTasks);
      assert p[|p| - 1].time <= c.time;
      ReplayStep(prev.0, prev.1, p[|p| - 1].time, c.time, c.active, maxRequests, timeWindow,
                 maxActiveTasks);
    }
  }

  /** The sliding-window guarantee: for a user whose calls come with
      non-decreasing clock readings, every interval `(t - time_window, t]`
      contains at most `max_requests` admitted calls, whatever the
      active-task counts were along the way. */
  lemma SlidingWindowBound(calls: seq<Call>, maxRequests: int, timeWindow: int,
                           maxActiveTasks: int, t: int)
    requires NonDecreasing(calls)
    ensures WindowCount(Replay(calls, maxRequests, timeWindow, maxActiveTasks).1, t, timeWindow)
            <= Cap(maxRequests)
  {
    if calls != [] {
      ReplayInvariant(calls, maxRequests, timeWindow, maxActiveTasks);
    }
  }

  // ----- Admission and increment are separate steps -----

  /** Six requests of one user at the same instant, each admitted request
      followed by its increment, as the handlers do when nothing else runs
      in between: the active-task cap stops the sixth. */
  method SequentialAdmissions() returns (admitted: nat, active: int)
    ensures admitted == 5 && active == 5
  {
    var limiter := new RateLimiter(10, 60);
    admitted := 0;
    var i := 0;
    while i < 6
      invariant 0 <= i <= 6
      invariant admitted == if i < 5 then i else 5
      invariant limiter.Valid() && limiter.maxRequests == 10 && limiter.timeWindow == 60
      invariant limiter.maxActiveTasks == 5
      invariant limiter.Active(1) == admitted
      invariant |limiter.Requests(1)| == admitted
      invariant forall k :: 0 <= k < |limiter.Requests(1)| ==> limiter.Requests(1)[k] == 0
    {
      KeepAfterAll(limiter.Requests(1), -60);
      var ok, _ := limiter.IsAllowed(1, 0);
      if ok {
        limiter.IncrementActiveTasks(1);
        admitted := admitted + 1;
      }
      i := i + 1;
    }
    active := limiter.Active(1);
  }

  /** The same six requests when all six pass `is_allowed` before any
      increment runs (each handler awaits a reply between the two calls):
      all six are admitted and the counter ends above the cap of 5. */
  method InterleavedAdmissions() returns (admitted: nat, active: int)
    ensures admitted == 6 && active == 6
  {
    var limiter := new RateLimiter(10, 60);
    admitted := 0;
    var i := 0;
    while i < 6
      invariant 0 <= i <= 6 && admitted == i
      invariant limiter.Valid() && limiter.maxRequests == 10 && limiter.timeWindow == 60
      invariant limiter.maxActiveTasks == 5 && limiter.Active(1) == 0
      invariant |limiter.Requests(1)| == i
      invariant forall k :: 0 <= k < |limiter.Requests(1)| ==> limiter.Requests(1)[k] == 0
    {
      KeepAfterAll(limiter.Requests(1), -60);
      var ok, _ := limiter.IsAllowed(1, 0);
      if ok {
        admitted := admitted + 1;
      }
      i := i + 1;
    }
    i := 0;
    while i < 6
      invariant 0 <= i <= 6
      invariant limiter.Valid() && limiter.Active(1) == i
    {
      limiter.IncrementActiveTasks(1);
      i := i + 1;
    }
    active := limiter.Active(1);
  }
}
