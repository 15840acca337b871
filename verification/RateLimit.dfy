/** The fixed-window limiter of internal/policy/ratelimit.go. Times are integers
    (nanoseconds). A bucket starts its window at the call that creates or
    rotates it, not on a fixed grid. */
module RateLimit {
  import opened Options

  datatype Bucket = Bucket(windowStart: int, count: nat)

  // ---- one call on one bucket ---------------------------------------------

  function Rotated(b: Option<Bucket>, window: int, now: int): Bucket
  {
    var c := if b.Some? then b.value else Bucket(now, 0);
    if now - c.windowStart >= window then Bucket(now, 0) else c
  }

  predicate Admits(b: Option<Bucket>, max: int, window: int, now: int)
  {
    Rotated(b, window, now).count < max
  }

  function Charged(b: Option<Bucket>, max: int, window: int, now: int): Bucket
  {
    var c := Rotated(b, window, now);
    if c.count < max then c.(count := c.count + 1) else c
  }

  class FixedWindowLimiter {
    var buckets: map<string, Bucket>

    constructor ()
      ensures buckets == map[]
    {
      buckets := map[];
    }

    /** Allow consumes a token of this key, if there is one, and touches no
        other bucket. */
    method Allow(key: string, max: int, window: int, now: int) returns (ok: bool)
      modifies this
      ensures ok == Admits(Lookup(old(buckets), key), max, window, now)
      ensures buckets == old(buckets)[key := Charged(Lookup(old(buckets), key), max, window, now)]
    {
      if key !in buckets {
        buckets := buckets[key := Bucket(now, 0)];
      }
      var b := buckets[key];
      if now - b.windowStart >= window {
        b := Bucket(now, 0);
      }
      if b.count >= max {
        buckets := buckets[key := b];
        return false;
      }
      buckets := buckets[key := b.(count := b.count + 1)];
      return true;
    }
  }

  function Lookup(buckets: map<string, Bucket>, key: string): Option<Bucket>
  {
    if key in buckets then Some(buckets[key]) else None
  }

  // ---- the history of one key ---------------------------------------------

  /** The bucket after calls at these times, from no bucket at all. */
  function After(max: int, window: int, times: seq<int>): Option<Bucket>
  {
    if times == [] then None
    else Some(Charged(After(max, window, times[..|times| - 1]), max, window, times[|times| - 1]))
  }

  /** The times of the calls that were admitted. */
  function Admitted(max: int, window: int, times: seq<int>): seq<int>
  {
    if times == [] then []
    else
      var front, now := times[..|times| - 1], times[|times| - 1];
      Admitted(max, window, front) + (if Admits(After(max, window, front), max, window, now) then [now] else [])
  }

  predicate Nondecreasing(s: seq<int>)
  {
    forall i, j :: 0 <= i < j < |s| ==> s[i] <= s[j]
  }

  /** How many of the times lie in the half-open interval [from, to). */
  function CountIn(s: seq<int>, from: int, to: int): nat
  {
    if s == [] then 0
    else CountIn(s[..|s| - 1], from, to) + (if from <= s[|s| - 1] < to then 1 else 0)
  }

  // ---- the windows behind the admissions ----------------------------------

  /** An admission, the start of its window, and how many came before it there. */
  datatype Hit = Hit(at: int, start: int, ordinal: nat)

  predicate InWindow(max: int, window: int, h: Hit)
  {
    h.start <= h.at < h.start + window && h.ordinal < max && (h.ordinal == 0 ==> h.at == h.start)
  }

  /** The next admission in the same window, or the first of a later one. */
  predicate Follows(window: int, h: Hit, k: Hit)
  {
    && h.at <= k.at
    && ((k.start == h.start && k.ordinal == h.ordinal + 1) || (k.ordinal == 0 && k.start >= h.start + window))
  }

  predicate Windows(max: int, window: int, hs: seq<Hit>)
  {
    && (forall i :: 0 <= i < |hs| ==> InWindow(max, window, hs[i]))
    && (forall i :: 0 < i < |hs| ==> Follows(window, hs[i - 1], hs[i]))
  }

  function Times(hs: seq<Hit>): seq<int>
  {
    seq(|hs|, i requires 0 <= i < |hs| => hs[i].at)
  }

  /** The bucket that a list of windows ends with. */
  function Current(hs: seq<Hit>): Option<Bucket>
  {
    if hs == [] then None else Some(Bucket(hs[|hs| - 1].start, hs[|hs| - 1].ordinal + 1))
  }

  /** The windows after one more call. */
  function Extended(max: int, window: int, hs: seq<Hit>, now: int): seq<Hit>
  {
    var c := Rotated(Current(hs), window, now);
    if c.count < max then hs + [Hit(now, c.windowStart, c.count)] else hs
  }

  lemma ExtendedWindows(max: int, window: int, hs: seq<Hit>, now: int)
    requires max > 0 && window > 0 && Windows(max, window, hs)
    requires hs != [] ==> hs[|hs| - 1].at <= now
    ensures Windows(max, window, Extended(max, window, hs, now))
    ensures Current(Extended(max, window, hs, now)) == Some(Charged(Current(hs), max, window, now))
    ensures Extended(max, window, hs, now) != []
    ensures Times(Extended(max, window, hs, now)) ==
      Times(hs) + (if Admits(Current(hs), max, window, now) then [now] else [])
  {
  }

  /** The windows behind a history of calls. */
  function History(max: int, window: int, times: seq<int>): seq<Hit>
  {
    if times == [] then []
    else Extended(max, window, History(max, window, times[..|times| - 1]), times[|times| - 1])
  }

  /** Every history of nondecreasing calls is a list of windows, at least one
      window length apart, with at most max admissions each, the first of them
      opened by the first call. */
  lemma {:induction false} HistoryIsWindows(max: int, window: int, times: seq<int>)
    requires max > 0 && window > 0 && Nondecreasing(times)
    ensures var hs := History(max, window, times);
      && Windows(max, window, hs)
      && Times(hs) == Admitted(max, window, times)
      && Current(hs) == After(max, window, times)
      && (times == [] <==> hs == [])
      && (hs != [] ==> hs[0].start == times[0] && hs[|hs| - 1].at <= times[|times| - 1])
    decreases |times|
  {
    if times != [] {
      var front, now := times[..|times| - 1], times[|times| - 1];
      HistoryIsWindows(max, window, front);
      ExtendedWindows(max, window, History(max, window, front), now);
    }
  }

  // ---- spacing of admissions ----------------------------------------------

  lemma {:induction false} LaterHit(max: int, window: int, hs: seq<Hit>, i: nat, j: nat)
    requires Windows(max, window, hs) && i <= j < |hs|
    ensures hs[i].at <= hs[j].at
    decreases j
  {
    if i < j {
      LaterHit(max, window, hs, i, j - 1);
      assert Follows(window, hs[j - 1], hs[j]);
    }
  }

  /** From any admission, a later window opens within as many further admissions
      as its own window had room for. */
  lemma {:induction false} NextWindow(max: int, window: int, hs: seq<Hit>, i: nat) returns (k: nat)
    requires Windows(max, window, hs) && i < |hs| && i + (max - hs[i].ordinal) < |hs|
    ensures i < k <= i + (max - hs[i].ordinal)
    ensures hs[k].ordinal == 0 && hs[k].start >= hs[i].start + window
    decreases max - hs[i].ordinal
  {
    assert InWindow(max, window, hs[i]);
    assert i + 1 < |hs| && Follows(window, hs[i], hs[i + 1]);
    if hs[i + 1].start == hs[i].start && hs[i + 1].ordinal == hs[i].ordinal + 1 {
      assert InWindow(max, window, hs[i + 1]);
      k := NextWindow(max, window, hs, i + 1);
    } else {
      k := i + 1;
    }
  }

  /** Admissions that are 2 * max - 1 apart in the list are a whole window apart
      in time. */
  lemma AdmissionsSpaced(max: int, window: int, hs: seq<Hit>, i: nat, j: nat)
    requires max > 0 && window > 0 && Windows(max, window, hs) && i < |hs| && j < |hs|
    requires j >= i + 2 * max - 1
    ensures hs[j].at >= hs[i].at + window
  {
    assert InWindow(max, window, hs[i]);
    var k := NextWindow(max, window, hs, i);
    assert InWindow(max, window, hs[k]);
    if hs[i].ordinal == 0 {
      LaterHit(max, window, hs, k, j);
    } else {
      LaterHit(max, window, hs, i, k);
      var m := NextWindow(max, window, hs, k);
      assert InWindow(max, window, hs[m]);
      LaterHit(max, window, hs, m, j);
    }
  }

  // ---- counting -----------------------------------------------------------

  /** In a nondecreasing list the entries of an interval are consecutive: if
      there are n of them, some n neighbours are all inside. */
  lemma {:induction false} Consecutive(s: seq<int>, from: int, to: int) returns (i: nat)
    requires Nondecreasing(s) && CountIn(s, from, to) > 0
    ensures i + CountIn(s, from, to) <= |s|
    ensures forall k :: i <= k < i + CountIn(s, from, to) ==> from <= s[k] < to
    ensures i + CountIn(s, from, to) == |s| || s[i + CountIn(s, from, to)] >= to
    decreases |s|
  {
    var front := s[..|s| - 1];
    if CountIn(front, from, to) == 0 {
      i := |s| - 1;
    } else {
      i := Consecutive(front, from, to);
      assert forall k :: 0 <= k < |front| ==> front[k] == s[k];
    }
  }

  lemma TimesNondecreasing(max: int, window: int, hs: seq<Hit>)
    requires Windows(max, window, hs)
    ensures Nondecreasing(Times(hs))
  {
    forall i, j | 0 <= i < j < |hs| ensures Times(hs)[i] <= Times(hs)[j] {
      LaterHit(max, window, hs, i, j);
    }
  }

  /** No half-open interval of one window length sees more than 2 * max - 1
      admissions of a key, wherever it lies. */
  lemma IntervalBound(max: int, window: int, times: seq<int>, from: int)
    requires max > 0 && window > 0 && Nondecreasing(times)
    ensures CountIn(Admitted(max, window, times), from, from + window) <= 2 * max - 1
  {
    var hs := History(max, window, times);
    HistoryIsWindows(max, window, times);
    TimesNondecreasing(max, window, hs);
    var n := CountIn(Times(hs), from, from + window);
    if n > 2 * max - 1 {
      var i := Consecutive(Times(hs), from, from + window);
      var j := i + 2 * max - 1;
      assert Times(hs)[i] == hs[i].at && Times(hs)[j] == hs[j].at;
      AdmissionsSpaced(max, window, hs, i, j);
    }
  }

  // ---- the bound is attained ----------------------------------------------

  function Repeat<T>(n: nat, t: T): (r: seq<T>)
    ensures |r| == n && forall i :: 0 <= i < n ==> r[i] == t
  {
    if n == 0 then [] else Repeat(n - 1, t) + [t]
  }

  lemma RepeatMore(s: seq<int>, n: nat, t: int)
    requires n > 0
    ensures s + Repeat(n, t) == s + Repeat(n - 1, t) + [t]
  {
  }

  lemma NoRepeat(s: seq<int>, t: int)
    ensures s + Repeat(0, t) == s
  {
  }

  lemma OpenWindow(b: Bucket, max: int, window: int, t: int)
    requires t - b.windowStart < window && b.count < max
    ensures Admits(Some(b), max, window, t)
    ensures Charged(Some(b), max, window, t) == b.(count := b.count + 1)
  {
  }

  /** One more call in an open window with room for it. */
  lemma AdmittedOpen(max: int, window: int, u: seq<int>, b: Bucket, t: int)
    requires After(max, window, u) == Some(b) && b.count < max && t - b.windowStart < window
    ensures After(max, window, u + [t]) == Some(Bucket(b.windowStart, b.count + 1))
    ensures Admitted(max, window, u + [t]) == Admitted(max, window, u) + [t]
  {
    OneMoreCall(max, window, u, t);
    OpenWindow(b, max, window, t);
  }

  /** Calls at one instant from index k on, in an open window with room for them. */
  lemma {:induction false} FilledAfter(max: int, window: int, all: seq<int>, k: nat, b: Bucket, t: int)
    requires k <= |all| && After(max, window, all[..k]) == Some(b)
    requires forall i :: k <= i < |all| ==> all[i] == t
    requires |all| - k + b.count <= max && t - b.windowStart < window
    ensures After(max, window, all) == Some(Bucket(b.windowStart, |all| - k + b.count))
    decreases |all|
  {
    if |all| == k {
      assert all[..k] == all;
    } else {
      var front := all[..|all| - 1];
      assert front[..k] == all[..k];
      FilledAfter(max, window, front, k, b, t);
      OpenWindow(Bucket(b.windowStart, |front| - k + b.count), max, window, t);
    }
  }

  lemma {:induction false} RepeatedAfter(max: int, window: int, times: seq<int>, b: Bucket, n: nat, t: int)
    requires After(max, window, times) == Some(b) && n + b.count <= max && t - b.windowStart < window
    ensures After(max, window, times + Repeat(n, t)) == Some(Bucket(b.windowStart, n + b.count))
  {
    var all := times + Repeat(n, t);
    assert all[..|times|] == times;
    FilledAfter(max, window, all, |times|, b, t);
  }

  /** Calls in an open window with room for them are all admitted. */
  lemma {:induction false} RepeatedCalls(max: int, window: int, times: seq<int>, b: Bucket, n: nat, t: int)
    requires After(max, window, times) == Some(b) && n + b.count <= max && t - b.windowStart < window
    ensures After(max, window, times + Repeat(n, t)) == Some(Bucket(b.windowStart, n + b.count))
    ensures Admitted(max, window, times + Repeat(n, t)) == Admitted(max, window, times) + Repeat(n, t)
    decreases n
  {
    RepeatedAfter(max, window, times, b, n, t);
    if n == 0 {
      NoRepeat(times, t);
      NoRepeat(Admitted(max, window, times), t);
    } else {
      var u, c := times + Repeat(n - 1, t), Bucket(b.windowStart, n - 1 + b.count);
      RepeatedCalls(max, window, times, b, n - 1, t);
      AdmittedOpen(max, window, u, c, t);
      RepeatMore(times, n, t);
      RepeatMore(Admitted(max, window, times), n, t);
    }
  }

  lemma {:induction false} CountRepeated(s: seq<int>, n: nat, t: int, from: int, to: int)
    requires from <= t < to
    ensures CountIn(s + Repeat(n, t), from, to) == CountIn(s, from, to) + n
    decreases n
  {
    var all := s + Repeat(n, t);
    if n == 0 {
      assert all == s;
    } else {
      assert all[..|all| - 1] == s + Repeat(n - 1, t);
      CountRepeated(s, n - 1, t, from, to);
    }
  }

  lemma OneMoreCall(max: int, window: int, times: seq<int>, now: int)
    ensures After(max, window, times + [now]) == Some(Charged(After(max, window, times), max, window, now))
    ensures Admitted(max, window, times + [now]) ==
      Admitted(max, window, times) + (if Admits(After(max, window, times), max, window, now) then [now] else [])
  {
  }

  lemma CountOneMore(s: seq<int>, t: int, from: int, to: int)
    ensures CountIn(s + [t], from, to) == CountIn(s, from, to) + (if from <= t < to then 1 else 0)
  {
  }

  /** One call at 0, then enough calls in the last tick of its window to use
      all of its room. */
  function FirstWindow(max: int, window: int): seq<int>
    requires max > 0
  {
    [0] + Repeat(max - 1, window - 1)
  }

  lemma FirstCall(max: int, window: int)
    requires max > 0 && window > 1
    ensures After(max, window, [0]) == Some(Bucket(0, 1))
    ensures Admitted(max, window, [0]) == [0]
    ensures CountIn([0], window - 1, 2 * window - 1) == 0
  {
  }

  /** Every one of n more calls in an open window counts. */
  lemma RoomCounts(max: int, window: int, times: seq<int>, b: Bucket, n: nat, t: int, from: int, to: int)
    requires After(max, window, times) == Some(b) && n + b.count <= max && t - b.windowStart < window
    requires from <= t < to
    ensures CountIn(Admitted(max, window, times + Repeat(n, t)), from, to) ==
      CountIn(Admitted(max, window, times), from, to) + n
  {
    RepeatedCalls(max, window, times, b, n, t);
    CountRepeated(Admitted(max, window, times), n, t, from, to);
  }

  lemma FirstWindowAfter(max: int, window: int)
    requires max > 0 && window > 1
    ensures After(max, window, FirstWindow(max, window)) == Some(Bucket(0, max))
  {
    FirstCall(max, window);
    RepeatedAfter(max, window, [0], Bucket(0, 1), max - 1, window - 1);
  }

  lemma FirstWindowFull(max: int, window: int)
    requires max > 0 && window > 1
    ensures CountIn(Admitted(max, window, FirstWindow(max, window)), window - 1, 2 * window - 1) == max - 1
  {
    FirstCall(max, window);
    RoomCounts(max, window, [0], Bucket(0, 1), max - 1, window - 1, window - 1, 2 * window - 1);
  }

  lemma SecondWindowOpens(max: int, window: int, times: seq<int>)
    requires max > 0 && window > 1 && After(max, window, times) == Some(Bucket(0, max))
    ensures After(max, window, times + [window]) == Some(Bucket(window, 1))
    ensures Admitted(max, window, times + [window]) == Admitted(max, window, times) + [window]
  {
  }

  lemma SecondWindowFull(max: int, window: int, times: seq<int>, from: int, to: int)
    requires max > 0 && window > 1 && After(max, window, times) == Some(Bucket(0, max))
    requires from <= window < to
    ensures CountIn(Admitted(max, window, times + [window] + Repeat(max - 1, window)), from, to)
         == CountIn(Admitted(max, window, times), from, to) + max
  {
    SecondWindowOpens(max, window, times);
    CountOneMore(Admitted(max, window, times), window, from, to);
    RoomCounts(max, window, times + [window], Bucket(window, 1), max - 1, window, from, to);
  }

  function BothWindows(max: int, window: int): seq<int>
    requires max > 0
  {
    FirstWindow(max, window) + [window] + Repeat(max - 1, window)
  }

  lemma BothWindowsInOrder(max: int, window: int)
    requires max > 0 && window > 1
    ensures Nondecreasing(BothWindows(max, window))
  {
  }

  /** For every limit, and every window of more than one tick, some run fills an
      interval with exactly 2 * max - 1 admissions: one call opens a window, the
      rest of its room is used in its last tick, and the next window's room in
      the tick after. */
  lemma IntervalBoundAttained(max: int, window: int) returns (times: seq<int>, from: int)
    requires max > 0 && window > 1
    ensures Nondecreasing(times)
    ensures CountIn(Admitted(max, window, times), from, from + window) == 2 * max - 1
  {
    from := window - 1;
    times := BothWindows(max, window);
    BothWindowsInOrder(max, window);
    FirstWindowAfter(max, window);
    FirstWindowFull(max, window);
    SecondWindowFull(max, window, FirstWindow(max, window), from, from + window);
  }

  // ---- when max is the bound ----------------------------------------------

  /** Admissions at one instant, with windows of one tick, share a window. */
  lemma {:induction false} SameTick(max: int, hs: seq<Hit>, i: nat, j: nat, t: int)
    requires Windows(max, 1, hs) && i <= j < |hs| && forall k :: i <= k <= j ==> hs[k].at == t
    ensures hs[j].ordinal == hs[i].ordinal + (j - i) && hs[j].ordinal < max
    decreases j
  {
    assert InWindow(max, 1, hs[j]);
    if i < j {
      SameTick(max, hs, i, j - 1, t);
      assert InWindow(max, 1, hs[j - 1]) && Follows(1, hs[j - 1], hs[j]);
    }
  }

  lemma OneTickBound(max: int, times: seq<int>, from: int)
    requires max > 0 && Nondecreasing(times)
    ensures CountIn(Admitted(max, 1, times), from, from + 1) <= max
  {
    var hs := History(max, 1, times);
    HistoryIsWindows(max, 1, times);
    TimesNondecreasing(max, 1, hs);
    var n := CountIn(Times(hs), from, from + 1);
    if n > 0 {
      var i := Consecutive(Times(hs), from, from + 1);
      assert forall k :: i <= k < i + n ==> hs[k].at == Times(hs)[k] == from;
      SameTick(max, hs, i, i + n - 1, from);
    }
  }

  predicate AtMostMax(max: int, window: int, times: seq<int>, from: int)
  {
    Nondecreasing(times) ==> CountIn(Admitted(max, window, times), from, from + window) <= max
  }

  /** Every interval of one window length, in every history, sees at most max
      admissions if and only if max is 1 or the window is one tick. */
  lemma MaxBoundsExactly(max: int, window: int)
    requires max > 0 && window > 0
    ensures (forall times, from :: AtMostMax(max, window, times, from)) <==> max == 1 || window == 1
  {
    if max == 1 || window == 1 {
      forall times, from ensures AtMostMax(max, window, times, from) {
        if Nondecreasing(times) {
          if window == 1 {
            OneTickBound(max, times, from);
          } else {
            IntervalBound(max, window, times, from);
          }
        }
      }
    } else {
      var times, from := IntervalBoundAttained(max, window);
      assert !AtMostMax(max, window, times, from);
    }
  }

  // ---- readings out of order ----------------------------------------------

  /** This many admissions at most in this interval, whatever the order of the
      readings. */
  predicate AtMost(max: int, window: int, times: seq<int>, from: int, bound: int)
  {
    CountIn(Admitted(max, window, times), from, from + window) <= bound
  }

  /** With a limit of one the bucket, once used, is full until its window is over,
      and a late reading is never past a window's end: every admission opens a
      window after the last one. */
  lemma {:induction false} OneAtATime(window: int, times: seq<int>)
    requires window > 0
    ensures var a := Admitted(1, window, times);
      && (a == [] <==> times == [])
      && (times != [] ==> After(1, window, times) == Some(Bucket(a[|a| - 1], 1)))
      && forall i, j :: 0 <= i < j < |a| ==> a[i] + window <= a[j]
    decreases |times|
  {
    if times != [] {
      var front := times[..|times| - 1];
      OneAtATime(window, front);
      assert front == [] ==> Admits(After(1, window, front), 1, window, times[0]);
    }
  }

  lemma {:induction false} SpacedCount(a: seq<int>, window: int, from: int)
    requires window > 0 && forall i, j :: 0 <= i < j < |a| ==> a[i] + window <= a[j]
    ensures CountIn(a, from, from + window) <= 1
    ensures CountIn(a, from, from + window) == 1 ==> a != [] && a[|a| - 1] >= from
    decreases |a|
  {
    if a != [] {
      SpacedCount(a[..|a| - 1], window, from);
    }
  }

  lemma OneAdmission(window: int, times: seq<int>, from: int)
    requires window > 0
    ensures AtMost(1, window, times, from, 1)
  {
    OneAtATime(window, times);
    SpacedCount(Admitted(1, window, times), window, from);
  }

  /** The start of the n-th window after time 0. */
  function WindowStart(window: int, n: nat): (start: int)
    ensures window > 0 ==> start >= 0 && (n > 0 ==> start >= window)
  {
    if n == 0 then 0 else WindowStart(window, n - 1) + window
  }

  /** n times over: a call opens a new window, and one with the late reading 0
      comes after it. */
  function LateCalls(window: int, n: nat): seq<int>
  {
    if n == 0 then [] else LateCalls(window, n - 1) + [WindowStart(window, n)] + [0]
  }

  lemma LateCall(max: int, window: int, times: seq<int>, start: int, count: nat, next: int)
    requires max > 1 && window > 0 && next >= start + window && next > 0
    requires times != [] ==> After(max, window, times) == Some(Bucket(start, count))
    ensures After(max, window, times + [next] + [0]) == Some(Bucket(next, 2))
    ensures Admitted(max, window, times + [next] + [0]) == Admitted(max, window, times) + [next] + [0]
  {
    OneMoreCall(max, window, times, next);
    OneMoreCall(max, window, times + [next], 0);
  }

  lemma {:induction false} LateCallsAdmitted(max: int, window: int, n: nat)
    requires max > 1 && window > 0
    ensures n > 0 ==> After(max, window, LateCalls(window, n)) == Some(Bucket(WindowStart(window, n), 2))
    ensures CountIn(Admitted(max, window, LateCalls(window, n)), 0, window) == n
    decreases n
  {
    if n > 0 {
      var times, next := LateCalls(window, n - 1), WindowStart(window, n);
      LateCallsAdmitted(max, window, n - 1);
      LateCall(max, window, times, WindowStart(window, n - 1), 2, next);
      CountOneMore(Admitted(max, window, times), next, 0, window);
      CountOneMore(Admitted(max, window, times) + [next], 0, 0, window);
    }
  }

  /** The engine reads the clock before the bucket's lock is taken. If calls get the
      lock out of the order of their readings the bound does not hold, for any
      limit above one. */
  lemma LateReadingsExceed(max: int, window: int) returns (times: seq<int>)
    requires max > 1 && window > 0
    ensures !AtMost(max, window, times, 0, 2 * max - 1)
  {
    times := LateCalls(window, 2 * max);
    LateCallsAdmitted(max, window, 2 * max);
  }

  ghost predicate BoundsAnyOrder(max: int, window: int, bound: int)
  {
    forall times, from :: AtMost(max, window, times, from, bound)
  }

  /** Which numbers bound the admissions of every interval of one window length
      when readings may come in any order: for a limit of one, every number from
      one on; for any other limit, none. */
  lemma AnyOrderBounds(max: int, window: int, bound: int)
    requires max > 0 && window > 0
    ensures BoundsAnyOrder(max, window, bound) <==> max == 1 && bound >= 1
  {
    if max == 1 && bound >= 1 {
      forall times, from ensures AtMost(max, window, times, from, bound) {
        OneAdmission(window, times, from);
      }
    } else if bound < 1 {
      OneMoreCall(max, window, [], 0);
      CountOneMore([], 0, 0, 0 + window);
      assert !AtMost(max, window, [] + [0], 0, bound);
    } else {
      LateCallsAdmitted(max, window, bound + 1);
      assert !AtMost(max, window, LateCalls(window, bound + 1), 0, bound);
    }
  }

  /** So the bound for calls in order holds in any order if and only if the limit
      is one. */
  lemma OrderMatters(max: int, window: int)
    requires max > 0 && window > 0
    ensures BoundsAnyOrder(max, window, 2 * max - 1) <==> max == 1
  {
    AnyOrderBounds(max, window, 2 * max - 1);
  }

  // ---- the whole run ------------------------------------------------------

  lemma TimesStep(a: int, n: int)
    ensures a * (n + 1) == a * n + a
  {
  }

  lemma {:induction false} TimesMonotone(a: int, m: int, n: int)
    requires a >= 0 && m <= n
    ensures a * m <= a * n
    decreases n - m
  {
  }

  lemma QuotientAtLeast(x: int, d: int, n: int)
    requires d > 0 && d * n <= x
    ensures n <= x / d
  {
    var q := x / d;
    assert x < d * q + d;
    TimesStep(d, q);
    if q + 1 <= n {
      TimesMonotone(d, q + 1, n);
    }
  }

  /** How many windows a list of admissions goes through. */
  function WindowCount(hs: seq<Hit>): nat
  {
    if hs == [] then 0
    else WindowCount(hs[..|hs| - 1]) + (if hs[|hs| - 1].ordinal == 0 then 1 else 0)
  }

  /** Each window holds at most max admissions and takes a window length. */
  lemma {:induction false} WindowsFill(max: int, window: int, hs: seq<Hit>)
    requires max > 0 && window > 0 && Windows(max, window, hs) && hs != [] && hs[0].ordinal == 0
    ensures WindowCount(hs) > 0
    ensures |hs| <= max * (WindowCount(hs) - 1) + hs[|hs| - 1].ordinal + 1
    ensures hs[0].start + window * (WindowCount(hs) - 1) <= hs[|hs| - 1].start
    decreases |hs|
  {
    var n := |hs| - 1;
    if n > 0 {
      var front := hs[..n];
      var g := WindowCount(front);
      assert forall i :: 0 < i < n ==> Follows(window, front[i - 1], front[i]);
      WindowsFill(max, window, front);
      assert Follows(window, hs[n - 1], hs[n]) && InWindow(max, window, hs[n - 1]);
      TimesStep(max, g - 1);
      TimesStep(window, g - 1);
    } else {
      assert hs[..0] == [];
    }
  }

  /** A run from first to last call admits at most max calls for each window
      length begun between them. */
  lemma TotalBound(max: int, window: int, times: seq<int>)
    requires max > 0 && window > 0 && Nondecreasing(times) && times != []
    ensures |Admitted(max, window, times)| <= max * ((times[|times| - 1] - times[0]) / window + 1)
  {
    var hs := History(max, window, times);
    HistoryIsWindows(max, window, times);
    assert |hs| == |Times(hs)|;
    FirstOpens(max, window, times);
    WindowsFill(max, window, hs);
    var g, last := WindowCount(hs), hs[|hs| - 1];
    assert InWindow(max, window, last);
    QuotientAtLeast(times[|times| - 1] - times[0], window, g - 1);
    TimesStep(max, g - 1);
    TimesMonotone(max, g, (times[|times| - 1] - times[0]) / window + 1);
  }

  lemma {:induction false} FirstOpens(max: int, window: int, times: seq<int>)
    requires max > 0 && window > 0 && times != []
    ensures History(max, window, times) != [] && History(max, window, times)[0].ordinal == 0
    decreases |times|
  {
    var front := times[..|times| - 1];
    if front != [] {
      FirstOpens(max, window, front);
    } else {
      assert History(max, window, front) == [];
    }
  }
}
