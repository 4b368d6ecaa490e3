/**
 Fixed-window counters: one per scope and identifier, started by the first request of a window and
 gone when the window's lifetime ends. INCR and EXPIRE are one step here.
 */
module RateLimit {
  import opened Wrappers

  datatype Window = Window(count: nat, expiresAt: int)

  datatype Limits = Limits(attempts: nat, length: nat)

  /** INCR, with EXPIRE when the counter was absent. */
  function Hit(w: Option<Window>, now: int, length: nat): Window {
    if w.Some? && w.value.expiresAt > now then w.value.(count := w.value.count + 1) else Window(1, now + length)
  }

  function Get(counters: map<string, Window>, key: string): Option<Window> {
    if key in counters then Some(counters[key]) else None
  }

  /** Keys are hit in order, up to and including the first that is over its limit. */
  function Enforced(counters: map<string, Window>, keys: seq<string>, now: int, limits: Limits)
    : (map<string, Window>, bool)
    decreases keys
  {
    if keys == [] then (counters, false)
    else
      var w := Hit(Get(counters, keys[0]), now, limits.length);
      var counters' := counters[keys[0] := w];
      if w.count > limits.attempts then (counters', true) else Enforced(counters', keys[1..], now, limits)
  }

  class RateLimiter {
    var counters: map<string, Window>

    constructor ()
      ensures counters == map[]
    {
      counters := map[];
    }

    /** `keys` are the client address and the non-empty identifiers, each under the scope. */
    method EnforceRateLimit(keys: seq<string>, now: int, limits: Limits) returns (refused: bool)
      modifies this
      ensures (counters, refused) == Enforced(old(counters), keys, now, limits)
    {
      for i := 0 to |keys|
        invariant Enforced(old(counters), keys, now, limits) == Enforced(counters, keys[i..], now, limits)
      {
        assert keys[i..][1..] == keys[i + 1..];
        var w := Hit(Get(counters, keys[i]), now, limits.length);
        counters := counters[keys[i] := w];
        if w.count > limits.attempts {
          return true;
        }
      }
      return false;
    }
  }

  /** The counter after `n` hits at one instant. */
  function HitTimes(w: Option<Window>, now: int, length: nat, n: nat): Option<Window> {
    if n == 0 then w else Some(Hit(HitTimes(w, now, length, n - 1), now, length))
  }

  lemma {:induction false} HitFirst(w: Option<Window>, now: int, length: nat, n: nat)
    ensures HitTimes(Some(Hit(w, now, length)), now, length, n) == HitTimes(w, now, length, n + 1)
  {
    if n > 0 {
      HitFirst(w, now, length, n - 1);
    }
  }

  function Occurrences(keys: seq<string>, key: string): nat {
    if keys == [] then 0 else (if keys[0] == key then 1 else 0) + Occurrences(keys[1..], key)
  }

  /** The counter of the `i`th key, hit as often as it came up to there, is over the limit. */
  predicate OverAt(counters: map<string, Window>, keys: seq<string>, i: nat, now: int, limits: Limits)
    requires i < |keys|
  {
    var w := HitTimes(Get(counters, keys[i]), now, limits.length, Occurrences(keys[..i + 1], keys[i]));
    w.Some? && w.value.count > limits.attempts
  }

  lemma OverLater(counters: map<string, Window>, keys: seq<string>, i: nat, now: int, limits: Limits)
    requires 0 < i < |keys|
    ensures var w := Hit(Get(counters, keys[0]), now, limits.length);
            OverAt(counters, keys, i, now, limits) <==> OverAt(counters[keys[0] := w], keys[1..], i - 1, now, limits)
  {
    assert keys[..i + 1][1..] == keys[1..][..i];
    if keys[i] == keys[0] {
      HitFirst(Get(counters, keys[0]), now, limits.length, Occurrences(keys[1..][..i], keys[i]));
    }
  }

  lemma OverFirst(counters: map<string, Window>, keys: seq<string>, now: int, limits: Limits)
    requires keys != []
    ensures OverAt(counters, keys, 0, now, limits)
            <==> Hit(Get(counters, keys[0]), now, limits.length).count > limits.attempts
  {
    assert keys[..1] == [keys[0]] && [keys[0]][1..] == [];
    assert Occurrences([], keys[0]) == 0 && Occurrences([keys[0]], keys[0]) == 1;
    assert HitTimes(Get(counters, keys[0]), now, limits.length, 0) == Get(counters, keys[0]);
  }

  /**
   A request is let through exactly when none of its keys is over its limit, and then each was hit
   as often as it came, twice if two identifiers give the same key.
   */
  lemma {:induction false} AdmittedIffAllWithin(counters: map<string, Window>, keys: seq<string>, now: int,
                                                limits: Limits)
    ensures Enforced(counters, keys, now, limits).1
            <==> exists i :: 0 <= i < |keys| && OverAt(counters, keys, i, now, limits)
    ensures !Enforced(counters, keys, now, limits).1 ==>
              forall key :: Get(Enforced(counters, keys, now, limits).0, key)
                            == HitTimes(Get(counters, key), now, limits.length, Occurrences(keys, key))
    decreases keys
  {
    if keys != [] {
      var w := Hit(Get(counters, keys[0]), now, limits.length);
      var counters' := counters[keys[0] := w];
      OverFirst(counters, keys, now, limits);
      if w.count <= limits.attempts {
        AdmittedIffAllWithin(counters', keys[1..], now, limits);
        forall i | 0 < i < |keys|
          ensures OverAt(counters, keys, i, now, limits) <==> OverAt(counters', keys[1..], i - 1, now, limits)
        {
          OverLater(counters, keys, i, now, limits);
        }
        if Enforced(counters', keys[1..], now, limits).1 {
          var i :| 0 <= i < |keys[1..]| && OverAt(counters', keys[1..], i, now, limits);
          assert OverAt(counters, keys, i + 1, now, limits);
        }
        HitFirst(Get(counters, keys[0]), now, limits.length, Occurrences(keys[1..], keys[0]));
      }
    }
  }

  // --- One key over time ---

  function Repeat(t: int, n: nat): seq<int> {
    seq(n, _ => t)
  }

  ghost predicate Sorted(times: seq<int>) {
    forall i, j :: 0 <= i < j < |times| ==> times[i] <= times[j]
  }

  /** How many requests of a key are within its limit at instants of `[from, to)`. */
  function Admitted(w: Option<Window>, times: seq<int>, limits: Limits, from: int, to: int): nat
    decreases times
  {
    if times == [] then 0
    else
      var w' := Hit(w, times[0], limits.length);
      (if w'.count <= limits.attempts && from <= times[0] < to then 1 else 0)
      + Admitted(Some(w'), times[1..], limits, from, to)
  }

  lemma {:induction false} NoneAfter(w: Option<Window>, times: seq<int>, limits: Limits, from: int, to: int)
    requires forall i :: 0 <= i < |times| ==> times[i] >= to
    ensures Admitted(w, times, limits, from, to) == 0
    decreases times
  {
    if times != [] {
      NoneAfter(Some(Hit(w, times[0], limits.length)), times[1..], limits, from, to);
    }
  }

  /** Within the current window: what is left of its allowance. */
  lemma {:induction false} WithinWindow(w: Window, times: seq<int>, limits: Limits, from: int, to: int)
    requires Sorted(times) && to <= w.expiresAt
    ensures Admitted(Some(w), times, limits, from, to)
            <= if w.count <= limits.attempts then limits.attempts - w.count else 0
    decreases times
  {
    if times != [] {
      if times[0] >= to {
        NoneAfter(Some(w), times, limits, from, to);
      } else {
        WithinWindow(Hit(Some(w), times[0], limits.length), times[1..], limits, from, to);
      }
    }
  }

  /** Until one window length after the current window: the next window's allowance on top. */
  lemma {:induction false} WithinTwoWindows(w: Window, times: seq<int>, limits: Limits, from: int, to: int)
    requires Sorted(times) && to <= w.expiresAt + limits.length
    ensures Admitted(Some(w), times, limits, from, to)
            <= (if w.count <= limits.attempts then limits.attempts - w.count else 0) + limits.attempts
    decreases times
  {
    if times != [] {
      var w' := Hit(Some(w), times[0], limits.length);
      if times[0] < w.expiresAt {
        WithinTwoWindows(w', times[1..], limits, from, to);
      } else {
        WithinWindow(w', times[1..], limits, from, to);
      }
    }
  }

  /**
   The most that gets through in an interval of one window length: two allowances, less the request
   that opened the first window.
   */
  function Bound(attempts: nat): nat {
    if attempts == 0 then 0 else 2 * attempts - 1
  }

  /** In every request sequence, whatever the interval. */
  lemma {:induction false} SlidingBound(w: Option<Window>, times: seq<int>, limits: Limits, from: int)
    requires Sorted(times) && (w.Some? ==> w.value.count >= 1)
    ensures Admitted(w, times, limits, from, from + limits.length) <= Bound(limits.attempts)
    decreases times
  {
    if times != [] {
      var w' := Hit(w, times[0], limits.length);
      if times[0] < from {
        SlidingBound(Some(w'), times[1..], limits, from);
      } else if w.Some? && w.value.expiresAt > times[0] {
        WithinTwoWindows(w.value, times, limits, from, from + limits.length);
      } else {
        WithinWindow(w', times[1..], limits, from, from + limits.length);
      }
    }
  }

  /** `n` simultaneous requests inside a window, all within the limit. */
  lemma {:induction false} BurstAdmitted(w: Window, t: int, n: nat, rest: seq<int>, limits: Limits, from: int, to: int)
    requires from <= t < to && t < w.expiresAt && w.count + n <= limits.attempts
    ensures Admitted(Some(w), Repeat(t, n) + rest, limits, from, to)
            == n + Admitted(Some(w.(count := w.count + n)), rest, limits, from, to)
    decreases n
  {
    if n == 0 {
      assert Repeat(t, 0) + rest == rest;
    } else {
      assert (Repeat(t, n) + rest)[1..] == Repeat(t, n - 1) + rest;
      BurstAdmitted(w.(count := w.count + 1), t, n - 1, rest, limits, from, to);
    }
  }

  /** A window used up at its end, the next one at its start. */
  function TwoBursts(limits: Limits): seq<int>
    requires limits.attempts >= 1
  {
    [0] + (Repeat(limits.length - 1, limits.attempts - 1) + Repeat(limits.length, limits.attempts))
  }

  lemma TwoBurstsAdmitted(limits: Limits)
    requires limits.attempts >= 1 && limits.length >= 2
    ensures Sorted(TwoBursts(limits))
    ensures Admitted(None, TwoBursts(limits), limits, 1, 1 + limits.length) == Bound(limits.attempts)
  {
    var n, l := limits.attempts, limits.length;
    var late := Repeat(l, n);
    var times := TwoBursts(limits);
    assert times[1..] == Repeat(l - 1, n - 1) + late;
    BurstAdmitted(Window(1, l), l - 1, n - 1, late, limits, 1, 1 + l);
    assert late == [l] + Repeat(l, n - 1);
    assert late[1..] == Repeat(l, n - 1) + [];
    BurstAdmitted(Window(1, 2 * l), l, n - 1, [], limits, 1, 1 + l);
    assert Hit(Some(Window(n, l)), l, l) == Window(1, 2 * l);
    assert Admitted(Some(Window(n, l)), late, limits, 1, 1 + l) == n;
  }

  // --- Requests with several keys ---

  datatype Request = Request(at: int, keys: seq<string>)

  ghost predicate InOrder(requests: seq<Request>) {
    forall i, j :: 0 <= i < j < |requests| ==> requests[i].at <= requests[j].at
  }

  ghost predicate Counting(counters: map<string, Window>) {
    forall key :: key in counters ==> counters[key].count >= 1
  }

  /** How many requests with this key are let through at instants of `[from, to)`. */
  function LetThrough(counters: map<string, Window>, requests: seq<Request>, limits: Limits, key: string, from: int,
                      to: int): nat
    decreases requests
  {
    if requests == [] then 0
    else
      var (counters', refused) := Enforced(counters, requests[0].keys, requests[0].at, limits);
      (if !refused && key in requests[0].keys && from <= requests[0].at < to then 1 else 0)
      + LetThrough(counters', requests[1..], limits, key, from, to)
  }

  /** How often one request hits a key: not after an earlier key was over its limit. */
  function HitsOf(counters: map<string, Window>, keys: seq<string>, now: int, limits: Limits, key: string): nat
    decreases keys
  {
    if keys == [] then 0
    else
      var w := Hit(Get(counters, keys[0]), now, limits.length);
      (if keys[0] == key then 1 else 0)
      + if w.count > limits.attempts then 0 else HitsOf(counters[keys[0] := w], keys[1..], now, limits, key)
  }

  /** The instants at which a key is hit. */
  function TimesOf(counters: map<string, Window>, requests: seq<Request>, limits: Limits, key: string): seq<int>
    decreases requests
  {
    if requests == [] then []
    else
      var r := requests[0];
      Repeat(r.at, HitsOf(counters, r.keys, r.at, limits, key))
      + TimesOf(Enforced(counters, r.keys, r.at, limits).0, requests[1..], limits, key)
  }

  /** A request that is let through hit each of its keys within the limit. */
  lemma {:induction false} OneRequest(counters: map<string, Window>, keys: seq<string>, now: int, limits: Limits,
                                      key: string, rest: seq<int>, from: int, to: int)
    ensures var (counters', refused) := Enforced(counters, keys, now, limits);
            Admitted(Get(counters, key), Repeat(now, HitsOf(counters, keys, now, limits, key)) + rest, limits, from, to)
            >= (if !refused && key in keys && from <= now < to then 1 else 0)
              + Admitted(Get(counters', key), rest, limits, from, to)
    decreases keys
  {
    if keys == [] {
      assert Repeat(now, 0) + rest == rest;
    } else {
      var w := Hit(Get(counters, keys[0]), now, limits.length);
      var counters' := counters[keys[0] := w];
      var n := HitsOf(counters, keys, now, limits, key);
      var times := Repeat(now, n) + rest;
      if w.count <= limits.attempts {
        OneRequest(counters', keys[1..], now, limits, key, rest, from, to);
      }
      if keys[0] == key {
        assert times[1..] == Repeat(now, n - 1) + rest;
        assert w.count > limits.attempts ==> Repeat(now, n - 1) + rest == rest;
      } else {
        assert w.count > limits.attempts ==> times == rest;
      }
    }
  }

  lemma {:induction false} ThroughAreAdmitted(counters: map<string, Window>, requests: seq<Request>, limits: Limits,
                                              key: string, from: int, to: int)
    ensures LetThrough(counters, requests, limits, key, from, to)
            <= Admitted(Get(counters, key), TimesOf(counters, requests, limits, key), limits, from, to)
    decreases requests
  {
    if requests != [] {
      var r := requests[0];
      var counters' := Enforced(counters, r.keys, r.at, limits).0;
      ThroughAreAdmitted(counters', requests[1..], limits, key, from, to);
      OneRequest(counters, r.keys, r.at, limits, key, TimesOf(counters', requests[1..], limits, key), from, to);
    }
  }

  lemma {:induction false} TimesInOrder(counters: map<string, Window>, requests: seq<Request>, limits: Limits,
                                        key: string, since: int)
    requires InOrder(requests) && (requests != [] ==> since <= requests[0].at)
    ensures Sorted(TimesOf(counters, requests, limits, key))
    ensures forall i :: 0 <= i < |TimesOf(counters, requests, limits, key)| ==>
              since <= TimesOf(counters, requests, limits, key)[i]
    decreases requests
  {
    if requests != [] {
      var r := requests[0];
      TimesInOrder(Enforced(counters, r.keys, r.at, limits).0, requests[1..], limits, key, r.at);
    }
  }

  lemma TimesSorted(counters: map<string, Window>, requests: seq<Request>, limits: Limits, key: string)
    requires InOrder(requests)
    ensures Sorted(TimesOf(counters, requests, limits, key))
  {
    TimesInOrder(counters, requests, limits, key, if requests == [] then 0 else requests[0].at);
  }

  lemma KeyBound(counters: map<string, Window>, times: seq<int>, limits: Limits, key: string, from: int)
    requires Sorted(times) && Counting(counters)
    ensures Admitted(Get(counters, key), times, limits, from, from + limits.length) <= Bound(limits.attempts)
  {
    SlidingBound(Get(counters, key), times, limits, from);
  }

  /**
   In every sequence of requests, at most so many with a given key are let through in any interval of
   one window length.
   */
  lemma RequestBound(counters: map<string, Window>, requests: seq<Request>, limits: Limits, key: string, from: int)
    requires InOrder(requests) && Counting(counters)
    ensures LetThrough(counters, requests, limits, key, from, from + limits.length) <= Bound(limits.attempts)
  {
    ThroughAreAdmitted(counters, requests, limits, key, from, from + limits.length);
    TimesSorted(counters, requests, limits, key);
    KeyBound(counters, TimesOf(counters, requests, limits, key), limits, key, from);
  }

  /** Requests with one key and nothing else. */
  function Bare(times: seq<int>, key: string): seq<Request> {
    seq(|times|, i requires 0 <= i < |times| => Request(times[i], [key]))
  }

  lemma {:induction false} BareThrough(
      counters: map<string, Window>, times: seq<int>, limits: Limits, key: string, from: int, to: int)
    ensures LetThrough(counters, Bare(times, key), limits, key, from, to)
            == Admitted(Get(counters, key), times, limits, from, to)
    decreases times
  {
    if times != [] {
      var requests := Bare(times, key);
      var w := Hit(Get(counters, key), times[0], limits.length);
      assert requests[0] == Request(times[0], [key]) && [key][1..] == [];
      assert Enforced(counters, [key], times[0], limits) == (counters[key := w], w.count > limits.attempts);
      assert requests[1..] == Bare(times[1..], key);
      BareThrough(counters[key := w], times[1..], limits, key, from, to);
    }
  }

  /** And that many requests do get through, under any limits and with any key. */
  lemma BoundIsReached(limits: Limits, key: string)
    requires limits.length >= 2
    ensures exists requests ::
              InOrder(requests)
                && LetThrough(map[], requests, limits, key, 1, 1 + limits.length) == Bound(limits.attempts)
  {
    if limits.attempts == 0 {
      assert InOrder([]) && LetThrough(map[], [], limits, key, 1, 1 + limits.length) == 0;
    } else {
      TwoBurstsAdmitted(limits);
      BareThrough(map[], TwoBursts(limits), limits, key, 1, 1 + limits.length);
      assert InOrder(Bare(TwoBursts(limits), key));
    }
  }
}
