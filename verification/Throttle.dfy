/**
 The key-value store behind the connector locks, and the retry envelope of every provider call.
 Instants and delays are milliseconds; what other workers do meanwhile is a parameter.
 */
module Throttle {
  import opened Wrappers
  import RateLimit

  const LOCK_TTL := 30_000
  const LOCK_ATTEMPTS := 20
  const LOCK_INTERVAL := 250
  const MAX_ATTEMPTS := 5
  const WINDOW := 60_000

  type Token = nat   // a random identifier; two acquisitions never share one

  datatype Entry = Entry(token: Token, expiresAt: int)

  // --- Locks ---

  class LockStore {
    var now: int
    var locks: map<string, Entry>

    constructor (now: int)
      ensures this.now == now && locks == map[]
    {
      this.now, locks := now, map[];
    }

    predicate Held(name: string)
      reads this
    {
      name in locks && locks[name].expiresAt > now
    }

    predicate HeldBy(name: string, token: Token)
      reads this
    {
      Held(name) && locks[name].token == token
    }

    method AcquireLock(name: string, token: Token) returns (acquired: bool)
      modifies this`locks
      ensures acquired == !old(Held(name))
      ensures locks == if acquired then old(locks)[name := Entry(token, now + LOCK_TTL)] else old(locks)
    {
      acquired := !Held(name);
      if acquired {
        locks := locks[name := Entry(token, now + LOCK_TTL)];
      }
    }

    method Get(name: string) returns (token: Option<Token>)
      ensures token == if Held(name) then Some(locks[name].token) else None
    {
      token := if name in locks && locks[name].expiresAt > now then Some(locks[name].token) else None;
    }

    method Delete(name: string)
      modifies this`locks
      ensures locks == old(locks) - {name}
    {
      locks := locks - {name};
    }

    /**
     GET, then DELETE if the key held the worker's own token. `gap` is the time between the two, and
     `between` how the others left the locks in it: the key deleted is whoever's it is by then.
     */
    method ReleaseLock(name: string, token: Token, gap: nat, between: map<string, Entry>)
      modifies this
      ensures now == old(now) + if old(HeldBy(name, token)) then gap else 0
      ensures locks == if old(HeldBy(name, token)) then between - {name} else old(locks)
      ensures !HeldBy(name, token)
    {
      var current := Get(name);
      if current == Some(token) {
        Sleep(gap, between);
        Delete(name);
      }
    }

    /** Time passes, and other workers leave the locks as `meanwhile` says. */
    method Sleep(milliseconds: nat, meanwhile: map<string, Entry>)
      modifies this
      ensures now == old(now) + milliseconds && locks == meanwhile
    {
      now := now + milliseconds;
      locks := meanwhile;
    }

    /**
     Tries up to twenty times, a quarter of a second apart, against whatever the others do; `tries`
     counts the attempts, the last of which got the lock if any did.
     */
    method WaitForLock(name: string, token: Token, meanwhile: seq<map<string, Entry>>)
      returns (acquired: bool, ghost tries: nat)
      requires |meanwhile| == LOCK_ATTEMPTS
      modifies this
      ensures 1 <= tries <= 20 && (!acquired ==> tries == 20)
      ensures now == old(now) + 250 * (if acquired then tries - 1 else tries)
      ensures acquired ==>
                var before := if tries == 1 then old(locks) else meanwhile[tries - 2];
                HeldBy(name, token) && locks == before[name := Entry(token, now + LOCK_TTL)]
      ensures !acquired ==> locks == meanwhile[LOCK_ATTEMPTS - 1]
      ensures old(Held(name)) || (acquired && tries == 1)
      ensures forall i :: 0 <= i < (if acquired then tries - 2 else tries - 1) ==>
                name in meanwhile[i] && meanwhile[i][name].expiresAt > old(now) + LOCK_INTERVAL * (i + 1)
    {
      acquired, tries := false, 0;
      for i := 0 to LOCK_ATTEMPTS
        invariant tries == i && now == old(now) + LOCK_INTERVAL * i
        invariant locks == if i == 0 then old(locks) else meanwhile[i - 1]
        invariant i > 0 ==> old(Held(name))
        invariant forall k :: 0 <= k < i - 1 ==>
                    name in meanwhile[k] && meanwhile[k][name].expiresAt > old(now) + LOCK_INTERVAL * (k + 1)
      {
        tries := tries + 1;
        acquired := AcquireLock(name, token);
        if acquired {
          return;
        }
        Sleep(LOCK_INTERVAL, meanwhile[i]);
      }
    }
  }

  // --- Retries ---

  /**
   How one attempt ends; `Raised` is any exception the envelope does not handle. A Retry-After is in
   milliseconds here: the header is read as a decimal number of seconds, and a negative one waits for nothing.
   */
  datatype Attempt<T, E> = Returned(value: T) | Refused(status: nat, retryAfter: Option<int>) | Raised(error: E)

  datatype CallError<E> = Rejected(status: nat) | Unavailable | Other(error: E)

  predicate Retryable<T, E>(a: Attempt<T, E>) {
    a.Refused? && (a.status == 429 || a.status >= 500)
  }

  /** Half a second doubled at each attempt, plus a jitter of at most half a second. */
  function BackoffDelay(attemptNo: nat, jitter: nat): nat {
    Pow2(attemptNo) * 500 + jitter
  }

  function Pow2(n: nat): nat {
    if n == 0 then 1 else 2 * Pow2(n - 1)
  }

  function Delay<T, E>(a: Attempt<T, E>, attemptNo: nat, jitter: nat): nat
    requires a.Refused?
  {
    if a.retryAfter.None? then BackoffDelay(attemptNo, jitter)
    else if a.retryAfter.value < 0 then 0
    else a.retryAfter.value
  }

  /** The outcome of a decisive attempt. */
  function Decided<T, E>(a: Attempt<T, E>): Result<T, CallError<E>>
    requires !Retryable(a)
  {
    match a
    case Returned(value) => Ok(value)
    case Refused(status, _) => Err(Rejected(status))
    case Raised(error) => Err(Other(error))
  }

  /** The sum of the local budget waits and retry delays of the first `n` attempts. */
  function SleptFor<T, E>(attempts: seq<Attempt<T, E>>, budget: seq<nat>, jitter: seq<nat>, n: nat): nat
    requires n <= |attempts| && n <= |budget| && n <= |jitter|
  {
    if n == 0 then 0
    else
      SleptFor(attempts, budget, jitter, n - 1) + budget[n - 1]
      + if Retryable(attempts[n - 1]) then Delay(attempts[n - 1], n - 1, jitter[n - 1]) else 0
  }

  /**
   Retries 429 and 5xx up to five times. `attempts` is what each attempt would give, `budget` the
   wait imposed before it; `made` is how many were made and `slept` the time spent waiting.
   */
  method RunWithBackoff<T, E>(attempts: seq<Attempt<T, E>>, budget: seq<nat>, jitter: seq<nat>)
    returns (result: Result<T, CallError<E>>, made: nat, slept: nat)
    requires |attempts| == |budget| == |jitter| == MAX_ATTEMPTS
    ensures 1 <= made <= MAX_ATTEMPTS && slept == SleptFor(attempts, budget, jitter, made)
    ensures forall i :: 0 <= i < made - 1 ==>
              attempts[i].Refused? && (attempts[i].status == 429 || attempts[i].status >= 500)
    ensures match attempts[made - 1]
            case Returned(value) => result == Ok(value)
            case Raised(error) => result == Err(Other(error))
            case Refused(status, _) =>
              if status == 429 || status >= 500 then made == MAX_ATTEMPTS && result == Err(Unavailable)
              else result == Err(Rejected(status))
  {
    made, slept := 0, 0;
    var lastError: Option<nat> := None;
    while made < MAX_ATTEMPTS
      invariant made <= MAX_ATTEMPTS && slept == SleptFor(attempts, budget, jitter, made)
      invariant forall i :: 0 <= i < made ==> Retryable(attempts[i])
    {
      slept := slept + budget[made];
      var attempt := attempts[made];
      if !Retryable(attempt) {
        made := made + 1;
        return Decided(attempt), made, slept;
      }
      lastError := Some(attempt.status);
      slept := slept + Delay(attempt, made, jitter[made]);
      made := made + 1;
    }
    return Err(Unavailable), made, slept;
  }

  // --- Waits that outlive a lock ---

  /** What the store answers to TTL, in seconds, for a remaining lifetime in milliseconds. */
  function TtlSeconds(remaining: nat): nat {
    (remaining + 500) / 1000
  }

  /** One request counted in the connection's window, and the wait until the next window when it is over the budget. */
  function BudgetWait(w: Option<RateLimit.Window>, now: int, perMinute: nat): (r: (RateLimit.Window, nat)) {
    var w' := RateLimit.Hit(w, now, WINDOW);
    (w', if w'.count <= perMinute then 0
         else if w'.expiresAt - now < 1500 then 1000
         else TtlSeconds(w'.expiresAt - now) * 1000)
  }

  /**
   A request within the budget waits for nothing; one over it for the whole seconds nearest to what
   is left of the window, a half counting up, and for one second at least.
   */
  lemma BudgetWaitIs(w: Option<RateLimit.Window>, now: int, perMinute: nat)
    requires w.Some? ==> w.value.expiresAt > now
    ensures var (w', wait) := BudgetWait(w, now, perMinute);
            && (w.Some? ==> w' == w.value.(count := w.value.count + 1))
            && (w.None? ==> w' == RateLimit.Window(1, now + 60_000))
            && (w'.count <= perMinute ==> wait == 0)
            && (w'.count > perMinute ==>
                  && wait % 1000 == 0 && wait >= 1000
                  && (wait > 1000 ==> wait - 500 <= w'.expiresAt - now < wait + 500)
                  && (wait == 1000 ==> w'.expiresAt - now < 1500))
  {
  }

  /** A Retry-After is waited for as it is, or not at all when negative; without one, the backoff with its jitter. */
  lemma DelayIs<T, E>(a: Attempt<T, E>, attemptNo: nat, jitter: nat)
    requires a.Refused?
    ensures a.retryAfter.Some? && a.retryAfter.value >= 0 ==> Delay(a, attemptNo, jitter) == a.retryAfter.value
    ensures a.retryAfter.Some? && a.retryAfter.value < 0 ==> Delay(a, attemptNo, jitter) == 0
    ensures a.retryAfter.None? && attemptNo == 0 ==> Delay(a, attemptNo, jitter) == 500 + jitter
    ensures a.retryAfter.None? && attemptNo > 0 ==>
              Delay(a, attemptNo, jitter) - jitter == 2 * (Delay(a, attemptNo - 1, jitter) - jitter)
  {
  }

  /** The retry delays of the first `n` attempts. */
  function DelayedFor<T, E>(attempts: seq<Attempt<T, E>>, jitter: seq<nat>, n: nat): nat
    requires n <= |attempts| && n <= |jitter|
  {
    if n == 0 then 0
    else
      DelayedFor(attempts, jitter, n - 1)
      + if Retryable(attempts[n - 1]) then Delay(attempts[n - 1], n - 1, jitter[n - 1]) else 0
  }

  /** The budget waits before attempts `i` to `n - 1`. */
  function WaitedFor(budget: seq<nat>, i: nat, n: nat): nat
    requires i <= n <= |budget|
    decreases n - i
  {
    if i == n then 0 else budget[i] + WaitedFor(budget, i + 1, n)
  }

  lemma {:induction false} WaitedLast(budget: seq<nat>, i: nat, n: nat)
    requires i < n <= |budget|
    ensures WaitedFor(budget, i, n) == WaitedFor(budget, i, n - 1) + budget[n - 1]
    decreases n - i
  {
    if i + 1 < n {
      WaitedLast(budget, i + 1, n);
    }
  }

  lemma {:induction false} WaitsSplit<T, E>(attempts: seq<Attempt<T, E>>, budget: seq<nat>, jitter: seq<nat>, n: nat)
    requires n <= |attempts| && n <= |budget| && n <= |jitter|
    ensures SleptFor(attempts, budget, jitter, n) == WaitedFor(budget, 0, n) + DelayedFor(attempts, jitter, n)
  {
    if n > 0 {
      WaitsSplit(attempts, budget, jitter, n - 1);
      WaitedLast(budget, 0, n);
    }
  }

  /** The first `r` attempts are refusals that leave the delay to the backoff. */
  predicate BacksOff<T, E>(attempts: seq<Attempt<T, E>>, jitter: seq<nat>, r: nat)
    requires r <= |attempts| && r <= |jitter|
  {
    forall i :: 0 <= i < r ==> Retryable(attempts[i]) && attempts[i].retryAfter.None? && jitter[i] <= 500
  }

  /** `r` refusals are backed off from for half a second times two to the `r`, less half a second, and the jitters. */
  lemma {:induction false} BackoffBounds<T, E>(attempts: seq<Attempt<T, E>>, jitter: seq<nat>, r: nat)
    requires r <= |attempts| && r <= |jitter| && BacksOff(attempts, jitter, r)
    ensures 500 * (Pow2(r) - 1) <= DelayedFor(attempts, jitter, r) <= 500 * (Pow2(r) - 1) + 500 * r
  {
    if r > 0 {
      BackoffBounds(attempts, jitter, r - 1);
    }
  }

  /**
   The budget waits are those of a window that only these attempts count in: `took` is how long
   each attempt takes, `now` the instant of attempt `i`.
   */
  predicate Budgeted<T, E>(w: RateLimit.Window, now: int, perMinute: nat, attempts: seq<Attempt<T, E>>,
                           budget: seq<nat>, jitter: seq<nat>, took: seq<nat>, i: nat, n: nat)
    requires i <= n <= |attempts| && n <= |budget| && n <= |jitter| && n <= |took|
    decreases n - i
  {
    i == n
    || (var (w', wait) := BudgetWait(Some(w), now, perMinute);
        && budget[i] == wait
        && Budgeted(w', now + wait + took[i] + (if Retryable(attempts[i]) then Delay(attempts[i], i, jitter[i]) else 0),
                    perMinute, attempts, budget, jitter, took, i + 1, n))
  }

  /** All but the last of these attempts are refusals that are backed off from. */
  predicate RetriedTo<T, E>(attempts: seq<Attempt<T, E>>, jitter: seq<nat>, n: nat)
    requires n <= |attempts| && n <= |jitter|
  {
    n > 0 ==> BacksOff(attempts, jitter, n - 1)
  }

  /** A window with room for the attempts to come imposes no wait. */
  lemma {:induction false} RoomForAll<T, E>(w: RateLimit.Window, now: int, perMinute: nat, attempts: seq<Attempt<T, E>>,
                                            budget: seq<nat>, jitter: seq<nat>, took: seq<nat>, i: nat, n: nat)
    requires i <= n <= |attempts| && n <= |budget| && n <= |jitter| && n <= |took|
    requires Budgeted(w, now, perMinute, attempts, budget, jitter, took, i, n)
    requires n - i <= perMinute && (w.expiresAt > now ==> w.count + n - i <= perMinute)
    ensures WaitedFor(budget, i, n) == 0
    decreases n - i
  {
    if i < n {
      var (w', wait) := BudgetWait(Some(w), now, perMinute);
      var later := now + wait + took[i] + (if Retryable(attempts[i]) then Delay(attempts[i], i, jitter[i]) else 0);
      RoomForAll(w', later, perMinute, attempts, budget, jitter, took, i + 1, n);
    }
  }

  /** A wait lasts until the window is over, or so nearly that the backoff does the rest. */
  lemma WaitIsTheRest(w: RateLimit.Window, now: int, perMinute: nat)
    requires w.expiresAt > now && w.count >= perMinute
    ensures var (w', wait) := BudgetWait(Some(w), now, perMinute);
            && w'.expiresAt == w.expiresAt && now + wait + 500 >= w'.expiresAt
            && (wait <= 1000 || wait <= w.expiresAt - now + 500)
  {
  }

  lemma BackoffIsHalfASecond<T, E>(a: Attempt<T, E>, attemptNo: nat, jitter: nat)
    requires Retryable(a) && a.retryAfter.None?
    ensures Delay(a, attemptNo, jitter) >= 500
    decreases attemptNo
  {
    if attemptNo > 0 {
      BackoffIsHalfASecond(a, attemptNo - 1, jitter);
    }
  }

  /** A used-up window imposes one wait, before the first attempt, and no other. */
  lemma OneWait<T, E>(w: RateLimit.Window, now: int, perMinute: nat, attempts: seq<Attempt<T, E>>, budget: seq<nat>,
                      jitter: seq<nat>, took: seq<nat>, i: nat, n: nat)
    requires i < n <= |attempts| && n <= |budget| && n <= |jitter| && n <= |took| && n <= perMinute
    requires Budgeted(w, now, perMinute, attempts, budget, jitter, took, i, n) && RetriedTo(attempts, jitter, n)
    requires w.expiresAt > now && w.count >= perMinute
    ensures WaitedFor(budget, i, n) == budget[i] == BudgetWait(Some(w), now, perMinute).1
  {
    var (w', wait) := BudgetWait(Some(w), now, perMinute);
    WaitIsTheRest(w, now, perMinute);
    if i + 1 < n {
      BackoffIsHalfASecond(attempts[i], i, jitter[i]);
      var later := now + wait + took[i] + Delay(attempts[i], i, jitter[i]);
      BudgetedOn(w, now, perMinute, attempts, budget, jitter, took, i, n);
      RoomForAll(w', later, perMinute, attempts, budget, jitter, took, i + 1, n);
    }
  }

  lemma BudgetedOn<T, E>(w: RateLimit.Window, now: int, perMinute: nat, attempts: seq<Attempt<T, E>>, budget: seq<nat>,
                         jitter: seq<nat>, took: seq<nat>, i: nat, n: nat)
    requires i < n <= |attempts| && n <= |budget| && n <= |jitter| && n <= |took| && Retryable(attempts[i])
    requires Budgeted(w, now, perMinute, attempts, budget, jitter, took, i, n)
    ensures var (w', wait) := BudgetWait(Some(w), now, perMinute);
            && budget[i] == wait
            && Budgeted(w', now + wait + took[i] + Delay(attempts[i], i, jitter[i]), perMinute, attempts, budget,
                        jitter, took, i + 1, n)
  {
  }

  /** In any window, the budget waits are at most one wait for the rest of it. */
  lemma {:induction false} AtMostOneWait<T, E>(w: RateLimit.Window, now: int, perMinute: nat,
                                               attempts: seq<Attempt<T, E>>, budget: seq<nat>, jitter: seq<nat>,
                                               took: seq<nat>, i: nat, n: nat)
    requires i <= n <= |attempts| && n <= |budget| && n <= |jitter| && n <= |took| && n <= perMinute
    requires Budgeted(w, now, perMinute, attempts, budget, jitter, took, i, n) && RetriedTo(attempts, jitter, n)
    ensures WaitedFor(budget, i, n) <= 1000 || WaitedFor(budget, i, n) <= w.expiresAt - now + 500
    decreases n - i
  {
    if i < n {
      if w.expiresAt <= now {
        RoomForAll(w, now, perMinute, attempts, budget, jitter, took, i, n);
      } else if w.count >= perMinute {
        OneWait(w, now, perMinute, attempts, budget, jitter, took, i, n);
        WaitIsTheRest(w, now, perMinute);
      } else {
        var w' := BudgetWait(Some(w), now, perMinute).0;
        var later := now + took[i] + (if Retryable(attempts[i]) then Delay(attempts[i], i, jitter[i]) else 0);
        AtMostOneWait(w', later, perMinute, attempts, budget, jitter, took, i + 1, n);
      }
    }
  }

  /** How many of the first `n` attempts are refusals, all but the last being. */
  function Refusals<T, E>(attempts: seq<Attempt<T, E>>, n: nat): nat
    requires 0 < n <= |attempts|
  {
    if Retryable(attempts[n - 1]) then n else n - 1
  }

  /**
   Everything a grant call waits for inside the refresh lock. Its refusals carry no Retry-After, so
   the waits are the backoffs, and at most one wait for the rest of the connection's window; that
   one is made when the window is used up from the start.
   */
  lemma RefreshWaits<T, E>(w: RateLimit.Window, now: int, perMinute: nat, attempts: seq<Attempt<T, E>>,
                           budget: seq<nat>, jitter: seq<nat>, took: seq<nat>, n: nat)
    requires 0 < n <= MAX_ATTEMPTS <= perMinute && |attempts| == |budget| == |jitter| == |took| == MAX_ATTEMPTS
    requires Budgeted(w, now, perMinute, attempts, budget, jitter, took, 0, n)
    requires RetriedTo(attempts, jitter, n) && BacksOff(attempts, jitter, Refusals(attempts, n))
    ensures var slept, r, rest := SleptFor(attempts, budget, jitter, n), Refusals(attempts, n), w.expiresAt - now;
            && 500 * (Pow2(r) - 1) <= slept <= 500 * (Pow2(r) - 1) + 500 * r + (if rest < 500 then 1000 else rest + 500)
            && (w.count >= perMinute && rest > 0 ==> rest - 500 + 500 * (Pow2(r) - 1) <= slept)
  {
    var r := Refusals(attempts, n);
    WaitsSplit(attempts, budget, jitter, n);
    assert DelayedFor(attempts, jitter, n) == DelayedFor(attempts, jitter, r);
    BackoffBounds(attempts, jitter, r);
    AtMostOneWait(w, now, perMinute, attempts, budget, jitter, took, 0, n);
    if w.count >= perMinute && w.expiresAt > now {
      OneWait(w, now, perMinute, attempts, budget, jitter, took, 0, n);
      WaitIsTheRest(w, now, perMinute);
    }
  }

  /**
   So the waits outlive the lock when the window is used up and what is left of it, with the
   backoffs, comes to the lock's lifetime and half a second; and they do not while both together,
   with the jitters, stay under the lifetime by a second.
   */
  lemma RefreshWaitsOutliveTheLock<T, E>(w: RateLimit.Window, now: int, perMinute: nat, attempts: seq<Attempt<T, E>>,
                                         budget: seq<nat>, jitter: seq<nat>, took: seq<nat>, n: nat)
    requires 0 < n <= MAX_ATTEMPTS <= perMinute && |attempts| == |budget| == |jitter| == |took| == MAX_ATTEMPTS
    requires Budgeted(w, now, perMinute, attempts, budget, jitter, took, 0, n)
    requires RetriedTo(attempts, jitter, n) && BacksOff(attempts, jitter, Refusals(attempts, n))
    ensures var slept, r, rest := SleptFor(attempts, budget, jitter, n), Refusals(attempts, n), w.expiresAt - now;
            && (w.count >= perMinute && rest > 0 && rest + 500 * (Pow2(r) - 1) >= LOCK_TTL + 500 ==> slept >= LOCK_TTL)
            && ((if rest < 0 then 0 else rest) + 500 * (Pow2(r) - 1) + 500 * r < LOCK_TTL - 1000 ==> slept < LOCK_TTL)
  {
    RefreshWaits(w, now, perMinute, attempts, budget, jitter, took, n);
  }

  /**
   The first wait alone outlives the lock exactly when the window is used up with half a second less
   than its lifetime to go, or more.
   */
  lemma FirstWaitOutlivesTheLockIff(w: RateLimit.Window, now: int, perMinute: nat)
    requires now < w.expiresAt <= now + WINDOW
    ensures BudgetWait(Some(w), now, perMinute).1 >= LOCK_TTL
            <==> w.count >= perMinute && w.expiresAt - now >= LOCK_TTL - 500
  {
  }

  /** The time a Retry-After asks for, none if it is negative. */
  function Asked<T, E>(a: Attempt<T, E>): nat
    requires a.Refused? && a.retryAfter.Some?
  {
    if a.retryAfter.value > 0 then a.retryAfter.value else 0
  }

  /** What the refusals among the first `n` attempts asked to wait for. */
  function AskedFor<T, E>(attempts: seq<Attempt<T, E>>, n: nat): nat
    requires n <= |attempts|
  {
    if n == 0 then 0
    else
      AskedFor(attempts, n - 1)
      + if Retryable(attempts[n - 1]) && attempts[n - 1].retryAfter.Some? then Asked(attempts[n - 1]) else 0
  }

  lemma {:induction false} AskedAndBackedOff<T, E>(attempts: seq<Attempt<T, E>>, jitter: seq<nat>, n: nat)
    requires n <= |attempts| && n <= |jitter| && forall i :: 0 <= i < n ==> jitter[i] <= 500
    ensures AskedFor(attempts, n) <= DelayedFor(attempts, jitter, n)
            <= AskedFor(attempts, n) + 500 * (Pow2(n) - 1) + 500 * n
    ensures (forall i :: 0 <= i < n && Retryable(attempts[i]) ==> attempts[i].retryAfter.Some?) ==>
              DelayedFor(attempts, jitter, n) == AskedFor(attempts, n)
  {
    if n > 0 {
      AskedAndBackedOff(attempts, jitter, n - 1);
    }
  }

  /**
   Under a renewal lock the calls go to the provider's API, whose Retry-After is honoured as it is.
   The waits outlive the lock when what is asked for and waited for does, however many attempts there
   are, and if every refusal asks, exactly then; otherwise they may outlive it by the backoffs, of at most 18 seconds.
   */
  lemma RenewalWaitsOutliveTheLock<T, E>(attempts: seq<Attempt<T, E>>, budget: seq<nat>, jitter: seq<nat>, n: nat)
    requires n <= MAX_ATTEMPTS && |attempts| == |budget| == |jitter| == MAX_ATTEMPTS
    requires forall i :: 0 <= i < MAX_ATTEMPTS ==> jitter[i] <= 500
    ensures var slept, asked := SleptFor(attempts, budget, jitter, n), WaitedFor(budget, 0, n) + AskedFor(attempts, n);
            && (asked >= LOCK_TTL ==> slept >= LOCK_TTL)
            && (asked < LOCK_TTL - 18_000 ==> slept < LOCK_TTL)
            && ((forall i :: 0 <= i < n && Retryable(attempts[i]) ==> attempts[i].retryAfter.Some?) ==>
                  (slept >= LOCK_TTL <==> asked >= LOCK_TTL))
  {
    WaitsSplit(attempts, budget, jitter, n);
    AskedAndBackedOff(attempts, jitter, n);
    assert Pow2(0) == 1 && Pow2(1) == 2 && Pow2(2) == 4 && Pow2(3) == 8 && Pow2(4) == 16 && Pow2(5) == 32;
  }

  /** Without Retry-After and budget waits, five refusals still wait for at least half of the lock's lifetime. */
  lemma BackoffWithoutRetryAfter<T, E>(attempts: seq<Attempt<T, E>>, jitter: seq<nat>)
    requires |attempts| == |jitter| == MAX_ATTEMPTS && BacksOff(attempts, jitter, MAX_ATTEMPTS)
    ensures 15_500 <= SleptFor(attempts, [0, 0, 0, 0, 0], jitter, MAX_ATTEMPTS) <= 18_000
  {
    WaitsSplit(attempts, [0, 0, 0, 0, 0], jitter, MAX_ATTEMPTS);
    BackoffBounds(attempts, jitter, MAX_ATTEMPTS);
    assert Pow2(0) == 1 && Pow2(1) == 2 && Pow2(2) == 4 && Pow2(3) == 8 && Pow2(4) == 16 && Pow2(5) == 32;
    assert WaitedFor([0, 0, 0, 0, 0], 5, 5) == 0 && WaitedFor([0, 0, 0, 0, 0], 4, 5) == 0
      && WaitedFor([0, 0, 0, 0, 0], 3, 5) == 0;
    assert WaitedFor([0, 0, 0, 0, 0], 2, 5) == 0 && WaitedFor([0, 0, 0, 0, 0], 1, 5) == 0;
  }
}
