/**
 Workers competing for the lock of one connection, step by step: SET NX with a lifetime, the
 provider call, GET, DELETE. GET and DELETE are two commands, the key expires on its own, and a
 worker can die anywhere.
 */
module LockProtocol {
  import opened Wrappers
  import Throttle

  /** The key's value: who set it, and when it expires. */
  datatype Key = Key(token: nat, expiresAt: int)

  /** Where a worker stands; it is inside from its SET until its DELETE (or a GET that is not its own). */
  datatype Phase =
    | Outside
    | Calling(token: nat, since: int)      // the provider call is in flight
    | Releasing(token: nat, since: int)    // the call is over, whatever its outcome
    | Deleting(token: nat, since: int)     // GET has answered with the worker's own token

  /** `nextToken` stands for the random tokens: no two acquisitions share one. */
  datatype State = State(now: int, key: Option<Key>, phases: map<nat, Phase>, nextToken: nat)

  datatype Step =
    | TryAcquire(worker: nat)
    | CallReturns(worker: nat)
    | Get(worker: nat)
    | Delete(worker: nat)
    | Die(worker: nat)
    | Pass(milliseconds: nat)

  function PhaseOf(s: State, w: nat): Phase {
    if w in s.phases then s.phases[w] else Outside
  }

  predicate Held(s: State) {
    s.key.Some? && s.key.value.expiresAt > s.now
  }

  function Next(s: State, step: Step): State {
    match step
    case TryAcquire(w) =>
      if PhaseOf(s, w) != Outside || Held(s) then s
      else State(s.now, Some(Key(s.nextToken, s.now + Throttle.LOCK_TTL)), s.phases[w := Calling(s.nextToken, s.now)],
                 s.nextToken + 1)
    case CallReturns(w) =>
      (match PhaseOf(s, w)
       case Calling(token, since) => s.(phases := s.phases[w := Releasing(token, since)])
       case _ => s)
    case Get(w) =>
      (match PhaseOf(s, w)
       case Releasing(token, since) =>
         if Held(s) && s.key.value.token == token then s.(phases := s.phases[w := Deleting(token, since)])
         else s.(phases := s.phases[w := Outside])
       case _ => s)
    case Delete(w) =>
      (match PhaseOf(s, w)
       case Deleting(_, _) => s.(key := None, phases := s.phases[w := Outside])   // whoever's key it is by now
       case _ => s)
    case Die(w) => s.(phases := s.phases[w := Outside])
    case Pass(ms) => s.(now := s.now + ms)
  }

  function Run(s: State, steps: seq<Step>): State
    decreases steps
  {
    if steps == [] then s else Run(Next(s, steps[0]), steps[1..])
  }

  function Start(now: int): State {
    State(now, None, map[], 0)
  }

  predicate Inside(s: State, w: nat) {
    PhaseOf(s, w) != Outside
  }

  ghost predicate MutualExclusion(s: State) {
    forall w, w' :: Inside(s, w) && Inside(s, w') ==> w == w'
  }

  /** No worker has been inside for more than `hold`. */
  ghost predicate HeldFor(s: State, hold: int) {
    forall w :: Inside(s, w) ==> s.now - PhaseOf(s, w).since <= hold
  }

  ghost predicate HeldForThroughout(s: State, steps: seq<Step>, hold: int)
    decreases steps
  {
    HeldFor(s, hold) && (steps == [] || HeldForThroughout(Next(s, steps[0]), steps[1..], hold))
  }

  /** At most one worker is inside, and it owns the key, as it set it. */
  ghost predicate Owns(s: State) {
    MutualExclusion(s) && forall w :: Inside(s, w) ==> OwnsKey(s, w)
  }

  predicate OwnsKey(s: State, w: nat)
    requires Inside(s, w)
  {
    s.key == Some(Key(PhaseOf(s, w).token, PhaseOf(s, w).since + Throttle.LOCK_TTL))
  }

  lemma NextOwns(s: State, step: Step, hold: int)
    requires Owns(s) && HeldFor(s, hold) && hold < Throttle.LOCK_TTL
    ensures Owns(Next(s, step))
  {
    var s' := Next(s, step);
    forall w | Inside(s, w)
      ensures Held(s) && OwnsKey(s, w)
    {
    }
    forall w | Inside(s', w)
      ensures OwnsKey(s', w)
      ensures Inside(s, w) || (step == TryAcquire(w) && forall v :: !Inside(s, v))
    {
      if !Inside(s, w) {
        assert step == TryAcquire(w) && !Held(s);
      } else if step.Delete? && PhaseOf(s, step.worker).Deleting? {
        assert Inside(s, step.worker);
        assert w == step.worker;
      }
    }
  }

  lemma {:induction false} RunExcludes(s: State, steps: seq<Step>, hold: int)
    requires Owns(s) && HeldForThroughout(s, steps, hold) && hold < Throttle.LOCK_TTL
    ensures MutualExclusion(Run(s, steps))
    decreases steps
  {
    if steps != [] {
      NextOwns(s, steps[0], hold);
      RunExcludes(Next(s, steps[0]), steps[1..], hold);
    }
  }

  ghost predicate SafeWithin(hold: int) {
    forall now, steps :: HeldForThroughout(Start(now), steps, hold) ==> MutualExclusion(Run(Start(now), steps))
  }

  lemma RunOn(s: State, step: Step, rest: seq<Step>)
    ensures Run(s, [step] + rest) == Run(Next(s, step), rest)
  {
    assert ([step] + rest)[1..] == rest;
  }

  /**
   Under every interleaving, and with workers dying, at most one worker is between acquiring and
   releasing, if and only if no worker stays inside as long as the key lives.
   */
  lemma ExclusionIffHeldUnderTtl(hold: int)
    requires hold >= 0
    ensures SafeWithin(hold) <==> hold < Throttle.LOCK_TTL
  {
    if hold < Throttle.LOCK_TTL {
      forall now, steps | HeldForThroughout(Start(now), steps, hold)
        ensures MutualExclusion(Run(Start(now), steps))
      {
        RunExcludes(Start(now), steps, hold);
      }
    } else {
      OverlapAfterExpiry(hold);
    }
  }

  /** A call that outlives the key: the key expires under it and a second worker gets in. */
  lemma OverlapAfterExpiry(hold: int)
    requires hold >= Throttle.LOCK_TTL
    ensures !SafeWithin(hold)
  {
    var s0 := Start(0);
    var steps := [TryAcquire(1), Pass(Throttle.LOCK_TTL), TryAcquire(2)];
    var s1 := Next(s0, TryAcquire(1));
    var s2 := Next(s1, Pass(Throttle.LOCK_TTL));
    var s3 := Next(s2, TryAcquire(2));
    assert steps[1..] == [Pass(Throttle.LOCK_TTL), TryAcquire(2)];
    assert steps[1..][1..] == [TryAcquire(2)];
    assert steps[1..][1..][1..] == [];
    assert s1 == State(0, Some(Key(0, Throttle.LOCK_TTL)), map[1 := Calling(0, 0)], 1);
    assert s3 == State(Throttle.LOCK_TTL, Some(Key(1, 2 * Throttle.LOCK_TTL)),
                       map[1 := Calling(0, 0), 2 := Calling(1, Throttle.LOCK_TTL)], 2);
    assert Run(s0, steps) == Run(s1, steps[1..]) == Run(s2, steps[1..][1..]) == Run(s3, steps[1..][1..][1..]);
    assert HeldForThroughout(s3, [], hold);
    assert HeldForThroughout(s2, [TryAcquire(2)], hold);
    assert HeldForThroughout(s1, [Pass(Throttle.LOCK_TTL), TryAcquire(2)], hold);
    assert HeldForThroughout(s0, steps, hold);
    assert Inside(s3, 1) && Inside(s3, 2);
  }

  // --- A worker that gets out frees the lock ---

  /** A key is the key of a worker that is inside. */
  ghost predicate NoOrphan(s: State) {
    s.key.Some? ==> exists w :: Inside(s, w)
  }

  lemma NextNoOrphan(s: State, step: Step, hold: int)
    requires Owns(s) && NoOrphan(s) && HeldFor(s, hold) && hold < Throttle.LOCK_TTL && !step.Die?
    ensures NoOrphan(Next(s, step))
  {
    var s' := Next(s, step);
    if s'.key.Some? {
      if step.TryAcquire? && s'.nextToken != s.nextToken {
        assert Inside(s', step.worker);
      } else {
        var w :| Inside(s, w);
        assert OwnsKey(s, w);
        assert Inside(s', w);
      }
    }
  }

  lemma {:induction false} RunNoOrphan(s: State, steps: seq<Step>, hold: int)
    requires Owns(s) && NoOrphan(s) && HeldForThroughout(s, steps, hold) && hold < Throttle.LOCK_TTL
    requires forall i :: 0 <= i < |steps| ==> !steps[i].Die?
    ensures Owns(Run(s, steps)) && NoOrphan(Run(s, steps)) && HeldFor(Run(s, steps), hold)
    decreases steps
  {
    if steps != [] {
      NextOwns(s, steps[0], hold);
      NextNoOrphan(s, steps[0], hold);
      RunNoOrphan(Next(s, steps[0]), steps[1..], hold);
    }
  }

  /**
   In every interleaving in which no worker dies inside or overstays, the lock is held exactly
   while some worker is between its acquisition and the end of its release: whatever the outcome of
   its call, a worker that gets out has left the lock free.
   */
  lemma HeldIffSomeoneInside(now: int, steps: seq<Step>, hold: int)
    requires HeldForThroughout(Start(now), steps, hold) && hold < Throttle.LOCK_TTL
    requires forall i :: 0 <= i < |steps| ==> !steps[i].Die?
    ensures Held(Run(Start(now), steps)) <==> exists w :: Inside(Run(Start(now), steps), w)
  {
    RunNoOrphan(Start(now), steps, hold);
    var end := Run(Start(now), steps);
    if w :| Inside(end, w) {
      assert OwnsKey(end, w);
    }
  }

  /** The two-command release, overtaken by expiry, deletes the key of the worker that came after. */
  lemma LateDeleteFreesAnotherWorkersLock()
    ensures exists steps :: var s := Run(Start(0), steps); PhaseOf(s, 2).Calling? && s.key == None
  {
    var rest5 := [Delete(1)];
    var rest4 := [TryAcquire(2)] + rest5;
    var rest3 := [Pass(Throttle.LOCK_TTL)] + rest4;
    var rest2 := [Get(1)] + rest3;
    var rest1 := [CallReturns(1)] + rest2;
    var s1 := Next(Start(0), TryAcquire(1));
    var s2 := Next(s1, CallReturns(1));
    var s3 := Next(s2, Get(1));
    var s4 := Next(s3, Pass(Throttle.LOCK_TTL));
    var s5 := Next(s4, TryAcquire(2));
    RunOn(Start(0), TryAcquire(1), rest1);
    RunOn(s1, CallReturns(1), rest2);
    RunOn(s2, Get(1), rest3);
    RunOn(s3, Pass(Throttle.LOCK_TTL), rest4);
    RunOn(s4, TryAcquire(2), rest5);
    assert PhaseOf(s1, 1) == Calling(0, 0) && PhaseOf(s3, 1) == Deleting(0, 0);
    assert PhaseOf(s5, 2).Calling? && PhaseOf(s5, 1) == Deleting(0, 0);
    RunOn(s5, Delete(1), []);
    assert [Delete(1)] + [] == [Delete(1)];
    var end := Run(Start(0), [TryAcquire(1)] + rest1);
    assert PhaseOf(end, 2).Calling? && end.key == None;
  }

  // --- The lock is always to be had again ---

  /**
   A worker that goes on to the end of its release, or dies, is outside again; one that still owns
   the key frees it.
   */
  lemma WorkersGetOut(s: State, w: nat)
    requires Inside(s, w)
    ensures var end := Run(s, [CallReturns(w), Get(w), Delete(w)]);
            && !Inside(end, w) && !Inside(Next(s, Die(w)), w)
            && (PhaseOf(s, w).Calling? && Held(s) && s.key.value.token == PhaseOf(s, w).token ==> end.key.None?)
            && (PhaseOf(s, w).Calling? && Held(s) && s.key.value.token != PhaseOf(s, w).token ==> end.key == s.key)
  {
    var steps := [CallReturns(w), Get(w), Delete(w)];
    assert steps[1..] == [Get(w), Delete(w)] && steps[1..][1..] == [Delete(w)];
    var s1 := Next(s, CallReturns(w));
    var s2 := Next(s1, Get(w));
    assert Run(s, steps) == Run(s1, [Get(w), Delete(w)]) == Run(s2, [Delete(w)]);
    assert Run(s2, [Delete(w)]) == Run(Next(s2, Delete(w)), []);
  }

  lemma {:induction false} KeyExpiresSoon(s: State, steps: seq<Step>)
    requires s.key.Some? ==> s.key.value.expiresAt <= s.now + 30_000
    ensures var end := Run(s, steps);
            end.key.Some? ==> end.key.value.expiresAt <= end.now + 30_000
    decreases steps
  {
    if steps != [] {
      KeyExpiresSoon(Next(s, steps[0]), steps[1..]);
    }
  }

  /** Whatever happened, workers dead inside included, half a minute later any worker outside gets the lock. */
  lemma LockIsToBeHad(now: int, steps: seq<Step>, w: nat)
    ensures var s := Run(Start(now), steps);
            !Inside(s, w) ==>
              var end := Next(Next(s, Pass(30_000)), TryAcquire(w));
              Inside(end, w) && Held(end) && PhaseOf(end, w) == Calling(end.key.value.token, end.now)
  {
    KeyExpiresSoon(Start(now), steps);
  }
}
