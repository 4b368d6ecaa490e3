/**
 The activation state of a module for a tenant: a row in the database, a short-lived cache in each
 process, explicit invalidation by the process that changes the row. Instants are milliseconds of
 the process's monotonic clock.
 */
module ModuleCache {
  import opened Wrappers

  const STATE_TTL := 10_000

  type Key = (nat, string)   // tenant, module

  datatype Cached = Cached(enabled: bool, until: int)

  datatype ModuleError = UnknownModule | MissingCapabilities(names: set<string>)

  // --- One process, one request at a time ---

  class ModuleService {
    var rows: map<Key, bool>
    var cache: map<Key, Cached>

    constructor (rows: map<Key, bool>)
      ensures this.rows == rows && Coherent()
    {
      this.rows, cache := rows, map[];
    }

    predicate Enabled(key: Key)
      reads this`rows
    {
      key in rows && rows[key]
    }

    /** What is cached is what the rows say. */
    ghost predicate Coherent()
      reads this
    {
      forall key :: key in cache ==> cache[key].enabled == Enabled(key)
    }

    method Invalidate(key: Key)
      modifies this`cache
      ensures cache == old(cache) - {key}
    {
      cache := cache - {key};
    }

    method EnableModule(key: Key, registry: map<string, set<string>>, granted: set<string>)
      returns (error: Option<ModuleError>)
      requires Coherent()
      modifies this
      ensures Coherent()
      ensures error == if key.1 !in registry then Some(UnknownModule)
                       else if registry[key.1] - granted != {} then Some(MissingCapabilities(registry[key.1] - granted))
                       else None
      ensures rows == if error.None? then old(rows)[key := true] else old(rows)
    {
      if key.1 !in registry {
        return Some(UnknownModule);
      }
      var missing := registry[key.1] - granted;
      if missing != {} {
        return Some(MissingCapabilities(missing));
      }
      rows := rows[key := true];
      Invalidate(key);
      return None;
    }

    /** A module that is not enabled is left as it is, row and cache. */
    method DisableModule(key: Key, registry: map<string, set<string>>) returns (error: Option<ModuleError>)
      requires Coherent()
      modifies this
      ensures Coherent()
      ensures error == if key.1 !in registry then Some(UnknownModule) else None
      ensures rows == if error.None? && old(Enabled(key)) then old(rows)[key := false] else old(rows)
      ensures error.None? ==> !Enabled(key)
    {
      if key.1 !in registry {
        return Some(UnknownModule);
      }
      if key !in rows || !rows[key] {
        return None;
      }
      rows := rows[key := false];
      Invalidate(key);
      return None;
    }

    /** Cached or not, the answer is the row's. */
    method IsModuleEnabled(key: Key, now: int) returns (enabled: bool)
      requires Coherent()
      modifies this`cache
      ensures Coherent()
      ensures enabled == Enabled(key)
      ensures if key in old(cache) && old(cache)[key].until > now then cache == old(cache)
              else cache == old(cache)[key := Cached(enabled, now + STATE_TTL)]
    {
      if key in cache && cache[key].until > now {
        return cache[key].enabled;
      }
      enabled := key in rows && rows[key];
      cache := cache[key := Cached(enabled, now + STATE_TTL)];
    }
  }

  // --- Interleaved lookups and changes, for one key ---

  datatype Commit = Commit(at: int, enabled: bool)

  /** A lookup that missed the cache: about to read the row, or holding what it read. */
  datatype Lookup = Asked(since: int) | HasRead(since: int, enabled: bool)

  datatype Answer = Answer(asked: int, answered: int, enabled: bool)

  /** `log` and `answers` are history: the row's committed values, and what lookups returned. */
  datatype State = State(now: int, log: seq<Commit>, cache: Option<Cached>, lookups: map<nat, Lookup>,
                         answers: seq<Answer>)

  datatype Step =
    | Ask(lookup: nat)
    | ReadRow(lookup: nat)
    | Store(lookup: nat)
    | Change(enabled: bool)   // a commit by this process or another
    | Drop                    // the invalidation that follows a commit of this process, some time later
    | Pass(milliseconds: nat)

  function Start(now: int, enabled: bool): State {
    State(now, [Commit(now, enabled)], None, map[], [])
  }

  function Next(s: State, step: Step): State
    requires s.log != []
    ensures Next(s, step).log != []
  {
    match step
    case Ask(id) =>
      if s.cache.Some? && s.cache.value.until > s.now then
        s.(answers := s.answers + [Answer(s.now, s.now, s.cache.value.enabled)])
      else s.(lookups := s.lookups[id := Asked(s.now)])
    case ReadRow(id) =>
      if id in s.lookups && s.lookups[id].Asked? then
        s.(lookups := s.lookups[id := HasRead(s.lookups[id].since, s.log[|s.log| - 1].enabled)])
      else s
    case Store(id) =>
      if id in s.lookups && s.lookups[id].HasRead? then
        var l := s.lookups[id];
        s.(cache := Some(Cached(l.enabled, l.since + STATE_TTL)), lookups := s.lookups - {id},
           answers := s.answers + [Answer(l.since, s.now, l.enabled)])
      else s
    case Change(enabled) => s.(log := s.log + [Commit(s.now, enabled)])
    case Drop => s.(cache := None)
    case Pass(ms) => s.(now := s.now + ms)
  }

  function Run(s: State, steps: seq<Step>): State
    requires s.log != []
    decreases steps
  {
    if steps == [] then s else Run(Next(s, steps[0]), steps[1..])
  }

  /** The `i`th commit set this value, and it was still the committed one at the instant. */
  predicate StandsAt(log: seq<Commit>, i: nat, enabled: bool, instant: int) {
    && i < |log| && log[i].enabled == enabled && log[i].at <= instant
    && (i + 1 < |log| ==> instant <= log[i + 1].at)
  }

  /** The value was the committed one at some instant of the interval. */
  ghost predicate CommittedWithin(log: seq<Commit>, enabled: bool, from: int, to: int) {
    exists i, instant :: from <= instant <= to && StandsAt(log, i, enabled, instant)
  }

  /** Every answer is at most `bound` older than its question. */
  ghost predicate FreshWithin(s: State, bound: int) {
    forall i :: 0 <= i < |s.answers| ==>
      CommittedWithin(s.log, s.answers[i].enabled, s.answers[i].asked - bound + 1, s.answers[i].answered)
  }

  ghost predicate Inductive(s: State) {
    && s.log != [] && s.log[|s.log| - 1].at <= s.now
    && FreshWithin(s, STATE_TTL)
    && (forall i :: 0 <= i < |s.answers| ==> s.answers[i].answered <= s.now)
    && (s.cache.Some? ==> CommittedWithin(s.log, s.cache.value.enabled, s.cache.value.until - STATE_TTL, s.now))
    && (forall id :: id in s.lookups ==>
          s.lookups[id].since <= s.now
          && (s.lookups[id].HasRead? ==> CommittedWithin(s.log, s.lookups[id].enabled, s.lookups[id].since, s.now)))
  }

  lemma CommittedGrows(log: seq<Commit>, commit: Commit, enabled: bool, from: int, to: int)
    requires CommittedWithin(log, enabled, from, to) && to <= commit.at
    ensures CommittedWithin(log + [commit], enabled, from, to)
  {
    var i, instant :| from <= instant <= to && StandsAt(log, i, enabled, instant);
    assert StandsAt(log + [commit], i, enabled, instant);
  }

  lemma CommittedWidens(log: seq<Commit>, enabled: bool, from: int, to: int, from': int, to': int)
    requires CommittedWithin(log, enabled, from, to) && from' <= from && to <= to'
    ensures CommittedWithin(log, enabled, from', to')
  {
    var i, instant :| from <= instant <= to && StandsAt(log, i, enabled, instant);
    assert StandsAt(log, i, enabled, instant);
  }

  lemma AnswerFresh(s: State, s': State, a: Answer)
    requires Inductive(s) && s' == s.(answers := s.answers + [a], cache := s'.cache, lookups := s'.lookups)
    requires CommittedWithin(s.log, a.enabled, a.asked - STATE_TTL + 1, a.answered) && a.answered == s.now
    ensures FreshWithin(s', STATE_TTL) && forall i :: 0 <= i < |s'.answers| ==> s'.answers[i].answered <= s'.now
  {
  }

  lemma AskInductive(s: State, id: nat)
    requires Inductive(s)
    ensures Inductive(Next(s, Ask(id)))
  {
    if s.cache.Some? && s.cache.value.until > s.now {
      var c := s.cache.value;
      CommittedWidens(s.log, c.enabled, c.until - STATE_TTL, s.now, s.now - STATE_TTL + 1, s.now);
      AnswerFresh(s, Next(s, Ask(id)), Answer(s.now, s.now, c.enabled));
    }
  }

  lemma ReadInductive(s: State, id: nat)
    requires Inductive(s)
    ensures Inductive(Next(s, ReadRow(id)))
  {
    if id in s.lookups {
      assert StandsAt(s.log, |s.log| - 1, s.log[|s.log| - 1].enabled, s.now);
    }
  }

  lemma StoreInductive(s: State, id: nat)
    requires Inductive(s)
    ensures Inductive(Next(s, Store(id)))
  {
    if id in s.lookups && s.lookups[id].HasRead? {
      var l := s.lookups[id];
      CommittedWidens(s.log, l.enabled, l.since, s.now, l.since - STATE_TTL + 1, s.now);
      AnswerFresh(s, Next(s, Store(id)), Answer(l.since, s.now, l.enabled));
    }
  }

  lemma ChangeInductive(s: State, enabled: bool)
    requires Inductive(s)
    ensures Inductive(Next(s, Change(enabled)))
  {
    var commit := Commit(s.now, enabled);
    forall v, from, to | CommittedWithin(s.log, v, from, to) && to <= s.now
      ensures CommittedWithin(s.log + [commit], v, from, to)
    {
      CommittedGrows(s.log, commit, v, from, to);
    }
  }

  lemma PassInductive(s: State, ms: nat)
    requires Inductive(s)
    ensures Inductive(Next(s, Pass(ms)))
  {
    forall v, from | CommittedWithin(s.log, v, from, s.now)
      ensures CommittedWithin(s.log, v, from, s.now + ms)
    {
      CommittedWidens(s.log, v, from, s.now, from, s.now + ms);
    }
  }

  lemma {:induction false} RunInductive(s: State, steps: seq<Step>)
    requires Inductive(s)
    ensures Inductive(Run(s, steps))
    decreases steps
  {
    if steps != [] {
      match steps[0] {
        case Ask(id) => AskInductive(s, id);
        case ReadRow(id) => ReadInductive(s, id);
        case Store(id) => StoreInductive(s, id);
        case Change(enabled) => ChangeInductive(s, enabled);
        case Drop =>
        case Pass(ms) => PassInductive(s, ms);
      }
      RunInductive(Next(s, steps[0]), steps[1..]);
    }
  }

  ghost predicate AlwaysFreshWithin(bound: int) {
    forall now, enabled, steps :: FreshWithin(Run(Start(now, enabled), steps), bound)
  }

  /**
   Whatever the interleaving, with other processes committing at will, an answer is a value that
   was committed less than ten seconds before the question or later; no smaller bound holds.
   */
  lemma StalenessBoundIsTheTtl(bound: int)
    ensures AlwaysFreshWithin(bound) <==> bound >= STATE_TTL
  {
    if bound >= STATE_TTL {
      forall now, enabled, steps
        ensures FreshWithin(Run(Start(now, enabled), steps), bound)
      {
        RunInductive(Start(now, enabled), steps);
        var end := Run(Start(now, enabled), steps);
        forall i | 0 <= i < |end.answers|
          ensures CommittedWithin(end.log, end.answers[i].enabled, end.answers[i].asked - bound + 1,
                                  end.answers[i].answered)
        {
          var a := end.answers[i];
          CommittedWidens(end.log, a.enabled, a.asked - STATE_TTL + 1, a.answered, a.asked - bound + 1, a.answered);
        }
      }
    } else {
      StaleAnswer(bound);
    }
  }

  /** A row read, changed at once by another process, cached, and asked for just before the entry expires. */
  lemma StaleAnswer(bound: int)
    requires bound < STATE_TTL
    ensures !AlwaysFreshWithin(bound)
  {
    var steps := [Ask(1), ReadRow(1), Change(true), Store(1), Pass(STATE_TTL - 1), Ask(2)];
    var s0 := Start(0, false);
    var s1 := Next(s0, Ask(1));
    var s2 := Next(s1, ReadRow(1));
    var s3 := Next(s2, Change(true));
    var s4 := Next(s3, Store(1));
    var s5 := Next(s4, Pass(STATE_TTL - 1));
    var s6 := Next(s5, Ask(2));
    assert steps[1..] == [ReadRow(1), Change(true), Store(1), Pass(STATE_TTL - 1), Ask(2)];
    assert steps[1..][1..] == [Change(true), Store(1), Pass(STATE_TTL - 1), Ask(2)];
    assert steps[1..][1..][1..] == [Store(1), Pass(STATE_TTL - 1), Ask(2)];
    assert Run(s0, steps) == Run(s1, steps[1..]) == Run(s2, steps[1..][1..]);
    assert Run(s0, steps) == Run(s3, [Store(1), Pass(STATE_TTL - 1), Ask(2)]);
    assert [Store(1), Pass(STATE_TTL - 1), Ask(2)][1..] == [Pass(STATE_TTL - 1), Ask(2)];
    assert [Pass(STATE_TTL - 1), Ask(2)][1..] == [Ask(2)];
    assert Run(s3, [Store(1), Pass(STATE_TTL - 1), Ask(2)]) == Run(s5, [Ask(2)]) == s6;
    assert s3.log == [Commit(0, false), Commit(0, true)];
    assert s6.answers[1] == Answer(STATE_TTL - 1, STATE_TTL - 1, false);
    assert !CommittedWithin(s6.log, false, STATE_TTL - 1 - bound + 1, STATE_TTL - 1);
    assert !FreshWithin(s6, bound);
  }

  // --- What an invalidation is good for ---

  /** Every answer from the `n`th on is a value that was committed at or after an instant. */
  ghost predicate AnswersSince(s: State, instant: int, n: nat) {
    forall i :: n <= i < |s.answers| ==> CommittedWithin(s.log, s.answers[i].enabled, instant, s.answers[i].answered)
  }

  /** No lookup holds a value it read that is no longer the committed one. */
  ghost predicate NoneHoldsOld(s: State)
    requires s.log != []
  {
    forall id :: id in s.lookups && s.lookups[id].HasRead? ==> s.lookups[id].enabled == s.log[|s.log| - 1].enabled
  }

  /** Nothing that could still be answered is older than the instant. */
  ghost predicate NothingOlder(s: State, instant: int, n: nat) {
    && Inductive(s) && instant <= s.now && AnswersSince(s, instant, n) && n <= |s.answers|
    && (s.cache.Some? ==> CommittedWithin(s.log, s.cache.value.enabled, instant, s.now))
    && (forall id :: id in s.lookups && s.lookups[id].HasRead? ==>
          CommittedWithin(s.log, s.lookups[id].enabled, instant, s.now))
  }

  lemma NextInductive(s: State, step: Step)
    requires Inductive(s)
    ensures Inductive(Next(s, step))
  {
    RunInductive(s, [step]);
    assert [step][1..] == [] && Run(s, [step]) == Run(Next(s, step), []);
  }

  lemma NextNothingOlder(s: State, step: Step, instant: int, n: nat)
    requires NothingOlder(s, instant, n)
    ensures NothingOlder(Next(s, step), instant, n)
  {
    var s' := Next(s, step);
    NextInductive(s, step);
    match step
    case ReadRow(id) =>
      assert StandsAt(s.log, |s.log| - 1, s.log[|s.log| - 1].enabled, s.now);
    case Change(enabled) =>
      forall v, to | CommittedWithin(s.log, v, instant, to) && to <= s.now
        ensures CommittedWithin(s'.log, v, instant, to)
      {
        CommittedGrows(s.log, Commit(s.now, enabled), v, instant, to);
      }
    case Pass(ms) =>
      forall v | CommittedWithin(s.log, v, instant, s.now)
        ensures CommittedWithin(s.log, v, instant, s.now + ms)
      {
        CommittedWidens(s.log, v, instant, s.now, instant, s.now + ms);
      }
    case _ =>
  }

  lemma {:induction false} RunNothingOlder(s: State, steps: seq<Step>, instant: int, n: nat)
    requires NothingOlder(s, instant, n)
    ensures NothingOlder(Run(s, steps), instant, n)
    decreases steps
  {
    if steps != [] {
      NextNothingOlder(s, steps[0], instant, n);
      RunNothingOlder(Next(s, steps[0]), steps[1..], instant, n);
    }
  }

  ghost predicate CutsStaleness(s: State)
    requires s.log != []
  {
    forall steps :: AnswersSince(Run(Next(s, Drop), steps), s.now, |s.answers|)
  }

  /** The commits are in the order of their instants. */
  ghost predicate Ordered(log: seq<Commit>) {
    forall i, j :: 0 <= i < j < |log| ==> log[i].at <= log[j].at
  }

  lemma {:induction false} RunOrdered(s: State, steps: seq<Step>)
    requires s.log != [] && Ordered(s.log) && s.log[|s.log| - 1].at <= s.now
    ensures Ordered(Run(s, steps).log)
    decreases steps
  {
    if steps != [] {
      RunOrdered(Next(s, steps[0]), steps[1..]);
    }
  }

  lemma HeldValueComesBack(s: State, id: nat)
    requires s.log != [] && Ordered(s.log) && s.log[|s.log| - 1].at < s.now
    requires id in s.lookups && s.lookups[id].HasRead?
    requires s.lookups[id].enabled != s.log[|s.log| - 1].enabled
    ensures !CutsStaleness(s)
  {
    var dropped, steps := Next(s, Drop), [Store(id)];
    assert steps[1..] == [];
    var end := Run(dropped, steps);
    assert end == Run(Next(dropped, Store(id)), []);
    var v := s.lookups[id].enabled;
    assert end.answers[|s.answers|] == Answer(s.lookups[id].since, s.now, v);
    if CommittedWithin(end.log, v, s.now, s.now) {
      var i, instant :| s.now <= instant <= s.now && StandsAt(end.log, i, v, instant);
    }
    assert !AnswersSince(end, s.now, |s.answers|);
  }

  /**
   In every run, an invalidation some time after the last commit makes every later answer of its
   process a value committed at that instant or later, whatever happens, if and only if no lookup in
   flight holds an older value.
   */
  lemma InvalidationCutsIff(now: int, enabled: bool, steps: seq<Step>)
    ensures var s := Run(Start(now, enabled), steps);
            s.log != [] && (s.log[|s.log| - 1].at < s.now ==> (CutsStaleness(s) <==> NoneHoldsOld(s)))
  {
    RunInductive(Start(now, enabled), steps);
    RunOrdered(Start(now, enabled), steps);
    var s := Run(Start(now, enabled), steps);
    if s.log[|s.log| - 1].at < s.now {
      if NoneHoldsOld(s) {
        CutsWhenNoneHolds(s);
      } else {
        var id :| id in s.lookups && s.lookups[id].HasRead? && s.lookups[id].enabled != s.log[|s.log| - 1].enabled;
        HeldValueComesBack(s, id);
      }
    }
  }

  lemma CutsWhenNoneHolds(s: State)
    requires Inductive(s) && NoneHoldsOld(s)
    ensures CutsStaleness(s)
  {
    var dropped := Next(s, Drop);
    NextInductive(s, Drop);
    assert StandsAt(s.log, |s.log| - 1, s.log[|s.log| - 1].enabled, s.now);
    assert NothingOlder(dropped, s.now, |s.answers|);
    forall steps
      ensures AnswersSince(Run(dropped, steps), s.now, |s.answers|)
    {
      RunNothingOlder(dropped, steps, s.now, |s.answers|);
    }
  }
}
