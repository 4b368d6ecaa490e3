/**
 The AI usage ledger: raw events, the daily aggregates recomputed from them, and the purge of raw
 events past their retention. Instants are seconds; a day is a UTC day.
 */
module UsageLedger {
  import opened UsagePricing

  const DAY := 86_400

  function DayOf(at: int): int {
    at / DAY
  }

  datatype Status = OK | ERROR | TIMEOUT

  datatype UsageEvent = UsageEvent(
    at: int, tenant: nat, provider: string, model: string, usage: TokenUsage, cost: int, status: Status)

  datatype Key = Key(day: int, tenant: nat, provider: string, model: string)

  datatype Totals = Totals(input: int, output: int, cached: int, requests: nat, errors: nat, cost: int)

  function KeyOf(e: UsageEvent): Key {
    Key(DayOf(e.at), e.tenant, e.provider, e.model)
  }

  /** The sums and counts of the events of one group. */
  function SumOf(events: seq<UsageEvent>, key: Key): Totals {
    if events == [] then Totals(0, 0, 0, 0, 0, 0)
    else
      var rest := SumOf(events[1..], key);
      if KeyOf(events[0]) != key then rest
      else
        var e := events[0];
        Totals(e.usage.input + rest.input, e.usage.output + rest.output, e.usage.cached + rest.cached,
               rest.requests + 1, rest.errors + (if e.status.OK? then 0 else 1), e.cost + rest.cost)
  }

  /** The groups that have at least one event on a day. */
  function GroupsOn(events: seq<UsageEvent>, day: int): set<Key> {
    set e | e in events && DayOf(e.at) == day :: KeyOf(e)
  }

  /** The aggregate table after a day has been aggregated: present groups are set, nothing else moves. */
  function Aggregated(daily: map<Key, Totals>, events: seq<UsageEvent>, day: int): map<Key, Totals> {
    Upserted(daily, events, GroupsOn(events, day))
  }

  function Upserted(daily: map<Key, Totals>, events: seq<UsageEvent>, keys: set<Key>): map<Key, Totals> {
    daily + map key | key in keys :: SumOf(events, key)
  }

  lemma UpsertOne(daily: map<Key, Totals>, events: seq<UsageEvent>, keys: set<Key>, key: Key)
    ensures Upserted(daily, events, keys)[key := SumOf(events, key)] == Upserted(daily, events, keys + {key})
  {
  }

  function NotBefore(events: seq<UsageEvent>, cutoff: int): seq<UsageEvent> {
    if events == [] then []
    else (if events[0].at >= cutoff then [events[0]] else []) + NotBefore(events[1..], cutoff)
  }

  class UsageStore {
    var events: seq<UsageEvent>
    var daily: map<Key, Totals>

    constructor ()
      ensures events == [] && daily == map[]
    {
      events, daily := [], map[];
    }

    /** Best effort: a failed insertion is logged and swallowed. */
    method RecordUsage(e: UsageEvent, insertFails: bool)
      modifies this`events
      ensures events == if insertFails then old(events) else old(events) + [e]
    {
      if !insertFails {
        events := events + [e];
      }
    }

    /** One upsert per group of the day; the values set are recomputed sums, not increments. */
    method AggregateDay(day: int) returns (written: nat)
      modifies this`daily
      ensures daily == Aggregated(old(daily), events, day)
      ensures written == |GroupsOn(events, day)|
    {
      var pending := GroupsOn(events, day);
      ghost var groups, before := pending, daily;
      written := 0;
      while pending != {}
        invariant pending <= groups && written == |groups| - |pending|
        invariant daily == Upserted(before, events, groups - pending)
        decreases pending
      {
        var key :| key in pending;
        var values := SumOf(events, key);
        UpsertOne(before, events, groups - pending, key);
        assert groups - pending + {key} == groups - (pending - {key});
        daily := daily[key := values];
        pending := pending - {key};
        written := written + 1;
      }
      assert groups - pending == groups;
    }

    method PurgeRawEvents(now: int, retentionDays: int) returns (purged: nat)
      modifies this`events
      ensures events == NotBefore(old(events), now - retentionDays * DAY)
      ensures purged == |old(events)| - |events|
    {
      var cutoff := now - retentionDays * DAY;
      var kept := NotBefore(events, cutoff);
      KeptLength(events, cutoff);
      purged := |events| - |kept|;
      events := kept;
    }
  }

  lemma KeptLength(events: seq<UsageEvent>, cutoff: int)
    ensures |NotBefore(events, cutoff)| <= |events|
  {
  }

  // --- Runs ---

  /**
   `unpurged` counts the daily tasks that have aggregated and not come to their purge yet.
   `recorded` and `rolledUp` are history: every event ever inserted, every day ever aggregated.
   */
  datatype State = State(now: int, events: seq<UsageEvent>, daily: map<Key, Totals>, unpurged: nat,
                         recorded: seq<UsageEvent>, rolledUp: set<int>)

  /**
   One metered call, one part of the daily task, which aggregates and then purges or dies before
   that, or time passing.
   */
  datatype Step =
    | Call(tenant: nat, provider: string, model: string, usage: TokenUsage, status: Status, insertFails: bool)
    | AggregateYesterday
    | Purge
    | TaskDies
    | Wait(seconds: nat)

  function EventOf(s: State, c: Step): UsageEvent
    requires c.Call?
  {
    UsageEvent(s.now, c.tenant, c.provider, c.model, c.usage, EstimateCost(c.provider, c.model, c.usage), c.status)
  }

  function Next(s: State, step: Step, retentionDays: int): State {
    match step
    case Call(_, _, _, _, _, insertFails) =>
      if insertFails then s
      else s.(events := s.events + [EventOf(s, step)], recorded := s.recorded + [EventOf(s, step)])
    case AggregateYesterday =>
      var day := DayOf(s.now) - 1;
      s.(daily := Aggregated(s.daily, s.events, day), unpurged := s.unpurged + 1, rolledUp := s.rolledUp + {day})
    case Purge =>
      if s.unpurged == 0 then s
      else s.(events := NotBefore(s.events, s.now - retentionDays * DAY), unpurged := s.unpurged - 1)
    case TaskDies => if s.unpurged == 0 then s else s.(unpurged := s.unpurged - 1)
    case Wait(seconds) => s.(now := s.now + seconds)
  }

  function Run(s: State, steps: seq<Step>, retentionDays: int): State
    decreases steps
  {
    if steps == [] then s else Run(Next(s, steps[0], retentionDays), steps[1..], retentionDays)
  }

  function Start(now: int): State {
    State(now, [], map[], 0, [], {})
  }

  ghost predicate Recorded(recorded: seq<UsageEvent>, key: Key) {
    exists e :: e in recorded && KeyOf(e) == key
  }

  /** Each aggregated day holds, for exactly the groups that had calls, the sums over all events ever recorded. */
  ghost predicate Conserved(s: State) {
    && (forall key :: key in s.daily ==> key.day in s.rolledUp)
    && (forall key: Key :: key.day in s.rolledUp ==>
          && (key in s.daily <==> Recorded(s.recorded, key))
          && (key in s.daily ==> s.daily[key] == SumOf(s.recorded, key)))
  }

  /** What makes conservation inductive: raw events are the recorded ones since some instant before yesterday. */
  ghost predicate Inductive(s: State, horizon: int) {
    && Conserved(s)
    && s.events == NotBefore(s.recorded, horizon)
    && horizon <= (DayOf(s.now) - 1) * DAY
    && (forall e :: e in s.recorded ==> e.at <= s.now)
    && (forall day :: day in s.rolledUp ==> day < DayOf(s.now))
  }

  lemma {:induction false} SumAppend(a: seq<UsageEvent>, e: UsageEvent, key: Key)
    ensures KeyOf(e) != key ==> SumOf(a + [e], key) == SumOf(a, key)
    decreases |a|
  {
    if a == [] {
      assert a + [e] == [e] && [e][1..] == [];
    } else {
      assert (a + [e])[1..] == a[1..] + [e];
      SumAppend(a[1..], e, key);
    }
  }

  function Plus(a: Totals, b: Totals): Totals {
    Totals(a.input + b.input, a.output + b.output, a.cached + b.cached, a.requests + b.requests, a.errors + b.errors,
           a.cost + b.cost)
  }

  /** One event counts for its own group, with its tokens and cost, and as an error unless it succeeded. */
  lemma SumOfOne(e: UsageEvent, key: Key)
    ensures SumOf([e], key)
            == if KeyOf(e) != key then Totals(0, 0, 0, 0, 0, 0)
               else Totals(e.usage.input, e.usage.output, e.usage.cached, 1, if e.status == OK then 0 else 1, e.cost)
  {
    assert [e][1..] == [];
  }

  lemma SumsFirst(e: UsageEvent, rest: seq<UsageEvent>, key: Key)
    ensures SumOf([e] + rest, key) == Plus(SumOf([e], key), SumOf(rest, key))
  {
    SumOfOne(e, key);
    assert ([e] + rest)[1..] == rest;
  }

  lemma PlusAssociates(a: Totals, b: Totals, c: Totals)
    ensures Plus(Plus(a, b), c) == Plus(a, Plus(b, c))
  {
  }

  /** The sums of two runs of events together are the sums of each, added up. */
  lemma {:induction false} SumsAdd(a: seq<UsageEvent>, b: seq<UsageEvent>, key: Key)
    ensures SumOf(a + b, key) == Plus(SumOf(a, key), SumOf(b, key))
    decreases |a|
  {
    if a == [] {
      assert a + b == b;
    } else {
      var e, rest := a[0], a[1..];
      assert a == [e] + rest && a + b == [e] + (rest + b);
      SumsFirst(e, rest, key);
      SumsFirst(e, rest + b, key);
      SumsAdd(rest, b, key);
      PlusAssociates(SumOf([e], key), SumOf(rest, key), SumOf(b, key));
    }
  }

  lemma {:induction false} NotBeforeAppend(a: seq<UsageEvent>, e: UsageEvent, cutoff: int)
    requires e.at >= cutoff
    ensures NotBefore(a + [e], cutoff) == NotBefore(a, cutoff) + [e]
    decreases |a|
  {
    if a == [] {
      assert a + [e] == [e] && [e][1..] == [];
    } else {
      assert (a + [e])[1..] == a[1..] + [e];
      NotBeforeAppend(a[1..], e, cutoff);
      var rest := NotBefore(a[1..], cutoff);
      assert NotBefore((a + [e])[1..], cutoff) == rest + [e];
      if a[0].at >= cutoff {
        assert [a[0]] + (rest + [e]) == ([a[0]] + rest) + [e];
      }
    }
  }

  lemma {:induction false} NotBeforeTwice(events: seq<UsageEvent>, h: int, cutoff: int)
    ensures NotBefore(NotBefore(events, h), cutoff) == NotBefore(events, if h < cutoff then cutoff else h)
    decreases |events|
  {
    if events != [] {
      NotBeforeTwice(events[1..], h, cutoff);
      if events[0].at >= h {
        assert NotBefore(events, h)[1..] == NotBefore(events[1..], h);
      } else {
        assert NotBefore(events, h) == NotBefore(events[1..], h);
      }
    }
  }

  /** Dropping events from before a day leaves the sums and the groups of that day as they were. */
  lemma {:induction false} RecentSumsKept(events: seq<UsageEvent>, h: int, key: Key)
    requires h <= key.day * DAY
    ensures SumOf(NotBefore(events, h), key) == SumOf(events, key)
    ensures Recorded(NotBefore(events, h), key) <==> Recorded(events, key)
    decreases |events|
  {
    if events != [] {
      RecentSumsKept(events[1..], h, key);
      var kept := NotBefore(events[1..], h);
      if events[0].at >= h {
        assert NotBefore(events, h)[1..] == kept;
      } else {
        assert NotBefore(events, h) == kept;
        assert KeyOf(events[0]).day < key.day;
      }
      assert forall e :: e in events <==> e == events[0] || e in events[1..];
    }
  }

  lemma NextInductive(s: State, horizon: int, step: Step, retentionDays: int) returns (horizon': int)
    requires Inductive(s, horizon) && retentionDays >= 2
    ensures Inductive(Next(s, step, retentionDays), horizon')
  {
    horizon' := horizon;
    match step
    case Call(_, _, _, _, _, insertFails) =>
      if !insertFails {
        CallInductive(s, horizon, EventOf(s, step));
      }
    case AggregateYesterday => AggregateInductive(s, horizon);
    case Purge =>
      var cutoff := s.now - retentionDays * DAY;
      NotBeforeTwice(s.recorded, horizon, cutoff);
      horizon' := if s.unpurged > 0 && horizon < cutoff then cutoff else horizon;
    case TaskDies =>
    case Wait(seconds) =>
      assert DayOf(s.now) <= DayOf(s.now + seconds);
  }

  lemma CallInductive(s: State, horizon: int, e: UsageEvent)
    requires Inductive(s, horizon) && e.at == s.now
    ensures Inductive(s.(events := s.events + [e], recorded := s.recorded + [e]), horizon)
  {
    NotBeforeAppend(s.recorded, e, horizon);
    forall key: Key | key.day in s.rolledUp
      ensures SumOf(s.recorded + [e], key) == SumOf(s.recorded, key)
      ensures Recorded(s.recorded + [e], key) <==> Recorded(s.recorded, key)
    {
      assert KeyOf(e).day == DayOf(s.now) != key.day;
      SumAppend(s.recorded, e, key);
      assert forall x :: x in s.recorded + [e] <==> x in s.recorded || x == e;
    }
  }

  lemma AggregateInductive(s: State, horizon: int)
    requires Inductive(s, horizon)
    ensures Inductive(Next(s, AggregateYesterday, 2), horizon)
  {
    var day := DayOf(s.now) - 1;
    var s' := Next(s, AggregateYesterday, 2);
    forall key: Key | key.day in s'.rolledUp
      ensures key in s'.daily <==> Recorded(s.recorded, key)
      ensures key in s'.daily ==> s'.daily[key] == SumOf(s.recorded, key)
    {
      AggregatedRight(s, horizon, day, key);
    }
  }

  lemma AggregatedRight(s: State, horizon: int, day: int, key: Key)
    requires Conserved(s) && s.events == NotBefore(s.recorded, horizon) && horizon <= day * DAY
    requires key.day in s.rolledUp + {day}
    ensures var after := Aggregated(s.daily, s.events, day);
            (key in after <==> Recorded(s.recorded, key)) && (key in after ==> after[key] == SumOf(s.recorded, key))
  {
    AggregatedRow(s.daily, s.events, day, key);
    if key.day == day {
      RecentSumsKept(s.recorded, horizon, key);
    }
  }

  lemma AggregatedRow(daily: map<Key, Totals>, events: seq<UsageEvent>, day: int, key: Key)
    ensures var after := Aggregated(daily, events, day);
            if key.day == day && Recorded(events, key) then key in after && after[key] == SumOf(events, key)
            else (key in after <==> key in daily) && (key in after ==> after[key] == daily[key])
  {
    assert key in GroupsOn(events, day) <==> key.day == day && Recorded(events, key);
  }

  lemma {:induction false} RunInductive(s: State, horizon: int, steps: seq<Step>, retentionDays: int)
    returns (horizon': int)
    requires Inductive(s, horizon) && retentionDays >= 2
    ensures Inductive(Run(s, steps, retentionDays), horizon')
    decreases steps
  {
    horizon' := horizon;
    if steps != [] {
      horizon' := NextInductive(s, horizon, steps[0], retentionDays);
      horizon' := RunInductive(Next(s, steps[0], retentionDays), horizon', steps[1..], retentionDays);
    }
  }

  lemma StartInductive(now: int)
    ensures Inductive(Start(now), (DayOf(now) - 1) * DAY)
  {
  }

  // --- Conservation, and when it fails ---

  ghost predicate AlwaysConserved(retentionDays: int) {
    forall now, steps :: Conserved(Run(Start(now), steps, retentionDays))
  }

  /**
   Whatever the calls, failed insertions, replays and purges, and however they interleave, every
   day that was aggregated keeps the sums of all its events, if and only if the retention is at
   least two days.
   */
  lemma ConservationIffTwoDays(retentionDays: int)
    ensures AlwaysConserved(retentionDays) <==> retentionDays >= 2
  {
    if retentionDays >= 2 {
      forall now, steps
        ensures Conserved(Run(Start(now), steps, retentionDays))
      {
        StartInductive(now);
        var _ := RunInductive(Start(now), (DayOf(now) - 1) * DAY, steps, retentionDays);
      }
    } else {
      var first := EventOf(Start(0), ONE_CALL);
      if retentionDays == 1 {
        LostWithOneDay(first, first.(at := 10));
      } else {
        LostWithoutRetention(first, first.(at := 10), retentionDays);
      }
    }
  }

  const ONE_TOKEN := TokenUsage(1, 0, 0)
  const ONE_CALL := Call(0, "mistral", "mistral-embed", ONE_TOKEN, OK, false)

  lemma RunOn(s: State, step: Step, rest: seq<Step>, retentionDays: int)
    ensures Run(s, [step] + rest, retentionDays) == Run(Next(s, step, retentionDays), rest, retentionDays)
  {
    assert ([step] + rest)[1..] == rest;
  }

  /** One daily task from beginning to end. */
  const ROLLUP := [AggregateYesterday, Purge]

  lemma RunRollup(s: State, rest: seq<Step>, retentionDays: int)
    ensures Run(s, ROLLUP + rest, retentionDays)
            == Run(Next(Next(s, AggregateYesterday, retentionDays), Purge, retentionDays), rest, retentionDays)
  {
    RunOn(s, AggregateYesterday, [Purge] + rest, retentionDays);
    RunOn(Next(s, AggregateYesterday, retentionDays), Purge, rest, retentionDays);
    assert ROLLUP + rest == [AggregateYesterday] + ([Purge] + rest);
  }

  /** Two calls on day 0, of which only the second is still there when a task aggregates day 0. */
  lemma HalfPurgedDayIsLost(s: State, first: UsageEvent, second: UsageEvent, retentionDays: int)
    requires s.events == [second] && s.recorded == [first, second]
    requires KeyOf(first) == KeyOf(second) && DayOf(second.at) == 0 && DayOf(s.now) == 1
    ensures !Conserved(Run(s, ROLLUP, retentionDays))
  {
    var key := KeyOf(second);
    var end := Next(s, AggregateYesterday, retentionDays);
    RunRollup(s, [], retentionDays);
    assert ROLLUP + [] == ROLLUP;
    assert second in s.events && key in GroupsOn(s.events, 0);
    assert [second][1..] == [] && [first, second][1..] == [second];
    assert end.daily[key] == SumOf([second], key) && SumOf([second], key).requests == 1;
    assert SumOf([first, second], key).requests == 2;
  }

  lemma CallLater(s: State, seconds: nat, rest: seq<Step>, retentionDays: int)
    ensures Run(s, [Wait(seconds)] + ([ONE_CALL] + rest), retentionDays)
            == Run(Next(s.(now := s.now + seconds), ONE_CALL, retentionDays), rest, retentionDays)
  {
    RunOn(s, Wait(seconds), [ONE_CALL] + rest, retentionDays);
    RunOn(s.(now := s.now + seconds), ONE_CALL, rest, retentionDays);
  }

  /** Two calls ten seconds apart. */
  lemma TwoCalls(first: UsageEvent, second: UsageEvent, rest: seq<Step>, retentionDays: int)
    requires first == EventOf(Start(0), ONE_CALL) && second == first.(at := 10)
    ensures Run(Start(0), [ONE_CALL] + ([Wait(10)] + ([ONE_CALL] + rest)), retentionDays)
            == Run(State(10, [first, second], map[], 0, [first, second], {}), rest, retentionDays)
  {
    var s1 := State(0, [first], map[], 0, [first], {});
    RunOn(Start(0), ONE_CALL, [Wait(10)] + ([ONE_CALL] + rest), retentionDays);
    assert [] + [first] == [first];
    CallLater(s1, 10, rest, retentionDays);
    assert [first] + [second] == [first, second];
  }

  lemma ReplayLoses(s: State, first: UsageEvent, second: UsageEvent)
    requires s.now == DAY + 5 && s.events == [first, second] && s.recorded == [first, second]
    requires first.at == 0 && second == first.(at := 10)
    ensures !Conserved(Run(s, ROLLUP + ROLLUP, 1))
  {
    RunRollup(s, ROLLUP, 1);
    PurgeFirst(first, second, 5);
    HalfPurgedDayIsLost(Next(Next(s, AggregateYesterday, 1), Purge, 1), first, second, 1);
  }

  /**
   A retention of one day: the task's own purge takes the early calls, and the replayed task
   overwrites the complete row.
   */
  lemma LostWithOneDay(first: UsageEvent, second: UsageEvent)
    requires first == EventOf(Start(0), ONE_CALL) && second == first.(at := 10)
    ensures var calls := [ONE_CALL] + ([Wait(10)] + ([ONE_CALL] + ([Wait(DAY - 5)] + (ROLLUP + ROLLUP))));
            !Conserved(Run(Start(0), calls, 1))
  {
    var s2 := State(10, [first, second], map[], 0, [first, second], {});
    TwoCalls(first, second, [Wait(DAY - 5)] + (ROLLUP + ROLLUP), 1);
    RunOn(s2, Wait(DAY - 5), ROLLUP + ROLLUP, 1);
    ReplayLoses(s2.(now := DAY + 5), first, second);
  }

  lemma PurgeFirst(first: UsageEvent, second: UsageEvent, cutoff: int)
    requires first.at < cutoff <= second.at
    ensures NotBefore([first, second], cutoff) == [second]
  {
    assert [first, second][1..] == [second] && [second][1..] == [];
    assert NotBefore([second], cutoff) == [second] + NotBefore([], cutoff);
  }

  /** No retention: a task takes the calls of the current day, which the task of the next day then misses. */
  lemma LostWithoutRetention(first: UsageEvent, second: UsageEvent, retentionDays: int)
    requires retentionDays <= 0
    requires first == EventOf(Start(0), ONE_CALL) && second == first.(at := 10)
    ensures !Conserved(Run(Start(0), [ONE_CALL] + ([Wait(5)] + (ROLLUP + AFTER_PURGE)), retentionDays))
  {
    var s1 := State(0, [first], map[], 0, [first], {});
    RunOn(Start(0), ONE_CALL, [Wait(5)] + (ROLLUP + AFTER_PURGE), retentionDays);
    assert [] + [first] == [first];
    RunOn(s1, Wait(5), ROLLUP + AFTER_PURGE, retentionDays);
    RunRollup(s1.(now := 5), AFTER_PURGE, retentionDays);
    assert [first][1..] == [] && NotBefore([first], 5 - retentionDays * DAY) == [];
    var purged := Next(Next(s1.(now := 5), AggregateYesterday, retentionDays), Purge, retentionDays);
    assert [] + [second] == [second] && [first] + [second] == [first, second];
    LostOncePurged(purged, first, second, retentionDays);
  }

  const AFTER_PURGE := [Wait(5)] + ([ONE_CALL] + ([Wait(DAY)] + ROLLUP))

  lemma LostOncePurged(s: State, first: UsageEvent, second: UsageEvent, retentionDays: int)
    requires KeyOf(first) == KeyOf(second) && DayOf(second.at) == 0 && s.now == 5
    requires Next(s.(now := 10), ONE_CALL, retentionDays)
             == s.(now := 10, events := [second], recorded := [first, second])
    ensures !Conserved(Run(s, AFTER_PURGE, retentionDays))
  {
    var called := Next(s.(now := 10), ONE_CALL, retentionDays);
    CallLater(s, 5, [Wait(DAY)] + ROLLUP, retentionDays);
    RunOn(called, Wait(DAY), ROLLUP, retentionDays);
    HalfPurgedDayIsLost(called.(now := DAY + 10), first, second, retentionDays);
  }

  /** In any run that keeps two days, aggregating a day again changes no aggregate and no event. */
  lemma ReplayChangesNothing(now: int, steps: seq<Step>, retentionDays: int)
    requires retentionDays >= 2
    ensures var s := Run(Start(now), steps, retentionDays);
            DayOf(s.now) - 1 in s.rolledUp ==>
              var again := Next(s, AggregateYesterday, retentionDays);
              again.daily == s.daily && again.events == s.events && again.rolledUp == s.rolledUp
  {
    StartInductive(now);
    var horizon := RunInductive(Start(now), (DayOf(now) - 1) * DAY, steps, retentionDays);
    ReplayedRows(Run(Start(now), steps, retentionDays), horizon, retentionDays);
  }

  lemma ReplayedRows(s: State, horizon: int, retentionDays: int)
    requires Inductive(s, horizon)
    ensures DayOf(s.now) - 1 in s.rolledUp ==>
              var again := Next(s, AggregateYesterday, retentionDays);
              again.daily == s.daily && again.events == s.events && again.rolledUp == s.rolledUp
  {
    var day := DayOf(s.now) - 1;
    if day in s.rolledUp {
      forall key | key in GroupsOn(s.events, day)
        ensures key in s.daily && s.daily[key] == SumOf(s.events, key)
      {
        RecentSumsKept(s.recorded, horizon, key);
        var e :| e in s.events && DayOf(e.at) == day && KeyOf(e) == key;
        assert Recorded(s.events, key);
      }
      assert s.rolledUp + {day} == s.rolledUp;
    }
  }

  // --- A daily row against the price of its token totals ---

  function UsagesOf(events: seq<UsageEvent>, key: Key): seq<TokenUsage> {
    if events == [] then []
    else (if KeyOf(events[0]) == key then [events[0].usage] else []) + UsagesOf(events[1..], key)
  }

  lemma {:induction false} TotalsOfUsages(events: seq<UsageEvent>, key: Key)
    requires forall e :: e in events ==> e.cost == EstimateCost(e.provider, e.model, e.usage)
    ensures var usages := UsagesOf(events, key);
            var totals := SumOf(events, key);
            && totals.requests == |usages|
            && totals.cost == SumCosts(key.provider, key.model, usages)
            && TokenUsage(totals.input, totals.output, totals.cached) == SumUsage(usages)
    decreases |events|
  {
    if events != [] {
      TotalsOfUsages(events[1..], key);
      var usages, rest := UsagesOf(events, key), UsagesOf(events[1..], key);
      if KeyOf(events[0]) == key {
        assert usages[1..] == rest;
      } else {
        assert usages == rest;
      }
    }
  }

  lemma {:induction false} CostsAreEstimates(s: State, steps: seq<Step>, retentionDays: int)
    requires forall e :: e in s.recorded ==> e.cost == EstimateCost(e.provider, e.model, e.usage)
    ensures forall e :: e in Run(s, steps, retentionDays).recorded ==>
              e.cost == EstimateCost(e.provider, e.model, e.usage)
    decreases steps
  {
    if steps != [] {
      CostsAreEstimates(Next(s, steps[0], retentionDays), steps[1..], retentionDays);
    }
  }

  /**
   In any run that keeps two days, a daily row of one-sided calls costs at most the price of its
   token totals, and less than one micro-euro per request below it.
   */
  lemma DailyRowCost(now: int, steps: seq<Step>, retentionDays: int, key: Key)
    requires retentionDays >= 2 && key in Run(Start(now), steps, retentionDays).daily
    requires OneSided(UsagesOf(Run(Start(now), steps, retentionDays).recorded, key))
    ensures var totals := Run(Start(now), steps, retentionDays).daily[key];
            var whole := EstimateCost(key.provider, key.model, TokenUsage(totals.input, totals.output, totals.cached));
            totals.cost <= whole < totals.cost + totals.requests
  {
    StartInductive(now);
    var _ := RunInductive(Start(now), (DayOf(now) - 1) * DAY, steps, retentionDays);
    var end := Run(Start(now), steps, retentionDays);
    assert end.daily[key] == SumOf(end.recorded, key) && Recorded(end.recorded, key);
    CostsAreEstimates(Start(now), steps, retentionDays);
    RowCost(end.recorded, key);
  }

  lemma RowCost(events: seq<UsageEvent>, key: Key)
    requires Recorded(events, key) && OneSided(UsagesOf(events, key))
    requires forall e :: e in events ==> e.cost == EstimateCost(e.provider, e.model, e.usage)
    ensures var totals := SumOf(events, key);
            var whole := EstimateCost(key.provider, key.model, TokenUsage(totals.input, totals.output, totals.cached));
            totals.cost <= whole < totals.cost + totals.requests
  {
    TotalsOfUsages(events, key);
    RecordedHasUsage(events, key);
    RoundingDrift(key.provider, key.model, UsagesOf(events, key));
  }

  lemma RecordedHasUsage(events: seq<UsageEvent>, key: Key)
    requires Recorded(events, key)
    ensures UsagesOf(events, key) != []
  {
    if KeyOf(events[0]) != key {
      var e :| e in events && KeyOf(e) == key;
      assert e in events[1..];
      RecordedHasUsage(events[1..], key);
    }
  }
}
