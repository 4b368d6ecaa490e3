/**
 The monthly token counter of a tenant: a key-value counter incremented after each call, put back
 on the SQL sum by the daily task, and an alert sent at most once a day.
 */
module UsageQuota {
  import opened Wrappers
  import opened UsagePricing
  import opened UsageLedger

  const MONTH_TTL := 62 * DAY
  const ALERT_TTL := DAY

  /** A UTC month is named by its first day. */
  datatype Calendar = Calendar(monthOf: int -> int)
  {
    ghost predicate Valid() {
      && (forall day :: monthOf(day) <= day <= monthOf(day) + 30)
      && (forall day, other :: monthOf(day) <= other <= day ==> monthOf(other) == monthOf(day))
    }
  }

  type CounterKey = (nat, int)   // tenant and month, or tenant and day

  /** A counter, and when it expires; never, if no lifetime was set on it. */
  datatype Entry = Entry(value: int, expiresAt: Option<int>)

  datatype Outcome = Outcome(monthUsage: int, overQuota: bool, alerted: bool)

  /** Where the store of counters stops answering after a call, or the database at the alert's audit. */
  datatype Outage = Never | BeforeCount | BeforeExpire | BeforeAlert | BeforeAudit
  {
    predicate StopsAlert() {
      BeforeCount? || BeforeExpire? || BeforeAlert?
    }
  }

  predicate Live(store: map<CounterKey, Entry>, key: CounterKey, now: int) {
    key in store && (store[key].expiresAt.None? || store[key].expiresAt.value > now)
  }

  function ValueAt(store: map<CounterKey, Entry>, key: CounterKey, now: int): int {
    if Live(store, key, now) then store[key].value else 0
  }

  /** INCRBY of what is not negative. */
  function Incremented(store: map<CounterKey, Entry>, key: CounterKey, tokens: int, now: int): map<CounterKey, Entry> {
    var expiresAt := if Live(store, key, now) then store[key].expiresAt else None;
    store[key := Entry(ValueAt(store, key, now) + Max(tokens, 0), expiresAt)]
  }

  /** The lifetime is set when the total is what was to be added, as it is on a fresh key. */
  predicate SetsLifetime(store: map<CounterKey, Entry>, key: CounterKey, tokens: int, now: int) {
    ValueAt(store, key, now) + Max(tokens, 0) == tokens
  }

  /** INCRBY, then EXPIRE on a first write, as far as the store answers. */
  function Added(store: map<CounterKey, Entry>, key: CounterKey, tokens: int, now: int, outage: Outage)
    : map<CounterKey, Entry>
  {
    if outage.BeforeCount? then store
    else if SetsLifetime(store, key, tokens, now) && !outage.BeforeExpire? then
      store[key := Entry(ValueAt(store, key, now) + Max(tokens, 0), Some(now + MONTH_TTL))]
    else Incremented(store, key, tokens, now)
  }

  predicate AddingRaises(store: map<CounterKey, Entry>, key: CounterKey, tokens: int, now: int, outage: Outage) {
    outage.BeforeCount? || (outage.BeforeExpire? && SetsLifetime(store, key, tokens, now))
  }

  /** SET NX of an alert key. */
  function Claimed(store: map<CounterKey, Entry>, key: CounterKey, now: int): map<CounterKey, Entry> {
    if Live(store, key, now) then store else store[key := Entry(1, Some(now + ALERT_TTL))]
  }

  predicate AlertRaises(store: map<CounterKey, Entry>, key: CounterKey, now: int, outage: Outage) {
    outage.StopsAlert() || (outage.BeforeAudit? && !Live(store, key, now))
  }

  /** The tokens of a tenant's events since an instant: what the daily query sums. */
  function TokensSince(events: seq<UsageEvent>, tenant: nat, since: int): int {
    if events == [] then 0
    else
      var e := events[0];
      (if e.tenant == tenant && e.at >= since then e.usage.input + e.usage.output else 0)
      + TokensSince(events[1..], tenant, since)
  }

  /** The counters of the tenants that have events this month. */
  function ActiveKeys(events: seq<UsageEvent>, month: int): set<CounterKey> {
    set e | e in events && e.at >= month * DAY :: (e.tenant, month)
  }

  function MonthTokens(events: seq<UsageEvent>, key: CounterKey): int {
    TokensSince(events, key.0, key.1 * DAY)
  }

  /** What a reconciliation writes under a key. */
  function SumEntry(events: seq<UsageEvent>, key: CounterKey, now: int): Entry {
    Entry(Max(MonthTokens(events, key), 0), Some(now + MONTH_TTL))
  }

  /** After reconciliation the counters of tenants with events this month are the sums; the others are left. */
  function Reconciled(store: map<CounterKey, Entry>, events: seq<UsageEvent>, month: int, now: int)
    : map<CounterKey, Entry>
  {
    store + map key | key in ActiveKeys(events, month) :: SumEntry(events, key, now)
  }

  class QuotaStore {
    var counters: map<CounterKey, Entry>
    var alertKeys: map<CounterKey, Entry>

    constructor ()
      ensures counters == map[] && alertKeys == map[]
    {
      counters, alertKeys := map[], map[];
    }

    /** The new total, or nothing when the store stops answering. */
    method AddUsage(tenant: nat, tokens: int, month: int, now: int, outage: Outage) returns (total: Option<int>)
      modifies this`counters
      ensures counters == Added(old(counters), (tenant, month), tokens, now, outage)
      ensures total.None? <==> AddingRaises(old(counters), (tenant, month), tokens, now, outage)
      ensures total.None? <==>
                outage.BeforeCount?
                || (outage.BeforeExpire? && ValueAt(old(counters), (tenant, month), now) + Max(tokens, 0) == tokens)
      ensures total.Some? ==>
                && total.value == ValueAt(counters, (tenant, month), now)
                && total.value == ValueAt(old(counters), (tenant, month), now) + Max(tokens, 0)
    {
      if outage.BeforeCount? {
        return None;
      }
      var key := (tenant, month);
      var live := Live(counters, key, now);
      var added := ValueAt(counters, key, now) + Max(tokens, 0);
      counters := counters[key := Entry(added, if live then counters[key].expiresAt else None)];
      if added == tokens {
        if outage.BeforeExpire? {
          return None;
        }
        counters := counters[key := Entry(added, Some(now + MONTH_TTL))];
      }
      total := Some(added);
    }

    method ReconcileMonthQuotas(events: seq<UsageEvent>, month: int, now: int)
      modifies this`counters
      ensures counters == Reconciled(old(counters), events, month, now)
    {
      var pending := ActiveKeys(events, month);
      ghost var keys, before := pending, counters;
      while pending != {}
        invariant pending <= keys
        invariant counters == before + map key | key in keys - pending :: SumEntry(events, key, now)
        decreases pending
      {
        var key :| key in pending;
        var total := MonthTokens(events, key);
        counters := counters[key := Entry(Max(total, 0), Some(now + MONTH_TTL))];
        pending := pending - {key};
      }
      assert keys - pending == keys;
    }

    /** SET NX: the alert goes out only if no live key says it already did. Nothing, when it is interrupted. */
    method EmitAlertOnce(tenant: nat, now: int, outage: Outage) returns (sent: Option<bool>)
      modifies this`alertKeys
      ensures alertKeys == if outage.StopsAlert() then old(alertKeys)
                           else Claimed(old(alertKeys), (tenant, DayOf(now)), now)
      ensures sent.None? <==> AlertRaises(old(alertKeys), (tenant, DayOf(now)), now, outage)
      ensures sent.None? <==>
                outage !in {Never, BeforeAudit}
                || (outage == BeforeAudit && !Live(old(alertKeys), (tenant, DayOf(now)), now))
      ensures sent.Some? ==> sent.value == !Live(old(alertKeys), (tenant, DayOf(now)), now)
    {
      if outage.StopsAlert() {
        return None;
      }
      var key := (tenant, DayOf(now));
      if Live(alertKeys, key, now) {
        return Some(false);
      }
      alertKeys := alertKeys[key := Entry(1, Some(now + ALERT_TTL))];
      if outage.BeforeAudit? {
        return None;
      }
      sent := Some(true);
    }

    /** After a call: count its tokens; past the quota, alert. The call itself is never refused. */
    method RecordAndAlert(tenant: nat, tokens: int, quota: int, month: int, now: int, outage: Outage)
      returns (outcome: Option<Outcome>)
      modifies this
      ensures counters == Added(old(counters), (tenant, month), tokens, now, outage)
      ensures var today, total := (tenant, DayOf(now)), ValueAt(counters, (tenant, month), now);
              var stopped := AddingRaises(old(counters), (tenant, month), tokens, now, outage);
              && alertKeys == (if stopped || total <= quota || outage.StopsAlert() then old(alertKeys)
                               else Claimed(old(alertKeys), today, now))
              && (outcome.None? <==>
                  stopped || (total > quota && AlertRaises(old(alertKeys), today, now, outage)))
              && (outcome.Some? ==>
                    outcome.value == Outcome(total, total > quota, total > quota && !Live(old(alertKeys), today, now)))
    {
      var total := AddUsage(tenant, tokens, month, now, outage);
      if total.None? {
        return None;
      }
      var alerted := Some(false);
      if total.value > quota {
        alerted := EmitAlertOnce(tenant, now, outage);
        if alerted.None? {
          return None;
        }
      }
      outcome := Some(Outcome(total.value, total.value > quota, alerted.value));
    }
  }

  // --- Runs ---

  /**
   History: `recorded` is every event ever inserted; `drift` the tokens counted this month less
   those recorded, since the last reconciliation; `alerts` the alerts audited, `interrupted` the
   tenants and days whose alert was claimed and not audited, and `exceeded` those on which some
   call over its quota came to its alert.
   */
  datatype Meter = Meter(
    now: int, events: seq<UsageEvent>, counters: map<CounterKey, Entry>, alertKeys: map<CounterKey, Entry>,
    recorded: seq<UsageEvent>, drift: map<CounterKey, int>,
    alerts: seq<CounterKey>, interrupted: set<CounterKey>, exceeded: set<CounterKey>)

  datatype Step =
    | Charge(event: UsageEvent, insertFails: bool, quota: int, outage: Outage)   // dated by its insertion
    | Reconcile
    | PurgeEvents
    | Pass(seconds: nat)

  function Drift(s: Meter, key: CounterKey): int {
    if key in s.drift then s.drift[key] else 0
  }

  /** The event of a call is inserted, unless that fails. */
  function Logged(s: Meter, step: Step, month: int): Meter
    requires step.Charge?
  {
    var e := step.event.(at := s.now);
    var key := (e.tenant, month);
    if step.insertFails then s
    else
      s.(events := s.events + [e], recorded := s.recorded + [e],
         drift := s.drift[key := Drift(s, key) - Tokens(e)])
  }

  /** The tokens of a call are counted, unless the store does not answer. */
  function Counted(s: Meter, key: CounterKey, tokens: int, outage: Outage): Meter {
    if outage.BeforeCount? then s
    else
      s.(counters := Added(s.counters, key, tokens, s.now, outage),
         drift := s.drift[key := Drift(s, key) + Max(tokens, 0)])
  }

  /** A call over its quota comes to its alert. */
  function Alerted(s: Meter, today: CounterKey, outage: Outage): Meter {
    var s' := s.(exceeded := s.exceeded + {today}, alertKeys := Claimed(s.alertKeys, today, s.now));
    if Live(s.alertKeys, today, s.now) then s'
    else if outage.BeforeAudit? then s'.(interrupted := s.interrupted + {today})
    else s'.(alerts := s.alerts + [today])
  }

  predicate ReachesAlert(s: Meter, key: CounterKey, tokens: int, quota: int, outage: Outage) {
    && !AddingRaises(s.counters, key, tokens, s.now, outage) && !outage.StopsAlert()
    && ValueAt(Added(s.counters, key, tokens, s.now, outage), key, s.now) > quota
  }

  /** A call's tokens are counted, if it has any, and it comes to its alert when that puts it over its quota. */
  function Metered(s: Meter, key: CounterKey, tokens: int, quota: int, outage: Outage): Meter {
    var counted := Counted(s, key, tokens, outage);
    if tokens <= 0 then s
    else if ReachesAlert(s, key, tokens, quota, outage) then Alerted(counted, (key.0, DayOf(s.now)), outage)
    else counted
  }

  function Tokens(e: UsageEvent): int {
    e.usage.input + e.usage.output
  }

  /** One metered call: the event is inserted or not, then its tokens are counted. */
  function Charged(s: Meter, step: Step, month: int): Meter
    requires step.Charge?
  {
    var e := step.event;
    Metered(Logged(s, step, month), (e.tenant, month), Tokens(e), step.quota, step.outage)
  }

  function Next(s: Meter, step: Step, cal: Calendar, retentionDays: int): Meter {
    var month := cal.monthOf(DayOf(s.now));
    match step
    case Charge(_, _, _, _) => Charged(s, step, month)
    case Reconcile =>
      s.(counters := Reconciled(s.counters, s.events, month, s.now),
         drift := s.drift + map key | key in ActiveKeys(s.events, month) ::
                    Max(MonthTokens(s.events, key), 0) - MonthTokens(s.events, key))
    case PurgeEvents => s.(events := NotBefore(s.events, s.now - retentionDays * DAY))
    case Pass(seconds) => s.(now := s.now + seconds)
  }

  function Run(s: Meter, steps: seq<Step>, cal: Calendar, retentionDays: int): Meter
    decreases steps
  {
    if steps == [] then s else Run(Next(s, steps[0], cal, retentionDays), steps[1..], cal, retentionDays)
  }

  function Start(now: int): Meter {
    Meter(now, [], map[], map[], [], map[], [], {}, {})
  }

  /** The counter of the current month is what was recorded this month, and its drift since the last reconciliation. */
  ghost predicate CounterAgrees(s: Meter, cal: Calendar) {
    AgreesIn(s, cal.monthOf(DayOf(s.now)))
  }

  ghost predicate AgreesIn(s: Meter, month: int) {
    forall tenant: nat :: Agrees(s, (tenant, month))
  }

  predicate Agrees(s: Meter, key: CounterKey) {
    ValueAt(s.counters, key, s.now) == MonthTokens(s.recorded, key) + Drift(s, key)
  }

  ghost predicate Inductive(s: Meter, cal: Calendar, horizon: int) {
    InductiveIn(s, cal.monthOf(DayOf(s.now)), horizon)
  }

  ghost predicate InductiveIn(s: Meter, month: int, horizon: int) {
    AgreesIn(s, month) && EventsKept(s, month, horizon) && KeysBounded(s, month)
  }

  /** The raw events are the recorded ones since some instant before this month. */
  ghost predicate EventsKept(s: Meter, month: int, horizon: int) {
    && s.events == NotBefore(s.recorded, horizon) && horizon <= month * DAY
    && (forall e :: e in s.recorded ==> e.at <= s.now)
  }

  /** No counter of a later month, and each counter outlives its month. */
  ghost predicate KeysBounded(s: Meter, month: int) {
    StoreBounded(s.counters, month) && forall key :: key in s.drift ==> key.1 <= month
  }

  ghost predicate StoreBounded(store: map<CounterKey, Entry>, month: int) {
    forall key :: key in store ==> key.1 <= month && OutlivesMonth(store[key], key.1)
  }

  predicate OutlivesMonth(e: Entry, month: int) {
    e.expiresAt.None? || e.expiresAt.value >= month * DAY + MONTH_TTL
  }

  /**
   One alert, and only one, for every tenant and day on which a call over its quota came to its
   alert, unless that alert was interrupted before its audit: it is not made up for that day.
   */
  ghost predicate AlertedOncePerDay(s: Meter) {
    && (forall i, j :: 0 <= i < j < |s.alerts| ==> s.alerts[i] != s.alerts[j])
    && (forall key :: key in s.alerts <==> key in s.exceeded && key !in s.interrupted)
  }

  predicate OutlivesDay(e: Entry, day: int) {
    e.expiresAt.None? || e.expiresAt.value >= (day + 1) * DAY
  }

  ghost predicate AlertsInductive(s: Meter) {
    && AlertedOncePerDay(s) && s.interrupted <= s.exceeded
    && (forall key :: key in s.exceeded ==>
          key in s.alertKeys && key.1 <= DayOf(s.now) && OutlivesDay(s.alertKeys[key], key.1))
    && (forall key :: key in s.alertKeys ==> key in s.exceeded)
  }

  // --- The counter ---

  lemma {:induction false} TokensAppend(a: seq<UsageEvent>, e: UsageEvent, tenant: nat, since: int)
    ensures TokensSince(a + [e], tenant, since)
            == TokensSince(a, tenant, since)
               + (if e.tenant == tenant && e.at >= since then e.usage.input + e.usage.output else 0)
    decreases |a|
  {
    if a == [] {
      assert a + [e] == [e] && [e][1..] == [];
    } else {
      assert (a + [e])[1..] == a[1..] + [e];
      TokensAppend(a[1..], e, tenant, since);
    }
  }

  lemma {:induction false} RecentTokensKept(events: seq<UsageEvent>, h: int, tenant: nat, since: int)
    requires h <= since
    ensures TokensSince(NotBefore(events, h), tenant, since) == TokensSince(events, tenant, since)
    decreases |events|
  {
    if events != [] {
      RecentTokensKept(events[1..], h, tenant, since);
      if events[0].at >= h {
        assert NotBefore(events, h)[1..] == NotBefore(events[1..], h);
      } else {
        assert NotBefore(events, h) == NotBefore(events[1..], h);
      }
    }
  }

  lemma NoTokensYet(events: seq<UsageEvent>, tenant: nat, since: int)
    requires forall e :: e in events ==> e.at < since
    ensures TokensSince(events, tenant, since) == 0
  {
  }

  /** INCRBY adds to the live value of its key and to no other. */
  lemma AddedValue(store: map<CounterKey, Entry>, key: CounterKey, tokens: int, now: int, outage: Outage)
    requires tokens > 0 && !outage.BeforeCount?
    ensures var store' := Added(store, key, tokens, now, outage);
            && ValueAt(store', key, now) == ValueAt(store, key, now) + tokens
            && (forall other :: other != key ==> ValueAt(store', other, now) == ValueAt(store, other, now))
  {
  }

  lemma AddedBounded(store: map<CounterKey, Entry>, key: CounterKey, tokens: int, now: int, outage: Outage)
    requires tokens > 0 && StoreBounded(store, key.1) && now >= key.1 * DAY
    ensures StoreBounded(Added(store, key, tokens, now, outage), key.1)
  {
  }

  lemma LoggedAgrees(s: Meter, step: Step, month: int, tenant: nat)
    requires step.Charge? && s.now >= month * DAY && Agrees(s, (tenant, month))
    ensures Agrees(Logged(s, step, month), (tenant, month))
  {
    TokensAppend(s.recorded, step.event.(at := s.now), tenant, month * DAY);
  }

  lemma LoggedInductive(s: Meter, step: Step, month: int, horizon: int)
    requires step.Charge? && InductiveIn(s, month, horizon) && s.now >= month * DAY
    ensures InductiveIn(Logged(s, step, month), month, horizon)
  {
    var s' := Logged(s, step, month);
    forall tenant: nat
      ensures Agrees(s', (tenant, month))
    {
      LoggedAgrees(s, step, month, tenant);
    }
    if !step.insertFails {
      NotBeforeAppend(s.recorded, step.event.(at := s.now), horizon);
      assert s'.drift.Keys == s.drift.Keys + {(step.event.tenant, month)};
    }
  }

  lemma CountedInductive(s: Meter, key: CounterKey, tokens: int, outage: Outage, horizon: int)
    requires tokens > 0 && InductiveIn(s, key.1, horizon) && s.now >= key.1 * DAY
    ensures InductiveIn(Counted(s, key, tokens, outage), key.1, horizon)
  {
    var s' := Counted(s, key, tokens, outage);
    if !outage.BeforeCount? {
      AddedValue(s.counters, key, tokens, s.now, outage);
      AddedBounded(s.counters, key, tokens, s.now, outage);
      assert s'.drift.Keys == s.drift.Keys + {key};
      forall tenant: nat
        ensures Agrees(s', (tenant, key.1))
      {
        assert Agrees(s, (tenant, key.1));
      }
    }
  }

  lemma MonthHasStarted(cal: Calendar, now: int)
    requires cal.Valid()
    ensures now >= cal.monthOf(DayOf(now)) * DAY
  {
  }

  lemma AlertedInductive(s: Meter, today: CounterKey, outage: Outage, month: int, horizon: int)
    requires InductiveIn(s, month, horizon)
    ensures InductiveIn(Alerted(s, today, outage), month, horizon)
  {
    var s' := Alerted(s, today, outage);
    forall tenant: nat
      ensures Agrees(s', (tenant, month))
    {
      assert Agrees(s, (tenant, month));
    }
  }

  lemma MeteredInductive(s: Meter, key: CounterKey, tokens: int, quota: int, outage: Outage, horizon: int)
    requires InductiveIn(s, key.1, horizon) && s.now >= key.1 * DAY
    ensures InductiveIn(Metered(s, key, tokens, quota, outage), key.1, horizon)
  {
    if tokens > 0 {
      CountedInductive(s, key, tokens, outage, horizon);
      AlertedInductive(Counted(s, key, tokens, outage), (key.0, DayOf(s.now)), outage, key.1, horizon);
    }
  }

  lemma ChargedInductive(s: Meter, step: Step, month: int, horizon: int)
    requires InductiveIn(s, month, horizon) && step.Charge? && s.now >= month * DAY
    ensures InductiveIn(Charged(s, step, month), month, horizon)
  {
    var e := step.event;
    LoggedInductive(s, step, month, horizon);
    MeteredInductive(Logged(s, step, month), (e.tenant, month), Tokens(e), step.quota, step.outage, horizon);
  }

  lemma ReconciledBounded(store: map<CounterKey, Entry>, events: seq<UsageEvent>, month: int, now: int)
    requires StoreBounded(store, month) && now >= month * DAY
    ensures StoreBounded(Reconciled(store, events, month, now), month)
  {
  }

  lemma ReconciledAgrees(s: Meter, cal: Calendar, horizon: int, tenant: nat)
    requires cal.Valid() && Inductive(s, cal, horizon)
    ensures Agrees(Next(s, Reconcile, cal, 31), (tenant, cal.monthOf(DayOf(s.now))))
  {
    var month := cal.monthOf(DayOf(s.now));
    RecentTokensKept(s.recorded, horizon, tenant, month * DAY);
    assert Agrees(s, (tenant, month));
  }

  lemma ReconcileInductive(s: Meter, cal: Calendar, horizon: int)
    requires cal.Valid() && Inductive(s, cal, horizon)
    ensures Inductive(Next(s, Reconcile, cal, 31), cal, horizon)
  {
    var month := cal.monthOf(DayOf(s.now));
    var s' := Next(s, Reconcile, cal, 31);
    MonthHasStarted(cal, s.now);
    ReconciledBounded(s.counters, s.events, month, s.now);
    forall tenant: nat
      ensures Agrees(s', (tenant, month))
    {
      ReconciledAgrees(s, cal, horizon, tenant);
    }
  }

  /** Within the month the counters are still live; in a later one nothing is counted yet. */
  lemma PassAgrees(s: Meter, month: int, horizon: int, now': int, month': int, tenant: nat)
    requires InductiveIn(s, month, horizon) && now' >= s.now
    requires (month' == month && now' < (month + 31) * DAY) || (month' > month && s.now < month' * DAY)
    ensures Agrees(s.(now := now'), (tenant, month'))
  {
    if month' == month {
      assert Agrees(s, (tenant, month));
    } else {
      NoTokensYet(s.recorded, tenant, month' * DAY);
    }
  }

  lemma PassInductive(s: Meter, cal: Calendar, horizon: int, seconds: nat)
    requires cal.Valid() && Inductive(s, cal, horizon)
    ensures Inductive(s.(now := s.now + seconds), cal, horizon)
  {
    var now' := s.now + seconds;
    var month, month' := cal.monthOf(DayOf(s.now)), cal.monthOf(DayOf(now'));
    assert DayOf(s.now) <= DayOf(now');
    if month' <= DayOf(s.now) {
      assert month' == month;
      assert now' < (DayOf(now') + 1) * DAY <= (month + 31) * DAY;
    } else {
      assert s.now < month' * DAY;
      assert month <= DayOf(s.now) < month';
    }
    forall tenant: nat
      ensures Agrees(s.(now := now'), (tenant, month'))
    {
      PassAgrees(s, month, horizon, now', month', tenant);
    }
  }

  lemma ChargeInductive(s: Meter, step: Step, cal: Calendar, horizon: int)
    requires cal.Valid() && Inductive(s, cal, horizon) && step.Charge?
    ensures Inductive(Next(s, step, cal, 31), cal, horizon)
  {
    var month := cal.monthOf(DayOf(s.now));
    MonthHasStarted(cal, s.now);
    ChargedInductive(s, step, month, horizon);
    assert Charged(s, step, month).now == s.now;
  }

  lemma PurgeInductive(s: Meter, month: int, cutoff: int, horizon: int) returns (horizon': int)
    requires InductiveIn(s, month, horizon) && cutoff <= month * DAY
    ensures InductiveIn(s.(events := NotBefore(s.events, cutoff)), month, horizon')
  {
    NotBeforeTwice(s.recorded, horizon, cutoff);
    horizon' := if horizon < cutoff then cutoff else horizon;
    forall tenant: nat
      ensures Agrees(s.(events := NotBefore(s.events, cutoff)), (tenant, month))
    {
      assert Agrees(s, (tenant, month));
    }
  }

  lemma PurgeCutoff(cal: Calendar, now: int, retentionDays: int)
    requires cal.Valid() && retentionDays >= 31
    ensures now - retentionDays * DAY <= cal.monthOf(DayOf(now)) * DAY
  {
    assert now < (DayOf(now) + 1) * DAY;
  }

  lemma NextInductive(s: Meter, step: Step, cal: Calendar, retentionDays: int, horizon: int) returns (horizon': int)
    requires cal.Valid() && Inductive(s, cal, horizon) && retentionDays >= 31
    ensures Inductive(Next(s, step, cal, retentionDays), cal, horizon')
  {
    horizon' := horizon;
    match step
    case Charge(_, _, _, _) => ChargeInductive(s, step, cal, horizon);
    case Reconcile => ReconcileInductive(s, cal, horizon);
    case PurgeEvents =>
      PurgeCutoff(cal, s.now, retentionDays);
      horizon' := PurgeInductive(s, cal.monthOf(DayOf(s.now)), s.now - retentionDays * DAY, horizon);
    case Pass(seconds) => PassInductive(s, cal, horizon, seconds);
  }

  lemma {:induction false} RunInductive(s: Meter, steps: seq<Step>, cal: Calendar, retentionDays: int, horizon: int)
    returns (horizon': int)
    requires cal.Valid() && Inductive(s, cal, horizon) && retentionDays >= 31
    ensures Inductive(Run(s, steps, cal, retentionDays), cal, horizon')
    decreases steps
  {
    horizon' := horizon;
    if steps != [] {
      horizon' := NextInductive(s, steps[0], cal, retentionDays, horizon);
      horizon' := RunInductive(Next(s, steps[0], cal, retentionDays), steps[1..], cal, retentionDays, horizon');
    }
  }

  lemma FromStart(now: int, steps: seq<Step>, cal: Calendar, retentionDays: int) returns (horizon: int)
    requires cal.Valid() && retentionDays >= 31
    ensures Inductive(Run(Start(now), steps, cal, retentionDays), cal, horizon)
  {
    var month := cal.monthOf(DayOf(now));
    assert forall tenant: nat :: TokensSince([], tenant, month * DAY) == 0;
    horizon := RunInductive(Start(now), steps, cal, retentionDays, month * DAY);
  }

  ghost predicate AgreesAfter(now: int, steps: seq<Step>, cal: Calendar, retentionDays: int) {
    CounterAgrees(Run(Start(now), steps, cal, retentionDays), cal)
  }

  /**
   The fast counter is the recorded tokens of the month and the drift since the last reconciliation,
   in every run by every calendar, exactly when events are kept for as long as a month can be.
   */
  lemma CounterAlwaysAgreesIff(retentionDays: int)
    ensures retentionDays >= 31
            <==> (forall now, steps, cal: Calendar :: cal.Valid() ==> AgreesAfter(now, steps, cal, retentionDays))
  {
    if retentionDays >= 31 {
      forall now, steps, cal: Calendar | cal.Valid()
        ensures AgreesAfter(now, steps, cal, retentionDays)
      {
        var _ := FromStart(now, steps, cal, retentionDays);
      }
    } else {
      var e := UsageEvent(0, 0, "", "", TokenUsage(1, 0, 0), 0, OK);
      LongMonthsValid();
      ThirtyDaysLoseTheFirst(e, retentionDays);
      assert !AgreesAfter(0, TwoCalls(e), LongMonths(), retentionDays);
    }
  }

  /** Every month has thirty-one days. */
  function LongMonths(): Calendar {
    Calendar((day: int) => day - day % 31)
  }

  lemma LongMonthsValid()
    ensures LongMonths().Valid()
  {
    forall day: int, other: int | day - day % 31 <= other <= day
      ensures other - other % 31 == day - day % 31
    {
      assert other / 31 == day / 31;
    }
  }

  /** A call on the first day of the month, another on the thirty-first, and the daily task around it. */
  function TwoCalls(e: UsageEvent): seq<Step> {
    var call := Charge(e, false, 1_000, Never);
    [call, Pass(30 * DAY + 10), Reconcile, PurgeEvents, call, Reconcile]
  }

  /** The only counter is that of tenant 0 in month 0, and has not drifted. */
  function At(now: int, events: seq<UsageEvent>, recorded: seq<UsageEvent>, counter: Entry): Meter {
    Meter(now, events, map[(0, 0) := counter], map[], recorded, map[(0, 0) := 0], [], {}, {})
  }

  predicate OneToken(e: UsageEvent) {
    e.tenant == 0 && e.usage == TokenUsage(1, 0, 0)
  }

  lemma FirstCall(e: UsageEvent, retentionDays: int)
    requires OneToken(e) && e.at == 0
    ensures Next(Start(0), Charge(e, false, 1_000, Never), LongMonths(), retentionDays)
            == At(0, [e], [e], Entry(1, Some(MONTH_TTL)))
  {
    var logged := Logged(Start(0), Charge(e, false, 1_000, Never), 0);
    assert logged.drift == map[(0, 0) := -1];
    assert Added(map[], (0, 0), 1, 0, Never) == map[(0, 0) := Entry(1, Some(MONTH_TTL))];
  }

  lemma LaterCall(now: int, e: UsageEvent, recorded: seq<UsageEvent>, expiresAt: int, retentionDays: int)
    requires OneToken(e) && 0 <= now < 31 * DAY && expiresAt > now
    ensures var s := At(now, [], recorded, Entry(1, Some(expiresAt)));
            Next(s, Charge(e, false, 1_000, Never), LongMonths(), retentionDays)
            == At(now, [e.(at := now)], recorded + [e.(at := now)], Entry(2, Some(expiresAt)))
  {
    var s := At(now, [], recorded, Entry(1, Some(expiresAt)));
    var logged := Logged(s, Charge(e, false, 1_000, Never), 0);
    assert logged.drift == map[(0, 0) := -1];
    assert Added(s.counters, (0, 0), 1, now, Never) == map[(0, 0) := Entry(2, Some(expiresAt))];
  }

  lemma OneTokenSum(e: UsageEvent)
    requires OneToken(e) && 0 <= e.at
    ensures MonthTokens([e], (0, 0)) == 1
  {
    assert TokensSince([e][1..], 0, 0) == 0;
  }

  lemma SumOverwrites(counters: map<CounterKey, Entry>, e: UsageEvent, now: int)
    requires OneToken(e) && 0 <= e.at && counters.Keys == {(0, 0)}
    ensures ActiveKeys([e], 0) == {(0, 0)}
    ensures Reconciled(counters, [e], 0, now) == map[(0, 0) := Entry(1, Some(now + MONTH_TTL))]
  {
    OneTokenSum(e);
    assert e in [e] && ActiveKeys([e], 0) == {(0, 0)};
  }

  lemma SumHasNoDrift(e: UsageEvent)
    requires OneToken(e) && 0 <= e.at
    ensures map[(0, 0) := 0] + (map key | key in ActiveKeys([e], 0) ::
              Max(MonthTokens([e], key), 0) - MonthTokens([e], key)) == map[(0, 0) := 0]
  {
    OneTokenSum(e);
    assert e in [e] && ActiveKeys([e], 0) == {(0, 0)};
  }

  /** A reconciliation that finds one event of one token sets the counter to one. */
  lemma ReconciledAt(now: int, e: UsageEvent, recorded: seq<UsageEvent>, counter: Entry, retentionDays: int)
    requires OneToken(e) && 0 <= e.at && 0 <= now < 31 * DAY
    ensures Next(At(now, [e], recorded, counter), Reconcile, LongMonths(), retentionDays)
            == At(now, [e], recorded, Entry(1, Some(now + MONTH_TTL)))
  {
    assert LongMonths().monthOf(DayOf(now)) == 0;
    SumOverwrites(map[(0, 0) := counter], e, now);
    SumHasNoDrift(e);
  }

  lemma PurgedAt(now: int, e: UsageEvent, recorded: seq<UsageEvent>, counter: Entry, retentionDays: int)
    requires e.at < now - retentionDays * DAY
    ensures Next(At(now, [e], recorded, counter), PurgeEvents, LongMonths(), retentionDays)
            == At(now, [], recorded, counter)
  {
    assert NotBefore([e][1..], now - retentionDays * DAY) == [];
  }

  lemma RunFirst(s: Meter, steps: seq<Step>, cal: Calendar, retentionDays: int)
    requires steps != []
    ensures Run(s, steps, cal, retentionDays)
            == Run(Next(s, steps[0], cal, retentionDays), steps[1..], cal, retentionDays)
  {
  }

  lemma RunPass(now: int, seconds: nat, e: UsageEvent, counter: Entry, steps: seq<Step>, retentionDays: int)
    requires steps != [] && steps[0] == Pass(seconds)
    ensures Run(At(now, [e], [e], counter), steps, LongMonths(), retentionDays)
            == Run(At(now + seconds, [e], [e], counter), steps[1..], LongMonths(), retentionDays)
  {
  }

  lemma RunReconcile(
      now: int, e: UsageEvent, recorded: seq<UsageEvent>, counter: Entry, steps: seq<Step>, retentionDays: int)
    requires OneToken(e) && 0 <= e.at && 0 <= now < 31 * DAY && steps != [] && steps[0] == Reconcile
    ensures Run(At(now, [e], recorded, counter), steps, LongMonths(), retentionDays)
            == Run(At(now, [e], recorded, Entry(1, Some(now + MONTH_TTL))), steps[1..], LongMonths(), retentionDays)
  {
    ReconciledAt(now, e, recorded, counter, retentionDays);
    RunFirst(At(now, [e], recorded, counter), steps, LongMonths(), retentionDays);
  }

  lemma RunPurge(now: int, e: UsageEvent, counter: Entry, steps: seq<Step>, retentionDays: int)
    requires e.at < now - retentionDays * DAY && steps != [] && steps[0] == PurgeEvents
    ensures Run(At(now, [e], [e], counter), steps, LongMonths(), retentionDays)
            == Run(At(now, [], [e], counter), steps[1..], LongMonths(), retentionDays)
  {
    PurgedAt(now, e, [e], counter, retentionDays);
    RunFirst(At(now, [e], [e], counter), steps, LongMonths(), retentionDays);
  }

  lemma RunFirstCall(e: UsageEvent, steps: seq<Step>, retentionDays: int)
    requires OneToken(e) && e.at == 0 && steps != [] && steps[0] == Charge(e, false, 1_000, Never)
    ensures Run(Start(0), steps, LongMonths(), retentionDays)
            == Run(At(0, [e], [e], Entry(1, Some(MONTH_TTL))), steps[1..], LongMonths(), retentionDays)
  {
    FirstCall(e, retentionDays);
    RunFirst(Start(0), steps, LongMonths(), retentionDays);
  }

  lemma RunLaterCall(now: int, e: UsageEvent, steps: seq<Step>, expiresAt: int, retentionDays: int)
    requires OneToken(e) && 0 <= now < 31 * DAY && expiresAt > now
    requires steps != [] && steps[0] == Charge(e, false, 1_000, Never)
    ensures var again := e.(at := now);
            Run(At(now, [], [e], Entry(1, Some(expiresAt))), steps, LongMonths(), retentionDays)
            == Run(At(now, [again], [e, again], Entry(2, Some(expiresAt))), steps[1..], LongMonths(), retentionDays)
  {
    LaterCall(now, e, [e], expiresAt, retentionDays);
    assert [e] + [e.(at := now)] == [e, e.(at := now)];
    RunFirst(At(now, [], [e], Entry(1, Some(expiresAt))), steps, LongMonths(), retentionDays);
  }

  /** The daily task on the thirty-first day drops the first call, and the next one counts the second alone. */
  lemma RunTwoCalls(e: UsageEvent, steps: seq<Step>, now: nat, retentionDays: int)
    requires OneToken(e) && e.at == 0 && retentionDays * DAY < now < 31 * DAY && |steps| == 6
    requires steps[0] == steps[4] == Charge(e, false, 1_000, Never) && steps[1] == Pass(now)
    requires steps[2] == steps[5] == Reconcile && steps[3] == PurgeEvents
    ensures Run(Start(0), steps, LongMonths(), retentionDays)
            == At(now, [e.(at := now)], [e, e.(at := now)], Entry(1, Some(now + MONTH_TTL)))
  {
    var again, expiresAt := e.(at := now), now + MONTH_TTL;
    RunFirstCall(e, steps, retentionDays);
    RunPass(0, now, e, Entry(1, Some(MONTH_TTL)), steps[1..], retentionDays);
    RunReconcile(now, e, [e], Entry(1, Some(MONTH_TTL)), steps[2..], retentionDays);
    RunPurge(now, e, Entry(1, Some(expiresAt)), steps[3..], retentionDays);
    RunLaterCall(now, e, steps[4..], expiresAt, retentionDays);
    RunReconcile(now, again, [e, again], Entry(2, Some(expiresAt)), steps[5..], retentionDays);
  }

  lemma OneOfTwo(now: int, first: UsageEvent, second: UsageEvent)
    requires OneToken(first) && OneToken(second) && 0 <= first.at && 0 <= second.at && 0 <= now < 31 * DAY
    ensures !CounterAgrees(At(now, [second], [first, second], Entry(1, Some(now + MONTH_TTL))), LongMonths())
  {
    var s := At(now, [second], [first, second], Entry(1, Some(now + MONTH_TTL)));
    OneTokenSum(second);
    assert s.recorded[1..] == [second];
    assert MonthTokens(s.recorded, (0, 0)) == 2;
    assert !Agrees(s, (0, 0));
  }

  /** The second call's reconciliation sets the counter to its tokens alone. */
  lemma ThirtyDaysLoseTheFirst(e: UsageEvent, retentionDays: int)
    requires OneToken(e) && e.at == 0 && retentionDays <= 30
    ensures !AgreesAfter(0, TwoCalls(e), LongMonths(), retentionDays)
  {
    RunTwoCalls(e, TwoCalls(e), 30 * DAY + 10, retentionDays);
    OneOfTwo(30 * DAY + 10, e, e.(at := 30 * DAY + 10));
  }

  /** Right after a reconciliation it is the SQL sum itself, for every tenant with events this month. */
  lemma ReconciledIsTheSum(now: int, steps: seq<Step>, cal: Calendar, retentionDays: int, tenant: nat)
    requires cal.Valid() && retentionDays >= 31
    ensures var s := Run(Start(now), steps, cal, retentionDays);
            var key := (tenant, cal.monthOf(DayOf(s.now)));
            (exists e :: e in s.events && e.tenant == tenant && e.at >= key.1 * DAY)
            && MonthTokens(s.events, key) >= 0 ==>
              ValueAt(Next(s, Reconcile, cal, retentionDays).counters, key, s.now)
              == MonthTokens(s.events, key) == MonthTokens(s.recorded, key)
  {
    var horizon := FromStart(now, steps, cal, retentionDays);
    var s := Run(Start(now), steps, cal, retentionDays);
    RecentTokensKept(s.recorded, horizon, tenant, cal.monthOf(DayOf(s.now)) * DAY);
    ActiveIff(s.events, cal.monthOf(DayOf(s.now)), tenant);
  }

  lemma ActiveIff(events: seq<UsageEvent>, month: int, tenant: nat)
    ensures (tenant, month) in ActiveKeys(events, month)
            <==> exists e :: e in events && e.tenant == tenant && e.at >= month * DAY
  {
  }

  /** A reconciliation leaves alone the counters of other months, and of tenants without events this month. */
  lemma OthersNotReconciled(store: map<CounterKey, Entry>, events: seq<UsageEvent>, month: int, now: int,
                            key: CounterKey)
    requires key.1 != month || forall e :: e in events && e.at >= month * DAY ==> e.tenant != key.0
    ensures var store' := Reconciled(store, events, month, now);
            (key in store' <==> key in store) && (key in store ==> store'[key] == store[key])
  {
  }

  /** A counter's first tokens of the month give it a lifetime of sixty-two days; later ones keep what it has. */
  lemma FirstWriteLives(store: map<CounterKey, Entry>, key: CounterKey, tokens: int, now: int, later: int)
    requires tokens > 0
    ensures !Live(store, key, now) ==>
              (Live(Added(store, key, tokens, now, Never), key, later) <==> later < now + 62 * 24 * 3600)
    ensures !Live(store, key, now) ==> Added(store, key, tokens, now, BeforeExpire)[key] == Entry(tokens, None)
    ensures Live(store, key, now) && store[key].value > 0 ==>
              forall outage: Outage :: !outage.BeforeCount? ==>
                Added(store, key, tokens, now, outage)[key] == store[key].(value := store[key].value + tokens)
    ensures Added(store, key, tokens, now, BeforeCount) == store
  {
  }

  // --- The alert ---

  /** An alert's key lives for a day. */
  lemma ClaimLives(store: map<CounterKey, Entry>, key: CounterKey, now: int, later: int)
    requires !Live(store, key, now)
    ensures Live(Claimed(store, key, now), key, later) <==> later < now + 24 * 3600
  {
  }

  /**
   A call that counts some tokens, while everything answers: its tenant's counter grows by them, and
   it alerts exactly when that is more than the quota and the day's alert has not been claimed.
   */
  lemma CallAlertsIff(s: Meter, step: Step, cal: Calendar, retentionDays: int)
    requires step.Charge? && step.outage.Never? && step.event.usage.input + step.event.usage.output > 0
    ensures var s', e := Next(s, step, cal, retentionDays), step.event;
            var key, today := (e.tenant, cal.monthOf(DayOf(s.now))), (e.tenant, DayOf(s.now));
            var total := ValueAt(s.counters, key, s.now) + e.usage.input + e.usage.output;
            && ValueAt(s'.counters, key, s.now) == total
            && s'.recorded == s.recorded + (if step.insertFails then [] else [e.(at := s.now)])
            && s'.exceeded == s.exceeded + (if total > step.quota then {today} else {})
            && s'.alerts == s.alerts + (if total > step.quota && !Live(s.alertKeys, today, s.now) then [today] else [])
            && s'.interrupted == s.interrupted
  {
    var e := step.event;
    AddedValue(s.counters, (e.tenant, cal.monthOf(DayOf(s.now))), Tokens(e), s.now, Never);
  }

  /** While a tenant's alert of the day is claimed its key is live, so it is not claimed twice. */
  lemma AlertedAlerts(s: Meter, today: CounterKey, outage: Outage)
    requires AlertsInductive(s) && today.1 == DayOf(s.now)
    ensures AlertsInductive(Alerted(s, today, outage))
  {
    var s' := Alerted(s, today, outage);
    assert today in s.exceeded <==> Live(s.alertKeys, today, s.now);
    if s'.alerts != s.alerts {
      assert s'.alerts == s.alerts + [today] && today !in s.alerts;
      assert forall key :: key in s'.alerts <==> key in s.alerts || key == today;
    }
  }

  lemma SameAlerts(s: Meter, s': Meter)
    requires AlertsInductive(s) && s'.now == s.now && s'.alertKeys == s.alertKeys
    requires s'.alerts == s.alerts && s'.interrupted == s.interrupted && s'.exceeded == s.exceeded
    ensures AlertsInductive(s')
  {
  }

  lemma MeteredAlerts(s: Meter, key: CounterKey, tokens: int, quota: int, outage: Outage)
    requires AlertsInductive(s)
    ensures AlertsInductive(Metered(s, key, tokens, quota, outage))
  {
    var counted := Counted(s, key, tokens, outage);
    SameAlerts(s, counted);
    AlertedAlerts(counted, (key.0, DayOf(s.now)), outage);
  }

  lemma ChargedAlerts(s: Meter, step: Step, month: int)
    requires AlertsInductive(s) && step.Charge?
    ensures AlertsInductive(Charged(s, step, month))
  {
    var e := step.event;
    SameAlerts(s, Logged(s, step, month));
    MeteredAlerts(Logged(s, step, month), (e.tenant, month), Tokens(e), step.quota, step.outage);
  }

  lemma NextAlerts(s: Meter, step: Step, cal: Calendar, retentionDays: int)
    requires AlertsInductive(s)
    ensures AlertsInductive(Next(s, step, cal, retentionDays))
  {
    match step
    case Charge(_, _, _, _) => ChargedAlerts(s, step, cal.monthOf(DayOf(s.now)));
    case Pass(seconds) =>
      assert DayOf(s.now) <= DayOf(s.now + seconds);
    case _ =>
  }

  /** A call's tokens are counted unless the store stops answering before. */
  lemma OutageCounts(s: Meter, step: Step, cal: Calendar, retentionDays: int)
    requires step.Charge? && step.event.usage.input + step.event.usage.output > 0
    ensures var s', e := Next(s, step, cal, retentionDays), step.event;
            var key := (e.tenant, cal.monthOf(DayOf(s.now)));
            if step.outage.BeforeCount? then s'.counters == s.counters
            else ValueAt(s'.counters, key, s.now)
                 == ValueAt(s.counters, key, s.now) + e.usage.input + e.usage.output
  {
    if !step.outage.BeforeCount? {
      var e := step.event;
      AddedValue(s.counters, (e.tenant, cal.monthOf(DayOf(s.now))), Tokens(e), s.now, step.outage);
    }
  }

  /** When the store stops answering before the alert, the call alerts no one and claims nothing. */
  lemma OutageSilences(s: Meter, step: Step, cal: Calendar, retentionDays: int)
    requires step.Charge? && step.outage in {BeforeCount, BeforeExpire, BeforeAlert}
    ensures var s' := Next(s, step, cal, retentionDays);
            && s'.alerts == s.alerts && s'.alertKeys == s.alertKeys && s'.exceeded == s.exceeded
            && s'.interrupted == s.interrupted
  {
  }

  /** When its audit fails, the alert is claimed and interrupted. */
  lemma OutageInterrupts(s: Meter, step: Step, cal: Calendar, retentionDays: int)
    requires step.Charge? && step.outage.BeforeAudit? && step.event.usage.input + step.event.usage.output > 0
    ensures var s', e := Next(s, step, cal, retentionDays), step.event;
            var today := (e.tenant, DayOf(s.now));
            var over := ValueAt(s'.counters, (e.tenant, cal.monthOf(DayOf(s.now))), s.now) > step.quota;
            && s'.alerts == s.alerts && s'.exceeded == s.exceeded + (if over then {today} else {})
            && s'.interrupted == s.interrupted + (if over && !Live(s.alertKeys, today, s.now) then {today} else {})
  {
  }

  lemma {:induction false} RunAlerts(s: Meter, steps: seq<Step>, cal: Calendar, retentionDays: int)
    requires AlertsInductive(s)
    ensures AlertsInductive(Run(s, steps, cal, retentionDays))
    decreases steps
  {
    if steps != [] {
      NextAlerts(s, steps[0], cal, retentionDays);
      RunAlerts(Next(s, steps[0], cal, retentionDays), steps[1..], cal, retentionDays);
    }
  }

  /** In every run: one alert, never two, for each tenant and UTC day with a call that came to its alert. */
  lemma AlwaysAlertedOncePerDay(now: int, steps: seq<Step>, cal: Calendar, retentionDays: int)
    ensures AlertedOncePerDay(Run(Start(now), steps, cal, retentionDays))
  {
    RunAlerts(Start(now), steps, cal, retentionDays);
  }
}
