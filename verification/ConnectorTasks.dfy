/**
 The periodic tasks: refreshing the tokens that expire soon, and why tokens and subscriptions
 renewed ahead of time never lapse.
 */
module ConnectorTasks {
  import opened Wrappers
  import opened ConnectorService

  datatype TickOutcome = NotDue | Refreshed | Skipped | Failed | Aborted

  datatype Report = Report(refreshed: nat, skipped: nat, failed: nat)

  /**
   What one connection meets in a tick: when it is looked at, whether its lock is taken, the grant
   and when it is answered.
   */
  datatype Visit = Visit(at: int, busy: bool, grant: Grant, answeredAt: int)

  /**
   One connection in one tick. A dead consent and a busy lock both count as skipped; an error the
   task does not catch ends the tick and is rolled back.
   */
  function TickOne(c: Conn, v: Visit, lead: int): (Conn, TickOutcome) {
    if c.status != ACTIVE || !Expiring(c, lead, v.at) then (c, NotDue)
    else if v.busy then (c, Skipped)
    else
      var (c', result) := AfterGrant(c, v.grant, v.answeredAt);
      match result
      case Ok(true) => (c', Refreshed)
      case Ok(false) => (c', Skipped)
      case Err(Recoverable) => (c', Failed)
      case Err(_) => (c, Aborted)
  }

  function Counted(r: Report, outcome: TickOutcome): Report {
    match outcome
    case Refreshed => r.(refreshed := r.refreshed + 1)
    case Skipped => r.(skipped := r.skipped + 1)
    case Failed => r.(failed := r.failed + 1)
    case _ => r
  }

  ghost function ReportOf(before: seq<Conn>, visits: seq<Visit>, lead: int, n: nat): Report
    requires n <= |before| == |visits|
  {
    if n == 0 then Report(0, 0, 0)
    else Counted(ReportOf(before, visits, lead, n - 1), TickOne(before[n - 1], visits[n - 1], lead).1)
  }

  /** An ACTIVE connection whose token runs out within the lead. */
  predicate IsDue(c: Conn, v: Visit, lead: int) {
    c.status == ACTIVE && c.expiresAt - lead <= v.at
  }

  /**
   What a connection counts as: refreshed when granted, skipped when its lock is taken or its consent
   dead, failed on any other refusal. A connection without tokens and an unusable answer end the tick,
   and so does nothing else.
   */
  lemma OutcomeIff(c: Conn, v: Visit, lead: int)
    ensures var outcome := TickOne(c, v, lead).1;
            && (outcome == NotDue <==> !IsDue(c, v, lead))
            && (IsDue(c, v, lead) && v.busy ==> outcome == Skipped)
            && (IsDue(c, v, lead) && !v.busy ==>
                  && (outcome == Aborted <==> c.refresh.None? || IsUnusable(v.grant))
                  && (outcome == Refreshed <==> c.refresh.Some? && v.grant.Ok?)
                  && (outcome == Skipped <==> c.refresh.Some? && IsDead(v.grant)))
    ensures TickOne(c, v, lead).1 in {NotDue, Aborted} || (IsDue(c, v, lead) && v.busy) ==> TickOne(c, v, lead).0 == c
  {
  }

  /** Which of the first `n` are chosen. */
  ghost function Chosen(choice: nat -> bool, n: nat): set<nat> {
    set i: nat | i < n && choice(i)
  }

  lemma OneMoreChosen(choice: nat -> bool, n: nat)
    requires n > 0
    ensures |Chosen(choice, n)| == |Chosen(choice, n - 1)| + (if choice(n - 1) then 1 else 0)
  {
    assert Chosen(choice, n) == Chosen(choice, n - 1) + (if choice(n - 1) then {n - 1} else {});
  }

  /** The connections of a tick with this outcome. */
  ghost function WithOutcome(before: seq<Conn>, visits: seq<Visit>, lead: int, outcome: TickOutcome): nat -> bool {
    (i: nat) => i < |before| && i < |visits| && TickOne(before[i], visits[i], lead).1 == outcome
  }

  /** The report counts the connections refreshed, skipped and failed. */
  lemma {:induction false} ReportCounts(before: seq<Conn>, visits: seq<Visit>, lead: int, n: nat)
    requires n <= |before| == |visits|
    ensures ReportOf(before, visits, lead, n)
            == Report(|Chosen(WithOutcome(before, visits, lead, Refreshed), n)|,
                      |Chosen(WithOutcome(before, visits, lead, Skipped), n)|,
                      |Chosen(WithOutcome(before, visits, lead, Failed), n)|)
  {
    var refreshed := WithOutcome(before, visits, lead, Refreshed);
    var skipped := WithOutcome(before, visits, lead, Skipped);
    var failed := WithOutcome(before, visits, lead, Failed);
    if n == 0 {
      assert Chosen(refreshed, 0) == {} == Chosen(skipped, 0) && Chosen(failed, 0) == {};
    } else {
      ReportCounts(before, visits, lead, n - 1);
      OneMoreChosen(refreshed, n);
      OneMoreChosen(skipped, n);
      OneMoreChosen(failed, n);
    }
  }

  method TickConnection(c: Connection, v: Visit, lead: int) returns (outcome: TickOutcome)
    modifies c
    ensures (c.View(), outcome) == TickOne(old(c.View()), v, lead)
  {
    if c.status != ACTIVE || !Expiring(c.View(), lead, v.at) {
      return NotDue;
    }
    if v.busy {
      return Skipped;
    }
    var result := c.ApplyGrant(v.grant, v.answeredAt);
    match result
    case Ok(true) => return Refreshed;
    case Ok(false) => return Skipped;
    case Err(Recoverable) => return Failed;
    case Err(_) => return Aborted;
  }

  /** A connection dealt with in a tick, without an escaping error. */
  predicate Ticked(before: Conn, after: Conn, v: Visit, lead: int) {
    TickOne(before, v, lead).0 == after && !AbortsTick(before, v, lead)
  }

  predicate AbortsTick(before: Conn, v: Visit, lead: int) {
    TickOne(before, v, lead).1 == Aborted
  }

  /**
   Goes through the tenant's connections, whose rows are `before`; `done` of them were dealt with,
   all unless an error got out.
   */
  method RefreshExpiringTokens(connections: seq<Connection>, ghost before: seq<Conn>, visits: seq<Visit>, lead: int)
    returns (report: Report, ghost done: nat)
    requires |connections| == |before| == |visits|
    requires forall i, j :: 0 <= i < j < |connections| ==> connections[i] != connections[j]
    requires forall i :: 0 <= i < |connections| ==> connections[i].View() == before[i]
    modifies connections
    ensures done <= |connections| && report == ReportOf(before, visits, lead, done)
    ensures forall i :: 0 <= i < done ==> Ticked(before[i], connections[i].View(), visits[i], lead)
    ensures done < |connections| ==> AbortsTick(before[done], visits[done], lead)
    ensures forall i :: done <= i < |connections| ==> connections[i].View() == before[i]
  {
    report := Report(0, 0, 0);
    for i := 0 to |connections|
      invariant forall k :: 0 <= k < i ==> Ticked(before[k], connections[k].View(), visits[k], lead)
      invariant forall k :: i <= k < |connections| ==> connections[k].View() == before[k]
      invariant report == ReportOf(before, visits, lead, i)
    {
      assert connections[i].View() == before[i];
      var outcome := TickConnection(connections[i], visits[i], lead);
      if outcome == Aborted {
        return report, i;
      }
      assert Ticked(before[i], connections[i].View(), visits[i], lead);
      report := Counted(report, outcome);
    }
    return report, |connections|;
  }

  // --- Tokens renewed ahead of time, over runs of ticks ---

  /** A tick whose grant, if it makes one, succeeds after some delay. */
  datatype Tick = Tick(at: int, delay: nat, bundle: TokenBundle)

  /**
   Ticks at most a period apart, each answered before the next, with a bound on the delays and the
   granted lifetimes.
   */
  ghost predicate Schedule(ticks: seq<Tick>, period: int, slowest: nat, minLifetime: int) {
    && (forall i :: 0 <= i < |ticks| ==> ticks[i].delay <= slowest && ticks[i].bundle.lifetime >= minLifetime)
    && (forall i :: 0 <= i < |ticks| - 1 ==> Follows(ticks[i], ticks[i + 1], period))
  }

  predicate Follows(tick: Tick, next: Tick, period: int) {
    tick.at < next.at && tick.at + tick.delay <= next.at <= tick.at + period
  }

  /** The connection after the first `n` ticks. */
  function After(c: Conn, ticks: seq<Tick>, lead: int, n: nat): Conn
    requires n <= |ticks|
  {
    if n == 0 then c
    else
      var tick := ticks[n - 1];
      TickOne(After(c, ticks, lead, n - 1), Visit(tick.at, false, Ok(tick.bundle), tick.at + tick.delay), lead).0
  }

  lemma {:induction false} StaysRefreshable(c: Conn, ticks: seq<Tick>, lead: int, n: nat)
    requires c.status == ACTIVE && c.refresh.Some? && n <= |ticks|
    ensures After(c, ticks, lead, n).status == ACTIVE && After(c, ticks, lead, n).refresh.Some?
  {
    if n > 0 {
      StaysRefreshable(c, ticks, lead, n - 1);
    }
  }

  predicate Unexpired(c: Conn, instant: int) {
    c.expiresAt > instant
  }

  /** Unexpired at every instant from the answer of the `n`th tick to the answer of the next, that one included. */
  ghost predicate LivesToNextTick(c: Conn, ticks: seq<Tick>, lead: int, n: nat)
    requires 0 < n < |ticks|
  {
    forall x :: ticks[n - 1].at + ticks[n - 1].delay <= x <= ticks[n].at + ticks[n].delay ==>
      Unexpired(After(c, ticks, lead, n), x)
  }

  ghost predicate NeverLapses(c: Conn, ticks: seq<Tick>, lead: int) {
    forall n :: 0 < n < |ticks| ==> LivesToNextTick(c, ticks, lead, n)
  }

  ghost predicate SafeSchedule(period: int, slowest: nat, lead: int, minLifetime: int) {
    forall c: Conn, ticks ::
      c.status == ACTIVE && c.refresh.Some? && Schedule(ticks, period, slowest, minLifetime) ==>
        NeverLapses(c, ticks, lead)
  }

  lemma LivesOn(c: Conn, ticks: seq<Tick>, period: int, slowest: nat, lead: int, minLifetime: int, n: nat)
    requires c.status == ACTIVE && c.refresh.Some? && Schedule(ticks, period, slowest, minLifetime) && 0 < n < |ticks|
    requires period + slowest <= lead && period + slowest < minLifetime
    ensures LivesToNextTick(c, ticks, lead, n)
  {
    StaysRefreshable(c, ticks, lead, n - 1);
    assert Follows(ticks[n - 1], ticks[n - 1 + 1], period);
    assert ticks[n].delay <= slowest && ticks[n - 1].bundle.lifetime >= minLifetime;
  }

  /**
   Whatever the ACTIVE connection before the first tick: no token lapses after its answer, on any
   schedule of that period and answer delay, if and only if period and delay together are within
   the lead and shorter than every granted lifetime.
   */
  lemma NeverLapsesIff(period: int, slowest: nat, lead: int, minLifetime: int)
    requires period >= 1
    ensures SafeSchedule(period, slowest, lead, minLifetime)
            <==> period + slowest <= lead && period + slowest < minLifetime
  {
    if period + slowest <= lead && period + slowest < minLifetime {
      forall c: Conn, ticks | c.status == ACTIVE && c.refresh.Some? && Schedule(ticks, period, slowest, minLifetime)
        ensures NeverLapses(c, ticks, lead)
      {
        forall n | 0 < n < |ticks|
          ensures LivesToNextTick(c, ticks, lead, n)
        {
          LivesOn(c, ticks, period, slowest, lead, minLifetime, n);
        }
      }
    } else {
      LapsesOtherwise(period, slowest, lead, minLifetime);
    }
  }

  /**
   A token that is just not due at the first tick, or is granted too short a life by it, lapses
   before the second is answered.
   */
  lemma LapsesOtherwise(period: int, slowest: nat, lead: int, minLifetime: int)
    requires period >= 1 && !(period + slowest <= lead && period + slowest < minLifetime)
    ensures !SafeSchedule(period, slowest, lead, minLifetime)
  {
    var initial := if period + slowest > lead then lead + 1 else lead;
    var c := Conn(Google, TenantKind, "", {}, Some("access"), Some("refresh"), initial, ACTIVE, None, None);
    var bundle := TokenBundle("access", minLifetime, None, {});
    var ticks := [Tick(0, 0, bundle), Tick(period, slowest, bundle)];
    assert Follows(ticks[0], ticks[1], period);
    assert Schedule(ticks, period, slowest, minLifetime);
    assert After(c, ticks, lead, 0) == c;
    assert After(c, ticks, lead, 1).expiresAt == if initial <= lead then minLifetime else initial;
    assert !Unexpired(After(c, ticks, lead, 1), period + slowest);
    assert !LivesToNextTick(c, ticks, lead, 1);
    assert !NeverLapses(c, ticks, lead);
  }

  const MINUTE := 60_000
  const REFRESH_PERIOD := 5 * MINUTE

  /**
   As deployed, while the endpoint answers within five minutes, tokens that outlive the period and
   that delay never lapse.
   */
  lemma DeployedRefreshIsSafe(slowest: nat, tokenLifetime: int)
    requires slowest <= 5 * MINUTE && tokenLifetime > REFRESH_PERIOD + slowest
    ensures SafeSchedule(REFRESH_PERIOD, slowest, REFRESH_LEAD, tokenLifetime)
  {
    NeverLapsesIff(REFRESH_PERIOD, slowest, REFRESH_LEAD, tokenLifetime);
  }
}
