/**
 The periodic renewal of one tenant's webhook subscriptions: a loop over the subscriptions that
 expire within the lead, each under its own lock. It is a run of the lifecycle's renewal steps; the
 loop decides which ones, and a failure takes the connection out of the rest of the tick.
 */
module SubscriptionRenewal {
  import opened Wrappers
  import opened ConnectorService
  import opened ConnectorLifecycle
  import ConnectorTasks

  datatype Key = Key(conn: nat, capability: Capability)

  datatype Outcome = Skipped | Renewed | Failed

  /** What the world does to a subscription: whether its lock is taken, and the new expiry if the renewal succeeds. */
  datatype World = World(busy: Key -> bool, answer: Key -> Option<int>)

  ghost predicate Outlasts(world: World, horizon: int) {
    forall key :: world.answer(key).Some? ==> world.answer(key).value > horizon
  }

  datatype Report = Report(renewed: nat, failed: nat)

  function KeyOf(sub: Subscription): Key {
    Key(sub.conn, sub.capability)
  }

  /** The subscriptions a tick goes through, as the query finds them at its start. */
  function Due(subs: seq<Subscription>, horizon: int): (keys: seq<Key>)
    ensures forall sub :: sub in subs && sub.expiresAt <= horizon ==> KeyOf(sub) in keys
  {
    if subs == [] then []
    else (if subs[0].expiresAt <= horizon then [KeyOf(subs[0])] else []) + Due(subs[1..], horizon)
  }

  /** Where the subscription is now; `|subs|` when it is gone. */
  function IndexOf(subs: seq<Subscription>, key: Key): (i: nat)
    ensures i <= |subs| && (i < |subs| ==> KeyOf(subs[i]) == key)
    ensures i == |subs| ==> forall sub :: sub in subs ==> KeyOf(sub) != key
  {
    if subs == [] then 0 else if KeyOf(subs[0]) == key then 0 else 1 + IndexOf(subs[1..], key)
  }

  /** Reasons to leave a subscription alone. */
  predicate Blocked(s: State, key: Key, world: World) {
    key.conn !in s.conns || s.conns[key.conn].status != ACTIVE || world.busy(key) || key.conn !in s.routes
  }

  function RenewOne(s: State, key: Key, world: World): (State, Outcome) {
    var i := IndexOf(s.subs, key);
    if i == |s.subs| || Blocked(s, key, world) then (s, Skipped)
    else (Next(s, Renew(i, world.answer(key))), if world.answer(key).Some? then Renewed else Failed)
  }

  function Counted(r: Report, outcome: Outcome): Report {
    match outcome
    case Skipped => r
    case Renewed => r.(renewed := r.renewed + 1)
    case Failed => r.(failed := r.failed + 1)
  }

  /** The state and the report after the first `n` subscriptions. */
  function Ticked(s: State, keys: seq<Key>, world: World, n: nat): (State, Report)
    requires n <= |keys|
  {
    if n == 0 then (s, Report(0, 0))
    else
      var (before, report) := Ticked(s, keys, world, n - 1);
      var (after, outcome) := RenewOne(before, keys[n - 1], world);
      (after, Counted(report, outcome))
  }

  // --- The service, in place ---

  class SubscriptionService {
    const now: int
    const routes: set<nat>
    var conns: map<nat, Conn>
    var subs: seq<Subscription>

    constructor (s: State)
      ensures View() == s
    {
      now, routes, conns, subs := s.now, s.routes, s.conns, s.subs;
    }

    ghost function View(): State
      reads this
    {
      State(now, conns, routes, subs)
    }

    /** Creates the missing subscriptions, calendar before mail, and stops at the first creation that fails. */
    method EnsureSubscriptions(conn: nat, expiries: map<Capability, int>) returns (ok: bool)
      requires conn in conns
      modifies this`subs
      ensures var wanted := Notifiable(conns[conn]);
              && subs == Completed(old(subs), conn, wanted, expiries)
              && (ok <==>
                  Creatable(old(subs), conn, Calendar, wanted, expiries)
                  && Creatable(old(subs), conn, Mail, wanted, expiries))
    {
      var existing := Subscribed(subs, conn);
      var order := [Calendar, Mail];
      var granted := Granted(ManifestOf(conns[conn].provider), conns[conn].scopes);
      ghost var before := subs;
      for i := 0 to 2
        invariant i == 0 ==> subs == before
        invariant i >= 1 ==> Creatable(before, conn, Calendar, Notifiable(conns[conn]), expiries)
        invariant i == 1 ==> subs == AddMissing(before, conn, Calendar, Notifiable(conns[conn]), expiries)
        invariant i == 2 ==> subs == Completed(before, conn, Notifiable(conns[conn]), expiries)
        invariant i == 2 ==> Creatable(before, conn, Mail, Notifiable(conns[conn]), expiries)
      {
        CalendarBesidesMail(before, conn, Notifiable(conns[conn]), expiries);
        var capability := order[i];
        if capability !in granted || capability in existing || (conns[conn].provider.Google? && capability == Mail) {
          continue;
        }
        if capability !in expiries {
          return false;
        }
        subs := subs + [Subscription(conn, capability, expiries[capability])];
      }
      return true;
    }

    /** Extends a Graph subscription; a Google channel is created anew before the old one is dropped. */
    method RenewSubscription(i: nat, provider: Provider, expiresAt: int)
      requires i < |subs|
      modifies this`subs
      ensures subs == if provider.Microsoft? then old(subs)[i := old(subs)[i].(expiresAt := expiresAt)]
                      else old(subs)[..i] + old(subs)[i + 1..] + [old(subs)[i].(expiresAt := expiresAt)]
    {
      var sub := subs[i];
      if provider.Microsoft? {
        subs := subs[i := sub.(expiresAt := expiresAt)];
      } else {
        var recreated := subs + [sub.(expiresAt := expiresAt)];
        subs := recreated[..i] + recreated[i + 1..];
      }
    }

    /** One subscription of the loop. */
    method RenewOneSubscription(key: Key, world: World) returns (outcome: Outcome)
      modifies this`conns, this`subs
      ensures (View(), outcome) == RenewOne(old(View()), key, world)
    {
      var i := IndexOf(subs, key);
      if i == |subs| || key.conn !in conns || conns[key.conn].status != ACTIVE {
        return Skipped;
      }
      if world.busy(key) {
        return Skipped;
      }
      if key.conn !in routes {
        return Skipped;
      }
      var c := conns[key.conn];
      match world.answer(key) {
        case Some(expiresAt) =>
          RenewSubscription(i, c.provider, expiresAt);
          conns := conns[key.conn := c.(checkedAt := Some(now))];
          return Renewed;
        case None =>
          conns := conns[key.conn := c.(status := ERROR, lastError := Some("renewal failed"), checkedAt := Some(now))];
          return Failed;
      }
    }

    method RenewExpiringSubscriptions(lead: int, world: World) returns (report: Report)
      modifies this`conns, this`subs
      ensures var keys := Due(old(subs), now + lead);
              (View(), report) == Ticked(old(View()), keys, world, |keys|)
    {
      var expiring := Due(subs, now + lead);
      report := Report(0, 0);
      for n := 0 to |expiring|
        invariant (View(), report) == Ticked(old(View()), expiring, world, n)
      {
        var outcome := RenewOneSubscription(expiring[n], world);
        report := Counted(report, outcome);
      }
    }
  }

  // --- What a tick achieves ---

  lemma IndexIsUnique(subs: seq<Subscription>, key: Key, sub: Subscription)
    requires PairwiseDistinct(subs) && sub in subs && KeyOf(sub) == key
    ensures IndexOf(subs, key) < |subs| && subs[IndexOf(subs, key)] == sub
  {
    var j :| 0 <= j < |subs| && subs[j] == sub;
    var i := IndexOf(subs, key);
    assert KeyOf(subs[i]) == KeyOf(subs[j]);
  }

  /** After a renewal the old subscription is gone, the new one is there, the others are as they were. */
  lemma RenewedMembers(s: State, key: Key, world: World, sub: Subscription)
    requires PairwiseDistinct(s.subs) && sub in RenewOne(s, key, world).0.subs
    ensures if RenewOne(s, key, world).1 == Renewed && KeyOf(sub) == key then sub.expiresAt == world.answer(key).value
            else sub in s.subs
  {
    var i := IndexOf(s.subs, key);
    if RenewOne(s, key, world).1 == Renewed {
      var renewed := s.subs[i].(expiresAt := world.answer(key).value);
      var kept := if s.conns[key.conn].provider.Microsoft? then s.subs[i := renewed]
                  else s.subs[..i] + s.subs[i + 1..] + [renewed];
      assert RenewOne(s, key, world).0.subs == kept;
      var j :| 0 <= j < |kept| && kept[j] == sub;
      if sub in s.subs && KeyOf(sub) == key {
        IndexIsUnique(s.subs, key, sub);
      }
    }
  }

  /** A subscription still due after `n` subscriptions is yet to come, or something blocks it. */
  ghost predicate DueIsBlocked(s: State, keys: seq<Key>, world: World, horizon: int, n: nat)
    requires n <= |keys|
  {
    forall sub :: sub in s.subs && sub.expiresAt <= horizon ==> KeyOf(sub) in keys[n..] || Blocked(s, KeyOf(sub), world)
  }

  lemma RenewOneSettles(s: State, s': State, keys: seq<Key>, world: World, horizon: int, n: nat)
    requires PairwiseDistinct(s.subs) && 0 < n <= |keys| && DueIsBlocked(s, keys, world, horizon, n - 1)
    requires s' == RenewOne(s, keys[n - 1], world).0
    requires Outlasts(world, horizon)
    ensures DueIsBlocked(s', keys, world, horizon, n)
  {
    var key := keys[n - 1];
    forall sub | sub in s'.subs && sub.expiresAt <= horizon
      ensures KeyOf(sub) in keys[n..] || Blocked(s', KeyOf(sub), world)
    {
      RenewedMembers(s, key, world, sub);
      assert keys[n - 1..] == [key] + keys[n..];
      if KeyOf(sub) == key {
        IndexIsUnique(s.subs, key, sub);
      }
    }
  }

  lemma RenewOneKeeps(s: State, key: Key, world: World)
    requires Sound(s)
    ensures Sound(RenewOne(s, key, world).0) && Grown(s, RenewOne(s, key, world).0)
  {
    NextKeeps(s, Renew(IndexOf(s.subs, key), world.answer(key)));
  }

  lemma {:induction false} TickKeeps(s: State, keys: seq<Key>, world: World, n: nat)
    requires Sound(s) && n <= |keys|
    ensures Sound(Ticked(s, keys, world, n).0) && Grown(s, Ticked(s, keys, world, n).0)
  {
    if n > 0 {
      TickKeeps(s, keys, world, n - 1);
      RenewOneKeeps(Ticked(s, keys, world, n - 1).0, keys[n - 1], world);
    }
  }

  lemma TickStepSettles(s: State, keys: seq<Key>, world: World, horizon: int, n: nat)
    requires Sound(s) && 0 < n <= |keys| && Outlasts(world, horizon)
    requires DueIsBlocked(Ticked(s, keys, world, n - 1).0, keys, world, horizon, n - 1)
    ensures DueIsBlocked(Ticked(s, keys, world, n).0, keys, world, horizon, n)
  {
    var before := Ticked(s, keys, world, n - 1).0;
    assert PairwiseDistinct(before.subs) by {
      TickKeeps(s, keys, world, n - 1);
    }
    RenewOneSettles(before, Ticked(s, keys, world, n).0, keys, world, horizon, n);
  }

  lemma {:induction false} TickSettles(s: State, keys: seq<Key>, world: World, horizon: int, n: nat)
    requires Sound(s) && n <= |keys| && DueIsBlocked(s, keys, world, horizon, 0) && Outlasts(world, horizon)
    ensures DueIsBlocked(Ticked(s, keys, world, n).0, keys, world, horizon, n)
  {
    if n > 0 {
      TickSettles(s, keys, world, horizon, n - 1);
      TickStepSettles(s, keys, world, horizon, n);
    }
  }

  /** The state after a whole tick. */
  function AfterTick(s: State, world: World, lead: int): State {
    var keys := Due(s.subs, s.now + lead);
    Ticked(s, keys, world, |keys|).0
  }

  /**
   After a tick whose renewals last past some horizon within the lead, a subscription that does not
   belongs to a connection that is no longer active or has no route, or its lock was taken. The
   lifecycle's invariant survives the tick.
   */
  lemma NothingDueIsLeft(s: State, world: World, lead: int, horizon: int)
    requires Sound(s) && horizon <= s.now + lead && Outlasts(world, horizon)
    ensures Sound(AfterTick(s, world, lead)) && Grown(s, AfterTick(s, world, lead))
    ensures DueOnlyIfBlocked(AfterTick(s, world, lead), world, horizon)
  {
    TickIsSound(s, world, lead);
    TickLeavesBlocked(s, Due(s.subs, s.now + lead), world, horizon);
  }

  lemma TickIsSound(s: State, world: World, lead: int)
    requires Sound(s)
    ensures Sound(AfterTick(s, world, lead)) && Grown(s, AfterTick(s, world, lead))
  {
    TickKeeps(s, Due(s.subs, s.now + lead), world, |Due(s.subs, s.now + lead)|);
  }

  lemma TickLeavesBlocked(s: State, keys: seq<Key>, world: World, horizon: int)
    requires Sound(s) && Outlasts(world, horizon)
    requires forall sub :: sub in s.subs && sub.expiresAt <= horizon ==> KeyOf(sub) in keys
    ensures DueOnlyIfBlocked(Ticked(s, keys, world, |keys|).0, world, horizon)
  {
    AllDueAhead(s, keys, world, horizon);
    TickSettles(s, keys, world, horizon, |keys|);
    NoneAhead(Ticked(s, keys, world, |keys|).0, keys, world, horizon);
  }

  ghost predicate DueOnlyIfBlocked(s: State, world: World, horizon: int) {
    forall sub :: sub in s.subs && sub.expiresAt <= horizon ==> Blocked(s, KeyOf(sub), world)
  }

  lemma AllDueAhead(s: State, keys: seq<Key>, world: World, horizon: int)
    requires forall sub :: sub in s.subs && sub.expiresAt <= horizon ==> KeyOf(sub) in keys
    ensures DueIsBlocked(s, keys, world, horizon, 0)
  {
    assert keys[0..] == keys;
  }

  lemma NoneAhead(s: State, keys: seq<Key>, world: World, horizon: int)
    requires DueIsBlocked(s, keys, world, horizon, |keys|)
    ensures DueOnlyIfBlocked(s, world, horizon)
  {
    assert keys[|keys|..] == [];
  }

  function FailedIn(s: State, end: State): set<nat> {
    set id | id in s.conns && s.conns[id].status == ACTIVE && id in end.conns && end.conns[id].status == ERROR
  }

  lemma RenewOneFails(s: State, before: State, key: Key, world: World)
    requires before.conns.Keys == s.conns.Keys
    requires forall id :: id in s.conns && s.conns[id].status != ACTIVE ==> before.conns[id].status != ACTIVE
    ensures var (after, outcome) := RenewOne(before, key, world);
            && after.conns.Keys == s.conns.Keys
            && (forall id :: id in s.conns && s.conns[id].status != ACTIVE ==> after.conns[id].status != ACTIVE)
            && (outcome == Failed ==>
                  key.conn !in FailedIn(s, before) && FailedIn(s, after) == FailedIn(s, before) + {key.conn})
            && (outcome != Failed ==> FailedIn(s, after) == FailedIn(s, before))
  {
    var (after, outcome) := RenewOne(before, key, world);
    assert forall id :: id in before.conns && id != key.conn ==> after.conns[id] == before.conns[id];
  }

  /**
   The first failure takes a connection out of the tick: the failures reported are so many
   connections put in error.
   */
  lemma {:induction false} OneFailurePerConnection(s: State, keys: seq<Key>, world: World, n: nat)
    requires n <= |keys|
    ensures var (end, report) := Ticked(s, keys, world, n);
            && end.conns.Keys == s.conns.Keys
            && (forall id :: id in s.conns && s.conns[id].status != ACTIVE ==> end.conns[id].status != ACTIVE)
            && report.failed == |FailedIn(s, end)|
  {
    if n > 0 {
      OneFailurePerConnection(s, keys, world, n - 1);
      RenewOneFails(s, Ticked(s, keys, world, n - 1).0, keys[n - 1], world);
    } else {
      assert FailedIn(s, s) == {};
    }
  }

  /** An earlier subscription of the same connection is not blocked, and its renewal fails. */
  ghost predicate FailedBefore(s: State, keys: seq<Key>, world: World, n: nat, conn: nat)
    requires n <= |keys|
  {
    exists m :: 0 <= m < n && keys[m].conn == conn && !Blocked(s, keys[m], world) && world.answer(keys[m]).None?
  }

  predicate Present(subs: seq<Subscription>, key: Key) {
    IndexOf(subs, key) < |subs|
  }

  /** A renewal replaces a subscription by one of the same connection and capability. */
  lemma RenewOnePresent(s: State, renewed: Key, key: Key, world: World)
    requires Present(s.subs, key)
    ensures Present(RenewOne(s, renewed, world).0.subs, key)
  {
    var i, j := IndexOf(s.subs, renewed), IndexOf(s.subs, key);
    var (s', outcome) := RenewOne(s, renewed, world);
    if outcome == Renewed {
      var extended := s.subs[i].(expiresAt := world.answer(renewed).value);
      var k := if s.conns[renewed.conn].provider.Microsoft? then j
               else if j < i then j else if j > i then j - 1 else |s'.subs| - 1;
      assert KeyOf(s'.subs[k]) == key;
      assert s'.subs[k] in s'.subs;
    }
  }

  /** What the tick has made of one connection before its `n`th subscription. */
  ghost predicate ActiveUnlessFailed(s: State, before: State, keys: seq<Key>, world: World, n: nat, id: nat)
    requires n <= |keys|
  {
    && before.routes == s.routes && (id in before.conns <==> id in s.conns)
    && (id in s.conns ==>
          (before.conns[id].status == ACTIVE <==> s.conns[id].status == ACTIVE && !FailedBefore(s, keys, world, n, id)))
  }

  lemma StepActiveUnlessFailed(s: State, before: State, keys: seq<Key>, world: World, n: nat, id: nat)
    requires n < |keys| && Present(before.subs, keys[n])
    requires ActiveUnlessFailed(s, before, keys, world, n, id)
             && ActiveUnlessFailed(s, before, keys, world, n, keys[n].conn)
    ensures ActiveUnlessFailed(s, RenewOne(before, keys[n], world).0, keys, world, n + 1, id)
  {
    if FailedBefore(s, keys, world, n, id) {
      var m :| 0 <= m < n && keys[m].conn == id && !Blocked(s, keys[m], world) && world.answer(keys[m]).None?;
      assert FailedBefore(s, keys, world, n + 1, id);
    }
    assert FailedBefore(s, keys, world, n + 1, id) <==>
      FailedBefore(s, keys, world, n, id)
        || (keys[n].conn == id && !Blocked(s, keys[n], world) && world.answer(keys[n]).None?);
  }

  lemma {:induction false} TickedPresent(s: State, keys: seq<Key>, world: World, n: nat, key: Key)
    requires n <= |keys| && Present(s.subs, key)
    ensures Present(Ticked(s, keys, world, n).0.subs, key)
    decreases n
  {
    if n > 0 {
      TickedPresent(s, keys, world, n - 1, key);
      RenewOnePresent(Ticked(s, keys, world, n - 1).0, keys[n - 1], key, world);
    }
  }

  lemma {:induction false} TickedActiveUnlessFailed(s: State, keys: seq<Key>, world: World, n: nat, id: nat)
    requires n <= |keys| && forall m :: 0 <= m < |keys| ==> Present(s.subs, keys[m])
    ensures ActiveUnlessFailed(s, Ticked(s, keys, world, n).0, keys, world, n, id)
    decreases n
  {
    if n > 0 {
      TickedActiveUnlessFailed(s, keys, world, n - 1, id);
      TickedActiveUnlessFailed(s, keys, world, n - 1, keys[n - 1].conn);
      TickedPresent(s, keys, world, n - 1, keys[n - 1]);
      StepActiveUnlessFailed(s, Ticked(s, keys, world, n - 1).0, keys, world, n - 1, id);
    }
  }

  lemma {:induction false} DuePresent(subs: seq<Subscription>, horizon: int, m: nat)
    requires m < |Due(subs, horizon)|
    ensures Present(subs, Due(subs, horizon)[m])
    decreases subs
  {
    var key := Due(subs, horizon)[m];
    if subs[0].expiresAt > horizon {
      DuePresent(subs[1..], horizon, m);
    } else if m > 0 {
      DuePresent(subs[1..], horizon, m - 1);
    }
  }

  /**
   The `n`th subscription of a tick is skipped exactly when it was blocked at the start, or an
   earlier one of its connection was not blocked and its renewal failed: one failure takes the
   connection out of the rest of the tick.
   */
  lemma SkippedIff(s: State, world: World, lead: int, n: nat)
    requires n < |Due(s.subs, s.now + lead)|
    ensures var keys := Due(s.subs, s.now + lead);
            RenewOne(Ticked(s, keys, world, n).0, keys[n], world).1 == Skipped
            <==> Blocked(s, keys[n], world) || FailedBefore(s, keys, world, n, keys[n].conn)
  {
    var keys := Due(s.subs, s.now + lead);
    forall m | 0 <= m < |keys|
      ensures Present(s.subs, keys[m])
    {
      DuePresent(s.subs, s.now + lead, m);
    }
    TickedActiveUnlessFailed(s, keys, world, n, keys[n].conn);
    TickedPresent(s, keys, world, n, keys[n]);
  }

  function OutcomeOf(s: State, keys: seq<Key>, world: World, m: nat): Outcome
    requires m < |keys|
  {
    RenewOne(Ticked(s, keys, world, m).0, keys[m], world).1
  }

  /** The subscriptions of a tick with this outcome. */
  ghost function WithOutcome(s: State, keys: seq<Key>, world: World, outcome: Outcome): nat -> bool {
    (m: nat) => m < |keys| && OutcomeOf(s, keys, world, m) == outcome
  }

  ghost function Tally(s: State, keys: seq<Key>, world: World, n: nat): Report {
    Report(|ConnectorTasks.Chosen(WithOutcome(s, keys, world, Renewed), n)|,
           |ConnectorTasks.Chosen(WithOutcome(s, keys, world, Failed), n)|)
  }

  lemma TallyGrows(s: State, keys: seq<Key>, world: World, n: nat)
    requires 0 < n <= |keys|
    ensures Tally(s, keys, world, n) == Counted(Tally(s, keys, world, n - 1), OutcomeOf(s, keys, world, n - 1))
  {
    ConnectorTasks.OneMoreChosen(WithOutcome(s, keys, world, Renewed), n);
    ConnectorTasks.OneMoreChosen(WithOutcome(s, keys, world, Failed), n);
  }

  lemma ReportGrows(s: State, keys: seq<Key>, world: World, n: nat)
    requires 0 < n <= |keys|
    ensures Ticked(s, keys, world, n).1 == Counted(Ticked(s, keys, world, n - 1).1, OutcomeOf(s, keys, world, n - 1))
  {
  }

  lemma NothingTallied(s: State, keys: seq<Key>, world: World)
    ensures Tally(s, keys, world, 0) == Report(0, 0) == Ticked(s, keys, world, 0).1
  {
    assert ConnectorTasks.Chosen(WithOutcome(s, keys, world, Renewed), 0) == {};
    assert ConnectorTasks.Chosen(WithOutcome(s, keys, world, Failed), 0) == {};
  }

  /** The report counts the subscriptions renewed and those that failed. */
  lemma {:induction false} ReportCounts(s: State, keys: seq<Key>, world: World, n: nat, report: Report)
    requires n <= |keys| && report == Ticked(s, keys, world, n).1
    ensures report.renewed == |ConnectorTasks.Chosen(WithOutcome(s, keys, world, Renewed), n)|
    ensures report.failed == |ConnectorTasks.Chosen(WithOutcome(s, keys, world, Failed), n)|
  {
    if n == 0 {
      NothingTallied(s, keys, world);
    } else {
      ReportGrows(s, keys, world, n);
      ReportCounts(s, keys, world, n - 1, Ticked(s, keys, world, n - 1).1);
      TallyGrows(s, keys, world, n);
    }
  }

  /** A renewal goes ahead for an ACTIVE connection that has a route and whose lock is free, and for no other. */
  lemma BlockedIff(s: State, key: Key, world: World)
    ensures !Blocked(s, key, world)
            <==> key.conn in s.conns && s.conns[key.conn].status == ACTIVE && key.conn in s.routes && !world.busy(key)
  {
  }

  /** A due subscription that is not skipped is renewed exactly when the provider answers, and has failed otherwise. */
  lemma RenewedIff(s: State, world: World, lead: int, n: nat)
    requires n < |Due(s.subs, s.now + lead)|
    ensures var keys := Due(s.subs, s.now + lead);
            var skipped := Blocked(s, keys[n], world) || FailedBefore(s, keys, world, n, keys[n].conn);
            && (OutcomeOf(s, keys, world, n) == Renewed <==> !skipped && world.answer(keys[n]).Some?)
            && (OutcomeOf(s, keys, world, n) == Failed <==> !skipped && world.answer(keys[n]).None?)
  {
    SkippedIff(s, world, lead, n);
  }

  // --- Subscriptions renewed ahead of time, over whole runs ---

  /**
   A run seen from its last tick: the instant by which the next one comes, and as history the
   subscriptions that tick could not deal with.
   */
  datatype Watch = Watch(s: State, deadline: int, blocked: set<Key>)

  /** A tick, or any step of the lifecycle. */
  datatype Event = Tick(world: World) | Do(step: Step)

  function BlockedKeys(s: State, world: World): set<Key> {
    set sub | sub in s.subs && Blocked(s, KeyOf(sub), world) :: KeyOf(sub)
  }

  function TickNow(s: State, world: World, period: int, lead: int): Watch {
    var end := AfterTick(s, world, lead);
    Watch(end, s.now + period, BlockedKeys(end, world))
  }

  function Advance(w: Watch, e: Event, period: int, lead: int): Watch
    requires e.Do? && e.step.Callback? && e.step.found.Some? ==> e.step.found.value in w.s.conns
  {
    match e
    case Tick(world) => TickNow(w.s, world, period, lead)
    case Do(step) => w.(s := Next(w.s, step))
  }

  /** A new expiry is at least the granted lifetime away. */
  ghost predicate GrantsLifetime(now: int, step: Step, minLifetime: int) {
    match step
    case Sync(_, expiries) => forall c :: c in expiries ==> expiries[c] >= now + minLifetime
    case Renew(_, expiresAt) => expiresAt.Some? ==> expiresAt.value >= now + minLifetime
    case _ => true
  }

  ghost predicate Lasts(world: World, until: int) {
    forall key :: world.answer(key).Some? ==> world.answer(key).value >= until
  }

  /** Time does not pass the deadline without a tick. */
  ghost predicate Allowed(w: Watch, e: Event, minLifetime: int) {
    match e
    case Tick(world) => Lasts(world, w.s.now + minLifetime)
    case Do(step) =>
      && Possible(w.s, step) && GrantsLifetime(w.s.now, step, minLifetime)
      && (step.Pass? ==> w.s.now + step.milliseconds <= w.deadline)
  }

  ghost predicate AllowedRun(w: Watch, events: seq<Event>, period: int, lead: int, minLifetime: int)
    decreases events
  {
    events == [] || (Allowed(w, events[0], minLifetime)
                     && AllowedRun(Advance(w, events[0], period, lead), events[1..], period, lead, minLifetime))
  }

  ghost function Watched(w: Watch, events: seq<Event>, period: int, lead: int, minLifetime: int): Watch
    requires AllowedRun(w, events, period, lead, minLifetime)
    decreases events
  {
    if events == [] then w else Watched(Advance(w, events[0], period, lead), events[1..], period, lead, minLifetime)
  }

  /** Every subscription the last tick could deal with is unexpired. */
  ghost predicate Alive(w: Watch) {
    forall sub :: sub in w.s.subs && sub.expiresAt <= w.s.now ==> KeyOf(sub) in w.blocked
  }

  /** And stays so until the deadline. */
  ghost predicate AliveToDeadline(w: Watch, period: int) {
    && Sound(w.s) && w.s.now <= w.deadline <= w.s.now + period
    && forall sub :: sub in w.s.subs && sub.expiresAt <= w.deadline ==> KeyOf(sub) in w.blocked
  }

  lemma TickBlocks(s: State, world: World, period: int, lead: int, minLifetime: int)
    requires Sound(s) && Lasts(world, s.now + minLifetime) && 0 <= period <= lead && period < minLifetime
    ensures var w := TickNow(s, world, period, lead);
            Sound(w.s) && forall sub :: sub in w.s.subs && sub.expiresAt <= s.now + period ==> KeyOf(sub) in w.blocked
  {
    NothingDueIsLeft(s, world, lead, s.now + period);
    BlockedAreListed(AfterTick(s, world, lead), world, s.now + period);
  }

  lemma BlockedAreListed(s: State, world: World, horizon: int)
    requires DueOnlyIfBlocked(s, world, horizon)
    ensures forall sub :: sub in s.subs && sub.expiresAt <= horizon ==> KeyOf(sub) in BlockedKeys(s, world)
  {
  }

  lemma TickAlive(s: State, world: World, period: int, lead: int, minLifetime: int)
    requires Sound(s) && Lasts(world, s.now + minLifetime) && 0 <= period <= lead && period < minLifetime
    ensures AliveToDeadline(TickNow(s, world, period, lead), period)
  {
    TickBlocks(s, world, period, lead, minLifetime);
    TickKeepsTime(s, Due(s.subs, s.now + lead), world, |Due(s.subs, s.now + lead)|);
  }

  lemma {:induction false} TickKeepsTime(s: State, keys: seq<Key>, world: World, n: nat)
    requires n <= |keys|
    ensures Ticked(s, keys, world, n).0.now == s.now
  {
    if n > 0 {
      TickKeepsTime(s, keys, world, n - 1);
    }
  }

  /** A step only adds subscriptions it was granted. */
  lemma NextSubs(s: State, step: Step, minLifetime: int, sub: Subscription)
    requires Possible(s, step) && GrantsLifetime(s.now, step, minLifetime) && sub in Next(s, step).subs
    ensures sub in s.subs || sub.expiresAt >= s.now + minLifetime
  {
    if step.Revoke? {
      WithoutMembers(s.subs, step.conn);
    }
  }

  lemma StepAlive(w: Watch, step: Step, period: int, minLifetime: int)
    requires AliveToDeadline(w, period) && Allowed(w, Do(step), minLifetime) && period < minLifetime
    ensures AliveToDeadline(w.(s := Next(w.s, step)), period)
  {
    NextKeeps(w.s, step);
    forall sub | sub in Next(w.s, step).subs && sub.expiresAt <= w.deadline
      ensures KeyOf(sub) in w.blocked
    {
      NextSubs(w.s, step, minLifetime, sub);
    }
  }

  lemma {:induction false} RunAlive(w: Watch, events: seq<Event>, period: int, lead: int, minLifetime: int)
    requires AliveToDeadline(w, period) && AllowedRun(w, events, period, lead, minLifetime)
    requires 0 <= period <= lead && period < minLifetime
    ensures Alive(Watched(w, events, period, lead, minLifetime))
    decreases events
  {
    if events != [] {
      match events[0] {
        case Tick(world) => TickAlive(w.s, world, period, lead, minLifetime);
        case Do(step) => StepAlive(w, step, period, minLifetime);
      }
      RunAlive(Advance(w, events[0], period, lead), events[1..], period, lead, minLifetime);
    }
  }

  ghost predicate SafeRun(s: State, world: World, events: seq<Event>, period: int, lead: int, minLifetime: int) {
    var w := TickNow(s, world, period, lead);
    Sound(s) && Lasts(world, s.now + minLifetime) && AllowedRun(w, events, period, lead, minLifetime)
    ==> Alive(Watched(w, events, period, lead, minLifetime))
  }

  /** From a first tick in any sound state, whatever then happens. */
  ghost predicate SafeRenewal(period: int, lead: int, minLifetime: int) {
    forall s, world, events :: SafeRun(s, world, events, period, lead, minLifetime)
  }

  /**
   In every run of ticks and lifecycle steps, at every instant after the first tick, each
   subscription the last tick could deal with is unexpired, if and only if the period is within the
   lead and shorter than every granted lifetime.
   */
  lemma SubscriptionsNeverLapseIff(period: int, lead: int, minLifetime: int)
    requires period >= 1 && lead >= 0 && minLifetime >= 0
    ensures SafeRenewal(period, lead, minLifetime) <==> period <= lead && period < minLifetime
  {
    if period <= lead && period < minLifetime {
      forall s, world, events
        ensures SafeRun(s, world, events, period, lead, minLifetime)
      {
        RunIsSafe(s, world, events, period, lead, minLifetime);
      }
    } else if period > lead {
      LapsesAt(period, lead, minLifetime, lead + 1, lead + 1);
    } else {
      LapsesAt(period, lead, minLifetime, lead, minLifetime);
    }
  }

  lemma RunIsSafe(s: State, world: World, events: seq<Event>, period: int, lead: int, minLifetime: int)
    requires 0 <= period <= lead && period < minLifetime
    ensures SafeRun(s, world, events, period, lead, minLifetime)
  {
    var w := TickNow(s, world, period, lead);
    if Sound(s) && Lasts(world, s.now + minLifetime) && AllowedRun(w, events, period, lead, minLifetime) {
      TickAlive(s, world, period, lead, minLifetime);
      RunAlive(w, events, period, lead, minLifetime);
    }
  }

  /** One subscription, not due at the tick or granted too short a life by it, and nothing but time until it expires. */
  lemma LapsesAt(period: int, lead: int, minLifetime: int, initial: int, expiry: nat)
    requires lead >= 0 && minLifetime >= 0 && expiry <= period
    requires expiry == if initial <= lead then minLifetime else initial
    ensures !SafeRenewal(period, lead, minLifetime)
  {
    var c := Conn(Microsoft, TenantKind, "", {}, Some("access"), Some("refresh"), 0, ACTIVE, None, None);
    var s := State(0, map[0 := c], {0}, [Subscription(0, Calendar, initial)]);
    var world := World.World((key: Key) => false, (key: Key) => Some(minLifetime));
    forall key
      ensures world.answer(key) == Some(minLifetime)
    {
    }
    OneSubscriptionLapses(s, world, period, lead, minLifetime, c, initial, expiry);
    assert !SafeRun(s, world, [Do(Pass(expiry))], period, lead, minLifetime);
  }

  lemma OneSubscriptionLapses(s: State, world: World, period: int, lead: int, minLifetime: int, c: Conn, initial: int,
                              expiry: nat)
    requires c.status == ACTIVE && c.provider == Microsoft && c.refresh.Some?
    requires s == State(0, map[0 := c], {0}, [Subscription(0, Calendar, initial)])
    requires !world.busy(Key(0, Calendar)) && forall key :: world.answer(key) == Some(minLifetime)
    requires expiry <= period && expiry == if initial <= lead then minLifetime else initial
    ensures !SafeRun(s, world, [Do(Pass(expiry))], period, lead, minLifetime)
  {
    OneSubscriptionTick(s, world, period, lead, c, initial, minLifetime);
    LapsesAtItsExpiry(TickNow(s, world, period, lead), period, lead, minLifetime, expiry);
  }

  lemma LapsesAtItsExpiry(w: Watch, period: int, lead: int, minLifetime: int, expiry: nat)
    requires w.s.now == 0 && w.deadline == period && w.blocked == {} && expiry <= period
    requires w.s.subs == [Subscription(0, Calendar, expiry)]
    ensures var events := [Do(Pass(expiry))];
            AllowedRun(w, events, period, lead, minLifetime) && !Alive(Watched(w, events, period, lead, minLifetime))
  {
    JustTime(w, expiry, period, lead, minLifetime);
    assert w.s.subs[0] in w.s.subs;
  }

  lemma JustTime(w: Watch, milliseconds: nat, period: int, lead: int, minLifetime: int)
    requires w.s.now + milliseconds <= w.deadline
    ensures var events := [Do(Pass(milliseconds))];
            && AllowedRun(w, events, period, lead, minLifetime)
            && Watched(w, events, period, lead, minLifetime) == w.(s := w.s.(now := w.s.now + milliseconds))
  {
    var events := [Do(Pass(milliseconds))];
    var later := Advance(w, events[0], period, lead);
    assert Possible(w.s, Pass(milliseconds)) && Allowed(w, events[0], minLifetime);
    assert events[1..] == [] && AllowedRun(later, [], period, lead, minLifetime);
    assert Watched(later, [], period, lead, minLifetime) == later;
  }

  lemma OneSubscriptionRenewed(s: State, world: World, c: Conn, sub: Subscription, expiresAt: int)
    requires c.status == ACTIVE && c.provider == Microsoft && s == State(0, map[0 := c], {0}, [sub]) && sub.conn == 0
    requires !world.busy(KeyOf(sub)) && world.answer(KeyOf(sub)) == Some(expiresAt)
    ensures RenewOne(s, KeyOf(sub), world).0
            == State(0, map[0 := c.(checkedAt := Some(0))], {0}, [sub.(expiresAt := expiresAt)])
  {
    assert IndexOf(s.subs, KeyOf(sub)) == 0;
    assert s.subs[0 := sub.(expiresAt := expiresAt)] == [sub.(expiresAt := expiresAt)];
  }

  lemma DueOfOne(sub: Subscription, horizon: int)
    ensures Due([sub], horizon) == if sub.expiresAt <= horizon then [KeyOf(sub)] else []
  {
    assert [sub][1..] == [] && Due([], horizon) == [];
  }

  lemma TickedOnce(s: State, key: Key, world: World)
    ensures Ticked(s, [key], world, 1).0 == RenewOne(s, key, world).0 && Ticked(s, [], world, 0).0 == s
  {
    assert Ticked(s, [key], world, 0).0 == s;
  }

  lemma OneSubscriptionTick(s: State, world: World, period: int, lead: int, c: Conn, initial: int, minLifetime: int)
    requires c.status == ACTIVE && c.provider == Microsoft
    requires s == State(0, map[0 := c], {0}, [Subscription(0, Calendar, initial)])
    requires !world.busy(Key(0, Calendar)) && world.answer(Key(0, Calendar)) == Some(minLifetime)
    ensures var w := TickNow(s, world, period, lead);
            && w.s.now == 0 && w.deadline == period && w.blocked == {}
            && w.s.subs == [Subscription(0, Calendar, if initial <= lead then minLifetime else initial)]
  {
    var sub := Subscription(0, Calendar, initial);
    DueOfOne(sub, lead);
    TickedOnce(s, KeyOf(sub), world);
    OneSubscriptionRenewed(s, world, c, sub, minLifetime);
  }

  const HOUR := 60 * ConnectorTasks.MINUTE
  const RENEWAL_PERIOD := HOUR
  const RENEWAL_LEAD := 24 * HOUR
  const GRAPH_TTL := 72 * HOUR
  const GOOGLE_TTL := 168 * HOUR

  /** As deployed, both providers' subscriptions, and any that is granted more than an hour. */
  lemma DeployedRenewalIsSafe(lifetime: int)
    requires lifetime > HOUR
    ensures SafeRenewal(RENEWAL_PERIOD, RENEWAL_LEAD, lifetime)
    ensures SafeRenewal(RENEWAL_PERIOD, RENEWAL_LEAD, GRAPH_TTL)
            && SafeRenewal(RENEWAL_PERIOD, RENEWAL_LEAD, GOOGLE_TTL)
  {
    SubscriptionsNeverLapseIff(RENEWAL_PERIOD, RENEWAL_LEAD, lifetime);
    SubscriptionsNeverLapseIff(RENEWAL_PERIOD, RENEWAL_LEAD, GRAPH_TTL);
    SubscriptionsNeverLapseIff(RENEWAL_PERIOD, RENEWAL_LEAD, GOOGLE_TTL);
  }
}
