/**
 The life of connections over whole runs of requests and tasks, one at a time: consent callbacks,
 refreshes, subscription creation and renewal, revocations. A failed request is rolled back; the
 two commits of a callback or a revocation can be separated by a crash.
 */
module ConnectorLifecycle {
  import opened Wrappers
  import opened ConnectorService

  // --- Scopes and capabilities ---

  datatype Capability = Mail | Calendar

  datatype Manifest = Manifest(baseScopes: seq<string>, capabilityScopes: map<Capability, seq<string>>)

  const GOOGLE := Manifest(
    ["openid", "email"],
    map[Mail := ["https://www.googleapis.com/auth/gmail.readonly", "https://www.googleapis.com/auth/gmail.send"],
        Calendar := ["https://www.googleapis.com/auth/calendar"]])

  const MICROSOFT := Manifest(
    ["openid", "email", "offline_access"],
    map[Mail := ["Mail.Read", "Mail.Send"], Calendar := ["Calendars.ReadWrite"]])

  function ManifestOf(p: Provider): Manifest {
    match p case Google => GOOGLE case Microsoft => MICROSOFT
  }

  function Members(scopes: seq<string>): set<string> {
    set s | s in scopes
  }

  /** The capabilities whose scopes have all been granted. */
  function Granted(m: Manifest, scopes: set<string>): set<Capability> {
    set c | c in m.capabilityScopes && Members(m.capabilityScopes[c]) <= scopes
  }

  ghost predicate Distinct(scopes: seq<string>) {
    forall i, j :: 0 <= i < j < |scopes| ==> scopes[i] != scopes[j]
  }

  /**
   The scopes to ask for: the base ones first, then those of each capability, without repeats; None
   for an unsupported one.
   */
  method ScopesFor(m: Manifest, capabilities: seq<Capability>) returns (scopes: Option<seq<string>>)
    requires Distinct(m.baseScopes)
    ensures scopes.None? <==> exists i :: 0 <= i < |capabilities| && capabilities[i] !in m.capabilityScopes
    ensures scopes.Some? ==>
              && m.baseScopes <= scopes.value && Distinct(scopes.value)
              && (forall i :: 0 <= i < |capabilities| ==> capabilities[i] in Granted(m, Members(scopes.value)))
              && (forall s :: s in scopes.value && s !in m.baseScopes ==>
                    exists i :: 0 <= i < |capabilities| && s in m.capabilityScopes[capabilities[i]])
  {
    var asked := m.baseScopes;
    for i := 0 to |capabilities|
      invariant m.baseScopes <= asked && Distinct(asked)
      invariant forall k :: 0 <= k < i ==> capabilities[k] in Granted(m, Members(asked))
      invariant forall s :: s in asked && s !in m.baseScopes ==>
                  exists k :: 0 <= k < i && s in m.capabilityScopes[capabilities[k]]
    {
      if capabilities[i] !in m.capabilityScopes {
        return None;
      }
      var more := m.capabilityScopes[capabilities[i]];
      ghost var before := asked;
      for j := 0 to |more|
        invariant before <= asked && Distinct(asked)
        invariant forall k :: 0 <= k < j ==> more[k] in asked
        invariant forall s :: s in asked ==> s in before || s in more
      {
        if more[j] !in asked {
          asked := asked + [more[j]];
        }
      }
      assert Members(more) <= Members(asked);
      assert Members(before) <= Members(asked);
    }
    return Some(asked);
  }

  // --- State ---

  datatype Subscription = Subscription(conn: nat, capability: Capability, expiresAt: int)

  /** `routes` are the connections that have a webhook route in the control plane. */
  datatype State = State(now: int, conns: map<nat, Conn>, routes: set<nat>, subs: seq<Subscription>)

  datatype Step =
    // a consent that came back; `reconsent` names the connection it was started for, `found` the
    // live connection of the same account the query returns, `id` a fresh identifier
    | Callback(reconsent: Option<nat>, found: Option<nat>, id: nat, provider: Provider, kind: Kind, account: string,
               granted: set<string>, bundle: TokenBundle, crash: bool)
    | Refresh(conn: nat, grant: Grant, caught: bool)
    | Sync(conn: nat, expiries: map<Capability, int>)   // the creations that succeed, with their expiry
    | Renew(sub: nat, expiresAt: Option<int>)         // None: the renewal fails
    | Revoke(conn: nat, crash: bool)
    | Pass(milliseconds: nat)

  predicate SameAccount(c: Conn, provider: Provider, kind: Kind, account: string) {
    c.provider == provider && c.kind == kind && c.account == account && c.status != REVOKED
  }

  /** The connection a callback works on: the one being re-consented, else one the query finds, else a new one. */
  function Target(s: State, step: Step): Option<nat>
    requires step.Callback?
  {
    if step.reconsent.Some? && step.reconsent.value in s.conns then step.reconsent else step.found
  }

  ghost predicate QueryAnswer(s: State, step: Step)
    requires step.Callback?
  {
    if step.found.Some? then
      step.found.value in s.conns && SameAccount(s.conns[step.found.value], step.provider, step.kind, step.account)
    else forall id :: id in s.conns ==> !SameAccount(s.conns[id], step.provider, step.kind, step.account)
  }

  /** The row after the upsert; None when no refresh token is to be had, and the request fails. */
  function Upserted(s: State, step: Step): Option<Conn>
    requires step.Callback? && (step.found.Some? ==> step.found.value in s.conns)
  {
    var target := Target(s, step);
    if target.None? && step.bundle.refresh.None? then None
    else
      var base :=
        if target.None? then
          Conn(step.provider, step.kind, step.account, step.granted, None, None, s.now, ACTIVE, None, None)
        else
          var c := s.conns[target.value];
          c.(account := step.account, scopes := c.scopes + step.granted);
      var c := WithBundle(base, step.bundle, s.now);
      if c.refresh.None? then None else Some(c)
  }

  /** Gmail has no direct webhook. */
  function Notifiable(c: Conn): set<Capability> {
    if c.provider.Google? then Granted(ManifestOf(c.provider), c.scopes) - {Mail}
    else Granted(ManifestOf(c.provider), c.scopes)
  }

  function Subscribed(subs: seq<Subscription>, conn: nat): set<Capability> {
    set s | s in subs && s.conn == conn :: s.capability
  }

  predicate Creatable(subs: seq<Subscription>, conn: nat, capability: Capability, wanted: set<Capability>,
                      expiresAt: map<Capability, int>)
  {
    capability in wanted && capability !in Subscribed(subs, conn) ==> capability in expiresAt
  }

  /** Adds the subscriptions that are missing, in the order the task takes them, up to the first creation that fails. */
  function Completed(subs: seq<Subscription>, conn: nat, wanted: set<Capability>, expiresAt: map<Capability, int>)
    : seq<Subscription>
  {
    var first := AddMissing(subs, conn, Calendar, wanted, expiresAt);
    if Creatable(subs, conn, Calendar, wanted, expiresAt) then AddMissing(first, conn, Mail, wanted, expiresAt)
    else first
  }

  function AddMissing(subs: seq<Subscription>, conn: nat, capability: Capability, wanted: set<Capability>,
                      expiresAt: map<Capability, int>): seq<Subscription>
  {
    if capability in wanted && capability !in Subscribed(subs, conn) && capability in expiresAt then
      subs + [Subscription(conn, capability, expiresAt[capability])]
    else subs
  }

  function Without(subs: seq<Subscription>, conn: nat): seq<Subscription> {
    if subs == [] then []
    else (if subs[0].conn == conn then [] else [subs[0]]) + Without(subs[1..], conn)
  }

  function Next(s: State, step: Step): State
    requires step.Callback? && step.found.Some? ==> step.found.value in s.conns
  {
    match step
    case Callback(_, _, id, _, _, _, _, _, crash) =>
      var target := Target(s, step);
      var c := Upserted(s, step);
      if c.None? || (target.None? && id in s.conns) then s
      else
        var conn := if target.Some? then target.value else id;
        s.(conns := s.conns[conn := c.value], routes := if crash then s.routes else s.routes + {conn})
    case Refresh(conn, grant, caught) =>
      if conn !in s.conns || s.conns[conn].status != ACTIVE then s
      else
        var (c, result) := AfterGrant(s.conns[conn], grant, s.now);
        if result.Ok? || (result == Err(Recoverable) && caught) then s.(conns := s.conns[conn := c]) else s
    case Sync(conn, expiresAt) =>
      if conn !in s.conns || conn !in s.routes || s.conns[conn].status != ACTIVE then s
      else
        var c, wanted := s.conns[conn], Notifiable(s.conns[conn]);
        var ok := Creatable(s.subs, conn, Calendar, wanted, expiresAt)
          && Creatable(s.subs, conn, Mail, wanted, expiresAt);
        s.(subs := Completed(s.subs, conn, wanted, expiresAt),
           conns := s.conns[conn := if ok then c else c.(lastError := Some("subscription failed"))])
    case Renew(i, expiresAt) =>
      if i >= |s.subs| || s.subs[i].conn !in s.conns || s.subs[i].conn !in s.routes then s
      else
        var sub := s.subs[i];
        var c := s.conns[sub.conn];
        if c.status != ACTIVE then s
        else if expiresAt.None? then
          s.(conns :=
             s.conns[sub.conn := c.(status := ERROR, lastError := Some("renewal failed"), checkedAt := Some(s.now))])
        else
          // Graph subscriptions are extended in place; Google channels are recreated, then the old one is dropped
          s.(conns := s.conns[sub.conn := c.(checkedAt := Some(s.now))],
             subs := if c.provider.Microsoft? then s.subs[i := sub.(expiresAt := expiresAt.value)]
                     else s.subs[..i] + s.subs[i + 1..] + [sub.(expiresAt := expiresAt.value)])
    case Revoke(conn, crash) =>
      if conn !in s.conns || s.conns[conn].status == REVOKED then s
      else
        State(s.now, s.conns[conn := Wiped(s.conns[conn], s.now)],
              if crash then s.routes else s.routes - {conn}, Without(s.subs, conn))
    case Pass(ms) => s.(now := s.now + ms)
  }

  ghost predicate Possible(s: State, step: Step) {
    step.Callback? ==> QueryAnswer(s, step)
  }

  /** The connection a consent writes, when it writes one. */
  function Written(s: State, step: Step): Option<nat>
    requires step.Callback? && (step.found.Some? ==> step.found.value in s.conns)
  {
    var target := Target(s, step);
    if Upserted(s, step).None? || (target.None? && step.id in s.conns) then None
    else if target.Some? then target
    else Some(step.id)
  }

  /**
   A crash between two commits that matters to this connection: a consent that writes it while it
   has no route, or its revocation.
   */
  predicate Breaks(s: State, step: Step, id: nat)
    requires step.Callback? && step.found.Some? ==> step.found.value in s.conns
  {
    match step
    case Callback(_, _, _, _, _, _, _, _, crash) => crash && Written(s, step) == Some(id) && id !in s.routes
    case Revoke(conn, crash) => crash && conn == id && id in s.conns && s.conns[id].status != REVOKED
    case _ => false
  }

  // --- What every run keeps ---

  /** Revoked is the same as having no refresh token, and then there is no access token either. */
  predicate TokensMatchStatus(c: Conn) {
    (c.status == REVOKED <==> c.refresh.None?) && (c.refresh.None? ==> c.access.None?)
  }

  ghost predicate Sound(s: State) {
    && (forall id :: id in s.conns ==> TokensMatchStatus(s.conns[id]))
    && (forall id :: id in s.routes ==> id in s.conns)
    && (forall i :: 0 <= i < |s.subs| ==> s.subs[i].conn in s.conns && s.conns[s.subs[i].conn].status != REVOKED)
    && PairwiseDistinct(s.subs)
  }

  /** A connection has a webhook route exactly when it is not revoked. */
  predicate Routed(s: State, id: nat)
    requires id in s.conns
  {
    id in s.routes <==> s.conns[id].status != REVOKED
  }

  /** Connections stay, keep their provider, and never lose a scope. */
  ghost predicate Grown(s: State, s': State) {
    forall id :: id in s.conns ==>
      id in s'.conns && s'.conns[id].provider == s.conns[id].provider && s.conns[id].scopes <= s'.conns[id].scopes
  }

  lemma WithoutMembers(subs: seq<Subscription>, conn: nat)
    ensures forall i :: 0 <= i < |Without(subs, conn)| ==>
              Without(subs, conn)[i] in subs && Without(subs, conn)[i].conn != conn
    ensures PairwiseDistinct(subs) ==> PairwiseDistinct(Without(subs, conn))
  {
    if subs != [] {
      WithoutMembers(subs[1..], conn);
      var rest := Without(subs[1..], conn);
      if subs[0].conn != conn {
        assert Without(subs, conn)[1..] == rest;
        if PairwiseDistinct(subs) {
          forall j | 0 <= j < |rest|
            ensures rest[j].conn != subs[0].conn || rest[j].capability != subs[0].capability
          {
            var k :| 0 <= k < |subs[1..]| && subs[1..][k] == rest[j];
          }
        }
      } else {
        assert Without(subs, conn) == rest;
      }
    }
  }

  ghost predicate PairwiseDistinct(subs: seq<Subscription>) {
    forall i, j :: 0 <= i < j < |subs| ==> subs[i].conn != subs[j].conn || subs[i].capability != subs[j].capability
  }

  lemma CallbackKeeps(s: State, step: Step)
    requires Sound(s) && step.Callback? && Possible(s, step)
    ensures Sound(Next(s, step)) && Grown(s, Next(s, step))
  {
  }

  lemma CompletedDistinct(subs: seq<Subscription>, conn: nat, wanted: set<Capability>, expiresAt: map<Capability, int>)
    requires PairwiseDistinct(subs)
    ensures var more := Completed(subs, conn, wanted, expiresAt);
            PairwiseDistinct(more) && subs <= more && forall i :: |subs| <= i < |more| ==> more[i].conn == conn
  {
    AddMissingDistinct(subs, conn, Calendar, wanted, expiresAt);
    AddMissingDistinct(AddMissing(subs, conn, Calendar, wanted, expiresAt), conn, Mail, wanted, expiresAt);
  }

  lemma SyncKeeps(s: State, step: Step)
    requires Sound(s) && step.Sync?
    ensures Sound(Next(s, step)) && Grown(s, Next(s, step))
  {
    if step.conn in s.conns && s.conns[step.conn].status == ACTIVE {
      CompletedDistinct(s.subs, step.conn, Notifiable(s.conns[step.conn]), step.expiries);
    }
  }

  lemma AddMissingDistinct(subs: seq<Subscription>, conn: nat, capability: Capability, wanted: set<Capability>,
                           expiresAt: map<Capability, int>)
    requires PairwiseDistinct(subs)
    ensures var more := AddMissing(subs, conn, capability, wanted, expiresAt);
            && PairwiseDistinct(more) && subs <= more
            && (forall i :: |subs| <= i < |more| ==> more[i].conn == conn)
            && Subscribed(more, conn) == Subscribed(subs, conn)
                 + (if capability in wanted && capability in expiresAt then {capability} else {})
  {
    var more := AddMissing(subs, conn, capability, wanted, expiresAt);
    if more != subs {
      forall i | 0 <= i < |subs|
        ensures subs[i].conn != conn || subs[i].capability != capability
      {
        assert subs[i] in subs;
      }
      assert Subscribed(more, conn) == Subscribed(subs, conn) + {capability} by {
        assert more[|subs|] in more;
        assert forall x :: x in more <==> x in subs || x == more[|subs|];
      }
    }
  }

  /** What a provider notifies of: each capability whose scopes are all granted, but Gmail has no webhook. */
  predicate Watchable(c: Conn, capability: Capability) {
    var asked := ManifestOf(c.provider).capabilityScopes;
    && !(c.provider.Google? && capability.Mail?) && capability in asked
    && forall scope :: scope in asked[capability] ==> scope in c.scopes
  }

  lemma NotifiableIff(c: Conn, capability: Capability)
    ensures capability in Notifiable(c) <==> Watchable(c, capability)
  {
    var asked := ManifestOf(c.provider).capabilityScopes;
    if capability in asked {
      assert forall scope :: scope in asked[capability] <==> scope in Members(asked[capability]);
    }
  }

  /**
   After a successful synchronisation a capability is subscribed exactly when it was, or the provider
   can notify of it.
   */
  lemma SyncCompletes(s: State, conn: nat, expiresAt: map<Capability, int>, capability: Capability)
    requires Sound(s) && conn in s.conns && conn in s.routes && s.conns[conn].status == ACTIVE
    requires expiresAt.Keys == {Mail, Calendar}
    ensures capability in Subscribed(Next(s, Sync(conn, expiresAt)).subs, conn)
            <==> capability in Subscribed(s.subs, conn) || Watchable(s.conns[conn], capability)
  {
    var wanted := Notifiable(s.conns[conn]);
    AddMissingDistinct(s.subs, conn, Calendar, wanted, expiresAt);
    AddMissingDistinct(AddMissing(s.subs, conn, Calendar, wanted, expiresAt), conn, Mail, wanted, expiresAt);
    NotifiableIff(s.conns[conn], capability);
  }

  lemma RenewedDistinct(subs: seq<Subscription>, i: nat, expiresAt: int)
    requires PairwiseDistinct(subs) && i < |subs|
    ensures PairwiseDistinct(subs[i := subs[i].(expiresAt := expiresAt)])
    ensures PairwiseDistinct(subs[..i] + subs[i + 1..] + [subs[i].(expiresAt := expiresAt)])
  {
  }

  lemma RenewKeeps(s: State, step: Step)
    requires Sound(s) && step.Renew?
    ensures Sound(Next(s, step)) && Grown(s, Next(s, step))
  {
    if step.sub < |s.subs| && step.expiresAt.Some? {
      RenewedDistinct(s.subs, step.sub, step.expiresAt.value);
    }
  }

  lemma RevokeKeeps(s: State, step: Step)
    requires Sound(s) && step.Revoke?
    ensures Sound(Next(s, step)) && Grown(s, Next(s, step))
  {
    WithoutMembers(s.subs, step.conn);
    if step.conn in s.conns && s.conns[step.conn].status != REVOKED {
      var s' := Next(s, step);
      assert PairwiseDistinct(s.subs);
      forall i | 0 <= i < |s'.subs|
        ensures s'.subs[i].conn in s'.conns && s'.conns[s'.subs[i].conn].status != REVOKED
      {
        assert s'.subs[i] in s.subs;
      }
    }
  }

  lemma NextKeeps(s: State, step: Step)
    requires Sound(s) && Possible(s, step)
    ensures Sound(Next(s, step)) && Grown(s, Next(s, step))
  {
    match step
    case Callback(_, _, _, _, _, _, _, _, _) => CallbackKeeps(s, step);
    case Refresh(_, _, _) =>
    case Sync(_, _) => SyncKeeps(s, step);
    case Renew(_, _) => RenewKeeps(s, step);
    case Revoke(_, _) => RevokeKeeps(s, step);
    case Pass(_) =>
  }

  /** Whether a connection's route, if it has one, is in line with its status. */
  predicate InLine(s: State, id: nat) {
    if id in s.conns then Routed(s, id) else id !in s.routes
  }

  /** A step takes the route of a connection out of line exactly when it breaks it. */
  lemma NextInLineIff(s: State, step: Step, id: nat)
    requires Sound(s) && Possible(s, step) && InLine(s, id)
    ensures InLine(Next(s, step), id) <==> !Breaks(s, step, id)
  {
  }

  // --- What each step does, and to whom ---

  /** The connection a step is about. */
  predicate About(s: State, step: Step, id: nat) {
    match step
    case Callback(reconsent, found, unused, _, _, _, _, _, _) => Some(id) in {reconsent, found} || id == unused
    case Refresh(conn, _, _) => id == conn
    case Sync(conn, _) => id == conn
    case Renew(i, _) => i < |s.subs| && s.subs[i].conn == id
    case Revoke(conn, _) => id == conn
    case Pass(_) => false
  }

  lemma WithoutKeeps(subs: seq<Subscription>, conn: nat, sub: Subscription)
    requires sub.conn != conn
    ensures sub in Without(subs, conn) <==> sub in subs
  {
  }

  lemma AddMissingKeeps(subs: seq<Subscription>, conn: nat, capability: Capability, wanted: set<Capability>,
                        expiries: map<Capability, int>, sub: Subscription)
    requires sub.conn != conn
    ensures sub in AddMissing(subs, conn, capability, wanted, expiries) <==> sub in subs
  {
  }

  lemma SyncLeavesOthers(s: State, conn: nat, expiries: map<Capability, int>, sub: Subscription)
    requires sub.conn != conn
    ensures sub in Next(s, Sync(conn, expiries)).subs <==> sub in s.subs
  {
    if conn in s.conns {
      var wanted := Notifiable(s.conns[conn]);
      AddMissingKeeps(s.subs, conn, Calendar, wanted, expiries, sub);
      AddMissingKeeps(AddMissing(s.subs, conn, Calendar, wanted, expiries), conn, Mail, wanted, expiries, sub);
    }
  }

  lemma RenewLeavesOthers(s: State, i: nat, expiresAt: Option<int>, sub: Subscription)
    requires i < |s.subs| ==> s.subs[i].conn != sub.conn
    ensures sub in Next(s, Renew(i, expiresAt)).subs <==> sub in s.subs
  {
    var subs' := Next(s, Renew(i, expiresAt)).subs;
    if i < |s.subs| && subs' != s.subs {
      var renewed := s.subs[i].(expiresAt := expiresAt.value);
      assert s.subs == s.subs[..i] + [s.subs[i]] + s.subs[i + 1..];
      assert subs' == s.subs[..i] + [renewed] + s.subs[i + 1..] || subs' == s.subs[..i] + s.subs[i + 1..] + [renewed];
    }
  }

  /** A step leaves every other connection, its route and its subscriptions alone. */
  lemma OthersUntouched(s: State, step: Step, other: nat, sub: Subscription)
    requires Possible(s, step) && !About(s, step, other) && sub.conn == other
    ensures var s' := Next(s, step);
            && (other in s'.conns <==> other in s.conns) && (other in s.conns ==> s'.conns[other] == s.conns[other])
            && (other in s'.routes <==> other in s.routes) && (sub in s'.subs <==> sub in s.subs)
  {
    match step
    case Sync(conn, expiries) => SyncLeavesOthers(s, conn, expiries, sub);
    case Renew(i, expiresAt) => RenewLeavesOthers(s, i, expiresAt, sub);
    case Revoke(conn, _) => WithoutKeeps(s.subs, conn, sub);
    case _ =>
  }

  /**
   A consent with tokens revives the connection it was started for, or else the one of the same
   account, or else makes one. The connection the query finds is left alone in the first case.
   */
  lemma ConsentRevivesItsConnection(s: State, step: Step, id: nat)
    requires step.Callback? && Possible(s, step) && step.id !in s.conns && step.bundle.refresh !in {None, Some("")}
    requires if step.reconsent.Some? && step.reconsent.value in s.conns then Some(id) == step.reconsent
             else if step.found.Some? then Some(id) == step.found else id == step.id
    ensures var s' := Next(s, step);
            && s'.conns.Keys == s.conns.Keys + {id}
            && (forall other :: other in s.conns && other != id ==> s'.conns[other] == s.conns[other])
            && s'.subs == s.subs && s'.routes == s.routes + (if step.crash then {} else {id})
            && var c := s'.conns[id];
               && c.status == ACTIVE && c.lastError.None? && c.account == step.account
               && c.access == Some(step.bundle.access) && c.refresh == step.bundle.refresh
               && c.expiresAt == s.now + step.bundle.lifetime
               && c.scopes == step.granted + (if id in s.conns then s.conns[id].scopes else {})
               && (id in s.conns ==> c.provider == s.conns[id].provider && c.kind == s.conns[id].kind)
               && (id !in s.conns ==> c.provider == step.provider && c.kind == step.kind)
  {
  }

  /** A consent without a refresh token renews a connection that has one, and does nothing for any other. */
  lemma ConsentWithoutRefreshToken(s: State, step: Step)
    requires step.Callback? && Possible(s, step) && step.id !in s.conns && step.bundle.refresh in {None, Some("")}
    ensures var target := if step.reconsent.Some? && step.reconsent.value in s.conns then step.reconsent
                          else step.found;
            var s' := Next(s, step);
            if target.None? || s.conns[target.value].refresh.None? then s' == s
            else
              var c, c' := s.conns[target.value], s'.conns[target.value];
              && s'.conns == s.conns[target.value := c'] && s'.subs == s.subs
              && c'.refresh == c.refresh && c'.access == Some(step.bundle.access) && c'.status == ACTIVE
              && c'.expiresAt == s.now + step.bundle.lifetime && c'.scopes == c.scopes + step.granted
              && c'.account == step.account
  {
  }

  /** Renewing moves the expiry of that subscription alone, and a failure puts its connection in ERROR. */
  lemma RenewalOutcome(s: State, i: nat, expiresAt: Option<int>)
    requires i < |s.subs| && s.subs[i].conn in s.conns && s.subs[i].conn in s.routes
    requires s.conns[s.subs[i].conn].status == ACTIVE
    ensures var s', sub := Next(s, Renew(i, expiresAt)), s.subs[i];
            var c' := s'.conns[sub.conn];
            && (c'.status == if expiresAt.Some? then ACTIVE else ERROR)
            && (expiresAt.Some? ==> c'.lastError == s.conns[sub.conn].lastError)
            && c' == s.conns[sub.conn].(status := c'.status, lastError := c'.lastError, checkedAt := Some(s.now))
            && (expiresAt.None? ==> s'.subs == s.subs && c'.lastError.Some?)
            && (expiresAt.Some? ==>
                  multiset(s'.subs) == multiset(s.subs) - multiset{sub}
                                       + multiset{Subscription(sub.conn, sub.capability, expiresAt.value)})
  {
    if expiresAt.Some? {
      var renewed := s.subs[i].(expiresAt := expiresAt.value);
      assert s.subs == s.subs[..i] + [s.subs[i]] + s.subs[i + 1..];
      assert s.subs[i := renewed] == s.subs[..i] + [renewed] + s.subs[i + 1..];
    }
  }

  /** A completed revocation leaves nothing of a connection that could be used. */
  lemma RevocationWipes(s: State, conn: nat, crash: bool)
    requires conn in s.conns && s.conns[conn].status != REVOKED
    ensures var s' := Next(s, Revoke(conn, crash));
            var c := s'.conns[conn];
            && c.status == REVOKED && c.access.None? && c.refresh.None?
            && Subscribed(s'.subs, conn) == {} && (conn in s'.routes <==> crash && conn in s.routes)
            && (c.provider, c.kind, c.account, c.scopes)
               == (s.conns[conn].provider, s.conns[conn].kind, s.conns[conn].account, s.conns[conn].scopes)
  {
    WithoutMembers(s.subs, conn);
  }

  // --- Runs ---

  ghost function Run(s: State, steps: seq<Step>): State
    requires PossibleRun(s, steps)
    decreases steps
  {
    if steps == [] then s else Run(Next(s, steps[0]), steps[1..])
  }

  ghost predicate PossibleRun(s: State, steps: seq<Step>)
    decreases steps
  {
    steps == [] || (Possible(s, steps[0]) && PossibleRun(Next(s, steps[0]), steps[1..]))
  }

  function Start(now: int): State {
    State(now, map[], {}, [])
  }

  /**
   Over every run, crashes included: revoked means tokenless, a revoked connection has no
   subscription and a live one at most one per capability, and scopes, so capabilities, only grow.
   */
  lemma {:induction false} LifecycleInvariant(s: State, steps: seq<Step>)
    requires Sound(s) && PossibleRun(s, steps)
    ensures Sound(Run(s, steps)) && Grown(s, Run(s, steps))
    ensures forall id :: id in s.conns ==>
              var m := ManifestOf(s.conns[id].provider);
              Granted(m, s.conns[id].scopes) <= Granted(m, Run(s, steps).conns[id].scopes)
    decreases steps
  {
    if steps != [] {
      NextKeeps(s, steps[0]);
      LifecycleInvariant(Next(s, steps[0]), steps[1..]);
    }
  }

  ghost predicate AllInLine(s: State) {
    forall id: nat :: InLine(s, id)
  }

  ghost predicate InLineThroughout(s: State, steps: seq<Step>)
    requires PossibleRun(s, steps)
    decreases steps
  {
    AllInLine(s) && (steps == [] || InLineThroughout(Next(s, steps[0]), steps[1..]))
  }

  ghost predicate NothingBreaks(s: State, steps: seq<Step>)
    requires PossibleRun(s, steps)
    decreases steps
  {
    steps == [] || ((forall id :: !Breaks(s, steps[0], id)) && NothingBreaks(Next(s, steps[0]), steps[1..]))
  }

  /**
   A connection has a webhook route exactly while it is not revoked, all along a run, if and only if
   no crash of the run hits a revocation of a live connection or a consent to one without a route.
   */
  lemma {:induction false} RoutesFollowStatusIff(s: State, steps: seq<Step>)
    requires Sound(s) && AllInLine(s) && PossibleRun(s, steps)
    ensures InLineThroughout(s, steps) <==> NothingBreaks(s, steps)
    decreases steps
  {
    if steps != [] {
      var s' := Next(s, steps[0]);
      NextKeeps(s, steps[0]);
      forall id: nat
        ensures InLine(s', id) <==> !Breaks(s, steps[0], id)
      {
        assert InLine(s, id);
        NextInLineIff(s, steps[0], id);
      }
      if AllInLine(s') {
        RoutesFollowStatusIff(s', steps[1..]);
      } else {
        NotInLine(s', steps[1..]);
      }
    }
  }

  lemma NotInLine(s: State, steps: seq<Step>)
    requires PossibleRun(s, steps) && !AllInLine(s)
    ensures !InLineThroughout(s, steps)
  {
  }

  /** A revocation that crashed leaves the route, and revoking again is answered without touching it. */
  lemma CrashedRevocationStays(s: State, conn: nat, again: bool)
    requires Sound(s) && conn in s.conns && conn in s.routes && s.conns[conn].status != REVOKED
    ensures var crashed := Next(s, Revoke(conn, true));
            && !Routed(crashed, conn)
            && Next(crashed, Revoke(conn, again)) == crashed
  {
  }

  /** A consent that crashed leaves a live connection without a route, which no synchronisation or renewal touches. */
  lemma CrashedConsentStays(s: State, step: Step, expiries: map<Capability, int>, sub: nat, expiresAt: Option<int>)
    requires Sound(s) && step.Callback? && Possible(s, step) && step.crash
    requires Written(s, step).Some? && Written(s, step).value !in s.routes
    ensures var id, crashed := Written(s, step).value, Next(s, step);
            && id in crashed.conns && crashed.conns[id].status == ACTIVE && !Routed(crashed, id)
            && Next(crashed, Sync(id, expiries)) == crashed
            && (sub < |crashed.subs| && crashed.subs[sub].conn == id ==>
                  Next(crashed, Renew(sub, expiresAt)) == crashed)
  {
  }

  /** The shortest run that does it: one consent, from nothing. */
  lemma CrashedConsentFromNothing(now: int, provider: Provider, account: string, granted: set<string>,
                                  bundle: TokenBundle)
    requires bundle.refresh.Some? && bundle.refresh.value != ""
    ensures var step := Callback(None, None, 0, provider, TenantKind, account, granted, bundle, true);
            PossibleRun(Start(now), [step]) && Run(Start(now), [step]).conns.Keys == {0}
            && Run(Start(now), [step]).conns[0].status == ACTIVE && Run(Start(now), [step]).routes == {}
  {
    var step := Callback(None, None, 0, provider, TenantKind, account, granted, bundle, true);
    assert [step][1..] == [] && Possible(Start(now), step);
    assert PossibleRun(Next(Start(now), step), []);
  }

  /**
   Whatever state crashes left, a completed consent puts the connection's route in line with its
   status, and it stays so in every later run in which nothing breaks that connection again.
   */
  lemma ConsentRestoresTheRoute(s: State, step: Step, later: seq<Step>)
    requires Sound(s) && step.Callback? && Possible(s, step) && !step.crash && Written(s, step).Some?
    requires PossibleRun(Next(s, step), later) && NothingBreaksFor(Next(s, step), later, Written(s, step).value)
    ensures Next(s, step).conns[Written(s, step).value].status == ACTIVE
    ensures InLine(Run(Next(s, step), later), Written(s, step).value)
  {
    NextKeeps(s, step);
    StaysInLine(Next(s, step), later, Written(s, step).value);
  }

  ghost predicate NothingBreaksFor(s: State, steps: seq<Step>, id: nat)
    requires PossibleRun(s, steps)
    decreases steps
  {
    steps == [] || (!Breaks(s, steps[0], id) && NothingBreaksFor(Next(s, steps[0]), steps[1..], id))
  }

  lemma {:induction false} StaysInLine(s: State, steps: seq<Step>, id: nat)
    requires Sound(s) && InLine(s, id) && PossibleRun(s, steps) && NothingBreaksFor(s, steps, id)
    ensures InLine(Run(s, steps), id)
    decreases steps
  {
    if steps != [] {
      NextKeeps(s, steps[0]);
      NextInLineIff(s, steps[0], id);
      StaysInLine(Next(s, steps[0]), steps[1..], id);
    }
  }

  // --- What ends a dead consent ---

  /** No consent of the run is for this connection, and none revokes it. */
  predicate LeftAlone(steps: seq<Step>, id: nat) {
    forall step :: step in steps ==>
      && (step.Callback? ==> Some(id) !in {step.reconsent, step.found})
      && (step.Revoke? ==> step.conn != id)
  }

  /** While nobody consents anew or revokes, a connection whose consent is dead stays exactly as it is. */
  lemma {:induction false} DeadConsentStays(s: State, steps: seq<Step>, id: nat)
    requires PossibleRun(s, steps) && id in s.conns && s.conns[id].status == NEEDS_RECONSENT
    requires LeftAlone(steps, id)
    ensures id in Run(s, steps).conns && Run(s, steps).conns[id] == s.conns[id]
    decreases steps
  {
    if steps != [] {
      assert steps[0] in steps;
      DeadConsentStays(Next(s, steps[0]), steps[1..], id);
    }
  }

  /** A refresh makes a live connection one whose consent is dead exactly when the provider says so. */
  lemma RefreshOutcome(s: State, conn: nat, grant: Grant, caught: bool)
    requires conn in s.conns && s.conns[conn].status == ACTIVE && s.conns[conn].refresh.Some?
    ensures var s' := Next(s, Refresh(conn, grant, caught));
            var c, c' := s.conns[conn], s'.conns[conn];
            && s' == s.(conns := s.conns[conn := c'])
            && (c'.status == NEEDS_RECONSENT <==> IsDead(grant))
            && c'.status in {ACTIVE, NEEDS_RECONSENT}
            && (c'.access != c.access || c'.refresh != c.refresh || c'.expiresAt != c.expiresAt ==> grant.Ok?)
            && (grant.Ok? ==> c'.access == Some(grant.value.access) && c'.expiresAt == s.now + grant.value.lifetime)
            && (caught && !IsUnusable(grant) ==> c'.checkedAt == Some(s.now))
            && (grant.Err? && !IsDead(grant) && !caught ==> s' == s)
  {
    GrantDecides(s.conns[conn], grant, s.now);
  }

  // --- What a synchronisation adds ---

  /** The provider can notify of it, and nothing is subscribed for it yet. */
  predicate Missing(s: State, conn: nat, capability: Capability)
    requires conn in s.conns
  {
    Watchable(s.conns[conn], capability) && forall sub :: sub in s.subs && sub.conn == conn ==>
      sub.capability != capability
  }

  /**
   A synchronisation creates the missing subscription of the calendar, and then that of the mail,
   stopping at the first creation that fails; only a failure is noted on the connection.
   */
  lemma SyncOutcome(s: State, conn: nat, expiries: map<Capability, int>, sub: Subscription)
    requires conn in s.conns
    ensures var s' := Next(s, Sync(conn, expiries));
            if s.conns[conn].status != ACTIVE || conn !in s.routes then s' == s
            else
              var stops := Missing(s, conn, Calendar) && Calendar !in expiries;
              var fails := stops || (Missing(s, conn, Mail) && Mail !in expiries);
              && (sub in s'.subs <==>
                  || sub in s.subs
                  || (sub.conn == conn && Missing(s, conn, sub.capability) && sub.capability in expiries
                      && sub.expiresAt == expiries[sub.capability] && !(sub.capability.Mail? && stops)))
              && s' == s.(subs := s'.subs, conns := s'.conns) && s'.conns == s.conns[conn := s'.conns[conn]]
              && s'.conns[conn] == s.conns[conn].(lastError := s'.conns[conn].lastError)
              && (if fails then s'.conns[conn].lastError.Some? else s'.conns == s.conns)
  {
    NotifiableIff(s.conns[conn], Calendar);
    NotifiableIff(s.conns[conn], Mail);
    var wanted := Notifiable(s.conns[conn]);
    MissingIff(s, conn, Calendar);
    MissingIff(s, conn, Mail);
    CalendarBesidesMail(s.subs, conn, wanted, expiries);
  }

  lemma MissingIff(s: State, conn: nat, capability: Capability)
    requires conn in s.conns
    ensures Missing(s, conn, capability)
            <==> capability in Notifiable(s.conns[conn]) && capability !in Subscribed(s.subs, conn)
  {
    NotifiableIff(s.conns[conn], capability);
  }

  /** Subscribing the calendar does not subscribe the mail. */
  lemma CalendarBesidesMail(subs: seq<Subscription>, conn: nat, wanted: set<Capability>, expiries: map<Capability, int>)
    ensures Mail in Subscribed(AddMissing(subs, conn, Calendar, wanted, expiries), conn)
            <==> Mail in Subscribed(subs, conn)
  {
    var more := AddMissing(subs, conn, Calendar, wanted, expiries);
    assert forall sub :: sub in more && sub.capability == Mail <==> sub in subs && sub.capability == Mail;
  }

  // --- One connection per account ---

  predicate Live(c: Conn) {
    c.status != REVOKED
  }

  predicate SameRemote(c: Conn, d: Conn) {
    c.provider == d.provider && c.kind == d.kind && c.account == d.account
  }

  /** At most one live connection for each account of a provider and kind. */
  ghost predicate AccountsUnique(s: State) {
    forall a, b :: a in s.conns && b in s.conns && Live(s.conns[a]) && Live(s.conns[b])
      && SameRemote(s.conns[a], s.conns[b])
      ==> a == b
  }

  /** A renewed consent for one connection comes back with the account of another live one. */
  ghost predicate Collides(s: State, step: Step)
    requires step.Callback? && step.found.Some? ==> step.found.value in s.conns
  {
    && step.Callback? && step.reconsent.Some? && step.reconsent.value in s.conns && Upserted(s, step).Some?
    && exists other :: other in s.conns && other != step.reconsent.value && Live(s.conns[other])
         && SameRemote(s.conns[other], s.conns[step.reconsent.value].(account := step.account))
  }

  lemma ConsentUniqueIff(s: State, step: Step)
    requires Possible(s, step) && AccountsUnique(s) && step.Callback?
    ensures AccountsUnique(Next(s, step)) <==> !Collides(s, step)
  {
    var s' := Next(s, step);
    if Collides(s, step) {
      var id := step.reconsent.value;
      var other :| other in s.conns && other != id && Live(s.conns[other])
        && SameRemote(s.conns[other], s.conns[id].(account := step.account));
      assert Live(s'.conns[id]) && SameRemote(s'.conns[id], s'.conns[other]);
    }
  }

  /** A step takes the uniqueness of accounts away exactly when it is such a consent. */
  lemma NextUniqueIff(s: State, step: Step)
    requires Possible(s, step) && AccountsUnique(s)
    ensures AccountsUnique(Next(s, step)) <==> !Collides(s, step)
  {
    if step.Callback? {
      ConsentUniqueIff(s, step);
    }
  }

  ghost predicate UniqueThroughout(s: State, steps: seq<Step>)
    requires PossibleRun(s, steps)
    decreases steps
  {
    AccountsUnique(s) && (steps == [] || UniqueThroughout(Next(s, steps[0]), steps[1..]))
  }

  ghost predicate NothingCollides(s: State, steps: seq<Step>)
    requires PossibleRun(s, steps)
    decreases steps
  {
    steps == [] || (!Collides(s, steps[0]) && NothingCollides(Next(s, steps[0]), steps[1..]))
  }

  /**
   All along a run there is at most one live connection for each account, if and only if no renewed
   consent of the run comes back with the account of another live connection: the code looks for that
   one only when the consent was not started for a connection.
   */
  lemma {:induction false} OneConnectionPerAccountIff(s: State, steps: seq<Step>)
    requires AccountsUnique(s) && PossibleRun(s, steps)
    ensures UniqueThroughout(s, steps) <==> NothingCollides(s, steps)
    decreases steps
  {
    if steps != [] {
      var s' := Next(s, steps[0]);
      NextUniqueIff(s, steps[0]);
      if AccountsUnique(s') {
        OneConnectionPerAccountIff(s', steps[1..]);
      } else {
        NotUnique(s', steps[1..]);
      }
    }
  }

  lemma NotUnique(s: State, steps: seq<Step>)
    requires PossibleRun(s, steps) && !AccountsUnique(s)
    ensures !UniqueThroughout(s, steps)
  {
  }
}
