/**
 Server sessions, login challenges and invitations, and the hourly purge of their dead rows. The
 purge is meant to be invisible: no later answer depends on whether it ran.
 */
module AuthPurge {
  import opened Wrappers
  import opened LoginChallenges
  import opened Sweeping
  import D = Directory

  const SESSION_TTL := 168 * 3600

  datatype Session = Session(user: UserId, expiresAt: int, lastSeenAt: int, revokedAt: Option<int>)

  datatype State = State(sessions: map<Token, Session>, challenges: map<Token, Challenge>, dir: D.State,
                         nextToken: Token)

  predicate UserExists(dir: D.State, user: UserId) {
    exists email :: email in dir.users && dir.users[email].id == user
  }

  // --- Specification of the operations ---

  function Resolve(s: State, token: Token, now: int): (State, Option<UserId>) {
    if token !in s.sessions || s.sessions[token].revokedAt.Some? then (s, None)
    else if s.sessions[token].expiresAt < now then (s, None)
    else if !UserExists(s.dir, s.sessions[token].user) then (s, None)
    else
      (s.(sessions := s.sessions[token := s.sessions[token].(lastSeenAt := now)]), Some(s.sessions[token].user))
  }

  function Consume(s: State, token: Token, now: int): (State, Option<UserId>) {
    if !Consumable(s.challenges, token, now) then (s, None)
    else (s.(challenges := ConsumedIn(s.challenges, token, now)), Some(s.challenges[token].user))
  }

  function RevokedAll(sessions: map<Token, Session>, user: UserId, now: int): map<Token, Session> {
    map token | token in sessions ::
      if sessions[token].user == user && sessions[token].revokedAt.None? then sessions[token].(revokedAt := Some(now))
      else sessions[token]
  }

  predicate DeadSession(s: Session, now: int) {
    s.expiresAt < now || s.revokedAt.Some?
  }

  predicate DeadChallenge(c: Challenge, now: int) {
    c.expiresAt < now
  }

  function LiveSessions(sessions: map<Token, Session>, now: int): map<Token, Session> {
    map token | token in sessions && !DeadSession(sessions[token], now) :: sessions[token]
  }

  function LiveChallenges(challenges: map<Token, Challenge>, now: int): map<Token, Challenge> {
    map token | token in challenges && !DeadChallenge(challenges[token], now) :: challenges[token]
  }

  /** The three deletions of the purge. */
  function Purged(s: State, now: int): State {
    s.(sessions := LiveSessions(s.sessions, now), challenges := LiveChallenges(s.challenges, now),
       dir := s.dir.(invitations := D.Purged(s.dir.invitations, now)))
  }

  class AuthStore {
    var sessions: map<Token, Session>
    var challenges: map<Token, Challenge>
    var dir: D.State
    var nextToken: Token

    constructor ()
      ensures View() == State(map[], map[], D.State(map[], map[], map[], 0, 0), 0)
    {
      sessions, challenges, dir, nextToken := map[], map[], D.State(map[], map[], map[], 0, 0), 0;
    }

    ghost function View(): State
      reads this
    {
      State(sessions, challenges, dir, nextToken)
    }

    method CreateSession(user: UserId, now: int) returns (token: Token)
      modifies this
      ensures token == old(nextToken) && nextToken == token + 1
      ensures sessions == old(sessions)[token := Session(user, now + SESSION_TTL, now, None)]
      ensures challenges == old(challenges) && dir == old(dir)
    {
      token := nextToken;
      nextToken := nextToken + 1;
      sessions := sessions[token := Session(user, now + SESSION_TTL, now, None)];
    }

    method ResolveSession(token: Token, now: int) returns (user: Option<UserId>)
      modifies this`sessions
      ensures (View(), user) == Resolve(old(View()), token, now)
    {
      if token !in sessions || sessions[token].revokedAt.Some? {
        return None;
      }
      var session := sessions[token];
      if session.expiresAt < now {
        return None;
      }
      if !UserExists(dir, session.user) {
        return None;
      }
      sessions := sessions[token := session.(lastSeenAt := now)];
      return Some(session.user);
    }

    method RevokeAllSessions(user: UserId, now: int)
      modifies this`sessions
      ensures sessions == RevokedAll(old(sessions), user, now)
    {
      var pending := set token | token in sessions && sessions[token].user == user && sessions[token].revokedAt.None?;
      ghost var chosen, before := pending, sessions;
      while pending != {}
        invariant pending <= chosen && sessions.Keys == before.Keys
        invariant forall token :: token in sessions ==>
                    sessions[token] == if token in chosen - pending then before[token].(revokedAt := Some(now))
                                       else before[token]
        decreases pending
      {
        var token :| token in pending;
        sessions := sessions[token := sessions[token].(revokedAt := Some(now))];
        pending := pending - {token};
      }
    }

    method PurgeExpiredAuthRows(now: int) returns (sessionCount: nat, challengeCount: nat, invitationCount: nat)
      modifies this
      ensures View() == Purged(old(View()), now)
      ensures sessionCount == |old(sessions)| - |sessions|
      ensures challengeCount == |old(challenges)| - |challenges|
      ensures invitationCount == |old(dir.invitations)| - |dir.invitations|
    {
      var keptSessions := LiveSessions(sessions, now);
      SubmapSize(sessions, keptSessions);
      sessionCount := |sessions| - |keptSessions|;
      sessions := keptSessions;
      var keptChallenges := LiveChallenges(challenges, now);
      SubmapSize(challenges, keptChallenges);
      challengeCount := |challenges| - |keptChallenges|;
      challenges := keptChallenges;
      var keptInvitations := D.Purged(dir.invitations, now);
      SubmapSize(dir.invitations, keptInvitations);
      invitationCount := |dir.invitations| - |keptInvitations|;
      dir := dir.(invitations := keptInvitations);
    }
  }

  lemma SubmapSize<V>(m: map<nat, V>, m': map<nat, V>)
    requires m'.Keys <= m.Keys
    ensures |m'| <= |m|
  {
    assert m.Keys == m'.Keys + (m.Keys - m'.Keys);
    assert |m.Keys| == |m'.Keys| + |m.Keys - m'.Keys|;
    assert |m.Keys| == |m| && |m'.Keys| == |m'|;
  }

  // --- Runs, with and without purges ---

  datatype Op =
    | CreateSession(user: UserId)
    | ResolveSession(token: Token)
    | RevokeSession(token: Token)
    | RevokeAll(user: UserId)
    | CreateChallenge(user: UserId)
    | ConsumeChallenge(token: Token)
    | CreateInvitation(tenant: D.Tenant, email: string, role: D.Role, actorRole: Option<D.Role>)
    | AcceptInvitation(token: D.Token, withPassword: bool, displayName: Option<string>)
    | RevokeInvitation(tenant: D.Tenant, token: D.Token)
    | ChangeRole(tenant: D.Tenant, user: UserId, role: D.Role, ofRole: D.Role)
    | RemoveMember(tenant: D.Tenant, user: UserId, ofRole: D.Role)

  datatype Output =
    | Issued(token: Token)
    | Resolved(user: Option<UserId>)
    | Done
    | Invited(result: Result<D.Token, D.DirectoryError>)
    | Accepted(outcome: Result<UserId, D.DirectoryError>)
    | Withdrawn(invitation: Result<D.Invitation, D.DirectoryError>)
    | Managed(verdict: Result<(), D.DirectoryError>)

  function Apply(s: State, op: Op, now: int): (State, Output) {
    match op
    case CreateSession(user) =>
      (s.(sessions := s.sessions[s.nextToken := Session(user, now + SESSION_TTL, now, None)],
       nextToken := s.nextToken + 1), Issued(s.nextToken))
    case ResolveSession(token) =>
      var (s', user) := Resolve(s, token, now);
      (s', Resolved(user))
    case RevokeSession(token) =>
      // the request has just resolved this session
      var (s', user) := Resolve(s, token, now);
      (if user.None? then s'
       else s'.(sessions := s'.sessions[token := s'.sessions[token].(revokedAt := Some(now))]), Resolved(user))
    case RevokeAll(user) => (s.(sessions := RevokedAll(s.sessions, user, now)), Done)
    case CreateChallenge(user) =>
      (s.(challenges := s.challenges[s.nextToken := FreshChallenge(user, now)], nextToken := s.nextToken + 1),
       Issued(s.nextToken))
    case ConsumeChallenge(token) =>
      var (s', user) := Consume(s, token, now);
      (s', Resolved(user))
    case CreateInvitation(tenant, email, role, actorRole) =>
      var (dir, result) := D.Invite(s.dir, tenant, email, role, actorRole, now);
      (s.(dir := dir), Invited(result))
    case AcceptInvitation(token, withPassword, displayName) =>
      var (dir, result) := D.Accept(s.dir, token, withPassword, displayName, now);
      (s.(dir := dir), Accepted(result))
    case RevokeInvitation(tenant, token) =>
      var (dir, result) := D.Uninvite(s.dir, tenant, token);
      (s.(dir := dir), Withdrawn(result))
    case ChangeRole(tenant, user, role, ofRole) =>
      var (dir, result) := D.ChangeRole(s.dir, tenant, user, role, ofRole);
      (s.(dir := dir), Managed(result))
    case RemoveMember(tenant, user, ofRole) =>
      var (dir, result) := D.Remove(s.dir, tenant, user, ofRole);
      (s.(dir := dir), Managed(result))
  }

  /** The service, swept by the purge. */
  const SERVICE: Machine<State, Op, Output> := Machine(Apply, Purged)

  /** `p` is `s` without some of the rows that are dead by `now`. */
  ghost predicate Bisimilar(s: State, p: State, now: int) {
    && p.nextToken == s.nextToken
    && BisimilarSessions(s.sessions, p.sessions, now)
    && BisimilarChallenges(s.challenges, p.challenges, now)
    && BisimilarDirectory(s.dir, p.dir, now)
  }

  ghost predicate BisimilarSessions(s: map<Token, Session>, p: map<Token, Session>, now: int) {
    && (forall token :: token in s && !DeadSession(s[token], now) ==> token in p)
    && (forall token :: token in p ==> token in s && p[token] == s[token])
  }

  ghost predicate BisimilarChallenges(s: map<Token, Challenge>, p: map<Token, Challenge>, now: int) {
    && (forall token :: token in s && !DeadChallenge(s[token], now) ==> token in p)
    && (forall token :: token in p ==> token in s && p[token] == s[token])
  }

  predicate DeadInvitation(i: D.Invitation, now: int) {
    i.expiresAt < now && i.acceptedAt.None?
  }

  ghost predicate BisimilarDirectory(s: D.State, p: D.State, now: int) {
    && p == s.(invitations := p.invitations)
    && (forall token :: token in s.invitations && !DeadInvitation(s.invitations[token], now) ==> token in p.invitations)
    && (forall token :: token in p.invitations ==>
          token in s.invitations && p.invitations[token] == s.invitations[token])
  }

  lemma PurgeBisimilar(s: State, p: State, now: int)
    requires Bisimilar(s, p, now)
    ensures Bisimilar(s, Purged(p, now), now)
  {
  }

  lemma LaterBisimilar(s: State, p: State, now: int, later: int)
    requires Bisimilar(s, p, now) && now <= later
    ensures Bisimilar(s, p, later)
  {
  }

  lemma InviteBisimilar(s: D.State, p: D.State, tenant: D.Tenant, email: string, role: D.Role,
                        actorRole: Option<D.Role>, now: int)
    requires BisimilarDirectory(s, p, now)
    ensures var (s', r), (p', q) :=
              D.Invite(s, tenant, email, role, actorRole, now), D.Invite(p, tenant, email, role, actorRole, now);
            r == q && BisimilarDirectory(s', p', now)
  {
    assert D.AlreadyPending(s.invitations, email, tenant, now)
      <==> D.AlreadyPending(p.invitations, email, tenant, now) by {
      forall token | token in s.invitations && D.Pending(s.invitations[token], now)
        ensures token in p.invitations && p.invitations[token] == s.invitations[token]
      {
        assert !DeadInvitation(s.invitations[token], now);
      }
    }
  }

  lemma AcceptBisimilar(s: D.State, p: D.State, token: D.Token, withPassword: bool, displayName: Option<string>,
                        now: int)
    requires BisimilarDirectory(s, p, now)
    ensures var (s', r), (p', q) :=
              D.Accept(s, token, withPassword, displayName, now), D.Accept(p, token, withPassword, displayName, now);
            r == q && BisimilarDirectory(s', p', now)
  {
    assert D.Acceptable(s.invitations, token, now) <==> D.Acceptable(p.invitations, token, now);
  }

  lemma SessionsBisimilar(s: map<Token, Session>, p: map<Token, Session>, token: Token, session: Session, user: UserId,
                          now: int)
    requires BisimilarSessions(s, p, now)
    ensures BisimilarSessions(s[token := session], p[token := session], now)
    ensures BisimilarSessions(RevokedAll(s, user, now), RevokedAll(p, user, now), now)
  {
  }

  lemma ApplyOnSessions(s: State, p: State, op: Op, now: int)
    requires Bisimilar(s, p, now) && (op.ResolveSession? || op.RevokeSession?)
    ensures Apply(s, op, now).1 == Apply(p, op, now).1
    ensures Bisimilar(Apply(s, op, now).0, Apply(p, op, now).0, now)
  {
    var (s', user) := Resolve(s, op.token, now);
    var (p', user') := Resolve(p, op.token, now);
    assert user == user';
    if user.Some? {
      var seen := s.sessions[op.token].(lastSeenAt := now);
      SessionsBisimilar(s.sessions, p.sessions, op.token, seen, 0, now);
      SessionsBisimilar(s'.sessions, p'.sessions, op.token, seen.(revokedAt := Some(now)), 0, now);
    }
  }

  /**
   The same answer with and without purges; or the withdrawal of an invitation already dead, which
   a purge has made unknown.
   */
  predicate SameAnswer(output: Output, purged: Output, now: int) {
    || output == purged
    || (output.Withdrawn? && output.invitation.Ok? && DeadInvitation(output.invitation.value, now)
        && purged == Withdrawn(Err(D.NotFound)))
  }

  lemma WithdrawBisimilar(s: D.State, p: D.State, tenant: D.Tenant, token: D.Token, now: int)
    requires BisimilarDirectory(s, p, now)
    ensures SameAnswer(Withdrawn(D.Uninvite(s, tenant, token).1), Withdrawn(D.Uninvite(p, tenant, token).1), now)
    ensures BisimilarDirectory(D.Uninvite(s, tenant, token).0, D.Uninvite(p, tenant, token).0, now)
  {
  }

  /** Roles do not depend on invitations. */
  lemma RolesBisimilar(s: D.State, p: D.State, tenant: D.Tenant, user: UserId, role: D.Role, ofRole: D.Role, now: int)
    requires BisimilarDirectory(s, p, now)
    ensures var (s', r), (p', q) :=
              D.ChangeRole(s, tenant, user, role, ofRole), D.ChangeRole(p, tenant, user, role, ofRole);
            r == q && BisimilarDirectory(s', p', now)
    ensures var (s', r), (p', q) := D.Remove(s, tenant, user, ofRole), D.Remove(p, tenant, user, ofRole);
            r == q && BisimilarDirectory(s', p', now)
  {
  }

  predicate OnDirectory(op: Op) {
    op.CreateInvitation? || op.AcceptInvitation? || op.RevokeInvitation? || op.ChangeRole? || op.RemoveMember?
  }

  lemma ApplyOnDirectory(s: State, p: State, op: Op, now: int)
    requires Bisimilar(s, p, now) && OnDirectory(op)
    ensures SameAnswer(Apply(s, op, now).1, Apply(p, op, now).1, now)
    ensures Bisimilar(Apply(s, op, now).0, Apply(p, op, now).0, now)
  {
    match op
    case CreateInvitation(tenant, email, role, actorRole) =>
      InviteBisimilar(s.dir, p.dir, tenant, email, role, actorRole, now);
    case AcceptInvitation(token, withPassword, displayName) =>
      AcceptBisimilar(s.dir, p.dir, token, withPassword, displayName, now);
    case RevokeInvitation(tenant, token) => WithdrawBisimilar(s.dir, p.dir, tenant, token, now);
    case ChangeRole(tenant, user, role, ofRole) => RolesBisimilar(s.dir, p.dir, tenant, user, role, ofRole, now);
    case RemoveMember(tenant, user, ofRole) => RolesBisimilar(s.dir, p.dir, tenant, user, D.MEMBER, ofRole, now);
  }

  lemma ApplyBisimilar(s: State, p: State, op: Op, now: int)
    requires Bisimilar(s, p, now)
    ensures SameAnswer(Apply(s, op, now).1, Apply(p, op, now).1, now)
    ensures Bisimilar(Apply(s, op, now).0, Apply(p, op, now).0, now)
  {
    if OnDirectory(op) {
      ApplyOnDirectory(s, p, op, now);
    } else {
      match op
      case CreateSession(user) =>
        SessionsBisimilar(s.sessions, p.sessions, s.nextToken, Session(user, now + SESSION_TTL, now, None), user, now);
      case ResolveSession(_) => ApplyOnSessions(s, p, op, now);
      case RevokeSession(_) => ApplyOnSessions(s, p, op, now);
      case RevokeAll(user) => SessionsBisimilar(s.sessions, p.sessions, 0, Session(user, 0, 0, None), user, now);
      case _ =>
    }
  }

  /**
   Purges anywhere in a run, however many, change no answer of any operation, then or later, but
   that of withdrawing an invitation already dead at that instant.
   */
  lemma PurgeIsInvisible(s: State, p: State, now: int, steps: seq<Timed<Op>>, i: nat)
    requires Bisimilar(s, p, now) && i < |steps|
    ensures SameAnswer(Answer(SERVICE, s, now, steps, false, i), Answer(SERVICE, p, now, steps, true, i),
                       InstantOf(now, steps, i))
  {
    PurgeSimulates();
    SweepsAreInvisible(SERVICE, Bisimilar, SameAnswer, s, p, now, steps, i);
  }

  lemma PurgeSimulates()
    ensures Simulation(SERVICE, Bisimilar, SameAnswer)
  {
    forall s, p, now, later | Bisimilar(s, p, now) && now <= later
      ensures Bisimilar(s, p, later)
    {
      LaterBisimilar(s, p, now, later);
    }
    forall s, p, now | Bisimilar(s, p, now)
      ensures Bisimilar(s, SERVICE.sweep(p, now), now)
    {
      PurgeBisimilar(s, p, now);
    }
    forall s, p, op, now | Bisimilar(s, p, now)
      ensures Bisimilar(SERVICE.apply(s, op, now).0, SERVICE.apply(p, op, now).0, now)
      ensures SameAnswer(SERVICE.apply(s, op, now).1, SERVICE.apply(p, op, now).1, now)
    {
      ApplyBisimilar(s, p, op, now);
    }
  }

  /** The one operation that can tell, exactly when the row has been purged or would be. */
  lemma RevocationSeesThePurge(s: State, tenant: D.Tenant, token: D.Token, now: int)
    ensures D.Uninvite(s.dir, tenant, token).1 == D.Uninvite(Purged(s, now).dir, tenant, token).1
            <==> !(token in s.dir.invitations && s.dir.invitations[token].tenant == tenant
                   && DeadInvitation(s.dir.invitations[token], now))
  {
  }

  // --- Challenges, with purges or without ---

  /** A token that was issued, and whose challenge is consumed or gone. */
  predicate Spent(s: State, token: Token) {
    token < s.nextToken && (token in s.challenges ==> s.challenges[token].consumedAt.Some?)
  }

  ghost predicate Numbered(s: State) {
    forall token :: token in s.challenges ==> token < s.nextToken
  }

  lemma ApplyKeeps(s: State, op: Op, now: int, token: Token)
    ensures Spent(s, token) ==> Spent(Apply(s, op, now).0, token)
    ensures Numbered(s) ==> Numbered(Apply(s, op, now).0)
    ensures Numbered(s) && op == ConsumeChallenge(token) && Apply(s, op, now).1 != Resolved(None) ==>
              Spent(Apply(s, op, now).0, token)
  {
  }

  lemma ConsumptionOnlyOnce(token: Token)
    ensures OnlyOnce(SERVICE, Numbered, s => Spent(s, token), ConsumeChallenge(token), Resolved(None))
  {
    forall s, op, now
      ensures Spent(s, token) ==> Spent(SERVICE.apply(s, op, now).0, token)
      ensures Numbered(s) ==> Numbered(SERVICE.apply(s, op, now).0)
      ensures Numbered(s) && op == ConsumeChallenge(token) && SERVICE.apply(s, op, now).1 != Resolved(None) ==>
                Spent(SERVICE.apply(s, op, now).0, token)
    {
      ApplyKeeps(s, op, now, token);
    }
  }

  /** In every run, purged or not, a challenge is consumed at most once. */
  lemma ConsumedOnce(s: State, now: int, steps: seq<Timed<Op>>, purging: bool, token: Token, i: nat, j: nat)
    requires Numbered(s) && i < j < |steps| && steps[i].op == steps[j].op == ConsumeChallenge(token)
    requires Answer(SERVICE, s, now, steps, purging, i) != Resolved(None)
    ensures Answer(SERVICE, s, now, steps, purging, j) == Resolved(None)
  {
    ConsumptionOnlyOnce(token);
    AnswersOnce(SERVICE, Numbered, s => Spent(s, token), ConsumeChallenge(token), Resolved(None), s, now, steps,
                purging, i, j);
  }

  // --- How long sessions and challenges live, with purges or without ---

  /** An operation that ends the session of this token, of this user. */
  predicate Ends(op: Op, token: Token, user: UserId) {
    op in {RevokeSession(token), RevokeAll(user)}
  }

  /** A session, live or expired, that nobody has revoked; its user's account is there. */
  ghost predicate Open(s: State, token: Token, user: UserId, expiresAt: int) {
    && token < s.nextToken && UserExists(s.dir, user)
    && token in s.sessions && s.sessions[token].user == user && s.sessions[token].expiresAt == expiresAt
    && s.sessions[token].revokedAt.None?
  }

  /** A session of which nothing can come any more. */
  predicate Closed(s: State, token: Token, now: int) {
    token < s.nextToken && (token in s.sessions ==> DeadSession(s.sessions[token], now))
  }

  lemma UsersStay(s: State, op: Op, now: int, user: UserId)
    requires UserExists(s.dir, user)
    ensures UserExists(Apply(s, op, now).0.dir, user)
  {
    var email :| email in s.dir.users && s.dir.users[email].id == user;
    var users := Apply(s, op, now).0.dir.users;
    assert email in users && users[email].id == user;
  }

  lemma OpenUntilEnded(s: State, op: Op, now: int, token: Token, user: UserId, expiresAt: int)
    requires Open(s, token, user, expiresAt)
    ensures !Ends(op, token, user) ==> Open(Apply(s, op, now).0, token, user, expiresAt)
    ensures Ends(op, token, user) ==> Closed(Apply(s, op, now).0, token, now)
  {
    UsersStay(s, op, now, user);
  }

  lemma ClosedForGood(s: State, op: Op, now: int, later: int, token: Token)
    requires Closed(s, token, now) && now <= later
    ensures Closed(s, token, later) && Closed(Purged(s, later), token, later)
    ensures Closed(Apply(s, op, later).0, token, later)
    ensures op == ResolveSession(token) ==> Apply(s, op, later).1 == Resolved(None)
  {
  }

  lemma {:induction false} ClosedAnswersNone(s: State, now: int, steps: seq<Timed<Op>>, purging: bool, token: Token,
                                             j: nat)
    requires Closed(s, token, now) && j < |steps| && steps[j].op == ResolveSession(token)
    ensures Answer(SERVICE, s, now, steps, purging, j) == Resolved(None)
    decreases j
  {
    var at, op := now + steps[0].after, steps[0].op;
    var ready := if purging && steps[0].sweep then Purged(s, at) else s;
    ClosedForGood(s, op, now, at, token);
    ClosedForGood(ready, op, at, at, token);
    if j > 0 {
      ClosedAnswersNone(Apply(ready, op, at).0, at, steps[1..], purging, token, j - 1);
    }
  }

  /** One of the operations before the `j`th ends the session. */
  ghost predicate Ended(steps: seq<Timed<Op>>, token: Token, user: UserId, j: nat)
    requires j <= |steps|
  {
    exists i :: 0 <= i < j && Ends(steps[i].op, token, user)
  }

  lemma EndedLater(steps: seq<Timed<Op>>, token: Token, user: UserId, j: nat)
    requires 0 < j <= |steps|
    ensures Ended(steps, token, user, j) <==> Ends(steps[0].op, token, user) || Ended(steps[1..], token, user, j - 1)
  {
    if i :| 0 <= i < j && Ends(steps[i].op, token, user) {
      if i > 0 {
        assert Ends(steps[1..][i - 1].op, token, user);
      }
    }
    if i :| 0 <= i < j - 1 && Ends(steps[1..][i].op, token, user) {
      assert Ends(steps[i + 1].op, token, user);
    }
  }

  /**
   In every run, purged or not, a session resolves to its user exactly while it is not past its
   expiry and neither it nor all sessions of its user have been revoked.
   */
  lemma {:induction false} SessionLife(s: State, now: int, steps: seq<Timed<Op>>, purging: bool, token: Token,
                                       user: UserId, expiresAt: int, j: nat)
    requires Open(s, token, user, expiresAt) && j < |steps| && steps[j].op == ResolveSession(token)
    ensures Answer(SERVICE, s, now, steps, purging, j)
            == Resolved(if InstantOf(now, steps, j) <= expiresAt && !Ended(steps, token, user, j) then Some(user)
                        else None)
    decreases j
  {
    var at, op := now + steps[0].after, steps[0].op;
    var ready := if purging && steps[0].sweep then Purged(s, at) else s;
    InstantsGrow(now, steps, j);
    if token !in ready.sessions {
      ClosedAnswersNone(ready, at, AtOnce(steps), purging, token, j);
      AnswerAtOnce(s, now, steps, purging, j);
    } else if j > 0 {
      var s' := Apply(ready, op, at).0;
      OpenUntilEnded(ready, op, at, token, user, expiresAt);
      EndedLater(steps, token, user, j);
      if Ends(op, token, user) {
        ClosedAnswersNone(s', at, steps[1..], purging, token, j - 1);
      } else {
        SessionLife(s', at, steps[1..], purging, token, user, expiresAt, j - 1);
      }
    }
  }

  /** The same steps, the first of them at once and not preceded by a purge. */
  function AtOnce(steps: seq<Timed<Op>>): seq<Timed<Op>>
    requires steps != []
  {
    [Timed(0, false, steps[0].op)] + steps[1..]
  }

  lemma AnswerAtOnce(s: State, now: int, steps: seq<Timed<Op>>, purging: bool, j: nat)
    requires j < |steps|
    ensures var at := now + steps[0].after;
            var ready := if purging && steps[0].sweep then Purged(s, at) else s;
            Answer(SERVICE, s, now, steps, purging, j) == Answer(SERVICE, ready, at, AtOnce(steps), purging, j)
  {
    assert AtOnce(steps)[1..] == steps[1..];
  }

  lemma {:induction false} InstantsGrow(now: int, steps: seq<Timed<Op>>, j: nat)
    requires j < |steps|
    ensures InstantOf(now, steps, j) >= now + steps[0].after
    decreases j
  {
    if j > 0 {
      InstantsGrow(now + steps[0].after, steps[1..], j - 1);
    }
  }

  /** A session lives for a week from its creation, unless ended. */
  lemma CreatedSessionLives(s: State, now: int, steps: seq<Timed<Op>>, purging: bool, user: UserId, j: nat)
    requires UserExists(s.dir, user) && 0 < j < |steps|
    requires steps[0].op == CreateSession(user) && steps[j].op == ResolveSession(s.nextToken)
    ensures Answer(SERVICE, s, now, steps, purging, 0) == Issued(s.nextToken)
    ensures Answer(SERVICE, s, now, steps, purging, j)
            == Resolved(if InstantOf(now, steps, j) <= now + steps[0].after + 7 * 24 * 3600
                           && !Ended(steps, s.nextToken, user, j) then Some(user) else None)
  {
    var at := now + steps[0].after;
    var ready := if purging && steps[0].sweep then Purged(s, at) else s;
    EndedLater(steps, s.nextToken, user, j);
    SessionLife(Apply(ready, steps[0].op, at).0, at, steps[1..], purging, s.nextToken, user, at + 7 * 24 * 3600, j - 1);
  }

  /** A challenge that nobody has consumed, live or expired. */
  predicate Unconsumed(s: State, token: Token, user: UserId, expiresAt: int) {
    token < s.nextToken && token in s.challenges && s.challenges[token] == Challenge(user, expiresAt, None)
  }

  /** A challenge of which nothing can come any more. */
  predicate Lapsed(s: State, token: Token, now: int) {
    token < s.nextToken && (token in s.challenges ==> DeadChallenge(s.challenges[token], now))
  }

  lemma UnconsumedUntilUsed(s: State, op: Op, now: int, token: Token, user: UserId, expiresAt: int)
    requires Unconsumed(s, token, user, expiresAt) && op != ConsumeChallenge(token)
    ensures Unconsumed(Apply(s, op, now).0, token, user, expiresAt)
  {
  }

  lemma LapsedForGood(s: State, op: Op, now: int, later: int, token: Token)
    requires Lapsed(s, token, now) && now <= later
    ensures Lapsed(s, token, later) && Lapsed(Purged(s, later), token, later)
    ensures Lapsed(Apply(s, op, later).0, token, later)
    ensures op == ConsumeChallenge(token) ==> Apply(s, op, later).1 == Resolved(None)
  {
  }

  lemma {:induction false} LapsedAnswersNone(s: State, now: int, steps: seq<Timed<Op>>, purging: bool, token: Token,
                                             j: nat)
    requires Lapsed(s, token, now) && j < |steps| && steps[j].op == ConsumeChallenge(token)
    ensures Answer(SERVICE, s, now, steps, purging, j) == Resolved(None)
    decreases j
  {
    var at, op := now + steps[0].after, steps[0].op;
    var ready := if purging && steps[0].sweep then Purged(s, at) else s;
    LapsedForGood(s, op, now, at, token);
    LapsedForGood(ready, op, at, at, token);
    if j > 0 {
      LapsedAnswersNone(Apply(ready, op, at).0, at, steps[1..], purging, token, j - 1);
    }
  }

  /** The first attempt to consume a challenge gives its user exactly up to its expiry. */
  lemma {:induction false} ChallengeLife(s: State, now: int, steps: seq<Timed<Op>>, purging: bool, token: Token,
                                         user: UserId, expiresAt: int, j: nat)
    requires Unconsumed(s, token, user, expiresAt) && j < |steps| && steps[j].op == ConsumeChallenge(token)
    requires forall i :: 0 <= i < j ==> steps[i].op != ConsumeChallenge(token)
    ensures Answer(SERVICE, s, now, steps, purging, j)
            == Resolved(if InstantOf(now, steps, j) <= expiresAt then Some(user) else None)
    decreases j
  {
    var at, op := now + steps[0].after, steps[0].op;
    var ready := if purging && steps[0].sweep then Purged(s, at) else s;
    InstantsGrow(now, steps, j);
    if token !in ready.challenges {
      LapsedAnswersNone(ready, at, AtOnce(steps), purging, token, j);
      AnswerAtOnce(s, now, steps, purging, j);
    } else if j > 0 {
      UnconsumedUntilUsed(ready, op, at, token, user, expiresAt);
      ChallengeLife(Apply(ready, op, at).0, at, steps[1..], purging, token, user, expiresAt, j - 1);
    }
  }

  /** A challenge can be consumed for five minutes. */
  lemma CreatedChallengeLives(s: State, now: int, steps: seq<Timed<Op>>, purging: bool, user: UserId, j: nat)
    requires 0 < j < |steps| && steps[0].op == CreateChallenge(user) && steps[j].op == ConsumeChallenge(s.nextToken)
    requires forall i :: 0 <= i < j ==> steps[i].op != ConsumeChallenge(s.nextToken)
    ensures Answer(SERVICE, s, now, steps, purging, 0) == Issued(s.nextToken)
    ensures Answer(SERVICE, s, now, steps, purging, j)
            == Resolved(if InstantOf(now, steps, j) <= now + steps[0].after + 5 * 60 then Some(user) else None)
  {
    var at := now + steps[0].after;
    var ready := if purging && steps[0].sweep then Purged(s, at) else s;
    ChallengeLife(Apply(ready, steps[0].op, at).0, at, steps[1..], purging, s.nextToken, user, at + 5 * 60, j - 1);
  }

  /** An operation on the directory does there, and answers, what the directory does and answers, and nothing else. */
  lemma DirectoryOps(s: State, op: Op, now: int)
    requires OnDirectory(op)
    ensures var (s', output) := Apply(s, op, now);
            && s' == s.(dir := s'.dir)
            && match op
               case CreateInvitation(tenant, email, role, actorRole) =>
                 var done := D.Invite(s.dir, tenant, email, role, actorRole, now);
                 (s'.dir, output) == (done.0, Invited(done.1))
               case AcceptInvitation(token, withPassword, displayName) =>
                 var done := D.Accept(s.dir, token, withPassword, displayName, now);
                 (s'.dir, output) == (done.0, Accepted(done.1))
               case RevokeInvitation(tenant, token) =>
                 var done := D.Uninvite(s.dir, tenant, token);
                 (s'.dir, output) == (done.0, Withdrawn(done.1))
               case ChangeRole(tenant, user, role, ofRole) =>
                 var done := D.ChangeRole(s.dir, tenant, user, role, ofRole);
                 (s'.dir, output) == (done.0, Managed(done.1))
               case RemoveMember(tenant, user, ofRole) =>
                 var done := D.Remove(s.dir, tenant, user, ofRole);
                 (s'.dir, output) == (done.0, Managed(done.1))
               case _ => false
  {
  }

  /** Resolving notes when the session was last seen, on that session alone, and only if it resolves. */
  lemma ResolvingNotes(s: State, token: Token, now: int)
    ensures var (s', output) := Apply(s, ResolveSession(token), now);
            && s' == s.(sessions := s'.sessions) && (output == Resolved(None) ==> s' == s)
            && (output != Resolved(None) ==>
                  && token in s.sessions && output == Resolved(Some(s.sessions[token].user))
                  && s'.sessions == s.sessions[token := s.sessions[token].(lastSeenAt := now)])
  {
  }

  /** Revoking all of a user's sessions marks those not yet revoked, and no other. */
  lemma RevokingAllMarks(s: State, user: UserId, now: int, token: Token)
    ensures var (s', _) := Apply(s, RevokeAll(user), now);
            && s' == s.(sessions := s'.sessions) && (token in s'.sessions <==> token in s.sessions)
            && (token in s.sessions ==>
                  s'.sessions[token] == s.sessions[token].(revokedAt := s'.sessions[token].revokedAt)
                  && s'.sessions[token].revokedAt
                     == if s.sessions[token].revokedAt.None? && s.sessions[token].user == user then Some(now)
                        else s.sessions[token].revokedAt)
  {
  }

  /** A purge removes exactly the rows of which nothing can come any more. */
  lemma PurgedIff(s: State, now: int, token: Token)
    ensures token in Purged(s, now).sessions
            <==> token in s.sessions && s.sessions[token].revokedAt.None? && now <= s.sessions[token].expiresAt
    ensures token in Purged(s, now).challenges <==> token in s.challenges && now <= s.challenges[token].expiresAt
    ensures token in Purged(s, now).dir.invitations
            <==> token in s.dir.invitations && !DeadInvitation(s.dir.invitations[token], now)
  {
  }
}
