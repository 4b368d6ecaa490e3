/**
 Invitations, members and roles. Each operation is one step: the source takes no row locks, so two
 requests that overlap are outside this model. A failed operation is rolled back.
 */
module Directory {
  import opened Wrappers

  type Tenant = nat
  type UserId = nat
  type Token = nat   // stands for a random token, its hash and the identifier of its row, all unique

  /** The built-in roles, and any name that is not one of them. */
  datatype Role = OWNER | ADMIN | MEMBER | UNKNOWN

  datatype User = User(id: UserId, email: string, displayName: Option<string>, hasPassword: bool)

  datatype Invitation = Invitation(email: string, tenant: Tenant, role: Role, expiresAt: int, acceptedAt: Option<int>)

  datatype DirectoryError =
    | InvalidRole | OwnerOnly | AlreadyMember | AlreadyInvited | NotFound | AlreadyAccepted
    | InvalidInvitation | AccountExists | LastOwner

  const INVITATION_TTL := 168 * 3600

  function Lower(s: string): string {
    if s == "" then "" else [if 'A' <= s[0] <= 'Z' then s[0] - 'A' + 'a' else s[0]] + Lower(s[1..])
  }

  /** `users` is indexed by lower-cased email, which is unique. */
  datatype State = State(users: map<string, User>, members: map<(UserId, Tenant), Role>,
                         invitations: map<Token, Invitation>, nextUser: UserId, nextToken: Token)

  function Owners(members: map<(UserId, Tenant), Role>, tenant: Tenant): set<(UserId, Tenant)> {
    set key | key in members && key.1 == tenant && members[key] == OWNER
  }

  predicate Pending(i: Invitation, now: int) {
    i.acceptedAt.None? && i.expiresAt > now
  }

  predicate InvitedFor(i: Invitation, email: string, tenant: Tenant) {
    Lower(i.email) == Lower(email) && i.tenant == tenant
  }

  predicate AlreadyPending(invitations: map<Token, Invitation>, email: string, tenant: Tenant, now: int) {
    exists token :: token in invitations && InvitedFor(invitations[token], email, tenant)
      && Pending(invitations[token], now)
  }

  predicate IsMember(s: State, email: string, tenant: Tenant) {
    Lower(email) in s.users && (s.users[Lower(email)].id, tenant) in s.members
  }

  // --- Operations ---

  /** `actorRole` is None for the command line, which is not subject to the role rules. */
  function Invite(s: State, tenant: Tenant, email: string, role: Role, actorRole: Option<Role>, now: int)
    : (State, Result<Token, DirectoryError>)
  {
    if role == UNKNOWN then (s, Err(InvalidRole))
    else if role == OWNER && actorRole.Some? && actorRole != Some(OWNER) then (s, Err(OwnerOnly))
    else if IsMember(s, email, tenant) then (s, Err(AlreadyMember))
    else if AlreadyPending(s.invitations, email, tenant, now) then (s, Err(AlreadyInvited))
    else
      (s.(invitations := s.invitations[s.nextToken := Invitation(email, tenant, role, now + INVITATION_TTL, None)],
          nextToken := s.nextToken + 1),
       Ok(s.nextToken))
  }

  /** The source answers a foreign or unknown identifier alike, and refuses to revoke an accepted invitation. */
  function Uninvite(s: State, tenant: Tenant, token: Token): (State, Result<Invitation, DirectoryError>) {
    if token !in s.invitations || s.invitations[token].tenant != tenant then (s, Err(NotFound))
    else if s.invitations[token].acceptedAt.Some? then (s, Err(AlreadyAccepted))
    else (s.(invitations := s.invitations - {token}), Ok(s.invitations[token]))
  }

  predicate Acceptable(invitations: map<Token, Invitation>, token: Token, now: int) {
    token in invitations && invitations[token].acceptedAt.None? && invitations[token].expiresAt >= now
  }

  function Accept(s: State, token: Token, withPassword: bool, displayName: Option<string>, now: int)
    : (State, Result<UserId, DirectoryError>)
  {
    if !Acceptable(s.invitations, token, now) then (s, Err(InvalidInvitation))
    else
      var i := s.invitations[token];
      var key := Lower(i.email);
      if key in s.users && withPassword then (s, Err(AccountExists))
      else
        var user :=
          if key in s.users then
            s.users[key].(displayName := if s.users[key].displayName.None? then displayName
                                         else s.users[key].displayName)
          else User(s.nextUser, i.email, displayName, withPassword);
        if (user.id, i.tenant) in s.members then (s, Err(AlreadyMember))
        else
          (State(s.users[key := user], s.members[(user.id, i.tenant) := i.role],
                 s.invitations[token := i.(acceptedAt := Some(now))],
                 if key in s.users then s.nextUser else s.nextUser + 1, s.nextToken),
           Ok(user.id))
  }

  function ChangeRole(s: State, tenant: Tenant, user: UserId, role: Role, actorRole: Role)
    : (State, Result<(), DirectoryError>)
  {
    if role == UNKNOWN then (s, Err(InvalidRole))
    else if (user, tenant) !in s.members then (s, Err(NotFound))
    else
      var current := s.members[(user, tenant)];
      if OWNER in {role, current} && actorRole != OWNER then (s, Err(OwnerOnly))
      else if current == OWNER && role != OWNER && |Owners(s.members, tenant)| <= 1 then (s, Err(LastOwner))
      else (s.(members := s.members[(user, tenant) := role]), Ok(()))
  }

  function Remove(s: State, tenant: Tenant, user: UserId, actorRole: Role): (State, Result<(), DirectoryError>) {
    if (user, tenant) !in s.members then (s, Err(NotFound))
    else if s.members[(user, tenant)] == OWNER && actorRole != OWNER then (s, Err(OwnerOnly))
    else if s.members[(user, tenant)] == OWNER && |Owners(s.members, tenant)| <= 1 then (s, Err(LastOwner))
    else (s.(members := s.members - {(user, tenant)}), Ok(()))
  }

  class DirectoryService {
    var users: map<string, User>
    var members: map<(UserId, Tenant), Role>
    var invitations: map<Token, Invitation>
    var nextUser: UserId
    var nextToken: Token

    constructor ()
      ensures View() == State(map[], map[], map[], 0, 0)
    {
      users, members, invitations, nextUser, nextToken := map[], map[], map[], 0, 0;
    }

    ghost function View(): State
      reads this
    {
      State(users, members, invitations, nextUser, nextToken)
    }

    method CreateInvitation(tenant: Tenant, email: string, role: Role, actorRole: Option<Role>, now: int)
      returns (result: Result<Token, DirectoryError>)
      modifies this
      ensures (View(), result) == Invite(old(View()), tenant, email, role, actorRole, now)
    {
      if role == UNKNOWN {
        return Err(InvalidRole);
      }
      if role == OWNER && actorRole.Some? && actorRole.value != OWNER {
        return Err(OwnerOnly);
      }
      if Lower(email) in users {
        var user := users[Lower(email)];
        if (user.id, tenant) in members {
          return Err(AlreadyMember);
        }
      }
      if AlreadyPending(invitations, email, tenant, now) {
        return Err(AlreadyInvited);
      }
      var token := nextToken;
      nextToken := nextToken + 1;
      invitations := invitations[token := Invitation(email, tenant, role, now + INVITATION_TTL, None)];
      return Ok(token);
    }

    method RevokeInvitation(tenant: Tenant, token: Token) returns (result: Result<Invitation, DirectoryError>)
      modifies this
      ensures (View(), result) == Uninvite(old(View()), tenant, token)
    {
      if token !in invitations || invitations[token].tenant != tenant {
        return Err(NotFound);
      }
      var invitation := invitations[token];
      if invitation.acceptedAt.Some? {
        return Err(AlreadyAccepted);
      }
      invitations := invitations - {token};
      return Ok(invitation);
    }

    method AcceptInvitation(token: Token, withPassword: bool, displayName: Option<string>, now: int)
      returns (result: Result<UserId, DirectoryError>)
      modifies this
      ensures (View(), result) == Accept(old(View()), token, withPassword, displayName, now)
    {
      if token !in invitations || invitations[token].acceptedAt.Some? || invitations[token].expiresAt < now {
        return Err(InvalidInvitation);
      }
      var invitation := invitations[token];
      var key := Lower(invitation.email);
      var user: User;
      var isNew := key !in users;
      if isNew {
        user := User(nextUser, invitation.email, displayName, withPassword);
      } else {
        user := users[key];
        if displayName.Some? && user.displayName.None? {
          user := user.(displayName := displayName);
        }
        if withPassword {
          return Err(AccountExists);
        }
      }
      if (user.id, invitation.tenant) in members {
        return Err(AlreadyMember);
      }
      if isNew {
        nextUser := nextUser + 1;
      }
      users := users[key := user];
      members := members[(user.id, invitation.tenant) := invitation.role];
      invitations := invitations[token := invitation.(acceptedAt := Some(now))];
      return Ok(user.id);
    }

    method ChangeMemberRole(tenant: Tenant, user: UserId, role: Role, actorRole: Role)
      returns (result: Result<(), DirectoryError>)
      modifies this
      ensures (View(), result) == ChangeRole(old(View()), tenant, user, role, actorRole)
    {
      if role == UNKNOWN {
        return Err(InvalidRole);
      }
      if (user, tenant) !in members {
        return Err(NotFound);
      }
      var current := members[(user, tenant)];
      if (role == OWNER || current == OWNER) && actorRole != OWNER {
        return Err(OwnerOnly);
      }
      if current == OWNER && role != OWNER && |Owners(members, tenant)| <= 1 {
        return Err(LastOwner);
      }
      members := members[(user, tenant) := role];
      return Ok(());
    }

    method RemoveMember(tenant: Tenant, user: UserId, actorRole: Role) returns (result: Result<(), DirectoryError>)
      modifies this
      ensures (View(), result) == Remove(old(View()), tenant, user, actorRole)
    {
      if (user, tenant) !in members {
        return Err(NotFound);
      }
      if members[(user, tenant)] == OWNER {
        if actorRole != OWNER {
          return Err(OwnerOnly);
        }
        if |Owners(members, tenant)| <= 1 {
          return Err(LastOwner);
        }
      }
      members := members - {(user, tenant)};
      return Ok(());
    }
  }

  // --- Runs ---

  /**
   One request or command. A request comes from a member of the tenant who may manage members; its
   role is the one the member has at that moment. Acceptance is anonymous.
   */
  datatype Step =
    | CliInvite(tenant: Tenant, email: string, role: Role)
    | MemberInvites(actor: UserId, tenant: Tenant, email: string, role: Role)
    | MemberUninvites(actor: UserId, tenant: Tenant, token: Token)
    | Accepts(token: Token, withPassword: bool, displayName: Option<string>)
    | MemberChangesRole(actor: UserId, tenant: Tenant, user: UserId, role: Role)
    | MemberRemoves(actor: UserId, tenant: Tenant, user: UserId)
    | PurgeExpired
    | Pass(seconds: nat)

  predicate MayManage(s: State, actor: UserId, tenant: Tenant) {
    (actor, tenant) in s.members && s.members[(actor, tenant)] in {OWNER, ADMIN}
  }

  /** Who grants: the command line, or a member with the role it has at that moment. */
  datatype Actor = Cli | Member(user: UserId, role: Role)

  /** What happened to roles: an invitation created, or accepted, a role changed, a member removed. */
  datatype Grant =
    | Offered(token: Token, tenant: Tenant, role: Role, giver: Actor)
    | Joined(token: Token, tenant: Tenant, user: UserId, role: Role)
    | Changed(user: UserId, tenant: Tenant, role: Role, giver: Actor)
    | Removed(user: UserId, tenant: Tenant, giver: Actor)

  /** The clock, the directory, and as history the tokens accepted and the grants so far. */
  datatype World = World(now: int, dir: State, accepted: seq<Token>, grants: seq<Grant>)

  function Invited(w: World, tenant: Tenant, email: string, role: Role, actor: Actor): World {
    var (dir, result) := Invite(w.dir, tenant, email, role, if actor.Cli? then None else Some(actor.role), w.now);
    w.(dir := dir,
       grants := if result.Ok? then w.grants + [Offered(result.value, tenant, role, actor)] else w.grants)
  }

  function Purged(invitations: map<Token, Invitation>, now: int): map<Token, Invitation> {
    map token | token in invitations
      && !(invitations[token].expiresAt < now && invitations[token].acceptedAt.None?) :: invitations[token]
  }

  function Next(w: World, step: Step): World {
    match step
    case CliInvite(tenant, email, role) => Invited(w, tenant, email, role, Cli)
    case MemberInvites(actor, tenant, email, role) =>
      if !MayManage(w.dir, actor, tenant) then w
      else Invited(w, tenant, email, role, Member(actor, w.dir.members[(actor, tenant)]))
    case MemberUninvites(actor, tenant, token) =>
      if !MayManage(w.dir, actor, tenant) then w else w.(dir := Uninvite(w.dir, tenant, token).0)
    case Accepts(token, withPassword, displayName) =>
      var (dir, result) := Accept(w.dir, token, withPassword, displayName, w.now);
      if result.Err? then w
      else
        var i := w.dir.invitations[token];
        w.(dir := dir, accepted := w.accepted + [token],
           grants := w.grants + [Joined(token, i.tenant, result.value, dir.members[(result.value, i.tenant)])])
    case MemberChangesRole(actor, tenant, user, role) =>
      if !MayManage(w.dir, actor, tenant) then w
      else
        var actorRole := w.dir.members[(actor, tenant)];
        var (dir, result) := ChangeRole(w.dir, tenant, user, role, actorRole);
        w.(dir := dir,
           grants := if result.Ok? then w.grants + [Changed(user, tenant, role, Member(actor, actorRole))]
                     else w.grants)
    case MemberRemoves(actor, tenant, user) =>
      if !MayManage(w.dir, actor, tenant) then w
      else
        var actorRole := w.dir.members[(actor, tenant)];
        var (dir, result) := Remove(w.dir, tenant, user, actorRole);
        w.(dir := dir,
           grants := if result.Ok? then w.grants + [Removed(user, tenant, Member(actor, actorRole))] else w.grants)
    case PurgeExpired => w.(dir := w.dir.(invitations := Purged(w.dir.invitations, w.now)))
    case Pass(seconds) => w.(now := w.now + seconds)
  }

  function Run(w: World, steps: seq<Step>): World
    decreases steps
  {
    if steps == [] then w else Run(Next(w, steps[0]), steps[1..])
  }

  function Start(now: int): World {
    World(now, State(map[], map[], map[], 0, 0), [], [])
  }

  // --- Owners ---

  predicate HasOwner(s: State, tenant: Tenant) {
    Owners(s.members, tenant) != {}
  }

  lemma OwnerLeft(members: map<(UserId, Tenant), Role>, members': map<(UserId, Tenant), Role>, tenant: Tenant,
                  key: (UserId, Tenant))
    requires |Owners(members, tenant)| > 1
    requires forall k :: k in members && k != key ==> k in members' && members'[k] == members[k]
    ensures Owners(members', tenant) != {}
  {
    var others := Owners(members, tenant) - {key};
    assert |others| > 0;
    var k :| k in others;
    assert k in Owners(members', tenant);
  }

  lemma NextKeepsOwner(w: World, step: Step, tenant: Tenant)
    requires HasOwner(w.dir, tenant)
    ensures HasOwner(Next(w, step).dir, tenant)
  {
    var members, members' := w.dir.members, Next(w, step).dir.members;
    var owner :| owner in Owners(members, tenant);
    match step
    case MemberChangesRole(actor, t, user, role) =>
      if t == tenant && members' != members && |Owners(members, tenant)| > 1 {
        OwnerLeft(members, members', tenant, (user, t));
      } else {
        OnlyOwner(members, tenant, owner);
        assert owner in Owners(members', tenant);
      }
    case MemberRemoves(actor, t, user) =>
      if t == tenant && members' != members && |Owners(members, tenant)| > 1 {
        OwnerLeft(members, members', tenant, (user, t));
      } else {
        OnlyOwner(members, tenant, owner);
        assert owner in Owners(members', tenant);
      }
    case _ =>
      assert owner in Owners(members', tenant);
  }

  lemma OnlyOwner(members: map<(UserId, Tenant), Role>, tenant: Tenant, owner: (UserId, Tenant))
    requires owner in Owners(members, tenant)
    ensures |Owners(members, tenant)| >= 1
    ensures |Owners(members, tenant)| == 1 ==> Owners(members, tenant) == {owner}
  {
    assert Owners(members, tenant) == (Owners(members, tenant) - {owner}) + {owner};
  }

  /** A tenant that has an owner keeps one, whatever is asked for. */
  lemma {:induction false} OwnerForever(w: World, steps: seq<Step>, tenant: Tenant)
    requires HasOwner(w.dir, tenant)
    ensures HasOwner(Run(w, steps).dir, tenant)
    decreases steps
  {
    if steps != [] {
      NextKeepsOwner(w, steps[0], tenant);
      OwnerForever(Next(w, steps[0]), steps[1..], tenant);
    }
  }

  ghost predicate NoOwnerInSight(s: State, tenant: Tenant) {
    && !HasOwner(s, tenant)
    && forall token :: token in s.invitations ==>
       s.invitations[token].tenant != tenant || s.invitations[token].role != OWNER
  }

  predicate NoOwnerAmong(members: map<(UserId, Tenant), Role>, tenant: Tenant) {
    forall key :: key in members && key.1 == tenant ==> members[key] != OWNER
  }

  lemma NoOwnerIff(s: State, tenant: Tenant)
    ensures !HasOwner(s, tenant) <==> NoOwnerAmong(s.members, tenant)
  {
    assert forall key :: key in s.members && key.1 == tenant && s.members[key] == OWNER ==>
      key in Owners(s.members, tenant);
  }

  lemma NextGivesNoOwnership(w: World, step: Step, tenant: Tenant)
    requires NoOwnerInSight(w.dir, tenant) && NoOwnerAmong(w.dir.members, tenant)
    ensures NoOwnerAmong(Next(w, step).dir.members, tenant)
  {
  }

  lemma NextCreatesNoOwner(w: World, step: Step, tenant: Tenant)
    requires NoOwnerInSight(w.dir, tenant)
    requires !(step.CliInvite? && step.tenant == tenant && step.role == OWNER)
    ensures NoOwnerInSight(Next(w, step).dir, tenant)
  {
    NoOwnerIff(w.dir, tenant);
    NextGivesNoOwnership(w, step, tenant);
    NoOwnerIff(Next(w, step).dir, tenant);
  }

  /**
   No one becomes an owner of a tenant that has none unless the command line invites one: owners come
   from it or from owners.
   */
  lemma {:induction false} OwnersComeFromTheCli(w: World, steps: seq<Step>, tenant: Tenant)
    requires NoOwnerInSight(w.dir, tenant)
    requires forall i :: 0 <= i < |steps| ==>
               !(steps[i].CliInvite? && steps[i].tenant == tenant && steps[i].role == OWNER)
    ensures NoOwnerInSight(Run(w, steps).dir, tenant)
    decreases steps
  {
    if steps != [] {
      NextCreatesNoOwner(w, steps[0], tenant);
      OwnersComeFromTheCli(Next(w, steps[0]), steps[1..], tenant);
    }
  }

  // --- Where roles come from ---

  predicate Concerns(g: Grant, user: UserId, tenant: Tenant) {
    !g.Offered? && g.user == user && g.tenant == tenant
  }

  /** The role of a user in a tenant that the grants show: the last one given and not taken away since. */
  function Standing(grants: seq<Grant>, user: UserId, tenant: Tenant): Option<Role> {
    if grants == [] then None
    else
      var g := grants[|grants| - 1];
      if !Concerns(g, user, tenant) then Standing(grants[..|grants| - 1], user, tenant)
      else if g.Removed? then None
      else Some(g.role)
  }

  ghost predicate WasOffered(grants: seq<Grant>, token: Token, tenant: Tenant, role: Role) {
    exists g :: g in grants && Offers(g, token, tenant, role)
  }

  predicate Offers(g: Grant, token: Token, tenant: Tenant, role: Role) {
    g.Offered? && g.token == token && g.tenant == tenant && g.role == role
  }

  /** A member who may manage members, with the role it stands in; ownership is for owners to give and take. */
  predicate Entitled(grants: seq<Grant>, actor: Actor, tenant: Tenant, ownership: bool) {
    && actor.Member? && Standing(grants, actor.user, tenant) == Some(actor.role)
    && actor.role in (if ownership then {OWNER} else {OWNER, ADMIN})
  }

  /** A grant is justified by those before it. */
  ghost predicate Justified(grants: seq<Grant>, g: Grant) {
    match g
    case Offered(_, tenant, role, actor) =>
      role != UNKNOWN && (actor.Cli? || Entitled(grants, actor, tenant, role == OWNER))
    case Joined(token, tenant, user, role) =>
      WasOffered(grants, token, tenant, role) && Standing(grants, user, tenant) == None
    case Changed(user, tenant, role, actor) =>
      var before := Standing(grants, user, tenant);
      && role != UNKNOWN && before.Some?
      && Entitled(grants, actor, tenant, OWNER in {role, before.value})
    case Removed(user, tenant, actor) =>
      var before := Standing(grants, user, tenant);
      before.Some? && Entitled(grants, actor, tenant, before.value == OWNER)
  }

  ghost predicate AllJustified(grants: seq<Grant>) {
    grants == [] || (AllJustified(grants[..|grants| - 1]) && Justified(grants[..|grants| - 1], grants[|grants| - 1]))
  }

  /** The members are those the grants show, each in the role they show. */
  ghost predicate RolesStand(members: map<(UserId, Tenant), Role>, grants: seq<Grant>) {
    forall user, tenant :: Stands(members, grants, user, tenant)
  }

  predicate Stands(members: map<(UserId, Tenant), Role>, grants: seq<Grant>, user: UserId, tenant: Tenant) {
    Standing(grants, user, tenant) == if (user, tenant) in members then Some(members[(user, tenant)]) else None
  }

  ghost predicate OffersListed(invitations: map<Token, Invitation>, grants: seq<Grant>) {
    forall token :: token in invitations ==>
      WasOffered(grants, token, invitations[token].tenant, invitations[token].role)
  }

  ghost predicate Traced(w: World) {
    AllJustified(w.grants) && RolesStand(w.dir.members, w.grants) && OffersListed(w.dir.invitations, w.grants)
  }

  lemma GrantJustified(grants: seq<Grant>, g: Grant)
    requires AllJustified(grants) && Justified(grants, g)
    ensures AllJustified(grants + [g])
  {
    assert (grants + [g])[..|grants|] == grants;
  }

  lemma OffersStayListed(invitations: map<Token, Invitation>, grants: seq<Grant>, g: Grant)
    requires OffersListed(invitations, grants)
    ensures OffersListed(invitations, grants + [g])
  {
    forall token | token in invitations
      ensures WasOffered(grants + [g], token, invitations[token].tenant, invitations[token].role)
    {
      var h :| h in grants && Offers(h, token, invitations[token].tenant, invitations[token].role);
      assert h in grants + [g];
    }
  }

  /** A grant that concerns one membership moves its standing and no other. */
  lemma RolesMove(members: map<(UserId, Tenant), Role>, members': map<(UserId, Tenant), Role>, grants: seq<Grant>,
                  g: Grant)
    requires RolesStand(members, grants)
    requires !g.Offered? ==>
               if g.Removed? then members' == members - {(g.user, g.tenant)}
               else members' == members[(g.user, g.tenant) := g.role]
    requires g.Offered? ==> members' == members
    ensures RolesStand(members', grants + [g])
  {
    forall user, tenant
      ensures Stands(members', grants + [g], user, tenant)
    {
      assert (grants + [g])[..|grants|] == grants;
      assert Stands(members, grants, user, tenant);
    }
  }

  lemma OfferTraced(members: map<(UserId, Tenant), Role>, invitations: map<Token, Invitation>, grants: seq<Grant>,
                    token: Token, i: Invitation, g: Grant)
    requires AllJustified(grants) && RolesStand(members, grants) && OffersListed(invitations, grants)
    requires Justified(grants, g) && Offers(g, token, i.tenant, i.role)
    ensures AllJustified(grants + [g]) && RolesStand(members, grants + [g])
    ensures OffersListed(invitations[token := i], grants + [g])
  {
    GrantJustified(grants, g);
    RolesMove(members, members, grants, g);
    OffersStayListed(invitations, grants, g);
    assert g in grants + [g];
    assert WasOffered(grants + [g], token, i.tenant, i.role);
  }

  lemma InvitedTraced(w: World, tenant: Tenant, email: string, role: Role, actor: Actor, end: World)
    requires Traced(w) && (actor.Member? ==> Entitled(w.grants, actor, tenant, false))
    requires end == Invited(w, tenant, email, role, actor)
    ensures Traced(end)
  {
    var (dir, result) := Invite(w.dir, tenant, email, role, if actor.Cli? then None else Some(actor.role), w.now);
    if result.Ok? {
      var i := Invitation(email, tenant, role, w.now + INVITATION_TTL, None);
      OfferTraced(w.dir.members, w.dir.invitations, w.grants, result.value, i,
                  Offered(result.value, tenant, role, actor));
    }
  }

  lemma SpentListed(invitations: map<Token, Invitation>, grants: seq<Grant>, token: Token, spent: Invitation)
    requires OffersListed(invitations, grants) && token in invitations
    requires spent.role == invitations[token].role && spent.tenant == invitations[token].tenant
    ensures OffersListed(invitations[token := spent], grants)
  {
  }

  lemma AcceptTraced(w: World, step: Step)
    requires Traced(w) && step.Accepts?
    ensures Traced(Next(w, step))
  {
    var (dir, result) := Accept(w.dir, step.token, step.withPassword, step.displayName, w.now);
    if result.Ok? {
      var i := w.dir.invitations[step.token];
      var g := Joined(step.token, i.tenant, result.value, i.role);
      assert Stands(w.dir.members, w.grants, result.value, i.tenant);
      GrantJustified(w.grants, g);
      RolesMove(w.dir.members, dir.members, w.grants, g);
      OffersStayListed(w.dir.invitations, w.grants, g);
      SpentListed(w.dir.invitations, w.grants + [g], step.token, i.(acceptedAt := Some(w.now)));
    }
  }

  lemma ChangeTraced(w: World, step: Step)
    requires Traced(w) && step.MemberChangesRole?
    ensures Traced(Next(w, step))
  {
    if MayManage(w.dir, step.actor, step.tenant) {
      var actorRole := w.dir.members[(step.actor, step.tenant)];
      var (dir, result) := ChangeRole(w.dir, step.tenant, step.user, step.role, actorRole);
      assert Stands(w.dir.members, w.grants, step.actor, step.tenant);
      assert Stands(w.dir.members, w.grants, step.user, step.tenant);
      if result.Ok? {
        var g := Changed(step.user, step.tenant, step.role, Member(step.actor, actorRole));
        GrantJustified(w.grants, g);
        RolesMove(w.dir.members, dir.members, w.grants, g);
        OffersStayListed(w.dir.invitations, w.grants, g);
      }
    }
  }

  lemma RemovalTraced(w: World, step: Step)
    requires Traced(w) && step.MemberRemoves?
    ensures Traced(Next(w, step))
  {
    if MayManage(w.dir, step.actor, step.tenant) {
      var actorRole := w.dir.members[(step.actor, step.tenant)];
      var (dir, result) := Remove(w.dir, step.tenant, step.user, actorRole);
      assert Stands(w.dir.members, w.grants, step.actor, step.tenant);
      assert Stands(w.dir.members, w.grants, step.user, step.tenant);
      if result.Ok? {
        var g := Removed(step.user, step.tenant, Member(step.actor, actorRole));
        GrantJustified(w.grants, g);
        RolesMove(w.dir.members, dir.members, w.grants, g);
        OffersStayListed(w.dir.invitations, w.grants, g);
      }
    }
  }

  lemma {:induction false} RunTraced(w: World, steps: seq<Step>)
    requires Traced(w)
    ensures Traced(Run(w, steps))
    decreases steps
  {
    if steps != [] {
      match steps[0] {
        case CliInvite(tenant, email, role) => InvitedTraced(w, tenant, email, role, Cli, Next(w, steps[0]));
        case MemberInvites(actor, tenant, email, role) =>
          if MayManage(w.dir, actor, tenant) {
            assert Stands(w.dir.members, w.grants, actor, tenant);
            InvitedTraced(w, tenant, email, role, Member(actor, w.dir.members[(actor, tenant)]), Next(w, steps[0]));
          }
        case Accepts(_, _, _) => AcceptTraced(w, steps[0]);
        case MemberChangesRole(_, _, _, _) => ChangeTraced(w, steps[0]);
        case MemberRemoves(_, _, _) => RemovalTraced(w, steps[0]);
        case _ =>
      }
      RunTraced(Next(w, steps[0]), steps[1..]);
    }
  }

  lemma {:induction false} JustifiedAt(grants: seq<Grant>, k: nat)
    requires AllJustified(grants) && k < |grants|
    ensures Justified(grants[..k], grants[k])
    decreases |grants|
  {
    if k < |grants| - 1 {
      JustifiedAt(grants[..|grants| - 1], k);
      assert grants[..|grants| - 1][..k] == grants[..k];
    }
  }

  lemma {:induction false} StandingIsGranted(grants: seq<Grant>, user: UserId, tenant: Tenant)
    requires Standing(grants, user, tenant).Some?
    ensures exists g :: g in grants && g.tenant == tenant
  {
    var g := grants[|grants| - 1];
    if Concerns(g, user, tenant) {
      assert g in grants;
    } else {
      StandingIsGranted(grants[..|grants| - 1], user, tenant);
      var h :| h in grants[..|grants| - 1] && h.tenant == tenant;
      assert h in grants;
    }
  }

  /**
   In every run the members of a tenant are exactly those who accepted an invitation and were not
   removed since, each in the role of that invitation or of the last change. Each invitation of the
   run came from the command line or, as each change and removal did, from a member who stood as
   owner or administrator at that moment, and as owner where ownership was at stake. So the first of
   a tenant is the command line's.
   */
  lemma RolesAreTraced(now: int, steps: seq<Step>, k: nat)
    ensures var end := Run(Start(now), steps);
            && RolesStand(end.dir.members, end.grants)
            && (k < |end.grants| ==> Justified(end.grants[..k], end.grants[k]))
            && (k < |end.grants| && (forall g :: g in end.grants[..k] ==> g.tenant != end.grants[k].tenant) ==>
                  end.grants[k].Offered? && end.grants[k].giver == Cli)
  {
    RunTraced(Start(now), steps);
    var grants := Run(Start(now), steps).grants;
    if k < |grants| {
      var g := grants[k];
      JustifiedAt(grants, k);
      if !(g.Offered? && g.giver.Cli?) && !g.Joined? {
        StandingIsGranted(grants[..k], g.giver.user, g.tenant);
      }
    }
  }

  // --- What each operation does ---

  /** The role of a member who may manage members, as owners and administrators may. */
  function Manages(s: State, actor: UserId, tenant: Tenant): Option<Role> {
    if (actor, tenant) in s.members
      && s.members[(actor, tenant)] in {OWNER, ADMIN} then Some(s.members[(actor, tenant)])
    else None
  }

  /**
   A request of an owner or administrator, or a command, is that operation with the role of its
   actor; a request of anyone else changes nothing.
   */
  lemma RequestsAreServed(w: World, step: Step)
    ensures var w' := Next(w, step);
            match step
            case CliInvite(tenant, email, role) => w'.dir == Invite(w.dir, tenant, email, role, None, w.now).0
            case MemberInvites(actor, tenant, email, role) =>
              var manager := Manages(w.dir, actor, tenant);
              w'.dir == if manager.None? then w.dir else Invite(w.dir, tenant, email, role, manager, w.now).0
            case MemberUninvites(actor, tenant, token) =>
              w'.dir == if Manages(w.dir, actor, tenant).None? then w.dir else Uninvite(w.dir, tenant, token).0
            case Accepts(token, withPassword, displayName) =>
              w'.dir == Accept(w.dir, token, withPassword, displayName, w.now).0
            case MemberChangesRole(actor, tenant, user, role) =>
              var manager := Manages(w.dir, actor, tenant);
              w'.dir == if manager.None? then w.dir else ChangeRole(w.dir, tenant, user, role, manager.value).0
            case MemberRemoves(actor, tenant, user) =>
              var manager := Manages(w.dir, actor, tenant);
              w'.dir == if manager.None? then w.dir else Remove(w.dir, tenant, user, manager.value).0
            case PurgeExpired =>
              && w'.dir == w.dir.(invitations := w'.dir.invitations)
              && w'.dir.invitations.Keys <= w.dir.invitations.Keys
              && forall token :: token in w.dir.invitations ==>
                   var i := w.dir.invitations[token];
                   if token in w'.dir.invitations then w'.dir.invitations[token] == i
                   else i.acceptedAt.None? && i.expiresAt < w.now
            case Pass(_) => w'.dir == w.dir
    ensures Next(w, step).now == w.now + if step.Pass? then step.seconds else 0
    ensures step == PurgeExpired ==>
              forall token :: token in Next(w, step).dir.invitations ==>
                w.dir.invitations[token].acceptedAt.Some? || w.dir.invitations[token].expiresAt >= w.now
  {
  }

  /** Users are numbered, one to an address, and only they are members. */
  ghost predicate Numbered(s: State) {
    && (forall email :: email in s.users ==> s.users[email].id < s.nextUser)
    && (forall a, b :: a in s.users && b in s.users && s.users[a].id == s.users[b].id ==> a == b)
    && (forall key :: key in s.members ==> key.0 < s.nextUser)
  }

  lemma AcceptNumbered(s: State, token: Token, withPassword: bool, displayName: Option<string>, now: int)
    requires Numbered(s)
    ensures Numbered(Accept(s, token, withPassword, displayName, now).0)
  {
  }

  lemma NextNumbered(w: World, step: Step)
    requires Numbered(w.dir)
    ensures Numbered(Next(w, step).dir)
  {
    if step.Accepts? {
      AcceptNumbered(w.dir, step.token, step.withPassword, step.displayName, w.now);
    }
  }

  lemma {:induction false} RunNumbered(w: World, steps: seq<Step>)
    requires Numbered(w.dir)
    ensures Numbered(Run(w, steps).dir)
    decreases steps
  {
    if steps != [] {
      NextNumbered(w, steps[0]);
      RunNumbered(Next(w, steps[0]), steps[1..]);
    }
  }

  lemma AcceptIff(s: State, token: Token, withPassword: bool, displayName: Option<string>, now: int)
    requires Numbered(s)
    ensures var (s', result) := Accept(s, token, withPassword, displayName, now);
            && (result.Ok? <==> CanAccept(s, token, withPassword, now)) && (result.Err? ==> s' == s)
  {
  }

  lemma AcceptJoins(s: State, token: Token, withPassword: bool, displayName: Option<string>, now: int)
    requires Numbered(s) && Accept(s, token, withPassword, displayName, now).1.Ok?
    ensures var (s', result) := Accept(s, token, withPassword, displayName, now);
            && JoinsAs(s, s', s.invitations[token], result.value, withPassword, displayName)
            && s'.invitations == s.invitations[token := s'.invitations[token]]
            && s'.invitations[token] == s.invitations[token].(acceptedAt := Some(now))
  {
  }

  predicate CanAccept(s: State, token: Token, withPassword: bool, now: int) {
    && token in s.invitations && s.invitations[token].acceptedAt.None? && now <= s.invitations[token].expiresAt
    && !(withPassword && Lower(s.invitations[token].email) in s.users)
    && !IsMember(s, s.invitations[token].email, s.invitations[token].tenant)
  }

  /**
   In every run, an invitation can be accepted exactly when it is unaccepted and not past its expiry,
   its address has no account or no password is offered for it, and its user is no member yet. It
   then makes one membership: of the user of its address, in its tenant, with its role.
   */
  lemma AcceptanceGivesTheRoleOffered(now: int, steps: seq<Step>, token: Token, withPassword: bool,
                                      displayName: Option<string>)
    ensures var w := Run(Start(now), steps);
            var (s', result) := Accept(w.dir, token, withPassword, displayName, w.now);
            && (result.Ok? <==> CanAccept(w.dir, token, withPassword, w.now))
            && (result.Err? ==> s' == w.dir)
            && (result.Ok? ==>
                  && JoinsAs(w.dir, s', w.dir.invitations[token], result.value, withPassword, displayName)
                  && s'.invitations == w.dir.invitations[token := s'.invitations[token]]
                  && s'.invitations[token] == w.dir.invitations[token].(acceptedAt := Some(w.now)))
  {
    RunNumbered(Start(now), steps);
    var w := Run(Start(now), steps);
    AcceptIff(w.dir, token, withPassword, displayName, w.now);
    if Accept(w.dir, token, withPassword, displayName, w.now).1.Ok? {
      AcceptJoins(w.dir, token, withPassword, displayName, w.now);
    }
  }

  ghost predicate JoinsAs(s: State, s': State, i: Invitation, user: UserId, withPassword: bool,
                          displayName: Option<string>)
  {
    var address := Lower(i.email);
    && (user, i.tenant) !in s.members && s'.members == s.members[(user, i.tenant) := i.role]
    && s'.users.Keys == s.users.Keys + {address}
    && (forall other :: other in s.users && other != address ==> s'.users[other] == s.users[other])
    && (address in s.users ==>
          var known := s.users[address];
          user == known.id && s'.users[address] == known.(displayName := s'.users[address].displayName)
          && s'.users[address].displayName in {known.displayName, displayName}
          && (known.displayName.Some? ==> s'.users[address] == known)
          && (known.displayName.None? ==> s'.users[address].displayName == displayName))
    && (address !in s.users ==>
          && (forall other :: other in s.users ==> s.users[other].id != user)
          && s'.users[address] == User(user, i.email, displayName, withPassword))
  }

  /** Somebody else owns the tenant. */
  ghost predicate OtherOwner(members: map<(UserId, Tenant), Role>, tenant: Tenant, user: UserId) {
    exists key :: key in members && key.1 == tenant && key.0 != user && members[key] == OWNER
  }

  lemma OtherOwnerIff(members: map<(UserId, Tenant), Role>, tenant: Tenant, user: UserId)
    requires (user, tenant) in members && members[(user, tenant)] == OWNER
    ensures |Owners(members, tenant)| <= 1 <==> !OtherOwner(members, tenant, user)
  {
    OnlyOwner(members, tenant, (user, tenant));
    if OtherOwner(members, tenant, user) {
      var key :| key in members && key.1 == tenant && key.0 != user && members[key] == OWNER;
      assert key in Owners(members, tenant);
    } else {
      assert Owners(members, tenant) == {(user, tenant)};
    }
  }

  /**
   A member's role is changed exactly when the role is a known one and an owner asks, where ownership
   is at stake, and the tenant keeps an owner. No other membership moves.
   */
  lemma RoleChangeIff(s: State, tenant: Tenant, user: UserId, role: Role, actorRole: Role)
    ensures var (s', result) := ChangeRole(s, tenant, user, role, actorRole);
            && (result.Ok? <==>
                && role != UNKNOWN && (user, tenant) in s.members
                && (role == OWNER || s.members[(user, tenant)] == OWNER ==> actorRole == OWNER)
                && (role != OWNER && s.members[(user, tenant)] == OWNER ==> OtherOwner(s.members, tenant, user)))
            && s' == s.(members := if result.Ok? then s.members[(user, tenant) := role] else s.members)
  {
    if (user, tenant) in s.members && s.members[(user, tenant)] == OWNER {
      OtherOwnerIff(s.members, tenant, user);
    }
  }

  /** A member is removed exactly when an owner asks, if it is an owner, and the tenant keeps an owner. */
  lemma RemovalIff(s: State, tenant: Tenant, user: UserId, actorRole: Role)
    ensures var (s', result) := Remove(s, tenant, user, actorRole);
            && (result.Ok? <==>
                && (user, tenant) in s.members
                && (s.members[(user, tenant)] == OWNER ==> actorRole == OWNER && OtherOwner(s.members, tenant, user)))
            && (forall key :: key in s'.members <==> key in s.members && !(result.Ok? && key == (user, tenant)))
            && (forall key :: key in s'.members ==> s'.members[key] == s.members[key])
            && s' == s.(members := s'.members)
  {
    if (user, tenant) in s.members && s.members[(user, tenant)] == OWNER {
      OtherOwnerIff(s.members, tenant, user);
    }
  }

  /** An unaccepted invitation of the tenant is withdrawn, and answered; any other stays. */
  lemma WithdrawalIff(s: State, tenant: Tenant, token: Token)
    ensures var (s', result) := Uninvite(s, tenant, token);
            && (result.Ok? <==> token in s.invitations && s.invitations[token].tenant == tenant
                                && s.invitations[token].acceptedAt.None?)
            && (forall t :: t in s'.invitations <==> t in s.invitations && !(result.Ok? && t == token))
            && (forall t :: t in s'.invitations ==> s'.invitations[t] == s.invitations[t])
            && s' == s.(invitations := s'.invitations) && (result.Ok? ==> result.value == s.invitations[token])
  {
  }

  /** A purge removes exactly the invitations that can no longer be accepted and never were. */
  lemma PurgedIff(invitations: map<Token, Invitation>, now: int, token: Token)
    ensures token in Purged(invitations, now)
            <==> token in invitations && (invitations[token].acceptedAt.Some? || Acceptable(invitations, token, now))
    ensures token in Purged(invitations, now) ==> Purged(invitations, now)[token] == invitations[token]
  {
  }

  // --- Invitations ---

  /** The same letter, or the upper and the lower case of it. */
  predicate SameLetter(a: char, b: char) {
    || a == b
    || ('A' <= a <= 'Z' && 'a' <= b <= 'z' && a - 'A' == b - 'a')
    || ('a' <= a <= 'z' && 'A' <= b <= 'Z' && a - 'a' == b - 'A')
  }

  predicate SameAddress(a: string, b: string) {
    |a| == |b| && forall i :: 0 <= i < |a| ==> SameLetter(a[i], b[i])
  }

  lemma {:induction false} LowerIff(a: string, b: string)
    ensures Lower(a) == Lower(b) <==> SameAddress(a, b)
    decreases a
  {
    if a == "" || b == "" {
      LowerLength(a);
      LowerLength(b);
    } else {
      LowerIff(a[1..], b[1..]);
      var x, y := Lower(a), Lower(b);
      assert x[1..] == Lower(a[1..]) && y[1..] == Lower(b[1..]);
      assert x == y <==> x[0] == y[0] && x[1..] == y[1..] by {
        assert x == [x[0]] + x[1..] && y == [y[0]] + y[1..];
      }
      assert SameAddress(a, b) <==> SameLetter(a[0], b[0]) && SameAddress(a[1..], b[1..]) by {
        assert a == [a[0]] + a[1..] && b == [b[0]] + b[1..];
      }
    }
  }

  lemma LowerLength(s: string)
    ensures |Lower(s)| == |s|
  {
  }

  /** One invitation more. */
  predicate InvitedAs(invitations: map<Token, Invitation>, invitations': map<Token, Invitation>, token: Token,
                      tenant: Tenant, email: string, role: Role)
  {
    && invitations'.Keys == invitations.Keys + {token}
    && (forall t :: t in invitations && t != token ==> invitations'[t] == invitations[t])
    && var i := invitations'[token];
       (i.email, i.tenant, i.role, i.acceptedAt) == (email, tenant, role, None)
  }

  /**
   An invitation is created exactly when its role is a known one, which only an owner or the command
   line gives if it is ownership, the address is no member and has no pending invitation. It can be
   accepted for a week, and nothing else moves.
   */
  lemma InvitationIff(s: State, tenant: Tenant, email: string, role: Role, actorRole: Option<Role>, now: int,
                      later: int)
    requires forall token :: token in s.invitations ==> token < s.nextToken
    ensures var (s', result) := Invite(s, tenant, email, role, actorRole, now);
            && (result.Ok? <==>
                && role != UNKNOWN && (role == OWNER ==> actorRole in {None, Some(OWNER)})
                && !(exists u :: u in s.users && u == Lower(email) && (s.users[u].id, tenant) in s.members)
                && !(exists token :: token in s.invitations && s.invitations[token].acceptedAt.None?
                                     && s.invitations[token].expiresAt > now
                                     && s.invitations[token].tenant == tenant
                                     && SameAddress(s.invitations[token].email, email)))
            && (result.Err? ==> s' == s)
            && (result.Ok? ==>
                  && result.value !in s.invitations
                  && s' == s.(invitations := s'.invitations, nextToken := s'.nextToken)
                  && InvitedAs(s.invitations, s'.invitations, result.value, tenant, email, role)
                  && (Acceptable(s'.invitations, result.value, later) <==> later <= now + 7 * 24 * 3600))
  {
    forall token | token in s.invitations
      ensures InvitedFor(s.invitations[token], email, tenant)
              <==> s.invitations[token].tenant == tenant && SameAddress(s.invitations[token].email, email)
    {
      LowerIff(s.invitations[token].email, email);
    }
  }

  /**
   An invitation can be accepted and is yet no longer pending at one instant only, that of its
   expiry. Then a new invitation of the same address is not refused on its account, and the old one
   can still be accepted, which makes the new one useless.
   */
  lemma AcceptableYetNotPendingIff(i: Invitation, token: Token, now: int)
    ensures Acceptable(map[token := i], token, now) && !Pending(i, now) <==> i.acceptedAt.None? && i.expiresAt == now
  {
  }

  ghost predicate OnlyInvitation(s: State, token: Token)
    requires token in s.invitations
  {
    forall other | other in s.invitations ::
      InvitedFor(s.invitations[other], s.invitations[token].email, s.invitations[token].tenant) ==> other == token
  }

  lemma TwoLiveInvitationsAtExpiry(s: State, token: Token, displayName: Option<string>, now: int)
    requires token in s.invitations && token < s.nextToken
    requires s.invitations[token].acceptedAt.None? && s.invitations[token].expiresAt == now
    requires !IsMember(s, s.invitations[token].email, s.invitations[token].tenant)
    requires (s.nextUser, s.invitations[token].tenant) !in s.members
    requires OnlyInvitation(s, token)
    ensures var i := s.invitations[token];
            var (again, renewed) := Invite(s, i.tenant, i.email, MEMBER, None, now);
            && renewed.Ok? && renewed.value != token && Acceptable(again.invitations, renewed.value, now)
            && var (joined, user) := Accept(again, token, false, displayName, now);
               user.Ok? && Accept(joined, renewed.value, false, displayName, now).1 == Err(AlreadyMember)
  {
  }

  /** At most one pending invitation for an email, whatever its case, and a tenant. */
  ghost predicate OnePending(s: State, now: int) {
    forall a, b | a in s.invitations && b in s.invitations ::
      Pending(s.invitations[a], now) && Pending(s.invitations[b], now)
        && InvitedFor(s.invitations[a], s.invitations[b].email, s.invitations[b].tenant)
      ==> a == b
  }

  ghost predicate TokensSpent(w: World) {
    && (forall token :: token in w.dir.invitations ==> token < w.dir.nextToken)
    && (forall i :: 0 <= i < |w.accepted| ==>
          w.accepted[i] < w.dir.nextToken
          && (w.accepted[i] in w.dir.invitations ==> w.dir.invitations[w.accepted[i]].acceptedAt.Some?))
    && (forall i, j :: 0 <= i < j < |w.accepted| ==> w.accepted[i] != w.accepted[j])
  }

  lemma InvitedInvitations(w: World, tenant: Tenant, email: string, role: Role, actor: Actor)
    requires OnePending(w.dir, w.now) && TokensSpent(w)
    ensures OnePending(Invited(w, tenant, email, role, actor).dir, w.now)
            && TokensSpent(Invited(w, tenant, email, role, actor))
  {
  }

  lemma AcceptedInvitations(w: World, step: Step)
    requires OnePending(w.dir, w.now) && TokensSpent(w) && step.Accepts?
    ensures OnePending(Next(w, step).dir, w.now) && TokensSpent(Next(w, step))
  {
  }

  lemma NextInvitations(w: World, step: Step)
    requires OnePending(w.dir, w.now) && TokensSpent(w)
    ensures OnePending(Next(w, step).dir, Next(w, step).now) && TokensSpent(Next(w, step))
  {
    match step
    case CliInvite(tenant, email, role) => InvitedInvitations(w, tenant, email, role, Cli);
    case MemberInvites(actor, tenant, email, role) =>
      if MayManage(w.dir, actor, tenant) {
        InvitedInvitations(w, tenant, email, role, Member(actor, w.dir.members[(actor, tenant)]));
      }
    case Accepts(_, _, _) => AcceptedInvitations(w, step);
    case _ =>
  }

  /** Over every run: one pending invitation per address and tenant, and no token accepted twice. */
  lemma {:induction false} InvitationRules(w: World, steps: seq<Step>)
    requires OnePending(w.dir, w.now) && TokensSpent(w)
    ensures OnePending(Run(w, steps).dir, Run(w, steps).now) && TokensSpent(Run(w, steps))
    decreases steps
  {
    if steps != [] {
      NextInvitations(w, steps[0]);
      InvitationRules(Next(w, steps[0]), steps[1..]);
    }
  }

  /** Both can be accepted, and are for one address, whatever its case, and one tenant. */
  predicate Rivals(dir: State, a: Token, b: Token, now: int) {
    && a != b && Acceptable(dir.invitations, a, now) && Acceptable(dir.invitations, b, now)
    && InvitedFor(dir.invitations[a], dir.invitations[b].email, dir.invitations[b].tenant)
  }

  /** In every run, two invitations of one address and tenant can both be accepted only while one of them expires. */
  lemma RivalsOnlyAtExpiry(now: int, steps: seq<Step>, a: Token, b: Token)
    ensures var w := Run(Start(now), steps);
            Rivals(w.dir, a, b, w.now) ==>
              w.dir.invitations[a].expiresAt == w.now || w.dir.invitations[b].expiresAt == w.now
  {
    InvitationRules(Start(now), steps);
  }
}
