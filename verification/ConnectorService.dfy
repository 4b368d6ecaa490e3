/**
 A connector connection and what changes its tokens: a consent, a refresh under the connection's
 lock, a revocation, the periodic refresh of expiring tokens. Instants are milliseconds.
 */
module ConnectorService {
  import opened Wrappers
  import opened Throttle

  datatype Provider = Google | Microsoft
  datatype Kind = TenantKind | UserKind
  datatype Status = ACTIVE | NEEDS_RECONSENT | REVOKED | ERROR

  const EXPIRY_SKEW := 60_000
  const REFRESH_LEAD := 600_000

  /** The stored values; `None` is the empty byte string left by a revocation. */
  datatype Conn = Conn(provider: Provider, kind: Kind, account: string, scopes: set<string>,
                       access: Option<string>, refresh: Option<string>, expiresAt: int,
                       status: Status, lastError: Option<string>, checkedAt: Option<int>)

  datatype TokenBundle = TokenBundle(access: string, lifetime: int, refresh: Option<string>, scopes: set<string>)

  /** Exceptions of the grant call that the retry envelope lets through. */
  datatype GrantError = InvalidGrant | NetworkError | ConnectorError

  type Grant = Result<TokenBundle, CallError<GrantError>>

  datatype RefreshError = Recoverable | Fatal | Undecryptable | LockBusy | ReloadFailed

  // --- Specification ---

  /** New tokens in place; a refresh token is replaced only by a non-empty one. */
  function WithBundle(c: Conn, bundle: TokenBundle, now: int): Conn {
    c.(access := Some(bundle.access),
       refresh := if bundle.refresh.Some? && bundle.refresh.value != "" then bundle.refresh else c.refresh,
       expiresAt := now + bundle.lifetime,
       status := ACTIVE, lastError := None, checkedAt := Some(now))
  }

  predicate Expiring(c: Conn, lead: int, now: int) {
    c.expiresAt <= now + lead
  }

  /** What the outcome of the grant call does to the connection, and what the caller gets. */
  function AfterGrant(c: Conn, grant: Grant, now: int): (Conn, Result<bool, RefreshError>) {
    if c.refresh.None? then (c, Err(Undecryptable))
    else
      match grant
      case Ok(bundle) => (WithBundle(c, bundle, now), Ok(true))
      case Err(Other(InvalidGrant)) =>
        (c.(status := NEEDS_RECONSENT, lastError := Some("invalid_grant"), checkedAt := Some(now)), Ok(false))
      case Err(Other(ConnectorError)) => (c, Err(Fatal))
      case Err(_) => (c.(lastError := Some("refresh failed"), checkedAt := Some(now)), Err(Recoverable))
  }

  /** The provider declares the refresh token dead. */
  predicate IsDead(grant: Grant) {
    grant.Err? && grant.error == Other(InvalidGrant)
  }

  /** The provider's answer is not a bundle of tokens. */
  predicate IsUnusable(grant: Grant) {
    grant.Err? && grant.error == Other(ConnectorError)
  }

  /**
   A refresh of an ACTIVE connection asks for a new consent exactly when the provider declared the old
   one dead; whatever else happens leaves it ACTIVE. Only a granted bundle changes a token.
   */
  lemma GrantDecides(c: Conn, grant: Grant, now: int)
    requires c.status == ACTIVE && c.refresh.Some?
    ensures var (c', result) := AfterGrant(c, grant, now);
            && (c'.status == NEEDS_RECONSENT <==> IsDead(grant))
            && c'.status in {ACTIVE, NEEDS_RECONSENT}
            && (grant.Ok? <==> result == Ok(true)) && (c'.status == NEEDS_RECONSENT <==> result == Ok(false))
            && (result == Err(Fatal) <==> IsUnusable(grant))
            && (result.Err? ==> result.error in {Fatal, Recoverable})
            && (result == Err(Fatal) ==> c' == c)
            && (result != Err(Fatal) ==> c'.checkedAt == Some(now) && (c'.lastError.None? <==> grant.Ok?))
            && (c'.provider, c'.kind, c'.account, c'.scopes) == (c.provider, c.kind, c.account, c.scopes)
            && (grant.Err? ==> c'.access == c.access && c'.refresh == c.refresh && c'.expiresAt == c.expiresAt)
            && (grant.Ok? ==>
                  && c'.access == Some(grant.value.access) && c'.expiresAt - now == grant.value.lifetime
                  && c'.refresh == if grant.value.refresh in {None, Some("")} then c.refresh else grant.value.refresh)
  {
  }

  function Wiped(c: Conn, now: int): Conn {
    c.(access := None, refresh := None, status := REVOKED, lastError := None, checkedAt := Some(now))
  }

  // --- The mapped object ---

  class Connection {
    const provider: Provider
    const kind: Kind
    var account: string
    var scopes: set<string>
    var access: Option<string>
    var refresh: Option<string>
    var expiresAt: int
    var status: Status
    var lastError: Option<string>
    var checkedAt: Option<int>

    constructor (c: Conn)
      ensures View() == c
    {
      provider, kind, account, scopes := c.provider, c.kind, c.account, c.scopes;
      access, refresh, expiresAt := c.access, c.refresh, c.expiresAt;
      status, lastError, checkedAt := c.status, c.lastError, c.checkedAt;
    }

    function View(): Conn
      reads this
    {
      Conn(provider, kind, account, scopes, access, refresh, expiresAt, status, lastError, checkedAt)
    }

    method ApplyTokenBundle(bundle: TokenBundle, now: int)
      modifies this
      ensures View() == WithBundle(old(View()), bundle, now)
    {
      access := Some(bundle.access);
      if bundle.refresh.Some? && bundle.refresh.value != "" {
        refresh := bundle.refresh;
      }
      expiresAt := now + bundle.lifetime;
      status := ACTIVE;
      lastError := None;
      checkedAt := Some(now);
    }

    /** The part of a refresh that follows the acquisition of the lock. */
    method ApplyGrant(grant: Grant, now: int) returns (result: Result<bool, RefreshError>)
      modifies this
      ensures (View(), result) == AfterGrant(old(View()), grant, now)
    {
      if refresh.None? {
        return Err(Undecryptable);
      }
      match grant
      case Ok(bundle) =>
        ApplyTokenBundle(bundle, now);
        return Ok(true);
      case Err(Other(InvalidGrant)) =>
        status := NEEDS_RECONSENT;
        lastError := Some("invalid_grant");
        checkedAt := Some(now);
        return Ok(false);
      case Err(Other(ConnectorError)) =>
        return Err(Fatal);
      case Err(_) =>
        lastError := Some("refresh failed");
        checkedAt := Some(now);
        return Err(Recoverable);
    }

    /** The remote revocation is best effort and changes nothing here; the local wipe always happens. */
    method Revoke(now: int)
      modifies this
      ensures View() == Wiped(old(View()), now)
    {
      access := None;
      refresh := None;
      status := REVOKED;
      lastError := None;
      checkedAt := Some(now);
    }

    /** Reload the row from the database, as another transaction may have committed it. */
    method Reload(stored: Conn)
      requires stored.provider == provider && stored.kind == kind
      modifies this
      ensures View() == stored
    {
      account, scopes := stored.account, stored.scopes;
      access, refresh, expiresAt := stored.access, stored.refresh, stored.expiresAt;
      status, lastError, checkedAt := stored.status, stored.lastError, stored.checkedAt;
    }
  }

  /** What the world answers during one refresh. */
  datatype World = World(
    waiting: seq<map<string, Entry>>,        // the locks after each pause of the blocking wait
    reloaded: Option<Conn>,                  // the row read once the lock is got; None if reading fails
    attempts: seq<Attempt<TokenBundle, GrantError>>, budget: seq<nat>, jitter: seq<nat>,
    callTime: nat, meanwhile: map<string, Entry>,   // how long the calls take, and the locks after them
    gap: nat, between: map<string, Entry>)          // the same between the two commands of the release

  ghost predicate ValidWorld(w: World, c: Conn) {
    && |w.waiting| == LOCK_ATTEMPTS
    && |w.attempts| == |w.budget| == |w.jitter| == MAX_ATTEMPTS
    // the token endpoint's refusals carry no Retry-After
    && (forall i :: 0 <= i < |w.attempts| && w.attempts[i].Refused? ==> w.attempts[i].retryAfter.None?)
    && (w.reloaded.Some? ==> w.reloaded.value.provider == c.provider && w.reloaded.value.kind == c.kind)
  }

  predicate Unused(token: Token, locks: map<string, Entry>) {
    forall name :: name in locks ==> locks[name].token != token
  }

  /** The outcome of the retry envelope when it makes `made` attempts. */
  predicate IsGrant(w: World, made: nat, grant: Grant) {
    && 1 <= made <= |w.attempts|
    && (forall i :: 0 <= i < made - 1 ==> Retryable(w.attempts[i]))
    && if Retryable(w.attempts[made - 1]) then made == MAX_ATTEMPTS && grant == Err(Unavailable)
       else grant == Decided(w.attempts[made - 1])
  }

  /** Another worker's lock is left alone at GET; the DELETE that follows our own removes whoever's it is by then. */
  predicate Released(w: World, name: string, token: Token, locks: map<string, Entry>) {
    || locks == w.meanwhile
    || (name in w.meanwhile && w.meanwhile[name].token == token && locks == w.between - {name})
  }

  /**
   Refreshes under the connection's lock. Without `block` a busy lock means doing nothing; with it
   the lock is waited for, the row is reloaded, and a token that is no longer expiring is kept.
   However the grant call ends, and when a wiped token leaves nothing to grant with, the lock is not
   ours afterwards. Only a failing reload, which happens before the protected region, leaves it set.
   */
  method RefreshConnection(store: LockStore, c: Connection, name: string, token: Token, block: bool, w: World)
    returns (result: Result<bool, RefreshError>, ghost base: Conn, ghost grant: Grant, ghost made: nat)
    requires ValidWorld(w, c.View())
    requires Unused(token, store.locks) && forall i :: 0 <= i < |w.waiting| ==> Unused(token, w.waiting[i])
    modifies store, c
    ensures store.HeldBy(name, token) <==> result == Err(ReloadFailed)
    ensures !block && old(store.Held(name)) ==>
              result == Ok(false) && c.View() == old(c.View()) && store.locks == old(store.locks)
    ensures result == Err(LockBusy) ==> block && old(store.Held(name)) && c.View() == old(c.View())
    ensures result == Err(ReloadFailed) ==> block && w.reloaded.None? && c.View() == old(c.View())
    ensures base == if block && w.reloaded.Some? then w.reloaded.value else old(c.View())
    ensures result !in {Err(LockBusy), Err(ReloadFailed)} && (block || !old(store.Held(name))) ==>
              || (block && c.View() == base && result == Ok(false) && base.expiresAt > store.now - w.gap + EXPIRY_SKEW
                  && store.locks == w.between - {name})
              || (base.refresh.None? && made == 0 && c.View() == base && result == Err(Undecryptable)
                  && store.locks == w.between - {name})
              || (base.refresh.Some? && (c.View(), result) == AfterGrant(base, grant, store.now)
                  && IsGrant(w, made, grant) && Released(w, name, token, store.locks))
  {
    base := if block && w.reloaded.Some? then w.reloaded.value else c.View();
    grant, made := Err(Unavailable), 0;
    if block {
      var acquired, tries := store.WaitForLock(name, token, w.waiting);
      if !acquired {
        return Err(LockBusy), base, grant, made;
      }
      if w.reloaded.None? {
        return Err(ReloadFailed), base, grant, made;
      }
      c.Reload(w.reloaded.value);
      if !Expiring(c.View(), EXPIRY_SKEW, store.now) {
        store.ReleaseLock(name, token, w.gap, w.between);
        return Ok(false), base, grant, made;
      }
    } else {
      var acquired := store.AcquireLock(name, token);
      if !acquired {
        return Ok(false), base, grant, made;
      }
    }
    if c.refresh.None? {
      store.ReleaseLock(name, token, w.gap, w.between);
      return Err(Undecryptable), base, grant, made;
    }
    var outcome, count, slept := RunWithBackoff(w.attempts, w.budget, w.jitter);
    grant, made := outcome, count;
    store.Sleep(slept + w.callTime, w.meanwhile);
    store.ReleaseLock(name, token, w.gap, w.between);
    result := c.ApplyGrant(outcome, store.now);
  }
}
