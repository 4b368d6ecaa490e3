/**
 The consent callback and the revocation, in place: two commits each, the tenant's rows first and
 the control plane's webhook route after. They are the lifecycle's steps of the same names.
 */
module ConnectorOAuth {
  import opened Wrappers
  import opened ConnectorService
  import opened ConnectorLifecycle

  datatype CallbackError = MissingRefreshToken

  class OAuthService {
    const now: int
    var conns: map<nat, Conn>
    var routes: set<nat>
    var subs: seq<Subscription>

    constructor (s: State)
      ensures View() == s
    {
      now, conns, routes, subs := s.now, s.conns, s.routes, s.subs;
    }

    ghost function View(): State
      reads this
    {
      State(now, conns, routes, subs)
    }

    /** A request that fails is rolled back, so its row is put in place only at the end. */
    method UpsertConnection(consent: Step) returns (r: Result<nat, CallbackError>)
      requires consent.Callback? && Possible(View(), consent) && consent.id !in conns
      modifies this`conns
      ensures var row := Upserted(old(View()), consent);
              if row.None? then r == Err(MissingRefreshToken) && conns == old(conns)
              else r.Ok? && conns == old(conns)[r.value := row.value]
                   && Written(old(View()), consent) == Some(r.value)
      ensures r.Err? <==> (consent.bundle.refresh.None? || consent.bundle.refresh.value == "")
                          && (Target(old(View()), consent).None?
                              || old(conns)[Target(old(View()), consent).value].refresh.None?)
    {
      var found: Option<nat> := None;
      if consent.reconsent.Some? && consent.reconsent.value in conns {
        found := consent.reconsent;
      }
      if found.None? {
        found := consent.found;
      }
      var connection: Connection;
      if found.None? {
        if consent.bundle.refresh.None? {
          return Err(MissingRefreshToken);
        }
        connection := new Connection(
          Conn(consent.provider, consent.kind, consent.account, consent.granted, None, None, now, ACTIVE, None, None));
      } else {
        connection := new Connection(conns[found.value]);
        connection.account := consent.account;
        connection.scopes := connection.scopes + consent.granted;
      }
      connection.ApplyTokenBundle(consent.bundle, now);
      if connection.refresh.None? {
        return Err(MissingRefreshToken);
      }
      var id := if found.Some? then found.value else consent.id;
      conns := conns[id := connection.View()];
      return Ok(id);
    }

    method EnsureWebhookRoute(conn: nat)
      modifies this`routes
      ensures routes == old(routes) + {conn}
    {
      if conn !in routes {
        routes := routes + {conn};
      }
    }

    /** `crash` is the process dying between the two commits. */
    method Consented(consent: Step) returns (r: Result<nat, CallbackError>)
      requires consent.Callback? && Possible(View(), consent) && consent.id !in conns
      modifies this
      ensures View() == Next(old(View()), consent)
      ensures r.Ok? ==> r.value in conns && conns[r.value].status == ACTIVE && conns[r.value].refresh.Some?
      ensures r.Ok? && !consent.crash ==> r.value in routes
    {
      r := UpsertConnection(consent);
      if r.Err? || consent.crash {
        return;
      }
      EnsureWebhookRoute(r.value);
    }

    /** False when there is no such connection. A connection already revoked is answered without touching anything. */
    method RevokeConnection(conn: nat, crash: bool) returns (found: bool)
      modifies this
      ensures View() == Next(old(View()), Revoke(conn, crash))
      ensures found <==> conn in old(conns)
      ensures found ==> conns[conn].status == REVOKED
      ensures found && old(conns)[conn].status != REVOKED ==>
                conns[conn].access.None? && conns[conn].refresh.None? && Subscribed(subs, conn) == {}
    {
      if conn !in conns {
        return false;
      }
      if conns[conn].status == REVOKED {
        return true;
      }
      var connection := new Connection(conns[conn]);
      connection.Revoke(now);
      conns := conns[conn := connection.View()];
      subs := Without(subs, conn);
      WithoutMembers(old(subs), conn);
      found := true;
      if crash {
        return;
      }
      routes := routes - {conn};
    }
  }
}
