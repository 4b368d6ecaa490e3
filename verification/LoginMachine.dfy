/**
 Password login with an optional second factor: single-use challenges, one-time TOTP codes
 (section 5.2 of RFC 6238) and recovery codes. Instants are seconds; the one-time password of a
 secret at a counter is a parameter.
 */
module LoginMachine {
  import opened Wrappers
  import opened LoginChallenges

  type Secret = nat
  type Code = nat       // what the user types

  const INTERVAL := 30
  const RECOVERY_CODE_COUNT := 8

  type Otp = (Secret, int) -> Code

  /** `enrolment` is history: how many secrets have been provisioned. */
  datatype Credentials = Credentials(password: Option<string>, secret: Option<Secret>, enabled: bool,
                                     lastCounter: Option<int>, enrolment: nat)

  datatype Recovery = Recovery(user: UserId, usedAt: Option<int>)

  datatype State = State(creds: map<UserId, Credentials>, challenges: map<Token, Challenge>,
                         codes: map<Code, Recovery>, nextToken: Token)

  datatype AuthError = NoSecret | NoEnrolment | AlreadyEnabled | InvalidCode | NotEnabled | InvalidPassword

  datatype TotpVerdict = Match(counter: int) | NoMatch

  datatype Factor = ByTotp(counter: int) | ByRecovery(code: Code) | Refused

  // --- One-time passwords ---

  /** The counter the code is accepted for: the first match in the order now, before, after, unless already used. */
  function TotpCheck(otp: Otp, secret: Secret, last: Option<int>, code: Code, now: int): TotpVerdict {
    var t := now / INTERVAL;
    var matched :=
      if otp(secret, t) == code then Some(t)
      else if otp(secret, t - 1) == code then Some(t - 1)
      else if otp(secret, t + 1) == code then Some(t + 1)
      else None;
    if matched.None? || (last.Some? && matched.value <= last.value) then NoMatch else Match(matched.value)
  }

  /** The second factor of a user: a TOTP code, else an unused recovery code. */
  function SecondFactor(otp: Otp, s: State, user: UserId, code: Code, now: int): Factor {
    if user !in s.creds || !s.creds[user].enabled || s.creds[user].secret.None? then Refused
    else
      match TotpCheck(otp, s.creds[user].secret.value, s.creds[user].lastCounter, code, now)
      case Match(counter) => ByTotp(counter)
      case NoMatch =>
        if code in s.codes && s.codes[code].user == user && s.codes[code].usedAt.None? then ByRecovery(code)
        else Refused
  }

  function AfterFactor(s: State, user: UserId, factor: Factor, now: int): State
    requires factor.ByTotp? ==> user in s.creds
    requires factor.ByRecovery? ==> factor.code in s.codes
  {
    match factor
    case ByTotp(counter) => s.(creds := s.creds[user := s.creds[user].(lastCounter := Some(counter))])
    case ByRecovery(code) => s.(codes := s.codes[code := s.codes[code].(usedAt := Some(now))])
    case Refused => s
  }

  /** The source gives up on a user whose TOTP is on without a stored secret. */
  predicate SecretMissing(s: State, user: UserId) {
    user in s.creds && s.creds[user].enabled && s.creds[user].secret.None?
  }

  function WithChallenge(s: State, user: UserId, now: int): State {
    s.(challenges := s.challenges[s.nextToken := FreshChallenge(user, now)], nextToken := s.nextToken + 1)
  }

  function FreshCodes(user: UserId, first: Token, n: nat): (codes: map<Code, Recovery>)
    ensures forall code :: code in codes <==> first <= code < first + n
    ensures forall code :: code in codes ==> codes[code] == Recovery(user, None)
  {
    if n == 0 then map[] else FreshCodes(user, first, n - 1)[first + n - 1 := Recovery(user, None)]
  }

  // --- The service, in place ---

  class AuthService {
    const otp: Otp
    var creds: map<UserId, Credentials>
    var challenges: map<Token, Challenge>
    var codes: map<Code, Recovery>
    var nextToken: Token

    constructor (otp: Otp, creds: map<UserId, Credentials>)
      ensures this.otp == otp && View() == State(creds, map[], map[], 0)
    {
      this.otp, this.creds := otp, creds;
      challenges, codes, nextToken := map[], map[], 0;
    }

    ghost function View(): State
      reads this
    {
      State(creds, challenges, codes, nextToken)
    }

    /** Tries the three counters in turn; a used one ends the search. */
    method VerifyTotpCode(user: UserId, code: Code, now: int) returns (r: Result<bool, AuthError>)
      requires user in creds
      modifies this`creds
      ensures if old(creds)[user].secret.None? then r == Err(NoSecret) && creds == old(creds)
              else
                var verdict := TotpCheck(otp, old(creds)[user].secret.value, old(creds)[user].lastCounter, code, now);
                && r == Ok(verdict.Match?)
                && creds == if verdict.Match? then
                              old(creds)[user := old(creds)[user].(lastCounter := Some(verdict.counter))]
                            else old(creds)
    {
      if creds[user].secret.None? {
        return Err(NoSecret);
      }
      var secret := creds[user].secret.value;
      var offsets := [0, -1, 1];
      for i := 0 to 3
        invariant creds == old(creds)
        invariant forall k :: 0 <= k < i ==> otp(secret, now / INTERVAL + offsets[k]) != code
      {
        var counter := now / INTERVAL + offsets[i];
        assert i > 0 ==> otp(secret, now / INTERVAL + offsets[0]) != code;
        assert i > 1 ==> otp(secret, now / INTERVAL + offsets[1]) != code;
        if otp(secret, counter) == code {
          if creds[user].lastCounter.Some? && counter <= creds[user].lastCounter.value {
            return Ok(false);
          }
          creds := creds[user := creds[user].(lastCounter := Some(counter))];
          return Ok(true);
        }
      }
      assert otp(secret, now / INTERVAL + offsets[0]) != code;
      assert otp(secret, now / INTERVAL + offsets[1]) != code;
      assert otp(secret, now / INTERVAL + offsets[2]) != code;
      return Ok(false);
    }

    method VerifySecondFactor(user: UserId, code: Code, now: int) returns (r: Result<bool, AuthError>)
      modifies this
      ensures var factor := SecondFactor(otp, old(View()), user, code, now);
              && View() == AfterFactor(old(View()), user, factor, now)
              && r == if SecretMissing(old(View()), user) then Err(NoSecret) else Ok(!factor.Refused?)
    {
      if user !in creds || !creds[user].enabled {
        return Ok(false);
      }
      r := VerifyTotpCode(user, code, now);
      if r.Err? || r.value {
        return r;
      }
      if code in codes && codes[code].user == user && codes[code].usedAt.None? {
        codes := codes[code := codes[code].(usedAt := Some(now))];
        return Ok(true);
      }
      return Ok(false);
    }

    /**
     The second step of the login: a consumed challenge stays consumed, whatever the code; an error
     is rolled back.
     */
    method LoginTotp(token: Token, code: Code, now: int) returns (r: Result<Option<UserId>, AuthError>)
      modifies this
      ensures View() == Next(otp, World(now, old(View()), []), TotpLogin(token, code)).state
      ensures r.Ok? && r.value.Some? <==>
                exists entry :: entry in Next(otp, World(now, old(View()), []), TotpLogin(token, code)).log
                  && entry.SessionOpened?
      ensures r.Ok? && r.value.Some? ==>
                Consumable(old(challenges), token, now) && r.value.value == old(challenges)[token].user
      ensures r.Err?
              <==> Consumable(old(challenges), token, now) && SecretMissing(old(View()), old(challenges)[token].user)
    {
      var before := challenges;
      var claimed, left := ConsumeLoginChallenge(challenges, token, now);
      challenges := left;
      if claimed.None? {
        return Ok(None);
      }
      var verified := VerifySecondFactor(claimed.value, code, now);
      ghost var log := Next(otp, World(now, old(View()), []), TotpLogin(token, code)).log;
      if verified.Err? {
        challenges := before;
        return Err(verified.error);
      }
      if !verified.value {
        return Ok(None);
      }
      assert log[2] in log;
      return Ok(claimed);
    }

    /** The first step: a session at once (true), a challenge for the second step (false), or nothing. */
    method Login(user: UserId, password: string, now: int) returns (status: Option<bool>)
      modifies this
      ensures View() == Next(otp, World(now, old(View()), []), PasswordLogin(user, password)).state
      ensures status == if user !in old(creds) || old(creds)[user].password != Some(password) then None
                        else Some(!old(creds)[user].enabled)
    {
      if user !in creds || creds[user].password != Some(password) {
        return None;
      }
      if creds[user].enabled {
        challenges := challenges[nextToken := FreshChallenge(user, now)];
        nextToken := nextToken + 1;
        return Some(false);
      }
      return Some(true);
    }

    method ProvisionTotp(user: UserId, secret: Secret, now: int) returns (r: Result<Secret, AuthError>)
      modifies this`creds
      ensures View() == Next(otp, World(now, old(View()), []), SetupTotp(user, secret)).state
      ensures r == if user in old(creds) && old(creds)[user].enabled then Err(AlreadyEnabled) else Ok(secret)
    {
      if user !in creds {
        creds := creds[user := Credentials(None, None, false, None, 0)];
      }
      if creds[user].enabled {
        return Err(AlreadyEnabled);
      }
      creds := creds[user :=
                     creds[user].(secret := Some(secret), lastCounter := None, enrolment := creds[user].enrolment + 1)];
      return Ok(secret);
    }

    /** On success the recovery codes are returned, in the clear, for the only time. */
    method Activate(user: UserId, code: Code, now: int) returns (r: Result<set<Code>, AuthError>)
      modifies this
      ensures View() == Next(otp, World(now, old(View()), []), ActivateTotp(user, code)).state
      ensures r.Ok? ==> user in creds && creds[user].enabled
      ensures r.Ok? ==> forall c :: c in r.value <==> old(nextToken) <= c < old(nextToken) + RECOVERY_CODE_COUNT
      ensures r.Ok? ==> forall c :: c in r.value ==> c in codes && codes[c] == Recovery(user, None)
      ensures r.Err? ==> View() == old(View())
      ensures r == Err(NoEnrolment) <==> user !in old(creds) || old(creds)[user].secret.None?
      ensures r == Err(AlreadyEnabled) <==>
                user in old(creds) && old(creds)[user].secret.Some? && old(creds)[user].enabled
      ensures r.Err? ==> r.error in {NoEnrolment, AlreadyEnabled, InvalidCode}
    {
      if user !in creds || creds[user].secret.None? {
        return Err(NoEnrolment);
      }
      if creds[user].enabled {
        return Err(AlreadyEnabled);
      }
      var verified := VerifyTotpCode(user, code, now);
      if !verified.value {
        return Err(InvalidCode);
      }
      creds := creds[user := creds[user].(enabled := true)];
      var issued := FreshCodes(user, nextToken, RECOVERY_CODE_COUNT);
      codes := codes + issued;
      nextToken := nextToken + RECOVERY_CODE_COUNT;
      return Ok(issued.Keys);
    }

    /** Deletes the user's recovery codes one by one. */
    method Disable(user: UserId, password: string, now: int) returns (r: Result<(), AuthError>)
      modifies this
      ensures View() == Next(otp, World(now, old(View()), []), DisableTotp(user, password)).state
      ensures r == if user !in old(creds) || !old(creds)[user].enabled then Err(NotEnabled)
                   else if old(creds)[user].password != Some(password) then Err(InvalidPassword) else Ok(())
    {
      if user !in creds || !creds[user].enabled {
        return Err(NotEnabled);
      }
      if creds[user].password != Some(password) {
        return Err(InvalidPassword);
      }
      creds := creds[user := creds[user].(enabled := false, secret := None, lastCounter := None)];
      var existing := set c | c in codes && codes[c].user == user;
      while existing != {}
        invariant codes.Keys <= old(codes).Keys && forall c :: c in codes ==> codes[c] == old(codes)[c]
        invariant forall c :: c in existing ==> c in codes && codes[c].user == user
        invariant forall c :: c in old(codes) && c !in codes ==> old(codes)[c].user == user
        invariant forall c :: c in codes && codes[c].user == user ==> c in existing
        invariant creds == old(creds)[user := old(creds)[user].(enabled := false, secret := None, lastCounter := None)]
        invariant challenges == old(challenges) && nextToken == old(nextToken)
        decreases existing
      {
        var c :| c in existing;
        codes := codes - {c};
        existing := existing - {c};
      }
      return Ok(());
    }
  }

  // --- Runs ---

  datatype Entry =
    | PasswordChecked(user: UserId, totp: bool)
    | ChallengeIssued(token: Token, user: UserId)
    | ChallengeConsumed(token: Token, user: UserId)
    | TotpProvisioned(user: UserId, enrolment: nat, secret: Secret)
    | TotpAccepted(user: UserId, enrolment: nat, secret: Secret, code: Code, counter: int, at: int)
    | CodesIssued(user: UserId, enrolment: nat, codes: set<Code>)
    | CodeUsed(user: UserId, enrolment: nat, code: Code)
    | SessionOpened(user: UserId, challenge: Option<Token>)

  /** The clock, the state, and as history what happened so far. */
  datatype World = World(now: int, state: State, log: seq<Entry>)

  datatype Step =
    | PasswordLogin(user: UserId, password: string)
    | TotpLogin(token: Token, code: Code)
    | SetupTotp(user: UserId, secret: Secret)
    | ActivateTotp(user: UserId, code: Code)
    | DisableTotp(user: UserId, password: string)
    | Pass(seconds: nat)

  /** The account a user has, or the one that provisioning a secret creates. */
  function Account(s: State, user: UserId): Credentials {
    if user in s.creds then s.creds[user] else Credentials(None, None, false, None, 0)
  }

  /** A new secret comes with a new enrolment. */
  function Provisioned(s: State, user: UserId, secret: Secret): State {
    var c := Account(s, user);
    s.(creds := s.creds[user := c.(secret := Some(secret), lastCounter := None, enrolment := c.enrolment + 1)])
  }

  function TotpEntry(c: Credentials, user: UserId, code: Code, counter: int, now: int): Entry
    requires c.secret.Some?
  {
    TotpAccepted(user, c.enrolment, c.secret.value, code, counter, now)
  }

  function FactorEntry(s: State, user: UserId, factor: Factor, code: Code, now: int): Entry
    requires !factor.Refused? && user in s.creds && s.creds[user].secret.Some?
  {
    match factor
    case ByTotp(counter) => TotpEntry(s.creds[user], user, code, counter, now)
    case ByRecovery(used) => CodeUsed(user, s.creds[user].enrolment, used)
  }

  function Activated(s: State, user: UserId, counter: int): State
    requires user in s.creds
  {
    s.(creds := s.creds[user := s.creds[user].(lastCounter := Some(counter), enabled := true)])
  }

  function IssueEntry(s: State, user: UserId): Entry
    requires user in s.creds
  {
    CodesIssued(user, s.creds[user].enrolment, FreshCodes(user, s.nextToken, RECOVERY_CODE_COUNT).Keys)
  }

  function WithCodes(s: State, user: UserId): State {
    s.(codes := s.codes + FreshCodes(user, s.nextToken, RECOVERY_CODE_COUNT),
       nextToken := s.nextToken + RECOVERY_CODE_COUNT)
  }

  function Next(otp: Otp, w: World, step: Step): World {
    var s := w.state;
    match step
    case PasswordLogin(user, password) =>
      if user !in s.creds || s.creds[user].password != Some(password) then w
      else if s.creds[user].enabled then
        World(w.now, WithChallenge(s, user, w.now),
              w.log + [PasswordChecked(user, true), ChallengeIssued(s.nextToken, user)])
      else w.(log := w.log + [PasswordChecked(user, false), SessionOpened(user, None)])
    case TotpLogin(token, code) =>
      if !Consumable(s.challenges, token, w.now) || SecretMissing(s, s.challenges[token].user) then w
      else
        var user := s.challenges[token].user;
        var s' := s.(challenges := ConsumedIn(s.challenges, token, w.now));
        var factor := SecondFactor(otp, s', user, code, w.now);
        World(w.now, AfterFactor(s', user, factor, w.now),
              w.log + [ChallengeConsumed(token, user)]
              + if factor.Refused? then []
                else [FactorEntry(s', user, factor, code, w.now), SessionOpened(user, Some(token))])
    case SetupTotp(user, secret) =>
      if user in s.creds && s.creds[user].enabled then w
      else
        w.(state := Provisioned(s, user, secret),
           log := w.log + [TotpProvisioned(user, Account(s, user).enrolment + 1, secret)])
    case ActivateTotp(user, code) =>
      if user !in s.creds || s.creds[user].secret.None? || s.creds[user].enabled then w
      else
        (match TotpCheck(otp, s.creds[user].secret.value, s.creds[user].lastCounter, code, w.now)
         case NoMatch => w
         case Match(counter) =>
           World(w.now, WithCodes(Activated(s, user, counter), user),
                 w.log + [TotpEntry(s.creds[user], user, code, counter, w.now), IssueEntry(s, user)]))
    case DisableTotp(user, password) =>
      if user !in s.creds || !s.creds[user].enabled || s.creds[user].password != Some(password) then w
      else
        w.(state := s.(creds := s.creds[user := s.creds[user].(enabled := false, secret := None, lastCounter := None)],
                       codes := map code | code in s.codes && s.codes[code].user != user :: s.codes[code]))
    case Pass(seconds) => w.(now := w.now + seconds)
  }

  function Run(otp: Otp, w: World, steps: seq<Step>): World
    decreases steps
  {
    if steps == [] then w else Run(otp, Next(otp, w, steps[0]), steps[1..])
  }

  /** Existing accounts, with or without a password, none enrolled yet. */
  ghost predicate Initial(w: World) {
    && w.log == [] && w.state.challenges == map[] && w.state.codes == map[]
    && forall u :: u in w.state.creds ==> !w.state.creds[u].enabled && w.state.creds[u].secret.None?
  }

  // --- What the log shows ---

  predicate IsFactor(e: Entry, user: UserId) {
    (e.TotpAccepted? || e.CodeUsed?) && e.user == user
  }

  /** A password check that found TOTP enabled, followed at once by the challenge. */
  ghost predicate Issued(log: seq<Entry>, token: Token, user: UserId) {
    exists i :: 0 <= i < |log| - 1 && log[i] == PasswordChecked(user, true)
      && log[i + 1] == ChallengeIssued(token, user)
  }

  predicate IssuesCode(e: Entry, user: UserId, enrolment: nat, code: Code) {
    e.CodesIssued? && e.user == user && e.enrolment == enrolment && code in e.codes
  }

  /** The code was given out to this user under this enrolment. */
  ghost predicate WasIssued(log: seq<Entry>, user: UserId, enrolment: nat, code: Code) {
    exists e :: e in log && IssuesCode(e, user, enrolment, code)
  }

  /** `later` uses, or gives out, again something `earlier` had used up or given out. */
  predicate Repeats(earlier: Entry, later: Entry) {
    || (earlier.ChallengeConsumed? && later.ChallengeConsumed? && earlier.token == later.token)
    || (earlier.CodeUsed? && later.CodeUsed? && earlier.code == later.code)
    || (earlier.TotpAccepted? && later.TotpAccepted? && earlier.user == later.user
        && earlier.enrolment == later.enrolment && later.counter <= earlier.counter)
    || (earlier.CodesIssued? && later.CodesIssued? && !(earlier.codes !! later.codes))
    || (earlier.TotpProvisioned? && later.TotpProvisioned? && earlier.user == later.user
        && earlier.enrolment == later.enrolment)
  }

  ghost predicate NoRepeat(log: seq<Entry>, e: Entry) {
    forall d :: d in log ==> !Repeats(d, e)
  }

  predicate Activates(e: Entry, user: UserId, enrolment: nat) {
    e.TotpAccepted? && e.user == user && e.enrolment == enrolment
  }

  /** What must come right before the entry, or somewhere before it. */
  ghost predicate Grounded(log: seq<Entry>, e: Entry) {
    match e
    case SessionOpened(user, None) => log != [] && log[|log| - 1] == PasswordChecked(user, false)
    case SessionOpened(user, Some(token)) =>
      |log| >= 2 && log[|log| - 2] == ChallengeConsumed(token, user) && IsFactor(log[|log| - 1], user)
    case ChallengeConsumed(token, user) => Issued(log, token, user)
    case TotpAccepted(user, enrolment, secret, _, counter, at) =>
      -1 <= counter - at / INTERVAL <= 1 && TotpProvisioned(user, enrolment, secret) in log
    case CodesIssued(user, enrolment, codes) =>
      |codes| == RECOVERY_CODE_COUNT && log != [] && Activates(log[|log| - 1], user, enrolment)
    case CodeUsed(user, enrolment, code) => WasIssued(log, user, enrolment, code)
    case _ => true
  }

  ghost predicate AllAccounted(log: seq<Entry>) {
    log == [] ||
    (AllAccounted(log[..|log| - 1]) && NoRepeat(log[..|log| - 1], log[|log| - 1])
     && Grounded(log[..|log| - 1], log[|log| - 1]))
  }

  lemma Appended(log: seq<Entry>, e: Entry)
    requires AllAccounted(log) && NoRepeat(log, e) && Grounded(log, e)
    ensures AllAccounted(log + [e])
  {
    assert (log + [e])[..|log|] == log;
  }

  lemma {:induction false} AccountedAt(log: seq<Entry>, k: nat)
    requires AllAccounted(log) && k < |log|
    ensures NoRepeat(log[..k], log[k]) && Grounded(log[..k], log[k])
    decreases |log|
  {
    if k < |log| - 1 {
      AccountedAt(log[..|log| - 1], k);
      assert log[..|log| - 1][..k] == log[..k];
    }
  }

  lemma NoRepeatBetween(log: seq<Entry>, j: nat, k: nat)
    requires AllAccounted(log) && j < k < |log|
    ensures !Repeats(log[j], log[k])
  {
    AccountedAt(log, k);
    assert log[j] in log[..k];
  }

  lemma IssuedGrows(log: seq<Entry>, more: seq<Entry>, token: Token, user: UserId)
    requires Issued(log, token, user)
    ensures Issued(log + more, token, user)
  {
    var i :| 0 <= i < |log| - 1 && log[i] == PasswordChecked(user, true) && log[i + 1] == ChallengeIssued(token, user);
    assert (log + more)[i] == log[i] && (log + more)[i + 1] == log[i + 1];
  }

  // --- How the stored rows remember the log ---

  ghost predicate SecretsStored(s: State) {
    forall u :: u in s.creds && s.creds[u].enabled ==> s.creds[u].secret.Some?
  }

  predicate CodesNumbered(s: State) {
    forall code :: code in s.codes ==> code < s.nextToken
  }

  ghost predicate ChallengesIssued(s: State, log: seq<Entry>) {
    forall t :: t in s.challenges ==> t < s.nextToken && Issued(log, t, s.challenges[t].user)
  }

  /** The rows still show that this entry happened. */
  ghost predicate Remembered(s: State, e: Entry) {
    match e
    case ChallengeConsumed(token, _) => token in s.challenges && s.challenges[token].consumedAt.Some?
    case CodeUsed(_, _, code) => code < s.nextToken && (code in s.codes ==> s.codes[code].usedAt.Some?)
    case CodesIssued(_, _, codes) => forall code :: code in codes ==> code < s.nextToken
    case TotpProvisioned(user, enrolment, _) => user in s.creds && enrolment <= s.creds[user].enrolment
    case TotpAccepted(user, enrolment, _, _, counter, _) =>
      && user in s.creds && enrolment <= s.creds[user].enrolment
      && (enrolment == s.creds[user].enrolment && s.creds[user].secret.Some? ==>
            s.creds[user].lastCounter.Some? && counter <= s.creds[user].lastCounter.value)
    case _ => true
  }

  ghost predicate AllRemembered(s: State, log: seq<Entry>) {
    forall e :: e in log ==> Remembered(s, e)
  }

  /** The rows still offer what this entry would use up. */
  ghost predicate Offered(s: State, e: Entry) {
    match e
    case ChallengeConsumed(token, _) => token in s.challenges && s.challenges[token].consumedAt.None?
    case CodeUsed(_, _, code) => code in s.codes && s.codes[code].usedAt.None?
    case CodesIssued(_, _, codes) => forall code :: code in codes ==> code >= s.nextToken
    case TotpProvisioned(user, enrolment, _) => Account(s, user).enrolment < enrolment
    case TotpAccepted(user, enrolment, _, _, counter, _) =>
      && user in s.creds && s.creds[user].secret.Some? && s.creds[user].enrolment == enrolment
      && (s.creds[user].lastCounter.Some? ==> s.creds[user].lastCounter.value < counter)
    case _ => true
  }

  /** What the rows still offer was never used. */
  lemma OfferedIsUnused(s: State, log: seq<Entry>, e: Entry)
    requires AllRemembered(s, log) && Offered(s, e)
    ensures NoRepeat(log, e)
  {
    forall d | d in log
      ensures !Repeats(d, e)
    {
      assert Remembered(s, d);
    }
  }

  /** A stored secret is the one provisioned under the current enrolment. */
  ghost predicate SecretsProvisioned(s: State, log: seq<Entry>) {
    forall u :: u in s.creds && s.creds[u].secret.Some? ==>
      TotpProvisioned(u, s.creds[u].enrolment, s.creds[u].secret.value) in log
  }

  /** A stored code was issued to its user under the current enrolment, which is active. */
  ghost predicate CodesOwned(s: State, log: seq<Entry>) {
    forall code :: code in s.codes ==> CodeOwned(s, log, code)
  }

  ghost predicate CodeOwned(s: State, log: seq<Entry>, code: Code)
    requires code in s.codes
  {
    var u := s.codes[code].user;
    u in s.creds && s.creds[u].enabled && WasIssued(log, u, s.creds[u].enrolment, code)
  }

  ghost predicate Owned(s: State, log: seq<Entry>) {
    SecretsStored(s) && CodesNumbered(s) && SecretsProvisioned(s, log) && CodesOwned(s, log)
  }

  lemma OwnedGrows(s: State, log: seq<Entry>, more: seq<Entry>)
    requires Owned(s, log)
    ensures Owned(s, log + more)
  {
    forall code | code in s.codes
      ensures CodeOwned(s, log + more, code)
    {
      var u := s.codes[code].user;
      assert CodeOwned(s, log, code);
      var e :| e in log && IssuesCode(e, u, s.creds[u].enrolment, code);
      assert e in log + more;
    }
  }

  ghost predicate Inductive(w: World) {
    && AllAccounted(w.log) && Owned(w.state, w.log)
    && ChallengesIssued(w.state, w.log) && AllRemembered(w.state, w.log)
  }

  /** An entry that uses up something offered by the rows, which remember it from then on. */
  lemma UseInductive(w: World, s': State, e: Entry)
    requires Inductive(w) && Owned(s', w.log + [e])
    requires Offered(w.state, e) && Grounded(w.log, e) && Remembered(s', e)
    requires forall d :: d in w.log && Remembered(w.state, d) ==> Remembered(s', d)
    requires forall t :: t in s'.challenges ==>
               t < s'.nextToken && t in w.state.challenges && s'.challenges[t].user == w.state.challenges[t].user
    ensures Inductive(World(w.now, s', w.log + [e]))
  {
    OfferedIsUnused(w.state, w.log, e);
    Appended(w.log, e);
    forall t | t in s'.challenges
      ensures Issued(w.log + [e], t, s'.challenges[t].user)
    {
      IssuedGrows(w.log, [e], t, s'.challenges[t].user);
    }
  }

  /** An entry that leaves the rows alone. */
  lemma NoteInductive(w: World, e: Entry)
    requires Inductive(w) && (e.PasswordChecked? || e.SessionOpened?) && Grounded(w.log, e)
    ensures Inductive(w.(log := w.log + [e]))
  {
    OwnedGrows(w.state, w.log, [e]);
    UseInductive(w, w.state, e);
  }

  /** Ownership looks at accounts and codes only. */
  lemma ChallengesDoNotOwn(s: State, s': State, log: seq<Entry>)
    requires Owned(s, log) && s'.creds == s.creds && s'.codes == s.codes && s.nextToken <= s'.nextToken
    ensures Owned(s', log)
  {
    forall code | code in s'.codes
      ensures CodeOwned(s', log, code)
    {
      assert CodeOwned(s, log, code);
    }
  }

  lemma IssueInductive(w: World, user: UserId)
    requires Inductive(w) && w.log != [] && w.log[|w.log| - 1] == PasswordChecked(user, true)
    ensures Inductive(World(w.now, WithChallenge(w.state, user, w.now),
                            w.log + [ChallengeIssued(w.state.nextToken, user)]))
  {
    var e := ChallengeIssued(w.state.nextToken, user);
    Appended(w.log, e);
    OwnedGrows(w.state, w.log, [e]);
    ChallengesDoNotOwn(w.state, WithChallenge(w.state, user, w.now), w.log + [e]);
    IssueTracked(w, user);
    IssueRemembers(w, user);
  }

  lemma IssueTracked(w: World, user: UserId)
    requires ChallengesIssued(w.state, w.log) && w.log != [] && w.log[|w.log| - 1] == PasswordChecked(user, true)
    ensures ChallengesIssued(WithChallenge(w.state, user, w.now), w.log + [ChallengeIssued(w.state.nextToken, user)])
  {
    var e := ChallengeIssued(w.state.nextToken, user);
    var challenges := WithChallenge(w.state, user, w.now).challenges;
    assert (w.log + [e])[|w.log| - 1] == PasswordChecked(user, true) && (w.log + [e])[|w.log|] == e;
    forall t | t in challenges
      ensures Issued(w.log + [e], t, challenges[t].user)
    {
      if t != w.state.nextToken {
        IssuedGrows(w.log, [e], t, challenges[t].user);
      }
    }
  }

  lemma IssueRemembers(w: World, user: UserId)
    requires ChallengesIssued(w.state, w.log) && AllRemembered(w.state, w.log)
    ensures AllRemembered(WithChallenge(w.state, user, w.now), w.log + [ChallengeIssued(w.state.nextToken, user)])
  {
    forall d | d in w.log
      ensures Remembered(WithChallenge(w.state, user, w.now), d)
    {
      assert Remembered(w.state, d);
    }
  }

  lemma DirectLoginInductive(w: World, user: UserId)
    requires Inductive(w)
    ensures Inductive(w.(log := w.log + [PasswordChecked(user, false), SessionOpened(user, None)]))
  {
    var w1 := w.(log := w.log + [PasswordChecked(user, false)]);
    NoteInductive(w, PasswordChecked(user, false));
    NoteInductive(w1, SessionOpened(user, None));
    assert w1.log + [SessionOpened(user, None)] == w.log + [PasswordChecked(user, false), SessionOpened(user, None)];
  }

  lemma ChallengeLoginInductive(w: World, user: UserId)
    requires Inductive(w)
    ensures Inductive(World(w.now, WithChallenge(w.state, user, w.now),
                            w.log + [PasswordChecked(user, true), ChallengeIssued(w.state.nextToken, user)]))
  {
    var w1 := w.(log := w.log + [PasswordChecked(user, true)]);
    var issued := ChallengeIssued(w.state.nextToken, user);
    NoteInductive(w, PasswordChecked(user, true));
    IssueInductive(w1, user);
    assert w1.log + [issued] == w.log + [PasswordChecked(user, true), issued];
  }

  lemma PasswordLoginInductive(otp: Otp, w: World, user: UserId, password: string, end: World)
    requires Inductive(w) && end == Next(otp, w, PasswordLogin(user, password))
    ensures Inductive(end)
  {
    if user in w.state.creds && w.state.creds[user].password == Some(password) {
      if w.state.creds[user].enabled {
        ChallengeLoginInductive(w, user);
      } else {
        DirectLoginInductive(w, user);
      }
    }
  }

  function Consumed(w: World, token: Token): World
    requires token in w.state.challenges
  {
    World(w.now, w.state.(challenges := ConsumedIn(w.state.challenges, token, w.now)),
          w.log + [ChallengeConsumed(token, w.state.challenges[token].user)])
  }

  lemma ConsumeInductive(w: World, token: Token)
    requires Inductive(w) && Consumable(w.state.challenges, token, w.now)
    ensures Inductive(Consumed(w, token))
  {
    var e := ChallengeConsumed(token, w.state.challenges[token].user);
    OwnedGrows(w.state, w.log, [e]);
    ChallengesDoNotOwn(w.state, Consumed(w, token).state, w.log + [e]);
    UseInductive(w, Consumed(w, token).state, e);
  }

  function WithFactor(w: World, user: UserId, factor: Factor, code: Code): World
    requires !factor.Refused? && user in w.state.creds && w.state.creds[user].secret.Some?
    requires factor.ByRecovery? ==> factor.code in w.state.codes
  {
    World(w.now, AfterFactor(w.state, user, factor, w.now),
          w.log + [FactorEntry(w.state, user, factor, code, w.now)])
  }

  /** Using a factor moves no secret, no owner and no enrolment. */
  lemma FactorDoesNotOwn(s: State, user: UserId, factor: Factor, now: int, log: seq<Entry>)
    requires Owned(s, log) && (factor.ByTotp? ==> user in s.creds) && (factor.ByRecovery? ==> factor.code in s.codes)
    ensures Owned(AfterFactor(s, user, factor, now), log)
  {
    var s' := AfterFactor(s, user, factor, now);
    forall code | code in s'.codes
      ensures CodeOwned(s', log, code)
    {
      assert CodeOwned(s, log, code);
    }
  }

  lemma FactorInductive(otp: Otp, w: World, user: UserId, code: Code)
    requires Inductive(w) && !SecondFactor(otp, w.state, user, code, w.now).Refused?
    ensures Inductive(WithFactor(w, user, SecondFactor(otp, w.state, user, code, w.now), code))
  {
    var s, factor := w.state, SecondFactor(otp, w.state, user, code, w.now);
    var s', e := AfterFactor(s, user, factor, w.now), FactorEntry(s, user, factor, code, w.now);
    OwnedGrows(s, w.log, [e]);
    FactorDoesNotOwn(s, user, factor, w.now, w.log + [e]);
    FactorGrounded(otp, w, user, code);
    forall d | d in w.log && Remembered(s, d)
      ensures Remembered(s', d)
    {
      FactorRemembers(otp, s, user, code, w.now, d);
    }
    UseInductive(w, s', e);
  }

  lemma FactorRemembers(otp: Otp, s: State, user: UserId, code: Code, now: int, d: Entry)
    requires !SecondFactor(otp, s, user, code, now).Refused? && Remembered(s, d)
    ensures Remembered(AfterFactor(s, user, SecondFactor(otp, s, user, code, now), now), d)
  {
  }

  lemma FactorGrounded(otp: Otp, w: World, user: UserId, code: Code)
    requires Owned(w.state, w.log) && !SecondFactor(otp, w.state, user, code, w.now).Refused?
    ensures var factor := SecondFactor(otp, w.state, user, code, w.now);
            var e := FactorEntry(w.state, user, factor, code, w.now);
            && Grounded(w.log, e) && Offered(w.state, e) && Remembered(AfterFactor(w.state, user, factor, w.now), e)
  {
    if SecondFactor(otp, w.state, user, code, w.now).ByRecovery? {
      assert CodeOwned(w.state, w.log, code);
    }
  }

  /** The second half of the step, after the challenge is consumed. */
  function AfterChallenge(otp: Otp, w: World, token: Token, user: UserId, code: Code): World {
    var factor := SecondFactor(otp, w.state, user, code, w.now);
    if factor.Refused? then w
    else
      var entry := FactorEntry(w.state, user, factor, code, w.now);
      World(w.now, AfterFactor(w.state, user, factor, w.now), w.log + [entry] + [SessionOpened(user, Some(token))])
  }

  lemma AfterChallengeInductive(otp: Otp, w: World, token: Token, user: UserId, code: Code)
    requires Inductive(w) && w.log != [] && w.log[|w.log| - 1] == ChallengeConsumed(token, user)
    ensures Inductive(AfterChallenge(otp, w, token, user, code))
  {
    var factor := SecondFactor(otp, w.state, user, code, w.now);
    if !factor.Refused? {
      var w2 := WithFactor(w, user, factor, code);
      FactorInductive(otp, w, user, code);
      assert w2.log[|w2.log| - 2] == ChallengeConsumed(token, user);
      NoteInductive(w2, SessionOpened(user, Some(token)));
    }
  }

  lemma TotpLoginStep(otp: Otp, w: World, token: Token, code: Code)
    requires Consumable(w.state.challenges, token, w.now) && !SecretMissing(w.state, w.state.challenges[token].user)
    ensures Next(otp, w, TotpLogin(token, code))
            == AfterChallenge(otp, Consumed(w, token), token, w.state.challenges[token].user, code)
  {
    var w1, user := Consumed(w, token), w.state.challenges[token].user;
    var factor := SecondFactor(otp, w1.state, user, code, w.now);
    if factor.Refused? {
      assert Next(otp, w, TotpLogin(token, code)).log == w1.log + [];
    } else {
      var entry := FactorEntry(w1.state, user, factor, code, w.now);
      assert w1.log + [entry] + [SessionOpened(user, Some(token))]
             == w1.log + [entry, SessionOpened(user, Some(token))];
    }
  }

  lemma TotpLoginInductive(otp: Otp, w: World, token: Token, code: Code, end: World)
    requires Inductive(w) && end == Next(otp, w, TotpLogin(token, code))
    ensures Inductive(end)
  {
    if Consumable(w.state.challenges, token, w.now) && !SecretMissing(w.state, w.state.challenges[token].user) {
      ConsumeInductive(w, token);
      TotpLoginStep(otp, w, token, code);
      AfterChallengeInductive(otp, Consumed(w, token), token, w.state.challenges[token].user, code);
    }
  }

  lemma FreshCodeCount(user: UserId, first: Token, n: nat)
    ensures |FreshCodes(user, first, n).Keys| == n
  {
    if n > 0 {
      FreshCodeCount(user, first, n - 1);
      assert FreshCodes(user, first, n).Keys == FreshCodes(user, first, n - 1).Keys + {first + n - 1};
    }
  }

  lemma ActivatedInductive(w: World, user: UserId, code: Code, counter: int)
    requires Inductive(w) && user in w.state.creds && w.state.creds[user].secret.Some? && !w.state.creds[user].enabled
    requires -1 <= counter - w.now / INTERVAL <= 1
    requires w.state.creds[user].lastCounter.Some? ==> w.state.creds[user].lastCounter.value < counter
    ensures Inductive(World(w.now, Activated(w.state, user, counter),
                            w.log + [TotpEntry(w.state.creds[user], user, code, counter, w.now)]))
  {
    var s, s' := w.state, Activated(w.state, user, counter);
    var e := TotpEntry(s.creds[user], user, code, counter, w.now);
    OwnedGrows(s, w.log, [e]);
    ActivatedOwned(s, user, counter, w.log + [e]);
    UseInductive(w, s', e);
  }

  lemma ActivatedOwned(s: State, user: UserId, counter: int, log: seq<Entry>)
    requires Owned(s, log) && user in s.creds && s.creds[user].secret.Some?
    ensures Owned(Activated(s, user, counter), log)
  {
    var s' := Activated(s, user, counter);
    forall c | c in s'.codes
      ensures CodeOwned(s', log, c)
    {
      assert CodeOwned(s, log, c);
    }
  }

  lemma IssuedOwned(s: State, user: UserId, log: seq<Entry>)
    requires Owned(s, log) && user in s.creds && s.creds[user].enabled
    ensures Owned(WithCodes(s, user), log + [IssueEntry(s, user)])
  {
    var s', e := WithCodes(s, user), IssueEntry(s, user);
    OwnedGrows(s, log, [e]);
    forall c | c in s'.codes
      ensures CodeOwned(s', log + [e], c)
    {
      if c in FreshCodes(user, s.nextToken, RECOVERY_CODE_COUNT) {
        assert e in log + [e] && IssuesCode(e, user, s.creds[user].enrolment, c);
      } else {
        assert CodeOwned(s, log + [e], c);
      }
    }
  }

  /** New codes are not among those used. */
  lemma IssuingRemembers(s: State, user: UserId, d: Entry)
    requires Remembered(s, d)
    ensures Remembered(WithCodes(s, user), d)
  {
  }

  lemma IssuingInductive(w: World, user: UserId, end: World)
    requires Inductive(w) && user in w.state.creds && w.state.creds[user].enabled
    requires w.log != [] && Activates(w.log[|w.log| - 1], user, w.state.creds[user].enrolment)
    requires end == World(w.now, WithCodes(w.state, user), w.log + [IssueEntry(w.state, user)])
    ensures Inductive(end)
  {
    var s', e := WithCodes(w.state, user), IssueEntry(w.state, user);
    IssuedOwned(w.state, user, w.log);
    forall d | d in w.log && Remembered(w.state, d)
      ensures Remembered(s', d)
    {
      IssuingRemembers(w.state, user, d);
    }
    IssueGrounded(w, user);
    UseInductive(w, s', e);
  }

  lemma IssueGrounded(w: World, user: UserId)
    requires user in w.state.creds && w.log != []
    requires Activates(w.log[|w.log| - 1], user, w.state.creds[user].enrolment)
    ensures Grounded(w.log, IssueEntry(w.state, user)) && Offered(w.state, IssueEntry(w.state, user))
    ensures Remembered(WithCodes(w.state, user), IssueEntry(w.state, user))
  {
    FreshCodeCount(user, w.state.nextToken, RECOVERY_CODE_COUNT);
  }

  lemma ActivateInductive(otp: Otp, w: World, user: UserId, code: Code, end: World)
    requires Inductive(w) && end == Next(otp, w, ActivateTotp(user, code))
    ensures Inductive(end)
  {
    var s := w.state;
    if user in s.creds && s.creds[user].secret.Some? && !s.creds[user].enabled {
      var verdict := TotpCheck(otp, s.creds[user].secret.value, s.creds[user].lastCounter, code, w.now);
      if verdict.Match? {
        ActivatedInductive(w, user, code, verdict.counter);
        ActivationInductive(w, user, code, verdict.counter, end);
      }
    }
  }

  lemma ActivationInductive(w: World, user: UserId, code: Code, counter: int, end: World)
    requires user in w.state.creds && w.state.creds[user].secret.Some?
    requires Inductive(World(w.now, Activated(w.state, user, counter),
                             w.log + [TotpEntry(w.state.creds[user], user, code, counter, w.now)]))
    requires end == World(w.now, WithCodes(Activated(w.state, user, counter), user),
                          w.log + [TotpEntry(w.state.creds[user], user, code, counter, w.now),
                                   IssueEntry(w.state, user)])
    ensures Inductive(end)
  {
    var e := TotpEntry(w.state.creds[user], user, code, counter, w.now);
    var w1 := World(w.now, Activated(w.state, user, counter), w.log + [e]);
    assert end.log == w1.log + [IssueEntry(w1.state, user)];
    IssuingInductive(w1, user, end);
  }

  /** A new secret comes with a new enrolment; its user has no codes. */
  lemma ProvisionedOwned(s: State, user: UserId, secret: Secret, log: seq<Entry>)
    requires Owned(s, log) && !Account(s, user).enabled
    requires TotpProvisioned(user, Account(s, user).enrolment + 1, secret) in log
    ensures Owned(Provisioned(s, user, secret), log)
  {
    var s' := Provisioned(s, user, secret);
    forall c | c in s'.codes
      ensures CodeOwned(s', log, c)
    {
      assert CodeOwned(s, log, c);
    }
  }

  lemma ProvisionedRemembers(s: State, user: UserId, secret: Secret, d: Entry)
    requires Remembered(s, d)
    ensures Remembered(Provisioned(s, user, secret), d)
  {
  }

  lemma ProvisionInductive(w: World, user: UserId, secret: Secret, end: World)
    requires Inductive(w) && !Account(w.state, user).enabled
    requires end == World(w.now, Provisioned(w.state, user, secret),
                          w.log + [TotpProvisioned(user, Account(w.state, user).enrolment + 1, secret)])
    ensures Inductive(end)
  {
    var e := TotpProvisioned(user, Account(w.state, user).enrolment + 1, secret);
    OwnedGrows(w.state, w.log, [e]);
    ProvisionedOwned(w.state, user, secret, w.log + [e]);
    forall d | d in w.log && Remembered(w.state, d)
      ensures Remembered(end.state, d)
    {
      ProvisionedRemembers(w.state, user, secret, d);
    }
    UseInductive(w, end.state, e);
  }

  lemma SetupInductive(otp: Otp, w: World, user: UserId, secret: Secret, end: World)
    requires Inductive(w) && end == Next(otp, w, SetupTotp(user, secret))
    ensures Inductive(end)
  {
    if !(user in w.state.creds && w.state.creds[user].enabled) {
      ProvisionInductive(w, user, secret, end);
    }
  }

  /** Without secret and codes there is nothing left to own. */
  lemma DisableInductive(otp: Otp, w: World, user: UserId, password: string)
    requires Inductive(w)
    ensures Inductive(Next(otp, w, DisableTotp(user, password)))
  {
    var w' := Next(otp, w, DisableTotp(user, password));
    DisableOwned(otp, w, user, password);
    forall d | d in w.log
      ensures Remembered(w'.state, d)
    {
      assert Remembered(w.state, d);
    }
  }

  lemma DisableOwned(otp: Otp, w: World, user: UserId, password: string)
    requires Owned(w.state, w.log)
    ensures Owned(Next(otp, w, DisableTotp(user, password)).state, w.log)
  {
    var s' := Next(otp, w, DisableTotp(user, password)).state;
    forall c | c in s'.codes
      ensures CodeOwned(s', w.log, c)
    {
      assert CodeOwned(w.state, w.log, c);
    }
  }

  lemma {:induction false} RunInductive(otp: Otp, w: World, steps: seq<Step>)
    requires Inductive(w)
    ensures Inductive(Run(otp, w, steps))
    decreases steps
  {
    if steps != [] {
      var w' := Next(otp, w, steps[0]);
      match steps[0] {
        case PasswordLogin(user, password) => PasswordLoginInductive(otp, w, user, password, w');
        case TotpLogin(token, code) => TotpLoginInductive(otp, w, token, code, w');
        case SetupTotp(user, secret) => SetupInductive(otp, w, user, secret, w');
        case ActivateTotp(user, code) => ActivateInductive(otp, w, user, code, w');
        case DisableTotp(user, password) => DisableInductive(otp, w, user, password);
        case Pass(_) =>
      }
      RunInductive(otp, w', steps[1..]);
    }
  }

  // --- Main results, over every run ---

  /**
   A session opened without a challenge directly follows a password check that found TOTP off. One
   opened through a challenge follows, in order, a password check that found TOTP on, the issue of
   that challenge to that user, its consumption, and a second factor accepted for that user.
   */
  lemma EverySessionIsEarned(otp: Otp, w: World, steps: seq<Step>, k: nat)
    requires Initial(w) && k < |Run(otp, w, steps).log| && Run(otp, w, steps).log[k].SessionOpened?
    ensures var log := Run(otp, w, steps).log;
            match log[k].challenge
            case None => k >= 1 && log[k - 1] == PasswordChecked(log[k].user, false)
            case Some(token) =>
              k >= 4 && Issued(log[..k - 2], token, log[k].user) && log[k - 2] == ChallengeConsumed(token, log[k].user)
              && IsFactor(log[k - 1], log[k].user)
  {
    RunInductive(otp, w, steps);
    var log := Run(otp, w, steps).log;
    AccountedAt(log, k);
    if log[k].challenge.Some? {
      AccountedAt(log, k - 2);
    }
  }

  /**
   Challenges, recovery codes and one-time passwords are used at most once, sessions per challenge
   are at most one, a recovery code is given out once, and an enrolment has one secret.
   */
  lemma NothingIsUsedTwice(otp: Otp, w: World, steps: seq<Step>, j: nat, k: nat)
    requires Initial(w) && j < k < |Run(otp, w, steps).log|
    ensures var log := Run(otp, w, steps).log;
            && (log[j].SessionOpened? && log[k].SessionOpened? && log[k].challenge.Some? ==>
                  log[j].challenge != log[k].challenge)
            && (log[j].CodeUsed? && log[k].CodeUsed? ==> log[j].code != log[k].code)
            && (log[j].CodesIssued? && log[k].CodesIssued? ==> log[j].codes !! log[k].codes)
            && (log[j].TotpProvisioned? && log[k].TotpProvisioned? && log[j].user == log[k].user ==>
                  log[j].enrolment != log[k].enrolment)
            && (log[j].TotpAccepted? && log[k].TotpAccepted? && log[j].user == log[k].user
                && log[j].enrolment == log[k].enrolment ==>
                  log[j].counter < log[k].counter)
  {
    RunInductive(otp, w, steps);
    var log := Run(otp, w, steps).log;
    NoRepeatBetween(log, j, k);
    if log[j].SessionOpened? && log[k].SessionOpened? && log[k].challenge.Some?
      && log[j].challenge == log[k].challenge {
      AccountedAt(log, j);
      AccountedAt(log, k);
      NoRepeatBetween(log, j - 2, k - 2);
    }
  }

  ghost predicate Genuine(otp: Otp, e: Entry) {
    e.TotpAccepted? ==> otp(e.secret, e.counter) == e.code
  }

  lemma NextGenuine(otp: Otp, w: World, step: Step)
    requires forall e :: e in w.log ==> Genuine(otp, e)
    ensures forall e :: e in Next(otp, w, step).log ==> Genuine(otp, e)
  {
  }

  lemma {:induction false} RunGenuine(otp: Otp, w: World, steps: seq<Step>)
    requires forall e :: e in w.log ==> Genuine(otp, e)
    ensures forall e :: e in Run(otp, w, steps).log ==> Genuine(otp, e)
    decreases steps
  {
    if steps != [] {
      NextGenuine(otp, w, steps[0]);
      RunGenuine(otp, Next(otp, w, steps[0]), steps[1..]);
    }
  }

  /**
   Every accepted one-time password is that of the secret provisioned for this user under this
   enrolment, at a counter within one step of the clock; and an enabled TOTP always has its secret.
   */
  lemma TotpIsGenuine(otp: Otp, w: World, steps: seq<Step>, k: nat)
    requires Initial(w) && k < |Run(otp, w, steps).log|
    ensures var end := Run(otp, w, steps);
            && SecretsStored(end.state)
            && (end.log[k].TotpAccepted? ==>
                  var e := end.log[k];
                  && -1 <= e.counter - e.at / 30 <= 1 && e.code == otp(e.secret, e.counter)
                  && TotpProvisioned(e.user, e.enrolment, e.secret) in end.log[..k])
  {
    RunInductive(otp, w, steps);
    RunGenuine(otp, w, steps);
    var log := Run(otp, w, steps).log;
    AccountedAt(log, k);
    assert Genuine(otp, log[k]);
  }

  /**
   Every recovery code used was given out before, to the same user and under the same enrolment,
   right after the one-time password that activated it, among eight.
   */
  lemma CodesAreTheUsersOwn(otp: Otp, w: World, steps: seq<Step>, k: nat)
    requires Initial(w) && k < |Run(otp, w, steps).log| && Run(otp, w, steps).log[k].CodeUsed?
    ensures var log := Run(otp, w, steps).log;
            exists j :: 0 < j < k && IssuesCode(log[j], log[k].user, log[k].enrolment, log[k].code)
                        && |log[j].codes| == 8
                        && Activates(log[j - 1], log[k].user, log[k].enrolment)
  {
    RunInductive(otp, w, steps);
    var log := Run(otp, w, steps).log;
    AccountedAt(log, k);
    var e :| e in log[..k] && IssuesCode(e, log[k].user, log[k].enrolment, log[k].code);
    var j :| 0 <= j < k && log[j] == e;
    AccountedAt(log, j);
    assert IssuesCode(log[j], log[k].user, log[k].enrolment, log[k].code);
  }

  // --- What each step gives ---

  /** The code is the one-time password of a counter not used yet, and of none tried before it. */
  predicate FitsTotp(otp: Otp, secret: Secret, last: Option<int>, code: Code, now: int) {
    var t := now / INTERVAL;
    || (otp(secret, t) == code && (last.Some? ==> t > last.value))
    || (otp(secret, t) != code && otp(secret, t - 1) == code && (last.Some? ==> t - 1 > last.value))
    || (otp(secret, t) != code && otp(secret, t - 1) != code && otp(secret, t + 1) == code
        && (last.Some? ==> t + 1 > last.value))
  }

  /** The code is a second factor of this user: a one-time password, or an unused recovery code of theirs. */
  predicate Fits(otp: Otp, s: State, user: UserId, code: Code, now: int) {
    && user in s.creds && s.creds[user].enabled && s.creds[user].secret.Some?
    && (|| FitsTotp(otp, s.creds[user].secret.value, s.creds[user].lastCounter, code, now)
        || (code in s.codes && s.codes[code] == Recovery(user, None)))
  }

  /** A challenge issued at `at` that nobody has consumed. */
  predicate OpenSince(s: State, token: Token, user: UserId, at: int) {
    token in s.challenges && s.challenges[token] == Challenge(user, at + CHALLENGE_TTL, None)
  }

  /** Within its five minutes an open challenge and a code that fits open a session, and nothing else does. */
  lemma SecondStepIff(otp: Otp, w: World, token: Token, user: UserId, at: int, code: Code)
    requires OpenSince(w.state, token, user, at)
    ensures var w' := Next(otp, w, TotpLogin(token, code));
            && (SessionOpened(user, Some(token)) in w'.log[|w.log|..]
                <==> w.now <= at + CHALLENGE_TTL && Fits(otp, w.state, user, code, w.now))
            && (forall e :: e in w'.log[|w.log|..] && e.SessionOpened? ==> e == SessionOpened(user, Some(token)))
            && (w.now <= at + CHALLENGE_TTL
                && !(user in w.state.creds && w.state.creds[user].enabled && w.state.creds[user].secret.None?) ==>
                  forall later: Code :: Next(otp, w', TotpLogin(token, later)) == w')
  {
    var w' := Next(otp, w, TotpLogin(token, code));
    if w' != w {
      TotpLoginStep(otp, w, token, code);
      var factor := SecondFactor(otp, Consumed(w, token).state, user, code, w.now);
      FactorIffFits(otp, Consumed(w, token).state, user, code, w.now);
      var consumed := ChallengeConsumed(token, user);
      if factor.Refused? {
        assert w'.log[|w.log|..] == [consumed];
      } else {
        var entry := FactorEntry(Consumed(w, token).state, user, factor, code, w.now);
        assert w'.log[|w.log|..] == [consumed, entry, SessionOpened(user, Some(token))];
        assert w'.log[|w.log|..][2] == SessionOpened(user, Some(token));
      }
    }
  }

  lemma FactorIffFits(otp: Otp, s: State, user: UserId, code: Code, now: int)
    ensures !SecondFactor(otp, s, user, code, now).Refused? <==> Fits(otp, s, user, code, now)
  {
  }

  /**
   A right password opens a session at once if TOTP is off; if it is on, a code that fits opens one
   exactly up to five minutes later, through the challenge. A wrong password does nothing.
   */
  lemma PasswordThenCode(otp: Otp, w: World, user: UserId, password: string, pause: nat, code: Code)
    ensures var w1 := Next(otp, w, PasswordLogin(user, password));
            if user !in w.state.creds || w.state.creds[user].password != Some(password) then w1 == w
            else if !w.state.creds[user].enabled then
              w1 == w.(log := w.log + [PasswordChecked(user, false), SessionOpened(user, None)])
            else
              var w2 := Next(otp, w1, Pass(pause));
              var session := SessionOpened(user, Some(w.state.nextToken));
              && w1.log == w.log + [PasswordChecked(user, true), ChallengeIssued(w.state.nextToken, user)]
              && (session in Next(otp, w2, TotpLogin(w.state.nextToken, code)).log[|w1.log|..]
                  <==> pause <= 5 * 60 && Fits(otp, w.state, user, code, w.now + pause))
  {
    if user in w.state.creds && w.state.creds[user].password == Some(password) && w.state.creds[user].enabled {
      var w2 := Next(otp, Next(otp, w, PasswordLogin(user, password)), Pass(pause));
      SecondStepIff(otp, w2, w.state.nextToken, user, w.now, code);
    }
  }

  /**
   What is refused changes nothing: a second step without a live challenge, or for a user whose TOTP
   is on without a stored secret; provisioning while TOTP is on; activating it twice, without a
   secret or with a code that does not fit; disabling it while it is off or without the password.
   */
  lemma RefusalsChangeNothing(otp: Otp, w: World, step: Step)
    requires match step
             case TotpLogin(token, _) =>
               || token !in w.state.challenges || w.state.challenges[token].consumedAt.Some?
               || w.state.challenges[token].expiresAt < w.now
               || var user := w.state.challenges[token].user;
                  user in w.state.creds && w.state.creds[user].enabled && w.state.creds[user].secret.None?
             case SetupTotp(user, _) => user in w.state.creds && w.state.creds[user].enabled
             case ActivateTotp(user, code) =>
               || user !in w.state.creds || w.state.creds[user].secret.None? || w.state.creds[user].enabled
               || !FitsTotp(otp, w.state.creds[user].secret.value, w.state.creds[user].lastCounter, code, w.now)
             case DisableTotp(user, password) =>
               || user !in w.state.creds || !w.state.creds[user].enabled
               || w.state.creds[user].password != Some(password)
             case _ => false
    ensures Next(otp, w, step) == w
  {
  }

  /**
   A user without TOTP who provisions a secret and gives its current one-time password has it on,
   with eight recovery codes, each of which fits.
   */
  lemma EnrolmentWorks(otp: Otp, w: World, user: UserId, secret: Secret, code: Code)
    requires user in w.state.creds ==> !w.state.creds[user].enabled
    requires w.state.nextToken <= code < w.state.nextToken + 8
    ensures var w1 := Next(otp, w, SetupTotp(user, secret));
            var w2 := Next(otp, w1, ActivateTotp(user, otp(secret, w.now / INTERVAL)));
            && (user in w.state.creds ==>
                  w2.state.creds[user] == w.state.creds[user].(enabled := true, secret := Some(secret),
                    lastCounter := Some(w.now / 30), enrolment := w.state.creds[user].enrolment + 1))
            && (user !in w.state.creds ==>
                  w2.state.creds[user] == Credentials(None, Some(secret), true, Some(w.now / 30), 1))
            && (forall other :: other != user ==>
                  (other in w2.state.creds <==> other in w.state.creds)
                  && (other in w.state.creds ==> w2.state.creds[other] == w.state.creds[other]))
            && Fits(otp, w2.state, user, code, w2.now)
  {
  }

  /**
   With the password, TOTP is turned off: nothing fits any more, the user's codes are gone, the
   others' stay, and the password alone opens a session.
   */
  lemma DisablingTurnsOff(otp: Otp, w: World, user: UserId, password: string, code: Code)
    requires user in w.state.creds && w.state.creds[user].enabled && w.state.creds[user].password == Some(password)
    ensures var w' := Next(otp, w, DisableTotp(user, password));
            && !Fits(otp, w'.state, user, code, w'.now)
            && (code in w'.state.codes <==> code in w.state.codes && w.state.codes[code].user != user)
            && (code in w'.state.codes ==> w'.state.codes[code] == w.state.codes[code])
            && w'.state.creds[user].secret.None? && w'.state.challenges == w.state.challenges
            && (forall other :: other != user ==>
                  (other in w'.state.creds <==> other in w.state.creds)
                  && (other in w.state.creds ==> w'.state.creds[other] == w.state.creds[other]))
            && SessionOpened(user, None) in Next(otp, w', PasswordLogin(user, password)).log[|w'.log|..]
  {
    var w' := Next(otp, w, DisableTotp(user, password));
    var w'' := Next(otp, w', PasswordLogin(user, password));
    assert w''.log[|w'.log|..][1] == SessionOpened(user, None);
  }
}
