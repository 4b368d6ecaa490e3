/** Login challenges: short-lived tokens between the password and the second factor, consumed at most once. */
module LoginChallenges {
  import opened Wrappers

  type Token = nat   // stands for a random token and its hash
  type UserId = nat

  const CHALLENGE_TTL := 5 * 60

  datatype Challenge = Challenge(user: UserId, expiresAt: int, consumedAt: Option<int>)

  function FreshChallenge(user: UserId, now: int): Challenge {
    Challenge(user, now + CHALLENGE_TTL, None)
  }

  predicate Consumable(challenges: map<Token, Challenge>, token: Token, now: int) {
    token in challenges && challenges[token].consumedAt.None? && challenges[token].expiresAt >= now
  }

  function ConsumedIn(challenges: map<Token, Challenge>, token: Token, now: int): map<Token, Challenge>
    requires token in challenges
  {
    challenges[token := challenges[token].(consumedAt := Some(now))]
  }

  /** The rows afterwards, and the user of a live challenge that had not been consumed. */
  method ConsumeLoginChallenge(rows: map<Token, Challenge>, token: Token, now: int)
    returns (user: Option<UserId>, left: map<Token, Challenge>)
    ensures user == if Consumable(rows, token, now) then Some(rows[token].user) else None
    ensures left == if user.Some? then ConsumedIn(rows, token, now) else rows
  {
    if token !in rows || rows[token].consumedAt.Some? || rows[token].expiresAt < now {
      return None, rows;
    }
    var challenge := rows[token];
    return Some(challenge.user), rows[token := challenge.(consumedAt := Some(now))];
  }
}
