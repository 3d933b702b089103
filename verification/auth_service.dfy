/** Login, refresh-token rotation and logout. */
module AuthService {
  import opened TokenTable

  /** Everything one call depends on besides its argument and the table: the clock, freshly drawn values, and how
      each call it makes turns out. */
  datatype Env = Env(
    now: Time,
    getOk: bool,             // tokens.GetByHash
    userOk: bool,            // users.GetByID
    jwtOk: bool,             // auth.GenerateAccessToken
    randomOk: bool,          // auth.GenerateRefreshToken
    token: Token, id: RowId, expires: Time,
    create: Fault, revoke: Fault, bulk: Fault
  )

  /** What users.GetByUsername finds, and whether the password matches what it found. */
  datatype Lookup = NoSuchUser | LookupFailed | Found(user: UserId, passwordMatches: bool)

  /** `Pair` carries the row of the refresh token whose plaintext is handed to the client. */
  datatype Reply = Pair(row: RowId) | ErrInvalidCredentials | ErrTokenReuse | ErrInternal | Done

  function Issue(rows: Rows, user: UserId, env: Env): (r: (Rows, Reply)) {
    if !env.jwtOk || !env.randomOk then (rows, ErrInternal) else
      var (after, ok) := Create(rows, env.id, user, env.token, env.expires, env.create);
      (after, if ok then Pair(env.id) else ErrInternal)
  }

  ghost function Refresh(rows: Rows, token: Token, env: Env): (r: (Rows, Reply)) {
    if !env.getOk then (rows, ErrInternal) else
    var found := Find(rows, token);
    if found.None? then (rows, ErrInvalidCredentials) else
    var existing := rows[found.value];
    if existing.Revoked() then (RevokeAll(rows, existing.user, env.now, env.bulk), ErrTokenReuse) else
    if !existing.IsActive(env.now) then (rows, ErrInvalidCredentials) else
    if !env.userOk then (rows, ErrInternal) else
    var (issued, reply) := Issue(rows, existing.user, env);
    if !reply.Pair? then (issued, reply) else
    var (after, res) := Revoke(issued, found.value, Some(reply.row), env.now, env.revoke);
    (after, if res.Revoked? then reply else ErrInternal)
  }

  ghost function Logout(rows: Rows, token: Token, env: Env): (r: (Rows, Reply)) {
    if !env.getOk then (rows, ErrInternal) else
    var found := Find(rows, token);
    if found.None? || rows[found.value].Revoked() then (rows, Done) else
    var (after, res) := Revoke(rows, found.value, None, env.now, env.revoke);
    (after, if res.Error? then ErrInternal else Done)
  }

  class Service {
    const tokens: TokenRepository

    constructor (tokens: TokenRepository)
      ensures this.tokens == tokens
    {
      this.tokens := tokens;
    }

    method IssueTokenPairWithRow(user: UserId, env: Env) returns (reply: Reply)
      modifies tokens
      ensures (tokens.rows, reply) == Issue(old(tokens.rows), user, env)
    {
      if !env.jwtOk {
        return ErrInternal;
      }
      if !env.randomOk {
        return ErrInternal;
      }
      var ok := tokens.Insert(env.id, user, env.token, env.expires, env.create);
      if !ok {
        return ErrInternal;
      }
      reply := Pair(env.id);
    }

    /** An unknown user and a wrong password get the same reply; a lookup that fails does not. */
    method Login(lookup: Lookup, env: Env) returns (reply: Reply)
      modifies tokens
      ensures (tokens.rows, reply) ==
              match lookup
              case NoSuchUser => (old(tokens.rows), ErrInvalidCredentials)
              case LookupFailed => (old(tokens.rows), ErrInternal)
              case Found(user, matches) =>
                if matches then Issue(old(tokens.rows), user, env) else (old(tokens.rows), ErrInvalidCredentials)
    {
      match lookup
      case NoSuchUser =>
        return ErrInvalidCredentials;
      case LookupFailed =>
        return ErrInternal;
      case Found(user, matches) =>
        if !matches {
          return ErrInvalidCredentials;
        }
        reply := IssueTokenPairWithRow(user, env);
    }

    method RefreshToken(token: Token, env: Env) returns (reply: Reply)
      requires Unique(tokens.rows)
      modifies tokens
      ensures (tokens.rows, reply) == Refresh(old(tokens.rows), token, env)
    {
      var found, failed := tokens.GetByHash(token, env.getOk);
      if failed {
        return ErrInternal;
      }
      if found.None? {
        return ErrInvalidCredentials;
      }
      var existing := tokens.rows[found.value];
      if existing.Revoked() {
        var ignored := tokens.RevokeAllForUser(existing.user, env.now, env.bulk);
        return ErrTokenReuse;
      }
      if !existing.IsActive(env.now) {
        return ErrInvalidCredentials;
      }
      if !env.userOk {
        return ErrInternal;
      }
      reply := IssueTokenPairWithRow(existing.user, env);
      if !reply.Pair? {
        return;
      }
      var res := tokens.RevokeOne(found.value, Some(reply.row), env.now, env.revoke);
      if !res.Revoked? {
        reply := ErrInternal;
      }
    }

    /** A token that is unknown or already revoked is no error. */
    method LogoutToken(token: Token, env: Env) returns (reply: Reply)
      requires Unique(tokens.rows)
      modifies tokens
      ensures (tokens.rows, reply) == Logout(old(tokens.rows), token, env)
    {
      var found, failed := tokens.GetByHash(token, env.getOk);
      if failed {
        return ErrInternal;
      }
      if found.None? || tokens.rows[found.value].Revoked() {
        return Done;
      }
      var res := tokens.RevokeOne(found.value, None, env.now, env.revoke);
      reply := if res.Error? then ErrInternal else Done;
    }
  }

  // --- What a single call can do ---------------------------------------------------------------------------------

  /** Refresh succeeds if and only if the token is known, neither revoked nor expired, and every call it makes goes
      through; the client then gets the new row, to which the old one points. */
  lemma RefreshSucceedsIff(rows: Rows, token: Token, env: Env)
    requires Unique(rows)
    ensures var (after, reply) := Refresh(rows, token, env);
            && (reply.Pair? <==>
                  && env.getOk && env.userOk && env.jwtOk && env.randomOk && env.create.Fine? && env.revoke.Fine?
                  && env.id !in rows && !Taken(rows, env.token)
                  && exists id :: id in rows && rows[id].token == token && rows[id].IsActive(env.now))
            && (reply.Pair? ==>
                  var id := Find(rows, token).value;
                  && reply.row == env.id && reply.row in after && !after[reply.row].Revoked()
                  && after[reply.row].user == rows[id].user
                  && after[id] == rows[id].(revokedAt := Some(env.now), replacedBy := Some(reply.row)))
  {
    if id :| id in rows && rows[id].token == token {
      FindIs(rows, id);
    }
  }

  /** A revoked token gives ErrTokenReuse whether or not it has also expired, as soon as it can be looked up. */
  lemma RevokedMeansReuse(rows: Rows, id: RowId, env: Env)
    requires Unique(rows) && id in rows && rows[id].Revoked() && env.getOk
    ensures Refresh(rows, rows[id].token, env).1 == ErrTokenReuse
    ensures env.bulk.Applied() ==>
              forall r :: r in rows && rows[r].user == rows[id].user ==>
                r in Refresh(rows, rows[id].token, env).0 && Refresh(rows, rows[id].token, env).0[r].Revoked()
  {
    FindIs(rows, id);
  }

  // --- Every call keeps all rows, and never brings a revoked one back to life --------------------------------------

  lemma IssueMovesForward(rows: Rows, user: UserId, env: Env)
    ensures Later(rows, Issue(rows, user, env).0)
  {
  }

  lemma RefreshMovesForward(rows: Rows, token: Token, env: Env)
    ensures Later(rows, Refresh(rows, token, env).0)
  {
    hide Issue;
    var found := Find(rows, token);
    if found.Some? && !rows[found.value].Revoked() {
      IssueMovesForward(rows, rows[found.value].user, env);
    }
  }

  lemma LogoutMovesForward(rows: Rows, token: Token, env: Env)
    ensures Later(rows, Logout(rows, token, env).0)
  {
  }
}
