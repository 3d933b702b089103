/** What each call of the auth service does to the token table, row by row. */
module AuthLaws {
  import opened TokenTable
  import opened AuthService
  import opened AuthRuns

  // --- Issuing -------------------------------------------------------------------------------------------------------

  /** The row that a call draws. */
  function Drawn(user: UserId, env: Env): Row {
    Row(user, env.token, env.expires, None, None)
  }

  /** No row but `id` is new. */
  ghost predicate OnlyNew(rows: Rows, after: Rows, id: RowId, row: Row) {
    forall a :: a in after && a !in rows ==> a == id && after[a] == row
  }

  /** A pair is issued exactly when everything goes through; the table then has the drawn token, for this user, until the
      drawn expiry, neither revoked nor replaced. No other row changes, and a failure leaves at most that row behind. */
  lemma IssueMeans(rows: Rows, user: UserId, env: Env)
    ensures var (after, reply) := Issue(rows, user, env);
            && (reply.Pair? <==> env.jwtOk && env.randomOk && env.create.Fine? && env.id !in rows && !Taken(rows, env.token))
            && (reply.Pair? ==> reply.row == env.id && env.id in after && after[env.id] == Drawn(user, env))
            && (!reply.Pair? ==> reply == ErrInternal)
            && (forall id :: id in rows ==> id in after && after[id] == rows[id])
            && OnlyNew(rows, after, env.id, Drawn(user, env))
  {
  }

  lemma IssueKeepsUnique(rows: Rows, user: UserId, env: Env)
    requires Unique(rows)
    ensures Unique(Issue(rows, user, env).0)
  {
  }

  /** A token that was just issued refreshes until it expires, if nothing fails. */
  lemma IssuedTokenRefreshes(rows: Rows, user: UserId, env: Env, later: Env)
    requires Unique(rows) && Issue(rows, user, env).1.Pair?
    requires later.getOk && later.userOk && later.jwtOk && later.randomOk && later.create.Fine? && later.revoke.Fine?
    requires later.id !in Issue(rows, user, env).0 && !Taken(Issue(rows, user, env).0, later.token)
    ensures Refresh(Issue(rows, user, env).0, env.token, later).1.Pair? <==> later.now < env.expires
  {
    hide Issue, Refresh;
    var after := Issue(rows, user, env).0;
    IssueMeans(rows, user, env);
    IssueKeepsUnique(rows, user, env);
    RefreshSucceedsIff(after, env.token, later);
    FindIs(after, env.id);
  }

  // --- Refreshing ----------------------------------------------------------------------------------------------------

  /** Every reply of Refresh, and exactly when it is given. */
  lemma RefreshReplies(rows: Rows, token: Token, env: Env)
    requires Unique(rows)
    ensures var reply := Refresh(rows, token, env).1;
            && (reply.ErrTokenReuse? <==> env.getOk && exists id :: id in rows && rows[id].token == token && rows[id].Revoked())
            && (reply.ErrInvalidCredentials? <==>
                  env.getOk && forall id :: id in rows && rows[id].token == token ==> !rows[id].Revoked() && rows[id].expires <= env.now)
            && !reply.Done?
  {
    if id :| id in rows && rows[id].token == token {
      FindIs(rows, id);
    }
  }

  /** Apart from reuse, a refresh changes no row but the presented one, which is left alone or revoked in favour of the new
      row; and it makes no row but the drawn one, for the same user. */
  lemma RefreshTouches(rows: Rows, id: RowId, env: Env)
    requires Unique(rows) && id in rows && !rows[id].Revoked()
    ensures var after := Refresh(rows, rows[id].token, env).0;
            && (forall a :: a in rows && a != id ==> a in after && after[a] == rows[a])
            && id in after && (after[id] == rows[id] || after[id] == rows[id].(revokedAt := Some(env.now), replacedBy := Some(env.id)))
            && OnlyNew(rows, after, env.id, Drawn(rows[id].user, env))
  {
    hide Issue;
    FindIs(rows, id);
    IssueMeans(rows, rows[id].user, env);
  }

  /** A successful refresh leaves the drawn token in the table, for the same user, until the drawn expiry. */
  lemma RefreshedRow(rows: Rows, id: RowId, env: Env)
    requires Unique(rows) && id in rows && Refresh(rows, rows[id].token, env).1.Pair?
    ensures var (after, reply) := Refresh(rows, rows[id].token, env);
            reply.row == env.id && env.id in after && after[env.id] == Drawn(rows[id].user, env)
  {
    hide Issue;
    FindIs(rows, id);
    IssueMeans(rows, rows[id].user, env);
  }

  /** An unknown token changes nothing. */
  lemma UnknownTouchesNothing(rows: Rows, token: Token, env: Env)
    requires !Taken(rows, token)
    ensures Refresh(rows, token, env).0 == rows && Logout(rows, token, env).0 == rows
  {
  }

  /** Reuse revokes the rows of the token's user that were not, if the bulk revoke is applied, and changes nothing else:
      no row of another user, no token, no expiry, no pointer. */
  lemma ReuseSparesOthers(rows: Rows, id: RowId, env: Env)
    requires Unique(rows) && id in rows && rows[id].Revoked()
    ensures var after := Refresh(rows, rows[id].token, env).0;
            && after.Keys == rows.Keys
            && (forall a :: a in rows && rows[a].user != rows[id].user ==> after[a] == rows[a])
            && (forall a :: a in rows && rows[a].user == rows[id].user ==>
                  after[a] == if env.getOk && env.bulk.Applied() && !rows[a].Revoked() then rows[a].(revokedAt := Some(env.now)) else rows[a])
  {
    FindIs(rows, id);
  }

  // --- Logging out ---------------------------------------------------------------------------------------------------

  /** Logout answers Done exactly when the lookup works and there is nothing to revoke, or the revoke goes through; the
      token is then revoked. */
  lemma LogoutMeans(rows: Rows, token: Token, env: Env)
    requires Unique(rows)
    ensures var (after, reply) := Logout(rows, token, env);
            && (reply.Done? <==>
                  env.getOk && (env.revoke.Fine? || forall id :: id in rows && rows[id].token == token ==> rows[id].Revoked()))
            && (!reply.Done? ==> reply == ErrInternal)
            && (reply.Done? ==> forall id :: id in after && after[id].token == token ==> after[id].Revoked())
  {
    if id :| id in rows && rows[id].token == token {
      FindIs(rows, id);
    }
  }

  /** It changes no row with another token, makes none, and leaves the token's own row alone or revokes it. */
  lemma LogoutTouches(rows: Rows, token: Token, env: Env)
    requires Unique(rows)
    ensures var after := Logout(rows, token, env).0;
            && after.Keys == rows.Keys
            && (forall id :: id in rows && rows[id].token != token ==> after[id] == rows[id])
            && (forall id :: id in rows && rows[id].token == token ==>
                  after[id] == rows[id] || (!rows[id].Revoked() && after[id] == rows[id].(revokedAt := Some(env.now), replacedBy := None)))
  {
    if id :| id in rows && rows[id].token == token {
      FindIs(rows, id);
    }
  }

  // --- In every run ----------------------------------------------------------------------------------------------------

  /** A row is changed only by a call with a token of its own user. */
  lemma OnlyOwnRowsChange(ss: seq<Auth>, steps: seq<Step>, n: nat, id: RowId)
    requires Run(ss, steps) && n < |steps| && id in ss[n].rows
    ensures id in ss[n + 1].rows
    ensures ss[n + 1].rows[id] != ss[n].rows[id] ==>
              && !steps[n].DoLogin?
              && exists a :: a in ss[n].rows && ss[n].rows[a].token == steps[n].token && ss[n].rows[a].user == ss[n].rows[id].user
  {
    hide Can, Known, Forward, Injective, OneLive, Refresh, Logout, Issue;
    RunKeepsInv(ss, steps, n);
    StepMovesForward(ss[n], steps[n]);
    OwnRows(ss[n].rows, steps[n], id);
  }

  ghost function RowsAfter(rows: Rows, step: Step): Rows {
    match step
    case DoLogin(user, env) => Issue(rows, user, env).0
    case DoRefresh(token, env) => Refresh(rows, token, env).0
    case DoLogout(token, env) => Logout(rows, token, env).0
  }

  lemma OwnRows(rows: Rows, step: Step, id: RowId)
    requires Unique(rows) && id in rows
    ensures id in RowsAfter(rows, step)
    ensures RowsAfter(rows, step)[id] != rows[id] ==>
              !step.DoLogin? && exists a :: a in rows && rows[a].token == step.token && rows[a].user == rows[id].user
  {
    hide Issue, Refresh, Logout;
    match step
    case DoLogin(user, env) => IssueMeans(rows, user, env);
    case DoRefresh(token, env) =>
      if a :| a in rows && rows[a].token == token {
        if rows[a].Revoked() {
          ReuseSparesOthers(rows, a, env);
        } else {
          RefreshTouches(rows, a, env);
        }
      } else {
        UnknownTouchesNothing(rows, token, env);
      }
    case DoLogout(token, env) => LogoutTouches(rows, token, env);
  }

  /** After a logout that was answered Done, no row that had the token refreshes again, in any continuation. */
  lemma LogoutEndsSession(ss: seq<Auth>, steps: seq<Step>, i: nat, j: nat)
    requires Run(ss, steps) && i < j < |steps| && steps[i].DoLogout? && steps[j].DoRefresh? && steps[i].token == steps[j].token
    requires Effect(ss[i], steps[i]).1.Done?
    ensures Effect(ss[j], steps[j]).1.Pair? ==> !Taken(ss[i].rows, steps[i].token)
  {
    hide Can, Known, Forward, Injective, OneLive, Refresh, Logout, Issue;
    RunKeepsInv(ss, steps, i);
    RunKeepsInv(ss, steps, j);
    StepMovesForward(ss[i], steps[i]);
    RevokedStaysRevoked(ss, steps, i + 1, j);
    LogoutMeans(ss[i].rows, steps[i].token, steps[i].env);
    if id :| id in ss[i].rows && ss[i].rows[id].token == steps[i].token {
      assert ss[i + 1].rows[id].Revoked();
      Presented(ss[j].rows, id, steps[j].env);
    }
  }
}
