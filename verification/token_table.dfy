/** The refresh-token table, and the statements the auth service runs against it. */
module TokenTable {

  datatype Option<T> = None | Some(value: T)

  type RowId = nat
  type UserId = nat
  type Time = nat

  /** A refresh token.  The table stores its hash; since hashing is taken to be injective, the token stands
      for its hash. */
  type Token = nat

  datatype Row = Row(user: UserId, token: Token, expires: Time, revokedAt: Option<Time>, replacedBy: Option<RowId>) {
    predicate Revoked() {
      revokedAt.Some?
    }

    /** Neither revoked nor past its expiry. */
    predicate IsActive(now: Time) {
      revokedAt.None? && now < expires
    }
  }

  type Rows = map<RowId, Row>

  /** How a statement ended.  One that is reported as failed may have been applied all the same. */
  datatype Fault = Fine | Failed(applied: bool) {
    predicate Applied() {
      Fine? || applied
    }
  }

  predicate Taken(rows: Rows, token: Token) {
    exists id :: id in rows && rows[id].token == token
  }

  /** `token_hash TEXT NOT NULL UNIQUE` */
  ghost predicate Unique(rows: Rows) {
    forall a, b :: a in rows && b in rows && rows[a].token == rows[b].token ==> a == b
  }

  ghost function Find(rows: Rows, token: Token): (r: Option<RowId>)
    ensures r.Some? <==> Taken(rows, token)
    ensures r.Some? ==> r.value in rows && rows[r.value].token == token
  {
    if Taken(rows, token) then
      var id :| id in rows && rows[id].token == token;
      Some(id)
    else None
  }

  lemma FindIs(rows: Rows, id: RowId)
    requires Unique(rows) && id in rows
    ensures Find(rows, rows[id].token) == Some(id)
  {
    assert Taken(rows, rows[id].token);
  }

  function Create(rows: Rows, id: RowId, user: UserId, token: Token, expires: Time, fault: Fault): (r: (Rows, bool)) {
    if id in rows || Taken(rows, token) then (rows, false) else
      (if fault.Applied() then rows[id := Row(user, token, expires, None, None)] else rows, fault.Fine?)
  }

  datatype RevokeResult = Revoked | NotFound | Error

  /** `UPDATE … WHERE id = ? AND revoked_at IS NULL` */
  function Revoke(rows: Rows, id: RowId, next: Option<RowId>, now: Time, fault: Fault): (r: (Rows, RevokeResult)) {
    if id !in rows || rows[id].Revoked() then (rows, if fault.Fine? then NotFound else Error) else
      (if fault.Applied() then rows[id := rows[id].(revokedAt := Some(now), replacedBy := next)] else rows,
       if fault.Fine? then RevokeResult.Revoked else Error)
  }

  function RevokeAll(rows: Rows, user: UserId, now: Time, fault: Fault): (r: Rows) {
    if !fault.Applied() then rows else
      map id | id in rows ::
        if rows[id].user == user && !rows[id].Revoked() then rows[id].(revokedAt := Some(now)) else rows[id]
  }

  /** No row goes away or changes hands, and what is revoked stays so. */
  ghost predicate Later(before: Rows, after: Rows) {
    forall id :: id in before ==>
      && id in after
      && after[id].user == before[id].user && after[id].token == before[id].token && after[id].expires == before[id].expires
      && (before[id].Revoked() ==> after[id] == before[id])
  }

  lemma LaterIsTransitive(a: Rows, b: Rows, c: Rows)
    requires Later(a, b) && Later(b, c)
    ensures Later(a, c)
  {
  }

  /** The table behind the repository. */
  class TokenRepository {
    var rows: Rows

    constructor ()
      ensures rows == map[]
    {
      rows := map[];
    }

    /** `Error` stands for a failed query. */
    method GetByHash(token: Token, ok: bool) returns (found: Option<RowId>, err: bool)
      requires Unique(rows)
      ensures err <==> !ok
      ensures ok ==> found == Find(rows, token)
    {
      found, err := None, !ok;
      if ok {
        if id :| id in rows && rows[id].token == token {
          FindIs(rows, id);
          found := Some(id);
        }
      }
    }

    method Insert(id: RowId, user: UserId, token: Token, expires: Time, fault: Fault) returns (ok: bool)
      modifies this
      ensures (rows, ok) == Create(old(rows), id, user, token, expires, fault)
    {
      if id in rows || exists r :: r in rows && rows[r].token == token {
        return false;
      }
      if fault.Applied() {
        rows := rows[id := Row(user, token, expires, None, None)];
      }
      ok := fault.Fine?;
    }

    method RevokeOne(id: RowId, next: Option<RowId>, now: Time, fault: Fault) returns (res: RevokeResult)
      modifies this
      ensures (rows, res) == Revoke(old(rows), id, next, now, fault)
    {
      if id !in rows || rows[id].Revoked() {
        return if fault.Fine? then NotFound else Error;
      }
      if fault.Applied() {
        rows := rows[id := rows[id].(revokedAt := Some(now), replacedBy := next)];
      }
      res := if fault.Fine? then RevokeResult.Revoked else Error;
    }

    method RevokeAllForUser(user: UserId, now: Time, fault: Fault) returns (err: bool)
      modifies this
      ensures rows == RevokeAll(old(rows), user, now, fault) && err == !fault.Fine?
    {
      err := !fault.Fine?;
      rows := RevokeAll(rows, user, now, fault);
    }
  }
}
