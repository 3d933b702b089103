/** Sequential runs of logins, refreshes and logouts, with failures at every statement. */
module AuthRuns {
  import opened TokenTable
  import opened AuthService

  datatype Auth = Auth(
    rows: Rows,
    now: Time,
    returned: set<RowId>,          // history: rows whose token was handed to a client
    root: map<RowId, RowId>,       // history: the login a row descends from
    born: map<RowId, nat>,         // history: the order in which rows were made
    count: nat
  )

  const INIT: Auth := Auth(map[], 0, {}, map[], map[], 0)

  datatype Step = DoLogin(user: UserId, env: Env) | DoRefresh(token: Token, env: Env) | DoLogout(token: Token, env: Env)

  /** Time does not go back.  Nobody can present a token that was never handed out, so a token that a client
      refreshes with was returned to one, or is in no row. */
  ghost predicate Can(s: Auth, step: Step) {
    && s.now <= step.env.now
    && (step.DoRefresh? ==> forall id :: id in s.rows && s.rows[id].token == step.token ==> id in s.returned)
  }

  ghost function Effect(s: Auth, step: Step): (Rows, Reply) {
    match step
    case DoLogin(user, env) => Issue(s.rows, user, env)
    case DoRefresh(token, env) => Refresh(s.rows, token, env)
    case DoLogout(token, env) => Logout(s.rows, token, env)
  }

  /** The lineage a row made by this step belongs to. */
  ghost function RootFor(s: Auth, step: Step): RowId {
    if step.DoRefresh? && Taken(s.rows, step.token) && Find(s.rows, step.token).value in s.root
    then s.root[Find(s.rows, step.token).value] else step.env.id
  }

  ghost function Do(s: Auth, step: Step): Auth {
    var (rows, reply) := Effect(s, step);
    var grown := Grown(s, rows, step.env.id, RootFor(s, step));
    grown.(now := step.env.now, returned := if reply.Pair? then s.returned + {reply.row} else s.returned)
  }

  /** The history of a table that may have got the row `id`. */
  ghost function Grown(s: Auth, rows: Rows, id: RowId, root: RowId): (r: Auth)
    ensures r.rows == rows && r.returned == s.returned
  {
    if id in rows && id !in s.rows
    then s.(rows := rows, root := s.root[id := root], born := s.born[id := s.count], count := s.count + 1)
    else s.(rows := rows)
  }

  ghost predicate Run(ss: seq<Auth>, steps: seq<Step>) {
    && |ss| == |steps| + 1
    && ss[0] == INIT
    && forall i :: 0 <= i < |steps| ==> Can(ss[i], steps[i]) && ss[i + 1] == Do(ss[i], steps[i])
  }

  // --- The invariant ------------------------------------------------------------------------------------------

  ghost predicate Known(rows: Rows, returned: set<RowId>, root: map<RowId, RowId>, born: map<RowId, nat>, count: nat) {
    && (forall id :: id in rows ==> id in root && root[id] in rows)
    && (forall id :: id in rows ==> id in born && born[id] < count)
    && (forall id :: id in returned ==> id in rows)
  }

  /** A row that was replaced is revoked, and points to a younger row of its own lineage. */
  ghost predicate Forward(rows: Rows, root: map<RowId, RowId>, born: map<RowId, nat>) {
    forall id :: id in rows && rows[id].replacedBy.Some? ==>
      rows[id].Revoked() && Younger(id, rows[id].replacedBy.value, root, born) && rows[id].replacedBy.value in rows
  }

  ghost predicate Younger(id: RowId, next: RowId, root: map<RowId, RowId>, born: map<RowId, nat>) {
    id in root && next in root && root[next] == root[id] && id in born && next in born && born[id] < born[next]
  }

  ghost predicate Injective(rows: Rows) {
    forall a, b :: a in rows && b in rows && rows[a].replacedBy.Some? && rows[a].replacedBy == rows[b].replacedBy ==> a == b
  }

  predicate Live(rows: Rows, returned: set<RowId>, id: RowId) {
    id in returned && id in rows && !rows[id].Revoked()
  }

  /** Each lineage has at most one token that a client holds and that is not revoked. */
  ghost predicate OneLive(rows: Rows, returned: set<RowId>, root: map<RowId, RowId>) {
    forall a, b :: Live(rows, returned, a) && Live(rows, returned, b) && a in root && b in root && root[a] == root[b] ==> a == b
  }

  ghost predicate Inv(s: Auth) {
    && Unique(s.rows)
    && Known(s.rows, s.returned, s.root, s.born, s.count)
    && Forward(s.rows, s.root, s.born)
    && Injective(s.rows)
    && OneLive(s.rows, s.returned, s.root)
  }

  // --- One statement at a time -----------------------------------------------------------------------------------

  lemma CreateKeeps(s: Auth, id: RowId, user: UserId, token: Token, expires: Time, root: RowId)
    requires Inv(s) && id !in s.rows && !Taken(s.rows, token) && (root in s.rows || root == id)
    ensures Inv(Grown(s, s.rows[id := Row(user, token, expires, None, None)], id, root))
  {
    hide Known, Forward, Injective, OneLive, Younger;
    var row := Row(user, token, expires, None, None);
    assert Unique(s.rows[id := row]);
    CreateKeepsKnown(s, id, row, root);
    CreateKeepsPointers(s, id, row, root);
    NotYetReturned(s, id);
    CreateKeepsLive(s.rows, s.returned, s.root, id, row, root);
  }

  lemma NotYetReturned(s: Auth, id: RowId)
    requires Inv(s) && id !in s.rows
    ensures id !in s.returned
  {
    hide Unique, Forward, Injective, OneLive;
  }

  lemma CreateKeepsKnown(s: Auth, id: RowId, row: Row, root: RowId)
    requires Known(s.rows, s.returned, s.root, s.born, s.count) && id !in s.rows && (root in s.rows || root == id)
    ensures Known(s.rows[id := row], s.returned, s.root[id := root], s.born[id := s.count], s.count + 1)
  {
  }

  lemma CreateKeepsPointers(s: Auth, id: RowId, row: Row, root: RowId)
    requires Forward(s.rows, s.root, s.born) && Injective(s.rows) && id !in s.rows && row.replacedBy.None?
    ensures Forward(s.rows[id := row], s.root[id := root], s.born[id := s.count]) && Injective(s.rows[id := row])
  {
    assert forall a, b :: a != id && b != id && Younger(a, b, s.root, s.born) ==> Younger(a, b, s.root[id := root], s.born[id := s.count]);
  }

  lemma CreateKeepsLive(rows: Rows, returned: set<RowId>, root: map<RowId, RowId>, id: RowId, row: Row, r: RowId)
    requires OneLive(rows, returned, root) && id !in returned
    ensures OneLive(rows[id := row], returned, root[id := r])
  {
    forall a | Live(rows[id := row], returned, a) ensures a != id && Live(rows, returned, a) {
    }
  }

  /** Marking rows as revoked. */
  ghost predicate Marked(rows: Rows, after: Rows) {
    && (forall id :: id in rows <==> id in after)
    && (forall id :: id in rows ==>
          after[id].token == rows[id].token && after[id].replacedBy == rows[id].replacedBy && (rows[id].Revoked() ==> after[id].Revoked()))
  }

  lemma MarkKeeps(s: Auth, after: Rows)
    requires Inv(s) && Marked(s.rows, after)
    ensures Inv(s.(rows := after))
  {
    hide Unique, Known, Forward, Injective, OneLive, Marked;
    MarkKeepsUnique(s.rows, after);
    MarkKeepsKnown(s, after);
    MarkKeepsPointers(s, after);
    MarkKeepsLive(s.rows, after, s.returned, s.root);
  }

  lemma MarkKeepsUnique(rows: Rows, after: Rows)
    requires Unique(rows) && Marked(rows, after)
    ensures Unique(after)
  {
  }

  lemma MarkKeepsKnown(s: Auth, after: Rows)
    requires Known(s.rows, s.returned, s.root, s.born, s.count) && Marked(s.rows, after)
    ensures Known(after, s.returned, s.root, s.born, s.count)
  {
  }

  lemma MarkKeepsPointers(s: Auth, after: Rows)
    requires Forward(s.rows, s.root, s.born) && Injective(s.rows) && Marked(s.rows, after)
    ensures Forward(after, s.root, s.born) && Injective(after)
  {
    hide Younger;
  }

  lemma MarkKeepsLive(rows: Rows, after: Rows, returned: set<RowId>, root: map<RowId, RowId>)
    requires OneLive(rows, returned, root) && Marked(rows, after)
    ensures OneLive(after, returned, root)
  {
    assert forall a :: Live(after, returned, a) ==> Live(rows, returned, a);
  }

  /** The old row of a rotation: it now points to a row that nothing pointed to. */
  lemma ReplaceKeeps(s: Auth, id: RowId, next: RowId, now: Time)
    requires Inv(s) && id in s.rows && next in s.rows && Younger(id, next, s.root, s.born)
    requires forall a :: a in s.rows ==> s.rows[a].replacedBy != Some(next)
    ensures Inv(s.(rows := s.rows[id := s.rows[id].(revokedAt := Some(now), replacedBy := Some(next))]))
  {
    hide Unique, Known, Forward, Injective, OneLive, Marked, Younger;
    var marked := s.rows[id := s.rows[id].(revokedAt := Some(now))];
    OneMarked(s.rows, id, now);
    MarkKeeps(s, marked);
    PointKeeps(s.(rows := marked), id, next);
    assert marked[id := marked[id].(replacedBy := Some(next))] == s.rows[id := s.rows[id].(revokedAt := Some(now), replacedBy := Some(next))];
  }

  lemma OneMarked(rows: Rows, id: RowId, now: Time)
    requires id in rows
    ensures Marked(rows, rows[id := rows[id].(revokedAt := Some(now))])
    ensures forall next: RowId :: (forall a :: a in rows ==> rows[a].replacedBy != Some(next)) ==>
              forall a :: a in rows ==> rows[id := rows[id].(revokedAt := Some(now))][a].replacedBy != Some(next)
  {
  }

  lemma PointKeeps(s: Auth, id: RowId, next: RowId)
    requires Inv(s) && id in s.rows && s.rows[id].Revoked() && next in s.rows && Younger(id, next, s.root, s.born)
    requires forall a :: a in s.rows ==> s.rows[a].replacedBy != Some(next)
    ensures Inv(s.(rows := s.rows[id := s.rows[id].(replacedBy := Some(next))]))
  {
    hide Unique, Known, Forward, Injective, OneLive, Younger;
    PointKeepsTable(s, id, next);
    PointKeepsPointers(s.rows, s.root, s.born, id, next);
  }

  lemma PointKeepsTable(s: Auth, id: RowId, next: RowId)
    requires Inv(s) && id in s.rows
    ensures var after := s.rows[id := s.rows[id].(replacedBy := Some(next))];
            && Unique(after) && Known(after, s.returned, s.root, s.born, s.count) && OneLive(after, s.returned, s.root)
  {
    hide Unique, Known, Forward, Injective, OneLive, Younger;
    var after := s.rows[id := s.rows[id].(replacedBy := Some(next))];
    PointKeepsUnique(s.rows, id, next);
    PointKeepsKnown(s, id, next);
    PointKeepsLive(s.rows, s.returned, s.root, id, next);
  }

  lemma PointKeepsUnique(rows: Rows, id: RowId, next: RowId)
    requires Unique(rows) && id in rows
    ensures Unique(rows[id := rows[id].(replacedBy := Some(next))])
  {
  }

  lemma PointKeepsKnown(s: Auth, id: RowId, next: RowId)
    requires Known(s.rows, s.returned, s.root, s.born, s.count) && id in s.rows
    ensures Known(s.rows[id := s.rows[id].(replacedBy := Some(next))], s.returned, s.root, s.born, s.count)
  {
  }

  lemma PointKeepsLive(rows: Rows, returned: set<RowId>, root: map<RowId, RowId>, id: RowId, next: RowId)
    requires OneLive(rows, returned, root) && id in rows
    ensures OneLive(rows[id := rows[id].(replacedBy := Some(next))], returned, root)
  {
    assert forall a :: Live(rows[id := rows[id].(replacedBy := Some(next))], returned, a) ==> Live(rows, returned, a);
  }

  lemma PointKeepsPointers(rows: Rows, root: map<RowId, RowId>, born: map<RowId, nat>, id: RowId, next: RowId)
    requires Forward(rows, root, born) && Injective(rows) && id in rows && rows[id].Revoked() && next in rows && Younger(id, next, root, born)
    requires forall a :: a in rows ==> rows[a].replacedBy != Some(next)
    ensures var after := rows[id := rows[id].(replacedBy := Some(next))]; Forward(after, root, born) && Injective(after)
  {
    hide Younger;
  }

  lemma ReturnKeeps(s: Auth, id: RowId)
    requires Inv(s) && id in s.rows && id in s.root
    requires forall a :: Live(s.rows, s.returned, a) && a in s.root && s.root[a] == s.root[id] ==> a == id
    ensures Inv(s.(returned := s.returned + {id}))
  {
    hide Forward, Injective, Unique, OneLive, Live, Known;
    ReturnKeepsKnown(s, id);
    ReturnKeepsLive(s.rows, s.returned, s.root, id);
  }

  lemma ReturnKeepsKnown(s: Auth, id: RowId)
    requires Known(s.rows, s.returned, s.root, s.born, s.count) && id in s.rows
    ensures Known(s.rows, s.returned + {id}, s.root, s.born, s.count)
  {
  }

  lemma ReturnKeepsLive(rows: Rows, returned: set<RowId>, root: map<RowId, RowId>, id: RowId)
    requires OneLive(rows, returned, root) && id in rows && id in root
    requires forall a :: Live(rows, returned, a) && a in root && root[a] == root[id] ==> a == id
    ensures OneLive(rows, returned + {id}, root)
  {
    assert forall a :: Live(rows, returned + {id}, a) ==> a == id || Live(rows, returned, a);
  }

  // --- The calls -------------------------------------------------------------------------------------------------

  lemma IssueKeeps(s: Auth, user: UserId, env: Env, root: RowId)
    requires Inv(s) && (root in s.rows || root == env.id)
    ensures Inv(Grown(s, Issue(s.rows, user, env).0, env.id, root))
  {
    hide Unique, Known, Forward, Injective, OneLive;
    if Issue(s.rows, user, env).0 != s.rows {
      CreateKeeps(s, env.id, user, env.token, env.expires, root);
    }
  }

  /** `id` is a new row of the lineage `root`: younger than all others, not revoked, and nobody points to it. */
  ghost predicate NewRow(s: Auth, r: Auth, id: RowId, root: RowId) {
    && id !in s.rows && id in r.rows && !r.rows[id].Revoked() && id in r.root && r.root[id] == root
    && (forall a :: a in s.rows ==> a in r.rows && r.rows[a] == s.rows[a])
    && (forall a :: a in s.rows ==> a in s.root && a in r.root && r.root[a] == s.root[a])
    && (forall a :: a in s.rows && a in s.root && s.root[a] == root ==> Younger(a, id, r.root, r.born))
    && (forall a :: a in r.rows ==> r.rows[a].replacedBy != Some(id))
  }

  lemma IssueMakes(s: Auth, user: UserId, env: Env, root: RowId)
    requires Inv(s) && Issue(s.rows, user, env).1.Pair?
    ensures Issue(s.rows, user, env).1 == Pair(env.id)
    ensures NewRow(s, Grown(s, Issue(s.rows, user, env).0, env.id, root), env.id, root)
  {
    hide Unique, Injective, OneLive, Known, Forward, NewRow;
    NewRowMade(s, env.id, Row(user, env.token, env.expires, None, None), root);
  }

  lemma NewRowMade(s: Auth, id: RowId, row: Row, root: RowId)
    requires Inv(s) && id !in s.rows && row.replacedBy.None? && !row.Revoked()
    ensures NewRow(s, Grown(s, s.rows[id := row], id, root), id, root)
  {
    hide Unique, Injective, OneLive, Known, Forward, Younger;
    HasRoot(s);
    Youngest(s, id, root);
    Unpointed(s, id);
  }

  lemma HasRoot(s: Auth)
    requires Inv(s)
    ensures forall a :: a in s.rows ==> a in s.root
  {
    hide Unique, Injective, OneLive, Forward;
  }

  lemma Youngest(s: Auth, id: RowId, root: RowId)
    requires Inv(s) && id !in s.rows
    ensures forall a :: a in s.rows && a in s.root && s.root[a] == root ==> Younger(a, id, s.root[id := root], s.born[id := s.count])
  {
    hide Unique, Injective, OneLive, Forward;
  }

  lemma Unpointed(s: Auth, id: RowId)
    requires Inv(s) && id !in s.rows
    ensures forall a :: a in s.rows ==> s.rows[a].replacedBy != Some(id)
  {
    hide Unique, Injective, OneLive, Known, Younger;
  }

  lemma LoginStep(s: Auth, user: UserId, env: Env)
    requires Inv(s)
    ensures Inv(Do(s, DoLogin(user, env)))
  {
    hide Unique, Known, Injective, Forward, OneLive, Issue, Grown;
    var r := Grown(s, Issue(s.rows, user, env).0, env.id, env.id);
    IssueKeeps(s, user, env, env.id);
    if Issue(s.rows, user, env).1.Pair? {
      IssueMakes(s, user, env, env.id);
      NewLineage(s, r, env.id);
      ReturnKeeps(r, env.id);
      SameInv(r.(returned := r.returned + {env.id}), Do(s, DoLogin(user, env)));
    } else {
      SameInv(r, Do(s, DoLogin(user, env)));
    }
  }

  lemma SameInv(a: Auth, b: Auth)
    requires Inv(a) && b == a.(now := b.now)
    ensures Inv(b)
  {
    hide Unique, Known, Injective, Forward, OneLive;
  }

  /** No earlier row belongs to a lineage that starts now. */
  lemma NewLineage(s: Auth, r: Auth, id: RowId)
    requires Inv(s) && id !in s.rows && r.returned == s.returned
    requires forall a :: a in s.rows ==> a in r.root && r.root[a] == s.root[a]
    ensures forall a :: Live(r.rows, r.returned, a) ==> a in r.root && r.root[a] != id
  {
    hide Unique, Injective, Forward, OneLive;
  }

  /** A rotation: the new row exists, and now the old one is to be revoked. */
  lemma RotateStep(s: Auth, token: Token, env: Env, id: RowId)
    requires Inv(s) && Can(s, DoRefresh(token, env))
    requires Find(s.rows, token) == Some(id) && !s.rows[id].Revoked() && id in s.root
    requires Issue(s.rows, s.rows[id].user, env).1.Pair?
    ensures var issued := Issue(s.rows, s.rows[id].user, env).0;
            var (after, res) := Revoke(issued, id, Some(env.id), env.now, env.revoke);
            var r := Grown(s, after, env.id, s.root[id]);
            Inv(r.(returned := if res.Revoked? then r.returned + {env.id} else r.returned))
  {
    hide Unique, Known, Injective, Forward, OneLive, Issue, Younger, Live;
    var issued := Issue(s.rows, s.rows[id].user, env).0;
    var root := s.root[id];
    InRoots(s, id);
    var g := Grown(s, issued, env.id, root);
    IssueKeeps(s, s.rows[id].user, env, root);
    IssueMakes(s, s.rows[id].user, env, root);
    if env.revoke.Applied() {
      ReplaceKeeps(g, id, env.id, env.now);
      OnlyLive(s, g, id, env.id, env.now);
      var after := issued[id := issued[id].(revokedAt := Some(env.now), replacedBy := Some(env.id))];
      if env.revoke.Fine? {
        ReturnKeeps(g.(rows := after), env.id);
      }
    }
  }

  lemma InRoots(s: Auth, id: RowId)
    requires Inv(s) && id in s.rows
    ensures id in s.root && s.root[id] in s.rows
  {
    hide Unique, Injective, OneLive, Forward;
  }

  /** Once the presented token is revoked, its lineage has no live token in clients' hands. */
  lemma OnlyLive(s: Auth, g: Auth, id: RowId, next: RowId, now: Time)
    requires Inv(s) && id in s.rows && id in s.returned && !s.rows[id].Revoked() && id in s.root
    requires NewRow(s, g, next, s.root[id]) && g.returned == s.returned && id in g.rows && next in g.root
    ensures var after := g.rows[id := g.rows[id].(revokedAt := Some(now), replacedBy := Some(next))];
            forall a :: Live(after, g.returned, a) && a in g.root ==> g.root[a] != g.root[next]
  {
    hide Inv, NewRow;
    var after := g.rows[id := g.rows[id].(revokedAt := Some(now), replacedBy := Some(next))];
    forall a | Live(after, g.returned, a) && a in g.root ensures g.root[a] != g.root[next] {
      NotLive(s, g, id, next, a);
    }
  }

  lemma NotLive(s: Auth, g: Auth, id: RowId, next: RowId, a: RowId)
    requires Inv(s) && Live(s.rows, s.returned, id) && id in s.root
    requires NewRow(s, g, next, s.root[id]) && g.returned == s.returned
    requires a in g.returned && a in g.rows && !g.rows[a].Revoked() && a != id && a in g.root
    ensures next in g.root && g.root[a] != g.root[next]
  {
    hide Unique, Known, Injective, Forward, Younger, NewRow;
    Kept(s, g, next, s.root[id], a);
  }

  lemma Kept(s: Auth, g: Auth, next: RowId, root: RowId, a: RowId)
    requires Inv(s) && NewRow(s, g, next, root) && a in s.returned
    ensures next in g.root && g.root[next] == root
    ensures a in s.rows && a in g.rows && g.rows[a] == s.rows[a] && a in s.root && a in g.root && g.root[a] == s.root[a]
  {
    hide Unique, Injective, Forward, OneLive, Younger;
  }

  lemma RefreshStep(s: Auth, token: Token, env: Env)
    requires Inv(s) && Can(s, DoRefresh(token, env))
    ensures Inv(Do(s, DoRefresh(token, env)))
  {
    hide Unique, Known, Injective, Forward, OneLive, Issue, RevokeAll, Marked;
    var step := DoRefresh(token, env);
    var found := Find(s.rows, token);
    if env.getOk && found.Some? {
      var id := found.value;
      var row := s.rows[id];
      InRoots(s, id);
      if row.Revoked() {
        AllMarked(s.rows, row.user, env.now, env.bulk);
        MarkKeeps(s, RevokeAll(s.rows, row.user, env.now, env.bulk));
        SameInv(s.(rows := RevokeAll(s.rows, row.user, env.now, env.bulk)), Do(s, step));
      } else if row.IsActive(env.now) && env.userOk {
        IssueKeeps(s, row.user, env, s.root[id]);
        if Issue(s.rows, row.user, env).1.Pair? {
          IssueMakes(s, row.user, env, s.root[id]);
          RotateStep(s, token, env, id);
          var (after, res) := Revoke(Issue(s.rows, row.user, env).0, id, Some(env.id), env.now, env.revoke);
          var r := Grown(s, after, env.id, s.root[id]);
          SameInv(r.(returned := if res.Revoked? then r.returned + {env.id} else r.returned), Do(s, step));
        } else {
          SameInv(Grown(s, Issue(s.rows, row.user, env).0, env.id, s.root[id]), Do(s, step));
        }
      } else {
        SameInv(s, Do(s, step));
      }
    } else {
      SameInv(s, Do(s, step));
    }
  }

  lemma AllMarked(rows: Rows, user: UserId, now: Time, fault: Fault)
    ensures Marked(rows, RevokeAll(rows, user, now, fault))
    ensures forall id :: id in RevokeAll(rows, user, now, fault) ==> id in rows
  {
  }

  lemma LogoutStep(s: Auth, token: Token, env: Env)
    requires Inv(s)
    ensures Inv(Do(s, DoLogout(token, env)))
  {
    hide Unique, Known, Injective, Forward, OneLive, Marked;
    var step := DoLogout(token, env);
    var after := Logout(s.rows, token, env).0;
    LoggedOut(s, token, env);
    MarkKeeps(s, after);
    SameInv(s.(rows := after), Do(s, step));
  }

  lemma LoggedOut(s: Auth, token: Token, env: Env)
    requires Inv(s)
    ensures Marked(s.rows, Logout(s.rows, token, env).0)
    ensures forall id :: id in Logout(s.rows, token, env).0 ==> id in s.rows
  {
    hide Unique, Known, Injective, OneLive, Younger;
  }

  lemma StepKeepsInv(s: Auth, step: Step)
    requires Inv(s) && Can(s, step)
    ensures Inv(Do(s, step))
  {
    hide Inv, Can, Do;
    match step
    case DoLogin(user, env) => LoginStep(s, user, env);
    case DoRefresh(token, env) => RefreshStep(s, token, env);
    case DoLogout(token, env) => LogoutStep(s, token, env);
  }

  // --- Runs ----------------------------------------------------------------------------------------------------------

  lemma {:induction false} RunKeepsInv(ss: seq<Auth>, steps: seq<Step>, i: nat)
    requires Run(ss, steps) && i < |ss|
    ensures Inv(ss[i])
  {
    hide Inv, Can, Do;
    if i == 0 {
      assert Inv(INIT) by { InitInv(); }
    } else {
      RunKeepsInv(ss, steps, i - 1);
      StepKeepsInv(ss[i - 1], steps[i - 1]);
    }
  }

  lemma InitInv()
    ensures Inv(INIT)
  {
  }

  lemma StepMovesForward(s: Auth, step: Step)
    ensures Later(s.rows, Do(s, step).rows)
  {
    hide Issue, Refresh, Logout;
    match step
    case DoLogin(user, env) => IssueMovesForward(s.rows, user, env);
    case DoRefresh(token, env) => RefreshMovesForward(s.rows, token, env);
    case DoLogout(token, env) => LogoutMovesForward(s.rows, token, env);
  }

  /** A revoked row never becomes live again, and never changes. */
  lemma {:induction false} RevokedStaysRevoked(ss: seq<Auth>, steps: seq<Step>, i: nat, j: nat)
    requires Run(ss, steps) && i <= j < |ss|
    ensures Later(ss[i].rows, ss[j].rows)
    decreases j
  {
    hide Inv, Can, Do, Later;
    if i == j {
      LaterSelf(ss[i].rows);
    } else {
      RevokedStaysRevoked(ss, steps, i, j - 1);
      StepMovesForward(ss[j - 1], steps[j - 1]);
      LaterIsTransitive(ss[i].rows, ss[j - 1].rows, ss[j].rows);
    }
  }

  lemma LaterSelf(rows: Rows)
    ensures Later(rows, rows)
  {
  }

  /** Following `replaced_by`. */
  ghost predicate Follows(rows: Rows, path: seq<RowId>) {
    forall i :: 0 <= i < |path| - 1 ==> path[i] in rows && rows[path[i]].replacedBy == Some(path[i + 1])
  }

  lemma {:induction false} PathAges(s: Auth, path: seq<RowId>, i: nat, j: nat)
    requires Inv(s) && Follows(s.rows, path) && i < j < |path|
    ensures Younger(path[i], path[j], s.root, s.born)
    decreases j
  {
    hide Unique, Known, Injective, OneLive;
    assert Younger(path[j - 1], path[j], s.root, s.born);
    if i < j - 1 {
      PathAges(s, path, i, j - 1);
    }
  }

  ghost predicate AllDifferent(path: seq<RowId>) {
    forall i, j :: 0 <= i < j < |path| ==> path[i] != path[j]
  }

  ghost predicate OneRoot(path: seq<RowId>, root: map<RowId, RowId>) {
    forall i, j :: 0 <= i < j < |path| ==> SameRoot(path[i], path[j], root)
  }

  ghost predicate SameRoot(a: RowId, b: RowId, root: map<RowId, RowId>) {
    a in root && b in root && root[a] == root[b]
  }

  /** In every run `replaced_by` is injective and acyclic, and stays within one lineage; and each lineage has at most
      one token that a client holds and that is not revoked, even after a Revoke that failed and left behind a row
      whose token nobody got. */
  lemma RotationLineage(ss: seq<Auth>, steps: seq<Step>, n: nat)
    requires Run(ss, steps) && n < |ss|
    ensures Injective(ss[n].rows)
    ensures forall path :: Follows(ss[n].rows, path) ==> AllDifferent(path) && OneRoot(path, ss[n].root)
    ensures OneLive(ss[n].rows, ss[n].returned, ss[n].root)
  {
    hide Can, Do, Unique, Known, Forward, Injective, OneLive, AllDifferent, OneRoot, Follows;
    RunKeepsInv(ss, steps, n);
    forall path | Follows(ss[n].rows, path) ensures AllDifferent(path) && OneRoot(path, ss[n].root) {
      PathIsSound(ss[n], path);
    }
  }

  lemma PathIsSound(s: Auth, path: seq<RowId>)
    requires Inv(s) && Follows(s.rows, path)
    ensures AllDifferent(path) && OneRoot(path, s.root)
  {
    hide Inv, Follows;
    forall i, j | 0 <= i < j < |path| ensures path[i] != path[j] && SameRoot(path[i], path[j], s.root) {
      PathAges(s, path, i, j);
    }
  }

  /** Who redeemed a token finds it revoked. */
  lemma RedeemedIsRevoked(s: Auth, token: Token, env: Env)
    requires Inv(s) && Refresh(s.rows, token, env).1.Pair?
    ensures exists id :: id in s.rows && s.rows[id].token == token
                         && id in Do(s, DoRefresh(token, env)).rows && Do(s, DoRefresh(token, env)).rows[id].Revoked()
  {
    hide Known, Forward, Injective, OneLive;
    RefreshSucceedsIff(s.rows, token, env);
    var id := Find(s.rows, token).value;
    assert Do(s, DoRefresh(token, env)).rows[id].Revoked();
  }

  /** A token is redeemed at most once. */
  lemma RedeemedOnce(ss: seq<Auth>, steps: seq<Step>, i: nat, j: nat)
    requires Run(ss, steps) && i < j < |steps| && steps[i].DoRefresh? && steps[j].DoRefresh? && steps[i].token == steps[j].token
    requires Effect(ss[i], steps[i]).1.Pair?
    ensures Effect(ss[j], steps[j]).1 == if steps[j].env.getOk then ErrTokenReuse else ErrInternal
  {
    hide Can, Do, Known, Forward, Injective, OneLive, Refresh;
    RunKeepsInv(ss, steps, i);
    RunKeepsInv(ss, steps, j);
    RedeemedIsRevoked(ss[i], steps[i].token, steps[i].env);
    var id :| id in ss[i].rows && ss[i].rows[id].token == steps[i].token && id in ss[i + 1].rows && ss[i + 1].rows[id].Revoked();
    StepMovesForward(ss[i], steps[i]);
    RevokedStaysRevoked(ss, steps, i + 1, j);
    Presented(ss[j].rows, id, steps[j].env);
  }

  lemma Presented(rows: Rows, id: RowId, env: Env)
    requires Unique(rows) && id in rows && rows[id].Revoked()
    ensures Refresh(rows, rows[id].token, env).1 == if env.getOk then ErrTokenReuse else ErrInternal
  {
    FindIs(rows, id);
  }

  /** Presenting a revoked token, when the bulk revoke goes through, ends the whole family: no token issued to that
      user before ever refreshes again. */
  lemma ReuseClosesFamily(ss: seq<Auth>, steps: seq<Step>, i: nat, j: nat, stolen: RowId, id: RowId)
    requires Run(ss, steps) && i < j < |steps| && steps[i].DoRefresh? && steps[j].DoRefresh?
    requires stolen in ss[i].rows && ss[i].rows[stolen].token == steps[i].token && ss[i].rows[stolen].Revoked()
    requires steps[i].env.getOk && steps[i].env.bulk.Applied()
    requires id in ss[i].rows && ss[i].rows[id].user == ss[i].rows[stolen].user && steps[j].token == ss[i].rows[id].token
    ensures Effect(ss[i], steps[i]).1 == ErrTokenReuse
    ensures Effect(ss[j], steps[j]).1 == if steps[j].env.getOk then ErrTokenReuse else ErrInternal
  {
    hide Can, Known, Forward, Injective, OneLive, Refresh;
    RunKeepsInv(ss, steps, i);
    RunKeepsInv(ss, steps, j);
    RevokedMeansReuse(ss[i].rows, stolen, steps[i].env);
    StepMovesForward(ss[i], steps[i]);
    RevokedStaysRevoked(ss, steps, i + 1, j);
    Presented(ss[j].rows, id, steps[j].env);
  }

  /** An expired token is never redeemed again. */
  lemma ExpiredStaysExpired(ss: seq<Auth>, steps: seq<Step>, i: nat, j: nat, id: RowId)
    requires Run(ss, steps) && i <= j < |steps| && steps[j].DoRefresh?
    requires id in ss[i].rows && ss[i].rows[id].expires <= ss[i].now && steps[j].token == ss[i].rows[id].token
    ensures !Effect(ss[j], steps[j]).1.Pair?
  {
    hide Do, Known, Forward, Injective, OneLive, Refresh;
    RunKeepsInv(ss, steps, j);
    RevokedStaysRevoked(ss, steps, i, j);
    TimePasses(ss, steps, i, j);
    FindIs(ss[j].rows, id);
    RefreshSucceedsIff(ss[j].rows, steps[j].token, steps[j].env);
  }

  lemma {:induction false} TimePasses(ss: seq<Auth>, steps: seq<Step>, i: nat, j: nat)
    requires Run(ss, steps) && i <= j < |ss|
    ensures ss[i].now <= ss[j].now
    decreases j
  {
    hide Effect, Grown;
    if i < j {
      TimePasses(ss, steps, i, j - 1);
      assert ss[j] == Do(ss[j - 1], steps[j - 1]);
    }
  }
}
