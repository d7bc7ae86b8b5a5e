/** The session cache statement by statement: the SELECT and SET of `ws_handler` (relay/src/lib.rs), the
    INSERT and SET of `login_handler`, the UPDATE and DEL of `logout_handler` and the DELETE of
    `delete_device` (api/src) interleave. A GET decides only about its own connection. */
module SessionStatements {
  import opened Models
  import opened KeyTables
  import opened SessionCache

  /** `filling` holds the handlers that have found or made a valid session and have not done their SET. */
  datatype Machine = Machine(
    sessions: map<DeviceId, Session>,
    issued: set<DeviceId>,
    cache: set<DeviceId>,
    filling: map<nat, DeviceId>)

  datatype Statement =
    | InsertSession(h: nat, user: User, id: DeviceId)
    | SelectSession(h: nat, id: DeviceId)
    | SetCache(h: nat, stored: bool)
    | UpdateSession(id: DeviceId)
    | DelCache(id: DeviceId, cleared: bool)
    | DeleteSession(id: DeviceId)
    | ExpireCache(id: DeviceId)

  predicate Possible(m: Machine, st: Statement) {
    match st
    case InsertSession(h, _, id) => h !in m.filling && id !in m.issued
    case SelectSession(h, _) => h !in m.filling
    case SetCache(h, _) => h in m.filling
    case _ => true
  }

  function Do(m: Machine, st: Statement): Machine
    requires Possible(m, st)
  {
    match st
    case InsertSession(h, user, id) =>
      m.(sessions := m.sessions[id := Session(user, true)], issued := m.issued + {id}, filling := m.filling[h := id])
    case SelectSession(h, id) =>
      if ValidSession(m.sessions, id) then m.(filling := m.filling[h := id]) else m
    case SetCache(h, stored) =>
      m.(cache := if stored then m.cache + {m.filling[h]} else m.cache, filling := m.filling - {h})
    case UpdateSession(id) =>
      if id in m.sessions then m.(sessions := m.sessions[id := m.sessions[id].(valid := false)]) else m
    case DelCache(id, cleared) => if cleared then m.(cache := m.cache - {id}) else m
    case DeleteSession(id) => m.(sessions := m.sessions - {id})
    case ExpireCache(id) => m.(cache := m.cache - {id})
  }

  ghost predicate IsRun(run: seq<Machine>, sts: seq<Statement>) {
    && |run| == |sts| + 1 && run[0] == Machine(map[], {}, {}, map[])
    && forall i | 0 <= i < |sts| :: Possible(run[i], sts[i]) && run[i + 1] == Do(run[i], sts[i])
  }

  /** A SET that puts the session into the cache. */
  predicate Fills(m: Machine, st: Statement, id: DeviceId) {
    st.SetCache? && st.stored && st.h in m.filling && m.filling[st.h] == id
  }

  /** A DEL that takes effect, or an expiry. */
  predicate Clears(st: Statement, id: DeviceId) {
    (st.DelCache? && st.cleared && st.id == id) || (st.ExpireCache? && st.id == id)
  }

  predicate Invalidates(m: Machine, st: Statement, id: DeviceId) {
    (st.UpdateSession? || st.DeleteSession?) && st.id == id && ValidSession(m.sessions, id)
  }

  /** A handler finds or makes the session valid. */
  predicate Begins(m: Machine, st: Statement, h: nat, id: DeviceId) {
    (st.InsertSession? && st.h == h && st.id == id)
      || (st.SelectSession? && st.h == h && st.id == id && ValidSession(m.sessions, id))
  }

  // ----- One statement ----------------------------------------------------------------------------------

  ghost predicate Known(m: Machine) {
    && (forall id | id in m.sessions :: id in m.issued)
    && (forall id | id in m.cache :: id in m.issued)
    && (forall h | h in m.filling :: m.filling[h] in m.issued)
  }

  lemma DoneOnce(m: Machine, st: Statement, id: DeviceId)
    requires Known(m) && Possible(m, st)
    ensures var next := Do(m, st);
            && Known(next)
            && (id in next.cache <==> Fills(m, st, id) || (id in m.cache && !Clears(st, id)))
            && (id in next.issued <==> id in m.issued || (st.InsertSession? && st.id == id))
            && (id in m.issued ==>
                  (ValidSession(next.sessions, id) <==> ValidSession(m.sessions, id) && !Invalidates(m, st, id)))
            && (st.InsertSession? && st.id == id ==> ValidSession(next.sessions, id))
  {
  }

  lemma FillingNext(m: Machine, st: Statement, h: nat, id: DeviceId)
    requires Possible(m, st)
    ensures var next := Do(m, st);
            (h in next.filling && next.filling[h] == id) <==>
              Begins(m, st, h, id) || (h in m.filling && m.filling[h] == id && !(st.SetCache? && st.h == h))
  {
  }

  // ----- Runs -------------------------------------------------------------------------------------------

  /** A SET has put the session into the cache, and nothing has cleared it since. */
  ghost predicate Cached(run: seq<Machine>, sts: seq<Statement>, n: nat, id: DeviceId)
    requires |run| == |sts| + 1 && n <= |sts|
  {
    exists m | 0 <= m < n :: Fills(run[m], sts[m], id) && NotCleared(sts, m, n, id)
  }

  ghost predicate NotCleared(sts: seq<Statement>, m: nat, n: nat, id: DeviceId)
    requires n <= |sts|
  {
    forall j | m < j < n :: !Clears(sts[j], id)
  }

  ghost predicate WasInvalidated(run: seq<Machine>, sts: seq<Statement>, n: nat, id: DeviceId)
    requires |run| == |sts| + 1 && n <= |sts|
  {
    exists p | 0 <= p < n :: Invalidates(run[p], sts[p], id)
  }

  lemma {:induction false} CachedIff(run: seq<Machine>, sts: seq<Statement>, n: nat, id: DeviceId)
    requires IsRun(run, sts) && n <= |sts|
    ensures Known(run[n])
    ensures id in run[n].cache <==> Cached(run, sts, n, id)
  {
    hide Do, Possible, Fills, Clears, Known;
    if n == 0 {
      KnownAtFirst(run[0]);
    } else {
      CachedIff(run, sts, n - 1, id);
      var m, st := run[n - 1], sts[n - 1];
      assert Possible(m, st) && run[n - 1 + 1] == Do(m, st);
      DoneOnce(m, st, id);
      if Fills(m, st, id) { assert NotCleared(sts, n - 1, n, id); }
      if Cached(run, sts, n - 1, id) && !Clears(st, id) {
        var k :| 0 <= k < n - 1 && Fills(run[k], sts[k], id) && NotCleared(sts, k, n - 1, id);
        assert NotCleared(sts, k, n, id);
      }
      if Cached(run, sts, n, id) && !Fills(m, st, id) {
        var k :| 0 <= k < n && Fills(run[k], sts[k], id) && NotCleared(sts, k, n, id);
        assert NotCleared(sts, k, n - 1, id) && !Clears(sts[n - 1], id);
      }
    }
  }

  lemma KnownAtFirst(m: Machine)
    requires m == Machine(map[], {}, {}, map[])
    ensures Known(m)
  {
  }

  lemma {:induction false} ValidIff(run: seq<Machine>, sts: seq<Statement>, n: nat, id: DeviceId)
    requires IsRun(run, sts) && n <= |sts|
    ensures ValidSession(run[n].sessions, id) <==> id in run[n].issued && !WasInvalidated(run, sts, n, id)
    ensures WasInvalidated(run, sts, n, id) ==> id in run[n].issued
  {
    hide Do, Possible, Fills, Clears, Known, Invalidates;
    if n > 0 {
      ValidIff(run, sts, n - 1, id);
      CachedIff(run, sts, n - 1, id);
      var m, st := run[n - 1], sts[n - 1];
      assert Possible(m, st) && run[n - 1 + 1] == Do(m, st);
      DoneOnce(m, st, id);
      InvalidatesIssued(m, st, id);
      if WasInvalidated(run, sts, n, id) && !Invalidates(m, st, id) {
        var p :| 0 <= p < n && Invalidates(run[p], sts[p], id);
        assert p < n - 1;
      }
    }
  }

  lemma InvalidatesIssued(m: Machine, st: Statement, id: DeviceId)
    requires Known(m) && Possible(m, st)
    ensures Invalidates(m, st, id) ==> id in m.issued && !st.InsertSession?
    ensures st.InsertSession? && st.id == id ==> id !in m.issued
  {
  }

  /** MAIN RESULT. A session is cached although it is not valid exactly when it has been invalidated, by a
      logout or a device deletion, and the last SET for it has not been cleared since. */
  lemma StaleIff(run: seq<Machine>, sts: seq<Statement>, n: nat, id: DeviceId)
    requires IsRun(run, sts) && n <= |sts|
    ensures id in run[n].cache && !ValidSession(run[n].sessions, id)
            <==> Cached(run, sts, n, id) && WasInvalidated(run, sts, n, id)
  {
    hide IsRun, Cached, WasInvalidated;
    CachedIff(run, sts, n, id);
    ValidIff(run, sts, n, id);
  }

  /** Handler `h` has begun at step `i` and done no SET before step `m`. */
  ghost predicate BegunAt(run: seq<Machine>, sts: seq<Statement>, i: nat, m: nat, h: nat, id: DeviceId)
    requires |run| == |sts| + 1 && m <= |sts|
  {
    i < m && Begins(run[i], sts[i], h, id) && forall j | i < j < m :: !(sts[j].SetCache? && sts[j].h == h)
  }

  ghost predicate Begun(run: seq<Machine>, sts: seq<Statement>, m: nat, h: nat, id: DeviceId)
    requires |run| == |sts| + 1 && m <= |sts|
  {
    exists i: nat :: BegunAt(run, sts, i, m, h, id)
  }

  lemma {:induction false} FillingIff(run: seq<Machine>, sts: seq<Statement>, m: nat, h: nat, id: DeviceId)
    requires IsRun(run, sts) && m <= |sts|
    ensures h in run[m].filling && run[m].filling[h] == id <==> Begun(run, sts, m, h, id)
  {
    hide Do, Possible, Begins;
    if m > 0 {
      FillingIff(run, sts, m - 1, h, id);
      assert Possible(run[m - 1], sts[m - 1]) && run[m - 1 + 1] == Do(run[m - 1], sts[m - 1]);
      FillingNext(run[m - 1], sts[m - 1], h, id);
      if Begins(run[m - 1], sts[m - 1], h, id) { assert BegunAt(run, sts, m - 1, m, h, id); }
      if Begun(run, sts, m - 1, h, id) && !(sts[m - 1].SetCache? && sts[m - 1].h == h) {
        var i: nat :| BegunAt(run, sts, i, m - 1, h, id);
        assert BegunAt(run, sts, i, m, h, id);
      }
      if Begun(run, sts, m, h, id) && !Begins(run[m - 1], sts[m - 1], h, id) {
        var i: nat :| BegunAt(run, sts, i, m, h, id);
        assert BegunAt(run, sts, i, m - 1, h, id);
      }
    }
  }

  /** A handler that began before step `p` does its SET after step `q`, and nothing clears it up to `n`. */
  ghost predicate LateFill(run: seq<Machine>, sts: seq<Statement>, p: nat, q: nat, n: nat, id: DeviceId, i: nat, m: nat)
    requires |run| == |sts| + 1 && n <= |sts|
  {
    && i < p && q < m < n && sts[m].SetCache? && sts[m].stored
    && BegunAt(run, sts, i, m, sts[m].h, id)
    && NotCleared(sts, m, n, id)
  }

  lemma {:induction false} StaysInvalid(run: seq<Machine>, sts: seq<Statement>, p: nat, k: nat, id: DeviceId)
    requires IsRun(run, sts) && p < k <= |sts| && sts[p] == UpdateSession(id) && id in run[p].issued
    ensures id in run[k].issued && !ValidSession(run[k].sessions, id)
    decreases k - p
  {
    hide Do, Possible, Cached, ValidSession;
    CachedIff(run, sts, k - 1, id);
    assert Possible(run[k - 1], sts[k - 1]) && run[k - 1 + 1] == Do(run[k - 1], sts[k - 1]);
    DoneOnce(run[k - 1], sts[k - 1], id);
    if p < k - 1 { StaysInvalid(run, sts, p, k - 1, id); }
  }

  /** MAIN RESULT. After the UPDATE and the DEL of a logout the session is in the cache again exactly when a
      login or a connection that found it valid before the UPDATE has done its SET after the DEL, and
      nothing has cleared it since. */
  lemma CachedAfterLogoutIff(run: seq<Machine>, sts: seq<Statement>, p: nat, q: nat, n: nat, id: DeviceId)
    requires IsRun(run, sts) && p < q < n <= |sts|
    requires sts[p] == UpdateSession(id) && id in run[p].issued && sts[q] == DelCache(id, true)
    ensures id in run[n].cache <==> exists i: nat, m: nat :: LateFill(run, sts, p, q, n, id, i, m)
  {
    hide Do, Possible, Begins;
    CachedIff(run, sts, n, id);
    if id in run[n].cache {
      var m :| 0 <= m < n && Fills(run[m], sts[m], id) && NotCleared(sts, m, n, id);
      assert q < m by { assert Clears(sts[q], id) && !sts[q].SetCache?; }
      FillingIff(run, sts, m, sts[m].h, id);
      var i: nat :| BegunAt(run, sts, i, m, sts[m].h, id);
      BegunBefore(run, sts, p, i, sts[m].h, id);
      assert LateFill(run, sts, p, q, n, id, i, m);
    }
    if i: nat, m: nat :| LateFill(run, sts, p, q, n, id, i, m) {
      FillingIff(run, sts, m, sts[m].h, id);
      assert Fills(run[m], sts[m], id);
    }
  }

  lemma BegunBefore(run: seq<Machine>, sts: seq<Statement>, p: nat, i: nat, h: nat, id: DeviceId)
    requires IsRun(run, sts) && p < |sts| && i < |sts| && sts[p] == UpdateSession(id) && id in run[p].issued
    requires Begins(run[i], sts[i], h, id)
    ensures i < p
  {
    assert Possible(run[i], sts[i]);
    if p < i { StaysInvalid(run, sts, p, i, id); }
  }
}
