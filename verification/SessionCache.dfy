/** The Redis session cache in front of the sessions table: filled by `login_handler`
    (api/src/lib.rs) and `ws_handler` (relay/src/lib.rs), cleared by `logout_handler`. */
module SessionCache {
  import opened Models
  import opened KeyTables

  datatype State = State(sessions: map<DeviceId, Session>, cache: map<DeviceId, string>)

  /** The flags tell whether the Redis command of that handler took effect: a GET that fails is
      read as a miss, and the result of a SET or DEL is ignored. */
  datatype Operation =
    | Login(user: User, id: DeviceId, stored: bool)
    | Connect(user: User, id: DeviceId, read: bool, stored: bool)
    | Expire(id: DeviceId)
    | Logout(id: DeviceId, cleared: bool)
    | DeleteDevice(id: DeviceId)

  predicate ValidSession(sessions: map<DeviceId, Session>, id: DeviceId) {
    id in sessions && sessions[id].valid
  }

  /** Whether the connection is admitted; false for the other operations. */
  function Admits(s: State, op: Operation): bool {
    op.Connect? && ((op.read && op.id in s.cache) || ValidSession(s.sessions, op.id))
  }

  function Step(s: State, op: Operation): State {
    match op
    case Login(user, id, stored) =>
      if id in s.sessions then s
      else State(s.sessions[id := Session(user, true)], if stored then s.cache[id := "valid"] else s.cache)
    case Connect(user, id, read, stored) =>
      if (read && id in s.cache) || !ValidSession(s.sessions, id) || !stored then s
      else s.(cache := s.cache[id := user])
    case Expire(id) => s.(cache := s.cache - {id})
    case Logout(id, cleared) =>
      State(if id in s.sessions then s.sessions[id := s.sessions[id].(valid := false)] else s.sessions,
            if cleared then s.cache - {id} else s.cache)
    case DeleteDevice(id) => s.(sessions := s.sessions - {id})
  }

  /** The operation caches its session: a new login or a connection admitted by the table, whose SET took
      effect. */
  predicate Caches(s: State, op: Operation) {
    || (op.Login? && op.stored && op.id !in s.sessions)
    || (op.Connect? && op.stored && !(op.read && op.id in s.cache) && ValidSession(s.sessions, op.id))
  }

  /** The operation removes its session's entry. */
  predicate Uncaches(op: Operation) {
    op.Expire? || (op.Logout? && op.cleared)
  }

  /** Which sessions are cached after an operation: those it caches, and those cached before that it does
      not remove; and what the table says of each session is up to logins, logouts and deletions. */
  lemma StepCaches(s: State, op: Operation, id: DeviceId)
    ensures id in Step(s, op).cache
            <==> ((op.id == id && Caches(s, op)) || (id in s.cache && !(op.id == id && Uncaches(op))))
    ensures op.id == id && Caches(s, op) ==> Step(s, op).cache[id] == if op.Login? then "valid" else op.user
    ensures id in Step(s, op).cache && !(op.id == id && Caches(s, op)) ==> Step(s, op).cache[id] == s.cache[id]
    ensures ValidSession(Step(s, op).sessions, id)
            <==> ((op.Login? && op.id == id && id !in s.sessions)
                  || (ValidSession(s.sessions, id) && !((op.Logout? || op.DeleteDevice?) && op.id == id)))
    ensures id in s.sessions && !(op.DeleteDevice? && op.id == id)
            ==> id in Step(s, op).sessions && Step(s, op).sessions[id].user == s.sessions[id].user
    ensures op.Login? && op.id == id && id !in s.sessions
            ==> id in Step(s, op).sessions && Step(s, op).sessions[id] == Session(op.user, true)
  {
  }

  /** Every cached session is valid in the table. */
  ghost predicate Agrees(s: State) {
    forall id | id in s.cache :: ValidSession(s.sessions, id)
  }

  /** A logout whose DEL fails on a cached session, or the deletion of a cached session's row. */
  predicate LeavesStale(s: State, op: Operation) {
    ((op.Logout? && !op.cleared) || op.DeleteDevice?) && op.id in s.cache
  }

  /** An operation keeps the cache in agreement exactly when it leaves no stale entry. */
  lemma StepAgreesIff(s: State, op: Operation)
    requires Agrees(s)
    ensures Agrees(Step(s, op)) <==> !LeavesStale(s, op)
  {
  }

  // ----- The reference: the sessions table alone ----------------------------------------------------

  function TableStep(sessions: map<DeviceId, Session>, op: Operation): map<DeviceId, Session> {
    match op
    case Login(user, id, _) => if id in sessions then sessions else sessions[id := Session(user, true)]
    case Logout(id, _) => if id in sessions then sessions[id := sessions[id].(valid := false)] else sessions
    case DeleteDevice(id) => sessions - {id}
    case _ => sessions
  }

  function TableDecisions(sessions: map<DeviceId, Session>, ops: seq<Operation>): seq<bool>
    decreases |ops|
  {
    if ops == [] then []
    else [ops[0].Connect? && ValidSession(sessions, ops[0].id)] + TableDecisions(TableStep(sessions, ops[0]), ops[1..])
  }

  function Decisions(s: State, ops: seq<Operation>): seq<bool>
    decreases |ops|
  {
    if ops == [] then [] else [Admits(s, ops[0])] + Decisions(Step(s, ops[0]), ops[1..])
  }

  /** No operation of the run leaves a stale entry. */
  predicate StaysFresh(s: State, ops: seq<Operation>)
    decreases |ops|
  {
    ops == [] || (!LeavesStale(s, ops[0]) && StaysFresh(Step(s, ops[0]), ops[1..]))
  }

  /** MAIN RESULT. Over every serial run in which no logout or device deletion leaves a stale entry, the
      cached check admits exactly the connections the sessions table alone would admit. */
  lemma {:induction false} CacheDecidesAsTable(s: State, ops: seq<Operation>)
    requires Agrees(s) && StaysFresh(s, ops)
    ensures Decisions(s, ops) == TableDecisions(s.sessions, ops)
    decreases |ops|
  {
    if ops != [] {
      StepAgreesIff(s, ops[0]);
      CacheDecidesAsTable(Step(s, ops[0]), ops[1..]);
    }
  }

  // ----- The handlers ---------------------------------------------------------------------------------

  class Service {
    var sessions: map<DeviceId, Session>
    var cache: map<DeviceId, string>

    function Contents(): State
      reads this
    {
      State(sessions, cache)
    }

    constructor ()
      ensures Contents() == State(map[], map[]) && Agrees(Contents())
    {
      sessions, cache := map[], map[];
    }

    /** A successful password check ends here: a session row, then its cache entry. */
    method LoginHandler(user: User, id: DeviceId, stored: bool) returns (ok: bool)
      modifies this
      ensures ok <==> id !in old(sessions)
      ensures ok ==> sessions == old(sessions)[id := Session(user, true)] && (stored ==> id in cache)
      ensures Contents() == Step(old(Contents()), Login(user, id, stored))
      ensures old(Agrees(Contents())) ==> Agrees(Contents())
    {
      if id in sessions { return false; }
      sessions := sessions[id := Session(user, true)];
      if stored {
        cache := cache[id := "valid"];
      }
      ok := true;
    }

    /** The check of a new connection: cache first, then the table, whose answer fills the cache. */
    method WsHandler(user: User, id: DeviceId, read: bool, stored: bool) returns (admitted: bool)
      modifies this`cache
      ensures Contents() == Step(old(Contents()), Connect(user, id, read, stored))
      ensures old(Agrees(Contents())) ==> Agrees(Contents()) && (admitted <==> ValidSession(sessions, id))
      ensures admitted && stored ==> id in cache
      ensures admitted == Admits(old(Contents()), Connect(user, id, read, stored))
    {
      if read && id in cache { return true; }
      if id !in sessions || !sessions[id].valid { return false; }
      if stored {
        cache := cache[id := user];
      }
      admitted := true;
    }

    method LogoutHandler(id: DeviceId, cleared: bool)
      modifies this
      ensures Contents() == Step(old(Contents()), Logout(id, cleared))
      ensures old(Agrees(Contents())) ==> (Agrees(Contents()) <==> cleared || id !in old(cache))
      ensures !ValidSession(sessions, id)
    {
      StepAgreesIfOld(Contents(), id, cleared);
      if id in sessions {
        sessions := sessions[id := sessions[id].(valid := false)];
      }
      if cleared {
        cache := cache - {id};
      }
    }

    static lemma StepAgreesIfOld(s: State, id: DeviceId, cleared: bool)
      ensures Agrees(s) ==> (Agrees(Step(s, Logout(id, cleared))) <==> cleared || id !in s.cache)
    {
    }
  }
}
