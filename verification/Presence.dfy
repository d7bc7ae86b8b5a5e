/** Presence (shared/src/repository.rs and relay/src/lib.rs): a Redis set of connection ids per
    user. Adding is SADD then SCARD, removing is SREM then SCARD, and only the last and the first
    connection publish. */
module Presence {
  import opened Models

  type ConnId = nat

  // ----- The repository -------------------------------------------------------------------------------

  class Repository {
    var online: map<User, set<ConnId>>

    function Members(user: User): set<ConnId>
      reads this
    {
      if user in online then online[user] else {}
    }

    constructor ()
      ensures forall user :: Members(user) == {}
    {
      online := map[];
    }

    /** Tells whether this is the user's first connection. */
    method AddConnection(user: User, conn: ConnId) returns (first: bool)
      modifies this
      ensures Members(user) == old(Members(user)) + {conn}
      ensures forall other | other != user :: Members(other) == old(Members(other))
      ensures first <==> old(Members(user)) == {}
    {
      var before := Members(user);
      var added := conn !in before;
      online := online[user := before + {conn}];
      var card := |Members(user)|;
      if added { AddedSize(before, conn); }
      first := added && card == 1;
    }

    /** Tells whether this was the user's last connection. */
    method RemoveConnection(user: User, conn: ConnId) returns (last: bool)
      modifies this
      ensures Members(user) == old(Members(user)) - {conn}
      ensures forall other | other != user :: Members(other) == old(Members(other))
      ensures last <==> old(Members(user)) == {conn}
    {
      var before := Members(user);
      var removed := conn in before;
      online := online[user := before - {conn}];
      var card := |Members(user)|;
      last := removed && card == 0;
      if last { assert before == {conn}; }
    }

    method IsOnline(user: User) returns (answer: bool)
      ensures answer <==> Members(user) != {}
    {
      answer := |Members(user)| > 0;
    }
  }

  // ----- One user, whole operations -----------------------------------------------------------------

  datatype Change = Add(conn: ConnId) | Remove(conn: ConnId)

  function Apply(members: set<ConnId>, c: Change): set<ConnId> {
    match c
    case Add(conn) => members + {conn}
    case Remove(conn) => members - {conn}
  }

  /** The update an operation publishes, if any: `Some(true)` for online. */
  function Published(members: set<ConnId>, c: Change): Option<bool> {
    match c
    case Add(conn) => if conn !in members && |members + {conn}| == 1 then Some(true) else None
    case Remove(conn) => if conn in members && |members - {conn}| == 0 then Some(false) else None
  }

  function Members(changes: seq<Change>): set<ConnId> {
    if changes == [] then {} else Apply(Members(changes[..|changes| - 1]), changes[|changes| - 1])
  }

  /** Everything published by a run of whole operations. */
  function Updates(changes: seq<Change>): seq<bool> {
    if changes == [] then []
    else
      var before := changes[..|changes| - 1];
      var update := Published(Members(before), changes[|changes| - 1]);
      Updates(before) + if update.Some? then [update.value] else []
  }

  lemma AddedSize(m: set<ConnId>, conn: ConnId)
    requires conn !in m
    ensures |m + {conn}| == 1 <==> m == {}
  {
  }

  /** An operation publishes exactly when the user comes or goes. */
  lemma PublishedIff(m: set<ConnId>, c: Change)
    ensures Published(m, c).Some? <==> (m == {} <==> Apply(m, c) != {})
    ensures Published(m, c).Some? ==> (Published(m, c).value <==> Apply(m, c) != {})
  {
  }

  /** MAIN RESULT. When each operation and its publish run as one step, a user's updates alternate
      starting with online, and the last one tells whether the user is online. */
  lemma {:induction false} UpdatesAlternate(changes: seq<Change>)
    ensures var updates := Updates(changes);
            && (updates != [] ==> updates[0])
            && (forall i | 0 < i < |updates| :: updates[i] != updates[i - 1])
            && (Members(changes) != {} <==> updates != [] && updates[|updates| - 1])
  {
    if changes != [] {
      var before, last := changes[..|changes| - 1], changes[|changes| - 1];
      UpdatesAlternate(before);
      PublishedIff(Members(before), last);
    }
  }

  // ----- One user, statement by statement -----------------------------------------------------------

  /** What a connection is doing: between its SADD and SCARD, before the PUBLISH of a "first" report,
      connected, between its SREM and SCARD, before the PUBLISH of a "last" report, or gone. `changed`
      is what SADD or SREM returned. */
  datatype Stage = Adding(changed: bool) | Announcing | Connected | Removing(changed: bool) | Departing | Gone

  /** What happened: members come and go, reports with the set they saw, and publishes. */
  datatype Event =
    | Added(conn: ConnId)
    | First(conn: ConnId, seen: set<ConnId>)
    | Removed(conn: ConnId)
    | Last(conn: ConnId, seen: set<ConnId>)
    | PublishedUpdate(online: bool)

  /** `added` and `removed` hold the positions in the log at which a connection came and went. */
  datatype State = State(
    members: set<ConnId>,
    stages: map<ConnId, Stage>,
    log: seq<Event>,
    added: map<ConnId, nat>,
    removed: map<ConnId, nat>)

  datatype Action =
    | Sadd(conn: ConnId)
    | ScardAfterAdd(conn: ConnId)
    | PublishOnline(conn: ConnId)
    | Srem(conn: ConnId)
    | ScardAfterRemove(conn: ConnId)
    | PublishOffline(conn: ConnId)

  predicate Enabled(s: State, a: Action) {
    match a
    case Sadd(conn) => conn !in s.stages
    case ScardAfterAdd(conn) => conn in s.stages && s.stages[conn].Adding?
    case PublishOnline(conn) => conn in s.stages && s.stages[conn].Announcing?
    case Srem(conn) => conn in s.stages && s.stages[conn].Connected?
    case ScardAfterRemove(conn) => conn in s.stages && s.stages[conn].Removing?
    case PublishOffline(conn) => conn in s.stages && s.stages[conn].Departing?
  }

  predicate ReportsFirst(s: State, conn: ConnId)
    requires Enabled(s, ScardAfterAdd(conn))
  {
    s.stages[conn].changed && |s.members| == 1
  }

  predicate ReportsLast(s: State, conn: ConnId)
    requires Enabled(s, ScardAfterRemove(conn))
  {
    s.stages[conn].changed && |s.members| == 0
  }

  function Next(s: State, a: Action): State
    requires Enabled(s, a)
  {
    match a
    case Sadd(conn) =>
      s.(members := s.members + {conn}, stages := s.stages[conn := Adding(conn !in s.members)],
         log := s.log + [Added(conn)], added := s.added[conn := |s.log|])
    case ScardAfterAdd(conn) =>
      if ReportsFirst(s, conn) then s.(stages := s.stages[conn := Announcing], log := s.log + [First(conn, s.members)])
      else s.(stages := s.stages[conn := Connected])
    case PublishOnline(conn) =>
      s.(stages := s.stages[conn := Connected], log := s.log + [PublishedUpdate(true)])
    case Srem(conn) =>
      if conn in s.members
      then s.(members := s.members - {conn}, stages := s.stages[conn := Removing(true)],
              log := s.log + [Removed(conn)], removed := s.removed[conn := |s.log|])
      else s.(stages := s.stages[conn := Removing(false)])
    case ScardAfterRemove(conn) =>
      if ReportsLast(s, conn) then s.(stages := s.stages[conn := Departing], log := s.log + [Last(conn, s.members)])
      else s.(stages := s.stages[conn := Gone])
    case PublishOffline(conn) =>
      s.(stages := s.stages[conn := Gone], log := s.log + [PublishedUpdate(false)])
  }

  ghost predicate Initial(s: State) {
    s == State({}, map[], [], map[], map[])
  }

  ghost predicate IsRun(run: seq<State>, actions: seq<Action>) {
    && |run| == |actions| + 1
    && forall i | 0 <= i < |actions| :: Enabled(run[i], actions[i]) && run[i + 1] == Next(run[i], actions[i])
  }

  // ----- The invariant --------------------------------------------------------------------------------

  /** Who has come and not gone is a member. */
  ghost predicate Times(s: State) {
    && (forall c :: c in s.added <==> c in s.stages)
    && (forall c | c in s.added :: s.added[c] < |s.log|)
    && (forall c | c in s.removed :: c in s.added && s.added[c] < s.removed[c] < |s.log|)
    && (forall c :: c in s.members <==> c in s.added && c !in s.removed)
  }

  ghost predicate CameThere(s: State, c: ConnId) {
    c in s.added && s.added[c] < |s.log| && s.log[s.added[c]] == Added(c)
  }

  ghost predicate LeftThere(s: State, c: ConnId) {
    c in s.removed && s.removed[c] < |s.log| && s.log[s.removed[c]] == Removed(c)
  }

  /** Comings and goings are where the log says. */
  ghost predicate ComingsLogged(s: State) {
    && (forall c {:trigger CameThere(s, c)} | c in s.added :: CameThere(s, c))
    && (forall i | 0 <= i < |s.log| && s.log[i].Added? :: CameAt(s, s.log[i].conn, i))
  }

  ghost predicate GoingsLogged(s: State) {
    && (forall c {:trigger LeftThere(s, c)} | c in s.removed :: LeftThere(s, c))
    && (forall i | 0 <= i < |s.log| && s.log[i].Removed? :: LeftAt(s, s.log[i].conn, i))
  }

  ghost predicate CameAt(s: State, c: ConnId, i: nat) { c in s.added && s.added[c] == i }

  ghost predicate LeftAt(s: State, c: ConnId, i: nat) { c in s.removed && s.removed[c] == i }

  ghost predicate StagesOk(s: State) {
    forall c | c in s.stages ::
      && (s.stages[c].Adding? || s.stages[c].Announcing? || s.stages[c].Connected? <==> c !in s.removed)
      && (s.stages[c].Adding? || s.stages[c].Removing? ==> s.stages[c].changed)
  }

  /** A "first" report saw its connection alone; it is removed only later, and before the next such
      report. */
  ghost predicate FirstsOk(s: State) {
    && (forall i | 0 <= i < |s.log| && s.log[i].First? ::
          var c := s.log[i].conn;
          s.log[i].seen == {c} && c in s.stages && !s.stages[c].Adding? && (c in s.removed ==> i < s.removed[c]))
    && (forall i, j | 0 <= i < j < |s.log| && s.log[i].First? && s.log[j].First? ::
          s.log[i].conn in s.removed && i < s.removed[s.log[i].conn] < j)
  }

  /** A "last" report saw nobody and follows its removal; whoever is there, or has gone, after it came
      after it. */
  ghost predicate LastsOk(s: State) {
    && (forall i | 0 <= i < |s.log| && s.log[i].Last? ::
          s.log[i].seen == {} && s.log[i].conn in s.removed && s.removed[s.log[i].conn] < i)
    && (forall i, c | 0 <= i < |s.log| && s.log[i].Last? && c in s.added
       && (c !in s.removed || i < s.removed[c]) :: i < s.added[c])
  }

  ghost predicate Inv(s: State) {
    Times(s) && StagesOk(s) && FirstsOk(s) && LastsOk(s)
  }

  lemma OnlyMember(members: set<ConnId>, conn: ConnId)
    requires conn in members && |members| == 1
    ensures members == {conn}
  {
    assert members == {conn} + (members - {conn});
  }

  /** In a state that satisfies the invariant an add reports "first" exactly when it is alone. */
  lemma ReportsFirstIff(s: State, conn: ConnId)
    requires Inv(s) && Enabled(s, ScardAfterAdd(conn))
    ensures ReportsFirst(s, conn) <==> s.members == {conn}
  {
    if ReportsFirst(s, conn) { OnlyMember(s.members, conn); }
  }

  lemma TimesKeep(s: State, a: Action)
    requires Times(s) && Enabled(s, a)
    ensures Times(Next(s, a))
  {
  }

  /** The entry an action appends says who has come or gone. */
  lemma EntryNext(s: State, a: Action)
    requires Times(s) && Enabled(s, a) && |Next(s, a).log| > |s.log|
    ensures var e := Next(s, a).log[|s.log|];
            && (e.Added? ==> e == Added(a.conn) && a.Sadd?)
            && (e.Removed? ==> e == Removed(a.conn) && a.Srem? && a.conn in s.members)
            && (e.Last? ==> a.ScardAfterRemove?)
  {
  }

  lemma ComingsKeep(s: State, a: Action)
    requires Times(s) && StagesOk(s) && ComingsLogged(s) && Enabled(s, a)
    ensures ComingsLogged(Next(s, a))
  {
    hide Next, Enabled, Times, StagesOk;
    var next := Next(s, a);
    PositionsStay(s, a);
    LogNext(s, a);
    NewEntries(s, a);
    forall c | c in next.added ensures CameThere(next, c) {
      if c in s.added { assert CameThere(s, c); }
    }
    forall i | 0 <= i < |next.log| && next.log[i].Added? ensures CameAt(next, next.log[i].conn, i) {
      if i < |s.log| { assert CameAt(s, s.log[i].conn, i); } else { EntryNext(s, a); }
    }
  }

  lemma GoingsKeep(s: State, a: Action)
    requires Times(s) && StagesOk(s) && GoingsLogged(s) && Enabled(s, a)
    ensures GoingsLogged(Next(s, a))
  {
    hide Next, Enabled, Times, StagesOk;
    var next := Next(s, a);
    PositionsStay(s, a);
    LogNext(s, a);
    NewEntries(s, a);
    forall c | c in next.removed ensures LeftThere(next, c) {
      if c in s.removed { assert LeftThere(s, c); }
    }
    forall i | 0 <= i < |next.log| && next.log[i].Removed? ensures LeftAt(next, next.log[i].conn, i) {
      if i < |s.log| { assert LeftAt(s, s.log[i].conn, i); } else { EntryNext(s, a); }
    }
  }

  lemma NewEntries(s: State, a: Action)
    requires Times(s) && Enabled(s, a)
    ensures var next := Next(s, a);
            && (forall c | c in next.added && c !in s.added ::
                  |next.log| == |s.log| + 1 && next.log[|s.log|] == Added(c))
            && (forall c | c in next.removed && c !in s.removed ::
                  |next.log| == |s.log| + 1 && next.log[|s.log|] == Removed(c))
            && (a.Sadd? ==> a.conn in next.added && next.added[a.conn] == |s.log|)
            && (a.Srem? && a.conn in s.members ==> a.conn in next.removed && next.removed[a.conn] == |s.log|)
  {
  }

  lemma StagesKeep(s: State, a: Action)
    requires Times(s) && StagesOk(s) && Enabled(s, a)
    ensures StagesOk(Next(s, a))
  {
  }

  /** What an action appends to the log, and when a report is made. */
  lemma LogNext(s: State, a: Action)
    requires Times(s) && StagesOk(s) && Enabled(s, a)
    ensures var next := Next(s, a);
            && |s.log| <= |next.log| <= |s.log| + 1 && (forall i | 0 <= i < |s.log| :: next.log[i] == s.log[i])
            && (|next.log| > |s.log| && next.log[|s.log|].First?
               ==> next.log[|s.log|] == First(a.conn, {a.conn}) && s.members == {a.conn} && s.stages[a.conn].Adding?)
            && (|next.log| > |s.log| && next.log[|s.log|].Last?
               ==> next.log[|s.log|] == Last(a.conn, {}) && s.members == {} && a.conn in s.removed)
  {
    if a.ScardAfterAdd? && ReportsFirst(s, a.conn) {
      assert a.conn in s.members;
      OnlyMember(s.members, a.conn);
    }
  }

  /** Positions of comings and goings, once given, stay; later ones are at the end. */
  lemma PositionsStay(s: State, a: Action)
    requires Times(s) && Enabled(s, a)
    ensures var next := Next(s, a);
            && (forall c | c in s.added :: c in next.added && next.added[c] == s.added[c])
            && (forall c | c in next.added && c !in s.added :: next.added[c] == |s.log| && c !in next.removed)
            && (forall c | c in s.removed :: c in next.removed && next.removed[c] == s.removed[c])
            && (forall c | c in next.removed && c !in s.removed :: next.removed[c] == |s.log| && c in s.members)
            && (forall c | c in s.stages :: c in next.stages && (!s.stages[c].Adding? ==> !next.stages[c].Adding?))
            && (a.ScardAfterAdd? ==> !next.stages[a.conn].Adding? && next.removed == s.removed)
            && (a.ScardAfterRemove? ==> next.added == s.added && next.removed == s.removed)
  {
  }

  lemma FirstsKeep(s: State, a: Action)
    requires Inv(s) && Enabled(s, a)
    ensures FirstsOk(Next(s, a))
  {
    hide LastsOk, Next, ReportsFirst, ReportsLast;
    LogNext(s, a);
    PositionsStay(s, a);
    var next := Next(s, a);
    forall i, j | 0 <= i < j < |next.log| && next.log[i].First? && next.log[j].First?
      ensures next.log[i].conn in next.removed && i < next.removed[next.log[i].conn] < j
    {
      if j == |s.log| {
        var c := s.log[i].conn;
        assert c != a.conn && c in s.stages && c !in s.members;
        assert s.removed[c] < |s.log|;
      }
    }
    FirstConn(s, a);
  }

  lemma FirstConn(s: State, a: Action)
    requires Inv(s) && Enabled(s, a)
    ensures var next := Next(s, a);
            forall i | 0 <= i < |next.log| && next.log[i].First? ::
              var c := next.log[i].conn;
              next.log[i].seen == {c} && c in next.stages && !next.stages[c].Adding?
                && (c in next.removed ==> i < next.removed[c])
  {
    hide LastsOk, Next, ReportsFirst, ReportsLast;
    LogNext(s, a);
    PositionsStay(s, a);
    if |Next(s, a).log| > |s.log| && Next(s, a).log[|s.log|].First? { FirstFromScard(s, a); }
  }

  lemma FirstFromScard(s: State, a: Action)
    requires Enabled(s, a) && |Next(s, a).log| > |s.log| && Next(s, a).log[|s.log|].First?
    ensures a.ScardAfterAdd?
  {
  }

  lemma LastsKeep(s: State, a: Action)
    requires Times(s) && StagesOk(s) && LastsOk(s) && Enabled(s, a)
    ensures LastsOk(Next(s, a))
  {
    hide Next, ReportsFirst, ReportsLast;
    LogNext(s, a);
    PositionsStay(s, a);
    TimesKeep(s, a);
    if |Next(s, a).log| > |s.log| { EntryNext(s, a); }
  }

  lemma StepKeeps(s: State, a: Action)
    requires Inv(s) && Enabled(s, a)
    ensures Inv(Next(s, a))
  {
    hide Next, Times, StagesOk, FirstsOk, LastsOk;
    TimesKeep(s, a);
    StagesKeep(s, a);
    FirstsKeep(s, a);
    LastsKeep(s, a);
  }

  lemma {:induction false} RunKeeps(run: seq<State>, actions: seq<Action>, n: nat)
    requires IsRun(run, actions) && Initial(run[0]) && n < |run|
    ensures Inv(run[n]) && ComingsLogged(run[n]) && GoingsLogged(run[n])
  {
    hide Next, Enabled, StagesOk, FirstsOk, LastsOk, Times;
    if n > 0 {
      RunKeeps(run, actions, n - 1);
      assert run[n - 1 + 1] == Next(run[n - 1], actions[n - 1]) && Enabled(run[n - 1], actions[n - 1]);
      StepKeeps(run[n - 1], actions[n - 1]);
      ComingsKeep(run[n - 1], actions[n - 1]);
      GoingsKeep(run[n - 1], actions[n - 1]);
    } else {
      AtFirst(run[0]);
    }
  }

  lemma AtFirst(s: State)
    requires Initial(s)
    ensures Inv(s) && ComingsLogged(s) && GoingsLogged(s)
  {
  }

  // ----- Edges ------------------------------------------------------------------------------------------

  /** MAIN RESULT. However the statements of many connections interleave, an add that reports
      "first" saw exactly its own id, and between two such reports the earlier one's connection
      was removed. */
  lemma FirstReports(run: seq<State>, actions: seq<Action>, n: nat)
    requires IsRun(run, actions) && Initial(run[0]) && n < |run|
    ensures var log := run[n].log;
            && (forall i | 0 <= i < |log| && log[i].First? :: log[i].seen == {log[i].conn})
            && (forall i, j | 0 <= i < j < |log| && log[i].First? && log[j].First? ::
                  exists k :: i < k < j && log[k] == Removed(log[i].conn))
  {
    RunKeeps(run, actions, n);
    var s := run[n];
    forall i, j | 0 <= i < j < |s.log| && s.log[i].First? && s.log[j].First?
      ensures exists k :: i < k < j && s.log[k] == Removed(s.log[i].conn)
    {
      assert LeftThere(s, s.log[i].conn);
    }
  }

  /** MAIN RESULT. A remove that reports "last" saw the empty set; and of two such reports the later
      one's connection came between them exactly when it also left between them. So without an add in
      between, the later one's SREM had come before the earlier report. */
  lemma LastReports(run: seq<State>, actions: seq<Action>, n: nat)
    requires IsRun(run, actions) && Initial(run[0]) && n < |run|
    ensures var log := run[n].log;
            && (forall i | 0 <= i < |log| && log[i].Last? :: log[i].seen == {})
            && (forall i, j | 0 <= i < j < |log| && log[i].Last? && log[j].Last? ::
                  (exists p :: i < p < j && log[p] == Added(log[j].conn))
                    <==> (exists q :: i < q < j && log[q] == Removed(log[j].conn)))
  {
    hide Times, StagesOk, FirstsOk, ComingsLogged, GoingsLogged, Initial, IsRun;
    RunKeeps(run, actions, n);
    var log := run[n].log;
    forall i, j | 0 <= i < j < |log| && log[i].Last? && log[j].Last?
      ensures (exists p :: i < p < j && log[p] == Added(log[j].conn))
              <==> (exists q :: i < q < j && log[q] == Removed(log[j].conn))
    {
      BetweenLasts(run[n], i, j);
    }
  }

  lemma BetweenLasts(s: State, i: nat, j: nat)
    requires Times(s) && LastsOk(s) && ComingsLogged(s) && GoingsLogged(s) && i < j < |s.log| && s.log[i].Last?
             && s.log[j].Last?
    ensures (exists p :: i < p < j && s.log[p] == Added(s.log[j].conn))
            <==> (exists q :: i < q < j && s.log[q] == Removed(s.log[j].conn))
  {
    var c := s.log[j].conn;
    assert c in s.removed && s.removed[c] < j && s.added[c] < s.removed[c];
    assert CameThere(s, c) && LeftThere(s, c);
    forall p | i < p < j && s.log[p] == Added(c) ensures i < s.removed[c] { assert CameAt(s, c, p); }
    forall q | i < q < j && s.log[q] == Removed(c) ensures i < s.added[c] { assert LeftAt(s, c, q); }
  }

  // ----- When an online period is announced -------------------------------------------------------------

  /** `conn` has come at some step from `m` on and not left since. */
  ghost predicate CameAndStayed(actions: seq<Action>, m: nat, n: nat, conn: ConnId)
    requires n <= |actions|
  {
    exists p | m <= p < n :: actions[p] == Sadd(conn) && forall q | p < q < n :: actions[q] != Srem(conn)
  }

  lemma MemberNext(s: State, a: Action, conn: ConnId)
    requires Enabled(s, a)
    ensures conn in Next(s, a).members <==> a == Sadd(conn) || (conn in s.members && a != Srem(conn))
    ensures conn in s.stages || a == Sadd(conn) ==> conn in Next(s, a).stages
  {
  }

  /** From an empty set on, the members are those who came and stayed. */
  lemma {:induction false} MembersSince(run: seq<State>, actions: seq<Action>, m: nat, n: nat, conn: ConnId)
    requires IsRun(run, actions) && m <= n < |run| && run[m].members == {}
    ensures conn in run[n].members <==> CameAndStayed(actions, m, n, conn)
    decreases n - m
  {
    hide Next, Enabled;
    if m < n {
      MembersSince(run, actions, m, n - 1, conn);
      var a := actions[n - 1];
      assert Enabled(run[n - 1], a) && run[n - 1 + 1] == Next(run[n - 1], a);
      MemberNext(run[n - 1], a, conn);
      if CameAndStayed(actions, m, n - 1, conn) && a != Srem(conn) {
        var p :| m <= p < n - 1 && actions[p] == Sadd(conn) && forall q | p < q < n - 1 :: actions[q] != Srem(conn);
        assert CameAndStayed(actions, m, n, conn);
      }
      if CameAndStayed(actions, m, n, conn) && a != Sadd(conn) {
        var p :| m <= p < n && actions[p] == Sadd(conn) && forall q | p < q < n :: actions[q] != Srem(conn);
        assert p < n - 1 && a != Srem(conn);
        assert CameAndStayed(actions, m, n - 1, conn);
      }
    }
  }

  /** Everyone but `conn` who has come from step `m` on has left again. */
  ghost predicate OthersLeft(actions: seq<Action>, m: nat, n: nat, conn: ConnId)
    requires n <= |actions|
  {
    forall p | m <= p < n && actions[p].Sadd? && actions[p].conn != conn :: LeftSince(actions, p, n, actions[p].conn)
  }

  /** Everyone who has come from step `m` on has left again. */
  ghost predicate AllLeft(actions: seq<Action>, m: nat, n: nat)
    requires n <= |actions|
  {
    forall p | m <= p < n && actions[p].Sadd? :: LeftSince(actions, p, n, actions[p].conn)
  }

  ghost predicate LeftSince(actions: seq<Action>, p: nat, n: nat, conn: ConnId)
    requires n <= |actions|
  {
    exists q | p < q < n :: actions[q] == Srem(conn)
  }

  /** From an empty set on, a connection that is no member has left after each of its comings. */
  lemma NoMemberLeft(run: seq<State>, actions: seq<Action>, m: nat, n: nat, p: nat)
    requires IsRun(run, actions) && m <= p < n <= |actions| && run[m].members == {}
    requires actions[p].Sadd? && actions[p].conn !in run[n].members
    ensures LeftSince(actions, p, n, actions[p].conn)
  {
    MembersSince(run, actions, m, n, actions[p].conn);
    if !LeftSince(actions, p, n, actions[p].conn) { assert CameAndStayed(actions, m, n, actions[p].conn); }
  }

  lemma MemberNotLeft(run: seq<State>, actions: seq<Action>, m: nat, n: nat, conn: ConnId) returns (p: nat)
    requires IsRun(run, actions) && m <= n <= |actions| && run[m].members == {} && conn in run[n].members
    ensures m <= p < n && actions[p] == Sadd(conn) && !LeftSince(actions, p, n, conn)
  {
    MembersSince(run, actions, m, n, conn);
    p :| m <= p < n && actions[p] == Sadd(conn) && forall q | p < q < n :: actions[q] != Srem(conn);
  }

  /** MAIN RESULT. The SCARD of any add reports "first" exactly when everyone else who has come since the
      set was last seen empty, at step `m` (from the start: step 0), has left again. */
  lemma AddReportsIff(run: seq<State>, actions: seq<Action>, m: nat, n: nat, conn: ConnId)
    requires IsRun(run, actions) && Initial(run[0]) && m <= n < |actions|
    requires run[m].members == {} && actions[n] == ScardAfterAdd(conn)
    ensures Enabled(run[n], actions[n])
    ensures ReportsFirst(run[n], conn) <==> OthersLeft(actions, m, n, conn)
  {
    hide Next, Inv, LeftSince;
    RunKeeps(run, actions, n);
    assert Enabled(run[n], actions[n]);
    ReportsFirstIff(run[n], conn);
    AddingIsMember(run[n], conn);
    if run[n].members == {conn} {
      forall p | m <= p < n && actions[p].Sadd? && actions[p].conn != conn
        ensures LeftSince(actions, p, n, actions[p].conn) {
        NoMemberLeft(run, actions, m, n, p);
      }
    } else {
      var d :| d in run[n].members && d != conn;
      var p := MemberNotLeft(run, actions, m, n, d);
      assert actions[p].Sadd? && actions[p].conn == d;
    }
  }

  /** MAIN RESULT. The SCARD of any remove reports "last" exactly when everyone who has come since the set
      was last seen empty, at step `m` (from the start: step 0), has left again. */
  lemma RemoveReportsIff(run: seq<State>, actions: seq<Action>, m: nat, n: nat, conn: ConnId)
    requires IsRun(run, actions) && Initial(run[0]) && m <= n < |actions|
    requires run[m].members == {} && actions[n] == ScardAfterRemove(conn)
    ensures Enabled(run[n], actions[n])
    ensures ReportsLast(run[n], conn) <==> AllLeft(actions, m, n)
  {
    hide Next, Inv, LeftSince;
    RunKeeps(run, actions, n);
    assert Enabled(run[n], actions[n]);
    ReportsLastIff(run[n], conn);
    if run[n].members == {} {
      forall p | m <= p < n && actions[p].Sadd? ensures LeftSince(actions, p, n, actions[p].conn) {
        NoMemberLeft(run, actions, m, n, p);
      }
    } else {
      var d :| d in run[n].members;
      var p := MemberNotLeft(run, actions, m, n, d);
      assert actions[p].Sadd? && actions[p].conn == d;
    }
  }

  lemma ReportsLastIff(s: State, conn: ConnId)
    requires Inv(s) && Enabled(s, ScardAfterRemove(conn))
    ensures ReportsLast(s, conn) <==> s.members == {}
  {
  }

  /** The SADD at step `m` takes the set from empty, and nobody has taken it back to empty up to `e`. */
  ghost predicate OnlinePeriod(run: seq<State>, actions: seq<Action>, m: nat, e: nat)
    requires |run| == |actions| + 1 && e <= |actions|
  {
    m < e && actions[m].Sadd? && run[m].members == {} && forall k | m < k <= e :: run[k].members != {}
  }

  /** Some SCARD of the period reports "first". */
  ghost predicate Announced(run: seq<State>, actions: seq<Action>, m: nat, e: nat)
    requires IsRun(run, actions) && e <= |actions|
  {
    exists n | m <= n < e :: FirstAt(run, actions, n)
  }

  ghost predicate FirstAt(run: seq<State>, actions: seq<Action>, n: nat)
    requires IsRun(run, actions) && n < |actions|
  {
    actions[n].ScardAfterAdd? && Enabled(run[n], actions[n]) && ReportsFirst(run[n], actions[n].conn)
  }

  /** An add does its SCARD at step `n` when all others of the period have left. */
  ghost predicate AloneAt(actions: seq<Action>, m: nat, n: nat)
    requires n < |actions|
  {
    actions[n].ScardAfterAdd? && OthersLeft(actions, m, n, actions[n].conn)
  }

  /** MAIN RESULT. An online period is announced exactly when some add of it does its SCARD when all others
      that have come in it have left again. */
  lemma PeriodAnnouncedIff(run: seq<State>, actions: seq<Action>, m: nat, e: nat)
    requires IsRun(run, actions) && Initial(run[0]) && e <= |actions| && OnlinePeriod(run, actions, m, e)
    ensures Announced(run, actions, m, e) <==> exists n | m <= n < e :: AloneAt(actions, m, n)
  {
    hide Next, Enabled, ReportsFirst, OthersLeft, IsRun, Initial;
    forall n | m <= n < e ensures FirstAt(run, actions, n) <==> AloneAt(actions, m, n) {
      if actions[n].ScardAfterAdd? { AddReportsIff(run, actions, m, n, actions[n].conn); }
    }
  }

  // ----- When a leaving is reported twice ---------------------------------------------------------------

  /** No SADD from step `n` up to step `m`. */
  predicate NoneAdded(actions: seq<Action>, n: nat, m: nat)
    requires m <= |actions|
  {
    forall k | n <= k < m :: !actions[k].Sadd?
  }

  /** From an empty set on, it stays empty without an SADD, and nobody starts to leave. */
  lemma {:induction false} StaysEmpty(run: seq<State>, actions: seq<Action>, n: nat, m: nat)
    requires IsRun(run, actions) && Initial(run[0]) && n <= m <= |actions| && run[n].members == {}
             && NoneAdded(actions, n, m)
    ensures run[m].members == {}
    ensures forall c | c in run[m].stages && run[m].stages[c].Removing? ::
              c in run[n].stages && run[n].stages[c].Removing?
    decreases m - n
  {
    hide Next, Enabled;
    if n < m {
      StaysEmpty(run, actions, n, m - 1);
      RunKeeps(run, actions, m - 1);
      assert Enabled(run[m - 1], actions[m - 1]) && run[m - 1 + 1] == Next(run[m - 1], actions[m - 1]);
      NobodyLeaves(run[m - 1], actions[m - 1]);
    }
  }

  lemma NobodyLeaves(s: State, a: Action)
    requires Inv(s) && Enabled(s, a) && s.members == {} && !a.Sadd?
    ensures var next := Next(s, a);
            && next.members == {}
            && forall c | c in next.stages && next.stages[c].Removing? :: c in s.stages && s.stages[c].Removing?
  {
    hide FirstsOk, LastsOk;
  }

  ghost predicate LastAt(run: seq<State>, actions: seq<Action>, n: nat)
    requires IsRun(run, actions) && n < |actions|
  {
    actions[n].ScardAfterRemove? && Enabled(run[n], actions[n]) && ReportsLast(run[n], actions[n].conn)
  }

  /** A remove past its SREM at step `n`, other than that of step `n`, does its SCARD at `m` before the next SADD. */
  ghost predicate SecondRemove(run: seq<State>, actions: seq<Action>, n: nat, m: nat)
    requires |run| == |actions| + 1 && n < m < |actions|
  {
    && actions[m].ScardAfterRemove? && NoneAdded(actions, n, m)
    && actions[m].conn in run[n].stages && run[n].stages[actions[m].conn].Removing?
       && actions[m].conn != actions[n].conn
  }

  lemma ReportsAgain(run: seq<State>, actions: seq<Action>, n: nat, m: nat)
    requires IsRun(run, actions) && Initial(run[0]) && n < m < |actions| && LastAt(run, actions, n)
    ensures LastAt(run, actions, m) && NoneAdded(actions, n, m) <==> SecondRemove(run, actions, n, m)
  {
    hide Next, Inv;
    RunKeeps(run, actions, n);
    RunKeeps(run, actions, m);
    ReportsLastIff(run[n], actions[n].conn);
    assert Enabled(run[m], actions[m]) && run[n + 1] == Next(run[n], actions[n]);
    if actions[m].ScardAfterRemove? && NoneAdded(actions, n, m) {
      StaysEmpty(run, actions, n, m);
      ReportsLastIff(run[m], actions[m].conn);
      NowDeparting(run[n], actions[n].conn);
      StaysEmpty(run, actions, n + 1, m);
    }
  }

  lemma NowDeparting(s: State, conn: ConnId)
    requires Enabled(s, ScardAfterRemove(conn)) && s.members == {}
    ensures var next := Next(s, ScardAfterRemove(conn));
            next.members == {} && conn in next.stages && !next.stages[conn].Removing?
  {
  }

  /** MAIN RESULT. A leaving that is reported at step `n` is reported again before the next SADD exactly
      when a second remove that was past its SREM does its SCARD before the next SADD. */
  lemma ReportedTwiceIff(run: seq<State>, actions: seq<Action>, n: nat)
    requires IsRun(run, actions) && Initial(run[0]) && n < |actions| && LastAt(run, actions, n)
    ensures (exists m | n < m < |actions| :: LastAt(run, actions, m) && NoneAdded(actions, n, m))
            <==> (exists m | n < m < |actions| :: SecondRemove(run, actions, n, m))
  {
    hide LastAt, SecondRemove, NoneAdded, Next, Enabled, Initial;
    forall m | n < m < |actions|
      ensures LastAt(run, actions, m) && NoneAdded(actions, n, m) <==> SecondRemove(run, actions, n, m)
    {
      ReportsAgain(run, actions, n, m);
    }
  }

  lemma AddingIsMember(s: State, conn: ConnId)
    requires Inv(s) && Enabled(s, ScardAfterAdd(conn))
    ensures conn in s.members
  {
  }

  // ----- When updates alternate -------------------------------------------------------------------------

  /** The updates published so far. */
  function Publications(log: seq<Event>): seq<bool> {
    if log == [] then []
    else
      var before, last := Publications(log[..|log| - 1]), log[|log| - 1];
      if last.PublishedUpdate? then before + [last.online] else before
  }

  predicate Alternates(updates: seq<bool>) {
    && (updates != [] ==> updates[0])
    && (forall i | 0 < i < |updates| :: updates[i] != updates[i - 1])
  }

  predicate SaysOnline(log: seq<Event>) {
    var updates := Publications(log);
    updates != [] && updates[|updates| - 1]
  }

  predicate Settled(stage: Stage) {
    stage.Connected? || stage.Gone?
  }

  /** Nobody is in the middle of an operation. */
  ghost predicate Quiet(s: State) {
    forall c | c in s.stages :: Settled(s.stages[c])
  }

  /** An operation begins only when nobody is in the middle of one. */
  ghost predicate OneAtATime(s: State, a: Action) {
    a.Sadd? || a.Srem? ==> Quiet(s)
  }

  /** At most one connection is in the middle of an operation, and the last update says what was so
      before it. */
  ghost predicate Serial(s: State) {
    && Alternates(Publications(s.log))
    && (Quiet(s) ==> (SaysOnline(s.log) <==> s.members != {}))
    && (forall c | c in s.stages && !Settled(s.stages[c]) ::
          && (forall d | d in s.stages && d != c :: Settled(s.stages[d]))
          && match s.stages[c]
             case Adding(_) => SaysOnline(s.log) <==> s.members - {c} != {}
             case Announcing => s.members == {c} && !SaysOnline(s.log)
             case Removing(_) => SaysOnline(s.log)
             case Departing => s.members == {} && SaysOnline(s.log)
             case _ => true)
  }

  lemma PublicationsSnoc(log: seq<Event>, e: Event)
    ensures Publications(log + [e]) == if e.PublishedUpdate? then Publications(log) + [e.online] else Publications(log)
  {
    assert (log + [e])[..|log|] == log;
  }

  lemma SerialBegin(s: State, a: Action)
    requires Inv(s) && Serial(s) && Enabled(s, a) && (a.Sadd? || a.Srem?) && Quiet(s)
    ensures Serial(Next(s, a))
  {
    hide Publications, FirstsOk, LastsOk;
    var next := Next(s, a);
    if next.log != s.log { PublicationsSnoc(s.log, next.log[|s.log|]); }
    if a.Sadd? { assert next.members - {a.conn} == s.members; }
    assert !Settled(next.stages[a.conn]);
  }

  lemma SerialAdded(s: State, conn: ConnId)
    requires Inv(s) && Serial(s) && Enabled(s, ScardAfterAdd(conn))
    ensures Serial(Next(s, ScardAfterAdd(conn)))
  {
    hide Publications, FirstsOk, LastsOk;
    var next := Next(s, ScardAfterAdd(conn));
    if next.log != s.log { PublicationsSnoc(s.log, next.log[|s.log|]); }
    ReportsFirstIff(s, conn) by { assert Inv(s); }
    AddingIsMember(s, conn);
    assert s.members == {conn} <==> s.members - {conn} == {};
    assert !Settled(s.stages[conn]) && (SaysOnline(s.log) <==> s.members - {conn} != {});
    if ReportsFirst(s, conn) { assert !Settled(next.stages[conn]); }
  }

  lemma SerialRemoved(s: State, conn: ConnId)
    requires Inv(s) && Serial(s) && Enabled(s, ScardAfterRemove(conn))
    ensures Serial(Next(s, ScardAfterRemove(conn)))
  {
    hide Publications, FirstsOk, LastsOk;
    var next := Next(s, ScardAfterRemove(conn));
    if next.log != s.log { PublicationsSnoc(s.log, next.log[|s.log|]); }
    assert !Settled(s.stages[conn]) && SaysOnline(s.log);
    if ReportsLast(s, conn) { assert !Settled(next.stages[conn]) && s.members == {}; }
  }

  lemma SerialPublish(s: State, a: Action)
    requires Inv(s) && Serial(s) && Enabled(s, a) && (a.PublishOnline? || a.PublishOffline?)
    ensures Serial(Next(s, a))
  {
    hide Publications, FirstsOk, LastsOk;
    var next := Next(s, a);
    PublicationsSnoc(s.log, next.log[|s.log|]);
    assert !Settled(s.stages[a.conn]) && (SaysOnline(s.log) <==> a.PublishOffline?);
  }

  lemma SerialStep(s: State, a: Action)
    requires Inv(s) && Serial(s) && Enabled(s, a) && OneAtATime(s, a)
    ensures Serial(Next(s, a))
  {
    hide Serial, Inv, Next;
    match a
    case ScardAfterAdd(conn) => SerialAdded(s, conn);
    case ScardAfterRemove(conn) => SerialRemoved(s, conn);
    case PublishOnline(_) => SerialPublish(s, a);
    case PublishOffline(_) => SerialPublish(s, a);
    case _ => SerialBegin(s, a);
  }

  /** MAIN RESULT. When operations do not overlap, publishes included, a user's updates alternate
      starting with online, and with nobody in the middle of one the last update tells whether the
      user is online. */
  lemma {:induction false} SerialAlternates(run: seq<State>, actions: seq<Action>, n: nat)
    requires IsRun(run, actions) && Initial(run[0]) && n < |run|
    requires forall m | 0 <= m < n :: OneAtATime(run[m], actions[m])
    ensures Serial(run[n])
    ensures Alternates(Publications(run[n].log))
            && (Quiet(run[n]) ==> (SaysOnline(run[n].log) <==> run[n].members != {}))
  {
    hide Next, Inv, OneAtATime;
    if n > 0 {
      SerialAlternates(run, actions, n - 1);
      RunKeeps(run, actions, n - 1);
      assert run[n - 1 + 1] == Next(run[n - 1], actions[n - 1]) && Enabled(run[n - 1], actions[n - 1]);
      SerialStep(run[n - 1], actions[n - 1]);
    }
  }

  // ----- Where overlapping operations break it --------------------------------------------------------------

  /** Two adds whose SADDs both precede their SCARDs leave the user online, with nobody in the middle of
      an operation, and nothing published. */
  lemma OnlineUnannounced() returns (run: seq<State>, actions: seq<Action>)
    ensures IsRun(run, actions) && Initial(run[0]) && |actions| == 4
    ensures run[4] == State({1, 2}, map[1 := Connected, 2 := Connected], [Added(1), Added(2)], map[1 := 0, 2 := 1],
            map[])
    ensures Quiet(run[4]) && run[4].members != {} && Publications(run[4].log) == []
  {
    var s0 := State({}, map[], [], map[], map[]);
    var s1 := Next(s0, Sadd(1));
    var s2 := Next(s1, Sadd(2));
    assert s2.members == {1, 2};
    var s3 := Next(s2, ScardAfterAdd(1));
    var s4 := Next(s3, ScardAfterAdd(2));
    run, actions := [s0, s1, s2, s3, s4], [Sadd(1), Sadd(2), ScardAfterAdd(1), ScardAfterAdd(2)];
    NoPublications([Added(1), Added(2)]);
  }

  lemma {:induction false} NoPublications(log: seq<Event>)
    requires forall e | e in log :: !e.PublishedUpdate?
    ensures Publications(log) == []
  {
    if log != [] { NoPublications(log[..|log| - 1]); }
  }

  /** Two removes whose SREMs both precede their SCARDs then report "last" twice and publish twice: the
      updates of this run do not alternate. */
  lemma OfflineTwice() returns (run: seq<State>, actions: seq<Action>)
    ensures IsRun(run, actions) && Initial(run[0]) && |actions| == 10
    ensures run[10].log == [Added(1), Added(2), Removed(1), Removed(2), Last(1, {}), Last(2, {})]
                           + [PublishedUpdate(false), PublishedUpdate(false)]
    ensures Publications(run[10].log) == [false, false]
  {
    var online, adds := OnlineUnannounced();
    var removals := RemovedTogether(online[4]);
    hide Next, Enabled;
    run := online + removals[1..];
    actions := adds + [Srem(1), Srem(2), ScardAfterRemove(1), ScardAfterRemove(2), PublishOffline(1),
      PublishOffline(2)];
    forall i | 0 <= i < 10 ensures Enabled(run[i], actions[i]) && run[i + 1] == Next(run[i], actions[i]) {
      if i >= 4 { assert run[i] == removals[i - 4] && run[i + 1] == removals[i - 3]; }
    }
    var log := [Added(1), Added(2), Removed(1), Removed(2), Last(1, {}), Last(2, {})];
    NoPublications(log);
    PublicationsSnoc(log, PublishedUpdate(false));
    PublicationsSnoc(log + [PublishedUpdate(false)], PublishedUpdate(false));
    assert log + [PublishedUpdate(false)] + [PublishedUpdate(false)]
           == log + [PublishedUpdate(false), PublishedUpdate(false)];
  }

  lemma RemovedTogether(s: State) returns (run: seq<State>)
    requires s == State({1, 2}, map[1 := Connected, 2 := Connected], [Added(1), Added(2)], map[1 := 0, 2 := 1], map[])
    ensures IsRun(run, [Srem(1), Srem(2), ScardAfterRemove(1), ScardAfterRemove(2), PublishOffline(1),
            PublishOffline(2)])
    ensures run[0] == s
    ensures run[6].log == [Added(1), Added(2), Removed(1), Removed(2), Last(1, {}), Last(2, {})]
                          + [PublishedUpdate(false), PublishedUpdate(false)]
  {
    var s1 := Next(s, Srem(1));
    assert s1.members == {2};
    var s2 := Next(s1, Srem(2));
    assert s2.members == {};
    var s3 := Next(s2, ScardAfterRemove(1));
    var s4 := Next(s3, ScardAfterRemove(2));
    var s5 := Next(s4, PublishOffline(1));
    run := [s, s1, s2, s3, s4, s5, Next(s5, PublishOffline(2))];
  }
}
