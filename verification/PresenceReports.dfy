/** Every report of a first or last connection is published exactly once, over all interleavings of
    the statements of Presence (`add_connection`, `remove_connection` and their callers). */
module PresenceReports {
  import opened Models
  import opened Presence

  predicate IsFirst(e: Event) { e.First? }

  predicate IsLast(e: Event) { e.Last? }

  predicate IsOnline(e: Event) { e == PublishedUpdate(true) }

  predicate IsOffline(e: Event) { e == PublishedUpdate(false) }

  /** How many entries of the log are of one kind. */
  function Tally(log: seq<Event>, kind: Event -> bool): nat {
    if log == [] then 0 else Tally(log[..|log| - 1], kind) + if kind(log[|log| - 1]) then 1 else 0
  }

  lemma TallySnoc(log: seq<Event>, e: Event, kind: Event -> bool)
    ensures Tally(log + [e], kind) == Tally(log, kind) + if kind(e) then 1 else 0
  {
    assert (log + [e])[..|log|] == log;
  }

  /** Connections that have reported "first" and not published yet, and those that have reported "last". */
  function Announcers(s: State): set<ConnId> {
    set c | c in s.stages && s.stages[c].Announcing?
  }

  function Departers(s: State): set<ConnId> {
    set c | c in s.stages && s.stages[c].Departing?
  }

  /** The books of reports and publishes balance. */
  ghost predicate Balanced(s: State) {
    && Tally(s.log, IsFirst) == Tally(s.log, IsOnline) + |Announcers(s)|
    && Tally(s.log, IsLast) == Tally(s.log, IsOffline) + |Departers(s)|
  }

  /** The entry an action logs, if any. */
  lemma Logged(s: State, a: Action)
    requires Enabled(s, a)
    ensures Next(s, a).log == s.log + match a
              case Sadd(conn) => [Added(conn)]
              case Srem(conn) => if conn in s.members then [Removed(conn)] else []
              case ScardAfterAdd(conn) => if ReportsFirst(s, conn) then [First(conn, s.members)] else []
              case ScardAfterRemove(conn) => if ReportsLast(s, conn) then [Last(conn, s.members)] else []
              case PublishOnline(_) => [PublishedUpdate(true)]
              case PublishOffline(_) => [PublishedUpdate(false)]
  {
    assert s.log + [] == s.log;
  }

  lemma Waiting(s: State, a: Action)
    requires Enabled(s, a)
    ensures Announcers(Next(s, a)) == if a.ScardAfterAdd? && ReportsFirst(s, a.conn) then Announcers(s) + {a.conn}
                                      else if a.PublishOnline? then Announcers(s) - {a.conn}
                                      else Announcers(s)
    ensures a.ScardAfterAdd? ==> a.conn !in Announcers(s)
    ensures a.PublishOnline? ==> a.conn in Announcers(s)
    ensures Departers(Next(s, a)) == if a.ScardAfterRemove? && ReportsLast(s, a.conn) then Departers(s) + {a.conn}
                                     else if a.PublishOffline? then Departers(s) - {a.conn}
                                     else Departers(s)
    ensures a.ScardAfterRemove? ==> a.conn !in Departers(s)
    ensures a.PublishOffline? ==> a.conn in Departers(s)
  {
  }

  lemma StepBalances(s: State, a: Action)
    requires Balanced(s) && Enabled(s, a)
    ensures Balanced(Next(s, a))
  {
    hide Next, Enabled, Tally, Announcers, Departers, ReportsFirst, ReportsLast;
    Logged(s, a);
    Waiting(s, a);
    var next := Next(s, a);
    if |next.log| > |s.log| {
      var e := next.log[|s.log|];
      assert next.log == s.log + [e];
      TallySnoc(s.log, e, IsFirst);
      TallySnoc(s.log, e, IsLast);
      TallySnoc(s.log, e, IsOnline);
      TallySnoc(s.log, e, IsOffline);
    } else {
      assert next.log == s.log;
    }
  }

  /** MAIN RESULT. Over every interleaving, the reports of a first connection are the published online
      updates and those about to be published, and the same holds for last connections and offline
      updates: nothing is published without its report, and every report is published once. */
  lemma {:induction false} ReportsPublished(run: seq<State>, actions: seq<Action>, n: nat)
    requires IsRun(run, actions) && Initial(run[0]) && n < |run|
    ensures Balanced(run[n])
  {
    hide Next, Enabled, Balanced;
    if n > 0 {
      ReportsPublished(run, actions, n - 1);
      assert run[n - 1 + 1] == Next(run[n - 1], actions[n - 1]) && Enabled(run[n - 1], actions[n - 1]);
      StepBalances(run[n - 1], actions[n - 1]);
    } else {
      NothingReported(run[0]);
    }
  }

  lemma NothingReported(s: State)
    requires Initial(s)
    ensures Balanced(s)
  {
    assert Announcers(s) == {} && Departers(s) == {};
  }
}
