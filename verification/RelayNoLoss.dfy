/** Whom a PUBLISH reaches, and why no message is lost to it (relay/src/lib.rs), over every
    interleaving of the steps of the relay. */
module RelayNoLoss {
  import opened Models
  import opened OfflineQueue
  import opened Routing
  import opened RelayProtocol
  import opened RelayDelivery
  import opened RelayGuarantees

  lemma RunStep(run: seq<State>, actions: seq<Action>, n: nat)
    requires IsRun(run, actions) && Initial(run[0]) && n < |actions|
    ensures Good(run[n]) && ItemsOk(run[n]) && Enabled(run[n], actions[n]) && run[n + 1] == Next(run[n], actions[n])
  {
    hide Next, Enabled, Good, ItemsOk, Initial;
    RunGood(run, actions, n);
    GoodItems(run[n]);
  }

  // ----- Subscribers ----------------------------------------------------------------------------------

  /** Connection `d` has subscribed before step `n` and has not been closed since. */
  ghost predicate SubscribedAt(actions: seq<Action>, n: nat, d: ConnId)
    requires n <= |actions|
  {
    exists m | 0 <= m < n :: actions[m] == Subscribe(d) && forall j | m < j < n :: actions[j] != Close(d)
  }

  lemma SubscribedNext(actions: seq<Action>, n: nat, d: ConnId)
    requires n < |actions|
    ensures SubscribedAt(actions, n + 1, d)
            <==> actions[n] == Subscribe(d) || (SubscribedAt(actions, n, d) && actions[n] != Close(d))
  {
    if SubscribedAt(actions, n + 1, d) && actions[n] != Subscribe(d) {
      var m :| 0 <= m < n + 1 && actions[m] == Subscribe(d) && forall j | m < j < n + 1 :: actions[j] != Close(d);
      assert m < n;
    }
  }

  /** Subscribed under whatever user: its connection runs and its SUBSCRIBE has been sent. */
  predicate Subscribed(s: State, d: ConnId) {
    d in s.conns && s.conns[d].stage.Running? && s.conns[d].stage.subscribed
  }

  lemma SubscribedStep(s: State, a: Action, d: ConnId)
    requires ItemsOk(s) && Enabled(s, a)
    ensures Subscribed(Next(s, a), d) <==> a == Subscribe(d) || (Subscribed(s, d) && a != Close(d))
  {
    hide For, Without, Decoded, DecodableIds, ReceiptInfo, EventOf, Route, Subscribers;
    if !Acts(a, d) { OthersUnchanged(s, a, d); } else if d in s.conns { assert ConnItems(s, d); }
  }

  lemma {:induction false} SubscribedIff(run: seq<State>, actions: seq<Action>, n: nat, d: ConnId)
    requires IsRun(run, actions) && Initial(run[0]) && n < |run|
    ensures Subscribed(run[n], d) <==> SubscribedAt(actions, n, d)
  {
    hide Next, Enabled, Good, ItemsOk, SubscribedAt, Subscribed;
    if n > 0 {
      SubscribedIff(run, actions, n - 1, d);
      RunStep(run, actions, n - 1);
      SubscribedStep(run[n - 1], actions[n - 1], d);
      SubscribedNext(actions, n - 1, d);
    } else {
      NoneSubscribed(run[0], actions, d);
    }
  }

  lemma NoneSubscribed(s: State, actions: seq<Action>, d: ConnId)
    requires Initial(s)
    ensures !Subscribed(s, d) && !SubscribedAt(actions, 0, d)
  {
  }

  /** Connection `d` was opened for `user` before step `n`. */
  ghost predicate OpenedAt(actions: seq<Action>, n: nat, d: ConnId, user: User)
    requires n <= |actions|
  {
    exists m, logs | 0 <= m < n :: actions[m] == Open(d, user, logs)
  }

  lemma OpenedNext(actions: seq<Action>, n: nat, d: ConnId, user: User)
    requires n < |actions|
    ensures OpenedAt(actions, n + 1, d, user)
            <==> OpenedAt(actions, n, d, user) || (actions[n].Open? && actions[n].c == d && actions[n].user == user)
  {
    if actions[n].Open? && actions[n].c == d && actions[n].user == user {
      assert actions[n] == Open(d, user, actions[n].logs);
    }
    if OpenedAt(actions, n, d, user) {
      var m, logs :| 0 <= m < n && actions[m] == Open(d, user, logs);
      assert m < n + 1;
    }
  }

  lemma UsersNext(s: State, a: Action)
    requires Enabled(s, a)
    ensures Next(s, a).users == if a.Open? then s.users[a.c := a.user] else s.users
  {
    hide For, Without, Decoded, DecodableIds, ReceiptInfo, EventOf, Route, Subscribers;
  }

  /** The user of a connection is the one it was opened for. */
  lemma {:induction false} UsersIff(run: seq<State>, actions: seq<Action>, n: nat, d: ConnId, user: User)
    requires IsRun(run, actions) && Initial(run[0]) && n < |run|
    ensures d in run[n].users && run[n].users[d] == user <==> OpenedAt(actions, n, d, user)
  {
    hide Next, Good, ItemsOk, OpenedAt;
    if n > 0 {
      UsersIff(run, actions, n - 1, d, user);
      RunStep(run, actions, n - 1);
      UsersNext(run[n - 1], actions[n - 1]);
      OpenedNext(actions, n - 1, d, user);
    } else {
      NoneOpened(run[0], actions, d, user);
    }
  }

  lemma NoneOpened(s: State, actions: seq<Action>, d: ConnId, user: User)
    requires Initial(s)
    ensures d !in s.users && !OpenedAt(actions, 0, d, user)
  {
  }

  /** At step `n` connection `d` of `user` listens: it was opened for the user, has subscribed and has not
      been closed since. */
  ghost predicate Listens(actions: seq<Action>, n: nat, d: ConnId, user: User)
    requires n <= |actions|
  {
    OpenedAt(actions, n, d, user) && SubscribedAt(actions, n, d)
  }

  /** The subscribers of a user are the user's connections that have subscribed and are still open. */
  lemma SubscribersIff(run: seq<State>, actions: seq<Action>, n: nat, d: ConnId, user: User)
    requires IsRun(run, actions) && Initial(run[0]) && n < |run|
    ensures d in Subscribers(run[n], user) <==> Listens(actions, n, d, user)
  {
    hide Next, Enabled, SubscribedAt, OpenedAt, ReceiptsOk, OrderOk, RowsOk, RowsKept, FatesOk;
    SubscribedIff(run, actions, n, d);
    UsersIff(run, actions, n, d, user);
    RunGood(run, actions, n);
    if d in run[n].conns { assert ConnItems(run[n], d); }
  }

  // ----- Accepted frames ------------------------------------------------------------------------------

  lemma ItemsNext(s: State, a: Action)
    requires Enabled(s, a)
    ensures Next(s, a).accepted == if a.Accept? then
              s.accepted + [Item(a.c, s.conns[a.c].user, a.frame, Route(s.conns[a.c].user, a.frame).value)]
            else s.accepted
  {
    hide For, Without, Decoded, DecodableIds, ReceiptInfo, EventOf, Route, Subscribers;
  }

  /** Step `m` accepted item `k`, a frame of a connection opened for its sender. */
  ghost predicate AcceptedBy(run: seq<State>, actions: seq<Action>, m: nat, k: nat, item: Item)
    requires |run| == |actions| + 1 && m < |actions|
  {
    && actions[m] == Accept(item.conn, item.frame) && |run[m].accepted| == k
    && OpenedAt(actions, m, item.conn, item.sender)
  }

  /** Every accepted item is the frame of one step that accepts, with the user of its connection as the
      sender, and is addressed as the frame says. */
  lemma {:induction false} AcceptedFrom(run: seq<State>, actions: seq<Action>, n: nat, k: nat) returns (m: nat)
    requires IsRun(run, actions) && Initial(run[0]) && n < |run| && k < |run[n].accepted|
    ensures m < n && AcceptedBy(run, actions, m, k, run[n].accepted[k])
    ensures Route(run[n].accepted[k].sender, run[n].accepted[k].frame) == Some(run[n].accepted[k].routed)
  {
    hide Next, Enabled, Good, ItemsOk, OpenedAt, Route;
    if n > 0 {
      var s, a := run[n - 1], actions[n - 1];
      RunStep(run, actions, n - 1);
      ItemsNext(s, a);
      if k < |s.accepted| {
        m := AcceptedFrom(run, actions, n - 1, k);
      } else {
        m := n - 1;
        AcceptEnabled(s, a.c, a.frame);
        UsersIff(run, actions, n - 1, a.c, s.conns[a.c].user);
      }
    }
  }

  lemma AcceptEnabled(s: State, c: ConnId, frame: IncomingMessage)
    requires ItemsOk(s) && Enabled(s, Accept(c, frame))
    ensures c in s.conns && c in s.users && s.users[c] == s.conns[c].user
    ensures Route(s.conns[c].user, frame).Some?
  {
    assert ConnItems(s, c);
  }

  // ----- The stream -----------------------------------------------------------------------------------

  /** Connection `c` was opened as one that logs before step `n`. */
  ghost predicate OpenedLogging(actions: seq<Action>, n: nat, c: ConnId)
    requires n <= |actions|
  {
    exists m, user | 0 <= m < n :: actions[m] == Open(c, user, true)
  }

  lemma OpenedLoggingNext(actions: seq<Action>, n: nat, c: ConnId)
    requires n < |actions|
    ensures OpenedLogging(actions, n + 1, c)
            <==> OpenedLogging(actions, n, c) || (actions[n].Open? && actions[n].c == c && actions[n].logs)
  {
    if actions[n].Open? && actions[n].c == c && actions[n].logs { assert actions[n] == Open(c, actions[n].user, true); }
    if OpenedLogging(actions, n, c) {
      var m, user :| 0 <= m < n && actions[m] == Open(c, user, true);
      assert m < n + 1;
    }
  }

  lemma LogsNext(s: State, a: Action, c: ConnId)
    requires Enabled(s, a) && ItemsOk(s) && c in Next(s, a).users
    ensures a.Open? && a.c == c ==> c !in s.users && c in Next(s, a).conns && Next(s, a).conns[c].logs == a.logs
    ensures !(a.Open? && a.c == c) ==> c in s.users
    ensures !(a.Open? && a.c == c) && c in Next(s, a).conns ==>
              c in s.conns && Next(s, a).conns[c].logs == s.conns[c].logs
  {
    hide For, Without, Decoded, DecodableIds, ReceiptInfo, EventOf, Route, Subscribers;
    if !Acts(a, c) { OthersUnchanged(s, a, c); } else if c in s.conns { assert ConnItems(s, c); }
  }

  /** Whether a connection logs is settled when it is opened. */
  lemma {:induction false} LogsIff(run: seq<State>, actions: seq<Action>, n: nat, c: ConnId)
    requires IsRun(run, actions) && Initial(run[0]) && n < |run|
    ensures c !in run[n].users ==> !OpenedLogging(actions, n, c)
    ensures c in run[n].users && c in run[n].conns ==> (run[n].conns[c].logs <==> OpenedLogging(actions, n, c))
  {
    hide Next, Good, ItemsOk, OpenedLogging;
    if n > 0 {
      var s, a := run[n - 1], actions[n - 1];
      LogsIff(run, actions, n - 1, c);
      RunStep(run, actions, n - 1);
      UsersNext(s, a);
      OpenedLoggingNext(actions, n - 1, c);
      if c in run[n].users { LogsNext(s, a, c); }
    } else {
      NoneLogging(run[0], actions, c);
    }
  }

  lemma NoneLogging(s: State, actions: seq<Action>, c: ConnId)
    requires Initial(s)
    ensures c !in s.users && c !in s.conns && !OpenedLogging(actions, 0, c)
  {
  }

  /** The XADD of item `k` is over. */
  predicate PastLog(s: State, k: nat) {
    k in s.finished || exists c :: c in s.conns && WorkOf(s, c) in {Logged(k), Delivered(k), Missed(k)}
  }

  lemma PastLogBefore(s: State, a: Action, k: nat)
    requires Enabled(s, a) && PastLog(Next(s, a), k)
    ensures PastLog(s, k) || (a.Log? && WorkOf(s, a.c) == Accepted(k))
  {
    hide For, Without, Decoded, DecodableIds, ReceiptInfo, EventOf, Route, Subscribers;
    var next := Next(s, a);
    if k !in next.finished {
      var c :| c in next.conns && WorkOf(next, c) in {Logged(k), Delivered(k), Missed(k)};
      if !Acts(a, c) { OthersUnchanged(s, a, c); }
    }
  }

  /** An item past its XADD whose connection logs has its event in the stream. */
  ghost predicate InStream(s: State, item: Item, logs: bool) {
    var event := EventOf(item.sender, item.routed);
    logs && event.Some? ==> event.value in s.stream
  }

  lemma LogAdds(s: State, c: ConnId, k: nat)
    requires ItemsOk(s) && Enabled(s, Log(c)) && WorkOf(s, c) == Accepted(k)
    ensures k < |s.accepted| && c == s.accepted[k].conn && c in s.conns && c in s.users
    ensures InStream(Next(s, Log(c)), s.accepted[k], s.conns[c].logs)
  {
    hide EventOf, Route;
    assert ConnItems(s, c);
    var event := EventOf(s.conns[c].user, s.accepted[k].routed);
    if s.conns[c].logs && event.Some? { assert Next(s, Log(c)).stream == s.stream + [event.value]; }
  }

  lemma StreamGrows(s: State, a: Action)
    requires Enabled(s, a)
    ensures s.stream <= Next(s, a).stream
  {
    hide For, Without, Decoded, DecodableIds, ReceiptInfo, EventOf, Route, Subscribers;
  }

  lemma InStreamStays(s: State, a: Action, item: Item, logs: bool)
    requires Enabled(s, a) && InStream(s, item, logs)
    ensures InStream(Next(s, a), item, logs)
  {
    hide Next, EventOf;
    StreamGrows(s, a);
    assert forall e | e in s.stream :: e in Next(s, a).stream;
  }

  /** MAIN RESULT. Once a frame is finished, or waits only for its PUBLISH, its receipt or its INSERT, and
      its connection logs, its event is in the stream. */
  lemma {:induction false} LoggedFramesInStream(run: seq<State>, actions: seq<Action>, n: nat, k: nat)
    requires IsRun(run, actions) && Initial(run[0]) && n < |run| && PastLog(run[n], k)
    ensures k < |run[n].accepted|
    ensures var item := run[n].accepted[k]; InStream(run[n], item, OpenedLogging(actions, n, item.conn))
  {
    hide Next, Enabled, Good, ItemsOk, OpenedLogging, PastLog, InStream;
    if n == 0 {
      NonePastLog(run[0], k);
    } else {
      var s, a := run[n - 1], actions[n - 1];
      RunStep(run, actions, n - 1);
      PastLogBefore(s, a, k);
      HistoryGrows(s, a);
      if PastLog(s, k) {
        LoggedFramesInStream(run, actions, n - 1, k);
      } else {
        LogAdds(s, a.c, k);
      }
      var item := s.accepted[k];
      LogsIff(run, actions, n - 1, item.conn);
      KnownConn(s, k);
      OpenedLoggingNext(actions, n - 1, item.conn);
      NotReopened(s, a, item.conn);
      if PastLog(s, k) { InStreamStays(s, a, item, OpenedLogging(actions, n - 1, item.conn)); }
    }
  }

  lemma KnownConn(s: State, k: nat)
    requires ItemsOk(s) && k < |s.accepted|
    ensures s.accepted[k].conn in s.users
  {
  }

  lemma NotReopened(s: State, a: Action, c: ConnId)
    requires Enabled(s, a) && c in s.users
    ensures !(a.Open? && a.c == c)
  {
  }

  lemma NonePastLog(s: State, k: nat)
    requires Initial(s)
    ensures !PastLog(s, k)
  {
  }

  // ----- What a PUBLISH does --------------------------------------------------------------------------

  /** Step `m` is the PUBLISH of item `k`. */
  predicate Publishes(run: seq<State>, actions: seq<Action>, m: nat, k: nat)
    requires |run| == |actions| + 1
  {
    m < |actions| && actions[m].Publish? && WorkOf(run[m], actions[m].c) == Logged(k)
  }

  /** Every item handed to a connection has been published or queued. */
  ghost predicate HandedKnown(s: State) {
    forall d, k | (d, k) in s.handed :: k in s.published || k in s.queued
  }

  lemma HandedNext(s: State, a: Action)
    requires Enabled(s, a)
    ensures Next(s, a).handed == s.handed
              + (if a.HandOff? then {(a.c, s.conns[a.c].stage.pending[0])} else {})
              + (if a.Publish?
                 then set d | d in Subscribers(s, s.accepted[WorkOf(s, a.c).no].routed.to) :: (d, WorkOf(s, a.c).no)
                 else {})
    ensures Next(s, a).published == s.published
              + (if a.Publish? && Subscribers(s, s.accepted[WorkOf(s, a.c).no].routed.to) != {}
                 then {WorkOf(s, a.c).no} else {})
  {
    hide For, Without, Decoded, DecodableIds, ReceiptInfo, EventOf, Route, Subscribers;
  }

  lemma HandedKnownKeeps(s: State, a: Action)
    requires Good(s) && HandedKnown(s) && Enabled(s, a)
    ensures HandedKnown(Next(s, a))
  {
    hide Next, For, Without, Decoded, DecodableIds, ReceiptInfo, EventOf, Route, OrderOk, Subscribers, Inv;
    HandedNext(s, a);
    RowsNext(s, a);
    if a.HandOff? { assert InHandOf(s, a.c, s.conns[a.c].stage.pending[0]); }
  }

  lemma {:induction false} RunHandedKnown(run: seq<State>, actions: seq<Action>, n: nat)
    requires IsRun(run, actions) && Initial(run[0]) && n < |run|
    ensures HandedKnown(run[n])
  {
    hide Next, Enabled, Good, ItemsOk, HandedKnown;
    if n > 0 {
      RunHandedKnown(run, actions, n - 1);
      RunStep(run, actions, n - 1);
      HandedKnownKeeps(run[n - 1], actions[n - 1]);
    } else {
      NoneHanded(run[0]);
    }
  }

  lemma NoneHanded(s: State)
    requires Initial(s)
    ensures HandedKnown(s)
  {
  }

  lemma NotHanded(s: State, d: ConnId, k: nat)
    requires HandedKnown(s) && k !in s.published && k !in s.queued
    ensures (d, k) !in s.handed
  {
  }

  lemma ItemRouted(s: State, k: nat)
    requires ItemsOk(s) && k < |s.accepted|
    ensures var item := s.accepted[k];
            && !item.frame.InWatchPresence? && item.routed.to == item.frame.to
            && (item.routed.storeOffline <==> !item.frame.InTyping?)
  {
    RouteCarries(s.accepted[k].sender, s.accepted[k].frame);
  }

  lemma InHandFresh(s: State, c: ConnId)
    requires Good(s) && WorkOf(s, c).Logged?
    ensures var k := WorkOf(s, c).no;
            k < |s.accepted| && k !in s.published && k !in s.queued && s.accepted[k].conn == c
  {
    assert ConnFates(s, c) && ConnItems(s, c);
  }

  /** MAIN RESULT. A PUBLISH hands its item, for the first time, to exactly the connections of the user the
      frame names that have subscribed at an earlier step and not been closed since; and the item counts as
      published exactly when there is such a connection. */
  lemma PublishReachesIff(run: seq<State>, actions: seq<Action>, n: nat, k: nat, d: ConnId)
    requires IsRun(run, actions) && Initial(run[0]) && Publishes(run, actions, n, k)
    ensures k < |run[n].accepted| && !run[n].accepted[k].frame.InWatchPresence?
    ensures (d, k) !in run[n].handed && k !in run[n].published
    ensures (d, k) in run[n + 1].handed <==> Listens(actions, n, d, run[n].accepted[k].frame.to)
    ensures k in run[n + 1].published <==> exists e :: Listens(actions, n, e, run[n].accepted[k].frame.to)
    ensures forall e, j | j != k :: (e, j) in run[n + 1].handed <==> (e, j) in run[n].handed
  {
    hide Next, Enabled, Good, ItemsOk, HandedKnown, Listens, Subscribers;
    var s, a := run[n], actions[n];
    RunStep(run, actions, n);
    InHandFresh(s, a.c);
    ItemRouted(s, k);
    RunHandedKnown(run, actions, n);
    NotHanded(s, d, k);
    HandedNext(s, a);
    var to := s.accepted[k].frame.to;
    forall e ensures e in Subscribers(s, to) <==> Listens(actions, n, e, to) {
      SubscribersIff(run, actions, n, e, to);
    }
  }

  // ----- One PUBLISH for each item --------------------------------------------------------------------

  /** The PUBLISH of item `k` is still to come. */
  predicate Ahead(s: State, k: nat) {
    k < |s.accepted| ==> WorkOf(s, s.accepted[k].conn) in {Accepted(k), Logged(k)}
  }

  lemma AheadBefore(s: State, a: Action, k: nat)
    requires ItemsOk(s) && Enabled(s, a) && Ahead(Next(s, a), k)
    ensures Ahead(s, k) && !(a.Publish? && WorkOf(s, a.c) == Logged(k))
  {
    hide For, Without, Decoded, DecodableIds, ReceiptInfo, EventOf, Route, Subscribers;
    AcceptedNext(s, a);
    if k < |s.accepted| {
      var c := s.accepted[k].conn;
      if !Acts(a, c) { OthersUnchanged(s, a, c); }
    }
    if a.Publish? { assert ConnItems(s, a.c); }
  }

  lemma PublishesAhead(s: State, c: ConnId, k: nat)
    requires ItemsOk(s) && WorkOf(s, c) == Logged(k)
    ensures Ahead(s, k)
  {
    assert ConnItems(s, c);
  }

  lemma {:induction false} AheadSince(run: seq<State>, actions: seq<Action>, m: nat, n: nat, k: nat)
    requires IsRun(run, actions) && Initial(run[0]) && m < n < |run| && Ahead(run[n], k)
    ensures !Publishes(run, actions, m, k)
  {
    hide Next, Enabled, Good, ItemsOk, Ahead;
    RunStep(run, actions, n - 1);
    AheadBefore(run[n - 1], actions[n - 1], k);
    if m < n - 1 { AheadSince(run, actions, m, n - 1, k); }
  }

  /** No item is published in two steps. */
  lemma PublishedOnce(run: seq<State>, actions: seq<Action>, m: nat, n: nat, k: nat)
    requires IsRun(run, actions) && Initial(run[0])
    requires Publishes(run, actions, m, k) && Publishes(run, actions, n, k)
    ensures m == n
  {
    hide Next, Enabled, Good, ItemsOk, Ahead;
    var first, last := if m < n then m else n, if m < n then n else m;
    RunStep(run, actions, last);
    PublishesAhead(run[last], actions[last].c, k);
    if first < last { AheadSince(run, actions, first, last, k); }
  }

  /** The PUBLISH of item `k` is over: the item is finished, or its receipt or its INSERT is due. */
  predicate Past(s: State, k: nat) {
    k in s.finished || exists c :: c in s.conns && WorkOf(s, c) in {Delivered(k), Missed(k)}
  }

  lemma PastBefore(s: State, a: Action, k: nat)
    requires Enabled(s, a) && Past(Next(s, a), k)
    ensures Past(s, k) || (a.Publish? && WorkOf(s, a.c) == Logged(k))
  {
    hide For, Without, Decoded, DecodableIds, ReceiptInfo, EventOf, Route, Subscribers;
    var next := Next(s, a);
    if k !in next.finished {
      var c :| c in next.conns && WorkOf(next, c) in {Delivered(k), Missed(k)};
      if !Acts(a, c) { OthersUnchanged(s, a, c); }
    }
  }

  lemma {:induction false} PastPublished(run: seq<State>, actions: seq<Action>, n: nat, k: nat)
    requires IsRun(run, actions) && Initial(run[0]) && n < |run| && Past(run[n], k)
    ensures exists m: nat :: m < n && Publishes(run, actions, m, k)
  {
    hide Next, Enabled, Good, ItemsOk, Past;
    if n == 0 {
      NonePast(run[0], k);
    } else {
      RunStep(run, actions, n - 1);
      PastBefore(run[n - 1], actions[n - 1], k);
      if Past(run[n - 1], k) {
        PastPublished(run, actions, n - 1, k);
      } else {
        assert Publishes(run, actions, n - 1, k);
      }
    }
  }

  lemma NonePast(s: State, k: nat)
    requires Initial(s)
    ensures !Past(s, k)
  {
  }

  lemma {:induction false} RunGrows(run: seq<State>, actions: seq<Action>, m: nat, n: nat)
    requires IsRun(run, actions) && Initial(run[0]) && m <= n < |run|
    ensures run[m].accepted <= run[n].accepted && run[m].handed <= run[n].handed
  {
    hide Next, Enabled, Good, ItemsOk;
    if m < n {
      RunGrows(run, actions, m, n - 1);
      RunStep(run, actions, n - 1);
      HistoryGrows(run[n - 1], actions[n - 1]);
    }
  }

  lemma PublishLogged(s: State, c: ConnId)
    requires Enabled(s, Publish(c))
    ensures WorkOf(s, c).Logged?
  {
  }

  /** Some connection of the user listens at step `n`. */
  ghost predicate Heard(actions: seq<Action>, n: nat, user: User)
    requires n <= |actions|
  {
    exists d :: Listens(actions, n, d, user)
  }

  /** An item counts as published exactly from a PUBLISH on that was heard. */
  lemma {:induction false} PublishedIff(run: seq<State>, actions: seq<Action>, m: nat, n: nat, k: nat)
    requires IsRun(run, actions) && Initial(run[0]) && m < n < |run| && Publishes(run, actions, m, k)
    ensures k < |run[m].accepted| && !run[m].accepted[k].frame.InWatchPresence?
    ensures k in run[n].published <==> Heard(actions, m, run[m].accepted[k].frame.to)
  {
    hide Next, Enabled, Good, ItemsOk, Listens, Subscribers;
    if n == m + 1 {
      PublishReachesIff(run, actions, m, k, 0);
    } else {
      PublishedIff(run, actions, m, n - 1, k);
      RunStep(run, actions, n - 1);
      if Publishes(run, actions, n - 1, k) { PublishedOnce(run, actions, m, n - 1, k); }
      HandedNext(run[n - 1], actions[n - 1]);
      if actions[n - 1].Publish? { PublishLogged(run[n - 1], actions[n - 1].c); }
    }
  }

  // ----- No loss --------------------------------------------------------------------------------------

  /** What a drain has returned is handed to its connection or still in its hand. */
  ghost predicate ReturnedHanded(s: State) {
    forall c, i, k | (c, i) in s.returned && i < |s.saved| && s.saved[i].payload == Some(k) ::
      (c, k) in s.handed || InHandOf(s, c, k)
  }

  lemma ReturnedHandedKeeps(s: State, a: Action)
    requires Good(s) && ReturnedHanded(s) && Enabled(s, a)
    ensures ReturnedHanded(Next(s, a))
  {
    hide Next, For, Without, Decoded, DecodableIds, ReceiptInfo, EventOf, Route, Good, Subscribers;
    GoodItems(s);
    var next := Next(s, a);
    forall c, i, k | (c, i) in next.returned && i < |next.saved| && next.saved[i].payload == Some(k)
      ensures (c, k) in next.handed || InHandOf(next, c, k)
    {
      ReturnedBefore(s, a, c, i) by { GoodInv(s); }
      HistoryGrows(s, a);
      HandsChange(s, a, c, k);
      HandedNext(s, a);
      if a == HandOff(c) && InHandOf(s, c, k) { InHandFirst(s, c, k); }
    }
  }

  lemma InHandFirst(s: State, c: ConnId, k: nat)
    requires InHandOf(s, c, k) && s.conns[c].stage.pending != []
    ensures k == s.conns[c].stage.pending[0] || k in s.conns[c].stage.pending[1..]
  {
  }

  lemma GoodInv(s: State)
    requires Good(s)
    ensures Inv(s)
  {
  }

  lemma {:induction false} RunReturnedHanded(run: seq<State>, actions: seq<Action>, n: nat)
    requires IsRun(run, actions) && Initial(run[0]) && n < |run|
    ensures ReturnedHanded(run[n])
  {
    hide Next, Enabled, Good, ItemsOk, ReturnedHanded;
    if n > 0 {
      RunReturnedHanded(run, actions, n - 1);
      RunStep(run, actions, n - 1);
      ReturnedHandedKeeps(run[n - 1], actions[n - 1]);
    } else {
      NoneReturned(run[0]);
    }
  }

  lemma NoneReturned(s: State)
    requires Initial(s)
    ensures ReturnedHanded(s)
  {
  }

  /** A queued item is in the queue of its recipient, or in the hand of a drain of the recipient, or was
      handed to a connection of the recipient. */
  ghost predicate KeptFor(s: State, k: nat, user: User) {
    || (exists r :: r in s.queue && r.payload == Some(k) && r.to == user)
    || (exists c :: c in s.users && s.users[c] == user && ((c, k) in s.handed || InHandOf(s, c, k)))
  }

  lemma QueuedKept(s: State, k: nat)
    requires Good(s) && ReturnedHanded(s) && k in s.queued
    ensures k < |s.accepted| && KeptFor(s, k, s.accepted[k].routed.to)
  {
    hide ReceiptsOk, OrderOk;
    var i :| 0 <= i < |s.saved| && s.saved[i].payload == Some(k);
    if s.saved[i] in s.queue {
      assert s.saved[i].to == s.accepted[k].routed.to;
    } else {
      var c :| (c, i) in s.returned;
      assert (c, k) in s.handed || InHandOf(s, c, k);
    }
  }

  /** MAIN RESULT. Over all interleavings, every finished frame had exactly one PUBLISH. It counts as
      published exactly when some connection of the user it names had subscribed before that step and was
      still open, and then every such connection got it; otherwise, unless it is a typing frame, it was
      queued, and is in that user's queue, in the hand of a drain for the user, or was handed to one. */
  lemma NoLoss(run: seq<State>, actions: seq<Action>, n: nat, k: nat)
    requires IsRun(run, actions) && Initial(run[0]) && n < |run| && k in run[n].finished
    ensures k < |run[n].accepted| && !run[n].accepted[k].frame.InWatchPresence?
    ensures exists m: nat ::
              && m < n && Publishes(run, actions, m, k)
              && (forall j: nat | Publishes(run, actions, j, k) :: j == m)
              && NotLost(run, actions, m, n, k)
  {
    hide Next, Enabled, Good, ItemsOk, Past, Publishes, NotLost;
    FinishedPast(run[n], k);
    PastPublished(run, actions, n, k);
    var m: nat :| m < n && Publishes(run, actions, m, k);
    forall j: nat | Publishes(run, actions, j, k) ensures j == m { PublishedOnce(run, actions, m, j, k); }
    FinishedNotLost(run, actions, m, n, k);
  }

  lemma FinishedPast(s: State, k: nat)
    requires k in s.finished
    ensures Past(s, k)
  {
  }

  /** What became until step `n` of item `k`, whose PUBLISH was step `m`. */
  ghost predicate NotLost(run: seq<State>, actions: seq<Action>, m: nat, n: nat, k: nat)
    requires |run| == |actions| + 1 && m < n < |run| && k < |run[n].accepted|
    requires !run[n].accepted[k].frame.InWatchPresence?
  {
    var s, to := run[n], run[n].accepted[k].frame.to;
    && (k in s.published <==> Heard(actions, m, to))
    && (k in s.queued <==> !Heard(actions, m, to) && !s.accepted[k].frame.InTyping?)
    && (forall d: ConnId | Listens(actions, m, d, to) :: (d, k) in s.handed)
    && (k in s.queued ==> KeptFor(s, k, to))
  }

  lemma FinishedNotLost(run: seq<State>, actions: seq<Action>, m: nat, n: nat, k: nat)
    requires IsRun(run, actions) && Initial(run[0]) && m < n < |run| && Publishes(run, actions, m, k)
    requires k in run[n].finished
    ensures k < |run[n].accepted| && !run[n].accepted[k].frame.InWatchPresence?
    ensures NotLost(run, actions, m, n, k)
  {
    hide Next, Enabled, Good, ItemsOk, Listens, Publishes, KeptFor;
    var s := run[n];
    PublishedIff(run, actions, m, n, k);
    RunGrows(run, actions, m, n);
    RunGrows(run, actions, m + 1, n);
    RunGood(run, actions, n);
    GoodItems(s);
    ItemRouted(s, k);
    var to := s.accepted[k].frame.to;
    forall d: ConnId | Listens(actions, m, d, to) ensures (d, k) in s.handed {
      PublishReachesIff(run, actions, m, k, d);
    }
    FinishedEnds(s, k);
    if k in s.queued {
      RunReturnedHanded(run, actions, n);
      QueuedKept(s, k);
    }
  }

  lemma FinishedEnds(s: State, k: nat)
    requires Good(s) && k in s.finished
    ensures k < |s.accepted| && !(k in s.published && k in s.queued)
    ensures s.accepted[k].routed.storeOffline ==> k in s.published || k in s.queued
    ensures k in s.queued ==> s.accepted[k].routed.storeOffline
  {
  }

  /** Some connection holds item `k` in hand. */
  predicate AtWork(s: State, k: nat) {
    k < |s.accepted| && WorkOf(s, s.accepted[k].conn) != Idle && WorkOf(s, s.accepted[k].conn).no == k
  }

  /** The connection of item `k` was closed at some step before `n` while it held the item. */
  ghost predicate ClosedInHand(run: seq<State>, actions: seq<Action>, n: nat, k: nat)
    requires |run| == |actions| + 1 && n <= |actions|
  {
    exists m | 0 <= m < n :: AtWork(run[m], k) && actions[m] == Close(run[m].accepted[k].conn)
  }

  /** An item in hand stays there until it is finished or its connection closes. */
  lemma WorkGoesOn(s: State, a: Action, k: nat)
    requires ItemsOk(s) && Enabled(s, a) && AtWork(s, k)
    ensures var next := Next(s, a);
            AtWork(next, k) || k in next.finished || a == Close(s.accepted[k].conn)
  {
    hide For, Without, Decoded, DecodableIds, ReceiptInfo, EventOf, Route, Subscribers;
    var c := s.accepted[k].conn;
    AcceptedNext(s, a);
    if !Acts(a, c) { OthersUnchanged(s, a, c); }
  }

  lemma AcceptedAtWork(s: State, a: Action, k: nat)
    requires ItemsOk(s) && Enabled(s, a) && |s.accepted| <= k < |Next(s, a).accepted|
    ensures AtWork(Next(s, a), k)
  {
    hide For, Without, Decoded, DecodableIds, ReceiptInfo, EventOf, Route, Subscribers;
    AcceptedNext(s, a);
  }

  /** MAIN RESULT. Every accepted frame is finished, in the hand of its open connection, or was in its hand
      when the connection closed: with the result above, that is the only way for a frame to be lost. */
  lemma {:induction false} FramesAccounted(run: seq<State>, actions: seq<Action>, n: nat, k: nat)
    requires IsRun(run, actions) && Initial(run[0]) && n < |run| && k < |run[n].accepted|
    ensures k in run[n].finished || AtWork(run[n], k) || ClosedInHand(run, actions, n, k)
  {
    hide Next, Enabled, Good, AtWork, ItemsOk;
    if n > 0 {
      var s, a := run[n - 1], actions[n - 1];
      RunGood(run, actions, n - 1);
      GoodItems(s);
      assert run[n - 1 + 1] == Next(s, a) && Enabled(s, a);
      if k < |s.accepted| {
        FramesAccounted(run, actions, n - 1, k);
        HistoryGrows(s, a);
        if AtWork(s, k) { WorkGoesOn(s, a, k); }
      } else {
        AcceptedAtWork(s, a, k);
      }
    }
  }
}
