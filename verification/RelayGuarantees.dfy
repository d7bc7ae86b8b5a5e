/** The main results about the relay, over every interleaving of its steps. */
module RelayGuarantees {
  import opened Models
  import opened OfflineQueue
  import opened Routing
  import opened RelayProtocol
  import opened RelayDelivery

  lemma StepGood(s: State, a: Action)
    requires Good(s) && Enabled(s, a)
    ensures Good(Next(s, a))
  {
    hide Next, RowsKept, OrderOk, ReceiptsOk, ItemsOk, RowsOk, FatesOk;
    ItemsKeep(s, a);
    RowsKeep(s, a);
    RowsKeptKeep(s, a);
    FatesKeep(s, a);
    ReceiptsKeep(s, a);
    OrderKeeps(s, a);
  }

  lemma {:induction false} RunGood(run: seq<State>, actions: seq<Action>, n: nat)
    requires IsRun(run, actions) && Initial(run[0]) && n < |run|
    ensures Good(run[n])
  {
    if n > 0 {
      RunGood(run, actions, n - 1);
      assert run[n - 1 + 1] == Next(run[n - 1], actions[n - 1]);
      StepGood(run[n - 1], actions[n - 1]);
    }
  }

  // ----- Drains ---------------------------------------------------------------------------------------

  /** MAIN RESULT. With any number of overlapping drains and saves, a row leaves the queue only if
      it decodes and some drain for its recipient returned it. */
  lemma DeletedRowsWereReturned(run: seq<State>, actions: seq<Action>, n: nat, i: nat)
    requires IsRun(run, actions) && Initial(run[0]) && n < |run|
    requires i < |run[n].saved| && run[n].saved[i] !in run[n].queue
    ensures run[n].saved[i].payload.Some?
    ensures exists c :: (c, i) in run[n].returned && c in run[n].users && run[n].users[c] == run[n].saved[i].to
  {
    hide ReceiptsOk, OrderOk, FatesOk;
    RunGood(run, actions, n);
    var c :| (c, i) in run[n].returned;
  }

  /** Connection `c` is past its SELECT, which selected `rows` when `since` rows had been saved. */
  ghost predicate PastSelect(s: State, c: ConnId, rows: seq<Row<nat>>, since: nat) {
    && c in s.users
    && (c in s.conns ==>
          var stage := s.conns[c].stage;
          stage == Selected(rows, since) || stage.HandingOff? || stage.Running?)
  }

  lemma PastSelectStays(s: State, a: Action, c: ConnId, rows: seq<Row<nat>>, since: nat)
    requires ItemsOk(s) && PastSelect(s, c, rows, since) && Enabled(s, a)
    ensures PastSelect(Next(s, a), c, rows, since)
  {
    hide For, Without, Decoded, DecodableIds, ReceiptInfo, EventOf, Route, Subscribers;
    HistoryGrows(s, a);
    if !Acts(a, c) { OthersUnchanged(s, a, c); }
  }

  /** After its SELECT a drain keeps its selection until its DELETE. */
  lemma {:induction false} SelectionStays(run: seq<State>, actions: seq<Action>, m: nat, n: nat, c: ConnId)
    requires IsRun(run, actions) && Initial(run[0]) && m < n < |run| && actions[m] == Select(c)
    ensures c in run[m].conns && PastSelect(run[n], c, For(run[m].queue, run[m].conns[c].user), |run[m].saved|)
  {
    hide Good, PastSelect, ItemsOk;
    assert run[n - 1 + 1] == Next(run[n - 1], actions[n - 1]) && Enabled(run[n - 1], actions[n - 1]);
    RunGood(run, actions, n - 1);
    GoodItems(run[n - 1]);
    if n == m + 1 {
      SelectStarts(run[m], c);
    } else {
      SelectionStays(run, actions, m, n - 1, c);
      PastSelectStays(run[n - 1], actions[n - 1], c, For(run[m].queue, run[m].conns[c].user), |run[m].saved|);
    }
  }

  lemma SelectStarts(s: State, c: ConnId)
    requires ItemsOk(s) && Enabled(s, Select(c))
    ensures PastSelect(Next(s, Select(c)), c, For(s.queue, s.conns[c].user), |s.saved|)
  {
  }

  /** MAIN RESULT. A row saved after a drain's SELECT survives that drain's DELETE. */
  lemma LaterRowsSurvive(run: seq<State>, actions: seq<Action>, m: nat, n: nat, c: ConnId, r: Row<nat>)
    requires IsRun(run, actions) && Initial(run[0]) && m < n < |actions|
    requires actions[m] == Select(c) && actions[n] == Delete(c)
    requires r in run[n].queue && r.id >= |run[m].saved|
    ensures r in run[n + 1].queue
  {
    hide For, Without, Decoded, ReceiptsOk, OrderOk, FatesOk;
    SelectionStays(run, actions, m, n, c);
    RunGood(run, actions, n);
    assert run[n + 1] == Next(run[n], actions[n]);
    assert ConnRows(run[n], c);
    RowsNext(run[n], actions[n]);
  }

  lemma OrderOf(s: State, c: ConnId)
    requires Good(s) && c in s.conns
    ensures ConnOrder(s, c)
  {
  }

  /** MAIN RESULT. A drain returns the decodable rows of its selection in save order, and the
      messages one connection had queued come out in the order it sent them. */
  lemma DrainsInOrder(run: seq<State>, actions: seq<Action>, n: nat, c: ConnId)
    requires IsRun(run, actions) && Initial(run[0]) && n < |actions| && actions[n] == Delete(c)
    ensures var rows := run[n].conns[c].stage.rows;
            && InOrder(rows)
            && c in run[n + 1].conns && run[n + 1].conns[c].stage == HandingOff(Decoded(rows))
            && SentInOrder(run[n + 1], Decoded(rows))
  {
    hide Decoded, InOrder, SentInOrder, ReceiptsOk, Inv, Initial, Without, DecodableIds, Good, OrderOk;
    RunGood(run, actions, n);
    RunGood(run, actions, n + 1);
    assert run[n + 1] == Next(run[n], actions[n]) && Enabled(run[n], actions[n]);
    OrderOf(run[n], c);
    OrderOf(run[n + 1], c);
  }

  // ----- Receipts -------------------------------------------------------------------------------------

  /** MAIN RESULT. Every delivery receipt goes to the sender of a finished message that asks for
      one, names its true recipient and id, and was issued after a hand-off to that recipient. */
  lemma ReceiptsAreTrue(run: seq<State>, actions: seq<Action>, n: nat)
    requires IsRun(run, actions) && Initial(run[0]) && n < |run|
    ensures forall e | e in run[n].receipts :: ReceiptOk(run[n], e)
  {
    RunGood(run, actions, n);
  }

  /** MAIN RESULT. Over all interleavings, overlapping drains included, the messages that ask for a
      receipt and are finished are those receipted, in the hand of a drain, or still queued. */
  lemma NoneForgotten(run: seq<State>, actions: seq<Action>, n: nat, k: nat)
    requires IsRun(run, actions) && Initial(run[0]) && n < |run| && Needs(run[n], k)
    ensures k in run[n].finished <==> Receipted(run[n], k) || InHand(run[n], k) || InQueue(run[n], k)
  {
    hide OrderOk, ReachedRecipient;
    RunGood(run, actions, n);
    var s := run[n];
    assert s.accepted[k].routed.storeOffline by { RouteAgreesWithDrain(s.accepted[k].sender, s.accepted[k].frame); }
    if k in s.finished && k in s.queued {
      var i :| 0 <= i < |s.saved| && s.saved[i].payload == Some(k);
      if s.saved[i] !in s.queue {
        var c :| (c, i) in s.returned;
        assert Receipted(s, k) || InHandOf(s, c, k);
      }
    }
    if Receipted(s, k) { ReceiptedFinished(s, k); }
    if InQueue(s, k) { InQueueQueued(s, k); }
    if InHand(s, k) {
      var c :| InHandOf(s, c, k);
      InHandQueued(s, c, k);
    }
  }

  lemma OnceStepIff(s: State, a: Action)
    requires Good(s) && ReceiptsOnce(s) && Enabled(s, a)
    ensures ReceiptsOnce(Next(s, a)) <==> (a.Delete? ==> Finds(s, a.c))
  {
    hide Next, ReceiptsOnce, Finds, Good;
    if a.Delete? ==> Finds(s, a.c) { ReceiptsOnceKeeps(s, a); } else { MissCountsTwice(s, a.c); }
  }

  /** The action is no DELETE that misses rows of its selection. */
  ghost predicate NoMiss(s: State, a: Action) {
    a.Delete? ==> Enabled(s, a) && Finds(s, a.c)
  }

  lemma OnceAt(run: seq<State>, actions: seq<Action>, n: nat)
    requires IsRun(run, actions) && Initial(run[0]) && n < |actions| && ReceiptsOnce(run[n])
    ensures ReceiptsOnce(run[n + 1]) <==> NoMiss(run[n], actions[n])
  {
    RunGood(run, actions, n);
    assert run[n + 1] == Next(run[n], actions[n]) && Enabled(run[n], actions[n]);
    hide Next, ReceiptsOnce, Finds, Good, Enabled;
    OnceStepIff(run[n], actions[n]);
  }

  lemma InitialOnce(s: State)
    requires Initial(s)
    ensures ReceiptsOnce(s)
  {
  }

  /** MAIN RESULT. No message is receipted or about to be receipted twice, up to any point of a
      run, exactly when every DELETE before it still finds the rows its drain selected. */
  lemma {:induction false} ReceiptedOnceIff(run: seq<State>, actions: seq<Action>, n: nat)
    requires IsRun(run, actions) && Initial(run[0]) && n < |run|
    ensures (forall m | 0 <= m <= n :: ReceiptsOnce(run[m])) <==> (forall m | 0 <= m < n :: NoMiss(run[m], actions[m]))
  {
    hide ReceiptsOnce, NoMiss, Initial;
    if n > 0 {
      ReceiptedOnceIff(run, actions, n - 1);
      if ReceiptsOnce(run[n - 1]) { OnceAt(run, actions, n - 1); }
    } else {
      InitialOnce(run[0]);
    }
  }

  lemma SelectQueued(s: State, c: ConnId, k: nat)
    requires Good(s) && Enabled(s, Select(c)) && InQueue(s, k) && s.accepted[k].routed.to == s.conns[c].user
    ensures Selects(Next(s, Select(c)), c, k)
  {
    hide ReceiptsOk, OrderOk, Decoded;
    var r :| r in s.queue && r.payload == Some(k);
    assert s.saved[r.id] == r;
    DecodedMembers(For(s.queue, s.conns[c].user));
  }

  /** The drain of `c` has selected item `k`. */
  predicate Selects(s: State, c: ConnId, k: nat) {
    c in s.conns && s.conns[c].stage.Selected? && k in Decoded(s.conns[c].stage.rows)
  }

  lemma SelectsStays(s: State, a: Action, c: ConnId, k: nat)
    requires Enabled(s, a) && Selects(s, c, k) && !Acts(a, c)
    ensures Selects(Next(s, a), c, k)
  {
    hide Next, Decoded;
    OthersUnchanged(s, a, c);
  }

  /** Two overlapping drains of one user both take every queued message in hand, and so a message that
      asks for a receipt is due two. */
  lemma OverlapDoubles(s: State, c: ConnId, d: ConnId, k: nat)
    requires Good(s) && c != d && Enabled(s, Select(c)) && Enabled(s, Select(d)) && s.conns[c].user == s.conns[d].user
    requires InQueue(s, k) && Needs(s, k) && s.accepted[k].routed.to == s.conns[c].user
    ensures var s1 := Next(s, Select(c));
            && Enabled(s1, Select(d))
            && var s2 := Next(s1, Select(d));
               && Enabled(s2, Delete(c))
               && var s3 := Next(s2, Delete(c));
                  && Enabled(s3, Delete(d))
                  && InHandOf(Next(s3, Delete(d)), c, k) && InHandOf(Next(s3, Delete(d)), d, k)
                  && !Finds(s3, d)
  {
    hide Next, Good, Decoded, InHandOf, InQueue, Finds;
    SelectQueued(s, c, k);
    var s1 := Next(s, Select(c));
    OthersUnchanged(s, Select(c), d);
    SelectKeepsQueue(s, c, k);
    StepGood(s, Select(c));
    SelectQueued(s1, d, k);
    var s2 := Next(s1, Select(d));
    SelectsStays(s1, Select(d), c, k);
    StepGood(s1, Select(d));
    var s3 := Next(s2, Delete(c));
    SelectsStays(s2, Delete(c), d, k);
    StepGood(s2, Delete(c));
    GoodItems(s2);
    GoodItems(s3);
    HandsChange(s2, Delete(c), c, k);
    HandsChange(s3, Delete(d), c, k);
    HandsChange(s3, Delete(d), d, k);
    SelectKeepsQueue(s1, d, k);
    DeleteEmpties(s2, c, d, k);
  }

  lemma SelectKeepsQueue(s: State, c: ConnId, k: nat)
    requires Enabled(s, Select(c))
    ensures var next := Next(s, Select(c));
            (InQueue(next, k) <==> InQueue(s, k)) && next.accepted == s.accepted
  {
  }

  /** The other drain's DELETE takes away the row that `d` has selected for `k`. */
  lemma DeleteEmpties(s: State, c: ConnId, d: ConnId, k: nat)
    requires Good(s) && c != d && Selects(s, c, k) && Selects(s, d, k) && Needs(s, k) && Enabled(s, Delete(c))
    ensures Enabled(Next(s, Delete(c)), Delete(d)) && !Finds(Next(s, Delete(c)), d)
  {
    hide Next, Without, Decoded, ReceiptsOk, OrderOk, EventOf, Route;
    OthersUnchanged(s, Delete(c), d);
    var rows, others, next := s.conns[c].stage.rows, s.conns[d].stage.rows, Next(s, Delete(c));
    DecodedMembers(rows);
    DecodedMembers(others);
    var r :| r in rows && r.payload == Some(k);
    var q :| q in others && q.payload == Some(k);
    assert ConnRows(s, c) && ConnRows(s, d);
    assert s.saved[r.id] == r && s.saved[q.id] == q;
    assert r == q;
    RowsNext(s, Delete(c));
    GoodItems(s);
    NeedsBefore(s, Delete(c), k);
    assert r.id in DecodableIds(rows);
  }

  function Numbers(receipts: seq<Issued>): (r: seq<nat>)
    ensures |r| == |receipts| && forall i | 0 <= i < |r| :: r[i] == receipts[i].no
  {
    seq(|receipts|, i requires 0 <= i < |receipts| => receipts[i].no)
  }

  function QueuedNeeding(s: State): set<nat> {
    set r | r in s.queue && r.payload.Some? && Needs(s, r.payload.value) :: r.payload.value
  }

  function FinishedNeeding(s: State): set<nat> {
    set k | k in s.finished && Needs(s, k)
  }

  lemma {:induction false} DistinctMultiset(s: seq<nat>, k: nat)
    requires forall i, j | 0 <= i < j < |s| :: s[i] != s[j]
    ensures multiset(s)[k] == if k in s then 1 else 0
  {
    if s != [] {
      var init := s[..|s| - 1];
      assert s == init + [s[|s| - 1]];
      DistinctMultiset(init, k);
    }
  }

  /** The messages in the hand of some drain that ask for a receipt. */
  function InHandNeeding(s: State): set<nat> {
    set c, k | c in s.conns && s.conns[c].stage.HandingOff? && k in s.conns[c].stage.pending && Needs(s, k) :: k
  }

  /** MAIN RESULT. When every DELETE finds its rows, the receipts issued, the messages in the hand of a
      drain and those still queued that ask for one add up to the finished ones, as multisets. */
  lemma ReceiptsConserved(run: seq<State>, actions: seq<Action>, n: nat)
    requires IsRun(run, actions) && Initial(run[0]) && n < |run|
    requires forall m | 0 <= m < n :: NoMiss(run[m], actions[m])
    ensures var s := run[n];
            multiset(Numbers(s.receipts)) + multiset(InHandNeeding(s)) + multiset(QueuedNeeding(s))
              == multiset(FinishedNeeding(s))
  {
    hide NoMiss, ReceiptsOnce, Good, Initial, Next, Enabled, InHandNeeding, QueuedNeeding, FinishedNeeding, Numbers;
    ReceiptedOnceIff(run, actions, n);
    RunGood(run, actions, n);
    var s := run[n];
    assert ReceiptsOnce(s);
    forall k ensures multiset(Numbers(s.receipts))[k] + multiset(InHandNeeding(s))[k] + multiset(QueuedNeeding(s))[k]
                     == multiset(FinishedNeeding(s))[k] {
      CountedOnce(run, actions, n, k);
    }
  }

  lemma CountedOnce(run: seq<State>, actions: seq<Action>, n: nat, k: nat)
    requires IsRun(run, actions) && Initial(run[0]) && n < |run| && Good(run[n]) && ReceiptsOnce(run[n])
    ensures var s := run[n];
            multiset(Numbers(s.receipts))[k] + multiset(InHandNeeding(s))[k] + multiset(QueuedNeeding(s))[k]
            == multiset(FinishedNeeding(s))[k]
  {
    hide Good, IsRun, Initial;
    var s := run[n];
    DistinctMultiset(Numbers(s.receipts), k);
    assert k in Numbers(s.receipts) <==> Receipted(s, k);
    assert k in QueuedNeeding(s) <==> Needs(s, k) && InQueue(s, k);
    InHandCounted(s, k);
    if Needs(s, k) { NoneForgotten(run, actions, n, k); }
    if Receipted(s, k) { ReceiptedFinished(s, k); }
  }

  lemma InHandCounted(s: State, k: nat)
    requires ReceiptsOnce(s)
    ensures k in InHandNeeding(s) <==> Needs(s, k) && InHand(s, k)
    ensures Needs(s, k) && InHand(s, k) ==> !Receipted(s, k) && !InQueue(s, k)
  {
    if k in InHandNeeding(s) {
      var c :| c in s.conns && s.conns[c].stage.HandingOff? && k in s.conns[c].stage.pending;
      assert InHandOf(s, c, k);
    }
    if Needs(s, k) && InHand(s, k) {
      var c :| InHandOf(s, c, k);
      assert HandOnce(s, c, k);
    }
  }

  // ----- Drains that do not overlap -------------------------------------------------------------------

  /** No two connections of one user are between SELECT and DELETE. */
  ghost predicate DrainsApart(s: State) {
    forall c, d | c in s.conns && d in s.conns && c != d && s.conns[c].stage.Selected? && s.conns[d].stage.Selected? ::
      s.conns[c].user != s.conns[d].user
  }

  ghost predicate SelectionsQueued(s: State) {
    forall c | c in s.conns && s.conns[c].stage.Selected? :: forall r | r in s.conns[c].stage.rows :: r in s.queue
  }

  lemma SelectedNext(s: State, a: Action, c: ConnId)
    requires Enabled(s, a) && Acts(a, c) && c in Next(s, a).conns && Next(s, a).conns[c].stage.Selected?
    ensures a.Select? && Next(s, a).conns[c].stage.rows == For(s.queue, s.conns[c].user)
  {
    hide For, Without, Decoded, DecodableIds, ReceiptInfo, EventOf, Route, Subscribers;
  }

  lemma SelectionQueuedKeeps(s: State, a: Action, c: ConnId, r: Row<nat>)
    requires Good(s) && DrainsApart(s) && SelectionsQueued(s) && Enabled(s, a)
    requires c in Next(s, a).conns && Next(s, a).conns[c].stage.Selected? && r in Next(s, a).conns[c].stage.rows
    ensures r in Next(s, a).queue
  {
    hide Next, For, Without, Decoded, ReceiptInfo, EventOf, Route, ReceiptsOk, OrderOk, FatesOk, RowsKept;
    RowsNext(s, a);
    if Acts(a, c) {
      SelectedNext(s, a, c);
    } else {
      OthersUnchanged(s, a, c);
      assert ConnRows(s, c);
      if a.Delete? {
        assert ConnRows(s, a.c);
        assert r.id !in DecodableIds(s.conns[a.c].stage.rows);
      }
    }
  }

  /** MAIN RESULT. When the drains of one user never overlap, every DELETE finds its rows: receipts
      are then issued exactly once. */
  lemma {:induction false} DrainsApartFind(run: seq<State>, actions: seq<Action>, n: nat)
    requires IsRun(run, actions) && Initial(run[0]) && n < |run|
    requires forall m | 0 <= m <= n :: DrainsApart(run[m])
    ensures SelectionsQueued(run[n])
    ensures forall m | 0 <= m < n :: NoMiss(run[m], actions[m])
    ensures forall m | 0 <= m <= n :: ReceiptsOnce(run[m])
  {
    hide Next, Good, Initial, ReceiptsOnce, DrainsApart, SelectionsQueued, NoMiss, Enabled;
    if n == 0 {
      InitialSelections(run[0]);
    } else {
      DrainsApartFind(run, actions, n - 1);
      RunGood(run, actions, n - 1);
      var s, a := run[n - 1], actions[n - 1];
      assert run[n - 1 + 1] == Next(s, a) && Enabled(s, a);
      SelectionsQueuedKeep(s, a);
    }
    ReceiptedOnceIff(run, actions, n);
  }

  lemma InitialSelections(s: State)
    requires Initial(s)
    ensures SelectionsQueued(s)
  {
  }

  lemma SelectionsQueuedKeep(s: State, a: Action)
    requires Good(s) && DrainsApart(s) && SelectionsQueued(s) && Enabled(s, a)
    ensures SelectionsQueued(Next(s, a))
    ensures NoMiss(s, a)
  {
    hide Next, Good, DrainsApart;
    forall c, r | c in Next(s, a).conns && Next(s, a).conns[c].stage.Selected? && r in Next(s, a).conns[c].stage.rows
      ensures r in Next(s, a).queue
    {
      SelectionQueuedKeeps(s, a, c, r);
    }
  }

  /** MAIN RESULT. When the drains of one user never overlap, the receipts issued, the messages in the
      hand of a drain and those still queued add up to the finished messages that ask for a receipt. */
  lemma ReceiptsConservedApart(run: seq<State>, actions: seq<Action>, n: nat)
    requires IsRun(run, actions) && Initial(run[0]) && n < |run|
    requires forall m | 0 <= m <= n :: DrainsApart(run[m])
    ensures var s := run[n];
            multiset(Numbers(s.receipts)) + multiset(InHandNeeding(s)) + multiset(QueuedNeeding(s))
              == multiset(FinishedNeeding(s))
  {
    hide *;
    DrainsApartFind(run, actions, n);
    ReceiptsConserved(run, actions, n);
  }
}
