/** What the relay promises about queued messages, receipts and order, over all interleavings. */
module RelayDelivery {
  import opened Models
  import opened OfflineQueue
  import opened Routing
  import opened RelayProtocol

  predicate Needs(s: State, k: nat) {
    k < |s.accepted| && s.accepted[k].routed.needsReceipt
  }

  ghost predicate Receipted(s: State, k: nat) {
    exists j :: 0 <= j < |s.receipts| && s.receipts[j].no == k
  }

  predicate InHandOf(s: State, c: ConnId, k: nat) {
    c in s.conns && s.conns[c].stage.HandingOff? && k in s.conns[c].stage.pending
  }

  ghost predicate InHand(s: State, k: nat) {
    exists c :: InHandOf(s, c, k)
  }

  ghost predicate InQueue(s: State, k: nat) {
    exists r :: r in s.queue && r.payload == Some(k)
  }

  // ----- Receipts -------------------------------------------------------------------------------------

  /** The receipt goes to the sender, names recipient and id, and follows the hand-off. */
  ghost predicate ReceiptOk(s: State, e: Issued) {
    && Needs(s, e.no) && e.no in s.finished
    && e.channel == s.accepted[e.no].sender
    && e.message == DeliveryReceipt(s.accepted[e.no].routed.to, s.accepted[e.no].routed.id)
    && ReachedRecipient(s, e.no)
  }

  /** No receipt is false, and no returned or published message is without one for good. */
  ghost predicate ReceiptsOk(s: State) {
    && (forall j | 0 <= j < |s.receipts| :: ReceiptOk(s, s.receipts[j]))
    && (forall c, k | InHandOf(s, c, k) :: k in s.queued)
    && (forall c, i | (c, i) in s.returned && i < |s.saved| && s.saved[i].payload.Some?
       && Needs(s, s.saved[i].payload.value) ::
          Receipted(s, s.saved[i].payload.value) || InHandOf(s, c, s.saved[i].payload.value))
    && (forall k | k in s.finished && k in s.published && Needs(s, k) :: Receipted(s, k))
  }

  lemma ReceiptedStays(s: State, a: Action, k: nat)
    requires Enabled(s, a) && Receipted(s, k)
    ensures Receipted(Next(s, a), k)
  {
    hide For, Without, Decoded, DecodableIds, ReceiptInfo, EventOf, Route;
    var j :| 0 <= j < |s.receipts| && s.receipts[j].no == k;
    assert Next(s, a).receipts[j].no == k;
  }

  lemma ReceiptOkStays(s: State, a: Action, e: Issued)
    requires ItemsOk(s) && Enabled(s, a) && ReceiptOk(s, e)
    ensures ReceiptOk(Next(s, a), e)
  {
    hide Next, ReachedRecipient;
    HistoryGrows(s, a);
    ReachedStays(s, a, e.no);
  }

  /** What an action adds to the receipts. */
  function NewReceipts(s: State, a: Action): seq<Issued>
    requires Enabled(s, a)
  {
    match a
    case HandOff(c) => ReceiptFor(s, s.conns[c].stage.pending[0], s.conns[c].user)
    case SendReceipt(c) =>
      var no := WorkOf(s, c).no;
      [Issued(no, s.conns[c].user, DeliveryReceipt(s.accepted[no].routed.to, s.accepted[no].routed.id))]
    case _ => []
  }

  lemma ReceiptsAdded(s: State, a: Action)
    requires Enabled(s, a)
    ensures Next(s, a).receipts == s.receipts + NewReceipts(s, a)
  {
  }

  lemma NewReceiptOk(s: State, a: Action, e: Issued)
    requires Inv(s) && ReceiptsOk(s) && Enabled(s, a) && e in NewReceipts(s, a)
    ensures ReceiptOk(Next(s, a), e)
    ensures a.HandOff? ==> e.no == s.conns[a.c].stage.pending[0]
    ensures a.SendReceipt? ==> e.no == WorkOf(s, a.c).no
  {
    hide EventOf, Route, For, Without, Decoded, DecodableIds;
    assert ConnItems(s, a.c) && ConnRows(s, a.c) && ConnFates(s, a.c);
    var next := Next(s, a);
    if a.HandOff? {
      var no := s.conns[a.c].stage.pending[0];
      RouteAgreesWithDrain(s.accepted[no].sender, s.accepted[no].frame);
      assert InHandOf(s, a.c, no);
      assert (a.c, no) in next.handed;
    } else {
      assert ReachedRecipient(s, e.no);
      ReachedStays(s, a, e.no);
    }
  }

  /** A message that needs a receipt gets it when it is handed off. */
  lemma HandOffIssues(s: State, c: ConnId)
    requires Inv(s) && Enabled(s, HandOff(c)) && Needs(s, s.conns[c].stage.pending[0])
    ensures Receipted(Next(s, HandOff(c)), s.conns[c].stage.pending[0])
  {
    var no := s.conns[c].stage.pending[0];
    RouteAgreesWithDrain(s.accepted[no].sender, s.accepted[no].frame);
    assert Next(s, HandOff(c)).receipts[|s.receipts|].no == no;
  }

  /** A hand-off list changes only by being filled from a DELETE and emptied item by item. */
  lemma HandsChange(s: State, a: Action, c: ConnId, k: nat)
    requires ItemsOk(s) && Enabled(s, a)
    ensures InHandOf(Next(s, a), c, k) <==>
            if a == Delete(c) then k in Decoded(s.conns[c].stage.rows)
            else if a == HandOff(c) then k in s.conns[c].stage.pending[1..]
            else InHandOf(s, c, k)
  {
    hide For, Without, Decoded, DecodableIds, ReceiptInfo, EventOf, Route;
    if !Acts(a, c) { OthersUnchanged(s, a, c); } else if c in s.conns { assert ConnItems(s, c); }
  }

  lemma ReturnedKeep(s: State, a: Action, c: ConnId, i: nat)
    requires Inv(s) && ReceiptsOk(s) && Enabled(s, a)
    requires var next := Next(s, a);
             (c, i) in next.returned && i < |next.saved| && next.saved[i].payload.Some?
               && Needs(next, next.saved[i].payload.value)
    ensures var next := Next(s, a);
            Receipted(next, next.saved[i].payload.value) || InHandOf(next, c, next.saved[i].payload.value)
  {
    hide Next, For, Without, Decoded, DecodableIds, ReceiptInfo, EventOf, Route, Receipted;
    var next := Next(s, a);
    ReturnedBefore(s, a, c, i);
    var k := s.saved[i].payload.value;
    HandsChange(s, a, c, k);
    if (c, i) in s.returned {
      if Receipted(s, k) { ReceiptedStays(s, a, k); }
      else if a == HandOff(c) && k == s.conns[c].stage.pending[0] { HandOffIssues(s, c); }
    }
  }

  lemma ReturnedBefore(s: State, a: Action, c: ConnId, i: nat)
    requires Inv(s) && Enabled(s, a) && (c, i) in Next(s, a).returned
    ensures i < |s.saved| && Next(s, a).saved[i] == s.saved[i]
    ensures s.saved[i].payload.Some?
            ==> (Needs(Next(s, a), s.saved[i].payload.value) ==> Needs(s, s.saved[i].payload.value))
    ensures (c, i) !in s.returned
            ==> a == Delete(c)
                && (s.saved[i].payload.Some? ==> s.saved[i].payload.value in Decoded(s.conns[c].stage.rows))
    ensures (c, i) in s.returned && a == Delete(c) ==> s.conns[c].stage.Selected?
  {
    hide Next, For, Without, Decoded, ReceiptInfo, EventOf, Route, FatesOk, ItemsOk;
    if (c, i) !in s.returned {
      ReturnedNext(s, a, c, i);
      assert ConnRows(s, c);
      var rows := s.conns[c].stage.rows;
      DecodedMembers(rows);
      var r :| r in rows && r.id == i && r.payload.Some?;
    }
    HistoryGrows(s, a) by { assert ItemsOk(s) by { InvItems(s); } }
  }

  /** Only a DELETE returns rows. */
  lemma ReturnedNext(s: State, a: Action, c: ConnId, i: nat)
    requires Enabled(s, a) && (c, i) in Next(s, a).returned && (c, i) !in s.returned
    ensures a == Delete(c) && i in DecodableIds(s.conns[c].stage.rows)
  {
  }

  lemma HandsQueued(s: State, a: Action, c: ConnId, k: nat)
    requires Inv(s) && ReceiptsOk(s) && Enabled(s, a) && InHandOf(Next(s, a), c, k)
    ensures k in s.queued
  {
    hide Next, For, Without, Decoded, DecodableIds, ReceiptInfo, EventOf, Route, Receipted, ReceiptOk;
    HandsChange(s, a, c, k);
    if a == Delete(c) {
      assert ConnRows(s, c);
      DecodedMembers(s.conns[c].stage.rows);
      var r :| r in s.conns[c].stage.rows && r.payload == Some(k);
      assert s.saved[r.id].payload == Some(k);
    } else {
      assert InHandOf(s, c, k);
    }
  }

  lemma FinishedReceipted(s: State, a: Action, k: nat)
    requires Inv(s) && ReceiptsOk(s) && Enabled(s, a)
    requires k in Next(s, a).finished && k in Next(s, a).published && Needs(Next(s, a), k)
    ensures Receipted(Next(s, a), k)
  {
    hide For, Without, Decoded, DecodableIds, ReceiptInfo, EventOf, Route, ReceiptOk, ItemsOk, RowsOk, RowsKept,
         QueuedSaved, ReachedRecipient, Subscribers;
    if k in s.finished && k in s.published {
      assert k < |s.accepted| by { assert EndsOk(s); }
      ReceiptedStays(s, a, k);
    } else {
      assert ConnFates(s, a.c);
      assert a.SendReceipt? && k == WorkOf(s, a.c).no;
      assert Next(s, a).receipts[|s.receipts|].no == k;
    }
  }

  lemma ReceiptsKeep(s: State, a: Action)
    requires Inv(s) && ReceiptsOk(s) && Enabled(s, a)
    ensures ReceiptsOk(Next(s, a))
  {
    hide Next, Inv, ReceiptOk, Receipted, NewReceipts, For, Without, Decoded, DecodableIds, Needs, InHandOf;
    var next := Next(s, a);
    ReceiptsAdded(s, a);
    forall j | 0 <= j < |next.receipts| ensures ReceiptOk(next, next.receipts[j]) {
      if j < |s.receipts| {
        assert ItemsOk(s) by { InvItems(s); }
        ReceiptOkStays(s, a, s.receipts[j]);
      } else {
        assert next.receipts[j] == NewReceipts(s, a)[j - |s.receipts|];
        NewReceiptOk(s, a, next.receipts[j]);
      }
    }
    forall c, k | InHandOf(next, c, k) ensures k in next.queued {
      HandsQueued(s, a, c, k);
      InvItems(s);
      HistoryGrows(s, a);
    }
    forall c, i | (c, i) in next.returned && i < |next.saved| && next.saved[i].payload.Some?
      && Needs(next, next.saved[i].payload.value)
      ensures Receipted(next, next.saved[i].payload.value) || InHandOf(next, c, next.saved[i].payload.value)
    {
      ReturnedKeep(s, a, c, i);
    }
    forall k | k in next.finished && k in next.published && Needs(next, k) ensures Receipted(next, k) {
      FinishedReceipted(s, a, k);
    }
  }

  lemma InvItems(s: State)
    requires Inv(s)
    ensures ItemsOk(s)
  {
  }

  // ----- Order ----------------------------------------------------------------------------------------

  /** Items of one connection in increasing order: the order in which it sent them. */
  predicate SentInOrder(s: State, items: seq<nat>) {
    forall p, q | 0 <= p < q < |items| && items[p] < |s.accepted| && items[q] < |s.accepted|
      && s.accepted[items[p]].conn == s.accepted[items[q]].conn :: items[p] < items[q]
  }

  ghost predicate ConnOrder(s: State, c: ConnId)
    requires c in s.conns
  {
    match s.conns[c].stage
    case Selected(rows, _) => InOrder(rows)
    case HandingOff(pending) => SentInOrder(s, pending)
    case Running(_, work) =>
      work != Idle ==> forall k | 0 <= k < |s.accepted| && s.accepted[k].conn == c :: k <= work.no
    case Fresh => true
  }

  /** Rows `i` and `j`, saved in this order for one connection, hold items in this order. */
  ghost predicate PairInOrder(s: State, i: nat, j: nat) {
    i < j < |s.saved| && s.saved[i].payload.Some? && s.saved[j].payload.Some?
    && s.saved[i].payload.value < |s.accepted| && s.saved[j].payload.value < |s.accepted|
    && s.accepted[s.saved[i].payload.value].conn == s.accepted[s.saved[j].payload.value].conn
    ==> s.saved[i].payload.value < s.saved[j].payload.value
  }

  /** A connection's items were saved in the order it sent them. */
  ghost predicate OrderOk(s: State) {
    && InOrder(s.queue)
    && (forall c | c in s.conns :: ConnOrder(s, c))
    && (forall i, j | 0 <= i < j < |s.saved| :: PairInOrder(s, i, j))
  }

  /** The payloads of saved rows in row order are in sending order. */
  lemma DecodedSentInOrder(s: State, rows: seq<Row<nat>>)
    requires SavedOk(s) && OrderOk(s) && InOrder(rows) && forall r | r in rows :: r.id < |s.saved| && s.saved[r.id] == r
    ensures SentInOrder(s, Decoded(rows))
  {
    hide Decoded, InOrder;
    var items := Decoded(rows);
    forall p, q | 0 <= p < q < |items| && items[p] < |s.accepted| && items[q] < |s.accepted|
      && s.accepted[items[p]].conn == s.accepted[items[q]].conn
      ensures items[p] < items[q]
    {
      var a, b := DecodedPositions(rows, p, q);
      assert rows[a] in rows && rows[b] in rows;
      assert rows[a].id < rows[b].id by { OrderedPair(rows, a, b); }
      assert PairInOrder(s, rows[a].id, rows[b].id);
    }
  }

  lemma OrderedPair(rows: seq<Row<nat>>, a: nat, b: nat)
    requires InOrder(rows) && a < b < |rows|
    ensures rows[a].id < rows[b].id
  {
  }

  /** Only Accept adds an item, and it is one of the acting connection. */
  lemma AcceptedNext(s: State, a: Action)
    requires ItemsOk(s) && Enabled(s, a)
    ensures var next := Next(s, a);
            && s.accepted <= next.accepted
            && (|next.accepted| > |s.accepted|
               ==> a.Accept? && |next.accepted| == |s.accepted| + 1 && next.accepted[|s.accepted|].conn == a.c)
  {
    hide For, Without, Decoded, DecodableIds, ReceiptInfo, EventOf, Route;
  }

  lemma SentInOrderStays(s: State, next: State, items: seq<nat>)
    requires s.accepted <= next.accepted && SentInOrder(s, items) && forall k | k in items :: k < |s.accepted|
    ensures SentInOrder(next, items)
  {
    assert forall p | 0 <= p < |items| :: items[p] in items;
  }

  lemma HandOffOrder(s: State, c: ConnId)
    requires Inv(s) && OrderOk(s) && Enabled(s, HandOff(c))
    ensures c in Next(s, HandOff(c)).conns && ConnOrder(Next(s, HandOff(c)), c)
  {
  }

  /** The item in hand stays the last one its connection sent. */
  lemma WorkOrder(s: State, a: Action, c: ConnId)
    requires Inv(s) && OrderOk(s) && Enabled(s, a) && Acts(a, c) && c in Next(s, a).conns
    requires Next(s, a).conns[c].stage.Running?
    ensures ConnOrder(Next(s, a), c)
  {
    hide For, Without, Decoded, DecodableIds, ReceiptInfo, EventOf, Route, InOrder, SentInOrder, RowsOk, RowsKept,
         FatesOk, PairInOrder, Subscribers;
    assert !a.Open? ==> c in s.conns && ConnOrder(s, c);
    AcceptedNext(s, a);
  }

  lemma ActorOrder(s: State, a: Action, c: ConnId)
    requires Inv(s) && OrderOk(s) && Enabled(s, a) && Acts(a, c) && c in Next(s, a).conns
    ensures ConnOrder(Next(s, a), c)
  {
    hide For, Without, Decoded, DecodableIds, ReceiptInfo, EventOf, Route, InOrder, SentInOrder, OrderOk, RowsKept,
         FatesOk, Subscribers;
    match a {
      case Select(_) => ForInOrder(s.queue, s.conns[c].user) by { assert InOrder(s.queue) by { QueueInOrder(s); } }
      case Delete(_) =>
        SelectionInOrder(s, c);
        DecodedSentInOrder(s, s.conns[c].stage.rows);
        SentInOrderStays(s, Next(s, a), Decoded(s.conns[c].stage.rows)) by {
          DecodedMembers(s.conns[c].stage.rows);
          assert ConnRows(s, c);
        }
      case HandOff(_) => HandOffOrder(s, c);
      case Open(_, _, _) =>
      case _ => WorkOrder(s, a, c);
    }
  }

  lemma QueueInOrder(s: State)
    requires OrderOk(s)
    ensures InOrder(s.queue)
  {
  }

  lemma SelectionInOrder(s: State, c: ConnId)
    requires Inv(s) && OrderOk(s) && c in s.conns && s.conns[c].stage.Selected?
    ensures InOrder(s.conns[c].stage.rows)
    ensures forall r | r in s.conns[c].stage.rows :: r.id < |s.saved| && s.saved[r.id] == r
  {
  }

  lemma OthersOrder(s: State, a: Action, c: ConnId)
    requires Inv(s) && OrderOk(s) && Enabled(s, a) && !Acts(a, c) && c in s.conns
    ensures c in Next(s, a).conns && ConnOrder(Next(s, a), c)
  {
    hide Next, InOrder, SentInOrder;
    assert ConnOrder(s, c) && ConnItems(s, c) && ConnRows(s, c);
    OthersUnchanged(s, a, c);
    AcceptedNext(s, a);
    if s.conns[c].stage.HandingOff? { SentInOrderStays(s, Next(s, a), s.conns[c].stage.pending); }
  }

  lemma QueueOrderKeeps(s: State, a: Action)
    requires Inv(s) && OrderOk(s) && Enabled(s, a)
    ensures InOrder(Next(s, a).queue)
  {
    hide Next, For, Without, DecodableIds;
    RowsNext(s, a);
    if a.Delete? { WithoutInOrder(s.queue, DecodableIds(s.conns[a.c].stage.rows)); }
    if a.Save? || a.SaveForeign? { assert forall r | r in s.queue :: r.id < |s.saved|; }
  }

  lemma PairsKeep(s: State, a: Action, i: nat, j: nat)
    requires Inv(s) && OrderOk(s) && Enabled(s, a)
    ensures PairInOrder(Next(s, a), i, j)
  {
    hide Next, For, Without, DecodableIds, InOrder;
    RowsNext(s, a);
    AcceptedNext(s, a);
    if j < |s.saved| {
      assert PairInOrder(s, i, j);
    } else if a.Save? {
      assert ConnOrder(s, a.c) && ConnFates(s, a.c) && ConnItems(s, a.c);
      assert i < |s.saved| && s.saved[i].payload.Some? ==> s.saved[i].payload.value in s.queued;
    }
  }

  lemma OrderKeeps(s: State, a: Action)
    requires Inv(s) && OrderOk(s) && Enabled(s, a)
    ensures OrderOk(Next(s, a))
  {
    hide Next, ConnOrder, Inv, InOrder, PairInOrder;
    QueueOrderKeeps(s, a);
    forall c | c in Next(s, a).conns ensures ConnOrder(Next(s, a), c) {
      if Acts(a, c) { ActorOrder(s, a, c); } else { OthersUnchanged(s, a, c); OthersOrder(s, a, c); }
    }
    forall i, j | 0 <= i < j < |Next(s, a).saved| ensures PairInOrder(Next(s, a), i, j) { PairsKeep(s, a, i, j); }
  }

  // ----- Exactly one receipt --------------------------------------------------------------------------

  /** A message in hand is neither queued nor receipted, nor in another hand. */
  ghost predicate HandOnce(s: State, c: ConnId, k: nat) {
    InHandOf(s, c, k) && Needs(s, k) ==>
      !Receipted(s, k) && !InQueue(s, k) && forall d | d != c :: !InHandOf(s, d, k)
  }

  /** Every message that needs a receipt is counted in at most one place. */
  ghost predicate ReceiptsOnce(s: State) {
    && (forall i, j | 0 <= i < j < |s.receipts| :: s.receipts[i].no != s.receipts[j].no)
    && (forall c, k :: HandOnce(s, c, k))
    && (forall k | Needs(s, k) && InQueue(s, k) :: !Receipted(s, k))
  }

  /** The DELETE of `c` still finds every row it has selected that asks for a receipt. */
  ghost predicate Finds(s: State, c: ConnId)
    requires c in s.conns && s.conns[c].stage.Selected?
  {
    forall r | r in s.conns[c].stage.rows && r.payload.Some? && Needs(s, r.payload.value) :: r in s.queue
  }

  ghost predicate Good(s: State) {
    Inv(s) && ReceiptsOk(s) && OrderOk(s)
  }

  lemma NeedsBefore(s: State, a: Action, k: nat)
    requires ItemsOk(s) && Enabled(s, a) && k < |s.accepted|
    ensures Needs(Next(s, a), k) <==> Needs(s, k)
  {
  }

  lemma ReceiptedNext(s: State, a: Action, k: nat)
    requires Good(s) && Enabled(s, a) && Receipted(Next(s, a), k) && !Receipted(s, k)
    ensures (a.HandOff? && k == s.conns[a.c].stage.pending[0]) || (a.SendReceipt? && k == WorkOf(s, a.c).no)
  {
    hide Next, For, Without, Decoded, DecodableIds, EventOf, Route, OrderOk, ReceiptsOk, Inv;
    ReceiptsAdded(s, a);
    var j :| 0 <= j < |Next(s, a).receipts| && Next(s, a).receipts[j].no == k;
    if j >= |s.receipts| { assert Next(s, a).receipts[j] == NewReceipts(s, a)[j - |s.receipts|]; }
  }

  lemma QueueNext(s: State, a: Action, k: nat)
    requires Good(s) && Enabled(s, a) && InQueue(Next(s, a), k)
    ensures InQueue(s, k) || (a.Save? && k == WorkOf(s, a.c).no)
  {
  }

  lemma InQueueQueued(s: State, k: nat)
    requires Good(s) && InQueue(s, k)
    ensures k in s.queued && k in s.finished && k !in s.published && k < |s.accepted|
  {
  }

  lemma InHandQueued(s: State, c: ConnId, k: nat)
    requires Good(s) && InHandOf(s, c, k)
    ensures k in s.queued && k in s.finished && k !in s.published && k < |s.accepted|
  {
  }

  lemma ReceiptedFinished(s: State, k: nat)
    requires Good(s) && Receipted(s, k)
    ensures k in s.finished && Needs(s, k)
  {
  }

  lemma WorkUnfinished(s: State, a: Action)
    requires Good(s) && Enabled(s, a) && (a.Save? || a.SendReceipt?)
    ensures WorkOf(s, a.c).no !in s.finished && WorkOf(s, a.c).no !in s.queued
  {
  }

  /** The hand-off list of a connection names no item twice. */
  lemma PendingDistinct(s: State, c: ConnId)
    requires Good(s) && Enabled(s, HandOff(c))
    ensures s.conns[c].stage.pending[0] !in s.conns[c].stage.pending[1..]
  {
  }

  lemma FirstInHand(s: State, c: ConnId)
    requires Enabled(s, HandOff(c))
    ensures InHandOf(s, c, s.conns[c].stage.pending[0])
  {
  }

  /** The rows a drain returns, when its DELETE finds them, leave the queue for its hand. */
  lemma DeleteMoves(s: State, c: ConnId, k: nat)
    requires Good(s) && Enabled(s, Delete(c)) && Finds(s, c) && k in Decoded(s.conns[c].stage.rows) && Needs(s, k)
    ensures InQueue(s, k) && !InQueue(Next(s, Delete(c)), k)
  {
    hide Next, For, Without, Decoded, EventOf, Route, ReceiptsOk;
    var rows := s.conns[c].stage.rows;
    DecodedMembers(rows);
    var r :| r in rows && r.payload == Some(k);
    assert r in s.queue;
    RowsNext(s, Delete(c));
    assert r.id in DecodableIds(rows);
    forall x | x in Next(s, Delete(c)).queue ensures x.payload != Some(k) {
      assert x in s.queue && s.saved[x.id] == x && s.saved[r.id] == r;
    }
  }

  lemma HandOnceKeeps(s: State, a: Action, c: ConnId, k: nat)
    requires Good(s) && ReceiptsOnce(s) && Enabled(s, a) && (a.Delete? ==> Finds(s, a.c))
    requires InHandOf(Next(s, a), c, k) && Needs(Next(s, a), k)
    ensures !Receipted(Next(s, a), k) && !InQueue(Next(s, a), k)
  {
    hide Next, For, Without, Decoded, DecodableIds, EventOf, Route, OrderOk, ReceiptsOk, Inv, InQueue, Receipted, Finds;
    var next := Next(s, a);
    GoodItems(s);
    HandsChange(s, a, c, k);
    HandsQueued(s, a, c, k) by { GoodParts(s); }
    QueuedKnown(s, k);
    NeedsBefore(s, a, k);
    assert HandOnce(s, c, k);
    if Receipted(next, k) && !Receipted(s, k) {
      ReceiptedNext(s, a, k);
      if a.SendReceipt? {
        WorkUnfinished(s, a);
      } else {
        PendingDistinct(s, a.c);
        FirstInHand(s, a.c);
      }
    }
    if InQueue(next, k) {
      QueueNext(s, a, k);
      if a.Save? { WorkUnfinished(s, a); }
    }
    if a == Delete(c) {
      DeleteMoves(s, c, k);
    }
  }

  lemma GoodItems(s: State)
    requires Good(s)
    ensures ItemsOk(s)
  {
  }

  lemma GoodParts(s: State)
    requires Good(s)
    ensures Inv(s) && ReceiptsOk(s)
  {
  }

  lemma QueuedKnown(s: State, k: nat)
    requires Good(s) && k in s.queued
    ensures k < |s.accepted| && k in s.finished
  {
  }

  lemma HandsApart(s: State, a: Action, c: ConnId, d: ConnId, k: nat)
    requires Good(s) && ReceiptsOnce(s) && Enabled(s, a) && (a.Delete? ==> Finds(s, a.c))
    requires c != d && InHandOf(Next(s, a), c, k) && Needs(Next(s, a), k)
    ensures !InHandOf(Next(s, a), d, k)
  {
    hide Next, For, Without, Decoded, DecodableIds, EventOf, Route, OrderOk, ReceiptsOk, Inv, InQueue, Receipted, Finds;
    GoodItems(s);
    HandsChange(s, a, c, k);
    HandsChange(s, a, d, k);
    HandsQueued(s, a, c, k) by { GoodParts(s); }
    QueuedKnown(s, k);
    NeedsBefore(s, a, k);
    assert HandOnce(s, c, k) && HandOnce(s, d, k);
    if a == Delete(c) && InHandOf(Next(s, a), d, k) { DeleteMoves(s, c, k); }
    if a == Delete(d) && InHandOf(Next(s, a), d, k) { DeleteMoves(s, d, k); }
  }

  lemma ReceiptNew(s: State, a: Action, e: Issued)
    requires Good(s) && ReceiptsOnce(s) && Enabled(s, a) && e in NewReceipts(s, a)
    ensures !Receipted(s, e.no) && |NewReceipts(s, a)| == 1
    ensures !InQueue(s, e.no)
  {
    hide Next, For, Without, Decoded, DecodableIds, EventOf, Route, OrderOk, InQueue, Receipted;
    NewReceiptOk(s, a, e);
    if Receipted(s, e.no) { ReceiptedFinished(s, e.no); }
    if InQueue(s, e.no) { InQueueQueued(s, e.no); }
    if a.SendReceipt? {
      WorkUnfinished(s, a);
    } else {
      assert InHandOf(s, a.c, e.no) && HandOnce(s, a.c, e.no);
      InHandQueued(s, a.c, e.no);
      NeedsBefore(s, a, e.no);
    }
  }

  lemma QueueOnceKeeps(s: State, a: Action, k: nat)
    requires Good(s) && ReceiptsOnce(s) && Enabled(s, a)
    requires Needs(Next(s, a), k) && InQueue(Next(s, a), k)
    ensures !Receipted(Next(s, a), k)
  {
    hide Next, For, Without, Decoded, DecodableIds, EventOf, Route, OrderOk, ReceiptsOk, Inv, InQueue, Receipted,
         InHandOf;
    GoodItems(s);
    QueueNext(s, a, k);
    if InQueue(s, k) {
      InQueueQueued(s, k);
      NeedsBefore(s, a, k);
    } else {
      WorkUnfinished(s, a);
    }
    if Receipted(s, k) { ReceiptedFinished(s, k); }
    if Receipted(Next(s, a), k) {
      ReceiptedNext(s, a, k);
      ReceiptsAdded(s, a);
      IssuedHere(s, a, k);
    }
  }

  /** An item receipted by this action was not receipted or queued before. */
  lemma IssuedHere(s: State, a: Action, k: nat)
    requires Good(s) && ReceiptsOnce(s) && Enabled(s, a) && Receipted(Next(s, a), k) && !Receipted(s, k)
    ensures !InQueue(s, k) && !a.Save?
  {
    hide Next, For, Without, Decoded, DecodableIds, EventOf, Route, OrderOk, ReceiptsOk, Inv, InQueue, InHandOf,
         NewReceipts, ReceiptsOnce;
    ReceiptsAdded(s, a);
    ReceiptedNext(s, a, k);
    var j :| 0 <= j < |Next(s, a).receipts| && Next(s, a).receipts[j].no == k;
    if j >= |s.receipts| {
      var e := NewReceipts(s, a)[j - |s.receipts|];
      assert Next(s, a).receipts[j] == e;
      ReceiptNew(s, a, e);
    }
  }

  lemma ReceiptsOnceKeeps(s: State, a: Action)
    requires Good(s) && ReceiptsOnce(s) && Enabled(s, a) && (a.Delete? ==> Finds(s, a.c))
    ensures ReceiptsOnce(Next(s, a))
  {
    hide Next, Good, For, Without, Decoded, DecodableIds, EventOf, Route, InQueue, Finds, InHandOf, NewReceipts, Needs;
    var next := Next(s, a);
    ReceiptsAdded(s, a);
    forall i, j | 0 <= i < j < |next.receipts| ensures next.receipts[i].no != next.receipts[j].no {
      if j >= |s.receipts| {
        var e := NewReceipts(s, a)[j - |s.receipts|];
        assert next.receipts[j] == e;
        ReceiptNew(s, a, e);
        assert next.receipts[i] == s.receipts[i];
      }
    }
    forall c, k ensures HandOnce(next, c, k) {
      if InHandOf(next, c, k) && Needs(next, k) {
        HandOnceKeeps(s, a, c, k);
        forall d | d != c ensures !InHandOf(next, d, k) { HandsApart(s, a, c, d, k); }
      }
    }
    forall k | Needs(next, k) && InQueue(next, k) ensures !Receipted(next, k) { QueueOnceKeeps(s, a, k); }
  }

  /** A DELETE that misses a row that asks for a receipt counts its message twice. */
  lemma MissCountsTwice(s: State, c: ConnId)
    requires Good(s) && Enabled(s, Delete(c)) && !Finds(s, c)
    ensures !ReceiptsOnce(Next(s, Delete(c)))
  {
    hide Next, For, Without, Decoded, DecodableIds, EventOf, Route, OrderOk;
    var next, rows := Next(s, Delete(c)), s.conns[c].stage.rows;
    var r :| r in rows && r.payload.Some? && Needs(s, r.payload.value) && r !in s.queue;
    var k := r.payload.value;
    assert ConnRows(s, c);
    assert s.saved[r.id] == r;
    var d :| (d, r.id) in s.returned;
    DecodedMembers(rows);
    HandsChange(s, Delete(c), c, k);
    NeedsBefore(s, Delete(c), k);
    assert InHandOf(next, c, k);
    if Receipted(s, k) {
      ReceiptedStays(s, Delete(c), k);
    } else {
      HandsChange(s, Delete(c), d, k);
      assert d != c && InHandOf(next, d, k);
    }
    assert !HandOnce(next, c, k);
  }
}
