/** The relay as a state machine over many connections (relay/src/lib.rs and the offline queue of
    shared/src/repository.rs). A sender's XADD, PUBLISH, receipt and INSERT are separate steps; so
    are a connection's SELECT, DELETE, hand-offs and SUBSCRIBE. Any running connection may be
    closed between its steps, which drops the frame in hand. */
module RelayProtocol {
  import opened Models
  import opened OfflineQueue
  import opened Routing

  type ConnId = nat

  /** An accepted frame; items are named by their position in `accepted`. */
  datatype Item = Item(conn: ConnId, sender: User, frame: IncomingMessage, routed: Routed)

  /** What a connection's receive loop holds. */
  datatype Work =
    | Idle
    | Accepted(no: nat)    // before the XADD
    | Logged(no: nat)      // before the PUBLISH
    | Delivered(no: nat)   // published to a subscriber, receipt due
    | Missed(no: nat)      // published to nobody, to be queued

  datatype Stage =
    | Fresh
    | Selected(rows: seq<Row<nat>>, since: nat)   // `since` rows had been saved at the SELECT
    | HandingOff(pending: seq<nat>)
    | Running(subscribed: bool, work: Work)

  datatype Conn = Conn(user: User, logs: bool, stage: Stage)

  /** A delivery receipt with the user channel it goes to. */
  datatype Issued = Issued(no: nat, channel: User, message: OutgoingMessage)

  /** The fields from `users` on are history: every connection ever opened, every frame accepted,
      every row saved, and what happened to each item. */
  datatype State = State(
    conns: map<ConnId, Conn>,
    queue: seq<Row<nat>>,
    stream: seq<DatabaseEvent>,
    users: map<ConnId, User>,
    accepted: seq<Item>,
    saved: seq<Row<nat>>,
    returned: set<(ConnId, nat)>,
    handed: set<(ConnId, nat)>,
    finished: set<nat>,
    published: set<nat>,
    queued: set<nat>,
    receipts: seq<Issued>)

  datatype Action =
    | Open(c: ConnId, user: User, logs: bool)
    | Select(c: ConnId)
    | Delete(c: ConnId)
    | HandOff(c: ConnId)
    | Start(c: ConnId)
    | Subscribe(c: ConnId)
    | Accept(c: ConnId, frame: IncomingMessage)
    | Log(c: ConnId)
    | Publish(c: ConnId)
    | SendReceipt(c: ConnId)
    | Save(c: ConnId)
    | Close(c: ConnId)
    | SaveForeign(to: User)   // a row whose payload does not decode

  function WorkOf(s: State, c: ConnId): Work {
    if c in s.conns && s.conns[c].stage.Running? then s.conns[c].stage.work else Idle
  }

  predicate Enabled(s: State, a: Action) {
    match a
    case Open(c, _, _) => c !in s.users
    case SaveForeign(_) => true
    case Select(c) => c in s.conns && s.conns[c].stage.Fresh?
    case Delete(c) => c in s.conns && s.conns[c].stage.Selected?
    case HandOff(c) =>
      c in s.conns && s.conns[c].stage.HandingOff? && s.conns[c].stage.pending != []
      && s.conns[c].stage.pending[0] < |s.accepted|
    case Start(c) => c in s.conns && s.conns[c].stage == HandingOff([])
    case Subscribe(c) => c in s.conns && s.conns[c].stage.Running? && !s.conns[c].stage.subscribed
    case Accept(c, frame) =>
      c in s.conns && s.conns[c].stage.Running? && s.conns[c].stage.work.Idle? && Route(s.conns[c].user, frame).Some?
    case Log(c) => WorkOf(s, c).Accepted? && WorkOf(s, c).no < |s.accepted|
    case Publish(c) => WorkOf(s, c).Logged? && WorkOf(s, c).no < |s.accepted|
    case SendReceipt(c) => WorkOf(s, c).Delivered? && WorkOf(s, c).no < |s.accepted|
    case Save(c) => WorkOf(s, c).Missed? && WorkOf(s, c).no < |s.accepted|
    case Close(c) => c in s.conns && s.conns[c].stage.Running?
  }

  function SetStage(s: State, c: ConnId, stage: Stage): map<ConnId, Conn>
    requires c in s.conns
  {
    s.conns[c := s.conns[c].(stage := stage)]
  }

  function SetWork(s: State, c: ConnId, work: Work): map<ConnId, Conn>
    requires c in s.conns && s.conns[c].stage.Running?
  {
    SetStage(s, c, s.conns[c].stage.(work := work))
  }

  function Subscribers(s: State, user: User): set<ConnId> {
    set c | c in s.conns && s.conns[c].user == user && s.conns[c].stage.Running? && s.conns[c].stage.subscribed
  }

  /** The receipt for `no`, naming `recipient`. */
  function ReceiptFor(s: State, no: nat, recipient: User): seq<Issued>
    requires no < |s.accepted|
  {
    var info := ReceiptInfo(s.accepted[no].routed.outgoing);
    if info.Some? then [Issued(no, info.value.0, DeliveryReceipt(recipient, info.value.1))] else []
  }

  function LogStep(s: State, c: ConnId): State
    requires Enabled(s, Log(c))
  {
    var no := WorkOf(s, c).no;
    var event := EventOf(s.conns[c].user, s.accepted[no].routed);
    s.(conns := SetWork(s, c, Logged(no)),
       stream := s.stream + if s.conns[c].logs && event.Some? then [event.value] else [])
  }

  function PublishStep(s: State, c: ConnId): State
    requires Enabled(s, Publish(c))
  {
    var no := WorkOf(s, c).no;
    var r := s.accepted[no].routed;
    var receivers := Subscribers(s, r.to);
    if receivers != {} then
      var s1 := s.(handed := s.handed + (set d | d in receivers :: (d, no)), published := s.published + {no});
      if r.needsReceipt then s1.(conns := SetWork(s, c, Delivered(no)))
      else s1.(conns := SetWork(s, c, Idle), finished := s.finished + {no})
    else if r.storeOffline then s.(conns := SetWork(s, c, Missed(no)))
    else s.(conns := SetWork(s, c, Idle), finished := s.finished + {no})
  }

  function SaveRow(s: State, to: User, payload: Option<nat>): State {
    var row := Row(|s.saved|, to, payload);
    s.(queue := s.queue + [row], saved := s.saved + [row])
  }

  function Next(s: State, a: Action): State
    requires Enabled(s, a)
  {
    match a
    case Open(c, user, logs) => s.(conns := s.conns[c := Conn(user, logs, Fresh)], users := s.users[c := user])
    case SaveForeign(to) => SaveRow(s, to, None)
    case Select(c) => s.(conns := SetStage(s, c, Selected(For(s.queue, s.conns[c].user), |s.saved|)))
    case Delete(c) =>
      var rows := s.conns[c].stage.rows;
      s.(conns := SetStage(s, c, HandingOff(Decoded(rows))), queue := Without(s.queue, DecodableIds(rows)),
         returned := s.returned + (set id | id in DecodableIds(rows) :: (c, id)))
    case HandOff(c) =>
      var no := s.conns[c].stage.pending[0];
      s.(conns := SetStage(s, c, HandingOff(s.conns[c].stage.pending[1..])), handed := s.handed + {(c, no)},
         receipts := s.receipts + ReceiptFor(s, no, s.conns[c].user))
    case Start(c) => s.(conns := SetStage(s, c, Running(false, Idle)))
    case Subscribe(c) => s.(conns := SetStage(s, c, s.conns[c].stage.(subscribed := true)))
    case Accept(c, frame) =>
      var user := s.conns[c].user;
      s.(conns := SetWork(s, c, Accepted(|s.accepted|)),
         accepted := s.accepted + [Item(c, user, frame, Route(user, frame).value)])
    case Log(c) => LogStep(s, c)
    case Publish(c) => PublishStep(s, c)
    case SendReceipt(c) =>
      var no := WorkOf(s, c).no;
      var r := s.accepted[no].routed;
      s.(conns := SetWork(s, c, Idle), finished := s.finished + {no},
         receipts := s.receipts + [Issued(no, s.conns[c].user, DeliveryReceipt(r.to, r.id))])
    case Save(c) =>
      var no := WorkOf(s, c).no;
      SaveRow(s.(conns := SetWork(s, c, Idle), finished := s.finished + {no}, queued := s.queued + {no}),
              s.accepted[no].routed.to, Some(no))
    case Close(c) => s.(conns := s.conns - {c})
  }

  ghost predicate Initial(s: State) {
    s == State(map[], [], [], map[], [], [], {}, {}, {}, {}, {}, [])
  }

  ghost predicate IsRun(run: seq<State>, actions: seq<Action>) {
    && |run| == |actions| + 1
    && forall i | 0 <= i < |actions| :: Enabled(run[i], actions[i]) && run[i + 1] == Next(run[i], actions[i])
  }

  // ----- The invariant --------------------------------------------------------------------------------

  /** The connection is known, and holds an item it has accepted itself. */
  ghost predicate ConnItems(s: State, c: ConnId)
    requires c in s.conns
  {
    && c in s.users && s.users[c] == s.conns[c].user
    && (WorkOf(s, c) != Idle ==> WorkOf(s, c).no < |s.accepted| && s.accepted[WorkOf(s, c).no].conn == c)
  }

  /** Every frame was accepted on a connection authenticated as its sender. */
  ghost predicate ItemsOk(s: State) {
    && (forall c | c in s.conns :: ConnItems(s, c))
    && (forall k | 0 <= k < |s.accepted| ::
          var i := s.accepted[k];
          i.conn in s.users && i.sender == s.users[i.conn] && Route(i.sender, i.frame) == Some(i.routed))
  }

  /** A selection holds rows saved before it, and a hand-off list items, for this connection's user. */
  ghost predicate ConnRows(s: State, c: ConnId)
    requires c in s.conns
  {
    match s.conns[c].stage
    case Selected(rows, since) =>
      since <= |s.saved| && forall r | r in rows :: r.id < since && s.saved[r.id] == r && r.to == s.conns[c].user
    case HandingOff(pending) =>
      forall k | k in pending :: k < |s.accepted| && s.accepted[k].routed.to == s.conns[c].user
    case _ => true
  }

  /** Rows are named by their position in `saved`, and keep item and recipient together. */
  ghost predicate SavedOk(s: State) {
    && (forall i | 0 <= i < |s.saved| :: s.saved[i].id == i)
    && (forall i | 0 <= i < |s.saved| && s.saved[i].payload.Some? ::
          s.saved[i].payload.value < |s.accepted| && s.accepted[s.saved[i].payload.value].routed.to == s.saved[i].to)
    && (forall r | r in s.queue :: r.id < |s.saved| && s.saved[r.id] == r)
  }

  ghost predicate RowsOk(s: State) {
    SavedOk(s) && forall c | c in s.conns :: ConnRows(s, c)
  }

  /** Each row leaves the queue only through a drain for its recipient, and only if it decodes. */
  ghost predicate RowsKept(s: State) {
    && (forall i | 0 <= i < |s.saved| && s.saved[i] !in s.queue ::
          s.saved[i].payload.Some? && exists c :: (c, i) in s.returned)
    && (forall c, i | (c, i) in s.returned :: c in s.users && i < |s.saved| && s.users[c] == s.saved[i].to)
  }

  /** Item `k` was handed to some connection of its recipient. */
  ghost predicate ReachedRecipient(s: State, k: nat) {
    k < |s.accepted| && exists c :: (c, k) in s.handed && c in s.users && s.users[c] == s.accepted[k].routed.to
  }

  /** An item in hand is not finished, and is published exactly when its receipt is due. */
  ghost predicate ConnFates(s: State, c: ConnId)
    requires c in s.conns
  {
    var w := WorkOf(s, c);
    w != Idle ==>
      && w.no < |s.accepted|
      && w.no !in s.finished && w.no !in s.queued && (w.no in s.published <==> w.Delivered?)
      && (w.Delivered? ==> s.accepted[w.no].routed.needsReceipt)
      && (w.Missed? ==> s.accepted[w.no].routed.storeOffline)
  }

  /** A finished storable item is published or queued, never both. */
  ghost predicate EndsOk(s: State) {
    && s.published !! s.queued
    && (forall k | k in s.finished || k in s.published || k in s.queued :: k < |s.accepted|)
    && (forall k | k in s.finished && s.accepted[k].routed.storeOffline :: k in s.published || k in s.queued)
    && (forall k | k in s.queued :: k in s.finished && s.accepted[k].routed.storeOffline)
    && (forall k | k in s.published :: ReachedRecipient(s, k))
  }

  /** Exactly the queued items have a row, and each has one. */
  ghost predicate QueuedSaved(s: State) {
    && (forall i | 0 <= i < |s.saved| && s.saved[i].payload.Some? :: s.saved[i].payload.value in s.queued)
    && (forall k | k in s.queued :: exists i :: 0 <= i < |s.saved| && s.saved[i].payload == Some(k))
    && (forall i, j | 0 <= i < j < |s.saved| && s.saved[i].payload.Some? && s.saved[j].payload.Some? ::
          s.saved[i].payload != s.saved[j].payload)
  }

  ghost predicate FatesOk(s: State) {
    EndsOk(s) && QueuedSaved(s) && forall c | c in s.conns :: ConnFates(s, c)
  }

  ghost predicate Inv(s: State) {
    ItemsOk(s) && RowsOk(s) && RowsKept(s) && FatesOk(s)
  }

  // ----- Every action keeps it ------------------------------------------------------------------------

  /** Whether the action is one of connection `c`. */
  predicate Acts(a: Action, c: ConnId) {
    !a.SaveForeign? && a.c == c
  }

  lemma OthersUnchanged(s: State, a: Action, d: ConnId)
    requires Enabled(s, a) && !Acts(a, d)
    ensures d in Next(s, a).conns <==> d in s.conns
    ensures d in s.conns ==> Next(s, a).conns[d] == s.conns[d] && WorkOf(Next(s, a), d) == WorkOf(s, d)
  {
    hide For, Without, Decoded, DecodableIds, ReceiptInfo, EventOf, Route;
  }

  /** How an action changes the rows. */
  lemma RowsNext(s: State, a: Action)
    requires Enabled(s, a)
    ensures var next := Next(s, a);
            if a.Save? || a.SaveForeign? then
              var row := Row(|s.saved|, if a.Save? then s.accepted[WorkOf(s, a.c).no].routed.to else a.to,
                             if a.Save? then Some(WorkOf(s, a.c).no) else None);
              next.saved == s.saved + [row] && next.queue == s.queue + [row]
            else next.saved == s.saved
                 && next.queue == if a.Delete? then Without(s.queue, DecodableIds(s.conns[a.c].stage.rows)) else s.queue
    ensures Next(s, a).queued == s.queued + if a.Save? then {WorkOf(s, a.c).no} else {}
    ensures Next(s, a).returned
            == s.returned + if a.Delete? then (set id | id in DecodableIds(s.conns[a.c].stage.rows) :: (a.c, id))
              else {}
  {
    hide For, Without, Decoded, DecodableIds, ReceiptInfo, EventOf, Route;
  }

  lemma UsersGrow(s: State, a: Action)
    requires Enabled(s, a)
    ensures forall c | c in s.users :: c in Next(s, a).users && Next(s, a).users[c] == s.users[c]
  {
    hide For, Without, Decoded, DecodableIds, ReceiptInfo, EventOf, Route, Subscribers;
  }

  lemma AcceptedGrow(s: State, a: Action)
    requires Enabled(s, a)
    ensures s.accepted <= Next(s, a).accepted
  {
    hide For, Without, Decoded, DecodableIds, ReceiptInfo, EventOf, Subscribers;
  }

  lemma FatesGrow(s: State, a: Action)
    requires Enabled(s, a)
    ensures s.handed <= Next(s, a).handed && s.finished <= Next(s, a).finished && s.published <= Next(s, a).published
  {
    hide For, Without, Decoded, DecodableIds, ReceiptInfo, EventOf, Route, Subscribers;
  }

  /** History only grows. */
  lemma HistoryGrows(s: State, a: Action)
    requires Enabled(s, a)
    ensures var next := Next(s, a);
            && s.accepted <= next.accepted && s.saved <= next.saved
            && (forall c | c in s.users :: c in next.users && next.users[c] == s.users[c])
            && s.handed <= next.handed && s.returned <= next.returned
            && s.finished <= next.finished && s.published <= next.published && s.queued <= next.queued
  {
    hide Next, For, Without, Decoded, DecodableIds;
    UsersGrow(s, a);
    AcceptedGrow(s, a);
    FatesGrow(s, a);
    RowsNext(s, a);
  }

  lemma ReachedStays(s: State, a: Action, k: nat)
    requires ItemsOk(s) && Enabled(s, a) && ReachedRecipient(s, k)
    ensures ReachedRecipient(Next(s, a), k)
  {
  }

  lemma ActorItems(s: State, a: Action, c: ConnId)
    requires ItemsOk(s) && Enabled(s, a) && Acts(a, c) && c in Next(s, a).conns
    ensures ConnItems(Next(s, a), c)
  {
    hide For, Without, Decoded, DecodableIds, ReceiptInfo, EventOf, Route;
    assert !a.Open? ==> c in s.conns && ConnItems(s, c);
  }

  lemma ItemsKeep(s: State, a: Action)
    requires ItemsOk(s) && Enabled(s, a)
    ensures ItemsOk(Next(s, a))
  {
    var next := Next(s, a);
    assert next.accepted == s.accepted
           || (a.Accept? && next.accepted
               == s.accepted + [Item(a.c, s.conns[a.c].user, a.frame, Route(s.conns[a.c].user, a.frame).value)])
    by {
      hide For, Without, Decoded, DecodableIds, ReceiptInfo, EventOf, Route;
    }
    HistoryGrows(s, a);
    if a.Accept? { assert ConnItems(s, a.c); }
    forall c | c in next.conns ensures ConnItems(next, c) {
      if Acts(a, c) {
        ActorItems(s, a, c);
      } else {
        OthersUnchanged(s, a, c);
        assert ConnItems(s, c);
      }
    }
  }

  /** What a selection decodes to are items for the connection's user. */
  lemma DecodedItems(s: State, c: ConnId)
    requires RowsOk(s) && c in s.conns && s.conns[c].stage.Selected?
    ensures forall k: nat | k in Decoded(s.conns[c].stage.rows) ::
              k < |s.accepted| && s.accepted[k].routed.to == s.conns[c].user
  {
    hide Decoded;
    assert ConnRows(s, c);
    DecodedMembers(s.conns[c].stage.rows);
    forall k: nat | k in Decoded(s.conns[c].stage.rows)
      ensures k < |s.accepted| && s.accepted[k].routed.to == s.conns[c].user {
      var r :| r in s.conns[c].stage.rows && r.payload == Some(k);
      assert s.saved[r.id] == r;
    }
  }

  lemma ActorRows(s: State, a: Action, c: ConnId)
    requires RowsOk(s) && Enabled(s, a) && Acts(a, c) && c in Next(s, a).conns
    ensures ConnRows(Next(s, a), c)
  {
    hide For, Without, Decoded, DecodableIds, ReceiptInfo, EventOf, Route, Subscribers;
    assert !a.Open? ==> c in s.conns && ConnRows(s, c);
    var next := Next(s, a);
    match a
    case Select(_) => assert next.conns[c].stage == Selected(For(s.queue, s.conns[c].user), |s.saved|)
      && next.saved == s.saved;
    case Delete(_) =>
      DecodedItems(s, c);
      assert next.conns[c].stage == HandingOff(Decoded(s.conns[c].stage.rows)) && next.accepted == s.accepted;
    case HandOff(_) =>
      assert next.conns[c].stage == HandingOff(s.conns[c].stage.pending[1..]) && next.accepted == s.accepted;
      assert forall k | k in s.conns[c].stage.pending[1..] :: k in s.conns[c].stage.pending;
    case _ =>
  }

  lemma SavedKeep(s: State, a: Action)
    requires ItemsOk(s) && SavedOk(s) && Enabled(s, a)
    ensures SavedOk(Next(s, a))
  {
    hide Next, For, Without, Decoded, DecodableIds, ReceiptInfo, EventOf, Route;
    HistoryGrows(s, a);
    RowsNext(s, a);
    if a.Save? { assert ConnItems(s, a.c); }
  }

  lemma RowsKeep(s: State, a: Action)
    requires ItemsOk(s) && RowsOk(s) && Enabled(s, a)
    ensures RowsOk(Next(s, a))
  {
    hide Next, SavedOk;
    SavedKeep(s, a);
    HistoryGrows(s, a);
    var next := Next(s, a);
    forall c | c in next.conns ensures ConnRows(next, c) {
      if Acts(a, c) {
        ActorRows(s, a, c);
      } else {
        OthersUnchanged(s, a, c);
        assert ConnRows(s, c);
      }
    }
  }

  lemma RowsKeptKeep(s: State, a: Action)
    requires ItemsOk(s) && RowsOk(s) && RowsKept(s) && Enabled(s, a)
    ensures RowsKept(Next(s, a))
  {
    hide Next, For, Without, Decoded, ReceiptInfo, EventOf, Route;
    HistoryGrows(s, a);
    RowsNext(s, a);
    if a.Delete? { assert ConnRows(s, a.c) && ConnItems(s, a.c); }
  }

  lemma ActorFates(s: State, a: Action, c: ConnId)
    requires ItemsOk(s) && FatesOk(s) && Enabled(s, a) && Acts(a, c) && c in Next(s, a).conns
    ensures ConnFates(Next(s, a), c)
  {
    hide For, Without, Decoded, DecodableIds, ReceiptInfo, EventOf, Route;
    assert !a.Open? ==> c in s.conns && ConnFates(s, c) && ConnItems(s, c);
  }

  /** Only the acting connection's own item gets finished, published or queued. */
  lemma FateChanges(s: State, a: Action, k: nat)
    requires Enabled(s, a) && (a.SaveForeign? || WorkOf(s, a.c) == Idle || k != WorkOf(s, a.c).no)
    ensures var next := Next(s, a);
            && (k in next.finished <==> k in s.finished)
            && (k in next.published <==> k in s.published)
            && (k in next.queued <==> k in s.queued)
  {
    hide For, Without, Decoded, DecodableIds, ReceiptInfo, EventOf, Route, Subscribers;
  }

  lemma FatesElsewhere(s: State, a: Action, d: ConnId)
    requires ItemsOk(s) && FatesOk(s) && Enabled(s, a) && !Acts(a, d) && d in s.conns
    ensures d in Next(s, a).conns && ConnFates(Next(s, a), d)
  {
    hide Next, EndsOk, QueuedSaved, Route;
    assert ConnFates(s, d) && ConnItems(s, d);
    OthersUnchanged(s, a, d);
    HistoryGrows(s, a);
    if WorkOf(s, d) != Idle {
      if !a.SaveForeign? && WorkOf(s, a.c) != Idle { assert ConnItems(s, a.c); }
      FateChanges(s, a, WorkOf(s, d).no);
    }
  }

  lemma EndsKeep(s: State, a: Action)
    requires ItemsOk(s) && FatesOk(s) && Enabled(s, a)
    ensures EndsOk(Next(s, a))
  {
    hide For, Without, Decoded, DecodableIds, ReceiptInfo, EventOf, Route, ReachedRecipient, QueuedSaved, Subscribers;
    if !a.SaveForeign? && !a.Open? { assert a.c in s.conns && ConnItems(s, a.c) && ConnFates(s, a.c); }
    var next := Next(s, a);
    forall k | k in next.published ensures ReachedRecipient(next, k) {
      if k in s.published { ReachedStays(s, a, k); } else { PublishReaches(s, a, k); }
    }
  }

  lemma PublishReaches(s: State, a: Action, k: nat)
    requires ItemsOk(s) && Enabled(s, a) && k in Next(s, a).published && k !in s.published
    ensures ReachedRecipient(Next(s, a), k)
  {
    hide For, Without, Decoded, DecodableIds, ReceiptInfo, EventOf, Route;
    var d :| d in Subscribers(s, s.accepted[k].routed.to);
    assert (d, k) in Next(s, a).handed && ConnItems(s, d);
  }

  lemma QueuedSavedKeep(s: State, a: Action)
    requires ItemsOk(s) && FatesOk(s) && Enabled(s, a)
    ensures QueuedSaved(Next(s, a))
  {
    hide Next, For, Without, Decoded, DecodableIds, ReceiptInfo, EventOf, Route, EndsOk;
    RowsNext(s, a);
    var next := Next(s, a);
    if a.Save? { assert ConnFates(s, a.c); }
    forall k | k in next.queued ensures exists i :: 0 <= i < |next.saved| && next.saved[i].payload == Some(k) {
      if k in s.queued {
        var i :| 0 <= i < |s.saved| && s.saved[i].payload == Some(k);
        assert next.saved[i].payload == Some(k);
      } else {
        assert next.saved[|s.saved|].payload == Some(k);
      }
    }
  }

  lemma FatesKeep(s: State, a: Action)
    requires ItemsOk(s) && FatesOk(s) && Enabled(s, a)
    ensures FatesOk(Next(s, a))
  {
    hide Next, EndsOk, QueuedSaved;
    EndsKeep(s, a);
    QueuedSavedKeep(s, a);
    var next := Next(s, a);
    forall c | c in next.conns ensures ConnFates(next, c) {
      if Acts(a, c) { ActorFates(s, a, c); } else { OthersUnchanged(s, a, c); FatesElsewhere(s, a, c); }
    }
  }
}
