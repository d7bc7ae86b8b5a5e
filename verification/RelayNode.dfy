/** The relay's own code over its state: the drain of a new connection and the handling of one
    frame (`handle_socket` in relay/src/lib.rs), each run without interference. */
module RelayNode {
  import opened Models
  import opened OfflineQueue
  import opened Routing
  import opened RelayProtocol
  import RelayDelivery
  import RelayGuarantees

  // ----- Uninterrupted sequences of steps -------------------------------------------------------------

  ghost predicate PendingOk(s: State, c: ConnId) {
    && c in s.conns && s.conns[c].stage.HandingOff?
    && forall i | 0 <= i < |s.conns[c].stage.pending| :: s.conns[c].stage.pending[i] < |s.accepted|
  }

  /** Handing off everything a drain has returned. */
  ghost function HandAll(s: State, c: ConnId): State
    requires PendingOk(s, c)
    decreases |s.conns[c].stage.pending|
  {
    if s.conns[c].stage.pending == [] then s else HandAll(Next(s, HandOff(c)), c)
  }

  ghost predicate Ready(s: State, c: ConnId) {
    RelayDelivery.Good(s) && Enabled(s, Select(c))
  }

  /** SELECT and DELETE. */
  function Drained(s: State, c: ConnId): State
    requires Enabled(s, Select(c))
  {
    Next(Next(s, Select(c)), Delete(c))
  }

  /** Accepting, logging and publishing a frame, then its receipt or its INSERT. */
  function Handled(s: State, c: ConnId, frame: IncomingMessage): State
    requires Enabled(s, Accept(c, frame))
  {
    var s1 := Next(s, Accept(c, frame));
    var s2 := Next(s1, Log(c));
    var s3 := Next(s2, Publish(c));
    Finished(s3, c)
  }

  /** What handling a frame amounts to: it is recorded, and published to the subscribers of the user it
      names, or else queued unless it is a typing frame, never both; a message that was published, and only
      then, is answered with a receipt under its id. */
  ghost predicate FrameEffect(s: State, c: ConnId, frame: IncomingMessage, t: State)
    requires c in s.conns && !frame.InWatchPresence?
  {
    var no, user, receivers := |s.accepted|, s.conns[c].user, Subscribers(s, frame.to);
    var published, queued := receivers != {}, receivers == {} && !frame.InTyping?;
    && t.conns == s.conns && t.users == s.users && t.returned == s.returned
    && Route(user, frame).Some?
    && t.accepted == s.accepted + [Item(c, user, frame, Route(user, frame).value)]
    && t.stream == s.stream + EventsFor(s, c, Route(user, frame).value)
    && t.finished == s.finished + {no}
    && t.published == s.published + (if published then {no} else {})
    && t.handed == s.handed + (set d | d in receivers :: (d, no))
    && t.receipts == s.receipts
       + (if published && CarriesMessage(frame) then [Issued(no, user, DeliveryReceipt(frame.to, frame.id))] else [])
    && t.queued == s.queued + (if queued then {no} else {})
    && t.queue == s.queue + (if queued then [Row(|s.saved|, frame.to, Some(no))] else [])
    && t.saved == s.saved + (if queued then [Row(|s.saved|, frame.to, Some(no))] else [])
  }

  /** The event that logging connections add to the stream. */
  function EventsFor(s: State, c: ConnId, r: Routed): seq<DatabaseEvent>
    requires c in s.conns
  {
    var event := EventOf(s.conns[c].user, r);
    if s.conns[c].logs && event.Some? then [event.value] else []
  }

  /** The state once the event is in the stream and the item may be published, but for its `work`. */
  function Recorded(s: State, c: ConnId, frame: IncomingMessage, r: Routed): State
    requires c in s.conns
  {
    s.(accepted := s.accepted + [Item(c, s.conns[c].user, frame, r)], stream := s.stream + EventsFor(s, c, r))
  }

  lemma RecordedSteps(s: State, c: ConnId, frame: IncomingMessage)
    requires Enabled(s, Accept(c, frame))
    ensures Enabled(Next(s, Accept(c, frame)), Log(c))
    ensures var s2, no := Next(Next(s, Accept(c, frame)), Log(c)), |s.accepted|;
            Enabled(s2, Publish(c))
            && s2 == Recorded(s, c, frame, Route(s.conns[c].user, frame).value).(conns := SetWork(s, c, Logged(no)))
  {
    hide EventOf, Route;
  }

  /** What is left to do after a PUBLISH. */
  function WorkAfter(r: Routed, reached: bool, no: nat): Work {
    if reached then (if r.needsReceipt then Delivered(no) else Idle)
    else if r.storeOffline then Missed(no)
    else Idle
  }

  lemma PublishNext(s: State, c: ConnId)
    requires Enabled(s, Publish(c))
    ensures var no := WorkOf(s, c).no; var r := s.accepted[no].routed;
            var receivers := Subscribers(s, r.to); var work := WorkAfter(r, receivers != {}, no);
            && Next(s, Publish(c)) == s.(
                 handed := s.handed + (set d | d in receivers :: (d, no)),
                 published := s.published + (if receivers != {} then {no} else {}),
                 finished := s.finished + (if work == Idle then {no} else {}),
                 conns := SetWork(s, c, work))
            && WorkOf(Next(s, Publish(c)), c) == work
  {
    hide Subscribers;
    var no := WorkOf(s, c).no;
    var receivers := Subscribers(s, s.accepted[no].routed.to);
    assert s.finished + {} == s.finished && s.published + {} == s.published;
    assert receivers == {} ==> s.handed + (set d | d in receivers :: (d, no)) == s.handed;
  }

  lemma AfterPublish(s: State, c: ConnId)
    requires Enabled(s, Publish(c))
    ensures WorkOf(s, c).Logged? && WorkOf(s, c).no < |s.accepted|
    ensures var no, s3 := WorkOf(s, c).no, Next(s, Publish(c)); var r := s.accepted[no].routed;
            && WorkOf(s3, c) == WorkAfter(r, Subscribers(s, r.to) != {}, no) && s3.accepted == s.accepted
            && (WorkOf(s3, c).Delivered? ==> Enabled(s3, SendReceipt(c)))
            && (WorkOf(s3, c).Missed? ==> Enabled(s3, Save(c)))
  {
    hide Next, Subscribers;
    PublishNext(s, c);
  }

  lemma SendReceiptNext(s: State, c: ConnId)
    requires Enabled(s, SendReceipt(c))
    ensures var no := WorkOf(s, c).no; var r := s.accepted[no].routed;
            Next(s, SendReceipt(c)) == s.(conns := SetWork(s, c, Idle), finished := s.finished + {no},
              receipts := s.receipts + [Issued(no, s.conns[c].user, DeliveryReceipt(r.to, r.id))])
  {
  }

  lemma SaveNext(s: State, c: ConnId)
    requires Enabled(s, Save(c))
    ensures var no := WorkOf(s, c).no; var row := Row(|s.saved|, s.accepted[no].routed.to, Some(no));
            Next(s, Save(c)) == s.(conns := SetWork(s, c, Idle), finished := s.finished + {no},
              queued := s.queued + {no},
              queue := s.queue + [row], saved := s.saved + [row])
  {
  }

  /** The receipt or the INSERT that a publish leaves to be done. */
  function Finished(s: State, c: ConnId): State
    requires WorkOf(s, c) != Idle ==> WorkOf(s, c).no < |s.accepted|
  {
    if WorkOf(s, c).Delivered? then Next(s, SendReceipt(c))
    else if WorkOf(s, c).Missed? then Next(s, Save(c))
    else s
  }

  lemma FinishedSteps(s: State, c: ConnId, no: nat)
    requires c in s.conns && s.conns[c].stage.Running? && s.conns[c].stage.work.Idle? && no < |s.accepted|
    ensures var s2 := s.(conns := SetWork(s, c, Logged(no))); var r, user := s.accepted[no].routed, s.conns[c].user;
            var receivers := Subscribers(s, r.to);
            && Enabled(s2, Publish(c))
            && var s3 := Next(s2, Publish(c));
               && (WorkOf(s3, c) != Idle ==> WorkOf(s3, c).no < |s3.accepted|)
               && Finished(s3, c) == s.(
                    finished := s.finished + {no},
                    published := s.published + (if receivers != {} then {no} else {}),
                    handed := s.handed + (set d | d in receivers :: (d, no)),
                    receipts := s.receipts
                      + (if receivers != {} && r.needsReceipt
                         then [Issued(no, user, DeliveryReceipt(r.to, r.id))] else []),
                    queued := s.queued + (if receivers == {} && r.storeOffline then {no} else {}),
                    queue := s.queue
                      + (if receivers == {} && r.storeOffline then [Row(|s.saved|, r.to, Some(no))] else []),
                    saved := s.saved
                      + (if receivers == {} && r.storeOffline then [Row(|s.saved|, r.to, Some(no))] else []))
  {
    hide Next, SetWork, Subscribers;
    var s2, r := s.(conns := SetWork(s, c, Logged(no))), s.accepted[no].routed;
    WorkReplaced(s, s2, c, Logged(no));
    PublishNext(s2, c);
    AfterPublish(s2, c);
    var s3, work := Next(s2, Publish(c)), WorkAfter(r, Subscribers(s, r.to) != {}, no);
    WorkReplaced(s2, s3, c, work);
    assert s.receipts + [] == s.receipts && s.queue + [] == s.queue && s.saved + [] == s.saved;
    assert s.finished + {} == s.finished && s.queued + {} == s.queued;
    if work.Delivered? {
      SendReceiptNext(s3, c);
    } else if work.Missed? {
      SaveNext(s3, c);
    }
  }

  /** What a connection's `work` does not matter for. */
  lemma WorkReplaced(s: State, t: State, c: ConnId, work: Work)
    requires c in s.conns && s.conns[c].stage.Running? && t.conns == SetWork(s, c, work)
    ensures WorkOf(t, c) == work && t.conns[c].user == s.conns[c].user && t.conns[c].stage.Running?
    ensures forall other :: SetWork(t, c, other) == SetWork(s, c, other)
    ensures forall user :: Subscribers(t, user) == Subscribers(s, user)
    ensures s.conns[c].stage.work == Idle ==> SetWork(s, c, Idle) == s.conns
  {
    assert s.conns[c := s.conns[c]] == s.conns;
  }

  /** MAIN RESULT. Handled without interference, a frame is recorded and then published with its
      receipt, or queued, or dropped, in one go. */
  lemma HandledAtOnce(s: State, c: ConnId, frame: IncomingMessage)
    requires Enabled(s, Accept(c, frame))
    ensures !frame.InWatchPresence? && FrameEffect(s, c, frame, Handled(s, c, frame))
  {
    RouteCarries(s.conns[c].user, frame);
    hide Route, EventOf, Next;
    var r := Route(s.conns[c].user, frame).value;
    var s1 := Recorded(s, c, frame, r);
    RecordedSteps(s, c, frame);
    FinishedSteps(s1, c, |s.accepted|);
    assert Subscribers(s1, r.to) == Subscribers(s, r.to);
  }

  /** The receipts due for a hand-off list, in its order. */
  function ReceiptsFor(s: State, pending: seq<nat>, recipient: User): seq<Issued>
    requires forall i | 0 <= i < |pending| :: pending[i] < |s.accepted|
  {
    if pending == [] then [] else ReceiptFor(s, pending[0], recipient) + ReceiptsFor(s, pending[1..], recipient)
  }

  lemma {:induction false} SameReceipts(s: State, t: State, pending: seq<nat>, recipient: User)
    requires s.accepted == t.accepted && forall i | 0 <= i < |pending| :: pending[i] < |s.accepted|
    ensures ReceiptsFor(s, pending, recipient) == ReceiptsFor(t, pending, recipient)
  {
    if pending != [] { SameReceipts(s, t, pending[1..], recipient); }
  }

  /** The whole list handed to the connection, and a receipt to the sender of each item that asks
      for one, in the order of the list. */
  ghost function AllHanded(s: State, c: ConnId): State
    requires PendingOk(s, c)
  {
    var pending := s.conns[c].stage.pending;
    s.(conns := SetStage(s, c, HandingOff([])),
       handed := s.handed + (set no | no in pending :: (c, no)),
       receipts := s.receipts + ReceiptsFor(s, pending, s.conns[c].user))
  }

  /** MAIN RESULT. The hand-off loop gives the connection every item of the list, and its senders one
      receipt for each hand-off that asks for one, in the order of the list; nothing else changes. */
  lemma {:induction false} HandAllAtOnce(s: State, c: ConnId)
    requires PendingOk(s, c)
    ensures HandAll(s, c) == AllHanded(s, c)
    decreases |s.conns[c].stage.pending|
  {
    hide Next, AllHanded;
    if s.conns[c].stage.pending == [] {
      NothingHanded(s, c);
    } else {
      HandOffNext(s, c);
      HandAllAtOnce(Next(s, HandOff(c)), c);
      OneHanded(s, c);
    }
  }

  lemma NothingHanded(s: State, c: ConnId)
    requires PendingOk(s, c) && s.conns[c].stage.pending == []
    ensures AllHanded(s, c) == s
  {
    assert SetStage(s, c, HandingOff([])) == s.conns;
    assert s.handed + {} == s.handed && s.receipts + [] == s.receipts;
  }

  lemma OneHanded(s: State, c: ConnId)
    requires PendingOk(s, c) && s.conns[c].stage.pending != []
    ensures PendingOk(Next(s, HandOff(c)), c) && AllHanded(Next(s, HandOff(c)), c) == AllHanded(s, c)
  {
    hide Next, ReceiptFor, ReceiptsFor;
    var pending, user, next := s.conns[c].stage.pending, s.conns[c].user, Next(s, HandOff(c));
    var tail := pending[1..];
    HandOffNext(s, c);
    SameReceipts(s, next, tail, user);
    FirstReceipt(s, pending, user);
    assert pending == [pending[0]] + tail;
    assert s.handed + {(c, pending[0])} + (set no | no in tail :: (c, no))
           == s.handed + (set no | no in pending :: (c, no));
    assert SetStage(next, c, HandingOff([])) == SetStage(s, c, HandingOff([]));
  }

  lemma FirstReceipt(s: State, pending: seq<nat>, recipient: User)
    requires pending != [] && forall i | 0 <= i < |pending| :: pending[i] < |s.accepted|
    ensures s.receipts + ReceiptFor(s, pending[0], recipient) + ReceiptsFor(s, pending[1..], recipient)
            == s.receipts + ReceiptsFor(s, pending, recipient)
  {
    hide ReceiptFor;
  }

  lemma HandOffNext(s: State, c: ConnId)
    requires Enabled(s, HandOff(c))
    ensures var no := s.conns[c].stage.pending[0];
            Next(s, HandOff(c)) == s.(
              conns := SetStage(s, c, HandingOff(s.conns[c].stage.pending[1..])), handed := s.handed + {(c, no)},
              receipts := s.receipts + ReceiptFor(s, no, s.conns[c].user))
  {
  }

  /** What the drain of a new connection amounts to: with the rows selected, exactly the decodable ones
      leave the queue, their items are handed to the connection, and their senders get their receipts, in
      save order; then the connection runs. */
  ghost predicate DrainEffect(s: State, c: ConnId, t: State)
    requires c in s.conns
  {
    var user, rows: seq<Row<nat>> := s.conns[c].user, For(s.queue, s.conns[c].user);
    var items: seq<nat> := Decoded(rows);
    && (forall i | 0 <= i < |items| :: items[i] < |s.accepted|)
    && t.queue == Without(s.queue, DecodableIds(rows))
    && t.returned == s.returned + (set id | id in DecodableIds(rows) :: (c, id))
    && t.handed == s.handed + (set no | no in items :: (c, no))
    && t.receipts == s.receipts + ReceiptsFor(s, items, user)
    && t.conns == s.conns[c := s.conns[c].(stage := Running(false, Idle))]
    && t.stream == s.stream && t.users == s.users && t.accepted == s.accepted && t.saved == s.saved
    && t.finished == s.finished && t.published == s.published && t.queued == s.queued
  }

  lemma DrainedState(s: State, c: ConnId)
    requires Enabled(s, Select(c))
    ensures var rows := For(s.queue, s.conns[c].user);
            Drained(s, c) == s.(
              conns := SetStage(s, c, HandingOff(Decoded(rows))), queue := Without(s.queue, DecodableIds(rows)),
              returned := s.returned + (set id | id in DecodableIds(rows) :: (c, id)))
  {
    hide For, Without, Decoded, DecodableIds;
    var rows := For(s.queue, s.conns[c].user);
    assert SetStage(Next(s, Select(c)), c, HandingOff(Decoded(rows))) == SetStage(s, c, HandingOff(Decoded(rows)));
  }

  lemma DrainAtOnce(s: State, c: ConnId)
    requires Enabled(s, Select(c)) && PendingOk(Drained(s, c), c)
    ensures var handedOff := AllHanded(Drained(s, c), c);
            Enabled(handedOff, Start(c)) && DrainEffect(s, c, Next(handedOff, Start(c)))
  {
    hide Drained, For, Without, Decoded, DecodableIds, ReceiptsFor;
    var s2, rows := Drained(s, c), For(s.queue, s.conns[c].user);
    DrainedState(s, c);
    SameReceipts(s, s2, Decoded(rows), s.conns[c].user);
    assert Next(AllHanded(s2, c), Start(c)).conns == s.conns[c := s.conns[c].(stage := Running(false, Idle))];
  }

  lemma WorkKnown(s: State, c: ConnId)
    requires RelayDelivery.Good(s) && WorkOf(s, c) != Idle
    ensures WorkOf(s, c).no < |s.accepted|
  {
  }

  lemma HandledGood(s: State, c: ConnId, frame: IncomingMessage)
    requires RelayDelivery.Good(s) && Enabled(s, Accept(c, frame))
    ensures RelayDelivery.Good(Handled(s, c, frame))
  {
    hide RelayDelivery.Good, Next, Route, EventOf;
    RecordedSteps(s, c, frame);
    var s1 := Next(s, Accept(c, frame));
    var s2 := Next(s1, Log(c));
    var s3 := Next(s2, Publish(c));
    RelayGuarantees.StepGood(s, Accept(c, frame));
    RelayGuarantees.StepGood(s1, Log(c));
    RelayGuarantees.StepGood(s2, Publish(c));
    FinishedGood(s3, c);
  }

  lemma FinishedGood(s: State, c: ConnId)
    requires RelayDelivery.Good(s)
    ensures WorkOf(s, c) != Idle ==> WorkOf(s, c).no < |s.accepted|
    ensures RelayDelivery.Good(Finished(s, c))
  {
    hide RelayDelivery.Good, Next;
    if WorkOf(s, c) != Idle { WorkKnown(s, c); }
    if WorkOf(s, c).Delivered? {
      RelayGuarantees.StepGood(s, SendReceipt(c));
    } else if WorkOf(s, c).Missed? {
      RelayGuarantees.StepGood(s, Save(c));
    }
  }

  class Relay {
    var conns: map<ConnId, Conn>
    var queue: seq<Row<nat>>
    var stream: seq<DatabaseEvent>
    var accepted: seq<Item>
    var receipts: seq<Issued>
    var nextRow: nat
    ghost var users: map<ConnId, User>
    ghost var saved: seq<Row<nat>>
    ghost var returned: set<(ConnId, nat)>
    ghost var handed: set<(ConnId, nat)>
    ghost var finished: set<nat>
    ghost var published: set<nat>
    ghost var queued: set<nat>

    ghost function Contents(): State
      reads this
    {
      State(conns, queue, stream, users, accepted, saved, returned, handed, finished, published, queued, receipts)
    }

    /** The serial number of the next queue row counts the rows ever saved. */
    ghost predicate Valid()
      reads this
    {
      nextRow == |saved|
    }

    constructor ()
      ensures Valid() && Initial(Contents())
    {
      conns, queue, stream, accepted, receipts, nextRow := map[], [], [], [], [], 0;
      users, saved, returned, handed, finished, published, queued := map[], [], {}, {}, {}, {}, {};
    }

    /** Fetches and deletes the user's queued rows, hands them to the connection in order, and sends
        each sender its receipt; then the connection's tasks start. */
    method DrainOnConnect(c: ConnId)
      requires Valid() && Ready(Contents(), c)
      modifies this
      ensures Valid() && RelayDelivery.Good(Contents())
      ensures PendingOk(Drained(old(Contents()), c), c)
      ensures var handedOff := HandAll(Drained(old(Contents()), c), c);
              Enabled(handedOff, Start(c)) && Contents() == Next(handedOff, Start(c))
      ensures DrainEffect(old(Contents()), c, Contents())
    {
      hide Drained, HandAll, AllHanded, DrainEffect, RelayDelivery.Good, PendingOk;
      SelectAndDelete(c);
      HandAllAtOnce(Contents(), c);
      DrainAtOnce(old(Contents()), c);
      HandOffAll(c);
      ghost var s := Contents();
      RelayGuarantees.StepGood(s, Start(c));
      conns := conns[c := conns[c].(stage := Running(false, Idle))];
      assert Contents() == Next(s, Start(c));
    }

    /** The transaction of the drain. */
    method SelectAndDelete(c: ConnId)
      requires Valid() && Ready(Contents(), c)
      modifies this
      ensures Valid() && Contents() == Drained(old(Contents()), c)
      ensures RelayDelivery.Good(Contents()) && PendingOk(Contents(), c)
    {
      hide For, Without, Decoded, DecodableIds, RelayDelivery.Good, PendingOk;
      ghost var s := Contents();
      var messages := For(queue, conns[c].user);
      RelayGuarantees.StepGood(s, Select(c));
      ghost var s1 := Next(s, Select(c));
      RelayGuarantees.StepGood(s1, Delete(c));
      conns := conns[c := conns[c].(stage := HandingOff(Decoded(messages)))];
      queue := Without(queue, DecodableIds(messages));
      returned := returned + (set id | id in DecodableIds(messages) :: (c, id));
      assert s1.conns[c := s1.conns[c].(stage := HandingOff(Decoded(messages)))] == conns;
      assert Contents() == Next(s1, Delete(c));
      PendingKnown(Contents(), c);
    }

    static lemma PendingKnown(s: State, c: ConnId)
      requires RelayDelivery.Good(s) && c in s.conns && s.conns[c].stage.HandingOff?
      ensures PendingOk(s, c)
    {
      var pending := s.conns[c].stage.pending;
      assert ConnRows(s, c) && forall i | 0 <= i < |pending| :: pending[i] in pending;
    }

    /** The hand-off loop. */
    method HandOffAll(c: ConnId)
      requires Valid() && RelayDelivery.Good(Contents()) && PendingOk(Contents(), c)
      modifies this
      ensures Valid() && RelayDelivery.Good(Contents())
      ensures Contents() == HandAll(old(Contents()), c)
      ensures c in conns && conns[c].stage == HandingOff([])
    {
      hide RelayDelivery.Good, For, Without, Decoded, DecodableIds, EventOf, Route;
      while conns[c].stage.pending != []
        invariant Valid() && RelayDelivery.Good(Contents()) && PendingOk(Contents(), c)
        invariant HandAll(old(Contents()), c) == HandAll(Contents(), c)
        decreases |conns[c].stage.pending|
      {
        ghost var s := Contents();
        HandOffOne(c);
        RelayGuarantees.StepGood(s, HandOff(c));
      }
    }

    /** Pushes one message to the connection and sends its receipt if it asks for one. */
    method HandOffOne(c: ConnId)
      requires Valid() && Enabled(Contents(), HandOff(c))
      modifies this
      ensures Valid() && Contents() == Next(old(Contents()), HandOff(c))
    {
      hide ReceiptInfo, For, Without, Decoded, DecodableIds, EventOf, Route;
      var user, pending := conns[c].user, conns[c].stage.pending;
      var message := accepted[pending[0]].routed.outgoing;
      handed := handed + {(c, pending[0])};
      var info := ReceiptInfo(message);
      if info.Some? {
        receipts := receipts + [Issued(pending[0], info.value.0, DeliveryReceipt(user, info.value.1))];
      }
      conns := conns[c := conns[c].(stage := HandingOff(pending[1..]))];
      assert old(receipts) + [] == old(receipts);
    }

    /** Handles one frame of connection `c`; a frame that only watches presence changes nothing here. */
    method HandleFrame(c: ConnId, frame: IncomingMessage)
      requires Valid() && c in conns && conns[c].stage.Running? && conns[c].stage.work.Idle?
      modifies this
      ensures Valid()
      ensures frame.InWatchPresence? ==> Contents() == old(Contents())
      ensures !frame.InWatchPresence? ==>
                && Enabled(old(Contents()), Accept(c, frame)) && Contents() == Handled(old(Contents()), c, frame)
                && FrameEffect(old(Contents()), c, frame, Contents())
      ensures old(RelayDelivery.Good(Contents())) ==> RelayDelivery.Good(Contents())
    {
      hide Route, EventOf, FrameEffect, Next, Finished, RelayDelivery.Good;
      RouteCarries(conns[c].user, frame);
      var routing := Route(conns[c].user, frame);
      if routing.None? { return; }
      var r := routing.value;
      HandledAtOnce(Contents(), c, frame);
      if RelayDelivery.Good(Contents()) { HandledGood(Contents(), c, frame); }
      RecordedSteps(Contents(), c, frame);
      Record(c, frame, r);
      Deliver(c);
    }

    /** Publishes the frame in hand; then its receipt, or without a receiver its row if it may be queued. */
    method Deliver(c: ConnId)
      requires Valid() && Enabled(Contents(), Publish(c))
      modifies this
      ensures Valid()
      ensures var s := Next(old(Contents()), Publish(c));
              (WorkOf(s, c) != Idle ==> WorkOf(s, c).no < |s.accepted|) && Contents() == Finished(s, c)
    {
      hide Next, Subscribers, Enabled, SetWork;
      AfterPublish(Contents(), c);
      var r := accepted[conns[c].stage.work.no].routed;
      var receivers := PublishMessage(c);
      if receivers > 0 {
        if r.needsReceipt {
          PublishReceipt(c);
        }
      } else if r.storeOffline {
        SaveOffline(c);
      }
    }

    /** Accepts the frame and adds its event to the stream. */
    method Record(c: ConnId, frame: IncomingMessage, r: Routed)
      requires Valid() && Enabled(Contents(), Accept(c, frame)) && Route(conns[c].user, frame) == Some(r)
      modifies this
      ensures Valid() && Enabled(Next(old(Contents()), Accept(c, frame)), Log(c))
      ensures Contents() == Next(Next(old(Contents()), Accept(c, frame)), Log(c))
    {
      hide Next, Route, EventOf;
      RecordedSteps(Contents(), c, frame);
      accepted := accepted + [Item(c, conns[c].user, frame, r)];
      if conns[c].logs {
        var event := EventOf(conns[c].user, r);
        if event.Some? {
          stream := stream + [event.value];
        }
      }
      assert old(stream) + [] == old(stream);
      conns := conns[c := conns[c].(stage := conns[c].stage.(work := Logged(|accepted| - 1)))];
    }

    /** The PUBLISH of the frame in hand, which tells how many subscribers it reached; it leaves the
        receipt or the INSERT to be done. */
    method PublishMessage(c: ConnId) returns (receivers: nat)
      requires Valid() && Enabled(Contents(), Publish(c))
      modifies this
      ensures Valid() && Contents() == Next(old(Contents()), Publish(c))
      ensures receivers > 0
              <==> Subscribers(old(Contents()), old(accepted)[old(WorkOf(Contents(), c).no)].routed.to) != {}
    {
      hide Next, Subscribers;
      PublishNext(Contents(), c);
      var no := conns[c].stage.work.no;
      var r := accepted[no].routed;
      receivers := Reach(r.to, no);
      var work := WorkAfter(r, receivers > 0, no);
      if work == Idle {
        finished := finished + {no};
      } else {
        assert finished + {} == finished;
      }
      SetWorkOf(c, work);
    }

    /** Hands an item to the subscribers of a user. */
    method Reach(to: User, no: nat) returns (receivers: nat)
      modifies this`handed, this`published
      ensures var listeners := Subscribers(old(Contents()), to);
              && (receivers > 0 <==> listeners != {})
              && handed == old(handed) + (set d | d in listeners :: (d, no))
              && published == old(published) + (if listeners != {} then {no} else {})
    {
      var listeners := Listeners(to);
      assert listeners == Subscribers(Contents(), to);
      receivers := |listeners|;
      handed := handed + (set d | d in listeners :: (d, no));
      if receivers > 0 {
        published := published + {no};
      } else {
        assert published + {} == published;
      }
    }

    method PublishReceipt(c: ConnId)
      requires Valid() && Enabled(Contents(), SendReceipt(c))
      modifies this
      ensures Valid() && Contents() == Next(old(Contents()), SendReceipt(c))
    {
      hide Next;
      SendReceiptNext(Contents(), c);
      var no := conns[c].stage.work.no;
      var r := accepted[no].routed;
      receipts := receipts + [Issued(no, conns[c].user, DeliveryReceipt(r.to, r.id))];
      finished := finished + {no};
      SetWorkOf(c, Idle);
    }

    method SaveOffline(c: ConnId)
      requires Valid() && Enabled(Contents(), Save(c))
      modifies this
      ensures Valid() && Contents() == Next(old(Contents()), Save(c))
    {
      hide Next, Route, EventOf, For, Without, Decoded, DecodableIds, ReceiptInfo, SaveRow, ReceiptFor, ReceiptsFor,
           HandAll, AllHanded, Finished, Handled, Drained;
      SaveNext(Contents(), c);
      var no := conns[c].stage.work.no;
      hide Enabled, WorkOf;
      Insert(accepted[no].routed.to, no);
      finished, queued := finished + {no}, queued + {no};
      SetWorkOf(c, Idle);
    }

    /** The INSERT of an item into the queue. */
    method Insert(to: User, no: nat)
      requires Valid()
      modifies this`queue, this`saved, this`nextRow
      ensures Valid()
      ensures queue == old(queue) + [Row(|old(saved)|, to, Some(no))]
              && saved == old(saved) + [Row(|old(saved)|, to, Some(no))]
    {
      var row := Row(nextRow, to, Some(no));
      queue, saved, nextRow := queue + [row], saved + [row], nextRow + 1;
    }

    method SetWorkOf(c: ConnId, work: Work)
      requires c in conns && conns[c].stage.Running?
      modifies this`conns
      ensures conns == SetWork(old(Contents()), c, work)
    {
      conns := conns[c := conns[c].(stage := conns[c].stage.(work := work))];
    }

    function Listeners(user: User): set<ConnId>
      reads this
    {
      set c | c in conns && conns[c].user == user && conns[c].stage.Running? && conns[c].stage.subscribed
    }
  }
}
