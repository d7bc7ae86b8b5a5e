/** From an accepted frame forward to the tables: a finished message of a logging connection is in the
    stream, in a batch of the worker, and after the commit of that batch in the history. */
module StoredFrames {
  import opened Models
  import opened Routing
  import opened History
  import opened Ledger
  import W = WorkerProtocol
  import R = RelayProtocol
  import N = RelayNoLoss
  import EndToEnd

  // ----- What committed batches leave -----------------------------------------------------------------

  /** The messages of every batch that has been committed are in the tables. */
  ghost predicate CommittedStored(b: Books) {
    |b.commits| == |b.batches|
    && forall i | 0 <= i < |b.batches| && b.commits[i] > 0 :: !BringsMessages(b.tables, b.batches[i])
  }

  lemma StillBroughtNone(t: Tables, u: Tables, es: seq<DatabaseEvent>)
    requires !BringsMessages(t, es) && forall id | id in t.messages :: id in u.messages
    ensures !BringsMessages(u, es)
  {
  }

  /** Books with the same batches and commits, and no message less. */
  lemma MessagesKept(b: Books, after: Books)
    requires CommittedStored(b) && after.batches == b.batches && after.commits == b.commits
    requires forall id | id in b.tables.messages :: id in after.tables.messages
    ensures CommittedStored(after)
  {
    hide BringsMessages;
    forall i | 0 <= i < |b.batches| && b.commits[i] > 0 ensures !BringsMessages(after.tables, b.batches[i]) {
      StillBroughtNone(b.tables, after.tables, b.batches[i]);
    }
  }

  lemma DeliveryKeeps(b: Books, events: seq<DatabaseEvent>)
    requires CommittedStored(b)
    ensures CommittedStored(AfterDelivery(b, events))
  {
    hide BringsMessages;
  }

  lemma AttemptKeeps(start: Tables, b: Books)
    requires BooksOk(start, b) && b.batches != [] && CommittedStored(b)
    ensures CommittedStored(AfterAttempt(b, b.batches[|b.batches| - 1]))
  {
    hide BringsMessages, Batch, Stored, Valid, Reference, CommittedIn, CountedOf, CommittedRows;
    var n := |b.batches| - 1;
    var es := b.batches[n];
    var after := AfterAttempt(b, es);
    if Batch(b.tables, es).Ok? {
      AttemptAbsorbs(b.tables, es);
      BringsIff(after.tables, es);
      forall id | id in b.tables.messages ensures id in after.tables.messages {
        StoredRow(b.tables.messages, es, id);
      }
      forall i | 0 <= i < |b.batches| && after.commits[i] > 0 ensures !BringsMessages(after.tables, b.batches[i]) {
        if i < n { StillBroughtNone(b.tables, after.tables, b.batches[i]); }
      }
    }
  }

  lemma OthersKeep(b: Books, w: Write)
    requires !w.Committed?
    ensures ApplyWrite(b.tables, w).messages == b.tables.messages
  {
  }

  lemma StepStored(start: Tables, s: W.State, a: W.Action)
    requires W.Inv(start, s) && W.Enabled(s, a) && CommittedStored(s.books)
    ensures CommittedStored(W.Next(s, a).books)
  {
    hide W.Next, W.EventsOf, Concat, W.Range, W.Parseable, AfterAttempt, AfterDelivery, ApplyWrite, BooksOk,
         CommittedStored;
    W.BooksNext(s, a);
    var b := s.books;
    match a
    case Write =>
      if W.EventsOf(s.stream, s.phase.ids) != [] { AttemptKeeps(start, b); }
    case Read =>
      if events :| W.Next(s, a).books == AfterDelivery(b, events) { DeliveryKeeps(b, events); }
    case Mark(user, id) =>
      OthersKeep(b, Marked(user, id));
      MessagesKept(b, AfterMark(b, user, id));
    case Register(user) =>
      OthersKeep(b, Registered(user));
      MessagesKept(b, AfterRegistration(b, user));
    case Stamp(ids) => MessagesKept(b, AfterStamp(b, ids));
    case _ =>
  }

  lemma {:induction false} RunStored(run: seq<W.State>, actions: seq<W.Action>, n: nat)
    requires W.IsRun(run, actions) && W.Initial(run[0]) && n < |run|
    ensures CommittedStored(run[n].books)
  {
    hide W.Next, W.Inv, W.Enabled;
    if n > 0 {
      RunStored(run, actions, n - 1);
      W.RunKeeps(run, actions, n - 1);
      assert run[n - 1 + 1] == W.Next(run[n - 1], actions[n - 1]) && W.Enabled(run[n - 1], actions[n - 1]);
      StepStored(run[0].books.tables, run[n - 1], actions[n - 1]);
    }
  }

  // ----- The batch of an entry ------------------------------------------------------------------------

  lemma {:induction false} FromConcat(bs: seq<seq<DatabaseEvent>>, e: DatabaseEvent) returns (b: nat)
    requires e in Concat(bs)
    ensures b < |bs| && e in bs[b]
  {
    var n := |bs| - 1;
    if e in Concat(bs[..n]) { b := FromConcat(bs[..n], e); } else { b := n; }
  }

  /** Every parseable entry that has been delivered is in a batch. */
  lemma DeliveredInBatch(run: seq<W.State>, actions: seq<W.Action>, n: nat, p: nat) returns (b: nat)
    requires W.IsRun(run, actions) && W.Initial(run[0]) && n < |run|
    requires p < run[n].delivered && p < |run[n].stream| && run[n].stream[p].Some?
    ensures b < |run[n].books.batches| == |run[n].books.commits| && run[n].stream[p].value in run[n].books.batches[b]
  {
    hide W.IsRun, W.Initial, W.EventsOf, Concat, W.Range, W.Parseable, Reference, CommittedIn, CountedOf, CommittedRows;
    W.CrashTolerance(run, actions, n);
    var s := run[n];
    var entries := W.Parseable(s.stream, W.Range(0, s.delivered));
    var j :| 0 <= j < |entries| && entries[j] == p;
    b := FromConcat(s.books.batches, s.stream[p].value);
  }

  // ----- From the frame to its row --------------------------------------------------------------------

  lemma MessageEvent(sender: User, frame: IncomingMessage)
    requires CarriesMessage(frame)
    ensures Route(sender, frame).Some? && EventOf(sender, Route(sender, frame).value).Some?
    ensures var e := EventOf(sender, Route(sender, frame).value).value;
            && Introduces(AnyKind, e, frame.id)
            && (frame.InEncrypted? ==> e == NewEncryptedMessage(frame.id, sender, frame.to, frame.ciphertexts))
  {
  }

  /** The ciphertexts of the frame that name a device are stored under its id. */
  ghost predicate CiphertextsStored(t: Tables, frame: IncomingMessage) {
    frame.InEncrypted? ==>
      forall ct | ct in frame.ciphertexts && ct.device.Some? ::
        CiphertextRow(frame.id, ct.device.value, ct.ciphertext, ct.signalType) in t.ciphertexts
  }

  lemma BatchStores(run: seq<W.State>, actions: seq<W.Action>, n: nat, b: nat, e: DatabaseEvent, id: MessageId)
    requires W.IsRun(run, actions) && W.Initial(run[0]) && n < |run|
    requires b < |run[n].books.batches| == |run[n].books.commits| && run[n].books.commits[b] > 0
    requires e in run[n].books.batches[b] && Introduces(AnyKind, e, id)
    ensures id in run[n].books.tables.messages
  {
    hide W.IsRun, W.Initial;
    RunStored(run, actions, n);
    var es := run[n].books.batches[b];
    var k :| 0 <= k < |es| && es[k] == e;
    assert !BringsMessages(run[n].books.tables, es);
  }

  lemma FrameCiphertexts(run: seq<W.State>, actions: seq<W.Action>, n: nat, b: nat, sender: User,
                         frame: IncomingMessage)
    requires W.IsRun(run, actions) && W.Initial(run[0]) && n < |run|
    requires b < |run[n].books.batches| == |run[n].books.commits| && run[n].books.commits[b] > 0
    requires frame.InEncrypted?
             && NewEncryptedMessage(frame.id, sender, frame.to, frame.ciphertexts) in run[n].books.batches[b]
    ensures CiphertextsStored(run[n].books.tables, frame)
  {
    hide W.IsRun, W.Initial;
    var e := NewEncryptedMessage(frame.id, sender, frame.to, frame.ciphertexts);
    forall ct | ct in frame.ciphertexts && ct.device.Some?
      ensures CiphertextRow(frame.id, ct.device.value, ct.ciphertext, ct.signalType) in run[n].books.tables.ciphertexts
    {
      var row := CiphertextRow(frame.id, ct.device.value, ct.ciphertext, ct.signalType);
      assert SentAs(row) == ct;
      EndToEnd.CommittedCiphertextsStored(run, actions, n, b, e, row);
    }
  }

  /** Once the batch is committed, the frame's id is in the history, with the ciphertexts it sends. */
  ghost predicate StoredOnceCommitted(books: Books, b: nat, frame: IncomingMessage)
    requires CarriesMessage(frame) && b < |books.commits|
  {
    books.commits[b] > 0 ==> frame.id in books.tables.messages && CiphertextsStored(books.tables, frame)
  }

  /** MAIN RESULT. A finished message of a connection that logs, once the worker has read as far as the
      relay had written, is in some batch with its own event; and as soon as that batch is committed its id
      is in the history, and so is every ciphertext it sends to a device. */
  lemma FinishedFramesStored(relayRun: seq<R.State>, relayActions: seq<R.Action>, m: nat, k: nat,
                             workerRun: seq<W.State>, workerActions: seq<W.Action>, n: nat)
    requires R.IsRun(relayRun, relayActions) && R.Initial(relayRun[0]) && m < |relayRun|
    requires W.IsRun(workerRun, workerActions) && W.Initial(workerRun[0]) && n < |workerRun|
    requires EndToEnd.Entries(relayRun[m].stream) <= workerRun[n].stream
    requires workerRun[n].delivered >= |relayRun[m].stream|
    requires k in relayRun[m].finished && k < |relayRun[m].accepted| && CarriesMessage(relayRun[m].accepted[k].frame)
    requires N.OpenedLogging(relayActions, m, relayRun[m].accepted[k].conn)
    ensures var item, books := relayRun[m].accepted[k], workerRun[n].books;
            && EventOf(item.sender, item.routed).Some?
            && exists b: nat ::
                 && b < |books.batches| == |books.commits|
                 && EventOf(item.sender, item.routed).value in books.batches[b]
                 && StoredOnceCommitted(books, b, item.frame)
  {
    hide R.IsRun, R.Initial, R.Next, W.IsRun, W.Initial, Route, EventOf, N.OpenedLogging, CiphertextsStored;
    var s, w := relayRun[m], workerRun[n];
    var item := s.accepted[k];
    N.LoggedFramesInStream(relayRun, relayActions, m, k);
    var at := N.AcceptedFrom(relayRun, relayActions, m, k);
    MessageEvent(item.sender, item.frame);
    var e := EventOf(item.sender, item.routed).value;
    var p :| 0 <= p < |s.stream| && s.stream[p] == e;
    assert w.stream[p] == Some(e) by { assert EndToEnd.Entries(s.stream)[p] == Some(e); }
    var b := DeliveredInBatch(workerRun, workerActions, n, p);
    if w.books.commits[b] > 0 {
      BatchStores(workerRun, workerActions, n, b, e, item.frame.id);
      if item.frame.InEncrypted? { FrameCiphertexts(workerRun, workerActions, n, b, item.sender, item.frame); }
      else { NoCiphertexts(w.books.tables, item.frame); }
    }
  }

  lemma NoCiphertexts(t: Tables, frame: IncomingMessage)
    requires !frame.InEncrypted?
    ensures CiphertextsStored(t, frame)
  {
  }
}
