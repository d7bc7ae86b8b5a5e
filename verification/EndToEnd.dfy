/** From the client's frame to the stored row: the relay's stream read by the worker. */
module EndToEnd {
  import opened Models
  import opened Routing
  import History
  import Ledger
  import W = WorkerProtocol
  import R = RelayProtocol
  import RelayGuarantees
  import RelayDelivery

  // ----- The stream -----------------------------------------------------------------------------------

  /** Item `k` was accepted on a connection authenticated as its sender and routed as its frame says. */
  ghost predicate Authentic(s: R.State, k: nat) {
    && k < |s.accepted|
    && s.accepted[k].conn in s.users && s.accepted[k].sender == s.users[s.accepted[k].conn]
    && Route(s.accepted[k].sender, s.accepted[k].frame) == Some(s.accepted[k].routed)
  }

  /** Event `e` records item `k`. */
  ghost predicate Records(s: R.State, k: nat, e: DatabaseEvent) {
    Authentic(s, k) && EventOf(s.accepted[k].sender, s.accepted[k].routed) == Some(e)
  }

  ghost predicate Recorded(s: R.State, e: DatabaseEvent) {
    exists k: nat :: Records(s, k, e)
  }

  ghost predicate StreamOk(s: R.State) {
    forall i | 0 <= i < |s.stream| :: Recorded(s, s.stream[i])
  }

  lemma RecordsStays(s: R.State, a: R.Action, k: nat, e: DatabaseEvent)
    requires R.ItemsOk(s) && R.Enabled(s, a) && Records(s, k, e)
    ensures Records(R.Next(s, a), k, e)
  {
    hide R.Next, Route, EventOf;
    R.HistoryGrows(s, a);
  }

  /** Only a Log adds an event: that of the item in hand. */
  lemma StreamNext(s: R.State, a: R.Action)
    requires R.ItemsOk(s) && R.Enabled(s, a)
    ensures var next := R.Next(s, a);
            || next.stream == s.stream
            || (a.Log? && exists e :: Recorded(s, e) && next.stream == s.stream + [e])
  {
    hide Route, EventOf, ReceiptInfo;
    if a.Log? {
      assert R.ConnItems(s, a.c);
      var no := R.WorkOf(s, a.c).no;
      var event := EventOf(s.conns[a.c].user, s.accepted[no].routed);
      if s.conns[a.c].logs && event.Some? {
        assert Records(s, no, event.value);
      } else {
        assert R.Next(s, a).stream == s.stream + [];
      }
    }
  }

  lemma RecordedStays(s: R.State, a: R.Action, e: DatabaseEvent)
    requires R.ItemsOk(s) && R.Enabled(s, a) && Recorded(s, e)
    ensures Recorded(R.Next(s, a), e)
  {
    hide R.Next, Records;
    var k: nat :| Records(s, k, e);
    RecordsStays(s, a, k, e);
  }

  lemma StreamKeeps(s: R.State, a: R.Action)
    requires R.ItemsOk(s) && StreamOk(s) && R.Enabled(s, a)
    ensures StreamOk(R.Next(s, a))
  {
    hide R.Next, Recorded;
    var next := R.Next(s, a);
    StreamNext(s, a);
    forall i | 0 <= i < |next.stream| ensures Recorded(next, next.stream[i]) {
      if i < |s.stream| {
        RecordedStays(s, a, s.stream[i]);
        assert next.stream[i] == s.stream[i];
      } else {
        RecordedStays(s, a, next.stream[i]);
      }
    }
  }

  /** Every event in the stream records a frame of its authenticated sender. */
  lemma {:induction false} StreamTraces(run: seq<R.State>, actions: seq<R.Action>, n: nat)
    requires R.IsRun(run, actions) && R.Initial(run[0]) && n < |run|
    ensures StreamOk(run[n])
  {
    hide StreamOk, R.Next, R.Enabled, R.Initial, R.ItemsOk, RelayDelivery.Good;
    if n > 0 {
      StreamTraces(run, actions, n - 1);
      RelayGuarantees.RunGood(run, actions, n - 1);
      RelayDelivery.GoodItems(run[n - 1]);
      assert run[n - 1 + 1] == R.Next(run[n - 1], actions[n - 1]) && R.Enabled(run[n - 1], actions[n - 1]);
      StreamKeeps(run[n - 1], actions[n - 1]);
    } else {
      InitialStream(run[0]);
    }
  }

  lemma InitialStream(s: R.State)
    requires R.Initial(s)
    ensures StreamOk(s)
  {
  }

  // ----- The stored rows ------------------------------------------------------------------------------

  /** The entries of the relay's stream as the worker sees them: all of them parse. */
  function Entries(stream: seq<DatabaseEvent>): (r: W.Stream)
    ensures |r| == |stream| && forall i | 0 <= i < |r| :: r[i] == Some(stream[i])
  {
    seq(|stream|, i requires 0 <= i < |stream| => Some(stream[i]))
  }

  lemma {:induction false} EventInStream(stream: W.Stream, ids: seq<nat>, e: DatabaseEvent)
    requires W.InStream(stream, ids) && e in W.EventsOf(stream, ids)
    ensures Some(e) in stream
  {
    if e in W.EventsOf(stream, ids[..|ids| - 1]) { EventInStream(stream, ids[..|ids| - 1], e); }
  }

  lemma {:induction false} InConcat(bs: seq<seq<DatabaseEvent>>, b: nat, e: DatabaseEvent)
    requires b < |bs| && e in bs[b]
    ensures e in History.Concat(bs)
  {
    if b < |bs| - 1 { InConcat(bs[..|bs| - 1], b, e); }
  }

  /** An event of a delivered batch records a frame. */
  lemma BatchEventTraces(s: R.State, w: W.State, es: seq<DatabaseEvent>, e: DatabaseEvent)
    requires StreamOk(s) && w.stream <= Entries(s.stream)
    requires w.delivered <= |w.stream|
             && History.Concat(w.books.batches) == W.EventsOf(w.stream, W.Range(0, w.delivered))
    requires es in w.books.batches && e in es
    ensures Recorded(s, e)
  {
    var b :| 0 <= b < |w.books.batches| && w.books.batches[b] == es;
    InConcat(w.books.batches, b, e);
    EventInStream(w.stream, W.Range(0, w.delivered), e);
    var i :| 0 <= i < |w.stream| && w.stream[i] == Some(e);
    assert Entries(s.stream)[i] == Some(s.stream[i]);
  }

  /** The row stored for a frame. */
  ghost predicate RowOfFrame(sender: User, frame: IncomingMessage, id: MessageId, row: History.MessageRow) {
    && row.sender == sender
    && match frame
       case InText(to, fid, content) =>
         fid == id && row == History.MessageRow(sender, to, "text", Some(content), None, None, None)
       case InFile(to, fid, fileName, mimeType, fileUrl) =>
         fid == id && row == History.MessageRow(sender, to, "file", None, Some(fileName), Some(mimeType), Some(fileUrl))
       case InEncrypted(to, fid, _) =>
         fid == id && row == History.MessageRow(sender, to, "encrypted", None, None, None, None)
       case _ => false
  }

  lemma RecordedRow(s: R.State, k: nat, e: DatabaseEvent, id: MessageId)
    requires Records(s, k, e) && History.Introduces(History.AnyKind, e, id)
    ensures RowOfFrame(s.accepted[k].sender, s.accepted[k].frame, id, History.RowOf(e).row)
  {
  }

  /** The write at position `w` of the log stored `id`, and the event it took records frame `k`, whose row
      this is. */
  ghost predicate StoredFrom(s: R.State, start: History.Tables, b: Ledger.Books, id: MessageId, w: nat, k: nat) {
    && id in b.tables.messages
    && Ledger.StoredAt(start, b.log, w, id) && b.log[w].events in b.batches
    && Records(s, k, b.log[w].events[History.Winner(b.log[w].events, id)])
    && RowOfFrame(s.accepted[k].sender, s.accepted[k].frame, id, b.tables.messages[id])
  }

  /** MAIN RESULT. Every message row the worker has stored is the row of a frame that was accepted
      on a connection authenticated as its sender; the frame's event is the winner of the first
      committed batch that introduced its id. */
  lemma StoredRowsTrace(relayRun: seq<R.State>, relayActions: seq<R.Action>, m: nat,
                        workerRun: seq<W.State>, workerActions: seq<W.Action>, n: nat, id: MessageId)
    requires R.IsRun(relayRun, relayActions) && R.Initial(relayRun[0]) && m < |relayRun|
    requires W.IsRun(workerRun, workerActions) && W.Initial(workerRun[0]) && n < |workerRun|
    requires workerRun[n].stream <= Entries(relayRun[m].stream)
    requires id in workerRun[n].books.tables.messages && id !in workerRun[0].books.tables.messages
    ensures exists w: nat, k: nat :: StoredFrom(relayRun[m], workerRun[0].books.tables, workerRun[n].books, id, w, k)
  {
    hide R.IsRun, R.Initial, W.Next, Ledger.BooksOk, Route, EventOf, History.Batch, History.Winner, History.RowOf,
         History.Valid;
    hide Ledger.Reference, Ledger.CommittedIn, Ledger.CountedOf, Ledger.CommittedRows, StreamOk;
    var s, b, start := relayRun[m], workerRun[n].books, workerRun[0].books.tables;
    StreamTraces(relayRun, relayActions, m);
    W.CrashTolerance(workerRun, workerActions, n);
    var w := Ledger.LogOrigin(start, b.log, id);
    var es := b.log[w].events;
    Ledger.InLog(b.log, w);
    Ledger.FromBatches(b.batches, b.commits, es);
    var e := es[History.Winner(es, id)];
    BatchEventTraces(s, workerRun[n], es, e);
    var k: nat :| Records(s, k, e);
    RecordedRow(s, k, e, id);
    assert StoredFrom(s, start, b, id, w, k);
  }

  // ----- Ciphertext rows ------------------------------------------------------------------------------

  /** The row stores a ciphertext of that frame whose device id is valid. */
  ghost predicate CiphertextOfFrame(frame: IncomingMessage, row: History.CiphertextRow) {
    && frame.InEncrypted? && frame.id == row.messageId
    && exists ct | ct in frame.ciphertexts :: ct == DeviceCiphertext(Some(row.device), row.signalType, row.ciphertext)
  }

  lemma {:induction false} DeviceRowOrigin(id: MessageId, cts: seq<DeviceCiphertext>, row: History.CiphertextRow)
    requires row in History.DeviceRows(id, cts)
    ensures row.messageId == id
    ensures exists ct | ct in cts :: ct == DeviceCiphertext(Some(row.device), row.signalType, row.ciphertext)
  {
    var init := cts[..|cts| - 1];
    if row in History.DeviceRows(id, init) {
      DeviceRowOrigin(id, init, row);
      var ct :| ct in init && ct == DeviceCiphertext(Some(row.device), row.signalType, row.ciphertext);
      assert ct in cts;
    } else {
      assert cts[|cts| - 1] in cts;
    }
  }

  lemma {:induction false} BatchRowOrigin(es: seq<DatabaseEvent>, row: History.CiphertextRow) returns (e: DatabaseEvent)
    requires row in History.Ciphertexts(es)
    ensures e in es && row in History.CiphertextsOf(e)
  {
    if row in History.Ciphertexts(es[..|es| - 1]) {
      e := BatchRowOrigin(es[..|es| - 1], row);
    } else {
      e := es[|es| - 1];
    }
  }

  lemma {:induction false} TimesOrigin(n: nat, c: multiset<History.CiphertextRow>, row: History.CiphertextRow)
    requires row in Ledger.Times(n, c)
    ensures row in c
  {
    if row in Ledger.Times(n - 1, c) { TimesOrigin(n - 1, c, row); }
  }

  lemma {:induction false} CommittedOrigin(batches: seq<seq<DatabaseEvent>>, commits: seq<nat>,
                                           row: History.CiphertextRow) returns (b: nat)
    requires |batches| == |commits| && row in Ledger.CommittedRows(batches, commits)
    ensures b < |batches| && row in History.Ciphertexts(batches[b])
  {
    var n := |batches| - 1;
    if row in Ledger.CommittedRows(batches[..n], commits[..n]) {
      b := CommittedOrigin(batches[..n], commits[..n], row);
    } else {
      b := n;
      TimesOrigin(commits[n], History.Ciphertexts(batches[n]), row);
    }
  }

  /** The stored ciphertext row comes from an event of a delivered batch. */
  lemma CiphertextEvent(run: seq<W.State>, actions: seq<W.Action>, n: nat, row: History.CiphertextRow)
      returns (b: nat, e: DatabaseEvent)
    requires W.IsRun(run, actions) && W.Initial(run[0]) && n < |run|
    requires row in run[n].books.tables.ciphertexts && row !in run[0].books.tables.ciphertexts
    ensures b < |run[n].books.batches| && e in run[n].books.batches[b] && row in History.CiphertextsOf(e)
  {
    hide Ledger.CommittedRows, History.Batch, History.Ciphertexts, History.CiphertextsOf;
    W.CrashTolerance(run, actions, n);
    b := CommittedOrigin(run[n].books.batches, run[n].books.commits, row);
    e := BatchRowOrigin(run[n].books.batches[b], row);
  }

  lemma RecordedCiphertext(s: R.State, k: nat, e: DatabaseEvent, row: History.CiphertextRow)
    requires Records(s, k, e) && row in History.CiphertextsOf(e)
    ensures CiphertextOfFrame(s.accepted[k].frame, row)
  {
    hide History.DeviceRows;
    EncryptedFrame(s.accepted[k].sender, s.accepted[k].frame, e);
    DeviceRowOrigin(e.id, e.ciphertexts, row);
  }

  lemma EncryptedFrame(sender: User, frame: IncomingMessage, e: DatabaseEvent)
    requires Route(sender, frame).Some? && EventOf(sender, Route(sender, frame).value) == Some(e)
             && e.NewEncryptedMessage?
    ensures frame == InEncrypted(e.recipient, e.id, e.ciphertexts)
  {
  }

  /** MAIN RESULT. Every ciphertext row the worker has stored is a ciphertext with a valid device id
      of an encrypted frame accepted on a connection authenticated as its sender. */
  lemma CiphertextRowsTrace(relayRun: seq<R.State>, relayActions: seq<R.Action>, m: nat,
                            workerRun: seq<W.State>, workerActions: seq<W.Action>, n: nat, row: History.CiphertextRow)
    requires R.IsRun(relayRun, relayActions) && R.Initial(relayRun[0]) && m < |relayRun|
    requires W.IsRun(workerRun, workerActions) && W.Initial(workerRun[0]) && n < |workerRun|
    requires workerRun[n].stream <= Entries(relayRun[m].stream)
    requires row in workerRun[n].books.tables.ciphertexts && row !in workerRun[0].books.tables.ciphertexts
    ensures exists k: nat :: Authentic(relayRun[m], k) && CiphertextOfFrame(relayRun[m].accepted[k].frame, row)
  {
    hide R.IsRun, R.Initial, Ledger.CommittedRows, History.Batch, History.Ciphertexts, History.CiphertextsOf,
         CiphertextOfFrame, Route, EventOf;
    StreamTraces(relayRun, relayActions, m);
    var b, e := CiphertextEvent(workerRun, workerActions, n, row);
    W.CrashTolerance(workerRun, workerActions, n);
    BatchEventTraces(relayRun[m], workerRun[n], workerRun[n].books.batches[b], e);
    var k: nat :| Records(relayRun[m], k, e);
    RecordedCiphertext(relayRun[m], k, e, row);
  }

  /** MAIN RESULT. Once a batch has been committed, every ciphertext with a valid device id of its encrypted
      events is stored; and over all batches each row is stored once for each time it was sent and
      committed. */
  lemma CommittedCiphertextsStored(run: seq<W.State>, actions: seq<W.Action>, n: nat, b: nat, e: DatabaseEvent,
                                   row: History.CiphertextRow)
    requires W.IsRun(run, actions) && W.Initial(run[0]) && n < |run|
    requires b < |run[n].books.batches| == |run[n].books.commits| && run[n].books.commits[b] > 0
    requires e in run[n].books.batches[b] && e.NewEncryptedMessage? && e.id == row.messageId
    requires History.SentAs(row) in e.ciphertexts
    ensures row in run[n].books.tables.ciphertexts
    ensures var start, books := run[0].books.tables, run[n].books;
            books.tables.ciphertexts[row]
            == start.ciphertexts[row] + Ledger.WrittenCount(books.batches, books.commits, row)
  {
    hide W.IsRun, W.Initial, Ledger.CommittedRows, Ledger.WrittenCount, History.Ciphertexts, History.Batch;
    hide Ledger.Reference, Ledger.CountedOf, Ledger.CommittedIn, W.AreEntries;
    var books := run[n].books;
    W.CrashTolerance(run, actions, n);
    History.CiphertextSent(books.batches[b], e, row);
    Ledger.CommittedHolds(books.batches, books.commits, b, row);
    Ledger.CommittedCount(books.batches, books.commits, row);
  }

  // ----- Read states ----------------------------------------------------------------------------------

  /** The read state that `key` has was there at the start, or a receipt of a delivered batch or a
      marking request of the reader has set it. */
  ghost predicate Accounts(start: History.Tables, b: Ledger.Books, key: History.ReadKey) {
    key in b.tables.readStates ==>
      || (key in start.readStates && start.readStates[key] == b.tables.readStates[key])
      || (exists es | es in b.batches :: ReadEvent(b.tables.readStates[key], key.0) in es)
      || Ledger.Marked(key.0, b.tables.readStates[key]) in b.log
  }

  lemma AttemptAccounts(start: History.Tables, b: Ledger.Books, key: History.ReadKey)
    requires Ledger.BooksOk(start, b) && b.batches != [] && Accounts(start, b, key)
    ensures Accounts(start, Ledger.AfterAttempt(b, b.batches[|b.batches| - 1]), key)
  {
    hide History.Batch, History.Valid, Ledger.Reference, Ledger.CommittedIn, Ledger.CountedOf, Ledger.CommittedRows,
         Ledger.Absorbed;
    var es := b.batches[|b.batches| - 1];
    if History.Batch(b.tables, es).Ok? {
      History.BatchRead(b.tables, es, key);
      var after := Ledger.AfterAttempt(b, es);
      var k := History.Last(History.Stored(b.tables.messages, es), es, |es|, key);
      if k >= 0 { assert ReadEvent(after.tables.readStates[key], key.0) == es[k] && es in after.batches; }
    }
  }

  lemma MarkAccounts(start: History.Tables, b: Ledger.Books, user: User, id: MessageId, key: History.ReadKey)
    requires Ledger.BooksOk(start, b) && Accounts(start, b, key)
    ensures Accounts(start, Ledger.AfterMark(b, user, id), key)
  {
    hide History.Batch, History.Valid, Ledger.Reference, Ledger.CommittedIn, Ledger.CountedOf, Ledger.CommittedRows,
         Ledger.Absorbed;
    var after := Ledger.AfterMark(b, user, id);
    assert after.log[|b.log|] == Ledger.Marked(user, id) && b.log <= after.log;
  }

  lemma StepAccounts(start: History.Tables, s: W.State, a: W.Action, key: History.ReadKey)
    requires W.Inv(start, s) && W.Enabled(s, a) && Accounts(start, s.books, key)
    ensures Accounts(start, W.Next(s, a).books, key)
  {
    hide W.Next, W.EventsOf, History.Concat, W.Range, W.Parseable, Ledger.AfterAttempt, Ledger.AfterMark,
         Ledger.BooksOk;
    W.BooksNext(s, a);
    match a
    case Write => if W.EventsOf(s.stream, s.phase.ids) != [] { AttemptAccounts(start, s.books, key); }
    case Mark(user, id) => MarkAccounts(start, s.books, user, id, key);
    case _ =>
  }

  lemma {:induction false} RunAccounts(run: seq<W.State>, actions: seq<W.Action>, n: nat, key: History.ReadKey)
    requires W.IsRun(run, actions) && W.Initial(run[0]) && n < |run|
    ensures Accounts(run[0].books.tables, run[n].books, key)
  {
    hide W.Next, W.Inv, W.Enabled;
    if n > 0 {
      RunAccounts(run, actions, n - 1, key);
      W.RunKeeps(run, actions, n - 1);
      assert run[n - 1 + 1] == W.Next(run[n - 1], actions[n - 1]) && W.Enabled(run[n - 1], actions[n - 1]);
      StepAccounts(run[0].books.tables, run[n - 1], actions[n - 1], key);
    }
  }

  lemma ReceiptFrame(s: R.State, k: nat, id: MessageId, reader: User)
    requires Records(s, k, ReadEvent(id, reader))
    ensures s.accepted[k].sender == reader && s.accepted[k].frame.InReadReceipt? && s.accepted[k].frame.messageId == id
  {
  }

  /** MAIN RESULT. Every read state that differs from the start was set by a marking request of its
      reader, or comes from a ReadReceipt frame for that message accepted on a connection authenticated
      as the reader. */
  lemma ReadStatesTrace(relayRun: seq<R.State>, relayActions: seq<R.Action>, m: nat,
                        workerRun: seq<W.State>, workerActions: seq<W.Action>, n: nat, key: History.ReadKey)
    requires R.IsRun(relayRun, relayActions) && R.Initial(relayRun[0]) && m < |relayRun|
    requires W.IsRun(workerRun, workerActions) && W.Initial(workerRun[0]) && n < |workerRun|
    requires workerRun[n].stream <= Entries(relayRun[m].stream)
    requires key in workerRun[n].books.tables.readStates
    ensures var id, start := workerRun[n].books.tables.readStates[key], workerRun[0].books.tables.readStates;
            || (key in start && start[key] == id)
            || Ledger.Marked(key.0, id) in workerRun[n].books.log
            || exists k: nat :: Authentic(relayRun[m], k) && relayRun[m].accepted[k].sender == key.0
                 && relayRun[m].accepted[k].frame.InReadReceipt? && relayRun[m].accepted[k].frame.messageId == id
  {
    hide R.IsRun, R.Initial, Route, EventOf, StreamOk, W.IsRun, W.Initial, Ledger.CommittedRows, History.Batch,
         Ledger.Reference;
    var b := workerRun[n].books;
    var id, start := b.tables.readStates[key], workerRun[0].books.tables.readStates;
    RunAccounts(workerRun, workerActions, n, key);
    if !(key in start && start[key] == id) && Ledger.Marked(key.0, id) !in b.log {
      var e := ReadEvent(id, key.0);
      var es :| es in b.batches && e in es;
      StreamTraces(relayRun, relayActions, m);
      W.CrashTolerance(workerRun, workerActions, n);
      BatchEventTraces(relayRun[m], workerRun[n], es, e);
      var k: nat :| Records(relayRun[m], k, e);
      ReceiptFrame(relayRun[m], k, id, key.0);
    }
  }
}
