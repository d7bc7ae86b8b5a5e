/** Read states under crashes: the worker and the marking handlers (`mark_read_handler` in
    api/src/lib.rs) write the same table, and a batch committed again can undo a mark made since. */
module WorkerReadStates {
  import opened Models
  import opened History
  import opened Batching
  import opened Ledger
  import opened WorkerProtocol

  /** The read states are those of the crash-free run over the log. */
  ghost predicate Coupled(start: Tables, b: Books) {
    b.tables.readStates == Reference(start, b.log).readStates
  }

  /** The action commits a batch that has been committed before. */
  predicate Replays(s: State, a: Action) {
    a.Write? && Enabled(s, a) && EventsOf(s.stream, s.phase.ids) != [] && s.books.commits[|s.books.commits| - 1] > 0
  }

  /** The action is no replay, or one whose last receipts all say what is there already. */
  ghost predicate Undisturbing(s: State, a: Action) {
    Replays(s, a) ==> Undisturbed(s.books.tables, EventsOf(s.stream, s.phase.ids))
  }

  // ----- Exactly when a replay shows ------------------------------------------------------------------

  lemma AttemptCoupledIff(start: Tables, b: Books)
    requires BooksOk(start, b) && b.batches != [] && Coupled(start, b)
    ensures var n := |b.batches| - 1;
            Coupled(start, AfterAttempt(b, b.batches[n]))
            <==> (b.commits[n] > 0 ==> Undisturbed(b.tables, b.batches[n]))
  {
    hide Batch, Ciphertexts, Valid, Stored, Reference, CommittedIn, CountedOf, CommittedRows, Undisturbed;
    var n, ref, t := |b.batches| - 1, Reference(start, b.log), b.tables;
    var es := b.batches[n];
    if b.commits[n] > 0 {
      AttemptAbsorbs(t, es);
      Replay(t, t, es);
    } else {
      ReferenceSnoc(start, b.log, Committed(es));
      assert t == Besides(ref, t.ciphertexts, t.readAt);
      BatchBesides(ref, es, t.ciphertexts, t.readAt);
    }
  }

  lemma MarkedAlike(start: Tables, b: Books, user: User, id: MessageId)
    requires BooksOk(start, b) && Coupled(start, b)
    ensures Coupled(start, AfterMark(b, user, id)) && Coupled(start, AfterRegistration(b, user))
  {
    hide Batch, Valid, Reference, CommittedIn, CountedOf, CommittedRows, Absorbed;
    ReferenceSnoc(start, b.log, Marked(user, id));
    ReferenceSnoc(start, b.log, Registered(user));
  }

  lemma CoupledStepIff(start: Tables, s: State, a: Action)
    requires Inv(start, s) && Coupled(start, s.books) && Enabled(s, a)
    ensures Coupled(start, Next(s, a).books) <==> Undisturbing(s, a)
  {
    hide Next, EventsOf, Concat, Range, Parseable, AfterAttempt, AfterMark, AfterRegistration, Reference, Undisturbed,
         BooksOk;
    BooksNext(s, a);
    match a
    case Write =>
      if EventsOf(s.stream, s.phase.ids) != [] {
        WriteNext(s);
        AttemptCoupledIff(start, s.books);
      }
    case Mark(user, id) => MarkedAlike(start, s.books, user, id);
    case Register(user) => MarkedAlike(start, s.books, user, "");
    case _ =>
  }

  /** MAIN RESULT. Up to any point of a run the read states have been those of the crash-free run
      over the log exactly when every batch committed again so far found its last receipts in place. */
  lemma {:induction false} ReadStatesAgreeIff(run: seq<State>, actions: seq<Action>, n: nat)
    requires IsRun(run, actions) && Initial(run[0]) && n < |run|
    ensures (forall m | 0 <= m <= n :: Coupled(run[0].books.tables, run[m].books))
            <==> (forall m | 0 <= m < n :: Undisturbing(run[m], actions[m]))
  {
    hide Inv, Next, Enabled, Undisturbing;
    if n > 0 {
      ReadStatesAgreeIff(run, actions, n - 1);
      RunKeeps(run, actions, n - 1);
      assert run[n - 1 + 1] == Next(run[n - 1], actions[n - 1]) && Enabled(run[n - 1], actions[n - 1]);
      if Coupled(run[0].books.tables, run[n - 1].books) {
        CoupledStepIff(run[0].books.tables, run[n - 1], actions[n - 1]);
      }
    }
  }

  // ----- Marks that leave a pending batch alone ---------------------------------------------------------

  /** Whether a batch was committed and is not yet known to be acknowledged. */
  predicate Unacknowledged(s: State) {
    InStream(s.stream, s.pending) && EventsOf(s.stream, s.pending) != []
    && s.books.commits != [] && s.books.commits[|s.books.commits| - 1] > 0
  }

  /** The action is no mark that contradicts a receipt of such a batch. */
  predicate Apart(s: State, a: Action) {
    var t := s.books.tables;
    a.Mark? && a.id in t.messages && Unacknowledged(s) ==>
      var es := EventsOf(s.stream, s.pending);
      var k := Last(t.messages, es, |es|, (a.user, t.messages[a.id].sender));
      k >= 0 ==> es[k].messageId == a.id
  }

  ghost predicate InPlace(s: State) {
    Unacknowledged(s) ==> Undisturbed(s.books.tables, EventsOf(s.stream, s.pending))
  }

  lemma MarkUndisturbed(t: Tables, user: User, id: MessageId, es: seq<DatabaseEvent>)
    requires id in t.messages && Undisturbed(t, es)
    requires var k := Last(t.messages, es, |es|, (user, t.messages[id].sender));
             k >= 0 ==> es[k].messageId == id
    ensures Undisturbed(Keep(t, MarkRead(t, Receipt(id, user))), es)
  {
    var d := Keep(t, MarkRead(t, Receipt(id, user)));
    forall key ensures SaysTheSame(d, es, key) {
      assert SaysTheSame(t, es, key);
    }
  }

  /** Users and read times do not matter for what the last receipts say. */
  lemma StaysUndisturbed(t: Tables, d: Tables, es: seq<DatabaseEvent>)
    requires Undisturbed(t, es) && d.messages == t.messages && d.readStates == t.readStates
    ensures Undisturbed(d, es)
  {
    forall key ensures SaysTheSame(d, es, key) {
      assert SaysTheSame(t, es, key);
    }
  }

  lemma WriteInPlace(start: Tables, s: State)
    requires Inv(start, s) && Enabled(s, Write) && EventsOf(s.stream, s.phase.ids) != [] && InPlace(s)
    ensures InPlace(Next(s, Write))
  {
    hide Batch, Valid, Reference, CommittedIn, CountedOf, CommittedRows, Absorbed, EventsOf, Undisturbed, Concat,
         Range, Parseable, Next;
    WriteNext(s);
    var es := s.books.batches[|s.books.batches| - 1];
    if Batch(s.books.tables, es).Ok? { CommittedUndisturbed(s.books.tables, es); }
  }

  lemma ReadInPlace(s: State)
    requires Shape(s) && Batched(s) && Enabled(s, Read) && InPlace(s)
    ensures InPlace(Next(s, Read))
  {
    hide EventsOf, Undisturbed, Concat, Parseable, Range;
    if s.phase.fromStart {
      ReadPendingNext(s);
    } else if s.delivered < |s.stream| {
      ReadNewNext(s);
      hide Next;
    }
  }

  lemma ReadPendingNext(s: State)
    requires Enabled(s, Read) && s.phase.fromStart
    ensures Next(s, Read).pending == s.pending && Next(s, Read).stream == s.stream && Next(s, Read).books == s.books
  {
  }

  /** The pending entries and the commits of the last batch change only where batches come and go. */
  lemma InPlaceKeeps(start: Tables, s: State, a: Action)
    requires Inv(start, s) && Enabled(s, a) && InPlace(s) && Apart(s, a)
    ensures InPlace(Next(s, a))
  {
    hide Batch, EventsOf, Undisturbed, Concat, Parseable, Unparseable, Acked, MarkRead, Last, Range, BooksOk;
    var es, t := EventsOf(s.stream, s.pending), s.books.tables;
    match a
    case Append(entry) => StreamGrows(s.stream, entry, s.pending);
    case Mark(user, id) => if Unacknowledged(s) { MarkUndisturbed(t, user, id, es); }
    case Stamp(ids) => if Unacknowledged(s) { StaysUndisturbed(t, t.(readAt := t.readAt + ids), es); }
    case Register(user) => if Unacknowledged(s) { StaysUndisturbed(t, t.(users := t.users + {user}), es); }
    case Write => if EventsOf(s.stream, s.phase.ids) != [] { WriteInPlace(start, s); }
    case Read => ReadInPlace(s);
    case AckUnparseable => AckUnparseableKeeps(s);
    case AckParseable =>
      AckParseableNext(s);
      NoEvents(s.stream);
    case _ =>
  }

  lemma InPlaceUndisturbing(start: Tables, s: State, a: Action)
    requires Inv(start, s) && InPlace(s) && Enabled(s, a)
    ensures Undisturbing(s, a)
  {
    hide EventsOf, Undisturbed, Concat, Parseable, Range, BooksOk;
    if a.Write? { WriteNext(s); }
  }

  /** MAIN RESULT. As long as no mark contradicts a receipt of a batch that is committed but not yet
      acknowledged, replays never show: the read states are those of the crash-free run over the log. */
  lemma {:induction false} MarksApartAgree(run: seq<State>, actions: seq<Action>, n: nat)
    requires IsRun(run, actions) && Initial(run[0]) && n < |run|
    requires forall m | 0 <= m < n :: Apart(run[m], actions[m])
    ensures InPlace(run[n])
    ensures forall m | 0 <= m < n :: Undisturbing(run[m], actions[m])
    ensures Coupled(run[0].books.tables, run[n].books)
  {
    hide Inv, Next, Enabled, Undisturbing, InPlace, Apart, Coupled;
    if n == 0 {
      InPlaceAtFirst(run[0]);
    } else {
      MarksApartAgree(run, actions, n - 1);
      RunKeeps(run, actions, n - 1);
      assert run[n - 1 + 1] == Next(run[n - 1], actions[n - 1]) && Enabled(run[n - 1], actions[n - 1]);
      InPlaceUndisturbing(run[0].books.tables, run[n - 1], actions[n - 1]);
      InPlaceKeeps(run[0].books.tables, run[n - 1], actions[n - 1]);
    }
    ReadStatesAgreeIff(run, actions, n);
  }

  lemma InPlaceAtFirst(s: State)
    requires Initial(s)
    ensures InPlace(s)
  {
  }

  // ----- One event at a time --------------------------------------------------------------------------

  /** The reference without batches: events one at a time, marks and registrations in between. */
  function OneByOne(start: Tables, log: seq<Write>): Tables {
    if log == [] then start
    else
      var before := OneByOne(start, log[..|log| - 1]);
      match log[|log| - 1]
      case Committed(events) => Fold(before, events)
      case w => ApplyWrite(before, w)
  }

  /** Every event's users are there when its batch is written. */
  ghost predicate LogKnown(start: Tables, log: seq<Write>) {
    forall k | 0 <= k < |log| && log[k].Committed? :: AllKnown(Reference(start, log[..k]).users, log[k].events)
  }

  lemma LogKnownSnoc(start: Tables, log: seq<Write>, w: Write)
    requires LogKnown(start, log) && (w.Committed? ==> AllKnown(Reference(start, log).users, w.events))
    ensures LogKnown(start, log + [w])
  {
    hide Reference, AllKnown;
    assert forall k | 0 <= k <= |log| :: (log + [w])[..k] == log[..k];
  }

  lemma LogKnownInit(start: Tables, log: seq<Write>)
    requires LogKnown(start, log) && log != []
    ensures LogKnown(start, log[..|log| - 1])
    ensures log[|log| - 1].Committed? ==> AllKnown(Reference(start, log[..|log| - 1]).users, log[|log| - 1].events)
  {
    hide Reference, AllKnown;
    assert forall k | 0 <= k < |log| - 1 :: log[..|log| - 1][..k] == log[..k];
  }

  lemma WellOrderedByMessages(t: Tables, u: Tables, es: seq<DatabaseEvent>)
    requires t.messages == u.messages && WellOrdered(t, es)
    ensures WellOrdered(u, es)
  {
  }

  lemma KnownByMore(users: set<User>, more: set<User>, es: seq<DatabaseEvent>)
    requires AllKnown(users, es) && users <= more
    ensures AllKnown(more, es)
  {
  }

  lemma KnownAppend(users: set<User>, a: seq<DatabaseEvent>, b: seq<DatabaseEvent>)
    requires AllKnown(users, a) && AllKnown(users, b)
    ensures AllKnown(users, a + b)
  {
  }

  lemma MoreUsersValid(t: Tables, users: set<User>)
    requires Valid(t) && t.users <= users
    ensures Valid(t.(users := users))
  {
  }

  /** Users that are there from the start instead of in time change nothing else. */
  lemma {:induction false} FoldMoreUsers(t: Tables, users: set<User>, es: seq<DatabaseEvent>)
    requires Valid(t) && AllKnown(t.users, es) && t.users <= users
    ensures Fold(t.(users := users), es) == Fold(t, es).(users := users)
  {
    hide Valid;
    if es != [] {
      var init, e := es[..|es| - 1], es[|es| - 1];
      FoldMoreUsers(t, users, init);
      FoldKnown(t, init);
      ApplyMoreUsers(Fold(t, init), users, e);
    }
  }

  lemma ApplyMoreUsers(t: Tables, users: set<User>, e: DatabaseEvent)
    requires Valid(t) && Mentions(e) <= t.users <= users
    ensures Keep(t.(users := users), Apply(t.(users := users), e)) == Keep(t, Apply(t, e)).(users := users)
  {
    hide InsertIgnore;
    MoreUsersValid(t, users);
    ApplyKnown(t, e);
    ApplyKnown(t.(users := users), e);
  }

  /** On a well-ordered stream batches may be taken apart, whatever is marked and whoever registers in
      between; `users` are all those there at the end. */
  lemma {:induction false} LogOneByOne(start: Tables, log: seq<Write>, users: set<User>)
    requires Valid(start) && LogKnown(start, log) && WellOrdered(start, Concat(CommittedIn(log)))
    requires Reference(start, log).users <= users
    ensures var t, es := Reference(start, log), Concat(CommittedIn(log));
            && t == OneByOne(start, log) && Valid(t) && start.users <= t.users && AllKnown(users, es)
            && t.messages == Fold(start.(users := users), es).messages
    decreases |log|, 0
  {
    hide Batch, Fold, Valid, MarkRead, WellOrdered, AllKnown, LogKnown;
    if log == [] {
      NothingFolded(start.(users := users));
      NobodyMentioned(users);
    } else {
      var init, w := log[..|log| - 1], log[|log| - 1];
      var t, a := Reference(start, init), Concat(CommittedIn(init));
      LogKnownInit(start, log);
      ReferenceValid(start, init);
      ApplyValid(t, w);
      if w.Committed? {
        LastBatchOneByOne(start, init, w.events, users);
      } else {
        LogOneByOne(start, init, users);
        if w.Marked? { MarkReadValid(t, Receipt(w.id, w.user)); }
      }
    }
  }

  lemma {:induction false} LastBatchOneByOne(start: Tables, init: seq<Write>, events: seq<DatabaseEvent>,
                                             users: set<User>)
    requires Valid(start) && LogKnown(start, init) && Valid(Reference(start, init))
             && Reference(start, init).users <= users
    requires AllKnown(Reference(start, init).users, events) && WellOrdered(start, Concat(CommittedIn(init)) + events)
    ensures var t, a := Reference(start, init), Concat(CommittedIn(init));
            && t == OneByOne(start, init) && start.users <= t.users && AllKnown(users, a + events)
            && Batch(t, events) == Ok(Fold(t, events)) && Fold(t, events).users == t.users
            && Fold(t, events).messages == Fold(start.(users := users), a + events).messages
    decreases |init|, 1
  {
    hide Batch, Fold, Valid, MarkRead, AllKnown, LogKnown, WellOrdered;
    var t, a, all := Reference(start, init), Concat(CommittedIn(init)), start.(users := users);
    assert start.users <= users by { UsersGrow(start, init); }
    MoreUsersValid(start, users);
    assert AllKnown(users, a) by { LogUsersKnown(start, init, users); }
    WellOrderedByMessages(start, all, a + events);
    WellOrderedSplit(all, a, events);
    WellOrderedByMessages(all, start, a);
    LogOneByOne(start, init, users);
    WellOrderedByMessages(Fold(all, a), t, events);
    WellOrderedAgrees(t, events);
    KnownByMore(t.users, users, events);
    KnownAppend(users, a, events);
    FoldKnown(t, events);
    FoldKnown(all, a);
    FoldKnown(Fold(all, a), events);
    FoldAppend(all, a, events);
  }

  lemma {:induction false} UsersGrow(start: Tables, log: seq<Write>)
    requires Valid(start)
    ensures start.users <= Reference(start, log).users
  {
    hide Valid, ApplyWrite;
    if log != [] {
      UsersGrow(start, log[..|log| - 1]);
      ReferenceValid(start, log[..|log| - 1]);
      ApplyValid(Reference(start, log[..|log| - 1]), log[|log| - 1]);
    }
  }

  lemma {:induction false} LogUsersKnown(start: Tables, log: seq<Write>, users: set<User>)
    requires Valid(start) && LogKnown(start, log) && Reference(start, log).users <= users
    ensures AllKnown(users, Concat(CommittedIn(log)))
  {
    hide Valid, ApplyWrite, AllKnown, LogKnown;
    if log == [] {
      assert AllKnown(users, []) by { NobodyMentioned(users); }
    } else {
      var init, w := log[..|log| - 1], log[|log| - 1];
      LogKnownInit(start, log);
      ReferenceValid(start, init);
      ApplyValid(Reference(start, init), w);
      LogUsersKnown(start, init, users);
      if w.Committed? {
        KnownByMore(Reference(start, init).users, users, w.events);
        KnownAppend(users, Concat(CommittedIn(init)), w.events);
      }
    }
  }

  lemma NobodyMentioned(users: set<User>)
    ensures AllKnown(users, [])
  {
  }

  lemma NothingFolded(t: Tables)
    ensures Fold(t, []) == t
  {
  }

  /** Without marks one at a time is the fold over all events, as if everyone had registered before. */
  lemma {:induction false} WithoutMarks(start: Tables, log: seq<Write>)
    requires Valid(start) && LogKnown(start, log) && forall w | w in log :: !w.Marked?
    ensures OneByOne(start, log) == Fold(start.(users := Reference(start, log).users), Concat(CommittedIn(log)))
  {
    hide Fold, Valid, AllKnown, LogKnown, Batch;
    if log == [] {
      NothingFolded(start);
    } else {
      var init, w := log[..|log| - 1], log[|log| - 1];
      var t, a := Reference(start, init), Concat(CommittedIn(init));
      LogKnownInit(start, log);
      WithoutMarks(start, init);
      ReferenceValid(start, init);
      ApplyValid(t, w);
      UsersGrow(start, init);
      var all := start.(users := t.users);
      MoreUsersValid(start, t.users);
      if w.Committed? {
        FoldAppend(all, a, w.events);
      } else {
        LogUsersKnown(start, init, t.users);
        FoldKnown(all, a);
        FoldMoreUsers(all, t.users + {w.user}, a);
      }
    }
  }

  /** The transaction finds every user its batch mentions. */
  predicate UsersThere(s: State, a: Action) {
    a.Write? && Enabled(s, a) ==> AllKnown(s.books.tables.users, EventsOf(s.stream, s.phase.ids))
  }

  /** Then it succeeds. */
  lemma UsersThereSucceeds(t: Tables, es: seq<DatabaseEvent>)
    requires Valid(t) && AllKnown(t.users, es)
    ensures Batch(t, es).Ok?
  {
    hide Batch, Valid;
    KnownInsertable(t, es);
    BatchFailsIff(t, es);
  }

  /** All users of the log are there in time, and whatever was tried was committed. */
  ghost predicate InTime(start: Tables, b: Books) {
    && LogKnown(start, b.log) && |b.tries| == |b.commits|
    && forall i | 0 <= i < |b.tries| :: b.tries[i] > 0 ==> b.commits[i] > 0
  }

  lemma InTimeAttempt(start: Tables, b: Books, es: seq<DatabaseEvent>)
    requires BooksOk(start, b) && InTime(start, b) && b.batches != [] && AllKnown(b.tables.users, es)
    ensures InTime(start, AfterAttempt(b, es))
  {
    hide Valid, Reference, LogKnown, AllKnown, Batch, CommittedIn, CountedOf, CommittedRows, Absorbed;
    UsersThereSucceeds(b.tables, es);
    LogKnownSnoc(start, b.log, Committed(es));
  }

  lemma InTimeOthers(start: Tables, b: Books, user: User, id: MessageId)
    requires BooksOk(start, b) && InTime(start, b)
    ensures InTime(start, AfterMark(b, user, id)) && InTime(start, AfterRegistration(b, user))
  {
    hide Valid, Reference, LogKnown, AllKnown, ApplyWrite, CommittedIn, CountedOf, CommittedRows, Absorbed;
    LogKnownSnoc(start, b.log, Marked(user, id));
    LogKnownSnoc(start, b.log, Registered(user));
  }

  lemma InTimeDelivery(start: Tables, b: Books, events: seq<DatabaseEvent>)
    requires InTime(start, b)
    ensures InTime(start, AfterDelivery(b, events))
  {
    hide LogKnown;
  }

  lemma InTimeStep(start: Tables, s: State, a: Action)
    requires Inv(start, s) && Enabled(s, a) && InTime(start, s.books) && UsersThere(s, a)
    ensures InTime(start, Next(s, a).books)
  {
    hide Next, EventsOf, Concat, Range, Parseable, AllKnown, BooksOk, InTime, AfterAttempt, AfterDelivery, AfterMark,
         AfterRegistration;
    BooksNext(s, a);
    match a
    case Write =>
      if EventsOf(s.stream, s.phase.ids) != [] {
        WriteNext(s);
        InTimeAttempt(start, s.books, s.books.batches[|s.books.batches| - 1]);
      }
    case Read =>
      if Next(s, a).books != s.books {
        var events :| Next(s, a).books == AfterDelivery(s.books, events);
        InTimeDelivery(start, s.books, events);
      }
    case Mark(user, id) => InTimeOthers(start, s.books, user, id);
    case Register(user) => InTimeOthers(start, s.books, user, "");
    case Stamp(ids) => InTimeStamp(start, s.books, ids);
    case _ =>
  }

  lemma InTimeStamp(start: Tables, b: Books, ids: set<MessageId>)
    requires InTime(start, b)
    ensures InTime(start, AfterStamp(b, ids))
  {
    hide LogKnown;
  }

  lemma {:induction false} RunInTime(run: seq<State>, actions: seq<Action>, n: nat)
    requires IsRun(run, actions) && Initial(run[0]) && n < |run|
    requires forall m | 0 <= m < n :: UsersThere(run[m], actions[m])
    ensures InTime(run[0].books.tables, run[n].books)
  {
    hide Inv, Next, Enabled, UsersThere;
    if n > 0 {
      RunInTime(run, actions, n - 1);
      RunKeeps(run, actions, n - 1);
      assert run[n - 1 + 1] == Next(run[n - 1], actions[n - 1]) && Enabled(run[n - 1], actions[n - 1]);
      InTimeStep(run[0].books.tables, run[n - 1], actions[n - 1]);
    }
  }

  /** Batches without a count are empty: those with one hold all events. */
  lemma {:induction false} NothingMissing(batches: seq<seq<DatabaseEvent>>, counts: seq<nat>)
    requires |batches| == |counts| && forall i | 0 <= i < |batches| && batches[i] != [] :: counts[i] > 0
    ensures Concat(CountedOf(batches, counts)) == Concat(batches)
  {
    if batches != [] {
      NothingMissing(batches[..|batches| - 1], counts[..|batches| - 1]);
    }
  }

  /** MAIN RESULT. When nothing is pending, every batch found its users when it was written and the
      delivered events are well ordered, the messages are those of handling the events one at a time; the
      read states are those of handling events, marks and registrations one at a time in the order of the
      log, if no mark contradicted an unacknowledged batch; without marks, those of the events alone:
      neither crashes nor batch boundaries show, nor when the users registered. */
  lemma SettledHistory(run: seq<State>, actions: seq<Action>, n: nat)
    requires IsRun(run, actions) && Initial(run[0]) && n < |run|
    requires run[n].pending == [] && run[n].delivered <= |run[n].stream|
    requires forall m | 0 <= m < n :: UsersThere(run[m], actions[m])
    requires WellOrdered(run[0].books.tables, EventsOf(run[n].stream, Range(0, run[n].delivered)))
    ensures var s, b, start := run[n], run[n].books, run[0].books.tables;
            var es, all := EventsOf(s.stream, Range(0, s.delivered)), start.(users := b.tables.users);
            && b.tables.messages == Fold(all, es).messages
            && Concat(CommittedIn(b.log)) == es
            && ((forall m | 0 <= m < n :: Apart(run[m], actions[m]))
               ==> b.tables.readStates == OneByOne(start, b.log).readStates)
            && ((forall w | w in b.log :: !w.Marked?) ==> OneByOne(start, b.log) == Fold(all, es))
  {
    hide Fold, Batch, Valid, Apart, WellOrdered, LogKnown, Reference, OneByOne, EventsOf, Range, Concat, CommittedIn,
         CountedOf, BooksOk;
    hide UsersThere, Initial, Next, Enabled, ApplyWrite, CommittedRows;
    var b, start := run[n].books, run[0].books.tables;
    CrashTolerance(run, actions, n);
    RunKeeps(run, actions, n);
    BooksParts(start, b);
    RunInTime(run, actions, n);
    NothingMissing(b.batches, b.commits);
    LogOneByOne(start, b.log, b.tables.users);
    if forall m | 0 <= m < n :: Apart(run[m], actions[m]) { MarksApartAgree(run, actions, n); }
    if forall w | w in b.log :: !w.Marked? { WithoutMarks(start, b.log); }
  }
}
