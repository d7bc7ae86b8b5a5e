/** The books of the history: the tables, the batches delivered so far with the writes tried and
    committed, and the order of all writes, whoever makes them. The crash-free runs that the tables are
    compared with are runs over these writes. */
module Ledger {
  import opened Models
  import opened History
  import opened Batching

  /** A write of the history: a batch, the upsert of a marking handler, or a registration. */
  datatype Write =
    | Committed(events: seq<DatabaseEvent>)
    | Marked(user: User, id: MessageId)
    | Registered(user: User)

  /** `tries` and `commits` count the transactions of each batch and those that succeeded. `log` holds
      each batch at its first commit, `firsts` each batch at its first transaction, whether it succeeded
      or not; both hold all marks and registrations, in the order in which they happened. */
  datatype Books = Books(
    tables: Tables,
    batches: seq<seq<DatabaseEvent>>,
    tries: seq<nat>,
    commits: seq<nat>,
    log: seq<Write>,
    firsts: seq<Write>)

  // ----- Entries in the books -------------------------------------------------------------------------

  function AfterDelivery(b: Books, events: seq<DatabaseEvent>): Books {
    b.(batches := b.batches + [events], tries := b.tries + [0], commits := b.commits + [0])
  }

  /** The transaction of the last batch. */
  function AfterAttempt(b: Books, events: seq<DatabaseEvent>): Books
    requires |b.tries| == |b.commits| > 0
  {
    var n, result := |b.tries| - 1, Batch(b.tables, events);
    b.(tables := Keep(b.tables, result),
       tries := b.tries[n := b.tries[n] + 1],
       commits := if result.Ok? then b.commits[n := b.commits[n] + 1] else b.commits,
       log := if result.Ok? && b.commits[n] == 0 then b.log + [Committed(events)] else b.log,
       firsts := if b.tries[n] == 0 then b.firsts + [Committed(events)] else b.firsts)
  }

  function AfterMark(b: Books, user: User, id: MessageId): Books {
    b.(tables := ApplyWrite(b.tables, Marked(user, id)), log := b.log + [Marked(user, id)],
      firsts := b.firsts + [Marked(user, id)])
  }

  function AfterRegistration(b: Books, user: User): Books {
    b.(tables := ApplyWrite(b.tables, Registered(user)), log := b.log + [Registered(user)],
      firsts := b.firsts + [Registered(user)])
  }

  function AfterStamp(b: Books, ids: set<MessageId>): Books {
    b.(tables := b.tables.(readAt := b.tables.readAt + ids))
  }

  // ----- Crash-free runs ------------------------------------------------------------------------------

  function ApplyWrite(t: Tables, w: Write): Tables {
    match w
    case Committed(events) => Keep(t, Batch(t, events))
    case Marked(user, id) => Keep(t, MarkRead(t, Receipt(id, user)))
    case Registered(user) => t.(users := t.users + {user})
  }

  /** Every write once, in the order of the log. */
  function Reference(start: Tables, log: seq<Write>): Tables {
    if log == [] then start else ApplyWrite(Reference(start, log[..|log| - 1]), log[|log| - 1])
  }

  /** The batches of the log. */
  function CommittedIn(log: seq<Write>): seq<seq<DatabaseEvent>> {
    if log == [] then []
    else
      var before := CommittedIn(log[..|log| - 1]);
      if log[|log| - 1].Committed? then before + [log[|log| - 1].events] else before
  }

  /** The batches with a positive count. */
  function CountedOf(batches: seq<seq<DatabaseEvent>>, counts: seq<nat>): seq<seq<DatabaseEvent>>
    requires |batches| == |counts|
  {
    if batches == [] then []
    else
      var n := |batches| - 1;
      var before := CountedOf(batches[..n], counts[..n]);
      if counts[n] > 0 then before + [batches[n]] else before
  }

  function Times(n: nat, c: multiset<CiphertextRow>): multiset<CiphertextRow> {
    if n == 0 then multiset{} else Times(n - 1, c) + c
  }

  /** The ciphertext rows of each batch, once per commit. */
  function CommittedRows(batches: seq<seq<DatabaseEvent>>, commits: seq<nat>): multiset<CiphertextRow>
    requires |batches| == |commits|
  {
    if batches == [] then multiset{}
    else
      var n := |batches| - 1;
      CommittedRows(batches[..n], commits[..n]) + Times(commits[n], Ciphertexts(batches[n]))
  }

  lemma {:induction false} TimesCount(n: nat, c: multiset<CiphertextRow>, row: CiphertextRow)
    ensures Times(n, c)[row] == n * c[row]
  {
    if n > 0 {
      TimesCount(n - 1, c, row);
      SumCount(Times(n - 1, c), c, row);
      assert n * c[row] == (n - 1) * c[row] + c[row];
    }
  }

  lemma SumCount(a: multiset<CiphertextRow>, b: multiset<CiphertextRow>, row: CiphertextRow)
    ensures (a + b)[row] == a[row] + b[row]
  {
  }

  /** How often the commits of all batches have written the row. */
  function WrittenCount(batches: seq<seq<DatabaseEvent>>, commits: seq<nat>, row: CiphertextRow): nat
    requires |batches| == |commits|
  {
    if batches == [] then 0
    else
      var n := |batches| - 1;
      WrittenCount(batches[..n], commits[..n], row) + commits[n] * SentCount(batches[n], row)
  }

  lemma {:induction false} CommittedCount(batches: seq<seq<DatabaseEvent>>, commits: seq<nat>, row: CiphertextRow)
    requires |batches| == |commits|
    ensures CommittedRows(batches, commits)[row] == WrittenCount(batches, commits, row)
  {
    if batches != [] {
      hide Times, Ciphertexts, SentCount;
      var n := |batches| - 1;
      CommittedCount(batches[..n], commits[..n], row);
      TimesCount(commits[n], Ciphertexts(batches[n]), row);
      CiphertextCount(batches[n], row);
      SumCount(CommittedRows(batches[..n], commits[..n]), Times(commits[n], Ciphertexts(batches[n])), row);
    }
  }

  /** What a committed batch sends is among the rows of the commits. */
  lemma {:induction false} CommittedHolds(batches: seq<seq<DatabaseEvent>>, commits: seq<nat>, b: nat,
                                          row: CiphertextRow)
    requires |batches| == |commits| && b < |batches| && commits[b] > 0 && row in Ciphertexts(batches[b])
    ensures row in CommittedRows(batches, commits)
  {
    hide Times, Ciphertexts;
    var n := |batches| - 1;
    var before, last := CommittedRows(batches[..n], commits[..n]), Times(commits[n], Ciphertexts(batches[n]));
    SumCount(before, last, row);
    if b < n {
      CommittedHolds(batches[..n], commits[..n], b, row);
    } else {
      TimesHolds(commits[n], Ciphertexts(batches[n]), row);
    }
    assert before[row] > 0 || last[row] > 0;
  }

  lemma TimesHolds(n: nat, c: multiset<CiphertextRow>, row: CiphertextRow)
    requires n > 0 && row in c
    ensures row in Times(n, c)
  {
    SumCount(Times(n - 1, c), c, row);
  }

  lemma ReferenceSnoc(start: Tables, log: seq<Write>, w: Write)
    ensures Reference(start, log + [w]) == ApplyWrite(Reference(start, log), w)
    ensures CommittedIn(log + [w]) == if w.Committed? then CommittedIn(log) + [w.events] else CommittedIn(log)
  {
    assert (log + [w])[..|log|] == log;
  }

  lemma ApplyValid(t: Tables, w: Write)
    requires Valid(t)
    ensures Valid(ApplyWrite(t, w))
    ensures ApplyWrite(t, w).users == if w.Registered? then t.users + {w.user} else t.users
  {
    hide Batch, MarkRead, Valid;
    match w
    case Committed(events) => BatchByMessages(t, t, events);
    case Marked(user, id) => MarkReadValid(t, Receipt(id, user));
    case Registered(user) => RegisteredValid(t, user);
  }

  lemma RegisteredValid(t: Tables, user: User)
    requires Valid(t)
    ensures Valid(t.(users := t.users + {user}))
  {
  }

  lemma {:induction false} ReferenceValid(start: Tables, log: seq<Write>)
    requires Valid(start)
    ensures Valid(Reference(start, log))
  {
    hide Valid, ApplyWrite;
    if log != [] {
      ReferenceValid(start, log[..|log| - 1]);
      ApplyValid(Reference(start, log[..|log| - 1]), log[|log| - 1]);
    }
  }

  // ----- The invariant of the books -------------------------------------------------------------------

  /** The batch is in the tables: writing it again succeeds and brings no message. */
  predicate Absorbed(t: Tables, es: seq<DatabaseEvent>) {
    Batch(t, es).Ok? && Stored(t.messages, es) == t.messages
  }

  /** The log accounts for users and messages; log and firsts hold the batches in the order of delivery;
      each commit has left its ciphertext rows; and the last batch, once committed, is in the tables. */
  ghost predicate BooksOk(start: Tables, b: Books) {
    && |b.tries| == |b.batches| && |b.commits| == |b.batches|
    && (forall i | 0 <= i < |b.commits| :: b.commits[i] > 0 ==> b.tries[i] > 0)
    && Valid(start) && Valid(b.tables)
    && Reference(start, b.log).users == b.tables.users && Reference(start, b.log).messages == b.tables.messages
    && Reference(start, b.firsts).users == b.tables.users
    && CommittedIn(b.log) == CountedOf(b.batches, b.commits)
    && CommittedIn(b.firsts) == CountedOf(b.batches, b.tries)
    && b.tables.ciphertexts == start.ciphertexts + CommittedRows(b.batches, b.commits)
    && (b.batches != [] && b.commits[|b.commits| - 1] > 0 ==> Absorbed(b.tables, b.batches[|b.batches| - 1]))
  }

  lemma DeliveryOk(start: Tables, b: Books, events: seq<DatabaseEvent>)
    requires BooksOk(start, b)
    ensures BooksOk(start, AfterDelivery(b, events))
  {
    hide Valid, Reference, CommittedIn, Ciphertexts, Absorbed;
    var bs := b.batches + [events];
    assert bs[..|b.batches|] == b.batches && (b.tries + [0])[..|b.tries|] == b.tries
           && (b.commits + [0])[..|b.commits|] == b.commits;
  }

  /** A transaction that succeeds puts the batch into the tables. */
  lemma AttemptAbsorbs(t: Tables, es: seq<DatabaseEvent>)
    requires Valid(t) && Batch(t, es).Ok?
    ensures Absorbed(Batch(t, es).value, es)
    ensures Batch(t, es).value.messages == Stored(t.messages, es)
  {
    hide Batch, Valid, Stored;
    BatchFailsIff(t, es);
    ReplaySucceeds(t, Batch(t, es).value, es);
  }

  lemma AttemptLog(start: Tables, b: Books)
    requires BooksOk(start, b) && b.batches != []
    ensures var after := AfterAttempt(b, b.batches[|b.batches| - 1]);
            && Valid(after.tables) && after.tables.users == b.tables.users
            && Reference(start, after.log).users == after.tables.users
               && Reference(start, after.log).messages == after.tables.messages
            && Reference(start, after.firsts).users == after.tables.users
  {
    hide Batch, Valid, Stored, Reference, CommittedIn, CountedOf, CommittedRows, Ciphertexts;
    var n := |b.batches| - 1;
    var es := b.batches[n];
    ReferenceSnoc(start, b.log, Committed(es));
    ReferenceSnoc(start, b.firsts, Committed(es));
    ReferenceValid(start, b.log);
    ReferenceValid(start, b.firsts);
    BatchByMessages(b.tables, Reference(start, b.log), es);
    ApplyValid(Reference(start, b.firsts), Committed(es));
    ApplyValid(Reference(start, b.log), Committed(es));
    if b.commits[n] > 0 { AttemptAbsorbs(b.tables, es); }
  }

  lemma CountedLast(batches: seq<seq<DatabaseEvent>>, counts: seq<nat>)
    requires |batches| == |counts| && batches != []
    ensures var n := |batches| - 1;
            CountedOf(batches, counts[n := counts[n] + 1])
            == if counts[n] > 0 then CountedOf(batches, counts) else CountedOf(batches, counts) + [batches[n]]
  {
    var n := |batches| - 1;
    assert counts[n := counts[n] + 1][..n] == counts[..n];
  }

  lemma AttemptCounts(start: Tables, b: Books)
    requires BooksOk(start, b) && b.batches != []
    ensures var after := AfterAttempt(b, b.batches[|b.batches| - 1]);
            && CommittedIn(after.log) == CountedOf(after.batches, after.commits)
            && CommittedIn(after.firsts) == CountedOf(after.batches, after.tries)
            && after.tables.ciphertexts == start.ciphertexts + CommittedRows(after.batches, after.commits)
  {
    hide Batch, Valid, Stored, Reference, CommittedIn, CountedOf, Ciphertexts;
    var n := |b.batches| - 1;
    var es := b.batches[n];
    ReferenceSnoc(start, b.log, Committed(es));
    ReferenceSnoc(start, b.firsts, Committed(es));
    CountedLast(b.batches, b.commits);
    CountedLast(b.batches, b.tries);
    BatchByMessages(b.tables, b.tables, es);
    assert b.commits[n := b.commits[n] + 1][..n] == b.commits[..n];
  }

  lemma AttemptOk(start: Tables, b: Books)
    requires BooksOk(start, b) && b.batches != []
    ensures BooksOk(start, AfterAttempt(b, b.batches[|b.batches| - 1]))
  {
    hide Batch, Valid, Stored, Reference, CommittedIn, CountedOf, CommittedRows, Ciphertexts, Absorbed;
    AttemptLog(start, b);
    AttemptCounts(start, b);
    var es := b.batches[|b.batches| - 1];
    if Batch(b.tables, es).Ok? {
      AttemptAbsorbs(b.tables, es);
    } else {
      AbsorbedSucceeds(b.tables, es);
    }
  }

  lemma AbsorbedSucceeds(t: Tables, es: seq<DatabaseEvent>)
    ensures Absorbed(t, es) ==> Batch(t, es).Ok?
  {
  }

  /** What is in the tables stays there when users come, read states change and read times are set. */
  lemma StaysAbsorbed(t: Tables, u: Tables, es: seq<DatabaseEvent>)
    requires Valid(t) && Valid(u) && t.users <= u.users && t.messages == u.messages && Absorbed(t, es)
    ensures Absorbed(u, es)
  {
    hide Batch, Valid, Stored, First, Winner;
    BatchFailsIff(t, es);
    BatchFailsIff(u, es);
  }

  /** Marks, registrations and read times leave the books in order. */
  lemma OthersOk(start: Tables, b: Books, after: Books)
    requires BooksOk(start, b) && Valid(after.tables) && after.tables.messages == b.tables.messages
    requires b.tables.users <= after.tables.users && after.tables.ciphertexts == b.tables.ciphertexts
    requires after == b.(tables := after.tables, log := after.log, firsts := after.firsts)
    requires CommittedIn(after.log) == CommittedIn(b.log) && CommittedIn(after.firsts) == CommittedIn(b.firsts)
    requires Reference(start, after.log).users == after.tables.users
             && Reference(start, after.log).messages == b.tables.messages
    requires Reference(start, after.firsts).users == after.tables.users
    ensures BooksOk(start, after)
  {
    hide Batch, Valid, Stored, Reference, CommittedIn, CountedOf, CommittedRows, Absorbed;
    if b.batches != [] && b.commits[|b.commits| - 1] > 0 {
      StaysAbsorbed(b.tables, after.tables, b.batches[|b.batches| - 1]);
    }
  }

  lemma MarkOk(start: Tables, b: Books, user: User, id: MessageId)
    requires BooksOk(start, b)
    ensures BooksOk(start, AfterMark(b, user, id))
  {
    hide Batch, MarkRead, Valid, Reference, CommittedIn, CountedOf, CommittedRows, Absorbed;
    var w, r := Marked(user, id), Receipt(id, user);
    ReferenceSnoc(start, b.log, w);
    ReferenceSnoc(start, b.firsts, w);
    ReferenceValid(start, b.log);
    ReferenceValid(start, b.firsts);
    MarkReadValid(b.tables, r);
    MarkReadValid(Reference(start, b.log), r);
    MarkReadValid(Reference(start, b.firsts), r);
    OthersOk(start, b, AfterMark(b, user, id));
  }

  lemma RegistrationOk(start: Tables, b: Books, user: User)
    requires BooksOk(start, b)
    ensures BooksOk(start, AfterRegistration(b, user))
  {
    hide Batch, Valid, Reference, CommittedIn, CountedOf, CommittedRows, Absorbed;
    ReferenceSnoc(start, b.log, Registered(user));
    ReferenceSnoc(start, b.firsts, Registered(user));
    RegisteredValid(b.tables, user);
    OthersOk(start, b, AfterRegistration(b, user));
  }

  lemma StampOk(start: Tables, b: Books, ids: set<MessageId>)
    requires BooksOk(start, b)
    ensures BooksOk(start, AfterStamp(b, ids))
  {
    hide Batch, Valid, Reference, CommittedIn, CountedOf, CommittedRows, Absorbed;
    StampValid(b.tables, ids);
    OthersOk(start, b, AfterStamp(b, ids));
  }

  lemma StampValid(t: Tables, ids: set<MessageId>)
    requires Valid(t)
    ensures Valid(t.(readAt := t.readAt + ids))
  {
  }

  // ----- Messages and the first transactions ------------------------------------------------------------

  /** The messages are those of the crash-free run, in which every batch has one transaction. */
  ghost predicate AsCrashFree(start: Tables, b: Books) {
    b.tables.messages == Reference(start, b.firsts).messages
  }

  /** A transaction of the last batch would be its first commit although it has been tried before. */
  predicate Late(b: Books)
    requires |b.tries| == |b.commits| == |b.batches|
  {
    b.batches != [] && b.tries[|b.tries| - 1] > 0 && b.commits[|b.commits| - 1] == 0
    && Batch(b.tables, b.batches[|b.batches| - 1]).Ok?
  }

  /** The list introduces an id that is not stored. */
  predicate BringsMessages(t: Tables, es: seq<DatabaseEvent>) {
    exists k | 0 <= k < |es| && Picks(AnyKind, es[k]) :: RowOf(es[k]).id !in t.messages
  }

  lemma BringsIff(t: Tables, es: seq<DatabaseEvent>)
    ensures BringsMessages(t, es) <==> Stored(t.messages, es) != t.messages
  {
    hide Stored, Winner;
    forall id ensures
      && (id in Stored(t.messages, es) <==> id in t.messages || Winner(es, id) < |es|)
      && (id in t.messages ==> Stored(t.messages, es)[id] == t.messages[id])
    {
      StoredRow(t.messages, es, id);
    }
    if BringsMessages(t, es) {
      var k :| 0 <= k < |es| && Picks(AnyKind, es[k]) && RowOf(es[k]).id !in t.messages;
      var id := RowOf(es[k]).id;
      assert Introduces(AnyKind, es[k], id) && Winner(es, id) < |es|;
      assert id in Stored(t.messages, es);
    } else {
      forall id ensures id in Stored(t.messages, es) <==> id in t.messages {
        if Winner(es, id) < |es| { assert Introduces(AnyKind, es[Winner(es, id)], id); }
      }
    }
  }

  /** A transaction takes the messages away from the crash-free run exactly when it commits late a batch
      that brings messages. */
  lemma AttemptCrashFreeIff(start: Tables, b: Books)
    requires BooksOk(start, b) && b.batches != [] && AsCrashFree(start, b)
    ensures var es := b.batches[|b.batches| - 1];
            AsCrashFree(start, AfterAttempt(b, es)) <==> !(Late(b) && BringsMessages(b.tables, es))
  {
    hide Batch, Valid, Stored, Reference, CommittedIn, CountedOf, CommittedRows, BringsMessages;
    var n := |b.batches| - 1;
    var es, ref := b.batches[n], Reference(start, b.firsts);
    ReferenceSnoc(start, b.firsts, Committed(es));
    ReferenceValid(start, b.firsts);
    if b.tries[n] == 0 {
      BatchByMessages(b.tables, ref, es);
    } else if Batch(b.tables, es).Ok? {
      BringsIff(b.tables, es);
      AttemptAbsorbs(b.tables, es);
    }
  }

  lemma OthersLeaveMessages(t: Tables, w: Write)
    requires !w.Committed?
    ensures ApplyWrite(t, w).messages == t.messages
  {
  }

  lemma MarkCrashFree(start: Tables, b: Books, w: Write)
    requires !w.Committed?
    ensures Reference(start, b.firsts + [w]).messages == Reference(start, b.firsts).messages
    ensures ApplyWrite(b.tables, w).messages == b.tables.messages
  {
    hide ApplyWrite, Reference;
    ReferenceSnoc(start, b.firsts, w);
    OthersLeaveMessages(Reference(start, b.firsts), w);
    OthersLeaveMessages(b.tables, w);
  }

  /** Without late commits the two crash-free runs are the same. */
  lemma AttemptSameReference(start: Tables, b: Books)
    requires BooksOk(start, b) && b.batches != [] && Reference(start, b.log) == Reference(start, b.firsts) && !Late(b)
    ensures var after := AfterAttempt(b, b.batches[|b.batches| - 1]);
            Reference(start, after.log) == Reference(start, after.firsts)
  {
    hide Batch, Valid, Stored, Reference, CommittedIn, CountedOf, CommittedRows;
    var n := |b.batches| - 1;
    var es := b.batches[n];
    ReferenceSnoc(start, b.log, Committed(es));
    ReferenceSnoc(start, b.firsts, Committed(es));
    ReferenceValid(start, b.log);
    BatchByMessages(b.tables, Reference(start, b.log), es);
  }

  // ----- Origins --------------------------------------------------------------------------------------

  /** The write at position `k` of the log stored `id`: it brought the first row for it. */
  ghost predicate StoredAt(start: Tables, log: seq<Write>, k: nat, id: MessageId) {
    && k < |log| && log[k].Committed?
    && Winner(log[k].events, id) < |log[k].events|
    && Batch(Reference(start, log[..k]), log[k].events).Ok?
    && id !in Reference(start, log[..k]).messages
  }

  lemma StoredAtExtends(start: Tables, log: seq<Write>, w: Write, k: nat, id: MessageId)
    requires StoredAt(start, log, k, id)
    ensures StoredAt(start, log + [w], k, id)
  {
    hide Batch, Winner, Reference;
    assert (log + [w])[..k] == log[..k];
  }

  /** Every message of a crash-free run was there at the start or is the winner's row of the batch that
      stored its id. */
  lemma {:induction false} LogOrigin(start: Tables, log: seq<Write>, id: MessageId) returns (k: nat)
    requires Valid(start) && id !in start.messages && id in Reference(start, log).messages
    ensures StoredAt(start, log, k, id)
    ensures Reference(start, log).messages[id] == RowOf(log[k].events[Winner(log[k].events, id)]).row
  {
    hide Batch, Valid, Winner, RowOf;
    var init, w := log[..|log| - 1], log[|log| - 1];
    var before := Reference(start, init);
    assert log == init + [w];
    ReferenceValid(start, init);
    if w.Committed? { BatchStores(before, w.events, id); }
    if id in before.messages {
      k := LogOrigin(start, init, id);
      StoredAtExtends(start, init, w, k, id);
    } else {
      k := |init|;
    }
  }

  lemma {:induction false} InLog(log: seq<Write>, k: nat)
    requires k < |log| && log[k].Committed?
    ensures log[k].events in CommittedIn(log)
  {
    if k < |log| - 1 { InLog(log[..|log| - 1], k); }
  }

  lemma {:induction false} FromBatches(batches: seq<seq<DatabaseEvent>>, counts: seq<nat>, es: seq<DatabaseEvent>)
    requires |batches| == |counts| && es in CountedOf(batches, counts)
    ensures es in batches
  {
    var n := |batches| - 1;
    if es in CountedOf(batches[..n], counts[..n]) { FromBatches(batches[..n], counts[..n], es); }
  }
}
