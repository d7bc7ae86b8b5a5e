/** The database worker and its Redis stream as a state machine (`start_database_worker` in
    api/src/worker.rs). Between any two statements the worker may crash or lose its connection;
    a reply lost on the way is a crash right after the read. Meanwhile the marking handlers
    (`mark_read_handler` in api/src/lib.rs) write the read states too, one statement at a time, and
    users register. */
module WorkerProtocol {
  import opened Models
  import opened History
  import opened Batching
  import opened Ledger

  /** The COUNT of one XREADGROUP. */
  const COUNT: nat := 100

  /** A stream entry is named by its position; `None` is an entry that does not parse. */
  type Stream = seq<Option<DatabaseEvent>>

  /** Where the worker stands; `fromStart` tells `read_id` "0" from ">". */
  datatype Phase =
    | Disconnected
    | Reading(fromStart: bool)
    | Received(fromStart: bool, ids: seq<nat>)   // a reply is in hand
    | Rejected(fromStart: bool, ids: seq<nat>)   // its unparseable entries are acknowledged
    | Written(fromStart: bool, ids: seq<nat>)    // its transaction is over

  datatype State = State(stream: Stream, delivered: nat, pending: seq<nat>, phase: Phase, books: Books)

  predicate InStream(stream: Stream, ids: seq<nat>) {
    forall i | 0 <= i < |ids| :: ids[i] < |stream|
  }

  function Parseable(stream: Stream, ids: seq<nat>): (r: seq<nat>)
    requires InStream(stream, ids)
    ensures InStream(stream, r) && forall id | id in r :: id in ids && stream[id].Some?
    ensures forall id | id in ids && stream[id].Some? :: id in r
  {
    if ids == [] then []
    else
      var last := ids[|ids| - 1];
      Parseable(stream, ids[..|ids| - 1]) + if stream[last].Some? then [last] else []
  }

  function EventsOf(stream: Stream, ids: seq<nat>): seq<DatabaseEvent>
    requires InStream(stream, ids)
  {
    if ids == [] then []
    else
      var last := ids[|ids| - 1];
      EventsOf(stream, ids[..|ids| - 1]) + if stream[last].Some? then [stream[last].value] else []
  }

  /** The pending list after an XACK. */
  function Acked(pending: seq<nat>, ids: seq<nat>): (r: seq<nat>)
    ensures |r| <= |pending|
    ensures forall id | id in r :: id in pending
  {
    if pending == [] then []
    else
      var last := pending[|pending| - 1];
      Acked(pending[..|pending| - 1], ids) + if last in ids then [] else [last]
  }

  function Unparseable(stream: Stream, ids: seq<nat>): (r: seq<nat>)
    requires InStream(stream, ids)
    ensures forall id :: id in r <==> id in ids && stream[id].None?
  {
    if ids == [] then []
    else
      var last := ids[|ids| - 1];
      Unparseable(stream, ids[..|ids| - 1]) + if stream[last].None? then [last] else []
  }

  /** The entries from position `from` up to `to`. */
  function Range(from: nat, to: nat): (r: seq<nat>)
    requires from <= to
    ensures |r| == to - from && forall i | 0 <= i < |r| :: r[i] == from + i
  {
    seq(to - from, i requires 0 <= i < to - from => from + i)
  }

  datatype Action =
    | Append(entry: Option<DatabaseEvent>)   // some connection's XADD
    | Connect
    | Read
    | AckUnparseable
    | Write
    | AckParseable
    | Crash
    | Mark(user: User, id: MessageId)   // a marking handler's upsert, after its SELECT
    | Stamp(ids: set<MessageId>)        // and its UPDATE of read times
    | Register(user: User)

  predicate Enabled(s: State, a: Action) {
    match a
    case Append(_) => true
    case Crash => true
    case Mark(_, id) => id in s.books.tables.messages
    case Stamp(_) => true
    case Register(_) => true
    case Connect => s.phase.Disconnected?
    case Read => s.phase.Reading? && s.delivered <= |s.stream| && InStream(s.stream, s.pending)
    case AckUnparseable => s.phase.Received? && InStream(s.stream, s.phase.ids)
    case Write => s.phase.Rejected? && InStream(s.stream, s.phase.ids) && |s.books.tries| == |s.books.commits| > 0
    case AckParseable => s.phase.Written? && InStream(s.stream, s.phase.ids)
  }

  function ReadStep(s: State): State
    requires Enabled(s, Read)
  {
    if s.phase.fromStart then
      var ids := s.pending[..Min(COUNT, |s.pending|)];
      s.(phase := if ids == [] then Reading(false) else Received(true, ids))
    else
      var n := Min(COUNT, |s.stream| - s.delivered);
      var ids := Range(s.delivered, s.delivered + n);
      if n == 0 then s
      else s.(delivered := s.delivered + n, pending := s.pending + ids, phase := Received(false, ids),
              books := AfterDelivery(s.books, EventsOf(s.stream, ids)))
  }

  /** The transaction of the batch in flight, unless it is empty. */
  function WriteStep(s: State): State
    requires Enabled(s, Write)
  {
    var events := EventsOf(s.stream, s.phase.ids);
    if events == [] then s.(phase := Reading(s.phase.fromStart))
    else s.(phase := Written(s.phase.fromStart, s.phase.ids), books := AfterAttempt(s.books, events))
  }

  function Next(s: State, a: Action): State
    requires Enabled(s, a)
  {
    match a
    case Append(entry) => s.(stream := s.stream + [entry])
    case Crash => s.(phase := Disconnected)
    case Mark(user, id) => s.(books := AfterMark(s.books, user, id))
    case Stamp(ids) => s.(books := AfterStamp(s.books, ids))
    case Register(user) => s.(books := AfterRegistration(s.books, user))
    case Connect => s.(phase := Reading(true))
    case Read => ReadStep(s)
    case AckUnparseable =>
      s.(pending := Acked(s.pending, Unparseable(s.stream, s.phase.ids)),
        phase := Rejected(s.phase.fromStart, s.phase.ids))
    case Write => WriteStep(s)
    case AckParseable =>
      s.(pending := Acked(s.pending, Parseable(s.stream, s.phase.ids)), phase := Reading(s.phase.fromStart))
  }

  /** A worker that has read nothing yet; the stream may already hold entries. */
  ghost predicate Initial(s: State) {
    s.phase.Disconnected? && s.delivered == 0 && s.pending == [] && Valid(s.books.tables)
    && s.books == Books(s.books.tables, [], [], [], [], [])
  }

  ghost predicate IsRun(run: seq<State>, actions: seq<Action>) {
    && |run| == |actions| + 1
    && forall i | 0 <= i < |actions| :: Enabled(run[i], actions[i]) && run[i + 1] == Next(run[i], actions[i])
  }

  // ----- The invariant ------------------------------------------------------------------------------

  ghost predicate Shape(s: State) {
    && s.delivered <= |s.stream|
    && InStream(s.stream, s.pending)
    && |s.pending| <= COUNT
    && (s.phase == Reading(false) ==> s.pending == [])
    && (s.phase.Received? || s.phase.Rejected? || s.phase.Written?
       ==> s.phase.ids != [] && InStream(s.stream, s.phase.ids))
    && (s.phase.Received? ==> s.phase.ids == s.pending)
    && (s.phase.Rejected? || s.phase.Written? ==> s.pending == Parseable(s.stream, s.phase.ids))
    && (s.phase.Written? ==> EventsOf(s.stream, s.phase.ids) != [])
  }

  /** The batches are the entries delivered, the last one that of the pending list; each batch that is
      not empty and not the pending one has been tried. */
  ghost predicate Batched(s: State)
    requires Shape(s)
  {
    var b, n := s.books, |s.books.batches| - 1;
    && |b.tries| == |b.batches| && |b.commits| == |b.batches|
    && Concat(b.batches) == EventsOf(s.stream, Range(0, s.delivered))
    && (s.phase.Received? || s.phase.Rejected? || s.phase.Written? || s.pending != [] ==> b.batches != [])
    && (EventsOf(s.stream, s.pending) != [] ==> EventsOf(s.stream, s.pending) == b.batches[n])
    && (forall i | 0 <= i <= n && b.batches[i] != []
       && (i < n || EventsOf(s.stream, s.pending) == []) :: b.tries[i] > 0)
    && (s.phase.Written? ==> b.tries[n] > 0)
  }

  ghost predicate Inv(start: Tables, s: State) {
    Shape(s) && Batched(s) && BooksOk(start, s.books)
  }

  // ----- Lists of entries ---------------------------------------------------------------------------

  lemma {:induction false} EventsAppend(stream: Stream, a: seq<nat>, b: seq<nat>)
    requires InStream(stream, a) && InStream(stream, b)
    ensures InStream(stream, a + b) && EventsOf(stream, a + b) == EventsOf(stream, a) + EventsOf(stream, b)
  {
    if b == [] {
      assert a + b == a;
    } else {
      EventsAppend(stream, a, b[..|b| - 1]);
      assert (a + b)[..|a + b| - 1] == a + b[..|b| - 1];
    }
  }

  lemma {:induction false} StreamGrows(stream: Stream, entry: Option<DatabaseEvent>, ids: seq<nat>)
    requires InStream(stream, ids)
    ensures InStream(stream + [entry], ids)
    ensures EventsOf(stream + [entry], ids) == EventsOf(stream, ids)
    ensures Parseable(stream + [entry], ids) == Parseable(stream, ids)
  {
    if ids != [] { StreamGrows(stream, entry, ids[..|ids| - 1]); }
  }

  /** Acknowledging the unparseable entries of a reply leaves the parseable ones. */
  lemma {:induction false} AckedUnparseable(stream: Stream, ids: seq<nat>, pending: seq<nat>)
    requires InStream(stream, ids) && InStream(stream, pending) && forall id | id in pending :: id in ids
    ensures Acked(pending, Unparseable(stream, ids)) == Parseable(stream, pending)
  {
    if pending != [] { AckedUnparseable(stream, ids, pending[..|pending| - 1]); }
  }

  lemma {:induction false} AckedAll(pending: seq<nat>, ids: seq<nat>)
    requires forall id | id in pending :: id in ids
    ensures Acked(pending, ids) == []
  {
    if pending != [] { AckedAll(pending[..|pending| - 1], ids); }
  }

  lemma {:induction false} ParseableEvents(stream: Stream, ids: seq<nat>)
    requires InStream(stream, ids)
    ensures EventsOf(stream, Parseable(stream, ids)) == EventsOf(stream, ids)
    ensures |EventsOf(stream, ids)| == |Parseable(stream, ids)| <= |ids|
  {
    if ids != [] {
      var init, last := ids[..|ids| - 1], ids[|ids| - 1];
      ParseableEvents(stream, init);
      if stream[last].Some? {
        EventsAppend(stream, Parseable(stream, init), [last]);
        assert EventsOf(stream, [last]) == [stream[last].value] by { assert [last][..0] == []; }
      } else {
        assert Parseable(stream, ids) == Parseable(stream, init);
        assert EventsOf(stream, ids) == EventsOf(stream, init);
      }
    }
  }

  /** The positions of a reply at which an entry parses: all of them, in order and once each. */
  function ParsedAt(stream: Stream, ids: seq<nat>): (at: seq<nat>)
    requires InStream(stream, ids)
    ensures forall j | 0 <= j < |at| :: at[j] < |ids| && stream[ids[at[j]]].Some?
    ensures forall i, j | 0 <= i < j < |at| :: at[i] < at[j]
  {
    if ids == [] then []
    else
      var before, n := ParsedAt(stream, ids[..|ids| - 1]), |ids| - 1;
      if stream[ids[n]].Some? then before + [n] else before
  }

  lemma {:induction false} NoneLeftOut(stream: Stream, ids: seq<nat>, i: nat)
    requires InStream(stream, ids) && i < |ids| && stream[ids[i]].Some?
    ensures i in ParsedAt(stream, ids)
  {
    if i < |ids| - 1 { NoneLeftOut(stream, ids[..|ids| - 1], i); }
  }

  /** A reply yields, for each of these positions, the entry there and its own event. */
  lemma {:induction false} OwnEvents(stream: Stream, ids: seq<nat>, j: nat)
    requires InStream(stream, ids) && j < |ParsedAt(stream, ids)|
    ensures |ParsedAt(stream, ids)| == |Parseable(stream, ids)| == |EventsOf(stream, ids)|
    ensures Parseable(stream, ids)[j] == ids[ParsedAt(stream, ids)[j]]
    ensures stream[Parseable(stream, ids)[j]] == Some(EventsOf(stream, ids)[j])
  {
    SameCount(stream, ids);
    var init := ids[..|ids| - 1];
    SameCount(stream, init);
    if j < |ParsedAt(stream, init)| { OwnEvents(stream, init, j); }
  }

  lemma {:induction false} SameCount(stream: Stream, ids: seq<nat>)
    requires InStream(stream, ids)
    ensures |ParsedAt(stream, ids)| == |Parseable(stream, ids)| == |EventsOf(stream, ids)|
  {
    if ids != [] { SameCount(stream, ids[..|ids| - 1]); }
  }

  /** The parseable entries among the first `n` of the stream, in order and once each. */
  ghost predicate AreEntries(stream: Stream, n: nat, entries: seq<nat>) {
    && (forall j | 0 <= j < |entries| :: entries[j] < n <= |stream| && stream[entries[j]].Some?)
    && (forall i, j | 0 <= i < j < |entries| :: entries[i] < entries[j])
    && (forall i: nat | i < n <= |stream| && stream[i].Some? :: i in entries)
  }

  lemma RangeEntries(stream: Stream, n: nat)
    requires n <= |stream|
    ensures var entries, events := Parseable(stream, Range(0, n)), EventsOf(stream, Range(0, n));
            && AreEntries(stream, n, entries) && |events| == |entries|
            && forall j | 0 <= j < |events| :: stream[entries[j]] == Some(events[j])
  {
    hide Parseable, EventsOf, ParsedAt;
    var ids := Range(0, n);
    var entries, at := Parseable(stream, ids), ParsedAt(stream, ids);
    SameCount(stream, ids);
    forall j | 0 <= j < |at| ensures entries[j] == at[j] && stream[at[j]] == Some(EventsOf(stream, ids)[j]) {
      OwnEvents(stream, ids, j);
    }
    forall i: nat | i < n && stream[i].Some? ensures i in entries {
      NoneLeftOut(stream, ids, i);
      var j :| 0 <= j < |at| && at[j] == i;
      assert entries[j] == i;
    }
  }

  // ----- Every action keeps the invariant -----------------------------------------------------------

  lemma AppendKeeps(s: State, entry: Option<DatabaseEvent>)
    requires Shape(s) && Batched(s)
    ensures var next := Next(s, Append(entry)); Shape(next) && Batched(next)
  {
    hide Concat, EventsOf, Parseable, Range;
    StreamGrows(s.stream, entry, s.pending);
    StreamGrows(s.stream, entry, Range(0, s.delivered));
    if s.phase.Received? || s.phase.Rejected? || s.phase.Written? {
      StreamGrows(s.stream, entry, s.phase.ids);
    }
  }

  lemma DeliveredAppend(stream: Stream, batches: seq<seq<DatabaseEvent>>, from: nat, to: nat)
    requires from <= to <= |stream| && Concat(batches) == EventsOf(stream, Range(0, from))
    ensures Concat(batches + [EventsOf(stream, Range(from, to))]) == EventsOf(stream, Range(0, to))
  {
    assert Range(0, from) + Range(from, to) == Range(0, to);
    EventsAppend(stream, Range(0, from), Range(from, to));
    assert (batches + [EventsOf(stream, Range(from, to))])[..|batches|] == batches;
  }

  lemma ReadPendingKeeps(s: State)
    requires Shape(s) && Batched(s) && s.phase == Reading(true)
    ensures var next := Next(s, Read); Shape(next) && Batched(next) && next.books == s.books
  {
    hide Concat, EventsOf, Parseable, Range;
    assert s.pending[..Min(COUNT, |s.pending|)] == s.pending;
  }

  /** A read of new entries that finds some delivers them as the next batch. */
  lemma ReadNewNext(s: State)
    requires Shape(s) && s.phase == Reading(false) && s.delivered < |s.stream|
    ensures var to := s.delivered + Min(COUNT, |s.stream| - s.delivered);
            var ids := Range(s.delivered, to);
            && to <= |s.stream|
            && Next(s, Read) == State(s.stream, to, ids, Received(false, ids),
               AfterDelivery(s.books, EventsOf(s.stream, ids)))
  {
    hide Concat, EventsOf, Parseable, Range;
    var ids := Range(s.delivered, s.delivered + Min(COUNT, |s.stream| - s.delivered));
    assert [] + ids == ids;
  }

  lemma ReadNewKeeps(s: State)
    requires Shape(s) && Batched(s) && s.phase == Reading(false)
    ensures var next := Next(s, Read); Shape(next) && Batched(next)
  {
    hide Concat, EventsOf, Parseable, Range;
    if s.delivered < |s.stream| {
      NoEvents(s.stream);
      ReadNewNext(s);
      hide Next;
      DeliveredAppend(s.stream, s.books.batches, s.delivered, Next(s, Read).delivered);
    }
  }

  lemma NoEvents(stream: Stream)
    ensures EventsOf(stream, []) == []
  {
  }

  lemma AckUnparseableKeeps(s: State)
    requires Shape(s) && Batched(s) && Enabled(s, AckUnparseable)
    ensures var next := Next(s, AckUnparseable);
            Shape(next) && Batched(next) && EventsOf(s.stream, next.pending) == EventsOf(s.stream, s.pending)
  {
    hide Concat, EventsOf, Parseable, Acked, Unparseable, Range;
    AckedUnparseable(s.stream, s.phase.ids, s.pending);
    ParseableEvents(s.stream, s.phase.ids);
  }

  /** The transaction writes the last batch. */
  lemma WriteNext(s: State)
    requires Shape(s) && Batched(s) && Enabled(s, Write)
    ensures EventsOf(s.stream, s.pending) == EventsOf(s.stream, s.phase.ids)
    ensures var es, b := EventsOf(s.stream, s.phase.ids), s.books;
            && (es != [] ==>
                  && es == b.batches[|b.batches| - 1]
                  && Next(s, Write) == s.(phase := Written(s.phase.fromStart, s.phase.ids),
                     books := AfterAttempt(b, es)))
            && (es == [] ==> Next(s, Write) == s.(phase := Reading(s.phase.fromStart)) && s.pending == [])
  {
    hide Concat, EventsOf, Range, Parseable;
    ParseableEvents(s.stream, s.phase.ids);
  }

  lemma WriteKeeps(s: State)
    requires Shape(s) && Batched(s) && Enabled(s, Write)
    ensures var next := Next(s, Write); Shape(next) && Batched(next)
  {
    hide Concat, EventsOf, Range, Parseable, Next, Batch;
    WriteNext(s);
  }

  lemma AckParseableNext(s: State)
    requires Shape(s) && Enabled(s, AckParseable)
    ensures Next(s, AckParseable) == s.(pending := [], phase := Reading(s.phase.fromStart))
  {
    hide Concat, EventsOf, Range, Parseable, Acked;
    AckedAll(s.pending, s.pending);
  }

  lemma AckParseableKeeps(s: State)
    requires Shape(s) && Batched(s) && Enabled(s, AckParseable)
    ensures var next := Next(s, AckParseable); Shape(next) && Batched(next)
  {
    hide Concat, EventsOf, Range, Parseable, Acked, Next;
    AckParseableNext(s);
    ParseableEvents(s.stream, s.phase.ids);
    NoEvents(s.stream);
  }

  /** The other actions move neither entries nor batches. */
  lemma OthersKeep(s: State, a: Action)
    requires Shape(s) && Batched(s) && Enabled(s, a) && (a.Mark? || a.Stamp? || a.Register? || a.Crash? || a.Connect?)
    ensures var next := Next(s, a); Shape(next) && Batched(next) && next.pending == s.pending && next.stream == s.stream
  {
    hide Concat, EventsOf, Range, Parseable, ApplyWrite;
  }

  lemma ShapeKeeps(s: State, a: Action)
    requires Shape(s) && Batched(s) && Enabled(s, a)
    ensures var next := Next(s, a); Shape(next) && Batched(next)
  {
    hide Shape, Batched, Next;
    match a
    case Append(entry) => AppendKeeps(s, entry);
    case Read => if s.phase.fromStart { ReadPendingKeeps(s); } else { ReadNewKeeps(s); }
    case AckUnparseable => AckUnparseableKeeps(s);
    case Write => WriteKeeps(s);
    case AckParseable => AckParseableKeeps(s);
    case _ => OthersKeep(s, a);
  }

  /** What an action does to the books. */
  lemma BooksNext(s: State, a: Action)
    requires Shape(s) && Batched(s) && Enabled(s, a)
    ensures var b, next := s.books, Next(s, a).books;
            match a
            case Write => next == if EventsOf(s.stream, s.phase.ids) == [] then b
              else AfterAttempt(b, b.batches[|b.batches| - 1])
            case Read => next == b || exists events :: next == AfterDelivery(b, events)
            case Mark(user, id) => next == AfterMark(b, user, id)
            case Stamp(ids) => next == AfterStamp(b, ids)
            case Register(user) => next == AfterRegistration(b, user)
            case _ => next == b
  {
    hide Concat, EventsOf, Range, Parseable, AfterAttempt, AfterDelivery, AfterMark, AfterStamp, AfterRegistration;
    if a.Write? { WriteNext(s); }
  }

  lemma BooksKeep(start: Tables, s: State, a: Action)
    requires Inv(start, s) && Enabled(s, a)
    ensures BooksOk(start, Next(s, a).books)
  {
    hide Next, BooksOk, EventsOf, AfterAttempt, AfterDelivery, AfterMark, AfterStamp, AfterRegistration, Concat, Range,
         Parseable;
    BooksNext(s, a);
    match a
    case Read =>
      if Next(s, a).books != s.books {
        var events :| Next(s, a).books == AfterDelivery(s.books, events);
        DeliveryOk(start, s.books, events);
      }
    case Write => if EventsOf(s.stream, s.phase.ids) != [] { AttemptOk(start, s.books); }
    case Mark(user, id) => MarkOk(start, s.books, user, id);
    case Stamp(ids) => StampOk(start, s.books, ids);
    case Register(user) => RegistrationOk(start, s.books, user);
    case _ =>
  }

  lemma StepKeeps(start: Tables, s: State, a: Action)
    requires Inv(start, s) && Enabled(s, a)
    ensures Inv(start, Next(s, a))
  {
    hide Next, Shape, Batched, BooksOk;
    ShapeKeeps(s, a);
    BooksKeep(start, s, a);
  }

  lemma FirstInv(s: State)
    requires Initial(s)
    ensures Inv(s.books.tables, s)
  {
    assert EventsOf(s.stream, Range(0, 0)) == [];
    assert s.books.tables.ciphertexts + multiset{} == s.books.tables.ciphertexts;
  }

  lemma {:induction false} RunKeeps(run: seq<State>, actions: seq<Action>, n: nat)
    requires IsRun(run, actions) && Initial(run[0]) && n < |run|
    ensures Inv(run[0].books.tables, run[n])
  {
    hide Next, Inv, Initial, Enabled;
    if n == 0 {
      FirstInv(run[0]);
    } else {
      RunKeeps(run, actions, n - 1);
      assert run[n - 1 + 1] == Next(run[n - 1], actions[n - 1]) && Enabled(run[n - 1], actions[n - 1]);
      StepKeeps(run[0].books.tables, run[n - 1], actions[n - 1]);
    }
  }

  // ----- Main results -------------------------------------------------------------------------------

  /** MAIN RESULT. Whatever crashes happen, whatever is marked and whoever registers meanwhile: the
      delivered entries form the batches in stream order, each parseable entry with its own event and once;
      the messages are those of the crash-free run over the log, which holds each committed batch once, in
      the order of delivery; each batch's ciphertext rows are there once per commit; no batch is passed over
      without a transaction; and the pending list never holds more than the batch in flight. */
  lemma CrashTolerance(run: seq<State>, actions: seq<Action>, n: nat)
    requires IsRun(run, actions) && Initial(run[0]) && n < |run|
    ensures var s, b, start := run[n], run[n].books, run[0].books.tables;
            && |b.tries| == |b.batches| && |b.commits| == |b.batches| && s.delivered <= |s.stream|
               && InStream(s.stream, s.pending)
            && Concat(b.batches) == EventsOf(s.stream, Range(0, s.delivered))
            && (var entries := Parseable(s.stream, Range(0, s.delivered));
                && AreEntries(s.stream, s.delivered, entries) && |Concat(b.batches)| == |entries|
                && forall j | 0 <= j < |entries| :: s.stream[entries[j]] == Some(Concat(b.batches)[j]))
            && b.tables.messages == Reference(start, b.log).messages && b.tables.users == Reference(start, b.log).users
            && CommittedIn(b.log) == CountedOf(b.batches, b.commits)
            && b.tables.ciphertexts == start.ciphertexts + CommittedRows(b.batches, b.commits)
            && (forall i | 0 <= i < |b.batches| && b.batches[i] != []
               && (i < |b.batches| - 1 || s.pending == []) :: b.tries[i] > 0)
            && |s.pending| <= COUNT
            && (EventsOf(s.stream, s.pending) != []
               ==> b.batches != [] && EventsOf(s.stream, s.pending) == b.batches[|b.batches| - 1])
  {
    hide BooksOk, EventsOf, Parseable, Concat, Range, Reference, CountedOf, CommittedIn, CommittedRows, AreEntries,
         IsRun, Initial;
    RunKeeps(run, actions, n);
    RangeEntries(run[n].stream, run[n].delivered);
    BooksParts(run[0].books.tables, run[n].books);
    NoEvents(run[n].stream);
  }

  lemma BooksParts(start: Tables, b: Books)
    requires BooksOk(start, b)
    ensures |b.tries| == |b.batches| && |b.commits| == |b.batches|
    ensures b.tables.messages == Reference(start, b.log).messages && b.tables.users == Reference(start, b.log).users
    ensures CommittedIn(b.log) == CountedOf(b.batches, b.commits)
    ensures b.tables.ciphertexts == start.ciphertexts + CommittedRows(b.batches, b.commits)
    ensures Valid(start) && Valid(b.tables)
  {
  }

  /** The action is a transaction of batch `i`. */
  predicate Tries(s: State, a: Action, i: nat) {
    a.Write? && Enabled(s, a) && EventsOf(s.stream, s.phase.ids) != [] && |s.books.batches| == i + 1
  }

  /** Some transaction of batch `i` up to step `n` found that it can be inserted. */
  ghost predicate Insertable(run: seq<State>, actions: seq<Action>, n: nat, i: nat)
    requires |run| == |actions| + 1 && n <= |actions| && i < |run[n].books.batches|
  {
    exists m | 0 <= m < n :: Tries(run[m], actions[m], i) && Batch(run[m].books.tables, run[n].books.batches[i]).Ok?
  }

  ghost predicate Tried(run: seq<State>, actions: seq<Action>, n: nat, i: nat)
    requires |run| == |actions| + 1 && n <= |actions|
  {
    exists m | 0 <= m < n :: Tries(run[m], actions[m], i)
  }

  /** How an action changes the counts of a batch. */
  lemma CountsNext(s: State, a: Action, i: nat)
    requires Shape(s) && Batched(s) && Enabled(s, a)
    ensures var b, next := s.books, Next(s, a).books;
            && b.batches <= next.batches && |next.tries| == |next.batches| && |next.commits| == |next.batches|
            && (i < |b.batches| ==>
                  && next.tries[i] == b.tries[i] + (if Tries(s, a, i) then 1 else 0)
                  && next.commits[i]
                     == b.commits[i] + (if Tries(s, a, i) && Batch(b.tables, b.batches[i]).Ok? then 1 else 0))
            && (|b.batches| <= i < |next.batches| ==> next.tries[i] == 0 && next.commits[i] == 0)
            && (Tries(s, a, i) ==> i < |b.batches|)
  {
    hide Next, EventsOf, Concat, Range, Parseable, Batch, ApplyWrite;
    BooksNext(s, a);
  }

  /** MAIN RESULT. A batch has been committed exactly when one of its transactions found all the users it
      needs, and tried exactly when it has had a transaction. */
  lemma {:induction false} CommittedIff(run: seq<State>, actions: seq<Action>, n: nat, i: nat)
    requires IsRun(run, actions) && Initial(run[0]) && n < |run| && i < |run[n].books.batches|
    ensures |run[n].books.commits| == |run[n].books.tries| == |run[n].books.batches|
    ensures run[n].books.commits[i] > 0 <==> Insertable(run, actions, n, i)
    ensures run[n].books.tries[i] > 0 <==> Tried(run, actions, n, i)
  {
    hide Next, Enabled, Tries, Batch, Shape, Batched, BooksOk;
    RunKeeps(run, actions, n);
    BooksParts(run[0].books.tables, run[n].books);
    if n > 0 {
      var s, a := run[n - 1], actions[n - 1];
      assert run[n - 1 + 1] == Next(s, a) && Enabled(s, a);
      RunKeeps(run, actions, n - 1);
      CountsNext(s, a, i);
      if i < |s.books.batches| {
        CommittedIff(run, actions, n - 1, i);
        if Insertable(run, actions, n, i) && !(Tries(s, a, i) && Batch(s.books.tables, s.books.batches[i]).Ok?) {
          var m :| 0 <= m < n && Tries(run[m], actions[m], i)
              && Batch(run[m].books.tables, run[n].books.batches[i]).Ok?;
          assert m < n - 1;
        }
        if Tried(run, actions, n, i) && !Tries(s, a, i) {
          var m :| 0 <= m < n && Tries(run[m], actions[m], i);
          assert m < n - 1;
        }
      } else {
        NotYetTried(run, actions, n - 1, i);
      }
    }
  }

  lemma {:induction false} NotYetTried(run: seq<State>, actions: seq<Action>, n: nat, i: nat)
    requires IsRun(run, actions) && Initial(run[0]) && n < |actions| && |run[n].books.batches| <= i
    ensures !Tried(run, actions, n + 1, i)
  {
    hide Next, Enabled, Tries, Batch, BooksOk;
    var s, a := run[n], actions[n];
    RunKeeps(run, actions, n);
    assert Enabled(s, a);
    CountsNext(s, a, i);
    if n > 0 {
      assert run[n - 1 + 1] == Next(run[n - 1], actions[n - 1]) && Enabled(run[n - 1], actions[n - 1]);
      RunKeeps(run, actions, n - 1);
      CountsNext(run[n - 1], actions[n - 1], i);
      NotYetTried(run, actions, n - 1, i);
    }
  }

  // ----- The crash-free run over the first transactions ---------------------------------------------------

  /** The action commits a batch whose earlier transactions have failed. */
  predicate CommitsLate(s: State, a: Action) {
    a.Write? && Enabled(s, a) && EventsOf(s.stream, s.phase.ids) != []
    && |s.books.tries| == |s.books.commits| == |s.books.batches| && Late(s.books)
  }

  /** The action is no such commit that brings messages. */
  predicate NothingLate(s: State, a: Action) {
    CommitsLate(s, a) ==> !BringsMessages(s.books.tables, EventsOf(s.stream, s.phase.ids))
  }

  lemma CrashFreeStepIff(start: Tables, s: State, a: Action)
    requires Inv(start, s) && AsCrashFree(start, s.books) && Enabled(s, a)
    ensures AsCrashFree(start, Next(s, a).books) <==> NothingLate(s, a)
  {
    hide Next, EventsOf, Concat, Range, Parseable, BringsMessages, AfterAttempt, Reference, Late, ApplyWrite;
    BooksNext(s, a);
    BooksParts(start, s.books);
    match a
    case Write =>
      if EventsOf(s.stream, s.phase.ids) != [] {
        WriteNext(s);
        AttemptCrashFreeIff(start, s.books);
      }
    case Mark(user, id) => MarkCrashFree(start, s.books, Marked(user, id));
    case Register(user) => MarkCrashFree(start, s.books, Registered(user));
    case _ =>
  }

  /** MAIN RESULT. Up to any point of a run the messages have been those of the crash-free run, in which
      every batch has one transaction, exactly when no recovery so far committed a batch that had failed
      before and brings messages: its users have registered in between. */
  lemma {:induction false} CrashFreeIff(run: seq<State>, actions: seq<Action>, n: nat)
    requires IsRun(run, actions) && Initial(run[0]) && n < |run|
    ensures (forall m | 0 <= m <= n :: AsCrashFree(run[0].books.tables, run[m].books))
            <==> (forall m | 0 <= m < n :: NothingLate(run[m], actions[m]))
  {
    hide Inv, Next, Enabled, NothingLate, AsCrashFree, Initial;
    if n > 0 {
      CrashFreeIff(run, actions, n - 1);
      RunKeeps(run, actions, n - 1);
      assert run[n - 1 + 1] == Next(run[n - 1], actions[n - 1]) && Enabled(run[n - 1], actions[n - 1]);
      if AsCrashFree(run[0].books.tables, run[n - 1].books) {
        CrashFreeStepIff(run[0].books.tables, run[n - 1], actions[n - 1]);
      }
    } else {
      FirstCrashFree(run[0]);
    }
  }

  lemma FirstCrashFree(s: State)
    requires Initial(s)
    ensures AsCrashFree(s.books.tables, s.books)
  {
  }

  lemma SameReferenceStep(start: Tables, s: State, a: Action)
    requires Inv(start, s) && Enabled(s, a) && !CommitsLate(s, a)
             && Reference(start, s.books.log) == Reference(start, s.books.firsts)
    ensures Reference(start, Next(s, a).books.log) == Reference(start, Next(s, a).books.firsts)
  {
    hide Next, EventsOf, Concat, Range, Parseable, AfterAttempt, Reference, Late, ApplyWrite;
    BooksNext(s, a);
    BooksParts(start, s.books);
    match a
    case Write => if EventsOf(s.stream, s.phase.ids) != [] { AttemptSameReference(start, s.books); }
    case Mark(user, id) =>
      ReferenceSnoc(start, s.books.log, Marked(user, id));
      ReferenceSnoc(start, s.books.firsts, Marked(user, id));
    case Register(user) =>
      ReferenceSnoc(start, s.books.log, Registered(user));
      ReferenceSnoc(start, s.books.firsts, Registered(user));
    case _ =>
  }

  /** MAIN RESULT. As long as no recovery commits a batch that had failed before, the crash-free run over
      the log is the one over the first transactions. */
  lemma {:induction false} SameCrashFreeRun(run: seq<State>, actions: seq<Action>, n: nat)
    requires IsRun(run, actions) && Initial(run[0]) && n < |run|
    requires forall m | 0 <= m < n :: !CommitsLate(run[m], actions[m])
    ensures Reference(run[0].books.tables, run[n].books.log) == Reference(run[0].books.tables, run[n].books.firsts)
  {
    hide Inv, Next, Enabled, CommitsLate, Reference;
    if n > 0 {
      SameCrashFreeRun(run, actions, n - 1);
      RunKeeps(run, actions, n - 1);
      assert run[n - 1 + 1] == Next(run[n - 1], actions[n - 1]) && Enabled(run[n - 1], actions[n - 1]);
      SameReferenceStep(run[0].books.tables, run[n - 1], actions[n - 1]);
    }
  }
}
