/** Two runs of the worker in which what happens between a crash and the recovery shows: a mark that the
    replay undoes, and a registration that lets the recovery commit what had failed. */
module WorkerOverlap {
  import opened Models
  import opened Runs
  import opened History
  import opened Batching
  import opened Ledger
  import opened WorkerProtocol

  ghost predicate IsStep(s: State, a: Action, next: State) {
    Enabled(s, a) && next == Next(s, a)
  }

  lemma OneEntry(e: DatabaseEvent)
    ensures EventsOf([Some(e)], [0]) == [e] && Acked([0], Unparseable([Some(e)], [0])) == [0] && Range(0, 1) == [0]
  {
    assert [0][..0] == [];
  }

  /** From the start to the reply with the one entry of the stream. */
  lemma FirstReply(start: Tables, e: DatabaseEvent) returns (run: seq<State>)
    ensures IsRunOf(IsStep, run, [Connect, Read, Read])
    ensures var none := Books(start, [], [], [], [], []);
            && run[0] == State([Some(e)], 0, [], Disconnected, none)
            && run[3] == State([Some(e)], 1, [0], Received(false, [0]), AfterDelivery(none, [e]))
  {
    hide Unparseable, Parseable, Acked, AfterDelivery;
    OneEntry(e);
    var none := Books(start, [], [], [], [], []);
    var s0 := State([Some(e)], 0, [], Disconnected, none);
    var s1, s2 := s0.(phase := Reading(true)), s0.(phase := Reading(false));
    var s3 := State([Some(e)], 1, [0], Received(false, [0]), AfterDelivery(none, [e]));
    assert Next(s2, Read) == s3 by { assert [] + [0] == [0]; }
    run := [s0, s1, s2, s3];
  }

  /** Handling the reply up to the end of its transaction. */
  lemma OneReply(s: State, e: DatabaseEvent) returns (run: seq<State>)
    requires s.stream == [Some(e)] && s.phase.Received? && s.phase.ids == [0] && s.pending == [0]
    requires |s.books.tries| == |s.books.commits| > 0
    ensures IsRunOf(IsStep, run, [AckUnparseable, Write]) && run[0] == s
    ensures run[2] == s.(phase := Written(s.phase.fromStart, [0]), books := AfterAttempt(s.books, [e]))
  {
    hide AfterAttempt, EventsOf, Unparseable, Parseable, Acked;
    OneEntry(e);
    var s1 := Next(s, AckUnparseable);
    run := [s, s1, Next(s1, Write)];
  }

  /** A new connection after a crash: the reply with the pending entry. */
  lemma SecondReply(s: State, e: DatabaseEvent) returns (run: seq<State>)
    requires s.stream == [Some(e)] && s.delivered == 1 && s.pending == [0] && s.phase.Disconnected?
    ensures IsRunOf(IsStep, run, [Connect, Read]) && run[0] == s && run[2] == s.(phase := Received(true, [0]))
  {
    hide EventsOf, Unparseable, Parseable, Acked;
    var s1 := Next(s, Connect);
    assert s1.pending[..1] == [0];
    run := [s, s1, Next(s1, Read)];
  }

  lemma OneStep(s: State, a: Action) returns (run: seq<State>)
    requires Enabled(s, a)
    ensures IsRunOf(IsStep, run, [a]) && run == [s, Next(s, a)]
  {
    hide Next, Enabled;
    run := [s, Next(s, a)];
  }

  lemma AsRun(run: seq<State>, actions: seq<Action>)
    requires IsRunOf(IsStep, run, actions)
    ensures IsRun(run, actions)
  {
    hide Next, Enabled;
    forall i | 0 <= i < |actions| ensures Enabled(run[i], actions[i]) && run[i + 1] == Next(run[i], actions[i]) {
      assert IsStep(run[i], actions[i], run[i + 1]);
    }
  }

  function Delivered(start: Tables, e: DatabaseEvent): Books {
    AfterDelivery(Books(start, [], [], [], [], []), [e])
  }

  /** From the start to a crash after the transaction. */
  lemma ToCrash(start: Tables, e: DatabaseEvent) returns (run: seq<State>)
    ensures IsRunOf(IsStep, run, [Connect, Read, Read, AckUnparseable, Write, Crash]) && |run| == 7
    ensures run[0] == State([Some(e)], 0, [], Disconnected, Books(start, [], [], [], [], []))
    ensures run[6] == State([Some(e)], 1, [0], Disconnected, AfterAttempt(Delivered(start, e), [e]))
  {
    hide AfterAttempt, EventsOf, Next, Enabled, IsStep;
    var a := FirstReply(start, e);
    var b := OneReply(a[3], e);
    Crashes(b[2]);
    var c := OneStep(b[2], Crash);
    var r := Chained(IsStep, a, [Connect, Read, Read], b, [AckUnparseable, Write]);
    assert [Connect, Read, Read] + [AckUnparseable, Write] == [Connect, Read, Read, AckUnparseable, Write];
    run := Chained(IsStep, r, [Connect, Read, Read, AckUnparseable, Write], c, [Crash]);
    assert [Connect, Read, Read, AckUnparseable, Write] + [Crash]
           == [Connect, Read, Read, AckUnparseable, Write, Crash];
  }

  lemma Recovers(s: State, e: DatabaseEvent) returns (run: seq<State>)
    requires s.stream == [Some(e)] && s.delivered == 1 && s.pending == [0] && s.phase.Disconnected?
    requires |s.books.tries| == |s.books.commits| > 0
    ensures IsRunOf(IsStep, run, [Connect, Read, AckUnparseable, Write]) && |run| == 5 && run[0] == s
    ensures run[4].books == AfterAttempt(s.books, [e])
  {
    hide AfterAttempt, EventsOf, Next, Enabled, IsStep;
    var a := SecondReply(s, e);
    var b := OneReply(a[2], e);
    run := Chained(IsStep, a, [Connect, Read], b, [AckUnparseable, Write]);
    assert [Connect, Read] + [AckUnparseable, Write] == [Connect, Read, AckUnparseable, Write];
  }

  /** A crash after the transaction of a batch of one event, another action, and the recovery. */
  lemma CrashAround(start: Tables, e: DatabaseEvent, middle: Action, after: Books)
      returns (run: seq<State>, actions: seq<Action>)
    requires Valid(start)
    requires var b := AfterAttempt(Delivered(start, e), [e]);
             || (middle.Mark? && middle.id in b.tables.messages && after == AfterMark(b, middle.user, middle.id))
             || (middle.Register? && after == AfterRegistration(b, middle.user))
    ensures IsRun(run, actions) && Initial(run[0]) && |actions| == 11 && actions[6] == middle
    ensures run[0].books.tables == start && run[6].books == AfterAttempt(Delivered(start, e), [e])
    ensures run[7].books == after && run[11].books == AfterAttempt(after, [e])
  {
    hide Batch, EventsOf, Next, Enabled, ApplyWrite, Valid, IsStep, IsRun;
    var a := ToCrash(start, e);
    Middle(a[6], middle, after);
    var b := OneStep(a[6], middle);
    var c := Recovers(b[1], e);
    var first := [Connect, Read, Read, AckUnparseable, Write, Crash];
    var r := Chained(IsStep, a, first, b, [middle]);
    run := Chained(IsStep, r, first + [middle], c, [Connect, Read, AckUnparseable, Write]);
    actions := first + [middle] + [Connect, Read, AckUnparseable, Write];
    AsRun(run, actions);
  }

  lemma Crashes(s: State)
    ensures Enabled(s, Crash) && Next(s, Crash) == s.(phase := Disconnected)
  {
  }

  lemma Middle(s: State, a: Action, after: Books)
    requires || (a.Mark? && a.id in s.books.tables.messages && after == AfterMark(s.books, a.user, a.id))
             || (a.Register? && after == AfterRegistration(s.books, a.user))
    ensures Enabled(s, a) && Next(s, a) == s.(books := after)
  {
  }

  // ----- A mark undone ----------------------------------------------------------------------------------

  lemma OneReceipt(t: Tables, id: MessageId, user: User, peer: User)
    requires id in t.messages && t.messages[id].sender == peer && {user, peer} <= t.users
    ensures Batch(t, [ReadEvent(id, user)]) == MarkRead(t, Receipt(id, user))
            == Ok(t.(readStates := t.readStates[(user, peer) := id]))
  {
    var es := [ReadEvent(id, user)];
    assert Rows(es, PlainKind) == [] && Rows(es, EncryptedKind) == [];
    assert es[..0] == [] && Receipts(es) == [Receipt(id, user)] && Ciphertexts(es) == multiset{};
    assert InsertMessages(t, []) == Ok(t) && t.ciphertexts + multiset{} == t.ciphertexts;
    assert [Receipt(id, user)][..0] == [] && MarkAll(t, []) == Ok(t);
  }

  /** A run in which a replay undoes a mark: a receipt for `id` is committed, the worker crashes before
      its acknowledgement, the user marks `later`, and the recovery sets the read state back to `id`. */
  lemma ReplayUndoesMark(user: User, peer: User, id: MessageId, later: MessageId)
      returns (run: seq<State>, actions: seq<Action>)
    requires id != later
    ensures IsRun(run, actions) && Initial(run[0])
    ensures |actions| == 11 && actions[6] == Mark(user, later)
            && run[7].books.tables.readStates == map[(user, peer) := later]
    ensures run[11].books.tables.readStates == map[(user, peer) := id]
    ensures Reference(run[0].books.tables, run[11].books.log).readStates == map[(user, peer) := later]
  {
    hide Batch, MarkRead, Reference;
    var row := MessageRow(peer, user, "text", None, None, None, None);
    var start := Tables({user, peer}, map[id := row, later := row], multiset{}, map[], {});
    var one, two := start.(readStates := map[(user, peer) := id]), start.(readStates := map[(user, peer) := later]);
    var e := ReadEvent(id, user);
    OneReceipt(start, id, user, peer);
    OneReceipt(one, later, user, peer);
    OneReceipt(two, id, user, peer);
    assert map[][(user, peer) := id] == one.readStates && one.readStates[(user, peer) := later] == two.readStates;
    assert two.readStates[(user, peer) := id] == one.readStates;
    var b1 := Delivered(start, e);
    var b2 := AfterAttempt(b1, [e]);
    assert b2.tables == one && b2.log == [Committed([e])];
    var b3 := AfterMark(b2, user, later);
    assert b3.tables == two && b3.log == [Committed([e]), Marked(user, later)];
    run, actions := CrashAround(start, e, Mark(user, later), b3);
    assert AfterAttempt(b3, [e]).tables == one && AfterAttempt(b3, [e]).log == b3.log;
    ReferenceSnoc(start, [], Committed([e]));
    ReferenceSnoc(start, [Committed([e])], Marked(user, later));
    assert [Committed([e])] + [Marked(user, later)] == b3.log && [] + [Committed([e])] == [Committed([e])];
    assert Reference(start, []) == start by { NothingWritten(start); }
  }

  lemma NothingWritten(start: Tables)
    ensures Reference(start, []) == start
  {
  }

  // ----- A batch committed late -------------------------------------------------------------------------

  lemma OneMessage(t: Tables, id: MessageId, user: User, peer: User)
    requires t.messages == map[] && t.readStates == map[] && user in t.users
    ensures var e := NewMessage(id, user, peer, "text", None, None, None, None);
            && (Batch(t, [e]).Ok? <==> peer in t.users)
            && (peer in t.users ==> Batch(t, [e]).value.messages == map[id := RowOf(e).row])
  {
    hide Batch;
    var e := NewMessage(id, user, peer, "text", None, None, None, None);
    var es := [e];
    assert Introduces(PlainKind, es[0], id);
    assert Winner(es, id) == 0;
    BatchFailsIff(t, es);
    assert RowsKnown(t, es) <==> peer in t.users by {
      forall other | Winner(es, other) < 1 ensures other == id {
        assert Introduces(AnyKind, es[Winner(es, other)], other);
      }
    }
    if peer in t.users {
      forall other ensures other in Stored(t.messages, es) <==> other == id {
        StoredRow(t.messages, es, other);
        if Winner(es, other) < 1 { assert Introduces(AnyKind, es[Winner(es, other)], other); }
      }
      StoredRow(t.messages, es, id);
    }
  }

  /** A run in which a recovery commits what had failed: a message to `peer`, who is not registered,
      cannot be inserted, the worker crashes before its acknowledgement, `peer` registers, and the recovery
      stores the message that the crash-free run has dropped. */
  lemma CommittedLate(user: User, peer: User, id: MessageId) returns (run: seq<State>, actions: seq<Action>)
    requires user != peer
    ensures IsRun(run, actions) && Initial(run[0])
    ensures |actions| == 11 && actions[6] == Register(peer) && run[7].books.tables.messages == map[]
    ensures id in run[11].books.tables.messages
    ensures Reference(run[0].books.tables, run[11].books.firsts).messages == map[]
  {
    hide Batch, Reference;
    var start := Tables({user}, map[], multiset{}, map[], {});
    var e := NewMessage(id, user, peer, "text", None, None, None, None);
    var later := start.(users := {user} + {peer});
    OneMessage(start, id, user, peer);
    OneMessage(later, id, user, peer);
    var b2 := AfterAttempt(Delivered(start, e), [e]);
    assert b2.tables == start && b2.firsts == [Committed([e])];
    var b3 := AfterRegistration(b2, peer);
    assert b3.tables == later && b3.firsts == [Committed([e]), Registered(peer)];
    run, actions := CrashAround(start, e, Register(peer), b3);
    ReferenceSnoc(start, [], Committed([e]));
    ReferenceSnoc(start, [Committed([e])], Registered(peer));
    assert [Committed([e])] + [Registered(peer)] == b3.firsts && [] + [Committed([e])] == [Committed([e])];
    assert Reference(start, []) == start by { NothingWritten(start); }
  }
}
