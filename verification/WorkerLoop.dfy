/** The loops of `start_database_worker` (api/src/worker.rs) over one connection that stays up:
    handling a reply, emptying the pending list, and reading new entries. */
module WorkerLoop {
  import opened Models
  import opened History
  import opened Batching
  import opened HistoryDb
  import opened WorkerProtocol

  /** The replies in which a pending list is read from "0" when every reply is acknowledged. */
  function Chunks(stream: Stream, pending: seq<nat>): seq<seq<DatabaseEvent>>
    requires InStream(stream, pending)
    decreases |pending|
  {
    if pending == [] then []
    else
      var n := Min(COUNT, |pending|);
      [EventsOf(stream, pending[..n])] + Chunks(stream, pending[n..])
  }

  /** The replies hold the events of the pending list in its order, at most COUNT of them each. */
  lemma {:induction false} ChunksHoldAll(stream: Stream, pending: seq<nat>)
    requires InStream(stream, pending)
    ensures |Chunks(stream, pending)| == CeilDiv(|pending|, COUNT)
    ensures Joined(Chunks(stream, pending)) == EventsOf(stream, pending)
    ensures forall i | 0 <= i < |Chunks(stream, pending)| :: |Chunks(stream, pending)[i]| <= COUNT
    decreases |pending|
  {
    hide EventsOf, CeilDiv;
    CeilStep(|pending|);
    if pending != [] {
      var n := Min(COUNT, |pending|);
      assert pending[..n] + pending[n..] == pending;
      ChunksHoldAll(stream, pending[n..]);
      EventsAppend(stream, pending[..n], pending[n..]);
      ParseableEvents(stream, pending[..n]);
    } else {
      NoEvents(stream);
    }
  }

  /** The events of replies one after the other. */
  function Joined(replies: seq<seq<DatabaseEvent>>): seq<DatabaseEvent> {
    if replies == [] then [] else replies[0] + Joined(replies[1..])
  }

  /** Division rounding up. */
  function CeilDiv(n: nat, d: nat): nat
    requires d > 0
  {
    (n + d - 1) / d
  }

  lemma CeilStep(n: nat)
    ensures CeilDiv(0, COUNT) == 0
    ensures n > 0 ==> CeilDiv(n, COUNT) == CeilDiv(n - Min(COUNT, n), COUNT) + 1
  {
  }

  lemma NoRepeatsSuffix(a: seq<nat>, b: seq<nat>)
    requires NoRepeats(a + b)
    ensures NoRepeats(b)
  {
    forall i, j | 0 <= i < j < |b| ensures b[i] != b[j] {
      assert (a + b)[|a| + i] == b[i] && (a + b)[|a| + j] == b[j];
    }
  }

  lemma {:induction false} AckedPrefix(ids: seq<nat>, rest: seq<nat>)
    requires NoRepeats(ids + rest)
    ensures Acked(ids + rest, ids) == rest
  {
    if rest == [] {
      assert ids + rest == ids;
      AckedAll(ids, ids);
    } else {
      var init := rest[..|rest| - 1];
      assert (ids + rest)[..|ids + rest| - 1] == ids + init;
      AckedPrefix(ids, init);
      assert (ids + rest)[|ids + rest| - 1] == rest[|rest| - 1];
      assert rest[|rest| - 1] !in ids by {
        forall i | 0 <= i < |ids| ensures ids[i] != rest[|rest| - 1] {
          assert (ids + rest)[i] == ids[i];
        }
      }
    }
  }

  lemma {:induction false} AckedTwice(pending: seq<nat>, a: seq<nat>, b: seq<nat>, all: seq<nat>)
    requires forall id :: id in all <==> id in a || id in b
    ensures Acked(Acked(pending, a), b) == Acked(pending, all)
  {
    if pending != [] {
      AckedTwice(pending[..|pending| - 1], a, b, all);
      if pending[|pending| - 1] in a {
        assert Acked(pending, a) == Acked(pending[..|pending| - 1], a);
        assert Acked(pending, all) == Acked(pending[..|pending| - 1], all);
      } else {
        var p := Acked(pending[..|pending| - 1], a);
        assert (p + [pending[|pending| - 1]])[..|p|] == p;
      }
    }
  }

  /** A run of batches continues where an earlier one stopped. */
  lemma {:induction false} BatchesAppend(t: Tables, a: seq<seq<DatabaseEvent>>, b: seq<seq<DatabaseEvent>>)
    ensures Batches(t, a + b) == Batches(Batches(t, a), b)
  {
    hide Batch, Keep;
    if b == [] {
      assert a + b == a;
    } else {
      BatchesAppend(t, a, b[..|b| - 1]);
      assert (a + b)[..|a + b| - 1] == a + b[..|b| - 1];
    }
  }

  lemma OneBatch(t: Tables, es: seq<DatabaseEvent>)
    ensures Batches(t, [es]) == Keep(t, Batch(t, es))
  {
  }

  /** MAIN RESULT. The three protocol steps of a reply, taken without a crash between them, have the
      effect that `Consumer.HandleReply` has on the pending list and the tables. */
  lemma ReplySteps(s: State)
    requires Enabled(s, AckUnparseable) && |s.books.tries| == |s.books.commits| > 0
    ensures var ids := s.phase.ids; var s1 := Next(s, AckUnparseable);
            && Enabled(s1, Write)
            && var s2 := Next(s1, Write);
               && (s2.phase.Written? ==> Enabled(s2, AckParseable))
               && var s3 := if s2.phase.Written? then Next(s2, AckParseable) else s2;
                  && s3.phase == Reading(s.phase.fromStart) && s3.pending == Acked(s.pending, ids)
                  && s3.books.tables == Keep(s.books.tables, Batch(s.books.tables, EventsOf(s.stream, ids)))
                  && s3.stream == s.stream && s3.delivered == s.delivered && s3.books.batches == s.books.batches
  {
    hide Batch, Acked, Parseable, Unparseable, EventsOf;
    var ids := s.phase.ids;
    ParseableEvents(s.stream, ids);
    AckedTwice(s.pending, Unparseable(s.stream, ids), Parseable(s.stream, ids), ids);
    if EventsOf(s.stream, ids) == [] {
      Consumer.AckedNone(Acked(s.pending, Unparseable(s.stream, ids)));
      EmptyBatch(s.books.tables);
    }
  }

  class Consumer {
    const db: Database
    var stream: Stream
    var delivered: nat
    var pending: seq<nat>

    ghost predicate Valid()
      reads this
    {
      delivered <= |stream| && InStream(stream, pending) && NoRepeats(pending)
      && forall id | id in pending :: id < delivered
    }

    constructor (db: Database, stream: Stream)
      ensures Valid() && this.db == db && this.stream == stream && delivered == 0 && pending == []
    {
      this.db, this.stream, delivered, pending := db, stream, 0, [];
    }

    method Ack(ids: seq<nat>)
      modifies this`pending
      ensures pending == Acked(old(pending), ids)
    {
      pending := Acked(pending, ids);
    }

    /** Splits a reply into its events and the ids that do and do not parse. */
    method Parse(ids: seq<nat>) returns (events: seq<DatabaseEvent>, parseable: seq<nat>, unparseable: seq<nat>)
      requires InStream(stream, ids)
      ensures events == EventsOf(stream, ids)
      ensures parseable == Parseable(stream, ids) && unparseable == Unparseable(stream, ids)
      ensures |events| == |parseable|
      ensures forall j | 0 <= j < |events| :: parseable[j] in ids && stream[parseable[j]] == Some(events[j])
    {
      events, parseable, unparseable := [], [], [];
      for i := 0 to |ids|
        invariant InStream(stream, ids[..i])
        invariant events == EventsOf(stream, ids[..i])
        invariant parseable == Parseable(stream, ids[..i])
        invariant unparseable == Unparseable(stream, ids[..i])
      {
        assert ids[..i + 1][..i] == ids[..i];
        match stream[ids[i]]
        case Some(event) =>
          events := events + [event];
          parseable := parseable + [ids[i]];
        case None =>
          unparseable := unparseable + [ids[i]];
      }
      assert ids[..|ids|] == ids;
      SameCount(stream, ids);
      forall j | 0 <= j < |events| ensures parseable[j] in ids && stream[parseable[j]] == Some(events[j]) {
        OwnEvents(stream, ids, j);
      }
    }

    /** Handles one reply: every entry is acknowledged, whether it parses and whether its batch
        is written or fails. */
    method HandleReply(ids: seq<nat>)
      requires InStream(stream, ids)
      modifies this`pending, db
      ensures pending == Acked(old(pending), ids)
      ensures db.Contents() == Keep(old(db.Contents()), Batch(old(db.Contents()), EventsOf(stream, ids)))
    {
      hide Batch, Acked, Parseable, Unparseable, EventsOf;
      var events, parseable, unparseable := Parse(ids);
      ParseableEvents(stream, ids);
      if unparseable != [] {
        Ack(unparseable);
      }
      assert pending == Acked(old(pending), unparseable) by { AckedNone(old(pending)); }
      if events != [] {
        var ok := db.ProcessEventsBatch(events);
        if ok {
          Ack(parseable);
        } else {
          Ack(parseable);
        }
      }
      assert pending == Acked(Acked(old(pending), unparseable), parseable)
             by { AckedNone(Acked(old(pending), unparseable)); }
      AckedTwice(old(pending), unparseable, parseable, ids);
      assert Batch(old(db.Contents()), []) == Ok(old(db.Contents())) by { EmptyBatch(old(db.Contents())); }
    }

    static lemma {:induction false} AckedNone(pending: seq<nat>)
      ensures Acked(pending, []) == pending
    {
      if pending != [] { AckedNone(pending[..|pending| - 1]); }
    }

    /** Reads from "0" until an empty reply switches the worker to ">". */
    method Recover() returns (readCount: nat)
      requires Valid()
      modifies this`pending, db
      ensures Valid() && pending == []
      ensures readCount == CeilDiv(|old(pending)|, COUNT) + 1
      ensures db.Contents() == Batches(old(db.Contents()), Chunks(stream, old(pending)))
    {
      hide Batch, Acked, EventsOf, CeilDiv, NoRepeats;
      CeilStep(0);
      var readId := "0";
      readCount := 0;
      ghost var handled: seq<seq<DatabaseEvent>> := [];
      while readId == "0"
        invariant Valid()
        invariant readId == "0" || (readId == ">" && pending == [])
        invariant readCount + (if readId == "0" then CeilDiv(|pending|, COUNT) + 1 else 0)
                  == CeilDiv(|old(pending)|, COUNT) + 1
        invariant Chunks(stream, old(pending)) == handled + Chunks(stream, pending)
        invariant db.Contents() == Batches(old(db.Contents()), handled)
        decreases |pending|, if readId == "0" then 1 else 0
      {
        var n := Min(COUNT, |pending|);
        var reply := pending[..n];
        ghost var rest, before := pending[n..], pending;
        readCount := readCount + 1;
        var processedAny := reply != [];
        if processedAny {
          assert pending == reply + rest;
          AckedPrefix(reply, rest);
          NoRepeatsSuffix(reply, rest);
          CeilStep(|pending|);
          ghost var tables := db.Contents();
          HandleReply(reply);
          assert pending == rest;
          ghost var events := EventsOf(stream, reply);
          OneBatch(tables, events);
          BatchesAppend(old(db.Contents()), handled, [events]);
          assert handled + ([events] + Chunks(stream, rest)) == (handled + [events]) + Chunks(stream, rest);
          handled := handled + [events];
        }
        if readId == "0" && !processedAny {
          readId := ">";
        }
      }
      assert handled + [] == handled;
    }

    /** One read of new entries, from an empty pending list to an empty pending list. */
    method Poll() returns (reply: seq<nat>)
      requires Valid() && pending == []
      modifies this`pending, this`delivered, db
      ensures Valid() && pending == []
      ensures |reply| == Min(COUNT, |stream| - old(delivered)) && delivered == old(delivered) + |reply|
      ensures reply == Range(old(delivered), delivered)
      ensures db.Contents() == Keep(old(db.Contents()), Batch(old(db.Contents()), EventsOf(stream, reply)))
    {
      reply := Range(delivered, delivered + Min(COUNT, |stream| - delivered));
      delivered := delivered + |reply|;
      pending := pending + reply;
      assert pending == reply;
      if reply != [] {
        HandleReply(reply);
        AckedAll(reply, reply);
      }
    }
  }
}
