/** The message history as the database holds it, with the statements of
    `process_events_batch` (api/src/worker.rs) and `mark_read_handler` (api/src/lib.rs). */
module HistoryDb {
  import opened Models
  import opened History
  import opened ReadStates

  class Database {
    var users: set<User>
    var messages: map<MessageId, MessageRow>
    var ciphertexts: multiset<CiphertextRow>
    var readStates: map<ReadKey, MessageId>
    var readAt: set<MessageId>

    function Contents(): Tables
      reads this
    {
      Tables(users, messages, ciphertexts, readStates, readAt)
    }

    constructor (users: set<User>)
      ensures Contents() == Tables(users, map[], multiset{}, map[], {})
    {
      this.users := users;
      messages, ciphertexts, readStates, readAt := map[], multiset{}, map[], {};
    }

    method Commit(tx: Tables)
      modifies this
      ensures Contents() == tx
    {
      users, messages, ciphertexts := tx.users, tx.messages, tx.ciphertexts;
      readStates, readAt := tx.readStates, tx.readAt;
    }

    /** Writes a batch in one transaction; on an error nothing is written. */
    method ProcessEventsBatch(events: seq<DatabaseEvent>) returns (ok: bool)
      modifies this
      ensures ok <==> Batch(old(Contents()), events).Ok?
      ensures Contents() == Keep(old(Contents()), Batch(old(Contents()), events))
    {
      var tx;
      ok, tx := WriteBatch(Contents(), events);
      if ok {
        Commit(tx);
      }
    }

    /** The statements of the transaction: grouped inserts, skipped where a group is empty. */
    static method WriteBatch(start: Tables, events: seq<DatabaseEvent>) returns (ok: bool, tx: Tables)
      ensures Batch(start, events) == if ok then Ok(tx) else Err
    {
      var newMessages, encrypted, receipts := Partition(events);
      tx := start;
      if newMessages != [] {
        var inserted := InsertMessages(tx, newMessages);
        if inserted.Err? { return false, tx; }
        tx := inserted.value;
      }
      assert InsertMessages(start, Rows(events, PlainKind)) == Ok(tx);
      EncryptedRows(events);
      ok, tx := WriteEncrypted(tx, encrypted);
      if ok && receipts != [] {
        ok, tx := WriteReceipts(tx, receipts);
      }
    }

    static method WriteEncrypted(start: Tables, encrypted: seq<DatabaseEvent>) returns (ok: bool, tx: Tables)
      requires forall e | e in encrypted :: IsEncrypted(e)
      ensures ok <==> InsertMessages(start, Rows(encrypted, EncryptedKind)).Ok?
      ensures ok ==> var stored := InsertMessages(start, Rows(encrypted, EncryptedKind)).value;
                tx == stored.(ciphertexts := stored.ciphertexts + Ciphertexts(encrypted))
    {
      if encrypted == [] { return true, start; }
      var inserted := InsertMessages(start, Rows(encrypted, EncryptedKind));
      if inserted.Err? { return false, start; }
      tx := inserted.value;
      var data := CollectCiphertexts(encrypted);
      if data != [] {
        tx := tx.(ciphertexts := tx.ciphertexts + multiset(data));
      }
      ok := true;
    }

    static predicate IsEncrypted(e: DatabaseEvent) { e.NewEncryptedMessage? }

    static function EncryptedOf(es: seq<DatabaseEvent>): (r: seq<DatabaseEvent>)
      ensures forall e | e in r :: IsEncrypted(e)
    {
      if es == [] then []
      else EncryptedOf(es[..|es| - 1]) + if IsEncrypted(es[|es| - 1]) then [es[|es| - 1]] else []
    }

    /** The encrypted events alone carry all encrypted rows and all ciphertexts. */
    static lemma {:induction false} EncryptedRows(es: seq<DatabaseEvent>)
      ensures Rows(EncryptedOf(es), EncryptedKind) == Rows(es, EncryptedKind)
      ensures Ciphertexts(EncryptedOf(es)) == Ciphertexts(es)
    {
      if es != [] {
        var init, e := es[..|es| - 1], es[|es| - 1];
        EncryptedRows(init);
        if IsEncrypted(e) {
          assert (EncryptedOf(init) + [e])[..|EncryptedOf(init)|] == EncryptedOf(init);
        } else {
          assert EncryptedOf(es) == EncryptedOf(init);
          assert Rows(es, EncryptedKind) == Rows(init, EncryptedKind);
        }
      }
    }

    static method Partition(events: seq<DatabaseEvent>)
      returns (newMessages: seq<NewRow>, encrypted: seq<DatabaseEvent>, receipts: seq<Receipt>)
      ensures newMessages == Rows(events, PlainKind)
      ensures encrypted == EncryptedOf(events)
      ensures receipts == Receipts(events)
    {
      newMessages, encrypted, receipts := [], [], [];
      for i := 0 to |events|
        invariant newMessages == Rows(events[..i], PlainKind)
        invariant encrypted == EncryptedOf(events[..i])
        invariant receipts == Receipts(events[..i])
      {
        assert events[..i + 1][..i] == events[..i];
        match events[i]
        case NewMessage(_, _, _, _, _, _, _, _) => newMessages := newMessages + [RowOf(events[i])];
        case NewEncryptedMessage(_, _, _, _) => encrypted := encrypted + [events[i]];
        case ReadEvent(messageId, reader) => receipts := receipts + [Receipt(messageId, reader)];
      }
      assert events[..|events|] == events;
    }

    static method CollectCiphertexts(encrypted: seq<DatabaseEvent>) returns (data: seq<CiphertextRow>)
      requires forall e | e in encrypted :: IsEncrypted(e)
      ensures multiset(data) == Ciphertexts(encrypted)
      ensures forall row :: multiset(data)[row] == SentCount(encrypted, row)
    {
      hide Ciphertexts;
      data := [];
      NoCiphertexts(encrypted);
      for i := 0 to |encrypted|
        invariant multiset(data) == Ciphertexts(encrypted[..i])
      {
        var e := encrypted[i];
        assert IsEncrypted(e);
        ghost var before := data;
        for j := 0 to |e.ciphertexts|
          invariant data == before + DeviceRows(e.id, e.ciphertexts[..j])
        {
          assert e.ciphertexts[..j + 1][..j] == e.ciphertexts[..j];
          var ct := e.ciphertexts[j];
          if ct.device.Some? {
            data := data + [CiphertextRow(e.id, ct.device.value, ct.ciphertext, ct.signalType)];
          }
        }
        assert e.ciphertexts[..|e.ciphertexts|] == e.ciphertexts;
        NextCiphertexts(encrypted, i);
      }
      assert encrypted[..|encrypted|] == encrypted;
      forall row ensures multiset(data)[row] == SentCount(encrypted, row) { CiphertextCount(encrypted, row); }
    }

    static lemma NoCiphertexts(es: seq<DatabaseEvent>)
      ensures Ciphertexts(es[..0]) == multiset{}
    {
    }

    static lemma NextCiphertexts(es: seq<DatabaseEvent>, i: nat)
      requires i < |es|
      ensures Ciphertexts(es[..i + 1]) == Ciphertexts(es[..i]) + CiphertextsOf(es[i])
    {
      assert es[..i + 1][..i] == es[..i];
    }

    /** Resolves the senders once, then upserts one read state per receipt in order. */
    static method WriteReceipts(start: Tables, receipts: seq<Receipt>) returns (ok: bool, tx: Tables)
      ensures MarkAll(start, receipts) == if ok then Ok(tx) else Err
    {
      var messageMap :=
        map r | r in receipts && r.messageId in start.messages :: r.messageId := start.messages[r.messageId].sender;
      tx := start;
      for i := 0 to |receipts|
        invariant MarkAll(start, receipts[..i]) == Ok(tx)
        invariant tx.messages == start.messages
      {
        assert receipts[..i + 1][..i] == receipts[..i];
        var r := receipts[i];
        if r.messageId in messageMap {
          var upserted := MarkRead(tx, r);
          if upserted.Err? {
            MarkAllFails(start, receipts, i + 1);
            return false, tx;
          }
          tx := upserted.value;
        }
      }
      assert receipts[..|receipts|] == receipts;
      ok := true;
    }

    static lemma {:induction false} MarkAllFails(t: Tables, rs: seq<Receipt>, n: nat)
      requires n <= |rs| && MarkAll(t, rs[..n]).Err?
      ensures MarkAll(t, rs).Err?
      decreases |rs| - n
    {
      if n == |rs| {
        assert rs[..n] == rs;
      } else {
        assert rs[..n + 1][..n] == rs[..n];
        MarkAllFails(t, rs, n + 1);
      }
    }

    /** Marks one message when an id is given, and otherwise the dialog; `latest` is the message
        that the query for the dialog's latest message returned. */
    method MarkReadHandler(user: User, peer: User, messageId: Option<string>, parse: string -> Option<MessageId>)
      returns (outcome: Outcome, latest: Option<MessageId>)
      modifies this
      ensures messageId.Some? ==> (Contents(), outcome) == MarkOne(old(Contents()), user, peer, parse(messageId.value))
      ensures latest.Some? ==> SentTo(old(Contents()), latest.value, peer, user)
      ensures messageId.None? ==>
                (latest.None? <==> DialogMessages(old(Contents()), peer, user) == {})
                && (Contents(), outcome) == MarkDialog(old(Contents()), user, peer, latest)
    {
      latest := None;
      if messageId.Some? {
        var parsed := parse(messageId.value);
        if parsed.None? { return InvalidMessageId, latest; }
        var id := parsed.value;
        if id !in messages { return MessageNotFound, latest; }
        if messages[id].sender != peer { return NotFromThisPeer, latest; }
        var result := MarkRead(Contents(), Receipt(id, user));
        if result.Err? { return DatabaseError, latest; }
        Commit(result.value);
        readAt := readAt + {id};
        outcome := MarkedOne;
      } else {
        var dialog := DialogMessages(Contents(), peer, user);
        if dialog == {} { return NothingToMark, latest; }
        var id :| id in dialog;
        latest := Some(id);
        var result := MarkRead(Contents(), Receipt(id, user));
        if result.Err? { return DatabaseError, latest; }
        Commit(result.value);
        readAt := readAt + dialog;
        outcome := MarkedAll;
      }
    }
  }
}
