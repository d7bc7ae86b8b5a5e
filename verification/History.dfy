/** The message history tables and the meaning of one batch of database events:
    the grouped inserts of the worker, and the reference that handles events one at a time. */
module History {
  import opened Models

  datatype MessageRow = MessageRow(sender: User, recipient: User, kind: string, content: Option<string>,
                                   fileName: Option<string>, mimeType: Option<string>, fileUrl: Option<string>)

  datatype NewRow = NewRow(id: MessageId, row: MessageRow)

  datatype CiphertextRow = CiphertextRow(messageId: MessageId, device: DeviceId, ciphertext: string, signalType: int)

  datatype Receipt = Receipt(messageId: MessageId, reader: User)

  /** Key of `dialog_read_states`: (reader, peer). */
  type ReadKey = (User, User)

  datatype Tables = Tables(
    users: set<User>,
    messages: map<MessageId, MessageRow>,
    ciphertexts: multiset<CiphertextRow>,
    readStates: map<ReadKey, MessageId>,
    readAt: set<MessageId>)

  /** The foreign keys of the schema, and the rule the writers of read states keep:
      a read-state row points to a stored message sent by the row's peer. */
  ghost predicate Valid(t: Tables) {
    && (forall id | id in t.messages :: t.messages[id].sender in t.users && t.messages[id].recipient in t.users)
    && (forall key | key in t.readStates ::
          key.0 in t.users && key.1 in t.users
          && t.readStates[key] in t.messages && t.messages[t.readStates[key]].sender == key.1)
  }

  // ----- What a batch introduces ----------------------------------------------------------

  function Mentions(e: DatabaseEvent): set<User> {
    match e
    case ReadEvent(_, reader) => {reader}
    case NewMessage(_, sender, recipient, _, _, _, _, _) => {sender, recipient}
    case NewEncryptedMessage(_, sender, recipient, _) => {sender, recipient}
  }

  /** Which events a grouped statement takes; `KnownKind` picks those whose users are all in the set. */
  datatype Pick = AnyKind | PlainKind | EncryptedKind | KnownKind(users: set<User>)

  predicate Picks(pick: Pick, e: DatabaseEvent) {
    match e
    case NewMessage(_, _, _, _, _, _, _, _) => !pick.EncryptedKind? && (pick.KnownKind? ==> Mentions(e) <= pick.users)
    case NewEncryptedMessage(_, _, _, _) => !pick.PlainKind? && (pick.KnownKind? ==> Mentions(e) <= pick.users)
    case ReadEvent(_, _) => false
  }

  function RowOf(e: DatabaseEvent): NewRow
    requires Picks(AnyKind, e)
  {
    match e
    case NewMessage(id, sender, recipient, kind, content, fileName, mimeType, fileUrl) =>
      NewRow(id, MessageRow(sender, recipient, kind, content, fileName, mimeType, fileUrl))
    case NewEncryptedMessage(id, sender, recipient, _) =>
      NewRow(id, MessageRow(sender, recipient, "encrypted", None, None, None, None))
  }

  predicate Introduces(pick: Pick, e: DatabaseEvent, id: MessageId) {
    Picks(pick, e) && RowOf(e).id == id
  }

  function Rows(es: seq<DatabaseEvent>, pick: Pick): seq<NewRow> {
    if es == [] then []
    else
      var e := es[|es| - 1];
      Rows(es[..|es| - 1], pick) + if Picks(pick, e) then [RowOf(e)] else []
  }

  function Receipts(es: seq<DatabaseEvent>): seq<Receipt> {
    if es == [] then []
    else
      var e := es[|es| - 1];
      Receipts(es[..|es| - 1]) + if e.ReadEvent? then [Receipt(e.messageId, e.reader)] else []
  }

  /** The rows for those ciphertexts whose device id parses. */
  function DeviceRows(id: MessageId, cts: seq<DeviceCiphertext>): seq<CiphertextRow> {
    if cts == [] then []
    else
      var ct := cts[|cts| - 1];
      DeviceRows(id, cts[..|cts| - 1])
      + if ct.device.Some? then [CiphertextRow(id, ct.device.value, ct.ciphertext, ct.signalType)] else []
  }

  function CiphertextsOf(e: DatabaseEvent): multiset<CiphertextRow> {
    if e.NewEncryptedMessage? then multiset(DeviceRows(e.id, e.ciphertexts)) else multiset{}
  }

  function Ciphertexts(es: seq<DatabaseEvent>): multiset<CiphertextRow> {
    if es == [] then multiset{}
    else Ciphertexts(es[..|es| - 1]) + CiphertextsOf(es[|es| - 1])
  }

  /** The ciphertext that a row stores, as it was sent. */
  function SentAs(row: CiphertextRow): DeviceCiphertext {
    DeviceCiphertext(Some(row.device), row.signalType, row.ciphertext)
  }

  /** Each ciphertext whose device id parses has one row for each time it occurs, and nothing else has. */
  lemma {:induction false} DeviceRowCount(id: MessageId, cts: seq<DeviceCiphertext>, row: CiphertextRow)
    ensures multiset(DeviceRows(id, cts))[row] == if row.messageId == id then multiset(cts)[SentAs(row)] else 0
  {
    if cts != [] {
      var init, last := cts[..|cts| - 1], cts[|cts| - 1];
      DeviceRowCount(id, init, row);
      assert cts == init + [last];
    }
  }

  /** How often the list sends what the row stores. */
  function SentCount(es: seq<DatabaseEvent>, row: CiphertextRow): nat {
    if es == [] then 0
    else
      var e := es[|es| - 1];
      SentCount(es[..|es| - 1], row)
      + if e.NewEncryptedMessage? && e.id == row.messageId then multiset(e.ciphertexts)[SentAs(row)] else 0
  }

  lemma {:induction false} CiphertextCount(es: seq<DatabaseEvent>, row: CiphertextRow)
    ensures Ciphertexts(es)[row] == SentCount(es, row)
  {
    if es != [] {
      var e := es[|es| - 1];
      CiphertextCount(es[..|es| - 1], row);
      if e.NewEncryptedMessage? { DeviceRowCount(e.id, e.ciphertexts, row); }
    }
  }

  /** A ciphertext of an encrypted event of the list is among its rows. */
  lemma {:induction false} CiphertextSent(es: seq<DatabaseEvent>, e: DatabaseEvent, row: CiphertextRow)
    requires e in es && e.NewEncryptedMessage? && e.id == row.messageId && SentAs(row) in e.ciphertexts
    ensures row in Ciphertexts(es)
  {
    var init, last := es[..|es| - 1], es[|es| - 1];
    if e in init {
      CiphertextSent(init, e, row);
    } else {
      assert e == last;
      DeviceRowCount(e.id, e.ciphertexts, row);
    }
  }

  // ----- The statements ---------------------------------------------------------------------

  /** Rows inserted one after the other with `ON CONFLICT (id) DO NOTHING`. */
  function InsertIgnore(m: map<MessageId, MessageRow>, rows: seq<NewRow>): (r: map<MessageId, MessageRow>) {
    if rows == [] then m
    else
      var before := InsertIgnore(m, rows[..|rows| - 1]);
      var last := rows[|rows| - 1];
      if last.id in before then before else before[last.id := last.row]
  }

  /** The foreign keys of the rows a statement has added. */
  predicate ForeignKeysHold(users: set<User>, before: map<MessageId, MessageRow>, after: map<MessageId, MessageRow>) {
    forall id | id in after && id !in before :: after[id].sender in users && after[id].recipient in users
  }

  function InsertMessages(t: Tables, rows: seq<NewRow>): Result<Tables> {
    var after := InsertIgnore(t.messages, rows);
    if ForeignKeysHold(t.users, t.messages, after) then Ok(t.(messages := after)) else Err
  }

  /** The upsert of one read state; a new row needs both its users. */
  function Upsert(t: Tables, key: ReadKey, id: MessageId): Result<Tables> {
    if key in t.readStates || (key.0 in t.users && key.1 in t.users)
    then Ok(t.(readStates := t.readStates[key := id]))
    else Err
  }

  /** The upsert for one receipt; a receipt for an unknown message does nothing. */
  function MarkRead(t: Tables, r: Receipt): Result<Tables> {
    if r.messageId !in t.messages then Ok(t)
    else Upsert(t, (r.reader, t.messages[r.messageId].sender), r.messageId)
  }

  function MarkAll(t: Tables, rs: seq<Receipt>): Result<Tables> {
    if rs == [] then Ok(t)
    else
      match MarkAll(t, rs[..|rs| - 1])
      case Err => Err
      case Ok(before) => MarkRead(before, rs[|rs| - 1])
  }

  /** One batch as the worker writes it: plain rows, then encrypted rows with their
      ciphertexts, then read receipts, in one transaction. */
  function Batch(t: Tables, es: seq<DatabaseEvent>): Result<Tables> {
    match InsertMessages(t, Rows(es, PlainKind))
    case Err => Err
    case Ok(plain) =>
      match InsertMessages(plain, Rows(es, EncryptedKind))
      case Err => Err
      case Ok(stored) =>
        MarkAll(stored.(ciphertexts := stored.ciphertexts + Ciphertexts(es)), Receipts(es))
  }

  /** One event on its own. */
  function Apply(t: Tables, e: DatabaseEvent): Result<Tables> {
    match e
    case ReadEvent(id, reader) => MarkRead(t, Receipt(id, reader))
    case _ =>
      match InsertMessages(t, [RowOf(e)])
      case Err => Err
      case Ok(stored) => Ok(stored.(ciphertexts := stored.ciphertexts + CiphertextsOf(e)))
  }

  function Keep(t: Tables, r: Result<Tables>): Tables {
    if r.Ok? then r.value else t
  }

  /** The reference: events one at a time in stream order, a failing event dropped. */
  function Fold(t: Tables, es: seq<DatabaseEvent>): Tables {
    if es == [] then t
    else
      var before := Fold(t, es[..|es| - 1]);
      Keep(before, Apply(before, es[|es| - 1]))
  }

  /** A run of batches; a failing batch is dropped as a whole. */
  function Batches(t: Tables, bs: seq<seq<DatabaseEvent>>): Tables {
    if bs == [] then t
    else
      var before := Batches(t, bs[..|bs| - 1]);
      Keep(before, Batch(before, bs[|bs| - 1]))
  }

  function Concat(bs: seq<seq<DatabaseEvent>>): seq<DatabaseEvent> {
    if bs == [] then [] else Concat(bs[..|bs| - 1]) + bs[|bs| - 1]
  }

  // ----- Which event a stored row comes from --------------------------------------------------

  /** Position of the first event of the picked kind that introduces `id`, or `|es|`. */
  function First(es: seq<DatabaseEvent>, pick: Pick, id: MessageId): (k: nat)
    ensures k <= |es|
    ensures k < |es| ==> Introduces(pick, es[k], id)
    ensures forall j | 0 <= j < k :: !Introduces(pick, es[j], id)
  {
    if es == [] then 0
    else
      var k := First(es[..|es| - 1], pick, id);
      if k < |es| - 1 then k
      else if Introduces(pick, es[|es| - 1], id) then |es| - 1
      else |es|
  }

  lemma InsertSnoc(m: map<MessageId, MessageRow>, rows: seq<NewRow>, last: NewRow)
    ensures var before := InsertIgnore(m, rows);
            InsertIgnore(m, rows + [last]) == if last.id in before then before else before[last.id := last.row]
  {
  }

  lemma NoRows(m: map<MessageId, MessageRow>, es: seq<DatabaseEvent>, pick: Pick)
    requires es == []
    ensures InsertIgnore(m, Rows(es, pick)) == m
  {
  }

  lemma RowsSnoc(es: seq<DatabaseEvent>, pick: Pick)
    requires es != []
    ensures var init, e := es[..|es| - 1], es[|es| - 1];
            Rows(es, pick) == if Picks(pick, e) then Rows(init, pick) + [RowOf(e)] else Rows(init, pick)
  {
  }

  lemma {:induction false} InsertedRow(m: map<MessageId, MessageRow>, es: seq<DatabaseEvent>, pick: Pick, id: MessageId)
    ensures var after := InsertIgnore(m, Rows(es, pick));
            var k := First(es, pick, id);
            && (id in after <==> id in m || k < |es|)
            && (id in m ==> after[id] == m[id])
            && (id !in m && k < |es| ==> after[id] == RowOf(es[k]).row)
  {
    hide InsertIgnore, Rows, RowOf;
    if es == [] {
      NoRows(m, es, pick);
    } else {
      var init, e := es[..|es| - 1], es[|es| - 1];
      InsertedRow(m, init, pick, id);
      RowsSnoc(es, pick);
      if Picks(pick, e) { InsertSnoc(m, Rows(init, pick), RowOf(e)); }
    }
  }

  lemma FirstOfPrefix(es: seq<DatabaseEvent>, pick: Pick, id: MessageId, n: nat)
    requires n <= |es|
    ensures First(es[..n], pick, id) == if First(es, pick, id) < n then First(es, pick, id) else n
  {
  }

  // ----- One event at a time ------------------------------------------------------------------

  predicate AllKnown(users: set<User>, es: seq<DatabaseEvent>) {
    forall k | 0 <= k < |es| :: Mentions(es[k]) <= users
  }

  lemma ApplyKnown(t: Tables, e: DatabaseEvent)
    requires Valid(t) && Mentions(e) <= t.users
    ensures Apply(t, e).Ok? && Valid(Apply(t, e).value) && Apply(t, e).value.users == t.users
    ensures Apply(t, e).value.messages
            == InsertIgnore(t.messages, if Picks(AnyKind, e) then [RowOf(e)] else [])
    ensures Apply(t, e).value.ciphertexts == t.ciphertexts + CiphertextsOf(e)
    ensures Apply(t, e).value.readAt == t.readAt
  {
    if Picks(AnyKind, e) {
      InsertSnoc(t.messages, [], RowOf(e));
      assert [] + [RowOf(e)] == [RowOf(e)];
    }
  }

  lemma {:induction false} FoldKnown(t: Tables, es: seq<DatabaseEvent>)
    requires Valid(t) && AllKnown(t.users, es)
    ensures Valid(Fold(t, es)) && Fold(t, es).users == t.users && Fold(t, es).readAt == t.readAt
    ensures Fold(t, es).messages == InsertIgnore(t.messages, Rows(es, AnyKind))
    ensures Fold(t, es).ciphertexts == t.ciphertexts + Ciphertexts(es)
  {
    if es != [] {
      var init, e := es[..|es| - 1], es[|es| - 1];
      FoldKnown(t, init);
      var before := Fold(t, init);
      ApplyKnown(before, e);
      if Picks(AnyKind, e) {
        InsertSnoc(before.messages, [], RowOf(e));
        InsertSnoc(t.messages, Rows(init, AnyKind), RowOf(e));
        assert [] + [RowOf(e)] == [RowOf(e)];
      } else {
        assert Rows(es, AnyKind) == Rows(init, AnyKind);
      }
    }
  }

  // ----- Which receipt a read state comes from --------------------------------------------------

  predicate Hits(messages: map<MessageId, MessageRow>, e: DatabaseEvent, key: ReadKey) {
    e.ReadEvent? && e.messageId in messages && (e.reader, messages[e.messageId].sender) == key
  }

  /** Position of the last of the first `n` events that hits `key`, or -1. */
  function Last(messages: map<MessageId, MessageRow>, es: seq<DatabaseEvent>, n: nat, key: ReadKey): (k: int)
    requires n <= |es|
    ensures -1 <= k < n
    ensures k >= 0 ==> Hits(messages, es[k], key)
    ensures forall j: nat | k < j < n :: !Hits(messages, es[j], key)
  {
    if n == 0 then -1
    else if Hits(messages, es[n - 1], key) then n - 1
    else Last(messages, es, n - 1, key)
  }

  /** `key` is what the event at position `k` wrote, or as before when `k` is -1. */
  ghost predicate SetBy(before: map<ReadKey, MessageId>, after: map<ReadKey, MessageId>, es: seq<DatabaseEvent>,
                        k: int, key: ReadKey)
    requires -1 <= k < |es| && (k >= 0 ==> es[k].ReadEvent?)
  {
    if k >= 0 then key in after && after[key] == es[k].messageId
    else (key in after <==> key in before) && (key in before ==> after[key] == before[key])
  }

  // ----- The grouped form ------------------------------------------------------------------------

  lemma {:induction false} MarkAllRead(t: Tables, es: seq<DatabaseEvent>, n: nat, key: ReadKey)
    requires n <= |es| && MarkAll(t, Receipts(es[..n])).Ok?
    ensures var after := MarkAll(t, Receipts(es[..n])).value;
            && after == t.(readStates := after.readStates)
            && SetBy(t.readStates, after.readStates, es, Last(t.messages, es, n, key), key)
  {
    if n > 0 {
      var init, e := es[..n - 1], es[n - 1];
      assert es[..n][..n - 1] == init;
      if e.ReadEvent? {
        var rs := Receipts(es[..n]);
        assert rs[..|rs| - 1] == Receipts(init);
      } else {
        assert Receipts(es[..n]) == Receipts(init);
      }
      MarkAllRead(t, es, n - 1, key);
    }
  }

  /** The messages table after the two message statements of a batch. */
  function Stored(m: map<MessageId, MessageRow>, es: seq<DatabaseEvent>): map<MessageId, MessageRow> {
    InsertIgnore(InsertIgnore(m, Rows(es, PlainKind)), Rows(es, EncryptedKind))
  }

  /** The event whose row a batch keeps for `id`: the first plain one if there is any. */
  function Winner(es: seq<DatabaseEvent>, id: MessageId): (k: nat)
    ensures k <= |es|
    ensures k < |es| <==> First(es, AnyKind, id) < |es|
    ensures k < |es| ==> Introduces(AnyKind, es[k], id)
  {
    var k := First(es, PlainKind, id);
    if k < |es| then k else First(es, EncryptedKind, id)
  }

  lemma StoredRow(m: map<MessageId, MessageRow>, es: seq<DatabaseEvent>, id: MessageId)
    ensures (id in Stored(m, es) <==> id in m || Winner(es, id) < |es|)
    ensures id in m ==> Stored(m, es)[id] == m[id]
    ensures id !in m && Winner(es, id) < |es| ==> Stored(m, es)[id] == RowOf(es[Winner(es, id)]).row
  {
    InsertedRow(m, es, PlainKind, id);
    InsertedRow(InsertIgnore(m, Rows(es, PlainKind)), es, EncryptedKind, id);
  }

  lemma MarkReadValid(t: Tables, r: Receipt)
    requires Valid(t)
    ensures MarkRead(t, r).Ok? <==> r.messageId !in t.messages || r.reader in t.users
    ensures MarkRead(t, r).Ok? ==>
            Valid(MarkRead(t, r).value) && MarkRead(t, r).value == t.(readStates := MarkRead(t, r).value.readStates)
  {
  }

  lemma ReceiptsSnoc(es: seq<DatabaseEvent>, n: nat)
    requires 0 < n <= |es|
    ensures var rs, e := Receipts(es[..n - 1]), es[n - 1];
            Receipts(es[..n]) == if e.ReadEvent? then rs + [Receipt(e.messageId, e.reader)] else rs
  {
    assert es[..n][..n - 1] == es[..n - 1];
  }

  lemma {:induction false} MarkAllValid(t: Tables, es: seq<DatabaseEvent>, n: nat)
    requires Valid(t) && n <= |es|
    ensures MarkAll(t, Receipts(es[..n])).Ok? <==>
            forall k | 0 <= k < n && es[k].ReadEvent? && es[k].messageId in t.messages :: es[k].reader in t.users
    ensures MarkAll(t, Receipts(es[..n])).Ok? ==>
            var after := MarkAll(t, Receipts(es[..n])).value;
            Valid(after) && after == t.(readStates := after.readStates)
  {
    hide Valid, MarkRead, Receipts;
    if n == 0 {
      NoReceipts(es);
    } else {
      var rs, e := Receipts(es[..n - 1]), es[n - 1];
      MarkAllValid(t, es, n - 1);
      ReceiptsSnoc(es, n);
      if e.ReadEvent? {
        assert (rs + [Receipt(e.messageId, e.reader)])[..|rs|] == rs;
        if MarkAll(t, rs).Ok? { MarkReadValid(MarkAll(t, rs).value, Receipt(e.messageId, e.reader)); }
      }
    }
  }

  lemma NoReceipts(es: seq<DatabaseEvent>)
    ensures Receipts(es[..0]) == []
  {
  }

  predicate RowKnown(users: set<User>, row: MessageRow) {
    row.sender in users && row.recipient in users
  }

  /** Every row the batch would add names known users. */
  ghost predicate RowsKnown(t: Tables, es: seq<DatabaseEvent>) {
    forall id | id !in t.messages && Winner(es, id) < |es| :: RowKnown(t.users, RowOf(es[Winner(es, id)]).row)
  }

  /** Every receipt for a message that is stored when the receipts run names a known reader. */
  ghost predicate ReadersKnown(t: Tables, es: seq<DatabaseEvent>) {
    forall k | 0 <= k < |es| && es[k].ReadEvent?
      && (es[k].messageId in t.messages || First(es, AnyKind, es[k].messageId) < |es|) :: es[k].reader in t.users
  }

  lemma StatementsHoldIff(t: Tables, es: seq<DatabaseEvent>)
    ensures var plain := InsertIgnore(t.messages, Rows(es, PlainKind));
            ForeignKeysHold(t.users, t.messages, plain) && ForeignKeysHold(t.users, plain, Stored(t.messages, es))
            <==> RowsKnown(t, es)
  {
    var plain, stored := InsertIgnore(t.messages, Rows(es, PlainKind)), Stored(t.messages, es);
    forall id ensures
      && (id in plain <==> id in t.messages || First(es, PlainKind, id) < |es|)
      && (id in plain && id !in t.messages ==> plain[id] == RowOf(es[First(es, PlainKind, id)]).row)
      && (id in stored <==> id in t.messages || Winner(es, id) < |es|)
      && (id in stored && id !in t.messages ==> stored[id] == RowOf(es[Winner(es, id)]).row)
    {
      InsertedRow(t.messages, es, PlainKind, id);
      StoredRow(t.messages, es, id);
    }
    if RowsKnown(t, es) {
    } else {
      var id :| id !in t.messages && Winner(es, id) < |es| && !RowKnown(t.users, RowOf(es[Winner(es, id)]).row);
      assert id in stored;
    }
  }

  lemma StoredValid(t: Tables, es: seq<DatabaseEvent>)
    requires Valid(t) && RowsKnown(t, es)
    ensures Valid(t.(messages := Stored(t.messages, es), ciphertexts := t.ciphertexts + Ciphertexts(es)))
    ensures forall id :: id in Stored(t.messages, es) <==> id in t.messages || First(es, AnyKind, id) < |es|
  {
    forall id ensures
      && (id in Stored(t.messages, es) <==> id in t.messages || First(es, AnyKind, id) < |es|)
      && (id in t.messages ==> Stored(t.messages, es)[id] == t.messages[id])
      && (id in Stored(t.messages, es) ==> RowKnown(t.users, Stored(t.messages, es)[id]))
    {
      StoredRow(t.messages, es, id);
    }
  }

  /** A batch fails as a whole exactly when one of the rows it would add names an unknown
      user; otherwise it keeps the tables valid. */
  lemma BatchFailsIff(t: Tables, es: seq<DatabaseEvent>)
    requires Valid(t)
    ensures Batch(t, es).Ok? <==> RowsKnown(t, es) && ReadersKnown(t, es)
    ensures Batch(t, es).Ok? ==>
            var after := Batch(t, es).value;
            && Valid(after)
            && after == t.(messages := Stored(t.messages, es), ciphertexts := t.ciphertexts + Ciphertexts(es),
                           readStates := after.readStates)
  {
    hide InsertIgnore, Rows, Receipts, MarkAll, First, Winner, RowsKnown, ForeignKeysHold, Ciphertexts;
    StatementsHoldIff(t, es);
    if RowsKnown(t, es) {
      StoredValid(t, es);
      MarkAllValid(t.(messages := Stored(t.messages, es), ciphertexts := t.ciphertexts + Ciphertexts(es)), es, |es|);
      assert es[..|es|] == es;
    }
  }

  // ----- What a batch leaves ------------------------------------------------------------------------

  lemma KnownInsertable(t: Tables, es: seq<DatabaseEvent>)
    requires AllKnown(t.users, es)
    ensures RowsKnown(t, es) && ReadersKnown(t, es)
  {
  }

  /** A batch that succeeds applies its receipts to the messages it has stored. */
  lemma BatchReceipts(t: Tables, es: seq<DatabaseEvent>)
    requires Batch(t, es).Ok?
    ensures Batch(t, es)
            == MarkAll(t.(messages := Stored(t.messages, es), ciphertexts := t.ciphertexts + Ciphertexts(es)),
                       Receipts(es))
  {
    hide Rows, Receipts, InsertIgnore, MarkAll, Ciphertexts;
  }

  lemma BatchRead(t: Tables, es: seq<DatabaseEvent>, key: ReadKey)
    requires Valid(t) && Batch(t, es).Ok?
    ensures SetBy(t.readStates, Batch(t, es).value.readStates, es,
            Last(Stored(t.messages, es), es, |es|, key), key)
  {
    hide Batch, Valid, Stored, MarkAll, Receipts, Ciphertexts, Last;
    var t1 := t.(messages := Stored(t.messages, es), ciphertexts := t.ciphertexts + Ciphertexts(es));
    BatchReceipts(t, es);
    assert es[..|es|] == es;
    MarkAllRead(t1, es, |es|, key);
  }

  ghost predicate SameAt(b: map<ReadKey, MessageId>, f: map<ReadKey, MessageId>, key: ReadKey) {
    (key in b <==> key in f) && (key in b ==> b[key] == f[key])
  }

  /** The last receipt of the list for `key` says what is there already. */
  predicate SaysTheSame(d: Tables, es: seq<DatabaseEvent>, key: ReadKey) {
    var k := Last(d.messages, es, |es|, key);
    k >= 0 ==> key in d.readStates && d.readStates[key] == es[k].messageId
  }

  lemma SameEverywhere(b: map<ReadKey, MessageId>, f: map<ReadKey, MessageId>)
    ensures b == f <==> forall key :: SameAt(b, f, key)
  {
    if forall key :: SameAt(b, f, key) {
      assert forall key | key in b :: SameAt(b, f, key);
      assert forall key | key in f :: SameAt(b, f, key);
    }
  }
}
