/** What follows from the meaning of one batch: batch boundaries do not matter on well-ordered
    lists, a replayed batch only repeats its ciphertext rows, and every stored row has an origin. */
module Batching {
  import opened Models
  import opened History
  import opened Grouping

  // ----- Batch boundaries -------------------------------------------------------------------------

  /** A receipt that comes when its message is already stored or introduced. */
  predicate Timely(t: Tables, es: seq<DatabaseEvent>, k: nat)
    requires k < |es| && es[k].ReadEvent?
  {
    es[k].messageId in t.messages || First(es, AnyKind, es[k].messageId) < k
  }

  /** No id is used by both a plain and an encrypted message, and every receipt for a message
      that the list introduces is timely. */
  predicate WellOrdered(t: Tables, es: seq<DatabaseEvent>) {
    && (forall j, k | 0 <= j < |es| && 0 <= k < |es| && es[j].NewMessage?
       && es[k].NewEncryptedMessage? :: es[j].id != es[k].id)
    && (forall k | 0 <= k < |es| && es[k].ReadEvent? && First(es, AnyKind, es[k].messageId) < |es| :: Timely(t, es, k))
  }

  lemma {:induction false} FoldAppend(t: Tables, a: seq<DatabaseEvent>, b: seq<DatabaseEvent>)
    ensures Fold(t, a + b) == Fold(Fold(t, a), b)
  {
    hide Apply, Keep;
    if b == [] {
      assert a + b == a;
    } else {
      FoldAppend(t, a, b[..|b| - 1]);
      assert (a + b)[..|a + b| - 1] == a + b[..|b| - 1];
    }
  }

  lemma {:induction false} FirstOfAppend(a: seq<DatabaseEvent>, b: seq<DatabaseEvent>, pick: Pick, id: MessageId)
    ensures First(a + b, pick, id) == if First(a, pick, id) < |a| then First(a, pick, id) else |a| + First(b, pick, id)
  {
    if b == [] {
      assert a + b == a;
    } else {
      FirstOfAppend(a, b[..|b| - 1], pick, id);
      assert (a + b)[..|a + b| - 1] == a + b[..|b| - 1];
    }
  }

  /** A well-ordered list splits into two well-ordered parts. */
  lemma WellOrderedSplit(t: Tables, a: seq<DatabaseEvent>, b: seq<DatabaseEvent>)
    requires Valid(t) && AllKnown(t.users, a) && WellOrdered(t, a + b)
    ensures WellOrdered(t, a) && WellOrdered(Fold(t, a), b)
  {
    hide First, Fold, Valid;
    var es, m := a + b, Fold(t, a).messages;
    forall k | 0 <= k < |a| && a[k].ReadEvent? && First(a, AnyKind, a[k].messageId) < |a| ensures Timely(t, a, k) {
      FirstOfAppend(a, b, AnyKind, a[k].messageId);
      assert Timely(t, es, k) by { assert es[k] == a[k]; }
    }
    forall k | 0 <= k < |b| && b[k].ReadEvent? && First(b, AnyKind, b[k].messageId) < |b|
      ensures Timely(Fold(t, a), b, k) {
      FirstOfAppend(a, b, AnyKind, b[k].messageId);
      assert Timely(t, es, |a| + k) by { assert es[|a| + k] == b[k]; }
      FoldMessage(t, a, |a|, b[k].messageId);
      AllKnownFirst(t, a, b[k].messageId);
      assert a[..|a|] == a;
    }
    forall j, k | 0 <= j < |a| && 0 <= k < |a| && a[j].NewMessage? && a[k].NewEncryptedMessage?
      ensures a[j].id != a[k].id {
      assert es[j] == a[j] && es[k] == a[k];
    }
    forall j, k | 0 <= j < |b| && 0 <= k < |b| && b[j].NewMessage? && b[k].NewEncryptedMessage?
      ensures b[j].id != b[k].id {
      assert es[|a| + j] == b[j] && es[|a| + k] == b[k];
    }
  }

  lemma FirstKinds(es: seq<DatabaseEvent>, id: MessageId)
    ensures var c, p, a := First(es, EncryptedKind, id), First(es, PlainKind, id), First(es, AnyKind, id);
            && (c < |es| ==> es[c].NewEncryptedMessage? && es[c].id == id)
            && (p < |es| ==> es[p].NewMessage? && es[p].id == id)
            && a == if p < c then p else c
  {
  }

  /** When all users exist, the first event with an id is the first known one. */
  lemma AllKnownFirst(t: Tables, es: seq<DatabaseEvent>, id: MessageId)
    requires AllKnown(t.users, es)
    ensures FirstKnown(t, es, id) == First(es, AnyKind, id)
  {
  }

  lemma NothingUnheard(t: Tables, es: seq<DatabaseEvent>)
    requires AllKnown(t.users, es)
    ensures NothingDeaf(t, es)
  {
    hide First;
    forall k | 0 <= k < |es| && Picks(AnyKind, es[k]) ensures Heard(t, es, k) {
      assert Introduces(KnownKind(t.users), es[k], RowOf(es[k]).id);
    }
  }

  lemma SameRowInOrder(t: Tables, es: seq<DatabaseEvent>, id: MessageId)
    requires AllKnown(t.users, es) && WellOrdered(t, es)
    ensures SameRowFor(t, es, id)
  {
    hide First, AllKnown;
    FirstKinds(es, id);
    AllKnownFirst(t, es, id);
  }

  lemma CoveredInOrder(t: Tables, es: seq<DatabaseEvent>)
    requires AllKnown(t.users, es) && WellOrdered(t, es)
    ensures EarlyCovered(t, Stored(t.messages, es), es)
  {
    hide First, AllKnown, Stored, Winner;
    forall k | 0 <= k < |es| && es[k].ReadEvent? && es[k].messageId in Stored(t.messages, es) ensures InTime(t, es, k) {
      StoredRow(t.messages, es, es[k].messageId);
      WinnerIffFirst(es, es[k].messageId);
      AllKnownFirst(t, es, es[k].messageId);
    }
  }

  lemma WinnerIffFirst(es: seq<DatabaseEvent>, id: MessageId)
    ensures Winner(es, id) < |es| <==> First(es, AnyKind, id) < |es|
  {
  }

  /** On well-ordered lists with known users the grouped form is the same as one at a time. */
  lemma WellOrderedAgrees(t: Tables, es: seq<DatabaseEvent>)
    requires Valid(t) && AllKnown(t.users, es) && WellOrdered(t, es)
    ensures Batch(t, es) == Ok(Fold(t, es))
  {
    hide Batch, Fold, First, Valid, Stored, NothingDeaf, EarlyCovered, AllKnown, WellOrdered;
    KnownInsertable(t, es);
    BatchFailsIff(t, es);
    SuccessAgreesIff(t, es);
    NothingUnheard(t, es);
    CoveredInOrder(t, es);
    forall k | 0 <= k < |es| && Picks(AnyKind, es[k]) ensures SameRowFor(t, es, RowOf(es[k]).id) {
      SameRowInOrder(t, es, RowOf(es[k]).id);
    }
  }

  /** The grouped form differs where an encrypted event comes before a plain one with its id:
      the batch keeps the plain row, one at a time keeps the encrypted one. */
  lemma ShadowingDiffers(t: Tables, user: User, id: MessageId) returns (es: seq<DatabaseEvent>)
    requires Valid(t) && user in t.users && id !in t.messages
    ensures AllKnown(t.users, es) && Batch(t, es).Ok? && Batch(t, es).value != Fold(t, es)
  {
    hide Batch, Fold, Valid, First, Winner, Stored, NothingDeaf, EarlyCovered;
    es := [NewEncryptedMessage(id, user, user, []), NewMessage(id, user, user, "text", None, None, None, None)];
    KnownInsertable(t, es);
    BatchFailsIff(t, es);
    SuccessAgreesIff(t, es);
    TwoForms(t, es, id);
    assert Picks(AnyKind, es[0]) && RowOf(es[0]).id == id && !SameRowFor(t, es, id);
  }

  lemma TwoForms(t: Tables, es: seq<DatabaseEvent>, id: MessageId)
    requires |es| == 2 && Introduces(EncryptedKind, es[0], id) && Introduces(PlainKind, es[1], id)
             && AllKnown(t.users, es)
    ensures FirstKnown(t, es, id) == 0 && Winner(es, id) == 1
  {
    assert Introduces(KnownKind(t.users), es[0], id) && !Introduces(PlainKind, es[0], id);
  }

  /** It also differs where a receipt comes before its message: the batch applies it, one at a time
      drops it. */
  lemma EarlyReceiptDiffers(t: Tables, user: User, id: MessageId) returns (es: seq<DatabaseEvent>)
    requires Valid(t) && user in t.users && id !in t.messages
    ensures AllKnown(t.users, es) && Batch(t, es).Ok? && Batch(t, es).value != Fold(t, es)
  {
    hide Batch, Fold, Valid, Stored;
    es := [ReadEvent(id, user), NewMessage(id, user, user, "text", None, None, None, None)];
    KnownInsertable(t, es);
    BatchFailsIff(t, es);
    SuccessAgreesIff(t, es);
    var m := Stored(t.messages, es);
    assert Introduces(AnyKind, es[1], id) && !Introduces(KnownKind(t.users), es[0], id);
    StoredRow(t.messages, es, id);
    assert id in m && es[0].ReadEvent? && !InTime(t, es, 0);
    assert !CoversIn(t, m, es, 0, 1);
  }

  lemma KnownSplit(users: set<User>, a: seq<DatabaseEvent>, b: seq<DatabaseEvent>)
    requires AllKnown(users, a + b)
    ensures AllKnown(users, a) && AllKnown(users, b)
  {
    forall k | 0 <= k < |a| ensures Mentions(a[k]) <= users {
      assert (a + b)[k] == a[k];
    }
    forall k | 0 <= k < |b| ensures Mentions(b[k]) <= users {
      assert (a + b)[|a| + k] == b[k];
    }
  }

  /** MAIN RESULT. However a well-ordered event list is cut into batches, the tables end up as if
      the events had been handled one at a time, and as if they had been one batch. */
  lemma {:induction false} BoundariesDoNotMatter(t: Tables, bs: seq<seq<DatabaseEvent>>)
    requires Valid(t) && AllKnown(t.users, Concat(bs)) && WellOrdered(t, Concat(bs))
    ensures Batches(t, bs) == Fold(t, Concat(bs))
    ensures Batch(t, Concat(bs)) == Ok(Batches(t, bs))
  {
    WellOrderedAgrees(t, Concat(bs));
    if bs != [] {
      var init, b := bs[..|bs| - 1], bs[|bs| - 1];
      var a := Concat(init);
      KnownSplit(t.users, a, b);
      WellOrderedSplit(t, a, b);
      BoundariesDoNotMatter(t, init);
      FoldKnown(t, a);
      WellOrderedAgrees(Fold(t, a), b);
      FoldAppend(t, a, b);
    }
  }

  // ----- Replay -------------------------------------------------------------------------------------

  /** Other ciphertexts and other read times, which no batch looks at. */
  function Besides(t: Tables, c: multiset<CiphertextRow>, readAt: set<MessageId>): Tables {
    t.(ciphertexts := c, readAt := readAt)
  }

  lemma {:induction false} MarkAllBesides(t: Tables, rs: seq<Receipt>, c: multiset<CiphertextRow>,
                                          readAt: set<MessageId>)
    ensures MarkAll(Besides(t, c, readAt), rs)
            == match MarkAll(t, rs) case Err => Err case Ok(d) => Ok(Besides(d, c, readAt))
    ensures MarkAll(t, rs).Ok? ==> MarkAll(t, rs).value.ciphertexts == t.ciphertexts
  {
    if rs != [] {
      MarkAllBesides(t, rs[..|rs| - 1], c, readAt);
    }
  }

  /** A batch reads neither ciphertext rows nor read times, and loses none. */
  lemma BatchBesides(t: Tables, es: seq<DatabaseEvent>, c: multiset<CiphertextRow>, readAt: set<MessageId>)
    ensures Batch(Besides(t, c, readAt), es)
            == match Batch(t, es) case Err => Err case Ok(d) => Ok(Besides(d, c + Ciphertexts(es), readAt))
  {
    hide Rows, Receipts, InsertIgnore, MarkAll, MarkRead, Ciphertexts;
    var stored := t.(messages := Stored(t.messages, es));
    MarkAllBesides(stored.(ciphertexts := t.ciphertexts + Ciphertexts(es)), Receipts(es), c + Ciphertexts(es), readAt);
  }

  lemma EmptyBatch(t: Tables)
    ensures Batch(t, []) == Ok(t)
  {
    assert t.ciphertexts + multiset{} == t.ciphertexts;
  }

  /** Whether a batch fails, and the messages it leaves, depend on users and messages alone. */
  lemma BatchByMessages(t: Tables, u: Tables, es: seq<DatabaseEvent>)
    requires Valid(t) && Valid(u) && t.users == u.users && t.messages == u.messages
    ensures Batch(t, es).Ok? <==> Batch(u, es).Ok?
    ensures Keep(t, Batch(t, es)).messages == Keep(u, Batch(u, es)).messages
    ensures Valid(Keep(t, Batch(t, es))) && Keep(t, Batch(t, es)).users == t.users
    ensures Batch(t, es).Ok? ==> Batch(t, es).value.ciphertexts == t.ciphertexts + Ciphertexts(es)
  {
    hide Batch, Valid, Stored, First, Winner;
    BatchFailsIff(t, es);
    BatchFailsIff(u, es);
  }

  lemma StoredAgain(m: map<MessageId, MessageRow>, es: seq<DatabaseEvent>)
    ensures Stored(Stored(m, es), es) == Stored(m, es)
    ensures forall id | id !in Stored(m, es) :: Winner(es, id) == |es|
  {
    var s := Stored(m, es);
    forall id ensures
      && (id in Stored(s, es) <==> id in s) && (id in s ==> Stored(s, es)[id] == s[id])
      && (id !in s ==> Winner(es, id) == |es|)
    {
      StoredRow(m, es, id);
      StoredRow(s, es, id);
    }
  }

  /** The last receipts of the list all say what is there already. */
  ghost predicate Undisturbed(d: Tables, es: seq<DatabaseEvent>) {
    forall key :: SaysTheSame(d, es, key)
  }

  lemma CommittedUndisturbed(t: Tables, es: seq<DatabaseEvent>)
    requires Valid(t) && Batch(t, es).Ok?
    ensures Undisturbed(Batch(t, es).value, es)
  {
    hide Batch, Valid;
    BatchFailsIff(t, es);
    var d := Batch(t, es).value;
    forall key ensures SaysTheSame(d, es, key) {
      BatchRead(t, es, key);
    }
  }

  /** A batch can be committed again on any later tables with the messages it left. */
  lemma ReplaySucceeds(t: Tables, d: Tables, es: seq<DatabaseEvent>)
    requires Valid(t) && Batch(t, es).Ok? && Valid(d) && d.users == t.users && d.messages == Batch(t, es).value.messages
    ensures Batch(d, es).Ok? && Stored(d.messages, es) == d.messages
  {
    hide Batch, Valid, Stored;
    BatchFailsIff(t, es);
    StoredAgain(t.messages, es);
    assert ReadersKnown(d, es) by {
      forall k | 0 <= k < |es| && es[k].ReadEvent?
        && (es[k].messageId in d.messages || First(es, AnyKind, es[k].messageId) < |es|)
        ensures es[k].reader in d.users
      {
        StoredRow(t.messages, es, es[k].messageId);
      }
    }
    BatchFailsIff(d, es);
  }

  /** MAIN RESULT. Committing a batch again, on any later tables with the messages it left, changes no
      message and repeats the batch's ciphertext rows; a read state stays as it is exactly when the
      batch's last receipt for it says what is there. */
  lemma Replay(t: Tables, d: Tables, es: seq<DatabaseEvent>)
    requires Valid(t) && Batch(t, es).Ok? && Valid(d) && d.users == t.users && d.messages == Batch(t, es).value.messages
    ensures Batch(d, es).Ok?
    ensures var after := Batch(d, es).value;
            && after == d.(ciphertexts := d.ciphertexts + Ciphertexts(es), readStates := after.readStates)
            && (forall key :: SameAt(after.readStates, d.readStates, key) <==> SaysTheSame(d, es, key))
            && (after.readStates == d.readStates <==> Undisturbed(d, es))
  {
    hide Batch, Valid, Stored, Last, SameAt, SaysTheSame;
    ReplaySucceeds(t, d, es);
    BatchFailsIff(d, es);
    var after := Batch(d, es).value.readStates;
    forall key ensures SameAt(after, d.readStates, key) <==> SaysTheSame(d, es, key) {
      ReplayedRead(d, es, key);
    }
    SameEverywhere(after, d.readStates);
  }

  lemma ReplayedRead(d: Tables, es: seq<DatabaseEvent>, key: ReadKey)
    requires Valid(d) && Batch(d, es).Ok? && Stored(d.messages, es) == d.messages
    ensures SameAt(Batch(d, es).value.readStates, d.readStates, key) <==> SaysTheSame(d, es, key)
  {
    hide Batch, Valid, Stored;
    BatchRead(d, es, key);
  }

  // ----- Origins ------------------------------------------------------------------------------------

  /** Batch `b` stored `id`: it succeeded, and no earlier successful batch had introduced `id`. */
  ghost predicate StoredBy(t: Tables, bs: seq<seq<DatabaseEvent>>, b: nat, id: MessageId)
    requires b < |bs|
  {
    && Winner(bs[b], id) < |bs[b]|
    && Batch(Batches(t, bs[..b]), bs[b]).Ok?
    && (forall c | 0 <= c < b && Winner(bs[c], id) < |bs[c]| :: Batch(Batches(t, bs[..c]), bs[c]).Err?)
  }

  lemma {:induction false} BatchesValid(t: Tables, bs: seq<seq<DatabaseEvent>>)
    requires Valid(t)
    ensures Valid(Batches(t, bs)) && Batches(t, bs).users == t.users
  {
    if bs != [] {
      BatchesValid(t, bs[..|bs| - 1]);
      BatchFailsIff(Batches(t, bs[..|bs| - 1]), bs[|bs| - 1]);
    }
  }

  lemma BatchStores(t: Tables, es: seq<DatabaseEvent>, id: MessageId)
    requires Valid(t)
    ensures var after := Keep(t, Batch(t, es)).messages;
            && (id in t.messages ==> id in after && after[id] == t.messages[id])
            && (id !in t.messages ==>
                  (id in after <==> Batch(t, es).Ok? && Winner(es, id) < |es|)
                  && (id in after ==> after[id] == RowOf(es[Winner(es, id)]).row))
  {
    BatchFailsIff(t, es);
    StoredRow(t.messages, es, id);
  }

  lemma StoredByExtends(t: Tables, bs: seq<seq<DatabaseEvent>>, last: seq<DatabaseEvent>, b: nat, id: MessageId)
    requires b < |bs|
    ensures StoredBy(t, bs + [last], b, id) <==> StoredBy(t, bs, b, id)
  {
    assert forall c | 0 <= c <= b :: (bs + [last])[..c] == bs[..c] && (bs + [last])[c] == bs[c];
  }

  /** No batch that succeeded introduces `id`. */
  ghost predicate NeverStored(t: Tables, bs: seq<seq<DatabaseEvent>>, id: MessageId) {
    forall c | 0 <= c < |bs| && Winner(bs[c], id) < |bs[c]| :: Batch(Batches(t, bs[..c]), bs[c]).Err?
  }

  lemma NeverStoredExtends(t: Tables, bs: seq<seq<DatabaseEvent>>, last: seq<DatabaseEvent>, id: MessageId)
    requires NeverStored(t, bs, id)
    ensures NeverStored(t, bs + [last], id) <==> Winner(last, id) == |last| || Batch(Batches(t, bs), last).Err?
    ensures StoredBy(t, bs + [last], |bs|, id) <==> Winner(last, id) < |last| && Batch(Batches(t, bs), last).Ok?
  {
    var all := bs + [last];
    assert all[..|bs|] == bs && all[|bs|] == last;
    assert forall c | 0 <= c < |bs| :: all[..c] == bs[..c] && all[c] == bs[c];
  }

  /** MAIN RESULT. Every stored message was stored before or is the row of an event of some batch:
      the winner of the first successful batch that introduces its id. */
  lemma {:induction false} MessageOrigin(t: Tables, bs: seq<seq<DatabaseEvent>>, id: MessageId)
    requires Valid(t) && id !in t.messages
    ensures id in Batches(t, bs).messages ==>
            exists b | 0 <= b < |bs| :: StoredBy(t, bs, b, id)
              && Batches(t, bs).messages[id] == RowOf(bs[b][Winner(bs[b], id)]).row
    ensures id !in Batches(t, bs).messages <==> NeverStored(t, bs, id)
  {
    if bs != [] {
      var init, last := bs[..|bs| - 1], bs[|bs| - 1];
      assert bs == init + [last];
      MessageOrigin(t, init, id);
      BatchesValid(t, init);
      BatchStores(Batches(t, init), last, id);
      if id in Batches(t, init).messages {
        var b :| 0 <= b < |init| && StoredBy(t, init, b, id)
          && Batches(t, init).messages[id] == RowOf(init[b][Winner(init[b], id)]).row;
        StoredByExtends(t, init, last, b, id);
        assert bs[b] == init[b];
      } else {
        NeverStoredExtends(t, init, last, id);
      }
    }
  }
}
