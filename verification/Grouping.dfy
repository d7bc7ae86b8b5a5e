/** The grouped form of a batch against handling its events one at a time, for every list of events:
    users may be unknown, ids shared, receipts early. */
module Grouping {
  import opened Models
  import opened History

  // ----- One event at a time ----------------------------------------------------------------------------

  /** Position of the first event that introduces `id` and whose users exist, or `|es|`. */
  function FirstKnown(t: Tables, es: seq<DatabaseEvent>, id: MessageId): nat {
    First(es, KnownKind(t.users), id)
  }

  /** One at a time, the insert of message event `k` succeeds: its id is stored already or its users exist. */
  predicate Heard(t: Tables, es: seq<DatabaseEvent>, k: nat)
    requires k < |es| && Picks(AnyKind, es[k])
  {
    var id := RowOf(es[k]).id;
    id in t.messages || FirstKnown(t, es, id) <= k
  }

  /** The message of receipt `k` is stored when its turn comes. */
  predicate InTime(t: Tables, es: seq<DatabaseEvent>, k: nat)
    requires k < |es| && es[k].ReadEvent?
  {
    es[k].messageId in t.messages || FirstKnown(t, es, es[k].messageId) < k
  }

  lemma ApplyEvent(t: Tables, e: DatabaseEvent)
    requires Valid(t)
    ensures var after, pick := Keep(t, Apply(t, e)), KnownKind(t.users);
            && Valid(after) && after.users == t.users && after.readAt == t.readAt
            && after.messages == InsertIgnore(t.messages, if Picks(pick, e) then [RowOf(e)] else [])
            && after.ciphertexts
               == t.ciphertexts
                  + (if Picks(AnyKind, e) && (Picks(pick, e) || RowOf(e).id in t.messages) then CiphertextsOf(e)
                    else multiset{})
  {
    hide Valid, Apply;
    if Picks(KnownKind(t.users), e) {
      ApplyKnown(t, e);
    } else if Picks(AnyKind, e) {
      UnknownMessage(t, e);
    } else {
      AnyReceipt(t, e);
    }
  }

  /** An insert that names an unknown user fails unless its id is stored already. */
  lemma UnknownMessage(t: Tables, e: DatabaseEvent)
    requires Picks(AnyKind, e) && !Picks(KnownKind(t.users), e)
    ensures Keep(t, Apply(t, e))
            == if RowOf(e).id in t.messages then t.(ciphertexts := t.ciphertexts + CiphertextsOf(e)) else t
    ensures InsertIgnore(t.messages, []) == t.messages
    ensures Valid(t) ==> Valid(t.(ciphertexts := t.ciphertexts + CiphertextsOf(e)))
    ensures t.ciphertexts + multiset{} == t.ciphertexts
  {
    InsertSnoc(t.messages, [], RowOf(e));
    assert [] + [RowOf(e)] == [RowOf(e)];
  }

  lemma AnyReceipt(t: Tables, e: DatabaseEvent)
    requires Valid(t) && e.ReadEvent?
    ensures var after := Keep(t, Apply(t, e));
            Valid(after) && after == t.(readStates := after.readStates)
    ensures InsertIgnore(t.messages, []) == t.messages && t.ciphertexts + multiset{} == t.ciphertexts
  {
    MarkReadValid(t, Receipt(e.messageId, e.reader));
  }

  lemma {:induction false} FoldRows(t: Tables, es: seq<DatabaseEvent>)
    requires Valid(t)
    ensures Valid(Fold(t, es)) && Fold(t, es).users == t.users && Fold(t, es).readAt == t.readAt
    ensures Fold(t, es).messages == InsertIgnore(t.messages, Rows(es, KnownKind(t.users)))
  {
    hide Valid, Apply;
    if es != [] {
      var init, e, pick := es[..|es| - 1], es[|es| - 1], KnownKind(t.users);
      FoldRows(t, init);
      var before := Fold(t, init);
      ApplyEvent(before, e);
      RowsSnoc(es, pick);
      if Picks(pick, e) {
        InsertSnoc(before.messages, [], RowOf(e));
        InsertSnoc(t.messages, Rows(init, pick), RowOf(e));
        assert [] + [RowOf(e)] == [RowOf(e)];
      }
    }
  }

  lemma FoldMessage(t: Tables, es: seq<DatabaseEvent>, n: nat, id: MessageId)
    requires Valid(t) && n <= |es|
    ensures var m, k := Fold(t, es[..n]).messages, FirstKnown(t, es, id);
            && (id in m <==> id in t.messages || k < n)
            && (id in t.messages ==> m[id] == t.messages[id])
            && (id !in t.messages && k < n ==> m[id] == RowOf(es[k]).row)
  {
    hide Valid, Fold, First;
    FoldRows(t, es[..n]);
    InsertedRow(t.messages, es[..n], KnownKind(t.users), id);
    FirstOfPrefix(es, KnownKind(t.users), id, n);
  }

  /** The ciphertext rows of the first `n` events whose insert succeeds. */
  function HeardRows(t: Tables, es: seq<DatabaseEvent>, n: nat): multiset<CiphertextRow>
    requires n <= |es|
  {
    if n == 0 then multiset{}
    else
      HeardRows(t, es, n - 1)
      + if Picks(AnyKind, es[n - 1]) && Heard(t, es, n - 1) then CiphertextsOf(es[n - 1]) else multiset{}
  }

  /** An event's users exist, or its id is stored before it, exactly when its insert succeeds. */
  lemma HeardIff(t: Tables, es: seq<DatabaseEvent>, k: nat)
    requires Valid(t) && k < |es| && Picks(AnyKind, es[k])
    ensures Heard(t, es, k) <==> Picks(KnownKind(t.users), es[k]) || RowOf(es[k]).id in Fold(t, es[..k]).messages
  {
    hide Valid, Fold, First;
    var id := RowOf(es[k]).id;
    FoldMessage(t, es, k, id);
    if Picks(KnownKind(t.users), es[k]) { assert Introduces(KnownKind(t.users), es[k], id); }
  }

  lemma {:induction false} FoldCiphertexts(t: Tables, es: seq<DatabaseEvent>, n: nat)
    requires Valid(t) && n <= |es|
    ensures Fold(t, es[..n]).ciphertexts == t.ciphertexts + HeardRows(t, es, n)
  {
    hide Valid, Apply, Heard, InsertIgnore;
    if n > 0 {
      var before, e := Fold(t, es[..n - 1]), es[n - 1];
      FoldCiphertexts(t, es, n - 1);
      assert es[..n][..n - 1] == es[..n - 1];
      FoldRows(t, es[..n - 1]);
      ApplyEvent(before, e);
      if Picks(AnyKind, e) { HeardIff(t, es, n - 1); }
    }
  }

  /** Position of the last of the first `n` events that sets `key` one at a time, or -1. */
  function LastInTime(t: Tables, m: map<MessageId, MessageRow>, es: seq<DatabaseEvent>, n: nat, key: ReadKey): (k: int)
    requires n <= |es|
    ensures -1 <= k < n
    ensures k >= 0 ==> Hits(m, es[k], key) && InTime(t, es, k)
    ensures forall j: nat | k < j < n :: !(Hits(m, es[j], key) && InTime(t, es, j))
  {
    if n == 0 then -1
    else if Hits(m, es[n - 1], key) && InTime(t, es, n - 1) then n - 1
    else LastInTime(t, m, es, n - 1, key)
  }

  lemma ApplyRead(t: Tables, e: DatabaseEvent, key: ReadKey)
    requires Valid(t) && key.0 in t.users
    ensures var after := Keep(t, Apply(t, e)).readStates;
            if Hits(t.messages, e, key) then key in after && after[key] == e.messageId
            else (key in after <==> key in t.readStates) && (key in after ==> after[key] == t.readStates[key])
  {
  }

  lemma HitsInTime(t: Tables, es: seq<DatabaseEvent>, k: nat, key: ReadKey)
    requires Valid(t) && k < |es|
    ensures Hits(Fold(t, es[..k]).messages, es[k], key)
            <==> Hits(Fold(t, es).messages, es[k], key) && InTime(t, es, k)
  {
    hide First, Fold, Valid;
    if es[k].ReadEvent? {
      FoldMessage(t, es, k, es[k].messageId);
      FoldMessage(t, es, |es|, es[k].messageId);
      assert es[..|es|] == es;
    }
  }

  lemma {:induction false} FoldRead(t: Tables, es: seq<DatabaseEvent>, n: nat, key: ReadKey)
    requires Valid(t) && key.0 in t.users && n <= |es|
    ensures SetBy(t.readStates, Fold(t, es[..n]).readStates, es, LastInTime(t, Fold(t, es).messages, es, n, key), key)
  {
    hide First, Rows, InsertIgnore, Valid, Apply, InTime, Hits;
    if n > 0 {
      FoldRead(t, es, n - 1, key);
      var before, e := Fold(t, es[..n - 1]), es[n - 1];
      assert Fold(t, es[..n]) == Keep(before, Apply(before, e)) by {
        assert es[..n][..n - 1] == es[..n - 1];
      }
      FoldRows(t, es[..n - 1]);
      ApplyRead(before, e, key);
      HitsInTime(t, es, n - 1, key);
      if Hits(before.messages, e, key) { HitsAreReceipts(before.messages, e, key); }
    }
  }

  lemma HitsAreReceipts(m: map<MessageId, MessageRow>, e: DatabaseEvent, key: ReadKey)
    requires Hits(m, e, key)
    ensures e.ReadEvent?
  {
  }

  // ----- When the batch succeeds ------------------------------------------------------------------------

  /** The batch and one at a time keep the same row for every new id. */
  predicate SameRows(t: Tables, es: seq<DatabaseEvent>) {
    forall k | 0 <= k < |es| && Picks(AnyKind, es[k]) && RowOf(es[k]).id !in t.messages ::
      SameRowFor(t, es, RowOf(es[k]).id)
  }

  predicate SameRowFor(t: Tables, es: seq<DatabaseEvent>, id: MessageId) {
    var w, f := Winner(es, id), FirstKnown(t, es, id);
    w < |es| && f < |es| ==> RowOf(es[w]).row == RowOf(es[f]).row
  }

  /** No encrypted event whose insert fails has ciphertexts. */
  predicate NothingDeaf(t: Tables, es: seq<DatabaseEvent>) {
    NothingDeafBelow(t, es, |es|)
  }

  predicate NothingDeafBelow(t: Tables, es: seq<DatabaseEvent>, n: nat)
    requires n <= |es|
  {
    forall k | 0 <= k < n && Picks(AnyKind, es[k]) && !Heard(t, es, k) :: CiphertextsOf(es[k]) == multiset{}
  }

  /** A receipt that comes before its message is followed by one in time, by the same reader for a message
      of the same sender. */
  predicate EarlyCovered(t: Tables, m: map<MessageId, MessageRow>, es: seq<DatabaseEvent>) {
    forall k | 0 <= k < |es| && es[k].ReadEvent? && es[k].messageId in m && !InTime(t, es, k) ::
      exists l | k < l < |es| :: CoversIn(t, m, es, k, l)
  }

  predicate CoversIn(t: Tables, m: map<MessageId, MessageRow>, es: seq<DatabaseEvent>, k: nat, l: nat)
    requires k < |es| && es[k].ReadEvent? && es[k].messageId in m && l < |es|
  {
    Hits(m, es[l], (es[k].reader, m[es[k].messageId].sender)) && InTime(t, es, l)
  }

  lemma SameRowsIff(t: Tables, es: seq<DatabaseEvent>)
    requires Valid(t) && RowsKnown(t, es)
    ensures Stored(t.messages, es) == Fold(t, es).messages <==> SameRows(t, es)
  {
    hide Valid, Fold, Stored, First, Winner;
    var s, f := Stored(t.messages, es), Fold(t, es).messages;
    forall id ensures (id in s <==> id in f)
      && (id in s ==> (s[id] == f[id] <==> id in t.messages || SameRowFor(t, es, id)))
      && (id in s && id !in t.messages ==> Winner(es, id) < |es|) {
      RowAt(t, es, id);
    }
    if SameRows(t, es) {
      forall id | id in s ensures s[id] == f[id] {
        if id !in t.messages { IntroducedRow(t, es, id); }
      }
    }
    if s == f {
      forall k | 0 <= k < |es| && Picks(AnyKind, es[k]) && RowOf(es[k]).id !in t.messages
        ensures SameRowFor(t, es, RowOf(es[k]).id)
      {
        var id := RowOf(es[k]).id;
        if Winner(es, id) < |es| {
          StoredRow(t.messages, es, id);
          assert id in s;
        }
      }
    }
  }

  lemma IntroducedRow(t: Tables, es: seq<DatabaseEvent>, id: MessageId)
    requires SameRows(t, es) && id !in t.messages && Winner(es, id) < |es|
    ensures SameRowFor(t, es, id)
  {
    hide Winner, First;
    assert Introduces(AnyKind, es[Winner(es, id)], id);
  }

  lemma RowAt(t: Tables, es: seq<DatabaseEvent>, id: MessageId)
    requires Valid(t) && RowsKnown(t, es)
    ensures var s, f := Stored(t.messages, es), Fold(t, es).messages;
            && (id in s <==> id in f)
            && (id in s ==> (s[id] == f[id] <==> id in t.messages || SameRowFor(t, es, id)))
            && (id in s && id !in t.messages ==> Winner(es, id) < |es|)
  {
    hide Valid, Fold, Stored, First, Winner;
    assert es[..|es|] == es;
    StoredRow(t.messages, es, id);
    FoldMessage(t, es, |es|, id);
    var w, f, pick := Winner(es, id), FirstKnown(t, es, id), KnownKind(t.users);
    if id !in t.messages && w < |es| {
      assert RowKnown(t.users, RowOf(es[w]).row);
      assert Introduces(pick, es[w], id);
    }
    if f < |es| {
      assert Introduces(AnyKind, es[f], id);
      IntroducedWins(es, f, id);
    }
  }

  lemma IntroducedWins(es: seq<DatabaseEvent>, k: nat, id: MessageId)
    requires k < |es| && Introduces(AnyKind, es[k], id)
    ensures Winner(es, id) < |es|
  {
  }

  /** Rows that are not heard make the difference. */
  lemma {:induction false} HeardRowsIff(t: Tables, es: seq<DatabaseEvent>, n: nat)
    requires n <= |es|
    ensures HeardRows(t, es, n) <= Ciphertexts(es[..n])
    ensures HeardRows(t, es, n) == Ciphertexts(es[..n]) <==> NothingDeafBelow(t, es, n)
  {
    hide Heard, Ciphertexts, CiphertextsOf, NothingDeafBelow;
    CiphertextsNext(es, n);
    DeafNext(t, es, n);
    if n > 0 {
      HeardRowsIff(t, es, n - 1);
      var a, b, c := HeardRows(t, es, n - 1), Ciphertexts(es[..n - 1]), CiphertextsOf(es[n - 1]);
      if Picks(AnyKind, es[n - 1]) && !Heard(t, es, n - 1) {
        SumsDiffer(a, b, c);
      } else {
        assert HeardRows(t, es, n) == a + c by { OnlyMessages(es[n - 1]); }
        SumsAgree(a, b, c);
      }
    }
  }

  lemma OnlyMessages(e: DatabaseEvent)
    ensures !Picks(AnyKind, e) ==> CiphertextsOf(e) == multiset{}
  {
  }

  lemma CiphertextsNext(es: seq<DatabaseEvent>, n: nat)
    requires n <= |es|
    ensures Ciphertexts(es[..n]) == if n == 0 then multiset{} else Ciphertexts(es[..n - 1]) + CiphertextsOf(es[n - 1])
  {
    if n > 0 { assert es[..n][..n - 1] == es[..n - 1]; }
  }

  lemma DeafNext(t: Tables, es: seq<DatabaseEvent>, n: nat)
    requires n <= |es|
    ensures NothingDeafBelow(t, es, n)
            <==> n == 0 || (NothingDeafBelow(t, es, n - 1)
                            && (Picks(AnyKind, es[n - 1]) && !Heard(t, es, n - 1)
                               ==> CiphertextsOf(es[n - 1]) == multiset{}))
  {
    hide Heard, CiphertextsOf;
  }

  lemma SumsDiffer(a: multiset<CiphertextRow>, b: multiset<CiphertextRow>, c: multiset<CiphertextRow>)
    requires a <= b
    ensures a + multiset{} <= b + c
    ensures a + multiset{} == b + c <==> a == b && c == multiset{}
  {
    if a + multiset{} == b + c {
      forall x ensures c[x] == 0 && a[x] == b[x] {
        assert (a + multiset{})[x] == (b + c)[x] && a[x] <= b[x];
      }
      assert c == multiset{} && a == b;
    }
  }

  lemma SumsAgree(a: multiset<CiphertextRow>, b: multiset<CiphertextRow>, c: multiset<CiphertextRow>)
    requires a <= b
    ensures a + c <= b + c
    ensures a + c == b + c <==> a == b
  {
    if a + c == b + c {
      forall x ensures a[x] == b[x] { assert (a + c)[x] == (b + c)[x]; }
    }
  }

  /** The last receipt that hits the key is in time. */
  predicate LastHitInTime(t: Tables, m: map<MessageId, MessageRow>, es: seq<DatabaseEvent>, key: ReadKey) {
    var k := Last(m, es, |es|, key);
    k >= 0 ==> InTime(t, es, k)
  }

  lemma EarlyCoveredIff(t: Tables, m: map<MessageId, MessageRow>, es: seq<DatabaseEvent>)
    ensures EarlyCovered(t, m, es) <==> forall key :: LastHitInTime(t, m, es, key)
  {
    hide InTime;
    if EarlyCovered(t, m, es) {
      forall key ensures LastHitInTime(t, m, es, key) {
        var k := Last(m, es, |es|, key);
        if k >= 0 {
          assert Hits(m, es[k], key);
          forall l: nat | k < l < |es| ensures !CoversIn(t, m, es, k, l) {
            assert !Hits(m, es[l], key);
          }
        }
      }
    }
    if forall key :: LastHitInTime(t, m, es, key) {
      forall k | 0 <= k < |es| && es[k].ReadEvent? && es[k].messageId in m && !InTime(t, es, k)
        ensures exists l | k < l < |es| :: CoversIn(t, m, es, k, l)
      {
        var key := (es[k].reader, m[es[k].messageId].sender);
        var l := Last(m, es, |es|, key);
        assert LastHitInTime(t, m, es, key) && Hits(m, es[k], key);
        assert CoversIn(t, m, es, k, l);
      }
    }
  }

  /** With equal messages, one read state agrees exactly when the last receipt that hits it is in time. */
  lemma ReadAt(t: Tables, es: seq<DatabaseEvent>, key: ReadKey)
    requires Valid(t) && Batch(t, es).Ok? && Stored(t.messages, es) == Fold(t, es).messages
    ensures SameAt(Batch(t, es).value.readStates, Fold(t, es).readStates, key)
            <==> LastHitInTime(t, Fold(t, es).messages, es, key)
  {
    hide Batch, Fold, Stored, InTime, Valid;
    var m := Fold(t, es).messages;
    var k, l := Last(m, es, |es|, key), LastInTime(t, m, es, |es|, key);
    BatchFailsIff(t, es);
    FoldRows(t, es);
    BatchRead(t, es, key);
    if key.0 in t.users {
      FoldRead(t, es, |es|, key);
      assert es[..|es|] == es;
      if l >= 0 { assert Hits(m, es[l], key); }
      if k < 0 || InTime(t, es, k) {
        assert k == l;
      } else {
        EarlyDiffers(t, es, k, l, key);
      }
    } else {
      NoReadState(Batch(t, es).value, key);
      NoReadState(Fold(t, es), key);
      NoHit(t, es, key);
    }
  }

  lemma NoHit(t: Tables, es: seq<DatabaseEvent>, key: ReadKey)
    requires ReadersKnown(t, es) && key.0 !in t.users
    ensures Last(Stored(t.messages, es), es, |es|, key) == -1
  {
    hide Stored, ReadersKnown;
    forall k: nat | k < |es| && es[k].ReadEvent? && es[k].messageId in Stored(t.messages, es)
      ensures es[k].reader in t.users
    {
      UnknownReader(t, es, k);
    }
  }

  lemma NoReadState(t: Tables, key: ReadKey)
    requires Valid(t) && key.0 !in t.users
    ensures key !in t.readStates
  {
  }

  lemma UnknownReader(t: Tables, es: seq<DatabaseEvent>, k: nat)
    requires k < |es| && es[k].ReadEvent? && es[k].messageId in Stored(t.messages, es) && ReadersKnown(t, es)
    ensures es[k].reader in t.users
  {
    hide Stored, First;
    StoredRow(t.messages, es, es[k].messageId);
  }

  /** A receipt for a message that was not stored differs from whatever is there. */
  lemma EarlyDiffers(t: Tables, es: seq<DatabaseEvent>, k: nat, l: int, key: ReadKey)
    requires Valid(t) && Batch(t, es).Ok? && k < |es| && es[k].ReadEvent? && !InTime(t, es, k) && -1 <= l < k
    requires l >= 0 ==> es[l].ReadEvent? && InTime(t, es, l)
    requires SetBy(t.readStates, Batch(t, es).value.readStates, es, k, key)
    requires SetBy(t.readStates, Fold(t, es).readStates, es, l, key)
    ensures !SameAt(Batch(t, es).value.readStates, Fold(t, es).readStates, key)
  {
    hide Batch, Fold, First;
  }

  /** A batch that succeeds agrees with one at a time exactly when the rows are the same, nothing goes
      unheard and every early receipt is covered. */
  lemma SuccessAgreesIff(t: Tables, es: seq<DatabaseEvent>)
    requires Valid(t) && Batch(t, es).Ok?
    ensures Batch(t, es).value == Fold(t, es)
            <==> SameRows(t, es) && NothingDeaf(t, es) && EarlyCovered(t, Stored(t.messages, es), es)
  {
    hide Batch, Fold, Stored, SameRows, Valid, EarlyCovered, Ciphertexts, HeardRows, Heard, LastHitInTime, SameAt;
    var b, f := Batch(t, es).value, Fold(t, es);
    assert es[..|es|] == es;
    BatchFailsIff(t, es);
    FoldRows(t, es);
    FoldCiphertexts(t, es, |es|);
    HeardRowsIff(t, es, |es|);
    SameSums(t.ciphertexts, HeardRows(t, es, |es|), Ciphertexts(es));
    SameRowsIff(t, es);
    if b.messages == f.messages {
      forall key ensures SameAt(b.readStates, f.readStates, key) <==> LastHitInTime(t, f.messages, es, key) {
        ReadAt(t, es, key);
      }
      SameEverywhere(b.readStates, f.readStates);
      EarlyCoveredIff(t, f.messages, es);
    }
  }

  lemma SameSums(a: multiset<CiphertextRow>, b: multiset<CiphertextRow>, c: multiset<CiphertextRow>)
    ensures a + b == a + c <==> b == c
  {
    if a + b == a + c {
      forall x ensures b[x] == c[x] { assert (a + b)[x] == (a + c)[x]; }
    }
  }

  // ----- When the batch fails ---------------------------------------------------------------------------

  /** One at a time stores no message: every event whose users exist has a stored id. */
  predicate NothingStored(t: Tables, es: seq<DatabaseEvent>) {
    forall k | 0 <= k < |es| && Picks(KnownKind(t.users), es[k]) :: RowOf(es[k]).id in t.messages
  }

  /** It adds no ciphertexts. */
  predicate NothingHeard(t: Tables, es: seq<DatabaseEvent>) {
    NothingHeardBelow(t, es, |es|)
  }

  predicate NothingHeardBelow(t: Tables, es: seq<DatabaseEvent>, n: nat)
    requires n <= |es|
  {
    forall k | 0 <= k < n && Picks(AnyKind, es[k]) && Heard(t, es, k) :: CiphertextsOf(es[k]) == multiset{}
  }

  /** And the last receipts of known readers say what is there. */
  ghost predicate ReadsInPlace(t: Tables, es: seq<DatabaseEvent>) {
    forall key: ReadKey | key.0 in t.users :: SaysTheSame(t, es, key)
  }

  lemma NothingStoredIff(t: Tables, es: seq<DatabaseEvent>)
    requires Valid(t)
    ensures NothingStored(t, es) <==> Fold(t, es).messages == t.messages
  {
    hide Valid, Fold, First;
    var f := Fold(t, es).messages;
    assert es[..|es|] == es;
    forall id ensures
      && (id in f <==> id in t.messages || FirstKnown(t, es, id) < |es|)
      && (id in t.messages ==> f[id] == t.messages[id])
    {
      FoldMessage(t, es, |es|, id);
    }
    if NothingStored(t, es) {
      forall id | id in f ensures id in t.messages {
        if FirstKnown(t, es, id) < |es| { assert Introduces(KnownKind(t.users), es[FirstKnown(t, es, id)], id); }
      }
    } else {
      var k :| 0 <= k < |es| && Picks(KnownKind(t.users), es[k]) && RowOf(es[k]).id !in t.messages;
      assert Introduces(KnownKind(t.users), es[k], RowOf(es[k]).id);
      assert RowOf(es[k]).id in f;
    }
  }

  lemma {:induction false} NothingHeardIff(t: Tables, es: seq<DatabaseEvent>, n: nat)
    requires n <= |es|
    ensures HeardRows(t, es, n) == multiset{} <==> NothingHeardBelow(t, es, n)
  {
    hide Heard, CiphertextsOf, NothingHeardBelow;
    HeardNext(t, es, n);
    if n > 0 {
      NothingHeardIff(t, es, n - 1);
      EmptySum(HeardRows(t, es, n - 1), CiphertextsOf(es[n - 1]));
      assert HeardRows(t, es, n - 1) + multiset{} == HeardRows(t, es, n - 1);
    }
  }

  lemma HeardNext(t: Tables, es: seq<DatabaseEvent>, n: nat)
    requires n <= |es|
    ensures NothingHeardBelow(t, es, n)
            <==> n == 0 || (NothingHeardBelow(t, es, n - 1)
                            && (Picks(AnyKind, es[n - 1]) && Heard(t, es, n - 1)
                               ==> CiphertextsOf(es[n - 1]) == multiset{}))
  {
    hide Heard, CiphertextsOf;
  }

  lemma EmptySum(a: multiset<CiphertextRow>, c: multiset<CiphertextRow>)
    ensures a + c == multiset{} <==> a == multiset{} && c == multiset{}
  {
    if a + c == multiset{} {
      forall x ensures a[x] == 0 && c[x] == 0 { assert (a + c)[x] == 0; }
    }
  }

  /** Without new messages every receipt that hits is in time. */
  lemma SameLast(t: Tables, es: seq<DatabaseEvent>, key: ReadKey)
    ensures LastInTime(t, t.messages, es, |es|, key) == Last(t.messages, es, |es|, key)
  {
    var k, l := Last(t.messages, es, |es|, key), LastInTime(t, t.messages, es, |es|, key);
    if l >= 0 { assert Hits(t.messages, es[l], key); }
  }

  lemma ReadUnchangedAt(t: Tables, es: seq<DatabaseEvent>, key: ReadKey)
    requires Valid(t) && Fold(t, es).messages == t.messages
    ensures SameAt(Fold(t, es).readStates, t.readStates, key) <==> (key.0 in t.users ==> SaysTheSame(t, es, key))
  {
    hide Fold, Valid, InTime;
    FoldRows(t, es);
    if key.0 in t.users {
      FoldRead(t, es, |es|, key);
      assert es[..|es|] == es;
      SameLast(t, es, key);
    } else {
      NoReadState(t, key);
      NoReadState(Fold(t, es), key);
    }
  }

  /** A batch that fails agrees with one at a time exactly when that changes nothing either. */
  lemma FailureAgreesIff(t: Tables, es: seq<DatabaseEvent>)
    requires Valid(t)
    ensures t == Fold(t, es) <==> NothingStored(t, es) && NothingHeard(t, es) && ReadsInPlace(t, es)
  {
    hide Batch, Fold, NothingStored, Valid, HeardRows, Heard, SaysTheSame, SameAt;
    var f := Fold(t, es);
    assert es[..|es|] == es;
    FoldRows(t, es);
    FoldCiphertexts(t, es, |es|);
    NothingHeardIff(t, es, |es|);
    NothingStoredIff(t, es);
    SameSums(t.ciphertexts, HeardRows(t, es, |es|), multiset{});
    assert t.ciphertexts + multiset{} == t.ciphertexts;
    if f.messages == t.messages {
      forall key ensures SameAt(f.readStates, t.readStates, key) <==> (key.0 in t.users ==> SaysTheSame(t, es, key)) {
        ReadUnchangedAt(t, es, key);
      }
      SameEverywhere(f.readStates, t.readStates);
    }
  }

  /** MAIN RESULT. For every list of events, the grouped form leaves what handling the events one at a time
      leaves exactly when: if it succeeds, the rows are the same, no failing event has ciphertexts and
      every early receipt is covered; if it fails, one at a time changes nothing either. */
  lemma AgreesIff(t: Tables, es: seq<DatabaseEvent>)
    requires Valid(t)
    ensures Keep(t, Batch(t, es)) == Fold(t, es)
            <==> if RowsKnown(t, es) && ReadersKnown(t, es)
                 then SameRows(t, es) && NothingDeaf(t, es) && EarlyCovered(t, Stored(t.messages, es), es)
                 else NothingStored(t, es) && NothingHeard(t, es) && ReadsInPlace(t, es)
  {
    hide Batch, Fold, Stored, SameRows, NothingDeaf, EarlyCovered, NothingStored, NothingHeard, ReadsInPlace, RowsKnown,
         ReadersKnown, Valid;
    BatchFailsIff(t, es);
    if Batch(t, es).Ok? { SuccessAgreesIff(t, es); } else { FailureAgreesIff(t, es); }
  }
}
