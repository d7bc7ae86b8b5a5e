/** The offline queue (`PgOfflineMessageRepository` in shared/src/repository.rs). A drain selects
    the rows of one user in save order and deletes the ones whose payload decodes. */
module OfflineQueue {
  import opened Models

  /** A queued row; `None` is a payload that no longer decodes. */
  datatype Row<+M> = Row(id: nat, to: User, payload: Option<M>)

  /** The rows of one user, in save order. */
  function For<M(==,!new)>(rows: seq<Row<M>>, user: User): (r: seq<Row<M>>)
    ensures forall x :: x in r <==> x in rows && x.to == user
  {
    if rows == [] then []
    else
      var last := rows[|rows| - 1];
      For(rows[..|rows| - 1], user) + if last.to == user then [last] else []
  }

  function Decoded<M(==,!new)>(rows: seq<Row<M>>): seq<M> {
    if rows == [] then []
    else
      var last := rows[|rows| - 1];
      Decoded(rows[..|rows| - 1]) + if last.payload.Some? then [last.payload.value] else []
  }

  lemma {:induction false} DecodedMembers<M(!new)>(rows: seq<Row<M>>)
    ensures forall m :: m in Decoded(rows) <==> exists x :: x in rows && x.payload == Some(m)
  {
    if rows != [] {
      var init, last := rows[..|rows| - 1], rows[|rows| - 1];
      DecodedMembers(init);
      forall m ensures m in Decoded(rows) <==> exists x :: x in rows && x.payload == Some(m) {
        if m in Decoded(init) {
          var x :| x in init && x.payload == Some(m);
          assert x in rows;
        } else if last.payload == Some(m) {
          assert last in rows;
        }
      }
    }
  }

  /** The positions of the rows that decode, in order and once each. */
  function DecodedAt<M(==,!new)>(rows: seq<Row<M>>): (at: seq<nat>)
    ensures forall j | 0 <= j < |at| :: at[j] < |rows| && rows[at[j]].payload.Some?
    ensures forall i, j | 0 <= i < j < |at| :: at[i] < at[j]
  {
    if rows == [] then []
    else
      var before, n := DecodedAt(rows[..|rows| - 1]), |rows| - 1;
      if rows[n].payload.Some? then before + [n] else before
  }

  lemma {:induction false} NoRowLeftOut<M(!new)>(rows: seq<Row<M>>, i: nat)
    requires i < |rows| && rows[i].payload.Some?
    ensures i in DecodedAt(rows)
  {
    if i < |rows| - 1 { NoRowLeftOut(rows[..|rows| - 1], i); }
  }

  /** Decoding yields, for each of these positions, the payload of the row there. */
  lemma {:induction false} OwnPayloads<M(!new)>(rows: seq<Row<M>>)
    ensures |DecodedAt(rows)| == |Decoded(rows)|
    ensures forall j | 0 <= j < |DecodedAt(rows)| :: rows[DecodedAt(rows)[j]].payload == Some(Decoded(rows)[j])
  {
    if rows != [] { OwnPayloads(rows[..|rows| - 1]); }
  }

  /** Decoded payloads come out in the order of their rows. */
  lemma DecodedPositions<M(!new)>(rows: seq<Row<M>>, p: nat, q: nat) returns (a: nat, b: nat)
    requires p < q < |Decoded(rows)|
    ensures a < b < |rows| && rows[a].payload == Some(Decoded(rows)[p]) && rows[b].payload == Some(Decoded(rows)[q])
  {
    OwnPayloads(rows);
    a, b := DecodedAt(rows)[p], DecodedAt(rows)[q];
  }

  /** The ids of the rows that decode: what a drain deletes. */
  function DecodableIds<M(==,!new)>(rows: seq<Row<M>>): (r: set<nat>)
    ensures forall id :: id in r <==> exists x :: x in rows && x.id == id && x.payload.Some?
  {
    set x | x in rows && x.payload.Some? :: x.id
  }

  function Without<M(==,!new)>(rows: seq<Row<M>>, ids: set<nat>): (r: seq<Row<M>>)
    ensures forall x :: x in r <==> x in rows && x.id !in ids
  {
    if rows == [] then []
    else
      var last := rows[|rows| - 1];
      Without(rows[..|rows| - 1], ids) + if last.id in ids then [] else [last]
  }

  /** Ids increase in save order. */
  predicate InOrder<M(==,!new)>(rows: seq<Row<M>>) {
    forall i, j | 0 <= i < j < |rows| :: rows[i].id < rows[j].id
  }

  lemma {:induction false} ForInOrder<M(!new)>(rows: seq<Row<M>>, user: User)
    requires InOrder(rows)
    ensures InOrder(For(rows, user))
  {
    if rows != [] {
      var init, last := rows[..|rows| - 1], rows[|rows| - 1];
      ForInOrder(init, user);
      forall x | x in For(init, user) ensures x.id < last.id {
        assert x in init;
      }
    }
  }

  lemma {:induction false} WithoutInOrder<M(!new)>(rows: seq<Row<M>>, ids: set<nat>)
    requires InOrder(rows)
    ensures InOrder(Without(rows, ids))
  {
    if rows != [] {
      var init, last := rows[..|rows| - 1], rows[|rows| - 1];
      WithoutInOrder(init, ids);
      forall x | x in Without(init, ids) ensures x.id < last.id {
        assert x in init;
      }
    }
  }

  /** Exactly the user's decodable rows are gone. */
  ghost predicate OnlyUndecodableLeft<M(!new)>(before: seq<Row<M>>, after: seq<Row<M>>, user: User) {
    forall x :: x in after <==> x in before && (x.to != user || x.payload.None?)
  }

  class Queue<M(==,!new)> {
    var rows: seq<Row<M>>
    var nextId: nat

    ghost predicate Valid()
      reads this
    {
      InOrder(rows) && forall x | x in rows :: x.id < nextId
    }

    constructor ()
      ensures Valid() && rows == []
    {
      rows, nextId := [], 0;
    }

    method SaveOfflineMessage(to: User, payload: Option<M>)
      requires Valid()
      modifies this
      ensures Valid()
      ensures rows == old(rows) + [Row(old(nextId), to, payload)] && nextId == old(nextId) + 1
    {
      rows := rows + [Row(nextId, to, payload)];
      nextId := nextId + 1;
    }

    /** Splits off the payloads that decode, with the ids of their rows. */
    static method Decode(messages: seq<Row<M>>) returns (decoded: seq<M>, idsToDelete: seq<nat>)
      ensures decoded == Decoded(messages)
      ensures (set id | id in idsToDelete) == DecodableIds(messages)
      ensures idsToDelete == [] <==> DecodableIds(messages) == {}
    {
      decoded, idsToDelete := [], [];
      for i := 0 to |messages|
        invariant decoded == Decoded(messages[..i])
        invariant (set id | id in idsToDelete) == DecodableIds(messages[..i])
      {
        assert messages[..i + 1][..i] == messages[..i];
        DecodableNext(messages, i);
        match messages[i].payload
        case Some(message) =>
          decoded := decoded + [message];
          idsToDelete := idsToDelete + [messages[i].id];
        case None =>
      }
      assert messages[..|messages|] == messages;
      if idsToDelete != [] { assert idsToDelete[0] in DecodableIds(messages); }
    }

    static lemma DecodableNext(messages: seq<Row<M>>, i: nat)
      requires i < |messages|
      ensures DecodableIds(messages[..i + 1])
              == DecodableIds(messages[..i]) + if messages[i].payload.Some? then {messages[i].id} else {}
    {
    }

    /** Returns the user's decodable payloads in save order and deletes exactly their rows. */
    method FetchAndDeleteOfflineMessages(user: User) returns (decoded: seq<M>)
      requires Valid()
      modifies this
      ensures Valid() && nextId == old(nextId)
      ensures decoded == Decoded(For(old(rows), user))
      ensures rows == Without(old(rows), DecodableIds(For(old(rows), user)))
      ensures OnlyUndecodableLeft(old(rows), rows, user)
    {
      hide InOrder, OnlyUndecodableLeft, For, DecodableIds, Without, Decoded;
      var messages := For(rows, user);
      var idsToDelete;
      decoded, idsToDelete := Decode(messages);
      var ids := set id | id in idsToDelete;
      assert ids == DecodableIds(messages);
      if idsToDelete != [] {
        rows := Without(rows, ids);
      } else {
        WithoutNone(rows, ids);
      }
      assert rows == Without(old(rows), DecodableIds(messages));
      WithoutInOrder(old(rows), DecodableIds(messages));
      Survivors(old(rows), user);
      assert forall x | x in rows :: x in old(rows);
    }
  }

  lemma {:induction false} WithoutNone<M(!new)>(rows: seq<Row<M>>, ids: set<nat>)
    requires ids == {}
    ensures Without(rows, ids) == rows
  {
    if rows != [] { WithoutNone(rows[..|rows| - 1], ids); }
  }

  /** A whole drain removes the decodable rows of its user and no others. */
  lemma Survivors<M(!new)>(rows: seq<Row<M>>, user: User)
    requires InOrder(rows)
    ensures OnlyUndecodableLeft(rows, Without(rows, DecodableIds(For(rows, user))), user)
  {
    hide For, Without;
    forall x | x in rows ensures x.id in DecodableIds(For(rows, user)) <==> x.to == user && x.payload.Some? {
      if x.id in DecodableIds(For(rows, user)) {
        var y :| y in For(rows, user) && y.id == x.id && y.payload.Some?;
        var i, j :| 0 <= i < |rows| && 0 <= j < |rows| && rows[i] == x && rows[j] == y;
        assert i == j;
      }
    }
  }
}
