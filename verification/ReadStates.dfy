/** The three writers of `dialog_read_states`: the worker's batches, marking one message and
    marking a whole dialog (`mark_read_handler`), the latter two as whole requests and statement by
    statement. */
module ReadStates {
  import opened Models
  import opened History

  datatype Outcome =
    | MarkedOne | MarkedAll | NothingToMark
    | NotFromThisPeer | MessageNotFound | InvalidMessageId | DatabaseError

  /** `peer` has sent `id` to `user`. */
  predicate SentTo(t: Tables, id: MessageId, peer: User, user: User) {
    id in t.messages && t.messages[id].sender == peer && t.messages[id].recipient == user
  }

  function DialogMessages(t: Tables, peer: User, user: User): set<MessageId> {
    set id | id in t.messages && SentTo(t, id, peer, user)
  }

  /** Marking one message, given its parsed id. */
  function MarkOne(t: Tables, user: User, peer: User, parsed: Option<MessageId>): (Tables, Outcome) {
    if parsed.None? then (t, InvalidMessageId)
    else if parsed.value !in t.messages then (t, MessageNotFound)
    else if t.messages[parsed.value].sender != peer then (t, NotFromThisPeer)
    else
      match MarkRead(t, Receipt(parsed.value, user))
      case Err => (t, DatabaseError)
      case Ok(after) => (after.(readAt := after.readAt + {parsed.value}), MarkedOne)
  }

  /** Marking a dialog, given the message the query for the latest one has returned. */
  function MarkDialog(t: Tables, user: User, peer: User, latest: Option<MessageId>): (Tables, Outcome)
    requires latest.Some? ==> SentTo(t, latest.value, peer, user)
  {
    if latest.None? then (t, NothingToMark)
    else
      match MarkRead(t, Receipt(latest.value, user))
      case Err => (t, DatabaseError)
      case Ok(after) => (after.(readAt := after.readAt + DialogMessages(t, peer, user)), MarkedAll)
  }

  /** The upsert can be made: the read state is there already, or both its users are. */
  predicate CanUpsert(t: Tables, user: User, peer: User) {
    (user, peer) in t.readStates || (user in t.users && peer in t.users)
  }

  /** The reader's state towards the peer is `id`, exactly the messages of `stamped` and those stamped
      before have a read time, and nothing else has changed. */
  ghost predicate MarkEffect(t: Tables, user: User, peer: User, id: MessageId, stamped: set<MessageId>, after: Tables) {
    && after.users == t.users && after.messages == t.messages && after.ciphertexts == t.ciphertexts
    && (forall key :: key in after.readStates <==> key in t.readStates || key == (user, peer))
    && (forall key | key in after.readStates ::
          after.readStates[key] == if key == (user, peer) then id else t.readStates[key])
    && (forall m :: m in after.readAt <==> m in t.readAt || m in stamped)
  }

  /** The condition of each outcome of marking one message; without success nothing changes. */
  lemma MarkOneOutcomes(t: Tables, user: User, peer: User, parsed: Option<MessageId>)
    ensures var (after, outcome) := MarkOne(t, user, peer, parsed);
            && (outcome == InvalidMessageId <==> parsed.None?)
            && (outcome == MessageNotFound <==> parsed.Some? && parsed.value !in t.messages)
            && (outcome == NotFromThisPeer
                <==> parsed.Some? && parsed.value in t.messages && t.messages[parsed.value].sender != peer)
            && (outcome == DatabaseError
                <==> parsed.Some? && parsed.value in t.messages && t.messages[parsed.value].sender == peer
                     && !CanUpsert(t, user, peer))
            && (outcome == MarkedOne
                <==> parsed.Some? && parsed.value in t.messages && t.messages[parsed.value].sender == peer
                     && CanUpsert(t, user, peer))
            && (outcome == MarkedOne ==> MarkEffect(t, user, peer, parsed.value, {parsed.value}, after))
            && (outcome != MarkedOne ==> after == t)
  {
  }

  /** The condition of each outcome of marking a dialog, which stamps exactly the stored messages that the
      peer has sent to the user. */
  lemma MarkDialogOutcomes(t: Tables, user: User, peer: User, latest: Option<MessageId>)
    requires latest.Some? ==> SentTo(t, latest.value, peer, user)
    ensures forall id :: id in DialogMessages(t, peer, user)
              <==> id in t.messages && t.messages[id].sender == peer && t.messages[id].recipient == user
    ensures var (after, outcome) := MarkDialog(t, user, peer, latest);
            && (outcome == NothingToMark <==> latest.None?)
            && (outcome == DatabaseError <==> latest.Some? && !CanUpsert(t, user, peer))
            && (outcome == MarkedAll <==> latest.Some? && CanUpsert(t, user, peer))
            && (outcome == MarkedAll
                ==> MarkEffect(t, user, peer, latest.value, DialogMessages(t, peer, user), after))
            && (outcome != MarkedAll ==> after == t)
  {
  }

  /** In tables whose rows all have known users, a known user's marking never fails in the database. */
  lemma KnownUsersMark(t: Tables, user: User, peer: User, id: MessageId)
    requires Valid(t) && user in t.users && id in t.messages && t.messages[id].sender == peer
    ensures MarkOne(t, user, peer, Some(id)).1 == MarkedOne
    ensures SentTo(t, id, peer, user) ==> MarkDialog(t, user, peer, Some(id)).1 == MarkedAll
  {
  }

  // ----- Statement by statement -------------------------------------------------------------------------

  /** A marking handler after its SELECT, with the message it found, and after its upsert. */
  datatype Stage = Found(id: MessageId) | Upserted(id: MessageId)

  datatype Handler = Handler(user: User, peer: User, whole: bool, stage: Stage)

  datatype State = State(tables: Tables, handlers: map<nat, Handler>)

  /** `Fetch` is the SELECT of a handler that marks one message, `FetchLatest` that of a handler that
      marks the dialog, with the message found. */
  datatype Action =
    | WorkerBatch(events: seq<DatabaseEvent>)
    | Fetch(h: nat, user: User, peer: User, id: MessageId)
    | FetchLatest(h: nat, user: User, peer: User, id: MessageId)
    | UpsertState(h: nat)
    | StampRead(h: nat)
    | Register(user: User)

  predicate Enabled(s: State, a: Action) {
    match a
    case WorkerBatch(_) => true
    case Register(_) => true
    case Fetch(h, _, peer, id) => h !in s.handlers && id in s.tables.messages && s.tables.messages[id].sender == peer
    case FetchLatest(h, user, peer, id) => h !in s.handlers && SentTo(s.tables, id, peer, user)
    case UpsertState(h) => h in s.handlers && s.handlers[h].stage.Found?
    case StampRead(h) => h in s.handlers && s.handlers[h].stage.Upserted?
  }

  function Stamped(t: Tables, h: Handler): set<MessageId> {
    if h.whole then DialogMessages(t, h.peer, h.user) else {h.stage.id}
  }

  function Next(s: State, a: Action): State
    requires Enabled(s, a)
  {
    match a
    case WorkerBatch(events) => s.(tables := Keep(s.tables, Batch(s.tables, events)))
    case Fetch(h, user, peer, id) => s.(handlers := s.handlers[h := Handler(user, peer, false, Found(id))])
    case FetchLatest(h, user, peer, id) => s.(handlers := s.handlers[h := Handler(user, peer, true, Found(id))])
    case UpsertState(h) =>
      var handler := s.handlers[h];
      (match Upsert(s.tables, (handler.user, handler.peer), handler.stage.id)
       case Ok(after) => State(after, s.handlers[h := handler.(stage := Upserted(handler.stage.id))])
       case Err => s.(handlers := s.handlers - {h}))
    case Register(user) => s.(tables := s.tables.(users := s.tables.users + {user}))
    case StampRead(h) =>
      State(s.tables.(readAt := s.tables.readAt + Stamped(s.tables, s.handlers[h])), s.handlers - {h})
  }

  ghost predicate IsRun(run: seq<State>, actions: seq<Action>) {
    && |run| == |actions| + 1
    && forall i | 0 <= i < |actions| :: Enabled(run[i], actions[i]) && run[i + 1] == Next(run[i], actions[i])
  }

  /** No message changes or disappears, and no read state disappears. */
  ghost predicate Grows(t: Tables, after: Tables) {
    && (forall id | id in t.messages :: id in after.messages && after.messages[id] == t.messages[id])
    && (forall key | key in t.readStates :: key in after.readStates)
  }

  /** Each handler holds a stored message sent by its peer. */
  ghost predicate Inv(s: State) {
    && Valid(s.tables)
    && forall h | h in s.handlers ::
         var id := s.handlers[h].stage.id;
         id in s.tables.messages && s.tables.messages[id].sender == s.handlers[h].peer
  }

  lemma BatchGrows(t: Tables, events: seq<DatabaseEvent>)
    requires Valid(t)
    ensures Valid(Keep(t, Batch(t, events))) && Grows(t, Keep(t, Batch(t, events)))
  {
    hide Batch, Stored;
    BatchFailsIff(t, events);
    if Batch(t, events).Ok? {
      forall id | id in t.messages
        ensures id in Stored(t.messages, events) && Stored(t.messages, events)[id] == t.messages[id]
      {
        StoredRow(t.messages, events, id);
      }
      forall key | key in t.readStates ensures key in Batch(t, events).value.readStates {
        BatchRead(t, events, key);
      }
    }
  }

  lemma StepGrows(s: State, a: Action)
    requires Inv(s) && Enabled(s, a)
    ensures Inv(Next(s, a)) && Grows(s.tables, Next(s, a).tables)
  {
    hide Batch;
    if a.WorkerBatch? { BatchGrows(s.tables, a.events); }
  }

  /** MAIN RESULT. Along every interleaving of worker batches, registrations and the statements of marking
      handlers, each read state points to a stored message sent by its peer, and no message or read state ever
      disappears. */
  lemma {:induction false} ReadStatesPointToPeers(run: seq<State>, actions: seq<Action>, n: nat)
    requires IsRun(run, actions) && Valid(run[0].tables) && run[0].handlers == map[] && n < |run|
    ensures Inv(run[n]) && Grows(run[0].tables, run[n].tables)
    ensures forall key | key in run[n].tables.readStates ::
              var id := run[n].tables.readStates[key];
              id in run[n].tables.messages && run[n].tables.messages[id].sender == key.1
  {
    hide Next, Enabled;
    if n > 0 {
      ReadStatesPointToPeers(run, actions, n - 1);
      assert run[n - 1 + 1] == Next(run[n - 1], actions[n - 1]) && Enabled(run[n - 1], actions[n - 1]);
      StepGrows(run[n - 1], actions[n - 1]);
    }
  }

  /** The statements of one handler, with nothing in between, have the effect of the whole request. */
  lemma HandlerSteps(s: State, fetch: Action)
    requires Enabled(s, fetch) && (fetch.Fetch? || fetch.FetchLatest?)
    ensures var s1 := Next(s, fetch);
            && Enabled(s1, UpsertState(fetch.h))
            && var s2 := Next(s1, UpsertState(fetch.h));
               && (fetch.h in s2.handlers ==> Enabled(s2, StampRead(fetch.h)))
               && (if fetch.h in s2.handlers then Next(s2, StampRead(fetch.h)).tables else s2.tables)
                  == if fetch.Fetch? then MarkOne(s.tables, fetch.user, fetch.peer, Some(fetch.id)).0
                     else MarkDialog(s.tables, fetch.user, fetch.peer, Some(fetch.id)).0
  {
  }
}
