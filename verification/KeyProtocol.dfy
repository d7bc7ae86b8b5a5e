/** Logins, uploads, claims and device deletions interleaved: the life of
    a one-time pre-key over every run (section 3.3 of "The X3DH Key Agreement Protocol" asks the
    server to hand out a one-time prekey and then delete it). The sub-select of a claim's UPDATE and
    the update of the rows it has picked are separate steps, so that two claims may pick one row. */
module KeyProtocol {
  import opened Models
  import opened KeyTables

  /** A claim between its steps: its page fetched, its keys picked, its keys consumed. */
  datatype Stage = Fetched | Picked(keys: set<KeyName>) | Taken(keys: set<KeyName>)

  datatype Claim = Claim(devices: set<DeviceId>, stage: Stage)

  /** `issued` maps every device id ever minted by a login to its user: the tokens in circulation.
      `inserted`, `returned` and `dropped` record the rows ever inserted, the keys returned to
      claimants in order, and the keys consumed by a finished claim without being returned. */
  datatype State = State(
    tables: Tables,
    issued: map<DeviceId, User>,
    claims: map<nat, Claim>,
    inserted: set<KeyName>,
    returned: seq<KeyName>,
    dropped: set<KeyName>)

  datatype Action =
    | Login(user: User, device: DeviceId)
    | Logout(device: DeviceId)
    | UploadKeys(device: DeviceId, req: UploadRequest)
    | DeleteDevice(caller: DeviceId, device: DeviceId)
    | FetchPage(claim: nat, devices: set<DeviceId>)
    | PickKeys(claim: nat, limit: nat, picked: set<KeyName>)
    | ConsumeKeys(claim: nat)
    | Respond(claim: nat, given: seq<KeyName>)
    | Abandon(claim: nat)

  /** One key for each device that gave any. */
  predicate OnePerGivingDevice(taken: set<KeyName>, given: seq<KeyName>) {
    && (forall k | k in given :: k in taken)
    && (forall i, j | 0 <= i < j < |given| :: given[i].device != given[j].device)
    && (forall k | k in taken :: exists g | g in given :: g.device == k.device)
  }

  ghost predicate Enabled(s: State, a: Action) {
    match a
    case Login(_, device) => device !in s.issued
    case Logout(device) => device in s.issued
    case UploadKeys(device, _) => device in s.issued
    case DeleteDevice(caller, _) => caller in s.issued
    case FetchPage(claim, _) => claim !in s.claims
    case PickKeys(claim, limit, picked) =>
      claim in s.claims && s.claims[claim].stage.Fetched?
        && Selects(Unconsumed(s.tables, s.claims[claim].devices), limit, picked)
    case ConsumeKeys(claim) => claim in s.claims && s.claims[claim].stage.Picked?
    case Respond(claim, given) =>
      claim in s.claims && s.claims[claim].stage.Taken? && OnePerGivingDevice(s.claims[claim].stage.keys, given)
    case Abandon(claim) => claim in s.claims
  }

  function TakenBy(c: Claim): set<KeyName> {
    if c.stage.Taken? then c.stage.keys else {}
  }

  /** The picked rows that are still there: those the UPDATE marks and returns. */
  function Found(s: State, claim: nat): set<KeyName>
    requires claim in s.claims && s.claims[claim].stage.Picked?
  {
    set k | k in s.claims[claim].stage.keys && k in s.tables.oneTime
  }

  function Next(s: State, a: Action): State
    requires Enabled(s, a)
  {
    match a
    case Login(user, device) =>
      s.(tables := s.tables.(sessions := s.tables.sessions[device := Session(user, true)]),
        issued := s.issued[device := user])
    case Logout(device) =>
      if device in s.tables.sessions
      then s.(tables := s.tables.(sessions := s.tables.sessions[device := s.tables.sessions[device].(valid := false)]))
      else s
    case UploadKeys(device, req) =>
      var after := Upload(s.tables, Owner(s.issued[device], device), req);
      s.(tables := after, inserted := s.inserted + (after.oneTime.Keys - s.tables.oneTime.Keys))
    case DeleteDevice(caller, device) =>
      s.(tables := Delete(s.tables, s.issued[caller], device))
    case FetchPage(claim, devices) =>
      s.(claims := s.claims[claim := Claim(devices, Fetched)])
    case PickKeys(claim, _, picked) =>
      s.(claims := s.claims[claim := s.claims[claim].(stage := Picked(picked))])
    case ConsumeKeys(claim) =>
      s.(tables := Consume(s.tables, Found(s, claim)),
        claims := s.claims[claim := s.claims[claim].(stage := Taken(Found(s, claim)))])
    case Respond(claim, given) =>
      s.(claims := s.claims - {claim}, returned := s.returned + given,
         dropped := s.dropped + (s.claims[claim].stage.keys - ToSet(given)))
    case Abandon(claim) =>
      s.(claims := s.claims - {claim}, dropped := s.dropped + TakenBy(s.claims[claim]))
  }

  ghost predicate Initial(s: State) {
    s == State(Tables(map[], map[], map[], map[]), map[], map[], {}, [], {})
  }

  ghost predicate IsRun(run: seq<State>, actions: seq<Action>) {
    && |run| == |actions| + 1
    && forall i | 0 <= i < |actions| :: Enabled(run[i], actions[i]) && run[i + 1] == Next(run[i], actions[i])
  }

  // ----- The invariant --------------------------------------------------------------------------------

  ghost predicate SessionsIssued(s: State) {
    forall d | d in s.tables.sessions :: d in s.issued && s.tables.sessions[d].user == s.issued[d]
  }

  /** The keys that claims in flight have taken. */
  function InFlight(s: State): set<KeyName> {
    set c, k | c in s.claims && k in TakenBy(s.claims[c]) :: k
  }

  /** All keys ever consumed. */
  function Spent(s: State): set<KeyName> {
    ToSet(s.returned) + s.dropped + InFlight(s)
  }

  /** Every spent key was inserted, and is marked consumed as long as its device lives; every
      consumed key is spent. */
  ghost predicate SpentMarked(s: State) {
    && (forall k | k in Spent(s) :: k in s.inserted)
    && (forall k | k in s.inserted && k.device in s.tables.sessions :: k in s.tables.oneTime)
    && (forall k | k in s.tables.oneTime :: k in s.inserted && (s.tables.oneTime[k].consumed <==> k in Spent(s)))
    && (forall k | k in s.inserted :: k.device in s.issued && s.issued[k.device] == k.user)
  }

  /** No key is spent twice: none is returned, dropped or in flight more than once. */
  ghost predicate SpentOnce(s: State) {
    && NoRepeats(s.returned)
    && ToSet(s.returned) !! s.dropped
    && (ToSet(s.returned) + s.dropped) !! InFlight(s)
    && (forall c, d | c in s.claims && d in s.claims && c != d :: TakenBy(s.claims[c]) !! TakenBy(s.claims[d]))
  }

  ghost predicate Inv(s: State) {
    Valid(s.tables) && SessionsIssued(s) && SpentMarked(s)
  }

  // ----- Every action keeps it ------------------------------------------------------------------------

  lemma UploadKeeps(s: State, device: DeviceId, req: UploadRequest)
    requires Inv(s) && Enabled(s, UploadKeys(device, req))
    ensures Inv(Next(s, UploadKeys(device, req)))
  {
    var owner := Owner(s.issued[device], device);
    var next := Next(s, UploadKeys(device, req));
    UploadValid(s.tables, owner, req);
    if device in s.tables.sessions {
      forall k | k in next.tables.oneTime
        ensures k in s.tables.oneTime ==> next.tables.oneTime[k] == s.tables.oneTime[k]
        ensures k !in s.tables.oneTime
                ==> k.device == device && k.user == owner.user && !next.tables.oneTime[k].consumed && k !in s.inserted
      {
        InsertedKey(s.tables.oneTime, owner, req.oneTimeKeys, k);
      }
      forall k | k in s.tables.oneTime ensures k in next.tables.oneTime {
        InsertedKey(s.tables.oneTime, owner, req.oneTimeKeys, k);
      }
      assert Spent(next) == Spent(s);
    } else {
      assert next == s by { assert s.inserted + {} == s.inserted; }
    }
  }

  lemma DeleteKeeps(s: State, caller: DeviceId, device: DeviceId)
    requires Inv(s) && Enabled(s, DeleteDevice(caller, device))
    ensures Inv(Next(s, DeleteDevice(caller, device)))
  {
  }

  /** How the keys in flight change. */
  lemma FlightNext(s: State, a: Action)
    requires Enabled(s, a)
    ensures var next := Next(s, a);
            match a
            case ConsumeKeys(claim) => InFlight(next) == InFlight(s) + Found(s, claim)
            case Respond(claim, _) => InFlight(s) == InFlight(next) + TakenBy(s.claims[claim])
            case Abandon(claim) => InFlight(s) == InFlight(next) + TakenBy(s.claims[claim])
            case _ => InFlight(next) == InFlight(s)
  {
    hide Selects, OnePerGivingDevice, Upload, Delete, Consume;
    var next := Next(s, a);
    forall c | c in s.claims && c in next.claims && next.claims[c] == s.claims[c]
      ensures TakenBy(next.claims[c]) == TakenBy(s.claims[c])
    {
    }
    forall k | k in InFlight(s)
      ensures k in InFlight(next) || ((a.Respond? || a.Abandon?) && k in TakenBy(s.claims[a.claim])) {
      var c :| c in s.claims && k in TakenBy(s.claims[c]);
      assert c in next.claims ==> k in TakenBy(next.claims[c]);
    }
    forall k | k in InFlight(next) ensures k in InFlight(s) || (a.ConsumeKeys? && k in Found(s, a.claim)) {
      var c :| c in next.claims && k in TakenBy(next.claims[c]);
    }
    if a.ConsumeKeys? {
      forall k | k in Found(s, a.claim) ensures k in InFlight(next) { assert k in TakenBy(next.claims[a.claim]); }
    }
  }

  lemma Appended(a: seq<KeyName>, b: seq<KeyName>)
    ensures ToSet(a + b) == ToSet(a) + ToSet(b)
  {
  }

  lemma GivenTaken(taken: set<KeyName>, given: seq<KeyName>)
    requires OnePerGivingDevice(taken, given)
    ensures ToSet(given) <= taken
  {
  }

  lemma RespondSpends(s: State, claim: nat, given: seq<KeyName>)
    requires Enabled(s, Respond(claim, given))
    ensures Spent(Next(s, Respond(claim, given))) == Spent(s)
  {
    hide InFlight, ToSet, OnePerGivingDevice;
    FlightNext(s, Respond(claim, given));
    var next, taken := Next(s, Respond(claim, given)), TakenBy(s.claims[claim]);
    Appended(s.returned, given);
    GivenTaken(taken, given);
    Regrouped(ToSet(s.returned), ToSet(given), s.dropped, InFlight(next), taken);
  }

  lemma Regrouped(returned: set<KeyName>, given: set<KeyName>, dropped: set<KeyName>, inFlight: set<KeyName>,
                  taken: set<KeyName>)
    requires given <= taken
    ensures (returned + given) + (dropped + (taken - given)) + inFlight == returned + dropped + (inFlight + taken)
  {
  }

  /** Only an UPDATE spends keys. */
  lemma SpentNext(s: State, a: Action)
    requires Enabled(s, a)
    ensures Spent(Next(s, a)) == Spent(s) + if a.ConsumeKeys? then Found(s, a.claim) else {}
  {
    hide InFlight, Selects, Upload, Delete, Consume, OnePerGivingDevice;
    if a.Respond? {
      RespondSpends(s, a.claim, a.given);
    } else {
      FlightNext(s, a);
      assert Next(s, a).returned == s.returned;
    }
  }

  lemma ClaimKeeps(s: State, a: Action)
    requires Inv(s) && Enabled(s, a) && (a.FetchPage? || a.PickKeys? || a.Respond? || a.Abandon?)
    ensures Inv(Next(s, a))
  {
    hide Spent, Selects, OnePerGivingDevice, Unconsumed, Valid;
    SpentNext(s, a);
  }

  lemma SessionKeeps(s: State, a: Action)
    requires Inv(s) && Enabled(s, a) && (a.Login? || a.Logout?)
    ensures Inv(Next(s, a))
  {
    hide Spent, Selects, OnePerGivingDevice, Unconsumed;
    SpentNext(s, a);
  }

  lemma ConsumeKeeps(s: State, claim: nat)
    requires Inv(s) && Enabled(s, ConsumeKeys(claim))
    ensures Inv(Next(s, ConsumeKeys(claim)))
  {
    hide Spent;
    SpentNext(s, ConsumeKeys(claim));
  }

  lemma StepKeeps(s: State, a: Action)
    requires Inv(s) && Enabled(s, a)
    ensures Inv(Next(s, a))
  {
    match a
    case UploadKeys(device, req) => UploadKeeps(s, device, req);
    case DeleteDevice(caller, device) => DeleteKeeps(s, caller, device);
    case ConsumeKeys(claim) => ConsumeKeeps(s, claim);
    case Login(_, _) => SessionKeeps(s, a);
    case Logout(_) => SessionKeeps(s, a);
    case _ => ClaimKeeps(s, a);
  }

  lemma {:induction false} RunKeeps(run: seq<State>, actions: seq<Action>, n: nat)
    requires IsRun(run, actions) && Initial(run[0]) && n < |run|
    ensures Inv(run[n])
  {
    if n > 0 {
      RunKeeps(run, actions, n - 1);
      assert run[n - 1 + 1] == Next(run[n - 1], actions[n - 1]);
      StepKeeps(run[n - 1], actions[n - 1]);
    }
  }

  // ----- When a key is spent twice ----------------------------------------------------------------------

  /** The action is no UPDATE that finds a row consumed since its sub-select picked it. */
  ghost predicate FindsUnconsumed(s: State, a: Action) {
    a.ConsumeKeys? && Enabled(s, a) ==> forall k | k in Found(s, a.claim) :: !s.tables.oneTime[k].consumed
  }

  lemma AppendDistinct(a: seq<KeyName>, b: seq<KeyName>)
    requires NoRepeats(a) && ToSet(a) !! ToSet(b)
    requires forall i, j | 0 <= i < j < |b| :: b[i].device != b[j].device
    ensures NoRepeats(a + b)
  {
    forall i, j | 0 <= i < j < |a + b| ensures (a + b)[i] != (a + b)[j] {
      if i < |a| <= j { assert a[i] in ToSet(a) && b[j - |a|] in ToSet(b); }
    }
  }

  lemma TakenInFlight(s: State, claim: nat)
    requires claim in s.claims
    ensures TakenBy(s.claims[claim]) <= InFlight(s)
  {
  }

  /** Ending a claim leaves the flights of the others. */
  lemma EndedFlight(s: State, a: Action)
    requires SpentOnce(s) && Enabled(s, a) && (a.Respond? || a.Abandon?)
    ensures InFlight(Next(s, a)) == InFlight(s) - TakenBy(s.claims[a.claim])
  {
    hide Selects, OnePerGivingDevice;
    FlightNext(s, a);
    var next := Next(s, a);
    forall k | k in InFlight(next) ensures k !in TakenBy(s.claims[a.claim]) {
      var c :| c in next.claims && k in TakenBy(next.claims[c]);
      assert c in s.claims && c != a.claim;
    }
  }

  lemma EndKeepsOnce(s: State, a: Action)
    requires SpentOnce(s) && Enabled(s, a) && (a.Respond? || a.Abandon?)
    ensures SpentOnce(Next(s, a))
  {
    hide InFlight;
    EndedFlight(s, a);
    TakenInFlight(s, a.claim);
    if a.Respond? {
      assert ToSet(Next(s, a).returned) == ToSet(s.returned) + ToSet(a.given);
      assert ToSet(a.given) <= TakenBy(s.claims[a.claim]);
      AppendDistinct(s.returned, a.given);
    }
  }

  lemma ConsumeOnceIff(s: State, claim: nat)
    requires Inv(s) && SpentOnce(s) && Enabled(s, ConsumeKeys(claim))
    ensures SpentOnce(Next(s, ConsumeKeys(claim))) <==> FindsUnconsumed(s, ConsumeKeys(claim))
  {
    hide InFlight, Valid, SessionsIssued;
    var next, found := Next(s, ConsumeKeys(claim)), Found(s, claim);
    FlightNext(s, ConsumeKeys(claim));
    assert FindsUnconsumed(s, ConsumeKeys(claim)) <==> found !! Spent(s);
    if found !! Spent(s) {
      forall c, d | c in next.claims && d in next.claims && c != d
        ensures TakenBy(next.claims[c]) !! TakenBy(next.claims[d]) {
        TakenInFlight(s, c);
        TakenInFlight(s, d);
      }
    } else {
      var k :| k in found && k in Spent(s);
      FoundTwice(s, claim, k);
    }
  }

  /** A key consumed before is counted twice when a later UPDATE takes it. */
  lemma FoundTwice(s: State, claim: nat, k: KeyName)
    requires Enabled(s, ConsumeKeys(claim)) && k in Found(s, claim) && k in Spent(s)
    ensures !SpentOnce(Next(s, ConsumeKeys(claim)))
  {
    var next := Next(s, ConsumeKeys(claim));
    assert k in TakenBy(next.claims[claim]);
    TakenInFlight(next, claim);
    if k in InFlight(s) {
      var c :| c in s.claims && k in TakenBy(s.claims[c]);
      assert c != claim && k in TakenBy(next.claims[c]);
    }
  }

  lemma OnceStepIff(s: State, a: Action)
    requires Inv(s) && SpentOnce(s) && Enabled(s, a)
    ensures SpentOnce(Next(s, a)) <==> FindsUnconsumed(s, a)
  {
    match a
    case ConsumeKeys(claim) => ConsumeOnceIff(s, claim);
    case Respond(_, _) => EndKeepsOnce(s, a);
    case Abandon(_) => EndKeepsOnce(s, a);
    case _ => OthersKeepOnce(s, a);
  }

  lemma OthersKeepOnce(s: State, a: Action)
    requires SpentOnce(s) && Enabled(s, a) && !a.ConsumeKeys? && !a.Respond? && !a.Abandon?
    ensures SpentOnce(Next(s, a))
  {
    hide InFlight, Selects, Upload, Delete, Consume;
    FlightNext(s, a);
    var next := Next(s, a);
    forall c | c in next.claims ensures TakenBy(next.claims[c]) == if c in s.claims then TakenBy(s.claims[c]) else {} {}
  }

  /** MAIN RESULT. No key has been spent twice, by one claim or by two, up to any point of a run exactly
      when every UPDATE so far found the rows it had picked still unconsumed. */
  lemma {:induction false} SpentOnceIff(run: seq<State>, actions: seq<Action>, n: nat)
    requires IsRun(run, actions) && Initial(run[0]) && n < |run|
    ensures (forall m | 0 <= m <= n :: SpentOnce(run[m]))
            <==> (forall m | 0 <= m < n :: FindsUnconsumed(run[m], actions[m]))
  {
    hide Inv, Next, Enabled, FindsUnconsumed;
    if n > 0 {
      SpentOnceIff(run, actions, n - 1);
      RunKeeps(run, actions, n - 1);
      assert run[n - 1 + 1] == Next(run[n - 1], actions[n - 1]) && Enabled(run[n - 1], actions[n - 1]);
      if SpentOnce(run[n - 1]) { OnceStepIff(run[n - 1], actions[n - 1]); }
    }
  }

  /** Every UPDATE runs as one step: its sub-select is followed by the update of the rows. */
  predicate AtomicUpdates(actions: seq<Action>) {
    forall i | 0 < i < |actions| && actions[i - 1].PickKeys? :: actions[i] == ConsumeKeys(actions[i - 1].claim)
  }

  /** Then a claim is between the two only right after its sub-select. */
  lemma {:induction false} PickedLast(run: seq<State>, actions: seq<Action>, n: nat, claim: nat)
    requires IsRun(run, actions) && Initial(run[0]) && n < |run| && AtomicUpdates(actions)
    requires claim in run[n].claims && run[n].claims[claim].stage.Picked?
    ensures n > 0 && actions[n - 1].PickKeys? && actions[n - 1].claim == claim
  {
    if n > 0 {
      var s, a := run[n - 1], actions[n - 1];
      assert Enabled(s, a) && run[n - 1 + 1] == Next(s, a);
      if claim in s.claims && s.claims[claim].stage.Picked? { PickedLast(run, actions, n - 1, claim); }
    }
  }

  /** MAIN RESULT. When every UPDATE runs as one step, each finds its rows unconsumed. */
  lemma AtomicUpdatesFind(run: seq<State>, actions: seq<Action>, m: nat)
    requires IsRun(run, actions) && Initial(run[0]) && m < |actions| && AtomicUpdates(actions)
    ensures FindsUnconsumed(run[m], actions[m])
  {
    if actions[m].ConsumeKeys? {
      assert Enabled(run[m], actions[m]);
      PickedLast(run, actions, m, actions[m].claim);
      assert run[m - 1 + 1] == Next(run[m - 1], actions[m - 1]) && Enabled(run[m - 1], actions[m - 1]);
    }
  }

  // ----- Main results ---------------------------------------------------------------------------------

  /** MAIN RESULT. Over every run in which each UPDATE finds its rows unconsumed, no (device, key id) is
      returned twice, by one claim or by two. */
  lemma SingleUse(run: seq<State>, actions: seq<Action>, n: nat)
    requires IsRun(run, actions) && Initial(run[0]) && n < |run|
    requires forall m | 0 <= m < n :: FindsUnconsumed(run[m], actions[m])
    ensures forall i, j | 0 <= i < j < |run[n].returned| ::
              || run[n].returned[i].device != run[n].returned[j].device
              || run[n].returned[i].keyId != run[n].returned[j].keyId
  {
    hide FindsUnconsumed, Next, Enabled, InFlight;
    SpentOnceIff(run, actions, n);
    RunKeeps(run, actions, n);
    assert SpentOnce(run[n]);
    forall i | 0 <= i < |run[n].returned| ensures run[n].returned[i] in Spent(run[n]) {}
  }

  /** MAIN RESULT. In every reachable state each key row belongs to the user of its session, and
      the claim's join yields each device of the target once with only that user's keys. */
  lemma KeyRowsOwned(run: seq<State>, actions: seq<Action>, n: nat, target: User)
    requires IsRun(run, actions) && Initial(run[0]) && n < |run|
    ensures Valid(run[n].tables)
    ensures forall a, b | a in Join(run[n].tables, target) && b in Join(run[n].tables, target)
            && a.identity.device == b.identity.device :: a == b
    ensures forall j, k | j in Join(run[n].tables, target) && k in run[n].tables.oneTime
            && k.device == j.identity.device ::
              j.signed.user == target && k.user == target
  {
    RunKeeps(run, actions, n);
    JoinIsPerDevice(run[n].tables, target);
  }

  /** MAIN RESULT. For each live device, the rows ever inserted are the unconsumed ones and those spent:
      returned to claimants, or consumed without being returned. */
  lemma OneTimeKeysKept(run: seq<State>, actions: seq<Action>, n: nat, device: DeviceId)
    requires IsRun(run, actions) && Initial(run[0]) && n < |run| && device in run[n].tables.sessions
    ensures var s := run[n];
            && OnDevice(s.inserted, device) == Unconsumed(s.tables, {device}) + OnDevice(Spent(s), device)
            && Unconsumed(s.tables, {device}) !! OnDevice(Spent(s), device)
  {
    hide Spent;
    RunKeeps(run, actions, n);
    var s := run[n];
    forall k ensures k in OnDevice(s.inserted, device)
      <==> k in Unconsumed(s.tables, {device}) || k in OnDevice(Spent(s), device) {
      if k in OnDevice(s.inserted, device) { assert k in s.tables.oneTime; }
    }
  }

  /** MAIN RESULT. When each UPDATE finds its rows unconsumed, the numbers add up: none counts twice. */
  lemma OneTimeKeysConserved(run: seq<State>, actions: seq<Action>, n: nat, device: DeviceId)
    requires IsRun(run, actions) && Initial(run[0]) && n < |run| && device in run[n].tables.sessions
    requires forall m | 0 <= m < n :: FindsUnconsumed(run[m], actions[m])
    ensures var s := run[n];
            |OnDevice(s.inserted, device)|
            == |Unconsumed(s.tables, {device})| + |OnDevice(ToSet(s.returned), device)|
               + |OnDevice(s.dropped + InFlight(s), device)|
  {
    hide FindsUnconsumed, Next, Enabled, IsRun, InFlight;
    SpentOnceIff(run, actions, n);
    OneTimeKeysKept(run, actions, n, device);
    var s := run[n];
    assert SpentOnce(s);
    var given, lost := OnDevice(ToSet(s.returned), device), OnDevice(s.dropped + InFlight(s), device);
    assert OnDevice(Spent(s), device) == given + lost && given !! lost;
  }

  /** The key keeps its public key, and stays consumed once it is. */
  ghost predicate Settled(before: OneTimeKey, after: OneTimeKey) {
    after.publicKey == before.publicKey && (before.consumed ==> after.consumed)
  }

  lemma StepSettles(s: State, a: Action, k: KeyName)
    requires Inv(s) && Enabled(s, a) && k in s.tables.oneTime && k.device in Next(s, a).tables.sessions
    ensures k in Next(s, a).tables.oneTime && Settled(s.tables.oneTime[k], Next(s, a).tables.oneTime[k])
  {
    hide SpentMarked, SpentOnce, Selects, OnePerGivingDevice, InsertKeys;
    if a.UploadKeys? {
      InsertedKey(s.tables.oneTime, Owner(s.issued[a.device], a.device), a.req.oneTimeKeys, k);
    }
  }

  /** A deleted session never comes back. */
  lemma {:induction false} SessionsStayDeleted(run: seq<State>, actions: seq<Action>, m: nat, n: nat, device: DeviceId)
    requires IsRun(run, actions) && m <= n < |run| && device in run[m].issued && device in run[n].tables.sessions
    ensures device in run[m].tables.sessions && device in run[n].issued
    decreases n - m
  {
    if m < n {
      assert run[m + 1] == Next(run[m], actions[m]);
      SessionsStayDeleted(run, actions, m + 1, n, device);
    }
  }

  /** MAIN RESULT. As long as its device lives, a key row keeps its public key, and no upload
      revives it once it is consumed. */
  lemma {:induction false} NeverRevived(run: seq<State>, actions: seq<Action>, m: nat, n: nat, k: KeyName)
    requires IsRun(run, actions) && Initial(run[0]) && m <= n < |run|
    requires k in run[m].tables.oneTime && k.device in run[n].tables.sessions
    ensures k in run[n].tables.oneTime && Settled(run[m].tables.oneTime[k], run[n].tables.oneTime[k])
    decreases n - m
  {
    if m < n {
      RunKeeps(run, actions, m);
      assert run[m + 1] == Next(run[m], actions[m]);
      assert k.device in run[m + 1].issued;
      SessionsStayDeleted(run, actions, m + 1, n, k.device);
      StepSettles(run[m], actions[m], k);
      NeverRevived(run, actions, m + 1, n, k);
    }
  }

  // ----- The last upload ------------------------------------------------------------------------------

  /** Step `m` is the last upload of the device before step `n`. */
  ghost predicate LastUpload(actions: seq<Action>, n: nat, m: nat, device: DeviceId)
    requires n <= |actions|
  {
    && m < n && actions[m].UploadKeys? && actions[m].device == device
    && forall j | m < j < n :: !(actions[j].UploadKeys? && actions[j].device == device)
  }

  ghost predicate NeverUploaded(actions: seq<Action>, n: nat, device: DeviceId)
    requires n <= |actions|
  {
    forall j | 0 <= j < n :: !(actions[j].UploadKeys? && actions[j].device == device)
  }

  /** The identity key and the signed pre-key of the owner are those of the request. */
  predicate RowsOf(t: Tables, owner: Owner, req: UploadRequest) {
    && owner in t.identity && t.identity[owner] == IdentityKey(req.registrationId, req.identityKey)
    && owner in t.signed && t.signed[owner] == req.signed
  }

  predicate SameRows(t: Tables, u: Tables, owner: Owner) {
    && (owner in t.identity <==> owner in u.identity) && (owner in t.signed <==> owner in u.signed)
    && (owner in t.identity && owner in u.identity ==> t.identity[owner] == u.identity[owner])
    && (owner in t.signed && owner in u.signed ==> t.signed[owner] == u.signed[owner])
  }

  /** Only an upload of a device and its deletion change its identity key and its signed pre-key. */
  lemma RowsNext(s: State, a: Action, owner: Owner)
    requires Inv(s) && Enabled(s, a) && owner.device in Next(s, a).tables.sessions && owner.device in s.issued
    requires s.issued[owner.device] == owner.user
    ensures owner.device in s.tables.sessions
    ensures if a.UploadKeys? && a.device == owner.device then RowsOf(Next(s, a).tables, owner, a.req)
            else SameRows(s.tables, Next(s, a).tables, owner)
  {
    hide SpentMarked, SpentOnce, Selects, OnePerGivingDevice, InsertKeys, Delete, Consume, Unconsumed;
    match a
    case DeleteDevice(caller, device) => DeletedRows(s.tables, s.issued[caller], device, owner);
    case ConsumeKeys(claim) => ConsumedRows(s.tables, Found(s, claim));
    case _ =>
  }

  lemma DeletedRows(t: Tables, user: User, device: DeviceId, owner: Owner)
    requires owner.device in Delete(t, user, device).sessions
    ensures owner.device in t.sessions && SameRows(t, Delete(t, user, device), owner)
  {
  }

  lemma ConsumedRows(t: Tables, picked: set<KeyName>)
    ensures Consume(t, picked).identity == t.identity && Consume(t, picked).signed == t.signed
    ensures Consume(t, picked).sessions == t.sessions
  {
  }

  lemma FirstLogin(s: State, a: Action, device: DeviceId, user: User)
    requires Inv(s) && Enabled(s, a) && device in Next(s, a).tables.sessions && device !in s.issued
    ensures a.Login? && Owner(user, device) !in Next(s, a).tables.identity
            && Owner(user, device) !in Next(s, a).tables.signed
  {
    hide SpentMarked, SpentOnce, Selects, OnePerGivingDevice, InsertKeys;
  }

  lemma {:induction false} NotIssuedNoUpload(run: seq<State>, actions: seq<Action>, n: nat, device: DeviceId)
    requires IsRun(run, actions) && n < |run| && device !in run[n].issued
    ensures NeverUploaded(actions, n, device)
  {
    if n > 0 {
      var s, a := run[n - 1], actions[n - 1];
      assert Enabled(s, a) && run[n - 1 + 1] == Next(s, a);
      IssuedGrows(s, a);
      NotIssuedNoUpload(run, actions, n - 1, device);
    }
  }

  lemma IssuedGrows(s: State, a: Action)
    requires Enabled(s, a)
    ensures forall d | d in s.issued :: d in Next(s, a).issued && Next(s, a).issued[d] == s.issued[d]
  {
  }

  /** MAIN RESULT. As long as a device lives, its identity key and its signed pre-key are those of its last
      upload, and it has none before its first. */
  lemma {:induction false} RowsOfLastUpload(run: seq<State>, actions: seq<Action>, n: nat, owner: Owner)
    requires IsRun(run, actions) && Initial(run[0]) && n < |run|
    requires owner.device in run[n].tables.sessions && run[n].tables.sessions[owner.device].user == owner.user
    ensures forall m: nat | LastUpload(actions, n, m, owner.device) :: RowsOf(run[n].tables, owner, actions[m].req)
    ensures NeverUploaded(actions, n, owner.device) ==>
              owner !in run[n].tables.identity && owner !in run[n].tables.signed
  {
    hide Next, Enabled, Valid, SpentMarked;
    var device := owner.device;
    if n > 0 {
      var s, a := run[n - 1], actions[n - 1];
      assert Enabled(s, a) && run[n - 1 + 1] == Next(s, a);
      RunKeeps(run, actions, n - 1);
      RunKeeps(run, actions, n);
      IssuedGrows(s, a);
      if device in s.issued {
        RowsNext(s, a, owner);
        RowsOfLastUpload(run, actions, n - 1, owner);
        forall m: nat | LastUpload(actions, n, m, device) ensures RowsOf(run[n].tables, owner, actions[m].req) {
          if m < n - 1 { assert LastUpload(actions, n - 1, m, device); }
        }
      } else {
        NotIssuedNoUpload(run, actions, n - 1, device);
        FirstLogin(s, a, device, owner.user);
      }
    }
  }
}
