/** A run in which two claims return the same one-time key: both sub-selects pick its row before either
    update of the rows. */
module KeyOverlap {
  import opened Models
  import opened Runs
  import opened KeyTables
  import opened KeyProtocol

  ghost predicate IsStep(s: State, a: Action, next: State) {
    Enabled(s, a) && next == Next(s, a)
  }

  lemma AsRun(run: seq<State>, actions: seq<Action>)
    ensures IsRun(run, actions) <==> IsRunOf(IsStep, run, actions)
  {
    hide Next, Enabled;
    if IsRunOf(IsStep, run, actions) {
      forall i | 0 <= i < |actions| ensures Enabled(run[i], actions[i]) && run[i + 1] == Next(run[i], actions[i]) {
        assert IsStep(run[i], actions[i], run[i + 1]);
      }
    }
  }

  /** One device with one unconsumed key, and the claims in hand. */
  function OneKey(k: KeyName, key: OneTimeKey, req: UploadRequest, claims: map<nat, Claim>): State {
    var owner := Owner(k.user, k.device);
    State(Tables(map[k.device := Session(k.user, true)], map[owner := IdentityKey(req.registrationId, req.identityKey)],
                 map[owner := req.signed], map[k := key]),
          map[k.device := k.user], claims, {k}, [], {})
  }

  lemma Uploads(k: KeyName, req: UploadRequest, publicKey: string) returns (run: seq<State>)
    requires req.oneTimeKeys == [NewKey(k.keyId, publicKey)]
    ensures IsRun(run, [Login(k.user, k.device), UploadKeys(k.device, req)]) && Initial(run[0])
    ensures run[2] == OneKey(k, OneTimeKey(publicKey, false), req, map[])
  {
    var s0 := State(Tables(map[], map[], map[], map[]), map[], map[], {}, [], {});
    var s1 := Next(s0, Login(k.user, k.device));
    assert req.oneTimeKeys[..0] == [];
    assert InsertKeys(map[], Owner(k.user, k.device), req.oneTimeKeys) == map[k := OneTimeKey(publicKey, false)];
    run := [s0, s1, Next(s1, UploadKeys(k.device, req))];
  }

  lemma SelectsIt(k: KeyName, t: Tables, key: OneTimeKey)
    requires t.oneTime == map[k := key] && !key.consumed
    ensures Selects(Unconsumed(t, {k.device}), 1, {k})
  {
    assert Unconsumed(t, {k.device}) == {k};
  }

  lemma BothPick(s: State, k: KeyName, key: OneTimeKey) returns (run: seq<State>)
    requires s.claims == map[] && s.tables.oneTime == map[k := key] && !key.consumed
    ensures IsRun(run, [FetchPage(1, {k.device}), FetchPage(2, {k.device}), PickKeys(1, 1, {k}), PickKeys(2, 1, {k})])
            && run[0] == s
    ensures run[4] == s.(claims := map[1 := Claim({k.device}, Picked({k})), 2 := Claim({k.device}, Picked({k}))])
  {
    hide Selects, Unconsumed;
    SelectsIt(k, s.tables, key);
    var s1 := Next(s, FetchPage(1, {k.device}));
    var s2 := Next(s1, FetchPage(2, {k.device}));
    var s3 := Next(s2, PickKeys(1, 1, {k}));
    assert s3.claims == map[1 := Claim({k.device}, Picked({k})), 2 := Claim({k.device}, Fetched)];
    run := [s, s1, s2, s3, Next(s3, PickKeys(2, 1, {k}))];
  }

  lemma BothConsume(s: State, k: KeyName) returns (run: seq<State>)
    requires s.claims == map[1 := Claim({k.device}, Picked({k})), 2 := Claim({k.device}, Picked({k}))]
             && k in s.tables.oneTime
    ensures IsRun(run, [ConsumeKeys(1), ConsumeKeys(2)]) && run[0] == s
    ensures run[2].claims == map[1 := Claim({k.device}, Taken({k})), 2 := Claim({k.device}, Taken({k}))]
            && run[2].returned == s.returned
  {
    assert Found(s, 1) == {k};
    var s1 := Next(s, ConsumeKeys(1));
    assert Found(s1, 2) == {k};
    run := [s, s1, Next(s1, ConsumeKeys(2))];
  }

  lemma Responds(s: State, claim: nat, k: KeyName)
    requires claim in s.claims && s.claims[claim] == Claim({k.device}, Taken({k}))
    ensures Enabled(s, Respond(claim, [k]))
    ensures Next(s, Respond(claim, [k])).returned == s.returned + [k]
            && Next(s, Respond(claim, [k])).claims == s.claims - {claim}
  {
    assert k in [k];
  }

  lemma BothRespond(s: State, k: KeyName) returns (run: seq<State>)
    requires s.claims == map[1 := Claim({k.device}, Taken({k})), 2 := Claim({k.device}, Taken({k}))] && s.returned == []
    ensures IsRun(run, [Respond(1, [k]), Respond(2, [k])]) && run[0] == s && run[2].returned == [k, k]
  {
    hide Next, Enabled;
    Responds(s, 1, k);
    var s1 := Next(s, Respond(1, [k]));
    Responds(s1, 2, k);
    run := [s, s1, Next(s1, Respond(2, [k]))];
  }

  /** For any key there is a run that returns it twice. */
  lemma ReturnedTwice(k: KeyName, req: UploadRequest, publicKey: string) returns (run: seq<State>, actions: seq<Action>)
    requires req.oneTimeKeys == [NewKey(k.keyId, publicKey)]
    ensures IsRun(run, actions) && Initial(run[0]) && run[|actions|].returned == [k, k]
  {
    hide Next, Enabled, Initial;
    var a := Uploads(k, req, publicKey);
    var b := BothPick(a[2], k, OneTimeKey(publicKey, false));
    var c := BothConsume(b[4], k);
    var d := BothRespond(c[2], k);
    var uploads := [Login(k.user, k.device), UploadKeys(k.device, req)];
    var picks := [FetchPage(1, {k.device}), FetchPage(2, {k.device}), PickKeys(1, 1, {k}), PickKeys(2, 1, {k})];
    var updates, answers := [ConsumeKeys(1), ConsumeKeys(2)], [Respond(1, [k]), Respond(2, [k])];
    AsRun(a, uploads);
    AsRun(b, picks);
    AsRun(c, updates);
    AsRun(d, answers);
    hide IsStep, IsRun;
    run := Chained(IsStep, a, uploads, b, picks);
    run := Chained(IsStep, run, uploads + picks, c, updates);
    run := Chained(IsStep, run, uploads + picks + updates, d, answers);
    actions := uploads + picks + updates + answers;
    AsRun(run, actions);
  }
}
