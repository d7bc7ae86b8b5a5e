/** The session and key tables (migrations/20260416000001 and 20260416000004) and the meaning of
    the statements that change them. Table keys are the schema's UNIQUE constraints. */
module KeyTables {
  import opened Models

  datatype Session = Session(user: User, valid: bool)
  datatype IdentityKey = IdentityKey(registrationId: int, publicKey: string)
  datatype SignedPreKey = SignedPreKey(keyId: int, publicKey: string, signature: string)
  datatype OneTimeKey = OneTimeKey(publicKey: string, consumed: bool)
  datatype Owner = Owner(user: User, device: DeviceId)
  datatype KeyName = KeyName(user: User, device: DeviceId, keyId: int)

  datatype Tables = Tables(
    sessions: map<DeviceId, Session>,
    identity: map<Owner, IdentityKey>,
    signed: map<Owner, SignedPreKey>,
    oneTime: map<KeyName, OneTimeKey>)

  datatype NewKey = NewKey(keyId: int, publicKey: string)

  datatype UploadRequest = UploadRequest(identityKey: string, registrationId: int, signed: SignedPreKey,
    oneTimeKeys: seq<NewKey>)

  // ----- Upload and deletion --------------------------------------------------------------------------

  /** The keys of a request inserted in order with `ON CONFLICT DO NOTHING`. */
  function InsertKeys(keys: map<KeyName, OneTimeKey>, owner: Owner, added: seq<NewKey>): map<KeyName, OneTimeKey> {
    if added == [] then keys
    else
      var before := InsertKeys(keys, owner, added[..|added| - 1]);
      var last := added[|added| - 1];
      var name := KeyName(owner.user, owner.device, last.keyId);
      if name in before then before else before[name := OneTimeKey(last.publicKey, false)]
  }

  /** The upload transaction; without a session row for the device the foreign keys fail it. */
  function Upload(t: Tables, owner: Owner, req: UploadRequest): Tables {
    if owner.device !in t.sessions then t
    else t.(identity := t.identity[owner := IdentityKey(req.registrationId, req.identityKey)],
            signed := t.signed[owner := req.signed],
            oneTime := InsertKeys(t.oneTime, owner, req.oneTimeKeys))
  }

  /** Deleting a session row of `user`, with the cascades to the three key tables. */
  function Delete(t: Tables, user: User, device: DeviceId): Tables {
    if device !in t.sessions || t.sessions[device].user != user then t
    else Tables(t.sessions - {device},
                map o | o in t.identity && o.device != device :: t.identity[o],
                map o | o in t.signed && o.device != device :: t.signed[o],
                map k | k in t.oneTime && k.device != device :: t.oneTime[k])
  }

  /** The public key a request gives first for a key id. */
  function FirstGiven(added: seq<NewKey>, keyId: int): Option<string> {
    if added == [] then None
    else
      var before := FirstGiven(added[..|added| - 1], keyId);
      if before.Some? then before
      else if added[|added| - 1].keyId == keyId then Some(added[|added| - 1].publicKey)
      else None
  }

  /** The public key given first for a key id is that of the first position with the id. */
  lemma {:induction false} FirstGivenAt(added: seq<NewKey>, keyId: int)
    ensures FirstGiven(added, keyId).None? <==> forall i | 0 <= i < |added| :: added[i].keyId != keyId
    ensures forall i | 0 <= i < |added| && added[i].keyId == keyId
              && (forall j | 0 <= j < i :: added[j].keyId != keyId) ::
              FirstGiven(added, keyId) == Some(added[i].publicKey)
  {
    if added != [] {
      var init := added[..|added| - 1];
      FirstGivenAt(init, keyId);
      assert forall j | 0 <= j < |init| :: init[j] == added[j];
    }
  }

  /** An old key stays as it is, consumed or not; a new one is unconsumed and carries the public
      key given first for its id. */
  lemma {:induction false} InsertedKey(keys: map<KeyName, OneTimeKey>, owner: Owner, added: seq<NewKey>, k: KeyName)
    ensures var after, given := InsertKeys(keys, owner, added), FirstGiven(added, k.keyId);
            && (k in keys ==> k in after && after[k] == keys[k])
            && (k !in keys ==>
                  (k in after <==> k.user == owner.user && k.device == owner.device && given.Some?)
                  && (k in after ==> after[k] == OneTimeKey(given.value, false)))
  {
    if added != [] {
      InsertedKey(keys, owner, added[..|added| - 1], k);
    }
  }

  // ----- The key-table invariant -----------------------------------------------------------------------

  /** Each key row's user owns the session its device id names, and identity and signed pre-key
      rows exist for the same devices. */
  ghost predicate Valid(t: Tables) {
    && t.identity.Keys == t.signed.Keys
    && (forall o | o in t.identity :: o.device in t.sessions && t.sessions[o.device].user == o.user)
    && (forall k | k in t.oneTime :: k.device in t.sessions && t.sessions[k.device].user == k.user)
  }

  lemma UploadValid(t: Tables, owner: Owner, req: UploadRequest)
    requires Valid(t) && (owner.device in t.sessions ==> t.sessions[owner.device].user == owner.user)
    ensures Valid(Upload(t, owner, req))
  {
    forall k | k in InsertKeys(t.oneTime, owner, req.oneTimeKeys)
      ensures k in t.oneTime || (k.user == owner.user && k.device == owner.device)
    {
      InsertedKey(t.oneTime, owner, req.oneTimeKeys, k);
    }
  }

  /** A row of the claim's join: identity and signed pre-key rows meet on the device id alone. */
  datatype Joined = Joined(identity: Owner, signed: Owner)

  function Join(t: Tables, target: User): set<Joined> {
    set o, p | o in t.identity && p in t.signed && p.device == o.device && o.user == target :: Joined(o, p)
  }

  /** The join on the device id alone yields each device of the target user exactly
      once, paired with the signed pre-key of the same user. */
  lemma JoinIsPerDevice(t: Tables, target: User)
    requires Valid(t)
    ensures forall j ::
              j in Join(t, target) <==> j.identity == j.signed && j.identity in t.identity && j.identity.user == target
    ensures forall a, b | a in Join(t, target) && b in Join(t, target)
            && a.identity.device == b.identity.device :: a == b
  {
  }

  /** After a deletion no claim sees the device or its keys, and every claim sees the other devices and
      their keys as before. */
  lemma DeletedUnseen(t: Tables, user: User, device: DeviceId, target: User, others: set<DeviceId>)
    requires Valid(t) && device in t.sessions && t.sessions[device].user == user && device !in others
    ensures var after := Delete(t, user, device);
            && Valid(after)
            && Unconsumed(after, {device}) == {} && Unconsumed(after, others) == Unconsumed(t, others)
            && (forall j :: j in Join(after, target) <==> j in Join(t, target) && j.identity.device != device)
            && (forall j | j in Join(after, target) ::
                  after.identity[j.identity] == t.identity[j.identity] && after.signed[j.signed] == t.signed[j.signed])
  {
    var after := Delete(t, user, device);
    assert after.identity.Keys == after.signed.Keys by {
      forall o ensures o in after.identity <==> o in after.signed {
        assert o in t.identity.Keys <==> o in t.signed.Keys;
      }
    }
    JoinIsPerDevice(t, target);
    JoinIsPerDevice(after, target);
  }

  // ----- The claim's UPDATE ------------------------------------------------------------------------------

  function Unconsumed(t: Tables, devices: set<DeviceId>): set<KeyName> {
    set k | k in t.oneTime && k.device in devices && !t.oneTime[k].consumed
  }

  /** The keys that name one device. */
  function OnDevice(keys: set<KeyName>, device: DeviceId): set<KeyName> {
    set k | k in keys && k.device == device
  }

  function Below(keys: set<KeyName>, device: DeviceId): set<KeyName> {
    set k | k in keys && k.device < device
  }

  /** What `ORDER BY device_id LIMIT n` may pick: `n` candidates if there are that many, and none
      before all candidates of smaller devices. The order within a device is left open. */
  ghost predicate Selects(candidates: set<KeyName>, n: nat, picked: set<KeyName>) {
    && picked <= candidates
    && |picked| == Min(n, |candidates|)
    && forall k, l | k in picked && l in candidates && l.device < k.device :: l in picked
  }

  function Consume(t: Tables, picked: set<KeyName>): Tables {
    t.(oneTime := map k | k in t.oneTime :: if k in picked then t.oneTime[k].(consumed := true) else t.oneTime[k])
  }

  /** Some candidate has no candidate on a smaller device. */
  lemma {:induction false} Smallest(keys: set<KeyName>) returns (k: KeyName)
    requires keys != {}
    ensures k in keys && forall l | l in keys :: k.device <= l.device
    decreases |keys|
  {
    k :| k in keys;
    if exists l | l in keys :: l.device < k.device {
      var l :| l in keys && l.device < k.device;
      var below := Below(keys, k.device);
      assert l in below && k !in below;
      assert below < keys;
      SubsetSmaller(below, keys);
      k := Smallest(below);
    }
  }

  lemma SubsetSmaller<T>(a: set<T>, b: set<T>)
    requires a < b
    ensures |a| < |b|
  {
    assert b == a + (b - a);
    assert b - a != {};
  }

  /** Among the devices below any bound, the UPDATE takes as many keys as there are, up to `n`. */
  lemma SelectedBelow(candidates: set<KeyName>, n: nat, picked: set<KeyName>, device: DeviceId)
    requires Selects(candidates, n, picked)
    ensures |Below(picked, device)| == Min(n, |Below(candidates, device)|)
  {
    var below, all := Below(picked, device), Below(candidates, device);
    SubsetAtMost(below, picked);
    SubsetAtMost(below, all);
    SubsetAtMost(all, candidates);
    if k :| k in picked && k !in below {
      assert below == all;
    } else {
      assert below == picked;
      if |candidates| <= n {
        SameSize(picked, candidates);
      }
    }
  }

  lemma SubsetAtMost<T>(a: set<T>, b: set<T>)
    requires a <= b
    ensures |a| <= |b|
  {
    assert b == a + (b - a);
  }

  lemma SameSize<T>(a: set<T>, b: set<T>)
    requires a <= b && |a| == |b|
    ensures a == b
  {
    assert b == a + (b - a);
  }

  // ----- The exact allocation ------------------------------------------------------------------------------

  /** Device ids in increasing order. */
  predicate Ascending(devices: seq<DeviceId>) {
    forall i, j | 0 <= i < j < |devices| :: devices[i] < devices[j]
  }

  function Counts(keys: set<KeyName>, devices: seq<DeviceId>): (r: seq<nat>)
    ensures |r| == |devices| && forall i | 0 <= i < |r| :: r[i] == |OnDevice(keys, devices[i])|
  {
    seq(|devices|, i requires 0 <= i < |devices| => |OnDevice(keys, devices[i])|)
  }

  /** The sum of the first `i` counts. */
  function Sum(counts: seq<nat>, i: nat): nat
    requires i <= |counts|
  {
    if i == 0 then 0 else Sum(counts, i - 1) + counts[i - 1]
  }

  ghost predicate OnThese(keys: set<KeyName>, devices: seq<DeviceId>) {
    forall k | k in keys :: k.device in devices
  }

  /** The keys of the first `i` devices. */
  function UpTo(keys: set<KeyName>, devices: seq<DeviceId>, i: nat): set<KeyName>
    requires i <= |devices|
  {
    if i < |devices| then Below(keys, devices[i]) else keys
  }

  lemma UpToNext(keys: set<KeyName>, devices: seq<DeviceId>, i: nat)
    requires Ascending(devices) && OnThese(keys, devices) && i < |devices|
    ensures |UpTo(keys, devices, i + 1)| == |UpTo(keys, devices, i)| + |OnDevice(keys, devices[i])|
  {
    var before, here, after := UpTo(keys, devices, i), OnDevice(keys, devices[i]), UpTo(keys, devices, i + 1);
    forall k | k in keys ensures k in after <==> k in before || k in here {
      var j :| 0 <= j < |devices| && devices[j] == k.device;
    }
    assert after == before + here;
    assert before !! here;
  }

  lemma {:induction false} SumUpTo(keys: set<KeyName>, devices: seq<DeviceId>, i: nat)
    requires Ascending(devices) && OnThese(keys, devices) && i <= |devices|
    ensures Sum(Counts(keys, devices), i) == |UpTo(keys, devices, i)|
  {
    if i > 0 {
      SumUpTo(keys, devices, i - 1);
      UpToNext(keys, devices, i - 1);
    } else {
      assert UpTo(keys, devices, 0) == {} by {
        forall k | k in keys ensures |devices| > 0 && devices[0] <= k.device {}
      }
    }
  }

  /** In order, everyone gets what is there for them as long as the shared limit lasts. */
  ghost predicate Greedy(available: seq<nat>, taken: seq<nat>, limit: nat) {
    && |available| == |taken|
    && forall i | 0 <= i < |taken| :: Sum(taken, i) <= limit && taken[i] == Min(available[i], limit - Sum(taken, i))
  }

  lemma SelectedUpTo(candidates: set<KeyName>, picked: set<KeyName>, devices: seq<DeviceId>, i: nat)
    requires Ascending(devices) && OnThese(candidates, devices) && Selects(candidates, |devices|, picked)
             && i <= |devices|
    ensures Sum(Counts(picked, devices), i) == Min(|devices|, Sum(Counts(candidates, devices), i))
  {
    hide Sum, Counts, Selects;
    assert OnThese(picked, devices) by { PickedOnThese(candidates, picked, devices); }
    SumUpTo(candidates, devices, i);
    SumUpTo(picked, devices, i);
    if i < |devices| {
      SelectedBelow(candidates, |devices|, picked, devices[i]);
    } else {
      SelectsSize(candidates, |devices|, picked);
    }
  }

  lemma SelectsSize(candidates: set<KeyName>, n: nat, picked: set<KeyName>)
    requires Selects(candidates, n, picked)
    ensures |picked| == Min(n, |candidates|)
  {
  }

  lemma PickedOnThese(candidates: set<KeyName>, picked: set<KeyName>, devices: seq<DeviceId>)
    requires OnThese(candidates, devices) && Selects(candidates, |devices|, picked)
    ensures OnThese(picked, devices)
  {
  }

  lemma SumNext(counts: seq<nat>, i: nat)
    requires i < |counts|
    ensures Sum(counts, i + 1) == Sum(counts, i) + counts[i]
  {
  }

  lemma LimitedSums(available: seq<nat>, taken: seq<nat>, limit: nat)
    requires |available| == |taken|
    requires forall i | 0 <= i <= |taken| :: Sum(taken, i) == Min(limit, Sum(available, i))
    ensures Greedy(available, taken, limit)
  {
    hide Sum;
    forall i | 0 <= i < |taken|
      ensures Sum(taken, i) <= limit && taken[i] == Min(available[i], limit - Sum(taken, i))
    {
      SumNext(taken, i);
      SumNext(available, i);
      assert Sum(taken, i + 1) == Min(limit, Sum(available, i + 1));
    }
  }

  /** MAIN RESULT. A claim over the devices `devices` in device order takes from each as many keys
      as it has, limited by what the earlier ones have left of the shared limit `|devices|`; in all
      it takes the smaller of the limit and the keys there are. */
  lemma GreedyAllocation(candidates: set<KeyName>, picked: set<KeyName>, devices: seq<DeviceId>)
    requires Ascending(devices) && OnThese(candidates, devices) && Selects(candidates, |devices|, picked)
    ensures Greedy(Counts(candidates, devices), Counts(picked, devices), |devices|)
    ensures |picked| == Sum(Counts(picked, devices), |devices|)
            == Min(|devices|, Sum(Counts(candidates, devices), |devices|))
  {
    hide Selects, OnThese, Sum, Greedy;
    var available, taken, n := Counts(candidates, devices), Counts(picked, devices), |devices|;
    forall i | 0 <= i <= n ensures Sum(taken, i) == Min(n, Sum(available, i)) {
      SelectedUpTo(candidates, picked, devices, i);
    }
    LimitedSums(available, taken, n);
    PickedOnThese(candidates, picked, devices);
    SumUpTo(picked, devices, n);
  }

  // ----- The documented allocation ---------------------------------------------------------------------------

  /** One for everyone who has any. */
  predicate OneEach(available: seq<nat>, taken: seq<nat>)
    requires |available| == |taken|
  {
    forall i | 0 <= i < |taken| :: taken[i] == Min(1, available[i])
  }

  /** Nobody but the last has more than one, and the last only if everybody else has one. */
  predicate NoSpare(available: seq<nat>) {
    && (forall i | 0 <= i < |available| - 1 :: available[i] <= 1)
    && (available != [] && available[|available| - 1] > 1 ==> forall i | 0 <= i < |available| - 1 :: available[i] == 1)
  }

  lemma {:induction false} OnesBefore(taken: seq<nat>, i: nat)
    requires i <= |taken| && forall j | 0 <= j < i :: taken[j] <= 1
    ensures Sum(taken, i) <= i
    ensures Sum(taken, i) == i <==> forall j | 0 <= j < i :: taken[j] == 1
  {
    if i > 0 { OnesBefore(taken, i - 1); }
  }

  lemma {:induction false} NoSpareOnes(available: seq<nat>, taken: seq<nat>, i: nat)
    requires Greedy(available, taken, |taken|) && NoSpare(available) && i <= |taken|
    ensures forall j | 0 <= j < i :: taken[j] == Min(1, available[j])
  {
    hide Sum;
    if i > 0 {
      NoSpareOnes(available, taken, i - 1);
      OnesBefore(taken, i - 1);
      if available[i - 1] > 1 {
        assert i == |taken|;
        assert forall j | 0 <= j < i - 1 :: taken[j] == 1;
      }
    }
  }

  lemma OneEachNoSpare(available: seq<nat>, taken: seq<nat>)
    requires Greedy(available, taken, |taken|) && OneEach(available, taken)
    ensures NoSpare(available)
  {
    hide Sum;
    var n := |taken|;
    forall i | 0 <= i < n && available[i] > 1 ensures i == n - 1 && forall j | 0 <= j < i :: taken[j] == 1 {
      OnesBefore(taken, i);
      assert taken[i] == Min(available[i], n - Sum(taken, i));
    }
  }

  lemma GreedyOneEachIff(available: seq<nat>, taken: seq<nat>)
    requires Greedy(available, taken, |taken|)
    ensures OneEach(available, taken) <==> NoSpare(available)
  {
    hide Sum;
    if OneEach(available, taken) { OneEachNoSpare(available, taken); }
    if NoSpare(available) { NoSpareOnes(available, taken, |taken|); }
  }

  /** MAIN RESULT. The claim pops one key per device, as docs/api.md promises, exactly when there
      are no spare keys before the limit is used up; in particular always on a page of one device. */
  lemma OnePerDeviceIff(candidates: set<KeyName>, picked: set<KeyName>, devices: seq<DeviceId>)
    requires Ascending(devices) && OnThese(candidates, devices) && Selects(candidates, |devices|, picked)
    ensures OneEach(Counts(candidates, devices), Counts(picked, devices)) <==> NoSpare(Counts(candidates, devices))
    ensures |devices| == 1 ==> OneEach(Counts(candidates, devices), Counts(picked, devices))
  {
    GreedyAllocation(candidates, picked, devices);
    GreedyOneEachIff(Counts(candidates, devices), Counts(picked, devices));
  }

  /** The shared limit in the way of the promise: of two devices, the first has a spare key and
      takes it, and the second is left with none although it has one. */
  lemma SpareKeyStarves(user: User) returns (candidates: set<KeyName>, picked: set<KeyName>)
    ensures OnThese(candidates, [1, 2]) && Selects(candidates, 2, picked)
    ensures OnDevice(candidates, 2) != {} && OnDevice(picked, 2) == {}
    ensures forall other | Selects(candidates, 2, other) :: other == picked
  {
    var a, b, c := KeyName(user, 1, 1), KeyName(user, 1, 2), KeyName(user, 2, 1);
    candidates, picked := {a, b, c}, {a, b};
    assert c in OnDevice(candidates, 2);
    forall other | Selects(candidates, 2, other) ensures other == picked {
      assert |other| == 2;
      assert c !in other by {
        if c in other { SubsetAtMost({a, b, c}, other); }
      }
      SameSize(other, picked);
    }
  }

  /** What is left of a device after the UPDATE. */
  lemma RemainingAfter(t: Tables, devices: set<DeviceId>, picked: set<KeyName>, device: DeviceId)
    requires picked <= Unconsumed(t, devices) && device in devices
    ensures Unconsumed(Consume(t, picked), {device})
            == OnDevice(Unconsumed(t, devices), device) - OnDevice(picked, device)
    ensures |Unconsumed(Consume(t, picked), {device})|
            == |OnDevice(Unconsumed(t, devices), device)| - |OnDevice(picked, device)|
  {
  }
}
