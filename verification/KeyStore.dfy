/** The key endpoints of api/src/e2ee.rs over one database: upload, claim and device deletion. */
module KeyStore {
  import opened Models
  import opened KeyTables

  const CURVE25519_KEY_LEN: nat := 32
  const CURVE25519_SIGNATURE_LEN: nat := 64
  const MAX_KEYS_PER_REQUEST: nat := 100
  const MAX_KEY_ID: int := 1_000_000
  const MAX_REGISTRATION_ID: int := 16380
  const MAX_DEVICES_PER_CLAIM: int := 100

  datatype UploadOutcome =
    | Uploaded | UploadFailed
    | BadRegistrationId | BadSignedKeyId | BadIdentityKey | BadSignedKey | BadSignature
    | TooManyKeys | BadOneTimeKeyId | BadOneTimeKey
    | BadSessionId

  /** `validate_base64_key`: whether a text decodes to that many bytes. */
  type Decodes = (string, nat) -> bool

  /** What is wrong with the keys from position `i` on, first fault first. */
  function KeysFault(keys: seq<NewKey>, decodes: Decodes, i: nat): Option<UploadOutcome>
    requires i <= |keys|
    decreases |keys| - i
  {
    if i == |keys| then None
    else if keys[i].keyId < 0 || keys[i].keyId > MAX_KEY_ID then Some(BadOneTimeKeyId)
    else if !decodes(keys[i].publicKey, CURVE25519_KEY_LEN) then Some(BadOneTimeKey)
    else KeysFault(keys, decodes, i + 1)
  }

  predicate KeyOk(key: NewKey, decodes: Decodes) {
    0 <= key.keyId <= MAX_KEY_ID && decodes(key.publicKey, CURVE25519_KEY_LEN)
  }

  /** Every field of the request is in range and decodes. */
  predicate Acceptable(req: UploadRequest, decodes: Decodes) {
    && 0 <= req.registrationId <= MAX_REGISTRATION_ID
    && 0 <= req.signed.keyId <= MAX_KEY_ID
    && decodes(req.identityKey, CURVE25519_KEY_LEN)
    && decodes(req.signed.publicKey, CURVE25519_KEY_LEN)
    && decodes(req.signed.signature, CURVE25519_SIGNATURE_LEN)
    && |req.oneTimeKeys| <= MAX_KEYS_PER_REQUEST
    && forall i | 0 <= i < |req.oneTimeKeys| :: KeyOk(req.oneTimeKeys[i], decodes)
  }

  /** The key at position `j` is the first one from `i` on with anything wrong. */
  predicate FirstBad(keys: seq<NewKey>, decodes: Decodes, i: nat, j: nat) {
    i <= j < |keys| && !KeyOk(keys[j], decodes) && forall l | i <= l < j :: KeyOk(keys[l], decodes)
  }

  /** No fault exactly if nothing is wrong with any key; else the fault of the first bad key, its id first. */
  lemma {:induction false} KeysFaultIff(keys: seq<NewKey>, decodes: Decodes, i: nat)
    requires i <= |keys|
    ensures KeysFault(keys, decodes, i).None? <==> forall j | i <= j < |keys| :: KeyOk(keys[j], decodes)
    ensures forall j: nat | FirstBad(keys, decodes, i, j) ::
              KeysFault(keys, decodes, i)
              == Some(if 0 <= keys[j].keyId <= MAX_KEY_ID then BadOneTimeKey else BadOneTimeKeyId)
    decreases |keys| - i
  {
    if i < |keys| {
      KeysFaultIff(keys, decodes, i + 1);
      forall j: nat | FirstBad(keys, decodes, i, j)
        ensures KeysFault(keys, decodes, i)
                == Some(if 0 <= keys[j].keyId <= MAX_KEY_ID then BadOneTimeKey else BadOneTimeKeyId)
      {
        if i < j { assert KeyOk(keys[i], decodes) && FirstBad(keys, decodes, i + 1, j); }
      }
    }
  }

  /** The first thing wrong with a request, field by field. */
  function Fault(req: UploadRequest, decodes: Decodes): Option<UploadOutcome> {
    if !(0 <= req.registrationId <= MAX_REGISTRATION_ID) then Some(BadRegistrationId)
    else if !(0 <= req.signed.keyId <= MAX_KEY_ID) then Some(BadSignedKeyId)
    else if !decodes(req.identityKey, CURVE25519_KEY_LEN) then Some(BadIdentityKey)
    else if !decodes(req.signed.publicKey, CURVE25519_KEY_LEN) then Some(BadSignedKey)
    else if !decodes(req.signed.signature, CURVE25519_SIGNATURE_LEN) then Some(BadSignature)
    else if |req.oneTimeKeys| > MAX_KEYS_PER_REQUEST then Some(TooManyKeys)
    else KeysFault(req.oneTimeKeys, decodes, 0)
  }

  lemma FaultIff(req: UploadRequest, decodes: Decodes)
    ensures Fault(req, decodes).None? <==> Acceptable(req, decodes)
  {
    KeysFaultIff(req.oneTimeKeys, decodes, 0);
  }

  /** Whether the request passes the check that answers with this outcome. */
  predicate Passes(req: UploadRequest, decodes: Decodes, outcome: UploadOutcome) {
    match outcome
    case BadRegistrationId => 0 <= req.registrationId <= MAX_REGISTRATION_ID
    case BadSignedKeyId => 0 <= req.signed.keyId <= MAX_KEY_ID
    case BadIdentityKey => decodes(req.identityKey, CURVE25519_KEY_LEN)
    case BadSignedKey => decodes(req.signed.publicKey, CURVE25519_KEY_LEN)
    case BadSignature => decodes(req.signed.signature, CURVE25519_SIGNATURE_LEN)
    case TooManyKeys => |req.oneTimeKeys| <= MAX_KEYS_PER_REQUEST
    case _ => true
  }

  const CHECKS := [BadRegistrationId, BadSignedKeyId, BadIdentityKey, BadSignedKey, BadSignature, TooManyKeys]

  /** The fault of a request is that of the first check it does not pass. */
  lemma FirstFault(req: UploadRequest, decodes: Decodes, i: nat)
    requires i < |CHECKS| && !Passes(req, decodes, CHECKS[i])
    requires forall j | 0 <= j < i :: Passes(req, decodes, CHECKS[j])
    ensures Fault(req, decodes) == Some(CHECKS[i])
  {
    assert i > 0 ==> Passes(req, decodes, CHECKS[0]);
    assert i > 1 ==> Passes(req, decodes, CHECKS[1]);
    assert i > 2 ==> Passes(req, decodes, CHECKS[2]);
    assert i > 3 ==> Passes(req, decodes, CHECKS[3]);
    assert i > 4 ==> Passes(req, decodes, CHECKS[4]);
  }

  /** If it passes them all, it is the fault of the first bad key. */
  lemma FirstKeyFault(req: UploadRequest, decodes: Decodes, i: nat)
    requires forall j | 0 <= j < |CHECKS| :: Passes(req, decodes, CHECKS[j])
    requires FirstBad(req.oneTimeKeys, decodes, 0, i)
    ensures Fault(req, decodes)
            == Some(if 0 <= req.oneTimeKeys[i].keyId <= MAX_KEY_ID then BadOneTimeKey else BadOneTimeKeyId)
  {
    KeysFaultIff(req.oneTimeKeys, decodes, 0);
    FirstFaultNone(req, decodes);
  }

  lemma FirstFaultNone(req: UploadRequest, decodes: Decodes)
    requires forall j | 0 <= j < |CHECKS| :: Passes(req, decodes, CHECKS[j])
    ensures Fault(req, decodes) == KeysFault(req.oneTimeKeys, decodes, 0)
  {
    assert Passes(req, decodes, CHECKS[0]) && Passes(req, decodes, CHECKS[1]) && Passes(req, decodes, CHECKS[2]);
    assert Passes(req, decodes, CHECKS[3]) && Passes(req, decodes, CHECKS[4]) && Passes(req, decodes, CHECKS[5]);
  }

  datatype DeviceKeys = DeviceKeys(device: DeviceId, identityKey: string, registrationId: int, signed: SignedPreKey,
                                   oneTimeKey: Option<NewKey>, remaining: nat)

  datatype ClaimOutcome = Claimed(devices: seq<DeviceKeys>) | NoKeysFound | ClaimFailed

  datatype DeleteOutcome = Deleted | Forbidden

  /** The order in which the database returns rows is its own. */
  method InSomeOrder<T(==)>(rows: set<T>) returns (s: seq<T>)
    ensures NoRepeats(s) && |s| == |rows| && (forall x :: x in s <==> x in rows)
  {
    s := [];
    var left := rows;
    while left != {}
      invariant left <= rows && NoRepeats(s) && |s| + |left| == |rows|
      invariant forall x :: x in s <==> x in rows && x !in left
      decreases |left|
    {
      var x :| x in left;
      s := s + [x];
      left := left - {x};
    }
  }

  function FirstOn(rows: seq<KeyName>, device: DeviceId): (r: Option<KeyName>)
    ensures r.Some? ==> r.value in rows && r.value.device == device
    ensures r.None? ==> forall k | k in rows :: k.device != device
  {
    if rows == [] then None
    else if rows[0].device == device then Some(rows[0])
    else FirstOn(rows[1..], device)
  }

  function PageDevices(page: seq<Joined>): set<DeviceId> {
    set j | j in page :: j.identity.device
  }

  /** The effective LIMIT and OFFSET of a claim. */
  function EffectiveLimit(limit: Option<int>): int {
    var l := if limit.Some? then limit.value else MAX_DEVICES_PER_CLAIM;
    if l < MAX_DEVICES_PER_CLAIM then l else MAX_DEVICES_PER_CLAIM
  }

  function EffectiveOffset(offset: Option<int>): nat {
    if offset.Some? && offset.value > 0 then offset.value else 0
  }

  /** A claim asks for at most a hundred devices, for as many as its limit says if that is less, and skips
      as many as its offset says, a negative offset being none. */
  lemma PageBounds(limit: Option<int>, offset: Option<int>)
    ensures EffectiveLimit(limit) <= MAX_DEVICES_PER_CLAIM
    ensures limit.None? ==> EffectiveLimit(limit) == MAX_DEVICES_PER_CLAIM
    ensures limit.Some? ==> EffectiveLimit(limit) <= limit.value
    ensures limit.Some? && limit.value <= MAX_DEVICES_PER_CLAIM ==> EffectiveLimit(limit) == limit.value
    ensures limit.Some? && limit.value >= MAX_DEVICES_PER_CLAIM ==> EffectiveLimit(limit) == MAX_DEVICES_PER_CLAIM
    ensures offset.None? || offset.value <= 0 ==> EffectiveOffset(offset) == 0
    ensures offset.Some? && offset.value >= 0 ==> EffectiveOffset(offset) == offset.value
  {
  }

  /** `page` is some page of the join of that size. */
  ghost predicate IsPage(t: Tables, target: User, limit: nat, offset: nat, page: seq<Joined>) {
    && NoRepeats(page)
    && (forall j | j in page :: j in Join(t, target))
    && |page| == if |Join(t, target)| <= offset then 0 else Min(limit, |Join(t, target)| - offset)
  }

  /** The answer for one row of the page, given the picked keys. */
  ghost predicate Answers(t: Tables, picked: set<KeyName>, row: Joined, a: DeviceKeys)
  {
    && row.identity in t.identity && row.signed in t.signed && picked <= t.oneTime.Keys
    && a.device == row.identity.device
    && a.identityKey == t.identity[row.identity].publicKey
    && a.registrationId == t.identity[row.identity].registrationId
    && a.signed == t.signed[row.signed]
    && a.remaining == |Unconsumed(t, {a.device})|
    && (a.oneTimeKey.None? <==> OnDevice(picked, a.device) == {})
    && (a.oneTimeKey.Some? ==>
          exists k | k in picked :: k.device == a.device
            && a.oneTimeKey.value == NewKey(k.keyId, t.oneTime[k].publicKey))
  }

  class Database {
    var sessions: map<DeviceId, Session>
    var identity: map<Owner, IdentityKey>
    var signed: map<Owner, SignedPreKey>
    var oneTime: map<KeyName, OneTimeKey>

    function Contents(): Tables
      reads this
    {
      Tables(sessions, identity, signed, oneTime)
    }

    constructor (sessions: map<DeviceId, Session>)
      ensures Contents() == Tables(sessions, map[], map[], map[])
    {
      this.sessions, identity, signed, oneTime := sessions, map[], map[], map[];
    }

    /** Checks the request field by field, then writes identity key, signed pre-key and one-time
        keys in one transaction. */
    method UploadKeys(user: User, sessionId: Option<DeviceId>, req: UploadRequest, decodes: Decodes)
        returns (outcome: UploadOutcome)
      modifies this
      ensures outcome == match Fault(req, decodes)
                         case Some(fault) => fault
                         case None =>
                           if sessionId.None? then BadSessionId
                           else if sessionId.value in old(sessions) then Uploaded else UploadFailed
      ensures outcome == Uploaded ==>
                && Acceptable(req, decodes) && sessionId.Some? && sessionId.value in sessions
                && var owner := Owner(user, sessionId.value);
                   && owner in identity && owner in signed
                   && identity[owner] == IdentityKey(req.registrationId, req.identityKey)
                   && signed[owner] == req.signed
                   && (forall o | o != owner :: o in identity <==> o in old(identity))
                   && (forall o | o != owner :: o in signed <==> o in old(signed))
                   && (forall o | o != owner && o in identity :: identity[o] == old(identity)[o])
                   && (forall o | o != owner && o in signed :: signed[o] == old(signed)[o])
      ensures outcome != Uploaded ==> Contents() == old(Contents())
      ensures sessions == old(sessions)
      ensures Contents() ==
              if Acceptable(req, decodes) && sessionId.Some?
              then Upload(old(Contents()), Owner(user, sessionId.value), req)
              else old(Contents())
    {
      FaultIff(req, decodes);
      if req.registrationId < 0 || req.registrationId > MAX_REGISTRATION_ID { return BadRegistrationId; }
      if req.signed.keyId < 0 || req.signed.keyId > MAX_KEY_ID { return BadSignedKeyId; }
      if !decodes(req.identityKey, CURVE25519_KEY_LEN) { return BadIdentityKey; }
      if !decodes(req.signed.publicKey, CURVE25519_KEY_LEN) { return BadSignedKey; }
      if !decodes(req.signed.signature, CURVE25519_SIGNATURE_LEN) { return BadSignature; }
      if |req.oneTimeKeys| > MAX_KEYS_PER_REQUEST { return TooManyKeys; }
      for i := 0 to |req.oneTimeKeys|
        invariant KeysFault(req.oneTimeKeys, decodes, 0) == KeysFault(req.oneTimeKeys, decodes, i)
      {
        var key := req.oneTimeKeys[i];
        if key.keyId < 0 || key.keyId > MAX_KEY_ID { return BadOneTimeKeyId; }
        if !decodes(key.publicKey, CURVE25519_KEY_LEN) { return BadOneTimeKey; }
      }
      if sessionId.None? { return BadSessionId; }
      var device := sessionId.value;
      if device !in sessions { return UploadFailed; }
      var owner := Owner(user, device);
      var keys := oneTime;
      for i := 0 to |req.oneTimeKeys|
        invariant keys == InsertKeys(old(oneTime), owner, req.oneTimeKeys[..i])
        invariant Contents() == old(Contents())
      {
        assert req.oneTimeKeys[..i + 1][..i] == req.oneTimeKeys[..i];
        var name := KeyName(user, device, req.oneTimeKeys[i].keyId);
        if name !in keys {
          keys := keys[name := OneTimeKey(req.oneTimeKeys[i].publicKey, false)];
        }
      }
      assert req.oneTimeKeys[..|req.oneTimeKeys|] == req.oneTimeKeys;
      identity := identity[owner := IdentityKey(req.registrationId, req.identityKey)];
      signed := signed[owner := req.signed];
      oneTime := keys;
      outcome := Uploaded;
    }

    /** The claim's UPDATE: marks up to `n` unconsumed keys of the devices, in device order. */
    method ConsumeKeys(devices: set<DeviceId>, n: nat) returns (rows: seq<KeyName>, picked: set<KeyName>)
      modifies this`oneTime
      ensures Selects(Unconsumed(old(Contents()), devices), n, picked)
      ensures Contents() == Consume(old(Contents()), picked)
      ensures NoRepeats(rows) && (forall k :: k in rows <==> k in picked)
    {
      var candidates := Unconsumed(Contents(), devices);
      var keys := {};
      while |keys| < n && keys < candidates
        invariant keys <= candidates && |keys| <= n && Contents() == old(Contents())
        invariant forall k, l | k in keys && l in candidates && l.device < k.device :: l in keys
        decreases candidates - keys
      {
        Smaller(keys, candidates);
        var k :| k in candidates - keys && forall l | l in candidates - keys :: k.device <= l.device;
        keys := keys + {k};
      }
      assert keys < candidates || keys == candidates;
      if keys < candidates { SubsetSmaller(keys, candidates); }
      picked := keys;
      oneTime := Consume(Contents(), picked).oneTime;
      rows := InSomeOrder(picked);
    }

    static lemma Smaller(keys: set<KeyName>, candidates: set<KeyName>)
      requires keys < candidates
      ensures exists k :: k in candidates - keys && forall l | l in candidates - keys :: k.device <= l.device
    {
      assert candidates == keys + (candidates - keys);
      var k := Smallest(candidates - keys);
    }

    /** Claims a page of the target's devices: one query for the page, the UPDATE, one count, and
        the answers row by row. */
    method ClaimKeys(target: User, limit: Option<int>, offset: Option<int>)
      returns (outcome: ClaimOutcome, page: seq<Joined>, picked: set<KeyName>)
      modifies this`oneTime
      ensures outcome == ClaimFailed <==> EffectiveLimit(limit) < 0
      ensures outcome != ClaimFailed
              ==> IsPage(old(Contents()), target, EffectiveLimit(limit), EffectiveOffset(offset), page)
      ensures !outcome.Claimed? ==> picked == {} && Contents() == old(Contents())
      ensures outcome == NoKeysFound ==> page == []
      ensures outcome.Claimed? ==>
                && page != []
                && Selects(Unconsumed(old(Contents()), PageDevices(page)), |page|, picked)
                && Contents() == Consume(old(Contents()), picked)
                && |outcome.devices| == |page|
                && forall i | 0 <= i < |page| :: Answers(Contents(), picked, page[i], outcome.devices[i])
    {
      page, picked := [], {};
      var l := EffectiveLimit(limit);
      if l < 0 { return ClaimFailed, page, picked; }
      page := FetchPage(target, l, EffectiveOffset(offset));
      if page == [] { return NoKeysFound, page, picked; }
      var devices := PageDevices(page);
      var rows;
      rows, picked := ConsumeKeys(devices, |page|);
      var answers := BuildAnswers(page, rows, picked);
      outcome := Claimed(answers);
    }

    method FetchPage(target: User, limit: nat, offset: nat) returns (page: seq<Joined>)
      ensures IsPage(Contents(), target, limit, offset, page)
    {
      var all := InSomeOrder(Join(Contents(), target));
      if |all| <= offset { return []; }
      page := all[offset..][..Min(limit, |all| - offset)];
      assert forall j | j in page :: j in all;
    }

    method BuildAnswers(page: seq<Joined>, rows: seq<KeyName>, ghost picked: set<KeyName>)
        returns (answers: seq<DeviceKeys>)
      requires forall j | j in page :: j.identity in identity && j.signed in signed
      requires picked <= oneTime.Keys && forall k :: k in rows <==> k in picked
      ensures |answers| == |page| && forall i | 0 <= i < |page| :: Answers(Contents(), picked, page[i], answers[i])
    {
      var left := map d | d in PageDevices(page) && Unconsumed(Contents(), {d}) != {} :: |Unconsumed(Contents(), {d})|;
      answers := [];
      for i := 0 to |page|
        invariant |answers| == i
        invariant forall j | 0 <= j < i :: Answers(Contents(), picked, page[j], answers[j])
      {
        var device := page[i].identity.device;
        var found := FirstOn(rows, device);
        var key := if found.Some? then Some(NewKey(found.value.keyId, oneTime[found.value].publicKey)) else None;
        var id, spk := identity[page[i].identity], signed[page[i].signed];
        var remaining := if device in left then left[device] else 0;
        var answer := DeviceKeys(device, id.publicKey, id.registrationId, spk, key, remaining);
        assert device in PageDevices(page) by { assert page[i] in page; }
        assert Answers(Contents(), picked, page[i], answer) by {
          if found.None? { assert OnDevice(picked, device) == {}; }
          else { assert found.value in OnDevice(picked, device); }
        }
        answers := answers + [answer];
      }
    }

    /** Checks that the user has a valid session of that id, then deletes it with its keys. */
    method DeleteDevice(user: User, device: DeviceId) returns (outcome: DeleteOutcome)
      modifies this
      ensures outcome == Deleted <==> device in old(sessions) && old(sessions)[device] == Session(user, true)
      ensures outcome == Forbidden ==> Contents() == old(Contents())
      ensures outcome == Deleted ==>
                && sessions == old(sessions) - {device}
                && (forall o :: o in identity <==> o in old(identity) && o.device != device)
                && (forall o :: o in signed <==> o in old(signed) && o.device != device)
                && (forall k :: k in oneTime <==> k in old(oneTime) && k.device != device)
                && (forall o | o in identity :: identity[o] == old(identity)[o])
                && (forall o | o in signed :: signed[o] == old(signed)[o])
                && (forall k | k in oneTime :: oneTime[k] == old(oneTime)[k])
      ensures old(Valid(Contents())) ==> Valid(Contents())
      ensures outcome == Deleted ==> Contents() == Delete(old(Contents()), user, device)
    {
      hide Valid, Join, Unconsumed;
      if device !in sessions || sessions[device].user != user || !sessions[device].valid { return Forbidden; }
      if Valid(Contents()) { DeletedUnseen(Contents(), user, device, user, {}); }
      sessions := sessions - {device};
      identity := map o | o in identity && o.device != device :: identity[o];
      signed := map o | o in signed && o.device != device :: signed[o];
      oneTime := map k | k in oneTime && k.device != device :: oneTime[k];
      outcome := Deleted;
    }
  }

  lemma {:induction false} SizeOfSet(devices: seq<DeviceId>)
    requires NoRepeats(devices)
    ensures |ToSet(devices)| == |devices|
  {
    if devices != [] {
      var init, last := devices[..|devices| - 1], devices[|devices| - 1];
      SizeOfSet(init);
      assert ToSet(devices) == ToSet(init) + {last};
      assert last !in init;
    }
  }

  /** A page of the join names as many devices as it has rows. */
  lemma PageSize(t: Tables, target: User, limit: nat, offset: nat, page: seq<Joined>)
    requires Valid(t) && IsPage(t, target, limit, offset, page)
    ensures |PageDevices(page)| == |page|
  {
    JoinIsPerDevice(t, target);
    var devices: seq<DeviceId> := seq(|page|, i requires 0 <= i < |page| => page[i].identity.device);
    forall i, j | 0 <= i < j < |page| ensures devices[i] != devices[j] {
      assert page[i] in page && page[j] in page;
    }
    SizeOfSet(devices);
    forall d ensures d in ToSet(devices) <==> d in PageDevices(page) {
      if d in PageDevices(page) {
        var i :| 0 <= i < |page| && page[i].identity.device == d;
        assert devices[i] == d;
      }
      if d in ToSet(devices) {
        var i :| 0 <= i < |devices| && devices[i] == d;
        assert page[i] in page;
      }
    }
    assert ToSet(devices) == PageDevices(page);
  }

  /** MAIN RESULT. A claim's page, its UPDATE and its answers, with the page's devices listed in
      device order: each device gives what it has as long as the shared limit lasts, and its answer
      names exactly one of the keys taken from it if any was taken and reports the keys left after
      the claim. */
  lemma AnswersMatchAllocation(t: Tables, target: User, limit: nat, offset: nat, page: seq<Joined>,
                               devices: seq<DeviceId>,
                               picked: set<KeyName>, i: nat, a: DeviceKeys)
    requires Valid(t) && IsPage(t, target, limit, offset, page) && i < |page|
    requires Ascending(devices) && ToSet(devices) == PageDevices(page)
    requires Selects(Unconsumed(t, PageDevices(page)), |page|, picked)
    requires Answers(Consume(t, picked), picked, page[i], a)
    ensures |devices| == |page|
    ensures var candidates := Unconsumed(t, PageDevices(page));
            && Greedy(Counts(candidates, devices), Counts(picked, devices), |devices|)
            && (a.oneTimeKey.Some? <==> |OnDevice(picked, a.device)| > 0)
            && a.remaining == |OnDevice(candidates, a.device)| - |OnDevice(picked, a.device)|
    ensures a.oneTimeKey.Some? ==> KeyName(target, a.device, a.oneTimeKey.value.keyId) in picked
  {
    hide Selects, Greedy;
    PageSize(t, target, limit, offset, page);
    SizeOfSet(devices);
    assert a.device in PageDevices(page) by { assert page[i] in page; }
    assert OnThese(Unconsumed(t, PageDevices(page)), devices) by {
      forall k | k in Unconsumed(t, PageDevices(page)) ensures k.device in devices {
        assert k.device in ToSet(devices);
      }
    }
    GreedyAllocation(Unconsumed(t, PageDevices(page)), picked, devices);
    PickedCandidates(Unconsumed(t, PageDevices(page)), |page|, picked);
    RemainingAfter(t, PageDevices(page), picked, a.device);
    JoinIsPerDevice(t, target);
    assert page[i] in page;
    if a.oneTimeKey.Some? {
      var k :| k in picked && k.device == a.device && a.oneTimeKey.value.keyId == k.keyId;
      assert k in t.oneTime && k.user == target;
      assert k in OnDevice(picked, a.device);
    }
  }

  lemma PickedCandidates(candidates: set<KeyName>, n: nat, picked: set<KeyName>)
    requires Selects(candidates, n, picked)
    ensures picked <= candidates
  {
  }

  /** MAIN RESULT. After an upload the device is among those a claim can return, and a claim that returns it
      answers with the identity key and the signed pre-key of that upload, whatever keys the device had
      before and whatever keys the claim takes. */
  lemma ClaimAfterUpload(t: Tables, owner: Owner, req: UploadRequest, limit: nat, offset: nat, page: seq<Joined>,
                         picked: set<KeyName>, i: nat, a: DeviceKeys)
    requires Valid(t) && owner.device in t.sessions && t.sessions[owner.device].user == owner.user
    requires IsPage(Upload(t, owner, req), owner.user, limit, offset, page) && i < |page|
    requires page[i].identity.device == owner.device
    requires Answers(Consume(Upload(t, owner, req), picked), picked, page[i], a)
    ensures Joined(owner, owner) in Join(Upload(t, owner, req), owner.user)
    ensures a.device == owner.device && a.registrationId == req.registrationId && a.identityKey == req.identityKey
    ensures a.signed == req.signed
  {
    hide Valid, InsertKeys, Unconsumed, OnDevice;
    var after := Upload(t, owner, req);
    UploadValid(t, owner, req);
    JoinIsPerDevice(after, owner.user);
    assert page[i] in page && page[i] in Join(after, owner.user);
    assert Joined(owner, owner) in Join(after, owner.user);
    assert page[i] == Joined(owner, owner);
  }
}
