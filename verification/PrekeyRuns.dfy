// What a prekey store guarantees over any sequence of calls under a clock that does not run
// backwards.
module PrekeyRuns {
  import opened Keys
  import opened RatchetState
  import opened Results
  import opened PrekeyStorage

  datatype Call =
    | Getting(key: PublicKey, deprecatedAt: nat, generatedAt: nat)
    | Rotating(clock: nat -> nat)
    | Reloading

  // A store together with the next unused key id and the latest clock reading.
  datatype Store = Store(prekeys: Prekeys, supply: nat, now: nat)

  function FreshKeys(n: nat, supply: nat, clock: nat -> nat): (s: seq<Prekey>)
    ensures |s| == n
    ensures forall i :: 0 <= i < n ==> s[i] == Generated(supply + i, clock(i))
  {
    seq(n, i requires 0 <= i => Generated(supply + i, clock(i)))
  }

  function Created(supply: nat, clock: nat -> nat): Store {
    var active := FreshKeys(PREKEY_AMOUNT, supply, clock);
    Store(Prekeys(active, [], Min(active), 0), supply + PREKEY_AMOUNT, clock(PREKEY_AMOUNT))
  }

  // Importing what was exported computes both caches anew.
  function Reload(p: Prekeys): Prekeys {
    if p.active == [] then p else p.(oldest := Min(p.active), oldestDeprecated := MinOrZero(p.deprecated))
  }

  lemma {:induction false} ReloadCachesExactly(p: Prekeys)
    requires p.active != []
    ensures var q := Reload(p);
            && q.active == p.active && q.deprecated == p.deprecated
            && (forall k :: k in p.active ==> q.oldest <= k.expiration)
            && (exists k :: k in p.active && k.expiration == q.oldest)
            && (if p.deprecated == [] then q.oldestDeprecated == 0
                else (forall k :: k in p.deprecated ==> q.oldestDeprecated <= k.expiration)
                     && exists k :: k in p.deprecated && k.expiration == q.oldestDeprecated)
  {
    MinIsLeast(p.active);
    var i :| 0 <= i < |p.active| && Min(p.active) == p.active[i].expiration;
    assert p.active[i] in p.active;
    if p.deprecated != [] {
      MinIsLeast(p.deprecated);
      var j :| 0 <= j < |p.deprecated| && Min(p.deprecated) == p.deprecated[j].expiration;
      assert p.deprecated[j] in p.deprecated;
    }
  }

  function Apply(st: Store, call: Call): Store {
    match call
    case Getting(key, deprecatedAt, generatedAt) =>
      Store(Lookup(st.prekeys, key, st.supply, deprecatedAt, generatedAt).0, st.supply + 1, generatedAt)
    case Rotating(clock) =>
      Store(Rotation(st.prekeys, st.supply, clock), st.supply + PREKEY_AMOUNT, clock(2 * PREKEY_AMOUNT))
    case Reloading => st.(prekeys := Reload(st.prekeys))
  }

  ghost predicate Timely(st: Store, call: Call) {
    match call
    case Getting(_, deprecatedAt, generatedAt) => st.now <= deprecatedAt <= generatedAt
    case Rotating(clock) => NonDecreasing(clock) && st.now <= clock(0)
    case Reloading => true
  }

  function Run(st: Store, calls: seq<Call>): Store {
    if calls == [] then st else Apply(Run(st, calls[..|calls| - 1]), calls[|calls| - 1])
  }

  ghost predicate TimelyRun(st: Store, calls: seq<Call>) {
    calls == [] ||
    (TimelyRun(st, calls[..|calls| - 1]) && Timely(Run(st, calls[..|calls| - 1]), calls[|calls| - 1]))
  }

  ghost predicate Inv(st: Store) {
    CachesSound(st.prekeys, st.now) && KeysDistinct(st.prekeys, st.supply)
  }

  lemma {:induction false} NothingDeprecatedIsSound(keys: seq<Prekey>, supply: nat, now: nat)
    requires |keys| == PREKEY_AMOUNT && AreKeypairs(keys, supply) && NoRepeats(PublicKeys(keys))
    requires forall i :: 0 <= i < |keys| ==> keys[i].expiration <= now + PREKEY_EXPIRATION_TIME
    ensures Inv(Store(Prekeys(keys, [], Min(keys), 0), supply, now))
  {
    MinIsLeast(keys);
    assert keys + [] == keys;
  }

  lemma {:induction false} FreshKeysAreDated(n: nat, supply: nat, clock: nat -> nat)
    requires NonDecreasing(clock)
    ensures forall i :: 0 <= i < n ==> FreshKeys(n, supply, clock)[i].expiration <= clock(n) + PREKEY_EXPIRATION_TIME
  {
  }

  lemma {:induction false} FreshKeysAreDistinct(n: nat, supply: nat, clock: nat -> nat)
    ensures AreKeypairs(FreshKeys(n, supply, clock), supply + n)
    ensures NoRepeats(PublicKeys(FreshKeys(n, supply, clock)))
  {
  }

  lemma {:induction false} CreatedInv(supply: nat, clock: nat -> nat)
    requires NonDecreasing(clock)
    ensures Inv(Created(supply, clock)) && |Created(supply, clock).prekeys.active| == 100
    ensures forall i :: 0 <= i < PREKEY_AMOUNT ==>
              Created(supply, clock).prekeys.active[i]
              == Prekey(PublicKey(supply + i), PrivateKey(supply + i), clock(i) + PREKEY_EXPIRATION_TIME)
  {
    var keys := FreshKeys(PREKEY_AMOUNT, supply, clock);
    FreshKeysAreDated(PREKEY_AMOUNT, supply, clock);
    FreshKeysAreDistinct(PREKEY_AMOUNT, supply, clock);
    NothingDeprecatedIsSound(keys, supply + PREKEY_AMOUNT, clock(PREKEY_AMOUNT));
  }

  lemma {:induction false} GettingKeepsInv(st: Store, key: PublicKey, deprecatedAt: nat, generatedAt: nat)
    requires Inv(st) && st.now <= deprecatedAt <= generatedAt
    ensures Inv(Apply(st, Getting(key, deprecatedAt, generatedAt)))
  {
    var i := Find(st.prekeys.active, key);
    if i < |st.prekeys.active| {
      DeprecateKeepsCaches(st.prekeys, i, st.supply, deprecatedAt, generatedAt, st.now);
      DeprecateKeepsKeys(st.prekeys, i, st.supply, deprecatedAt, generatedAt, st.supply);
    }
  }

  lemma {:induction false} ApplyKeepsInv(st: Store, call: Call)
    requires Inv(st) && Timely(st, call)
    ensures Inv(Apply(st, call)) && st.now <= Apply(st, call).now
  {
    var p := st.prekeys;
    match call {
      case Getting(key, deprecatedAt, generatedAt) =>
        GettingKeepsInv(st, key, deprecatedAt, generatedAt);
      case Rotating(clock) =>
        assert clock(0) <= clock(2 * PREKEY_AMOUNT);
        RotateKeepsCaches(p, st.supply, clock, st.now);
        RotateKeepsKeys(p, st.supply, clock, st.now);
      case Reloading =>
        MinIsLeast(p.active);
    }
  }

  // Always one hundred matching keypairs and no public key twice; the cached active date bounds
  // all active dates from below and the cached deprecated date is the exact minimum.
  lemma {:induction false} RunKeepsInv(st: Store, calls: seq<Call>)
    requires Inv(st) && TimelyRun(st, calls)
    ensures Inv(Run(st, calls)) && st.now <= Run(st, calls).now
  {
    if calls == [] {
    } else {
      RunKeepsInv(st, calls[..|calls| - 1]);
      ApplyKeepsInv(Run(st, calls[..|calls| - 1]), calls[|calls| - 1]);
    }
  }

  // Whatever was done before, a rotation leaves no key that had expired when it began.
  lemma {:induction false} RotationAfterRun(st: Store, calls: seq<Call>, clock: nat -> nat)
    requires Inv(st) && TimelyRun(st, calls) && NonDecreasing(clock) && Run(st, calls).now <= clock(0)
    ensures var q := Apply(Run(st, calls), Rotating(clock)).prekeys;
            && (forall i :: 0 <= i < |q.active| ==> q.active[i].expiration >= clock(0))
            && (forall k :: k in q.deprecated ==> k.expiration >= clock(0))
  {
    RunKeepsInv(st, calls);
    RotateLeavesNoneExpired(Run(st, calls).prekeys, Run(st, calls).supply, clock, Run(st, calls).now);
  }

  // Retention

  // The reading at which one call takes an active key out of its slot, if it does.
  ghost function TakenOutAt(p: Prekeys, call: Call, key: PublicKey): Option<nat> {
    var i := Find(p.active, key);
    match call
    case Getting(wanted, deprecatedAt, _) =>
      if i < |p.active| && wanted == key then Some(deprecatedAt) else None
    case Rotating(clock) =>
      if i < |p.active| && p.active[i].expiration < clock(0) then Some(clock(2 * i + 1)) else None
    case Reloading => None
  }

  // The reading at which a key first left its slot in a run.
  ghost function LeftAt(st: Store, calls: seq<Call>, key: PublicKey): Option<nat> {
    if calls == [] then None
    else
      var before := calls[..|calls| - 1];
      var earlier := LeftAt(st, before, key);
      if earlier.Some? then earlier else TakenOutAt(Run(st, before).prekeys, calls[|calls| - 1], key)
  }

  // Whether a rotation has begun behind the date of a key that had left its slot.
  ghost predicate IsForgotten(st: Store, calls: seq<Call>, key: PublicKey) {
    calls != [] &&
    var before, last := calls[..|calls| - 1], calls[|calls| - 1];
    || IsForgotten(st, before, key)
    || (&& LeftAt(st, before, key).Some? && last.Rotating?
        && last.clock(0) > LeftAt(st, before, key).value + DEPRECATED_EXPIRATION_TIME)
  }

  ghost predicate IsActive(p: Prekeys, key: PublicKey) {
    exists i :: 0 <= i < |p.active| && p.active[i].publicKey == key
  }

  // Deprecated, with exactly the given date.
  ghost predicate IsDeprecated(p: Prekeys, key: PublicKey, date: nat) {
    exists k :: k in p.deprecated && k.publicKey == key && k.expiration == date
  }

  // A key that is nowhere, or deprecated with the given date and nothing else. Its id is spent.
  ghost predicate IsSpent(st: Store, key: PublicKey, date: nat) {
    && key.id < st.supply
    && !IsActive(st.prekeys, key)
    && forall k :: k in st.prekeys.deprecated && k.publicKey == key ==> k.expiration == date
  }

  // Where the key is now: in its slot, or among the deprecated ones until it is forgotten.
  ghost predicate Retained(st: Store, key: PublicKey, left: Option<nat>, forgotten: bool) {
    match left
    case None => IsActive(st.prekeys, key) && !forgotten
    case Some(t) =>
      && IsSpent(st, key, t + DEPRECATED_EXPIRATION_TIME)
      && (IsDeprecated(st.prekeys, key, t + DEPRECATED_EXPIRATION_TIME) <==> !forgotten)
  }

  lemma {:induction false} ActiveIsUnique(p: Prekeys, supply: nat, i: nat)
    requires KeysDistinct(p, supply) && i < |p.active|
    ensures Find(p.active, p.active[i].publicKey) == i
  {
    var keys := PublicKeys(p.active + p.deprecated);
    var k := Find(p.active, p.active[i].publicKey);
    assert keys[k] == p.active[k].publicKey && keys[i] == p.active[i].publicKey;
  }

  lemma {:induction false} ActiveIsNotDeprecated(p: Prekeys, supply: nat, i: nat, k: Prekey)
    requires KeysDistinct(p, supply) && i < |p.active| && k in p.deprecated
    ensures k.publicKey != p.active[i].publicKey && p.active[i].publicKey.id < supply
  {
    var keys := PublicKeys(p.active + p.deprecated);
    var j :| 0 <= j < |p.deprecated| && p.deprecated[j] == k;
    assert keys[i] == p.active[i].publicKey && keys[|p.active| + j] == k.publicKey;
  }

  lemma {:induction false} GettingSpends(st: Store, i: nat, deprecatedAt: nat, generatedAt: nat)
    requires Inv(st) && i < |st.prekeys.active|
    ensures var key := st.prekeys.active[i].publicKey;
            IsSpent(Apply(st, Getting(key, deprecatedAt, generatedAt)), key, deprecatedAt + DEPRECATED_EXPIRATION_TIME)
  {
    var p, key := st.prekeys, st.prekeys.active[i].publicKey;
    var q := Apply(st, Getting(key, deprecatedAt, generatedAt)).prekeys;
    ActiveIsUnique(p, st.supply, i);
    forall j | 0 <= j < |q.active|
      ensures q.active[j].publicKey != key
    {
      if j != i {
        ActiveIsUnique(p, st.supply, j);
      }
    }
    forall k | k in p.deprecated
      ensures k.publicKey != key
    {
      ActiveIsNotDeprecated(p, st.supply, i, k);
    }
  }

  lemma {:induction false} MovedMember(active: seq<Prekey>, n: nat, clock: nat -> nat, k: Prekey)
    requires n <= |active| && k in Moved(active, n, clock)
    ensures exists i :: 0 <= i < n && active[i].expiration < clock(0)
                        && k == active[i].(expiration := clock(2 * i + 1) + DEPRECATED_EXPIRATION_TIME)
  {
    if k !in Moved(active, n - 1, clock) {
      assert k == active[n - 1].(expiration := clock(2 * (n - 1) + 1) + DEPRECATED_EXPIRATION_TIME);
    } else {
      MovedMember(active, n - 1, clock, k);
    }
  }

  lemma {:induction false} RotatingSpends(st: Store, clock: nat -> nat, i: nat)
    requires Inv(st) && NonDecreasing(clock) && st.now <= clock(0) && i < |st.prekeys.active|
    requires st.prekeys.active[i].expiration < clock(0)
    ensures IsSpent(Apply(st, Rotating(clock)), st.prekeys.active[i].publicKey,
                    clock(2 * i + 1) + DEPRECATED_EXPIRATION_TIME)
  {
    hide Rotation, Moved;
    var p, q, key := st.prekeys, Rotation(st.prekeys, st.supply, clock), st.prekeys.active[i].publicKey;
    RotateIsExact(p, st.supply, clock, st.now);
    RotateLeavesNoneExpired(p, st.supply, clock, st.now);
    ActiveIsUnique(p, st.supply, i);
    forall j | 0 <= j < |q.active|
      ensures q.active[j].publicKey != key
    {
      ActiveIsUnique(p, st.supply, j);
    }
    forall k | k in q.deprecated && k.publicKey == key
      ensures k.expiration == clock(2 * i + 1) + DEPRECATED_EXPIRATION_TIME
    {
      if k in p.deprecated {
        ActiveIsNotDeprecated(p, st.supply, i, k);
      } else {
        MovedMember(p.active, |p.active|, clock, k);
        var j :| 0 <= j < |p.active| && k == p.active[j].(expiration := clock(2 * j + 1) + DEPRECATED_EXPIRATION_TIME);
        ActiveIsUnique(p, st.supply, j);
      }
    }
  }

  lemma {:induction false} SpentStays(st: Store, call: Call, key: PublicKey, date: nat)
    requires Inv(st) && Timely(st, call) && IsSpent(st, key, date)
    ensures IsSpent(Apply(st, call), key, date)
  {
    hide Rotation, Moved;
    var p, q := st.prekeys, Apply(st, call).prekeys;
    match call {
      case Getting(wanted, deprecatedAt, _) =>
        assert forall j :: 0 <= j < |q.active| ==> q.active[j] == p.active[j] || q.active[j].publicKey.id == st.supply;
      case Rotating(clock) =>
        RotateIsExact(p, st.supply, clock, st.now);
        RotateLeavesNoneExpired(p, st.supply, clock, st.now);
        forall k | k in q.deprecated && k.publicKey == key
          ensures k.expiration == date
        {
          if k !in p.deprecated {
            MovedMember(p.active, |p.active|, clock, k);
          }
        }
      case Reloading =>
    }
  }

  lemma {:induction false} GettingRetains(
    st: Store, wanted: PublicKey, deprecatedAt: nat, generatedAt: nat, key: PublicKey)
    requires Inv(st) && st.now <= deprecatedAt <= generatedAt && IsActive(st.prekeys, key)
    ensures var call := Getting(wanted, deprecatedAt, generatedAt);
            Retained(Apply(st, call), key, TakenOutAt(st.prekeys, call, key), false)
  {
    var p, q := st.prekeys, Apply(st, Getting(wanted, deprecatedAt, generatedAt)).prekeys;
    var i :| 0 <= i < |p.active| && p.active[i].publicKey == key;
    ActiveIsUnique(p, st.supply, i);
    if wanted == key {
      GettingSpends(st, i, deprecatedAt, generatedAt);
      var aged := p.active[i].(expiration := deprecatedAt + DEPRECATED_EXPIRATION_TIME);
      assert q.deprecated[|p.deprecated|] == aged;
      assert aged in q.deprecated;
    } else {
      assert q.active[i] == p.active[i];
    }
  }

  lemma {:induction false} RotatingRetains(st: Store, clock: nat -> nat, key: PublicKey)
    requires Inv(st) && NonDecreasing(clock) && st.now <= clock(0) && IsActive(st.prekeys, key)
    ensures Retained(Apply(st, Rotating(clock)), key, TakenOutAt(st.prekeys, Rotating(clock), key), false)
  {
    hide Rotation, Moved;
    var p, q := st.prekeys, Rotation(st.prekeys, st.supply, clock);
    var i :| 0 <= i < |p.active| && p.active[i].publicKey == key;
    ActiveIsUnique(p, st.supply, i);
    RotateIsExact(p, st.supply, clock, st.now);
    if p.active[i].expiration < clock(0) {
      RotatingSpends(st, clock, i);
      assert p.active[i].(expiration := clock(2 * i + 1) + DEPRECATED_EXPIRATION_TIME) in q.deprecated;
    } else {
      RotateLeavesNoneExpired(p, st.supply, clock, st.now);
      assert q.active[i] == p.active[i];
    }
  }

  lemma {:induction false} GettingKeepsDeprecated(
    st: Store, wanted: PublicKey, deprecatedAt: nat, generatedAt: nat, k: Prekey)
    requires k in st.prekeys.deprecated
    ensures k in Apply(st, Getting(wanted, deprecatedAt, generatedAt)).prekeys.deprecated
  {
    if Find(st.prekeys.active, wanted) == |st.prekeys.active| {
      LookupOfOthers(st.prekeys, wanted, st.supply, deprecatedAt, generatedAt);
    }
  }

  // Once deprecated, a key stays where it is until a rotation begins behind its date.
  lemma {:induction false} DeprecatedStays(st: Store, call: Call, key: PublicKey, date: nat)
    requires Inv(st) && Timely(st, call) && IsDeprecated(st.prekeys, key, date)
    requires call.Rotating? ==> call.clock(0) <= date
    ensures IsDeprecated(Apply(st, call).prekeys, key, date)
  {
    hide Rotation, Moved;
    var k :| k in st.prekeys.deprecated && k.publicKey == key && k.expiration == date;
    match call {
      case Getting(wanted, deprecatedAt, generatedAt) =>
        GettingKeepsDeprecated(st, wanted, deprecatedAt, generatedAt, k);
      case Rotating(clock) =>
        RotateIsExact(st.prekeys, st.supply, clock, st.now);
      case Reloading =>
    }
    assert k in Apply(st, call).prekeys.deprecated;
  }

  lemma {:induction false} RotationForgets(st: Store, clock: nat -> nat, key: PublicKey, date: nat)
    requires Inv(st) && NonDecreasing(clock) && st.now <= clock(0) && clock(0) > date
    ensures !IsDeprecated(Apply(st, Rotating(clock)).prekeys, key, date)
  {
    hide Rotation, Moved;
    RotateLeavesNoneExpired(st.prekeys, st.supply, clock, st.now);
  }

  // A key whose id is spent and that is nowhere does not come back.
  lemma {:induction false} GoneStays(st: Store, call: Call, key: PublicKey, date: nat)
    requires Inv(st) && Timely(st, call) && IsSpent(st, key, date) && !IsDeprecated(st.prekeys, key, date)
    ensures !IsDeprecated(Apply(st, call).prekeys, key, date)
  {
    hide Apply, Timely, Inv;
    assert IsSpent(st, key, date + 1);
    SpentStays(st, call, key, date);
    SpentStays(st, call, key, date + 1);
  }

  lemma {:induction false} ReloadingRetains(st: Store, key: PublicKey)
    requires IsActive(st.prekeys, key)
    ensures IsActive(Apply(st, Reloading).prekeys, key) && TakenOutAt(st.prekeys, Reloading, key).None?
  {
  }

  lemma {:induction false} LeftKeyMoves(st: Store, call: Call, key: PublicKey, date: nat)
    requires Inv(st) && Timely(st, call) && IsSpent(st, key, date)
    ensures IsSpent(Apply(st, call), key, date)
    ensures IsDeprecated(Apply(st, call).prekeys, key, date)
       <==> IsDeprecated(st.prekeys, key, date) && !(call.Rotating? && call.clock(0) > date)
  {
    SpentStays(st, call, key, date);
    if !IsDeprecated(st.prekeys, key, date) {
      GoneStays(st, call, key, date);
    } else if call.Rotating? && call.clock(0) > date {
      RotationForgets(st, call.clock, key, date);
    } else {
      DeprecatedStays(st, call, key, date);
    }
  }

  lemma {:induction false} RunRetains(st: Store, calls: seq<Call>, key: PublicKey)
    requires Inv(st) && TimelyRun(st, calls) && IsActive(st.prekeys, key)
    ensures Retained(Run(st, calls), key, LeftAt(st, calls, key), IsForgotten(st, calls, key))
  {
    if calls == [] {
    } else {
      hide Apply, Inv, IsActive, IsSpent, IsDeprecated, TakenOutAt;
      var before, last := calls[..|calls| - 1], calls[|calls| - 1];
      var mid := Run(st, before);
      RunKeepsInv(st, before);
      RunRetains(st, before, key);
      match LeftAt(st, before, key) {
        case Some(t) =>
          LeftKeyMoves(mid, last, key, t + DEPRECATED_EXPIRATION_TIME);
        case None =>
          match last {
            case Getting(wanted, deprecatedAt, generatedAt) =>
              GettingRetains(mid, wanted, deprecatedAt, generatedAt, key);
            case Rotating(clock) =>
              RotatingRetains(mid, clock, key);
            case Reloading =>
              ReloadingRetains(mid, key);
          }
      }
    }
  }

  lemma {:induction false} ForgottenIsLate(st: Store, calls: seq<Call>, key: PublicKey)
    requires Inv(st) && TimelyRun(st, calls) && IsForgotten(st, calls, key)
    ensures LeftAt(st, calls, key).Some?
    ensures Run(st, calls).now > LeftAt(st, calls, key).value + DEPRECATED_EXPIRATION_TIME
  {
    var before, last := calls[..|calls| - 1], calls[|calls| - 1];
    RunKeepsInv(st, before);
    ApplyKeepsInv(Run(st, before), last);
    if IsForgotten(st, before, key) {
      ForgottenIsLate(st, before, key);
    } else {
      assert last.clock(0) <= last.clock(2 * PREKEY_AMOUNT);
    }
  }

  lemma {:induction false} PresentResolves(st: Store, key: PublicKey, deprecatedAt: nat, generatedAt: nat)
    requires Inv(st)
    requires IsActive(st.prekeys, key) || exists k :: k in st.prekeys.deprecated && k.publicKey == key
    ensures Lookup(st.prekeys, key, st.supply, deprecatedAt, generatedAt).1 == Ok(PrivateKey(key.id))
  {
    var p := st.prekeys;
    var i, j := Find(p.active, key), Find(p.deprecated, key);
    if IsActive(p, key) {
      assert i < |p.active|;
    } else {
      assert j < |p.deprecated|;
    }
  }

  lemma {:induction false} AbsentIsNotFound(st: Store, key: PublicKey, date: nat, deprecatedAt: nat, generatedAt: nat)
    requires Inv(st) && IsSpent(st, key, date) && !IsDeprecated(st.prekeys, key, date)
    ensures Lookup(st.prekeys, key, st.supply, deprecatedAt, generatedAt).1 == Err(NotFound)
  {
    LookupOfOthers(st.prekeys, key, st.supply, deprecatedAt, generatedAt);
  }

  // Through runs of any length: a prekey that was active, and so could be listed, stays in its
  // slot until the reading at which a lookup or a rotation takes it out. From then on it is
  // deprecated with a date one hour later, and stays so until the first rotation that begins
  // behind that date, in any case for the hour. Exactly till then it resolves, to the one
  // matching private key; afterwards it is not found.
  lemma {:induction false} ListedPrekeyResolves(
    st: Store, calls: seq<Call>, key: PublicKey, deprecatedAt: nat, generatedAt: nat)
    requires Inv(st) && TimelyRun(st, calls) && key in PublicKeys(st.prekeys.active)
    ensures var q, left, forgotten := Run(st, calls), LeftAt(st, calls, key), IsForgotten(st, calls, key);
            && (left.None? ==> IsActive(q.prekeys, key) && !forgotten)
            && (left.Some? && !forgotten ==> IsDeprecated(q.prekeys, key, left.value + DEPRECATED_EXPIRATION_TIME))
            && (left.Some? && q.now <= left.value + DEPRECATED_EXPIRATION_TIME ==> !forgotten)
            && Lookup(q.prekeys, key, q.supply, deprecatedAt, generatedAt).1
               == if forgotten then Err(NotFound) else Ok(PrivateKey(key.id))
  {
    hide Lookup, Run, TimelyRun;
    var i :| 0 <= i < |st.prekeys.active| && PublicKeys(st.prekeys.active)[i] == key;
    assert st.prekeys.active[i].publicKey == key;
    var q, left := Run(st, calls), LeftAt(st, calls, key);
    RunKeepsInv(st, calls);
    RunRetains(st, calls, key);
    if IsForgotten(st, calls, key) {
      ForgottenIsLate(st, calls, key);
      AbsentIsNotFound(q, key, left.value + DEPRECATED_EXPIRATION_TIME, deprecatedAt, generatedAt);
    } else {
      PresentResolves(q, key, deprecatedAt, generatedAt);
    }
  }

  // A key that nobody looks up keeps its slot until a rotation begins behind its date, which is
  // a month after it was generated.
  lemma {:induction false} UnusedPrekeyStays(st: Store, calls: seq<Call>, i: nat)
    requires Inv(st) && TimelyRun(st, calls) && i < PREKEY_AMOUNT
    requires forall k :: 0 <= k < |calls| ==>
               && (calls[k].Getting? ==> calls[k].key != st.prekeys.active[i].publicKey)
               && (calls[k].Rotating? ==> calls[k].clock(0) <= st.prekeys.active[i].expiration)
    ensures |Run(st, calls).prekeys.active| == PREKEY_AMOUNT
    ensures Run(st, calls).prekeys.active[i] == st.prekeys.active[i]
  {
    if calls == [] {
    } else {
      hide Rotation, Moved;
      var before, last := calls[..|calls| - 1], calls[|calls| - 1];
      assert forall k :: 0 <= k < |before| ==> calls[k] == before[k];
      UnusedPrekeyStays(st, before, i);
      RunKeepsInv(st, before);
      if last.Rotating? {
        RotateIsExact(Run(st, before).prekeys, Run(st, before).supply, last.clock, Run(st, before).now);
        RotateLeavesNoneExpired(Run(st, before).prekeys, Run(st, before).supply, last.clock, Run(st, before).now);
      }
    }
  }

  // And no longer than that: the next rotation that begins after the hour forgets the key for good.
  lemma {:induction false} LeftPrekeyIsForgotten(
    st: Store, calls: seq<Call>, key: PublicKey, clock: nat -> nat, deprecatedAt: nat, generatedAt: nat)
    requires Inv(st) && TimelyRun(st, calls) && key in PublicKeys(st.prekeys.active)
    requires NonDecreasing(clock) && Run(st, calls).now <= clock(0)
    requires LeftAt(st, calls, key).Some? && clock(0) > LeftAt(st, calls, key).value + DEPRECATED_EXPIRATION_TIME
    ensures var q := Apply(Run(st, calls), Rotating(clock));
            Lookup(q.prekeys, key, q.supply, deprecatedAt, generatedAt).1 == Err(NotFound)
  {
    hide Rotation;
    var i :| 0 <= i < |st.prekeys.active| && PublicKeys(st.prekeys.active)[i] == key;
    assert st.prekeys.active[i].publicKey == key;
    var q, date := Apply(Run(st, calls), Rotating(clock)), LeftAt(st, calls, key).value + DEPRECATED_EXPIRATION_TIME;
    RunKeepsInv(st, calls);
    RunRetains(st, calls, key);
    SpentStays(Run(st, calls), Rotating(clock), key, date);
    RotationAfterRun(st, calls, clock);
    assert forall k :: k in q.prekeys.deprecated ==> k.publicKey != key;
  }

  // Using an active prekey moves exactly that key to the deprecated ones and leaves the other
  // slots alone.
  lemma {:induction false} GettingMovesOneKey(st: Store, index: nat, deprecatedAt: nat, generatedAt: nat)
    requires Inv(st) && index < PREKEY_AMOUNT
    ensures var p := st.prekeys;
            var (q, r) := Lookup(p, p.active[index].publicKey, st.supply, deprecatedAt, generatedAt);
            && r == Ok(p.active[index].privateKey)
            && q.active == p.active[index := Prekey(PublicKey(st.supply), PrivateKey(st.supply),
                                                    generatedAt + 2_678_400)]
            && q.deprecated == p.deprecated
               + [p.active[index].(expiration := deprecatedAt + 3600)]
            && (q.oldest == deprecatedAt + 3600
                || exists i :: 0 <= i < PREKEY_AMOUNT && i != index && q.oldest == p.active[i].expiration)
  {
    var p := st.prekeys;
    var keys := PublicKeys(p.active + p.deprecated);
    var i := Find(p.active, p.active[index].publicKey);
    assert keys[i] == p.active[i].publicKey && keys[index] == p.active[index].publicKey;
    assert i <= index;
    DeprecateCachesExactly(p, index, st.supply, deprecatedAt, generatedAt);
  }
}
