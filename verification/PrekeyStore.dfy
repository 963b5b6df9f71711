// lib/prekey-store.cpp: one hundred prekeys in fixed slots, the deprecated ones in a growing
// vector, and two cached expiration dates that save scanning them.
module PrekeyStorage {
  import opened Keys
  import opened RatchetState
  import opened Results

  const PREKEY_AMOUNT: nat := 100

  const PREKEY_EXPIRATION_TIME: nat := 31 * 24 * 3600

  const DEPRECATED_EXPIRATION_TIME: nat := 3600

  datatype Prekey = Prekey(publicKey: PublicKey, privateKey: PrivateKey, expiration: nat)

  // `generate` with the id that `crypto_box_keypair` draws.
  function Generated(id: nat, now: nat): Prekey {
    Prekey(PublicKey(id), PrivateKey(id), now + PREKEY_EXPIRATION_TIME)
  }

  datatype Prekeys = Prekeys(active: seq<Prekey>, deprecated: seq<Prekey>, oldest: nat, oldestDeprecated: nat)

  function Min(s: seq<Prekey>): nat
    requires s != []
  {
    var last := s[|s| - 1].expiration;
    if |s| == 1 then last
    else
      var m := Min(s[..|s| - 1]);
      if last < m then last else m
  }

  lemma {:induction false} MinIsLeast(s: seq<Prekey>)
    requires s != []
    ensures forall i :: 0 <= i < |s| ==> Min(s) <= s[i].expiration
    ensures exists i :: 0 <= i < |s| && Min(s) == s[i].expiration
  {
    if |s| == 1 {
      assert Min(s) == s[0].expiration;
    } else {
      var init := s[..|s| - 1];
      MinIsLeast(init);
      var k :| 0 <= k < |init| && Min(init) == init[k].expiration;
      assert init[k] == s[k];
      assert Min(s) == s[k].expiration || Min(s) == s[|s| - 1].expiration;
      forall i | 0 <= i < |s|
        ensures Min(s) <= s[i].expiration
      {
        if i < |init| {
          assert Min(init) <= init[i].expiration;
        }
      }
    }
  }

  function MinOrZero(s: seq<Prekey>): nat {
    if s == [] then 0 else Min(s)
  }

  // The slot is dated and copied before its new key is generated, and the caches are computed
  // in between.
  function Deprecate(p: Prekeys, index: nat, id: nat, deprecatedAt: nat, generatedAt: nat): Prekeys
    requires index < |p.active|
  {
    var aged := p.active[index].(expiration := deprecatedAt + DEPRECATED_EXPIRATION_TIME);
    Prekeys(p.active[index := Generated(id, generatedAt)],
            p.deprecated + [aged],
            Min(p.active[index := aged]),
            MinOrZero(p.deprecated + [aged]))
  }

  function Find(s: seq<Prekey>, key: PublicKey): (i: nat)
    ensures i <= |s|
    ensures i < |s| ==> s[i].publicKey == key
    ensures forall k :: 0 <= k < i ==> s[k].publicKey != key
  {
    if s == [] || s[0].publicKey == key then 0 else 1 + Find(s[1..], key)
  }

  function Lookup(
    p: Prekeys, key: PublicKey, id: nat, deprecatedAt: nat, generatedAt: nat): (Prekeys, Result<PrivateKey>)
  {
    var i, j := Find(p.active, key), Find(p.deprecated, key);
    if i < |p.active| then (Deprecate(p, i, id, deprecatedAt, generatedAt), Ok(p.active[i].privateKey))
    else if j < |p.deprecated| then (p, Ok(p.deprecated[j].privateKey))
    else (p, Err(NotFound))
  }

  function Redated(s: seq<Prekey>, date: nat): (t: seq<Prekey>)
    ensures |t| == |s|
    ensures forall i :: 0 <= i < |s| ==> t[i] == s[i].(expiration := date)
  {
    seq(|s|, i requires 0 <= i < |s| => s[i].(expiration := date))
  }

  // Dates too far in the future are drawn back; the caches stay what they are.
  function DrawBack(p: Prekeys, now: nat): Prekeys {
    var q := if now + PREKEY_EXPIRATION_TIME < p.oldest
             then p.(active := Redated(p.active, now + PREKEY_EXPIRATION_TIME)) else p;
    if now + DEPRECATED_EXPIRATION_TIME < p.oldestDeprecated
    then q.(deprecated := Redated(p.deprecated, now + DEPRECATED_EXPIRATION_TIME)) else q
  }

  function DeprecateIfExpired(
    p: Prekeys, index: nat, id: nat, deprecatedAt: nat, generatedAt: nat, now: nat): (q: Prekeys)
    requires index < |p.active|
    ensures |q.active| == |p.active|
  {
    if p.active[index].expiration < now then Deprecate(p, index, id, deprecatedAt, generatedAt) else p
  }

  // Deprecating what has expired by `clock(0)` among the first `n` slots. Slot k reads the clock
  // at 2k+1 and 2k+2 and draws the id `supply + k`.
  function DeprecateExpired(p: Prekeys, n: nat, supply: nat, clock: nat -> nat): (q: Prekeys)
    requires n <= |p.active|
    ensures |q.active| == |p.active|
  {
    if n == 0 then p
    else
      DeprecateIfExpired(DeprecateExpired(p, n - 1, supply, clock), n - 1, supply + n - 1,
                         clock(2 * n - 1), clock(2 * n), clock(0))
  }

  function Unexpired(s: seq<Prekey>, now: nat): seq<Prekey> {
    if s == [] then []
    else
      var rest := Unexpired(s[..|s| - 1], now);
      if s[|s| - 1].expiration < now then rest else rest + [s[|s| - 1]]
  }

  function Rotation(p: Prekeys, supply: nat, clock: nat -> nat): Prekeys {
    var drawn := DrawBack(p, clock(0));
    var q := if drawn.oldest < clock(0) then DeprecateExpired(drawn, |drawn.active|, supply, clock) else drawn;
    if q.oldestDeprecated < clock(0) then
      var kept := Unexpired(q.deprecated, clock(0));
      q.(deprecated := kept, oldestDeprecated := MinOrZero(kept))
    else q
  }

  function PublicKeys(s: seq<Prekey>): (keys: seq<PublicKey>)
    ensures |keys| == |s|
    ensures forall i :: 0 <= i < |s| ==> keys[i] == s[i].publicKey
  {
    seq(|s|, i requires 0 <= i < |s| => s[i].publicKey)
  }

  // The invariant. `now` is the latest clock reading and `supply` the next unused id.

  ghost predicate CachesSound(p: Prekeys, now: nat) {
    && |p.active| == PREKEY_AMOUNT
    && (forall i :: 0 <= i < |p.active| ==> p.oldest <= p.active[i].expiration <= now + PREKEY_EXPIRATION_TIME)
    && (forall i :: 0 <= i < |p.deprecated| ==> p.deprecated[i].expiration <= now + DEPRECATED_EXPIRATION_TIME)
    && p.oldestDeprecated == MinOrZero(p.deprecated)
  }

  // Every private key matches its public key, and all ids are older than `supply`.
  ghost predicate AreKeypairs(s: seq<Prekey>, supply: nat) {
    forall i :: 0 <= i < |s| ==> s[i].publicKey.id < supply && s[i].privateKey == PrivateKey(s[i].publicKey.id)
  }

  ghost predicate NoRepeats(keys: seq<PublicKey>) {
    forall i, j :: 0 <= i < j < |keys| ==> keys[i] != keys[j]
  }

  ghost predicate KeysDistinct(p: Prekeys, supply: nat) {
    && AreKeypairs(p.active, supply)
    && AreKeypairs(p.deprecated, supply)
    && NoRepeats(PublicKeys(p.active + p.deprecated))
  }

  lemma {:induction false} DeprecateKeepsCaches(
    p: Prekeys, index: nat, id: nat, deprecatedAt: nat, generatedAt: nat, now: nat)
    requires CachesSound(p, now) && index < |p.active| && now <= deprecatedAt <= generatedAt
    ensures CachesSound(Deprecate(p, index, id, deprecatedAt, generatedAt), generatedAt)
  {
    var aged := p.active[index].(expiration := deprecatedAt + DEPRECATED_EXPIRATION_TIME);
    var q := p.active[index := aged];
    var next := p.active[index := Generated(id, generatedAt)];
    MinIsLeast(q);
    forall i | 0 <= i < |next|
      ensures Min(q) <= next[i].expiration <= generatedAt + PREKEY_EXPIRATION_TIME
    {
      assert Min(q) <= q[i].expiration;
    }
  }

  // Both caches behind a deprecation: the earliest date of the deprecated keys, and of the slots
  // with the deprecated key still in its slot.
  lemma {:induction false} DeprecateCachesExactly(
    p: Prekeys, index: nat, id: nat, deprecatedAt: nat, generatedAt: nat)
    requires index < |p.active|
    ensures var q := Deprecate(p, index, id, deprecatedAt, generatedAt);
            var date := deprecatedAt + DEPRECATED_EXPIRATION_TIME;
            && q.oldest <= date
            && (forall i :: 0 <= i < |p.active| && i != index ==> q.oldest <= p.active[i].expiration)
            && (q.oldest == date || exists i :: 0 <= i < |p.active| && i != index && q.oldest == p.active[i].expiration)
            && q.oldestDeprecated <= date
            && (forall k :: k in p.deprecated ==> q.oldestDeprecated <= k.expiration)
            && (q.oldestDeprecated == date || exists k :: k in p.deprecated && q.oldestDeprecated == k.expiration)
  {
    var aged := p.active[index].(expiration := deprecatedAt + DEPRECATED_EXPIRATION_TIME);
    var slots, all := p.active[index := aged], p.deprecated + [aged];
    MinIsLeast(slots);
    MinIsLeast(all);
    assert slots[index] == aged && all[|p.deprecated|] == aged;
    forall i | 0 <= i < |p.active| && i != index
      ensures Min(slots) <= p.active[i].expiration
    {
      assert slots[i] == p.active[i];
    }
    forall k | k in p.deprecated
      ensures Min(all) <= k.expiration
    {
      var i :| 0 <= i < |p.deprecated| && p.deprecated[i] == k;
      assert all[i] == k;
    }
    var i :| 0 <= i < |slots| && Min(slots) == slots[i].expiration;
    assert i != index ==> slots[i] == p.active[i];
    var j :| 0 <= j < |all| && Min(all) == all[j].expiration;
    assert j < |p.deprecated| ==> all[j] in p.deprecated;
  }

  // A key that no slot holds: the store stays as it is, and the answer is the private key of a
  // deprecated entry, or that there is none.
  lemma {:induction false} LookupOfOthers(p: Prekeys, key: PublicKey, id: nat, deprecatedAt: nat, generatedAt: nat)
    requires forall i :: 0 <= i < |p.active| ==> p.active[i].publicKey != key
    ensures var (q, r) := Lookup(p, key, id, deprecatedAt, generatedAt);
            && q == p
            && (r.Ok? ==> exists k :: k in p.deprecated && k.publicKey == key && r == Ok(k.privateKey))
            && (r.Err? ==> r == Err(NotFound) && forall k :: k in p.deprecated ==> k.publicKey != key)
  {
    var j := Find(p.deprecated, key);
    if j < |p.deprecated| {
      assert p.deprecated[j] in p.deprecated;
    }
  }

  lemma {:induction false} ReplacedNoRepeats(keys: seq<PublicKey>, i: nat, key: PublicKey)
    requires NoRepeats(keys) && i < |keys| && key !in keys
    ensures NoRepeats(keys[i := key] + [keys[i]])
  {
  }

  lemma {:induction false} DeprecateKeepsKeys(
    p: Prekeys, index: nat, id: nat, deprecatedAt: nat, generatedAt: nat, supply: nat)
    requires KeysDistinct(p, supply) && index < |p.active| && id >= supply
    ensures KeysDistinct(Deprecate(p, index, id, deprecatedAt, generatedAt), id + 1)
  {
    var q := Deprecate(p, index, id, deprecatedAt, generatedAt);
    var keys := PublicKeys(p.active + p.deprecated);
    forall i | 0 <= i < |keys|
      ensures keys[i] != PublicKey(id)
    {
      assert keys[i] == (p.active + p.deprecated)[i].publicKey;
    }
    ReplacedNoRepeats(keys, index, PublicKey(id));
    assert PublicKeys(q.active + q.deprecated) == keys[index := PublicKey(id)] + [keys[index]];
  }

  // What a scan of the first `n` slots keeps.

  lemma {:induction false} LaterCachesSound(p: Prekeys, now: nat, later: nat)
    requires CachesSound(p, now) && now <= later
    ensures CachesSound(p, later)
  {
  }

  lemma {:induction false} OneSlotKeepsCaches(
    q: Prekeys, index: nat, id: nat, deprecatedAt: nat, generatedAt: nat, expired: nat, now: nat)
    requires CachesSound(q, now) && index < |q.active| && now <= deprecatedAt <= generatedAt
    ensures CachesSound(DeprecateIfExpired(q, index, id, deprecatedAt, generatedAt, expired), generatedAt)
  {
    if q.active[index].expiration < expired {
      DeprecateKeepsCaches(q, index, id, deprecatedAt, generatedAt, now);
    } else {
      LaterCachesSound(q, now, generatedAt);
    }
  }

  lemma {:induction false} ScanStep(p: Prekeys, i: nat, supply: nat, clock: nat -> nat)
    requires i < |p.active|
    ensures DeprecateExpired(p, i + 1, supply, clock)
         == DeprecateIfExpired(DeprecateExpired(p, i, supply, clock), i, supply + i,
                               clock(2 * i + 1), clock(2 * i + 2), clock(0))
  {
  }

  lemma {:induction false} ScanKeepsCaches(p: Prekeys, n: nat, supply: nat, clock: nat -> nat, now: nat)
    requires n <= |p.active| && NonDecreasing(clock) && now <= clock(0) && CachesSound(p, now)
    ensures CachesSound(DeprecateExpired(p, n, supply, clock), clock(2 * n))
  {
    hide DeprecateIfExpired;
    if n == 0 {
      LaterCachesSound(p, now, clock(0));
    } else {
      var last := n - 1;
      ScanKeepsCaches(p, last, supply, clock, now);
      ScanStep(p, last, supply, clock);
      assert clock(2 * last) <= clock(2 * last + 1) <= clock(2 * last + 2);
      OneSlotKeepsCaches(DeprecateExpired(p, last, supply, clock), last, supply + last,
                         clock(2 * last + 1), clock(2 * last + 2), clock(0), clock(2 * last));
    }
  }

  lemma {:induction false} OneSlotKeepsKeys(
    q: Prekeys, index: nat, supply: nat, deprecatedAt: nat, generatedAt: nat, now: nat)
    requires KeysDistinct(q, supply) && index < |q.active|
    ensures KeysDistinct(DeprecateIfExpired(q, index, supply, deprecatedAt, generatedAt, now), supply + 1)
  {
    DeprecateKeepsKeys(q, index, supply, deprecatedAt, generatedAt, supply);
  }

  lemma {:induction false} ScanKeepsKeys(p: Prekeys, n: nat, supply: nat, clock: nat -> nat)
    requires n <= |p.active| && KeysDistinct(p, supply)
    ensures KeysDistinct(DeprecateExpired(p, n, supply, clock), supply + n)
  {
    hide DeprecateIfExpired;
    if n == 0 {
    } else {
      ScanKeepsKeys(p, n - 1, supply, clock);
      OneSlotKeepsKeys(DeprecateExpired(p, n - 1, supply, clock), n - 1, supply + n - 1,
                       clock(2 * n - 1), clock(2 * n), clock(0));
    }
  }

  // The keys that a scan moves to the deprecated ones, in order and with their new dates.
  function Moved(active: seq<Prekey>, n: nat, clock: nat -> nat): (moved: seq<Prekey>)
    requires n <= |active|
  {
    if n == 0 then []
    else
      var rest := Moved(active, n - 1, clock);
      if active[n - 1].expiration < clock(0)
      then rest + [active[n - 1].(expiration := clock(2 * n - 1) + DEPRECATED_EXPIRATION_TIME)] else rest
  }

  lemma {:induction false} OneSlotIsExact(
    q: Prekeys, index: nat, id: nat, deprecatedAt: nat, generatedAt: nat, now: nat)
    requires index < |q.active|
    ensures var r := DeprecateIfExpired(q, index, id, deprecatedAt, generatedAt, now);
            if q.active[index].expiration < now then
              && r.active == q.active[index := Generated(id, generatedAt)]
              && r.deprecated == q.deprecated
                 + [q.active[index].(expiration := deprecatedAt + DEPRECATED_EXPIRATION_TIME)]
            else
              r == q
  {
  }

  function ScannedSlot(slot: Prekey, i: nat, n: nat, supply: nat, clock: nat -> nat): Prekey {
    if i < n && slot.expiration < clock(0) then Generated(supply + i, clock(2 * i + 2)) else slot
  }

  lemma {:induction false} ScanRenews(p: Prekeys, n: nat, supply: nat, clock: nat -> nat, i: nat)
    requires n <= |p.active| && i < |p.active|
    ensures DeprecateExpired(p, n, supply, clock).active[i] == ScannedSlot(p.active[i], i, n, supply, clock)
  {
    hide DeprecateIfExpired;
    if n == 0 {
    } else {
      var last := n - 1;
      ScanRenews(p, last, supply, clock, i);
      ScanStep(p, last, supply, clock);
      OneSlotIsExact(DeprecateExpired(p, last, supply, clock), last, supply + last,
                     clock(2 * last + 1), clock(2 * last + 2), clock(0));
    }
  }

  lemma {:induction false} MovedStep(active: seq<Prekey>, i: nat, clock: nat -> nat)
    requires i < |active|
    ensures Moved(active, i + 1, clock)
         == if active[i].expiration < clock(0)
            then Moved(active, i, clock) + [active[i].(expiration := clock(2 * i + 1) + DEPRECATED_EXPIRATION_TIME)]
            else Moved(active, i, clock)
  {
  }

  lemma {:induction false} ScanMoves(p: Prekeys, n: nat, supply: nat, clock: nat -> nat)
    requires n <= |p.active|
    ensures DeprecateExpired(p, n, supply, clock).deprecated == p.deprecated + Moved(p.active, n, clock)
  {
    if n == 0 {
    } else {
      hide DeprecateIfExpired, Moved, DeprecateExpired;
      var last := n - 1;
      ScanMoves(p, last, supply, clock);
      ScanRenews(p, last, supply, clock, last);
      ScanStep(p, last, supply, clock);
      OneSlotIsExact(DeprecateExpired(p, last, supply, clock), last, supply + last,
                     clock(2 * last + 1), clock(2 * last + 2), clock(0));
      MovedStep(p.active, last, clock);
      var moved := Moved(p.active, last, clock);
      var aged := p.active[last].(expiration := clock(2 * last + 1) + DEPRECATED_EXPIRATION_TIME);
      assert (p.deprecated + moved) + [aged] == p.deprecated + (moved + [aged]);
    }
  }

  // A scan renews exactly the slots that had expired, and appends their keys to the deprecated
  // ones.
  lemma {:induction false} ScanIsExact(p: Prekeys, n: nat, supply: nat, clock: nat -> nat)
    requires n <= |p.active|
    ensures DeprecateExpired(p, n, supply, clock).deprecated == p.deprecated + Moved(p.active, n, clock)
    ensures forall i :: 0 <= i < |p.active| ==>
              DeprecateExpired(p, n, supply, clock).active[i] == ScannedSlot(p.active[i], i, n, supply, clock)
  {
    ScanMoves(p, n, supply, clock);
    forall i | 0 <= i < |p.active|
      ensures DeprecateExpired(p, n, supply, clock).active[i] == ScannedSlot(p.active[i], i, n, supply, clock)
    {
      ScanRenews(p, n, supply, clock, i);
    }
  }

  lemma {:induction false} MovedKeepsKeys(active: seq<Prekey>, n: nat, clock: nat -> nat)
    requires n <= |active| && NonDecreasing(clock)
    ensures forall k :: k in Moved(active, n, clock) ==> k.expiration >= clock(0) + DEPRECATED_EXPIRATION_TIME
    ensures forall i :: 0 <= i < n && active[i].expiration < clock(0) ==>
              active[i].(expiration := clock(2 * i + 1) + DEPRECATED_EXPIRATION_TIME) in Moved(active, n, clock)
  {
    if n == 0 {
    } else {
      MovedKeepsKeys(active, n - 1, clock);
      assert clock(0) <= clock(2 * n - 1);
    }
  }

  // The erasing loop keeps exactly the entries whose date has not passed.
  lemma {:induction false} UnexpiredIsExact(s: seq<Prekey>, now: nat)
    ensures forall k :: k in Unexpired(s, now) <==> k in s && k.expiration >= now
  {
    if s == [] {
    } else {
      UnexpiredIsExact(s[..|s| - 1], now);
      assert s == s[..|s| - 1] + [s[|s| - 1]];
    }
  }

  lemma {:induction false} LastIsNew(
    a: seq<Prekey>, init: seq<Prekey>, last: Prekey, kept: seq<Prekey>, now: nat, i: nat)
    requires NoRepeats(PublicKeys(a + (init + [last]))) && kept == Unexpired(init, now) && i < |a + kept|
    ensures (a + kept)[i].publicKey != last.publicKey
  {
    var all := a + (init + [last]);
    var keys := PublicKeys(all);
    var n := |all| - 1;
    assert keys[n] == last.publicKey;
    if i < |a| {
      assert keys[i] == a[i].publicKey;
    } else {
      UnexpiredIsExact(init, now);
      assert kept[i - |a|] in kept;
      var k :| 0 <= k < |init| && init[k] == kept[i - |a|];
      assert all[|a| + k] == init[k] && keys[|a| + k] == init[k].publicKey;
    }
  }

  lemma {:induction false} UnexpiredNoRepeats(a: seq<Prekey>, s: seq<Prekey>, now: nat)
    requires NoRepeats(PublicKeys(a + s))
    ensures NoRepeats(PublicKeys(a + Unexpired(s, now)))
  {
    if s == [] {
    } else {
      var init, last := s[..|s| - 1], s[|s| - 1];
      assert PublicKeys(a + init) == PublicKeys(a + s)[..|a + init|];
      UnexpiredNoRepeats(a, init, now);
      assert s == init + [last];
      var rest := a + Unexpired(init, now);
      forall i | 0 <= i < |rest|
        ensures rest[i].publicKey != last.publicKey
      {
        LastIsNew(a, init, last, Unexpired(init, now), now, i);
      }
      assert a + (Unexpired(init, now) + [last]) == rest + [last];
    }
  }

  // Under a clock that does not run backwards no date is too far in the future.
  lemma {:induction false} NothingToDrawBack(p: Prekeys, now: nat, current: nat)
    requires CachesSound(p, now) && now <= current
    ensures DrawBack(p, current) == p
  {
    assert p.oldest <= p.active[0].expiration;
    if p.deprecated != [] {
      MinIsLeast(p.deprecated);
    }
  }

  // Whatever the clock says: when the cached date is more than its term ahead, all dates are drawn
  // back to the term; nothing else changes.
  lemma {:induction false} DrawBackIsExact(p: Prekeys, now: nat)
    ensures var q := DrawBack(p, now);
            && q.oldest == p.oldest && q.oldestDeprecated == p.oldestDeprecated
            && |q.active| == |p.active| && |q.deprecated| == |p.deprecated|
            && (forall i :: 0 <= i < |p.active| ==>
                  q.active[i] == if p.oldest > now + PREKEY_EXPIRATION_TIME
                                 then Prekey(p.active[i].publicKey, p.active[i].privateKey,
                                             now + PREKEY_EXPIRATION_TIME)
                                 else p.active[i])
            && (forall i :: 0 <= i < |p.deprecated| ==>
                  q.deprecated[i] == if p.oldestDeprecated > now + DEPRECATED_EXPIRATION_TIME
                                     then Prekey(p.deprecated[i].publicKey, p.deprecated[i].privateKey,
                                                 now + DEPRECATED_EXPIRATION_TIME)
                                     else p.deprecated[i])
  {
  }

  // What the scanning half of a rotation leaves.
  function Scanned(p: Prekeys, supply: nat, clock: nat -> nat): Prekeys {
    if p.oldest < clock(0) then DeprecateExpired(p, |p.active|, supply, clock) else p
  }

  lemma {:induction false} RotateInTwoSteps(p: Prekeys, supply: nat, clock: nat -> nat, now: nat)
    requires CachesSound(p, now) && NonDecreasing(clock) && now <= clock(0)
    ensures var q, s := Rotation(p, supply, clock), Scanned(p, supply, clock);
            && q.active == s.active && q.oldest == s.oldest
            && CachesSound(s, clock(2 * PREKEY_AMOUNT))
            && (s.oldestDeprecated < clock(0) ==>
                  q.deprecated == Unexpired(s.deprecated, clock(0)) && q.oldestDeprecated == MinOrZero(q.deprecated))
            && (s.oldestDeprecated >= clock(0) ==> q == s)
  {
    NothingToDrawBack(p, now, clock(0));
    assert clock(0) <= clock(2 * PREKEY_AMOUNT);
    ScanKeepsCaches(p, |p.active|, supply, clock, now);
  }

  lemma {:induction false} ScanLeavesNoneExpired(p: Prekeys, supply: nat, clock: nat -> nat, now: nat)
    requires CachesSound(p, now) && NonDecreasing(clock)
    ensures var s := Scanned(p, supply, clock);
            |s.active| == PREKEY_AMOUNT && forall i :: 0 <= i < PREKEY_AMOUNT ==> s.active[i].expiration >= clock(0)
  {
    var s := Scanned(p, supply, clock);
    if p.oldest < clock(0) {
      ScanIsExact(p, |p.active|, supply, clock);
      forall i | 0 <= i < PREKEY_AMOUNT
        ensures s.active[i].expiration >= clock(0)
      {
        assert clock(0) <= clock(2 * i + 2);
        assert s.active[i] == ScannedSlot(p.active[i], i, |p.active|, supply, clock);
      }
    }
  }

  // After a rotation no key in the store had expired when the rotation began, even where the
  // caches made it skip a scan.
  lemma {:induction false} RotateLeavesNoneExpired(p: Prekeys, supply: nat, clock: nat -> nat, now: nat)
    requires CachesSound(p, now) && NonDecreasing(clock) && now <= clock(0)
    ensures var q := Rotation(p, supply, clock);
            && |q.active| == PREKEY_AMOUNT
            && (forall i :: 0 <= i < PREKEY_AMOUNT ==> q.active[i].expiration >= clock(0))
            && (forall k :: k in q.deprecated ==> k.expiration >= clock(0))
  {
    var q, s := Rotation(p, supply, clock), Scanned(p, supply, clock);
    RotateInTwoSteps(p, supply, clock, now);
    ScanLeavesNoneExpired(p, supply, clock, now);
    UnexpiredIsExact(s.deprecated, clock(0));
    if s.oldestDeprecated >= clock(0) && s.deprecated != [] {
      MinIsLeast(s.deprecated);
    }
  }

  // A rotation throws away exactly the deprecated keys whose date has passed. It renews exactly
  // the slots that have expired, and deprecates what they held.
  lemma {:induction false} RotateIsExact(p: Prekeys, supply: nat, clock: nat -> nat, now: nat)
    requires CachesSound(p, now) && NonDecreasing(clock) && now <= clock(0)
    ensures var q := Rotation(p, supply, clock);
            && (forall k :: k in p.deprecated && k.expiration >= clock(0) ==> k in q.deprecated)
            && (forall k :: k in q.deprecated ==>
                  k.expiration >= clock(0) && (k in p.deprecated || k in Moved(p.active, |p.active|, clock)))
            && (forall i :: 0 <= i < PREKEY_AMOUNT && p.active[i].expiration >= clock(0) ==> q.active[i] == p.active[i])
            && (forall i :: 0 <= i < PREKEY_AMOUNT && p.active[i].expiration < clock(0) ==>
                  && q.active[i] == Prekey(PublicKey(supply + i), PrivateKey(supply + i),
                                           clock(2 * i + 2) + PREKEY_EXPIRATION_TIME)
                  && p.active[i].(expiration := clock(2 * i + 1) + DEPRECATED_EXPIRATION_TIME) in q.deprecated)
  {
    var q, s := Rotation(p, supply, clock), Scanned(p, supply, clock);
    RotateInTwoSteps(p, supply, clock, now);
    RotateLeavesNoneExpired(p, supply, clock, now);
    UnexpiredIsExact(s.deprecated, clock(0));
    ScanIsExact(p, |p.active|, supply, clock);
    MovedKeepsKeys(p.active, |p.active|, clock);
    forall k | k in s.deprecated && k.expiration >= clock(0)
      ensures k in q.deprecated
    {
    }
    forall i | 0 <= i < PREKEY_AMOUNT && p.active[i].expiration < clock(0)
      ensures q.active[i] == Generated(supply + i, clock(2 * i + 2))
      ensures p.active[i].(expiration := clock(2 * i + 1) + DEPRECATED_EXPIRATION_TIME) in q.deprecated
    {
      assert p.oldest < clock(0);
      assert s.active[i] == ScannedSlot(p.active[i], i, |p.active|, supply, clock);
      assert clock(0) <= clock(2 * i + 1);
      assert p.active[i].(expiration := clock(2 * i + 1) + DEPRECATED_EXPIRATION_TIME) in s.deprecated;
    }
  }

  lemma {:induction false} FreshSlotStays(
    q: Prekeys, index: nat, id: nat, deprecatedAt: nat, generatedAt: nat, now: nat)
    requires index < |q.active| && q.active[index].expiration >= now
    ensures DeprecateIfExpired(q, index, id, deprecatedAt, generatedAt, now) == q
  {
  }

  // Behind the last expired slot a scan changes nothing more.
  lemma {:induction false} ScanEnds(p: Prekeys, i: nat, n: nat, supply: nat, clock: nat -> nat)
    requires i <= n <= |p.active|
    requires forall k :: i <= k < n ==> p.active[k].expiration >= clock(0)
    ensures DeprecateExpired(p, n, supply, clock) == DeprecateExpired(p, i, supply, clock)
  {
    if n == i {
    } else {
      hide DeprecateExpired, DeprecateIfExpired;
      var last := n - 1;
      ScanEnds(p, i, last, supply, clock);
      ScanStep(p, last, supply, clock);
      ScanRenews(p, last, supply, clock, last);
      FreshSlotStays(DeprecateExpired(p, last, supply, clock), last, supply + last,
                     clock(2 * last + 1), clock(2 * last + 2), clock(0));
    }
  }

  lemma {:induction false} NothingScanned(p: Prekeys, supply: nat, clock: nat -> nat)
    requires forall k :: 0 <= k < |p.active| ==> p.active[k].expiration >= clock(0)
    ensures Scanned(p, supply, clock) == p
  {
    ScanEnds(p, 0, |p.active|, supply, clock);
  }

  lemma {:induction false} LastScanned(p: Prekeys, supply: nat, clock: nat -> nat, i: nat)
    requires i < |p.active| && p.active[i].expiration < clock(0)
    ensures var q, date := DeprecateExpired(p, i + 1, supply, clock), clock(2 * i + 1) + DEPRECATED_EXPIRATION_TIME;
            && q.oldest <= date
            && (forall k :: 0 <= k < |q.active| && k != i ==> q.oldest <= q.active[k].expiration)
            && (q.oldest == date || exists k :: 0 <= k < |q.active| && k != i && q.oldest == q.active[k].expiration)
  {
    hide DeprecateExpired;
    var before := DeprecateExpired(p, i, supply, clock);
    ScanStep(p, i, supply, clock);
    ScanRenews(p, i, supply, clock, i);
    DeprecateCachesExactly(before, i, supply + i, clock(2 * i + 1), clock(2 * i + 2));
    var q := DeprecateExpired(p, i + 1, supply, clock);
    if q.oldest != clock(2 * i + 1) + DEPRECATED_EXPIRATION_TIME {
      var k :| 0 <= k < |before.active| && k != i && q.oldest == before.active[k].expiration;
      assert q.active[k] == before.active[k];
    }
  }

  // The cached active date behind a rotation: the one before when no slot had expired, and
  // otherwise the earliest of all slots as they stood when the last expired one was dated.
  lemma {:induction false} RotationCacheExactly(p: Prekeys, supply: nat, clock: nat -> nat, now: nat, i: nat)
    requires CachesSound(p, now) && NonDecreasing(clock) && now <= clock(0)
    requires i <= PREKEY_AMOUNT && forall k :: i <= k < PREKEY_AMOUNT ==> p.active[k].expiration >= clock(0)
    requires i > 0 ==> p.active[i - 1].expiration < clock(0)
    ensures i == 0 ==> Rotation(p, supply, clock).oldest == p.oldest
    ensures i > 0 ==>
              var q, date := Rotation(p, supply, clock), clock(2 * i - 1) + DEPRECATED_EXPIRATION_TIME;
              && |q.active| == PREKEY_AMOUNT && q.oldest <= date
              && (forall k :: 0 <= k < PREKEY_AMOUNT && k != i - 1 ==> q.oldest <= q.active[k].expiration)
              && (q.oldest == date
                  || exists k :: 0 <= k < PREKEY_AMOUNT && k != i - 1 && q.oldest == q.active[k].expiration)
  {
    hide Rotation, DeprecateExpired, DeprecateIfExpired;
    RotateInTwoSteps(p, supply, clock, now);
    if i == 0 {
      NothingScanned(p, supply, clock);
    } else {
      assert p.oldest <= p.active[i - 1].expiration;
      ScanEnds(p, i, PREKEY_AMOUNT, supply, clock);
      LastScanned(p, supply, clock, i - 1);
    }
  }

  lemma {:induction false} RotateKeepsCaches(p: Prekeys, supply: nat, clock: nat -> nat, now: nat)
    requires CachesSound(p, now) && NonDecreasing(clock) && now <= clock(0)
    ensures CachesSound(Rotation(p, supply, clock), clock(2 * PREKEY_AMOUNT))
  {
    RotateInTwoSteps(p, supply, clock, now);
    var q, s := Rotation(p, supply, clock), Scanned(p, supply, clock);
    UnexpiredIsExact(s.deprecated, clock(0));
    forall i | 0 <= i < |q.deprecated|
      ensures q.deprecated[i].expiration <= clock(2 * PREKEY_AMOUNT) + DEPRECATED_EXPIRATION_TIME
    {
      assert q.deprecated[i] in s.deprecated;
    }
  }

  lemma {:induction false} UnexpiredAreKeypairs(s: seq<Prekey>, now: nat, supply: nat)
    requires AreKeypairs(s, supply)
    ensures AreKeypairs(Unexpired(s, now), supply)
  {
    UnexpiredIsExact(s, now);
    var t := Unexpired(s, now);
    forall i | 0 <= i < |t|
      ensures t[i].publicKey.id < supply && t[i].privateKey == PrivateKey(t[i].publicKey.id)
    {
      assert t[i] in s;
    }
  }

  lemma {:induction false} RotateKeepsKeys(p: Prekeys, supply: nat, clock: nat -> nat, now: nat)
    requires CachesSound(p, now) && NonDecreasing(clock) && now <= clock(0) && KeysDistinct(p, supply)
    ensures KeysDistinct(Rotation(p, supply, clock), supply + PREKEY_AMOUNT)
  {
    var s := Scanned(p, supply, clock);
    RotateInTwoSteps(p, supply, clock, now);
    ScanKeepsKeys(p, |p.active|, supply, clock);
    UnexpiredAreKeypairs(s.deprecated, clock(0), supply + PREKEY_AMOUNT);
    UnexpiredNoRepeats(s.active, s.deprecated, clock(0));
  }

  class PrekeyStore {
    const prekeys: array<Prekey>
    var deprecated: seq<Prekey>
    var oldest: nat
    var oldestDeprecated: nat

    ghost predicate Valid()
      reads this
    {
      prekeys.Length == PREKEY_AMOUNT
    }

    ghost function Content(): Prekeys
      reads this, prekeys
    {
      Prekeys(prekeys[..], deprecated, oldest, oldestDeprecated)
    }

    constructor (supply: nat, clock: nat -> nat)
      ensures Valid() && fresh(prekeys)
      ensures forall i :: 0 <= i < PREKEY_AMOUNT ==>
                prekeys[i] == Prekey(PublicKey(supply + i), PrivateKey(supply + i), clock(i) + PREKEY_EXPIRATION_TIME)
      ensures Content() == Prekeys(prekeys[..], [], Min(prekeys[..]), 0)
    {
      prekeys := new Prekey[PREKEY_AMOUNT](_ => Prekey(PublicKey(0), Erased, 0));
      deprecated, oldest, oldestDeprecated := [], 0, 0;
      new;
      for i := 0 to PREKEY_AMOUNT
        invariant forall k :: 0 <= k < i ==> prekeys[k] == Generated(supply + k, clock(k))
        invariant deprecated == [] && oldestDeprecated == 0
      {
        prekeys[i] := Generated(supply + i, clock(i));
      }
      UpdateExpirationDate();
    }

    // `std::min_element`
    static method Earliest(s: seq<Prekey>) returns (date: nat)
      requires s != []
      ensures date == Min(s)
    {
      date := s[0].expiration;
      for i := 1 to |s|
        invariant date == Min(s[..i])
      {
        assert s[..i + 1][..i] == s[..i];
        if s[i].expiration < date {
          date := s[i].expiration;
        }
      }
      assert s[..|s|] == s;
    }

    method UpdateExpirationDate()
      requires Valid()
      modifies this`oldest
      ensures oldest == Min(prekeys[..])
    {
      oldest := Earliest(prekeys[..]);
    }

    method UpdateDeprecatedExpirationDate()
      modifies this`oldestDeprecated
      ensures oldestDeprecated == MinOrZero(deprecated)
    {
      if deprecated == [] {
        oldestDeprecated := 0;
        return;
      }
      oldestDeprecated := Earliest(deprecated);
    }

    method DeprecateSlot(index: nat, id: nat, deprecatedAt: nat, generatedAt: nat)
      requires Valid() && index < PREKEY_AMOUNT
      modifies this, prekeys
      ensures Valid() && Content() == Deprecate(old(Content()), index, id, deprecatedAt, generatedAt)
    {
      prekeys[index] := prekeys[index].(expiration := deprecatedAt + DEPRECATED_EXPIRATION_TIME);
      deprecated := deprecated + [prekeys[index]];
      UpdateExpirationDate();
      UpdateDeprecatedExpirationDate();
      prekeys[index] := Generated(id, generatedAt);
    }

    static method Search(s: seq<Prekey>, key: PublicKey) returns (i: nat)
      ensures i == Find(s, key)
    {
      i := 0;
      while i < |s| && s[i].publicKey != key
        invariant i <= |s| && Find(s, key) == i + Find(s[i..], key)
      {
        assert s[i..][1..] == s[i + 1..];
        i := i + 1;
      }
    }

    method GetPrekey(key: PublicKey, id: nat, deprecatedAt: nat, generatedAt: nat) returns (r: Result<PrivateKey>)
      requires Valid()
      modifies this, prekeys
      ensures Valid() && (Content(), r) == Lookup(old(Content()), key, id, deprecatedAt, generatedAt)
    {
      var i := Search(prekeys[..], key);
      if i < prekeys.Length {
        var privateKey := prekeys[i].privateKey;
        DeprecateSlot(i, id, deprecatedAt, generatedAt);
        return Ok(privateKey);
      }
      var j := Search(deprecated, key);
      if j == |deprecated| {
        return Err(NotFound);
      }
      r := Ok(deprecated[j].privateKey);
    }

    method List() returns (keys: seq<PublicKey>)
      requires Valid()
      ensures keys == PublicKeys(prekeys[..])
    {
      keys := [];
      for i := 0 to prekeys.Length
        invariant keys == PublicKeys(prekeys[..])[..i]
      {
        keys := keys + [prekeys[i].publicKey];
      }
    }

    method Rotate(supply: nat, clock: nat -> nat)
      requires Valid()
      modifies this, prekeys
      ensures Valid() && Content() == Rotation(old(Content()), supply, clock)
    {
      var now := clock(0);
      DrawBackDates(now);
      if oldest < now {
        DeprecateExpiredSlots(supply, clock);
      }
      if oldestDeprecated < now {
        EraseExpired(now);
        UpdateDeprecatedExpirationDate();
      }
    }

    method DrawBackDates(now: nat)
      requires Valid()
      modifies this, prekeys
      ensures Valid() && Content() == DrawBack(old(Content()), now)
    {
      if now + PREKEY_EXPIRATION_TIME < oldest {
        ghost var before := prekeys[..];
        for i := 0 to prekeys.Length
          invariant forall k :: 0 <= k < i ==> prekeys[k] == before[k].(expiration := now + PREKEY_EXPIRATION_TIME)
          invariant forall k :: i <= k < prekeys.Length ==> prekeys[k] == before[k]
          invariant unchanged(this)
        {
          prekeys[i] := prekeys[i].(expiration := now + PREKEY_EXPIRATION_TIME);
        }
        assert prekeys[..] == Redated(before, now + PREKEY_EXPIRATION_TIME);
      }
      if now + DEPRECATED_EXPIRATION_TIME < oldestDeprecated {
        ghost var before, drawn := deprecated, prekeys[..];
        for i := 0 to |deprecated|
          invariant prekeys[..] == drawn
          invariant |deprecated| == |before| && oldest == old(oldest) && oldestDeprecated == old(oldestDeprecated)
          invariant forall k :: 0 <= k < i ==>
                    deprecated[k] == before[k].(expiration := now + DEPRECATED_EXPIRATION_TIME)
          invariant forall k :: i <= k < |before| ==> deprecated[k] == before[k]
        {
          deprecated := deprecated[i := deprecated[i].(expiration := now + DEPRECATED_EXPIRATION_TIME)];
        }
        assert deprecated == Redated(before, now + DEPRECATED_EXPIRATION_TIME);
      }
    }

    method DeprecateExpiredSlots(supply: nat, clock: nat -> nat)
      requires Valid()
      modifies this, prekeys
      ensures Valid() && Content() == DeprecateExpired(old(Content()), PREKEY_AMOUNT, supply, clock)
    {
      ghost var p := Content();
      for i := 0 to PREKEY_AMOUNT
        invariant Content() == DeprecateExpired(p, i, supply, clock)
      {
        ScanStep(p, i, supply, clock);
        DeprecateSlotIfExpired(i, supply + i, clock(2 * i + 1), clock(2 * i + 2), clock(0));
      }
    }

    method DeprecateSlotIfExpired(index: nat, id: nat, deprecatedAt: nat, generatedAt: nat, now: nat)
      requires Valid() && index < PREKEY_AMOUNT
      modifies this, prekeys
      ensures Valid()
      ensures Content() == DeprecateIfExpired(old(Content()), index, id, deprecatedAt, generatedAt, now)
    {
      if prekeys[index].expiration < now {
        DeprecateSlot(index, id, deprecatedAt, generatedAt);
      }
    }

    // After an erasure the index steps back by one before the loop advances it again; at index
    // zero the unsigned original wraps around, to the same effect.
    method EraseExpired(now: nat)
      modifies this`deprecated
      ensures deprecated == Unexpired(old(deprecated), now)
    {
      ghost var all, seen := deprecated, 0;
      var index := 0;
      while index < |deprecated|
        invariant 0 <= index <= |deprecated| && seen <= |all|
        invariant deprecated[..index] == Unexpired(all[..seen], now)
        invariant deprecated[index..] == all[seen..]
        decreases |deprecated| - index
      {
        assert deprecated[index] == all[seen];
        assert all[..seen + 1][..seen] == all[..seen];
        if deprecated[index].expiration < now {
          deprecated := deprecated[..index] + deprecated[index + 1..];
          index := index - 1;
        }
        index := index + 1;
        seen := seen + 1;
      }
      assert all[..seen] == all && deprecated[..index] == deprecated;
    }
  }
}
