// lib/header-and-message-keystore.cpp: a vector of keys, sorted by expiration date and
// bounded in size and age. Every clock reading is a parameter.
module KeyStore {
  import opened Keys

  const MONTH: nat := 31 * 24 * 3600

  const EXPIRATION_TIME: nat := MONTH

  const MAXIMUM_AGE: nat := MONTH

  const MAXIMUM_KEYS: nat := 1000

  datatype Entry = Entry(headerKey: EmptyableKey, messageKey: Key, expiration: nat)

  function FreshEntry(headerKey: EmptyableKey, messageKey: Key, now: nat): Entry {
    Entry(headerKey, messageKey, now + EXPIRATION_TIME)
  }

  predicate IsOutdated(e: Entry, now: nat) {
    e.expiration <= now - MAXIMUM_AGE
  }

  ghost predicate Sorted(s: seq<Entry>) {
    forall i, j :: 0 <= i < j < |s| ==> s[i].expiration <= s[j].expiration
  }

  // The class invariant: the comment in the header file and the size bound.
  ghost predicate IsStore(s: seq<Entry>) {
    Sorted(s) && |s| <= MAXIMUM_KEYS
  }

  function RemoveAt(s: seq<Entry>, i: nat): seq<Entry>
    requires i < |s|
  {
    s[..i] + s[i + 1..]
  }

  // The position behind the last entry that expires no later than `date`, seen from the back.
  function Insert(s: seq<Entry>, e: Entry): seq<Entry> {
    if s == [] || s[|s| - 1].expiration <= e.expiration then s + [e]
    else Insert(s[..|s| - 1], e) + [s[|s| - 1]]
  }

  function Add(s: seq<Entry>, e: Entry, now: nat): seq<Entry> {
    if IsOutdated(e, now) then s
    else Insert(if |s| == MAXIMUM_KEYS then s[1..] else s, e)
  }

  // Stable merge: among equal dates the entries of `a` come first.
  function Merge(a: seq<Entry>, b: seq<Entry>): seq<Entry> {
    if a == [] then b
    else if b == [] then a
    else if b[0].expiration < a[0].expiration then [b[0]] + Merge(a, b[1..])
    else [a[0]] + Merge(a[1..], b)
  }

  // How many entries at the front are outdated.
  function Stale(s: seq<Entry>, now: nat): (k: nat)
    ensures k <= |s|
  {
    if s != [] && IsOutdated(s[0], now) then 1 + Stale(s[1..], now) else 0
  }

  function Cut(s: seq<Entry>, now: nat): (k: nat)
    ensures k <= |s| && |s| - k <= MAXIMUM_KEYS
  {
    var stale := Stale(s, now);
    if |s| - stale > MAXIMUM_KEYS then |s| - MAXIMUM_KEYS else stale
  }

  function Trim(s: seq<Entry>, now: nat): seq<Entry> {
    s[Cut(s, now)..]
  }

  function Combine(s: seq<Entry>, other: seq<Entry>, now: nat): seq<Entry> {
    Trim(Merge(s, other), now)
  }

  // A commit trims twice, each time at a clock reading of its own.
  datatype Instants = Instants(merged: nat, trimmed: nat)

  function SettleCut(m: seq<Entry>, now: Instants): (k: nat)
    ensures k <= |m| && |m| - k <= MAXIMUM_KEYS
  {
    var first := Cut(m, now.merged);
    first + Cut(m[first..], now.trimmed)
  }

  // What a commit leaves of the stored and the staged entries, and what it throws away.
  function Settle(s: seq<Entry>, other: seq<Entry>, now: Instants): seq<Entry> {
    Merge(s, other)[SettleCut(Merge(s, other), now)..]
  }

  function Discarded(s: seq<Entry>, other: seq<Entry>, now: Instants): seq<Entry> {
    Merge(s, other)[..SettleCut(Merge(s, other), now)]
  }

  // How often a message key occurs.
  function Copies(s: seq<Entry>, key: Key): nat {
    if s == [] then 0 else (if s[0].messageKey == key then 1 else 0) + Copies(s[1..], key)
  }

  lemma {:induction false} StaleSplits(s: seq<Entry>, now: nat)
    ensures forall i :: 0 <= i < Stale(s, now) ==> IsOutdated(s[i], now)
    ensures Stale(s, now) < |s| ==> !IsOutdated(s[Stale(s, now)], now)
  {
    if s == [] || !IsOutdated(s[0], now) {
    } else {
      StaleSplits(s[1..], now);
      forall i | 0 <= i < Stale(s, now)
        ensures IsOutdated(s[i], now)
      {
        if i > 0 {
          assert s[i] == s[1..][i - 1];
        }
      }
    }
  }

  // Trimming a sorted store drops an entry exactly when a month has passed since its date or at least
  // MAXIMUM_KEYS entries follow it.
  lemma {:induction false} TrimDropsExactly(s: seq<Entry>, now: nat, i: nat)
    requires Sorted(s) && i < |s|
    ensures i < Cut(s, now) <==> s[i].expiration + MONTH <= now || |s| - i > MAXIMUM_KEYS
  {
    StaleSplits(s, now);
  }

  lemma {:induction false} TrimIsIdempotent(s: seq<Entry>, now: nat)
    requires Sorted(s)
    ensures IsStore(Trim(s, now)) && Trim(Trim(s, now), now) == Trim(s, now)
  {
    var t := Trim(s, now);
    if t != [] {
      TrimDropsExactly(s, now, Cut(s, now));
      TrimDropsExactly(t, now, 0);
    }
  }

  lemma {:induction false} InsertSplits(s: seq<Entry>, e: Entry, k: nat)
    requires k <= |s|
    requires forall i :: 0 <= i < k ==> s[i].expiration <= e.expiration
    requires forall i :: k <= i < |s| ==> s[i].expiration > e.expiration
    ensures Insert(s, e) == s[..k] + [e] + s[k..]
  {
    if k == |s| {
      assert s[..k] == s && s[k..] == [];
    } else {
      var t := s[..|s| - 1];
      InsertSplits(t, e, k);
      assert t[..k] == s[..k] && t[k..] + [s[|s| - 1]] == s[k..];
    }
  }

  // A sorted rest behind an entry that expires no later than any of it.
  lemma {:induction false} SortedCons(head: Entry, rest: seq<Entry>)
    requires Sorted(rest) && (rest == [] || head.expiration <= rest[0].expiration)
    ensures Sorted([head] + rest)
  {
  }

  lemma {:induction false} SortedSnoc(init: seq<Entry>, last: Entry)
    requires Sorted(init) && (init == [] || init[|init| - 1].expiration <= last.expiration)
    ensures Sorted(init + [last])
  {
  }

  lemma {:induction false} InsertMember(s: seq<Entry>, e: Entry, x: Entry)
    ensures x in Insert(s, e) <==> x == e || x in s
  {
    if s == [] || s[|s| - 1].expiration <= e.expiration {
    } else {
      InsertMember(s[..|s| - 1], e, x);
      assert s == s[..|s| - 1] + [s[|s| - 1]];
    }
  }

  // The newest date after an insertion.
  lemma {:induction false} InsertLast(s: seq<Entry>, e: Entry)
    ensures var t := Insert(s, e);
            t != [] && (t[|t| - 1] == e || (s != [] && t[|t| - 1] == s[|s| - 1]))
  {
  }

  lemma {:induction false} InsertIsSorted(s: seq<Entry>, e: Entry)
    requires Sorted(s)
    ensures |Insert(s, e)| == |s| + 1 && Sorted(Insert(s, e))
  {
    if s == [] || s[|s| - 1].expiration <= e.expiration {
      SortedSnoc(s, e);
    } else {
      var init := s[..|s| - 1];
      InsertIsSorted(init, e);
      InsertLast(init, e);
      SortedSnoc(Insert(init, e), s[|s| - 1]);
    }
  }

  // Adding one entry: nothing happens when a month has passed since its date; otherwise it goes
  // to its place by date, behind equal dates, and the first entry gives way in a full store.
  lemma {:induction false} AddIsExact(s: seq<Entry>, e: Entry, now: nat, k: nat)
    requires IsStore(s)
    requires var kept := if |s| == MAXIMUM_KEYS then s[1..] else s;
             && k <= |kept|
             && (forall i :: 0 <= i < k ==> kept[i].expiration <= e.expiration)
             && (forall i :: k <= i < |kept| ==> kept[i].expiration > e.expiration)
    ensures e.expiration + MONTH <= now ==> Add(s, e, now) == s
    ensures now < e.expiration + MONTH ==>
              var kept := if |s| == MAXIMUM_KEYS then s[1..] else s;
              && Add(s, e, now) == kept[..k] + [e] + kept[k..]
              && IsStore(Add(s, e, now))
  {
    var kept := if |s| == MAXIMUM_KEYS then s[1..] else s;
    InsertSplits(kept, e, k);
    InsertIsSorted(kept, e);
  }

  lemma {:induction false} AddKeepsStore(s: seq<Entry>, e: Entry, now: nat)
    requires IsStore(s) && |s| < MAXIMUM_KEYS && !IsOutdated(e, now)
    ensures IsStore(Add(s, e, now)) && |Add(s, e, now)| == |s| + 1
  {
    InsertIsSorted(s, e);
  }

  lemma {:induction false} MergeMember(a: seq<Entry>, b: seq<Entry>, x: Entry)
    ensures x in Merge(a, b) <==> x in a || x in b
    decreases |a| + |b|
  {
    if a == [] || b == [] {
    } else {
      if b[0].expiration < a[0].expiration {
        MergeMember(a, b[1..], x);
        assert b == [b[0]] + b[1..];
      } else {
        MergeMember(a[1..], b, x);
        assert a == [a[0]] + a[1..];
      }
    }
  }

  lemma {:induction false} MergeIsSorted(a: seq<Entry>, b: seq<Entry>)
    requires Sorted(a) && Sorted(b)
    ensures Sorted(Merge(a, b)) && |Merge(a, b)| == |a| + |b|
    decreases |a| + |b|
  {
    if a == [] || b == [] {
    } else {
      if b[0].expiration < a[0].expiration {
        MergeIsSorted(a, b[1..]);
        SortedCons(b[0], Merge(a, b[1..]));
      } else {
        MergeIsSorted(a[1..], b);
        SortedCons(a[0], Merge(a[1..], b));
      }
    }
  }

  lemma {:induction false} CopiesConcat(a: seq<Entry>, b: seq<Entry>, key: Key)
    ensures Copies(a + b, key) == Copies(a, key) + Copies(b, key)
  {
    if a == [] {
      assert a + b == b;
    } else {
      CopiesConcat(a[1..], b, key);
      assert (a + b)[1..] == a[1..] + b;
    }
  }

  lemma {:induction false} CopiesMember(s: seq<Entry>, key: Key)
    ensures Copies(s, key) > 0 <==> exists i :: 0 <= i < |s| && s[i].messageKey == key
  {
    if s == [] {
    } else {
      CopiesMember(s[1..], key);
      if exists i :: 0 <= i < |s| && s[i].messageKey == key {
        var i :| 0 <= i < |s| && s[i].messageKey == key;
        assert i > 0 ==> s[1..][i - 1] == s[i];
      }
    }
  }

  lemma {:induction false} RemoveAtTakesOne(s: seq<Entry>, i: nat, key: Key)
    requires i < |s|
    ensures Copies(s, key) == Copies(RemoveAt(s, i), key) + if s[i].messageKey == key then 1 else 0
  {
    assert s == s[..i] + s[i..];
    CopiesConcat(s[..i], s[i..], key);
    CopiesConcat(s[..i], s[i + 1..], key);
    assert s[i..][1..] == s[i + 1..];
  }

  lemma {:induction false} RemoveAtKeepsOrder(s: seq<Entry>, i: nat)
    requires i < |s|
    ensures forall x :: x in RemoveAt(s, i) ==> x in s
    ensures IsStore(s) ==> IsStore(RemoveAt(s, i))
  {
  }

  lemma {:induction false} InsertAddsOne(s: seq<Entry>, e: Entry, key: Key)
    ensures Copies(Insert(s, e), key) == Copies(s, key) + if e.messageKey == key then 1 else 0
  {
    if s == [] || s[|s| - 1].expiration <= e.expiration {
      CopiesConcat(s, [e], key);
    } else {
      var t, last := s[..|s| - 1], [s[|s| - 1]];
      InsertAddsOne(t, e, key);
      CopiesConcat(t, last, key);
      CopiesConcat(Insert(t, e), last, key);
      assert s == t + last;
    }
  }

  lemma {:induction false} MergeAddsUp(a: seq<Entry>, b: seq<Entry>, key: Key)
    ensures Copies(Merge(a, b), key) == Copies(a, key) + Copies(b, key)
    decreases |a| + |b|
  {
    if a == [] || b == [] {
    } else {
      if b[0].expiration < a[0].expiration {
        MergeAddsUp(a, b[1..], key);
        assert Merge(a, b)[1..] == Merge(a, b[1..]);
      } else {
        MergeAddsUp(a[1..], b, key);
        assert Merge(a, b)[1..] == Merge(a[1..], b);
      }
    }
  }

  // Trimming after a merging `add` is one cut: an entry goes exactly when a month has passed since
  // its date at one of the two readings, or at least MAXIMUM_KEYS entries follow it.
  lemma {:induction false} SettleDropsExactly(m: seq<Entry>, now: Instants, i: nat)
    requires Sorted(m) && i < |m|
    ensures i < SettleCut(m, now)
       <==> m[i].expiration + 2_678_400 <= now.merged || m[i].expiration + 2_678_400 <= now.trimmed || |m| - i > 1000
  {
    var first := Cut(m, now.merged);
    TrimDropsExactly(m, now.merged, i);
    if i >= first {
      assert m[first..][i - first] == m[i];
      TrimDropsExactly(m[first..], now.trimmed, i - first);
    }
  }

  lemma {:induction false} SettleIsTrimmedTwice(s: seq<Entry>, other: seq<Entry>, now: Instants)
    ensures Settle(s, other, now) == Trim(Combine(s, other, now.merged), now.trimmed)
  {
  }

  // Nothing is lost or invented: what goes into a commit is afterwards either stored or among
  // the discarded entries.
  lemma {:induction false} SettleConserves(s: seq<Entry>, other: seq<Entry>, now: Instants, key: Key)
    ensures Copies(Settle(s, other, now), key) + Copies(Discarded(s, other, now), key)
         == Copies(s, key) + Copies(other, key)
  {
    var m := Merge(s, other);
    var k := SettleCut(m, now);
    MergeAddsUp(s, other, key);
    CopiesConcat(m[..k], m[k..], key);
    assert m == m[..k] + m[k..];
  }

  lemma {:induction false} CombineIsStore(s: seq<Entry>, other: seq<Entry>, now: nat)
    requires Sorted(s) && Sorted(other)
    ensures IsStore(Combine(s, other, now))
    ensures Trim(Combine(s, other, now), now) == Combine(s, other, now)
  {
    MergeIsSorted(s, other);
    TrimIsIdempotent(Merge(s, other), now);
  }

  lemma {:induction false} SettleIsStore(s: seq<Entry>, other: seq<Entry>, now: Instants)
    requires Sorted(s) && Sorted(other)
    ensures IsStore(Settle(s, other, now))
    ensures Trim(Settle(s, other, now), now.trimmed) == Settle(s, other, now)
  {
    CombineIsStore(s, other, now.merged);
    SettleIsTrimmedTwice(s, other, now);
    TrimIsIdempotent(Combine(s, other, now.merged), now.trimmed);
  }

  lemma {:induction false} SettleMember(s: seq<Entry>, other: seq<Entry>, now: Instants, e: Entry)
    requires e in Settle(s, other, now)
    ensures e in s || e in other
  {
    MergeMember(s, other, e);
    assert e in Merge(s, other);
  }

  // After a commit nothing is left that was a month past its date at either reading.
  lemma {:induction false} SettledAreFresh(s: seq<Entry>, other: seq<Entry>, now: Instants, e: Entry)
    requires Sorted(s) && Sorted(other) && e in Settle(s, other, now)
    ensures now.merged < e.expiration + MONTH && now.trimmed < e.expiration + MONTH
  {
    var m := Merge(s, other);
    MergeIsSorted(s, other);
    var i :| SettleCut(m, now) <= i < |m| && m[i] == e;
    SettleDropsExactly(m, now, i);
  }

  // Of at most MAXIMUM_KEYS entries exactly those stay.
  lemma {:induction false} SettleKeepsExactly(s: seq<Entry>, other: seq<Entry>, now: Instants, e: Entry)
    requires Sorted(s) && Sorted(other) && |s| + |other| <= MAXIMUM_KEYS
    ensures e in Settle(s, other, now)
       <==> (e in s || e in other) && now.merged < e.expiration + MONTH && now.trimmed < e.expiration + MONTH
  {
    var m := Merge(s, other);
    MergeIsSorted(s, other);
    MergeMember(s, other, e);
    if e in Settle(s, other, now) {
      SettledAreFresh(s, other, now, e);
      SettleMember(s, other, now, e);
    }
    if e in m {
      var i :| 0 <= i < |m| && m[i] == e;
      SettleDropsExactly(m, now, i);
      if i >= SettleCut(m, now) {
        assert m[SettleCut(m, now)..][i - SettleCut(m, now)] == e;
      }
    }
  }

  // An entry is thrown away only when its age is reached, or in favour of MAXIMUM_KEYS entries
  // that all expire no earlier.
  lemma {:induction false} DiscardedIsOldOrCrowdedOut(s: seq<Entry>, other: seq<Entry>, now: Instants, e: Entry)
    requires Sorted(s) && Sorted(other)
    requires e in Discarded(s, other, now)
    ensures || e.expiration + MONTH <= now.merged || e.expiration + MONTH <= now.trimmed
            || (&& |Settle(s, other, now)| == MAXIMUM_KEYS
                && forall x :: x in Settle(s, other, now) ==> e.expiration <= x.expiration)
  {
    var m := Merge(s, other);
    var k := SettleCut(m, now);
    MergeIsSorted(s, other);
    var i :| 0 <= i < k && m[i] == e;
    SettleDropsExactly(m, now, i);
    if !IsOutdated(e, now.merged) && !IsOutdated(e, now.trimmed) {
      SettleDropsExactly(m, now, |m| - MAXIMUM_KEYS);
      forall x | x in Settle(s, other, now)
        ensures e.expiration <= x.expiration
      {
        var n :| k <= n < |m| && m[n] == x;
      }
    }
  }

  // When everything stored expires no later than everything staged, the merge is a
  // concatenation.
  lemma {:induction false} MergeOfLaterAppends(a: seq<Entry>, b: seq<Entry>)
    requires forall i, j :: 0 <= i < |a| && 0 <= j < |b| ==> a[i].expiration <= b[j].expiration
    ensures Merge(a, b) == a + b
  {
    if a == [] || b == [] {
    } else {
      MergeOfLaterAppends(a[1..], b);
      assert a == [a[0]] + a[1..];
    }
  }

  // Staged keys survive the commit: they are the newest, there are at most MAXIMUM_KEYS of them
  // and none has reached the age limit. Only entries stored earlier can go.
  lemma {:induction false} StagedKeysSurvive(skipped: seq<Entry>, staged: seq<Entry>, now: Instants)
    requires Sorted(skipped) && IsStore(staged)
    requires forall i, j :: 0 <= i < |skipped| && 0 <= j < |staged| ==> skipped[i].expiration <= staged[j].expiration
    requires forall i :: 0 <= i < |staged| ==> !IsOutdated(staged[i], now.merged) && !IsOutdated(staged[i], now.trimmed)
    ensures var k := SettleCut(skipped + staged, now);
            && k <= |skipped|
            && Settle(skipped, staged, now) == skipped[k..] + staged
            && Discarded(skipped, staged, now) == skipped[..k]
  {
    var m := skipped + staged;
    var k := SettleCut(m, now);
    MergeOfLaterAppends(skipped, staged);
    MergeIsSorted(skipped, staged);
    if staged != [] {
      SettleDropsExactly(m, now, |skipped|);
      assert m[|skipped|] == staged[0];
    }
    assert m[k..] == skipped[k..] + staged;
    assert m[..k] == skipped[..k];
  }

  // One iteration of the merging loop and of the trimming loop.
  lemma {:induction false} MergeStep(a: seq<Entry>, i: nat, b: seq<Entry>, j: nat)
    requires i <= |a| && j <= |b| && (i < |a| || j < |b|)
    ensures Merge(a[i..], b[j..])
         == if j == |b| || (i < |a| && !(b[j].expiration < a[i].expiration))
            then [a[i]] + Merge(a[i + 1..], b[j..])
            else [b[j]] + Merge(a[i..], b[j + 1..])
  {
    if i < |a| { assert a[i..] == [a[i]] + a[i + 1..]; }
    if j < |b| { assert b[j..] == [b[j]] + b[j + 1..]; }
  }

  lemma {:induction false} StaleStep(s: seq<Entry>, i: nat, now: nat)
    requires i < |s|
    ensures Stale(s[i..], now) == if IsOutdated(s[i], now) then 1 + Stale(s[i + 1..], now) else 0
  {
    assert s[i..][1..] == s[i + 1..];
  }

  class HeaderAndMessageKeyStore {
    var keys: seq<Entry>

    ghost predicate Valid()
      reads this
    {
      IsStore(keys)
    }

    constructor ()
      ensures Valid() && keys == []
    {
      keys := [];
    }

    // `std::merge`
    static method MergeStores(ours: seq<Entry>, theirs: seq<Entry>) returns (merged: seq<Entry>)
      ensures merged == Merge(ours, theirs)
    {
      merged := [];
      ghost var rest := Merge(ours, theirs);
      var i, j := 0, 0;
      while i < |ours| || j < |theirs|
        invariant i <= |ours| && j <= |theirs|
        invariant rest == Merge(ours[i..], theirs[j..])
        invariant merged + rest == Merge(ours, theirs)
        decreases |ours| - i + |theirs| - j
      {
        MergeStep(ours, i, theirs, j);
        assert merged + rest == (merged + [rest[0]]) + rest[1..];
        if j == |theirs| || (i < |ours| && !(theirs[j].expiration < ours[i].expiration)) {
          merged := merged + [ours[i]];
          i := i + 1;
        } else {
          merged := merged + [theirs[j]];
          j := j + 1;
        }
        rest := rest[1..];
      }
    }

    // The merging `add`.
    method AddStore(other: HeaderAndMessageKeyStore, now: nat)
      requires Valid() && other.Valid() && this != other
      modifies this
      ensures Valid() && keys == Combine(old(keys), other.keys, now)
    {
      MergeIsSorted(keys, other.keys);
      keys := MergeStores(keys, other.keys);
      RemoveOutdatedAndTrimSize(now);
    }

    // The entry is dated first; the age check reads the clock again.
    method AddKeys(headerKey: EmptyableKey, messageKey: Key, dated: nat, now: nat)
      requires Valid()
      modifies this
      ensures Valid() && keys == Add(old(keys), FreshEntry(headerKey, messageKey, dated), now)
    {
      AddEntry(FreshEntry(headerKey, messageKey, dated), now);
    }

    method AddEntry(key: Entry, now: nat)
      requires Valid()
      modifies this
      ensures Valid() && keys == Add(old(keys), key, now)
    {
      if key.expiration <= now - MAXIMUM_AGE {
        return;
      }
      if |keys| == MAXIMUM_KEYS {
        keys := keys[1..];
      }
      InsertIsSorted(keys, key);
      if keys == [] || keys[|keys| - 1].expiration <= key.expiration {
        keys := keys + [key];
      } else {
        var bound := UpperBound(key.expiration);
        InsertSplits(keys, key, bound);
        keys := keys[..bound] + [key] + keys[bound..];
      }
    }

    // `std::upper_bound`
    method UpperBound(date: nat) returns (bound: nat)
      requires Sorted(keys)
      ensures bound <= |keys|
      ensures forall i :: 0 <= i < bound ==> keys[i].expiration <= date
      ensures forall i :: bound <= i < |keys| ==> keys[i].expiration > date
    {
      bound := 0;
      var end := |keys|;
      while bound < end
        invariant bound <= end <= |keys|
        invariant forall i :: 0 <= i < bound ==> keys[i].expiration <= date
        invariant forall i :: end <= i < |keys| ==> keys[i].expiration > date
      {
        var middle := (bound + end) / 2;
        if keys[middle].expiration <= date {
          bound := middle + 1;
        } else {
          end := middle;
        }
      }
    }

    method Remove(index: nat)
      requires Valid() && index < |keys|
      modifies this
      ensures Valid() && keys == RemoveAt(old(keys), index)
    {
      RemoveAtKeepsOrder(keys, index);
      keys := keys[..index] + keys[index + 1..];
    }

    method Clear()
      modifies this
      ensures Valid() && keys == []
    {
      keys := [];
    }

    method RemoveOutdatedAndTrimSize(now: nat)
      requires Sorted(keys)
      modifies this
      ensures Valid() && keys == Trim(old(keys), now)
    {
      assert IsStore(Trim(keys, now)) by { TrimIsIdempotent(keys, now); }
      var all, first := keys, 0;
      while first != |all| && all[first].expiration <= now - MAXIMUM_AGE
        invariant first <= |all| && keys == all
        invariant Stale(all, now) == first + Stale(all[first..], now)
      {
        StaleStep(all, first, now);
        first := first + 1;
      }
      var keysLeft := |all| - first;
      if keysLeft > MAXIMUM_KEYS {
        first := first + (keysLeft - MAXIMUM_KEYS);
      }
      assert first == Cut(all, now);
      if first == 0 {
        assert Trim(all, now) == all;
        return;
      }
      keys := all[first..];
    }
  }
}
