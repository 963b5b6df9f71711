// What every ratchet state keeps, whatever packets arrive: a party can always send, never uses
// an erased key, and holds a receive header key exactly when it holds a receive chain key.
module Soundness {
  import opened Keys
  import opened KeyDerivation
  import opened KeyStore
  import opened RatchetState
  import opened Results

  // An empty key keeps no bytes behind.
  ghost predicate ErasedIfEmpty(key: EmptyableKey) {
    key.empty ==> key.bytes == Zero
  }

  ghost predicate KeypairMatches(s: State) {
    s.ourPrivateEphemeral.PrivateKey? && s.ourEphemeral == PublicKey(s.ourPrivateEphemeral.id)
  }

  ghost predicate Sound(s: State) {
    && !s.rootKey.empty
    && !s.nextSendHeaderKey.IsNone()
    && !s.nextReceiveHeaderKey.IsNone()
    && ErasedIfEmpty(s.receiveHeaderKey) && ErasedIfEmpty(s.sendChainKey) && ErasedIfEmpty(s.receiveChainKey)
    && (s.receiveHeaderKey.IsNone() <==> s.receiveChainKey.IsNone())
    && (s.sendHeaderKey.None? ==> s.ratchetFlag && s.role == Alice)
    && (s.sendHeaderKey.Some? ==> !s.sendHeaderKey.value.IsNone() && !s.sendChainKey.IsNone())
    && (s.receiveHeaderKey.IsNone() ==> !s.ratchetFlag && s.role == Bob)
    && (!s.ratchetFlag ==> KeypairMatches(s))
    && IsStore(s.skipped)
    && (forall e :: e in s.skipped ==> !e.headerKey.IsNone())
  }

  lemma {:induction false} CreatedIsSound(ourIdentity: nat, theirIdentity: nat, ourEphemeral: nat, theirEphemeral: nat)
    requires ourIdentity != theirIdentity
    ensures var created := Create(PrivateKey(ourIdentity), PublicKey(ourIdentity), PublicKey(theirIdentity),
                                  PrivateKey(ourEphemeral), PublicKey(ourEphemeral), PublicKey(theirEphemeral));
            created.Ok? && Sound(created.value)
  {
  }

  // Sending succeeds, whatever keypair is drawn.
  lemma {:induction false} SendKeepsSound(s: State, message: Message, keypair: nat, metadata: Option<PrekeyMetadata>)
    requires Sound(s)
    ensures Send(s, message, keypair, metadata).1.Ok?
    ensures Sound(Send(s, message, keypair, metadata).0)
    ensures !Send(s, message, keypair, metadata).0.ratchetFlag
  {
  }

  lemma {:induction false} StagedHeaderKeys(
    staged: seq<Entry>, headerKey: EmptyableKey, chain: Key, count: nat, clock: nat -> nat, e: Entry)
    requires IsStore(staged) && |staged| + count <= MAXIMUM_KEYS
    requires e in Stage(staged, headerKey, chain, count, clock)
    ensures e in staged || e.headerKey == headerKey
    decreases count
  {
    hide Insert, IsStore, MessageKeyAt;
    if count == 0 {
      assert Stage(staged, headerKey, chain, 0, clock) == staged;
    } else {
      hide Stage;
      var before := Stage(staged, headerKey, chain, count - 1, clock);
      StageInserts(staged, headerKey, chain, count - 1, clock);
      InsertMember(before, FreshEntry(headerKey, MessageKeyAt(chain, count - 1), clock(|before|)), e);
      if e in before {
        StagedHeaderKeys(staged, headerKey, chain, count - 1, clock, e);
      }
    }
  }

  // A commit keeps the store in order and its header keys present.
  lemma {:induction false} CommitKeepsStore(skipped: seq<Entry>, staged: seq<Entry>, now: Instants)
    requires IsStore(skipped) && IsStore(staged)
    requires forall e :: e in skipped || e in staged ==> !e.headerKey.IsNone()
    ensures IsStore(Settle(skipped, staged, now))
    ensures forall e :: e in Settle(skipped, staged, now) ==> !e.headerKey.IsNone()
  {
    SettleIsStore(skipped, staged, now);
    forall e | e in Settle(skipped, staged, now)
      ensures !e.headerKey.IsNone()
    {
      SettleMember(skipped, staged, now, e);
    }
  }

  lemma {:induction false} MissingIsStore(s: State, header: Header, clock: nat -> nat)
    requires header.Header?
    requires !s.receiveChainKey.IsNone() ==> !TooManySkipped(s.receiveNumber, header.previous)
    ensures var missing := StageMissing(s, header, clock);
            && IsStore(missing)
            && |missing| == if s.receiveChainKey.IsNone() then 0 else Gap(s.receiveNumber, header.previous)
  {
    if !s.receiveChainKey.IsNone() {
      StageIsStore([], s.receiveHeaderKey, s.receiveChainKey.bytes, Gap(s.receiveNumber, header.previous), clock);
    }
  }

  lemma {:induction false} StagingMissingFits(s: State, header: Header, clock: nat -> nat)
    requires Sound(s) && header.Header?
    requires !s.receiveChainKey.IsNone() ==> !TooManySkipped(s.receiveNumber, header.previous)
    ensures var missing := StageMissing(s, header, clock);
            && IsStore(missing) && |missing| <= MAXIMUM_SKIPPED_MESSAGES
            && forall e :: e in missing ==> !e.headerKey.IsNone()
  {
    MissingIsStore(s, header, clock);
    forall e | e in StageMissing(s, header, clock)
      ensures !e.headerKey.IsNone()
    {
      var gap := Gap(s.receiveNumber, header.previous);
      StagedHeaderKeys([], s.receiveHeaderKey, s.receiveChainKey.bytes, gap, clock, e);
    }
  }

  // What one delivery stages: at most 500 keys of the old chain and 500 of the new one, so
  // the staging area never overflows.
  lemma {:induction false} StagingFits(s: State, header: Header, newChain: Key, clock: nat -> nat)
    requires Sound(s) && header.Header?
    requires !s.receiveChainKey.IsNone() ==> !TooManySkipped(s.receiveNumber, header.previous)
    requires !TooManySkipped(0, header.number)
    ensures var staged := StageBoth(s, header, newChain, clock);
            && IsStore(staged)
            && |staged| == |StageMissing(s, header, clock)| + header.number
            && |StageMissing(s, header, clock)| <= MAXIMUM_SKIPPED_MESSAGES
            && forall e :: e in staged ==> !e.headerKey.IsNone()
  {
    var missing := StageMissing(s, header, clock);
    StagingMissingFits(s, header, clock);
    StageIsStore(missing, s.nextReceiveHeaderKey, newChain, header.number, clock);
    forall e | e in StageBoth(s, header, newChain, clock)
      ensures !e.headerKey.IsNone()
    {
      StagedHeaderKeys(missing, s.nextReceiveHeaderKey, newChain, header.number, clock, e);
    }
  }

  lemma {:induction false} StagingCurrentFits(s: State, number: nat, clock: nat -> nat)
    requires Sound(s) && !s.receiveHeaderKey.IsNone() && !TooManySkipped(s.receiveNumber, number)
    ensures var staged := Stage([], s.receiveHeaderKey, s.receiveChainKey.bytes, Gap(s.receiveNumber, number), clock);
            IsStore(staged) && forall e :: e in staged ==> !e.headerKey.IsNone()
  {
    StageIsStore([], s.receiveHeaderKey, s.receiveChainKey.bytes, Gap(s.receiveNumber, number), clock);
    forall e | e in Stage([], s.receiveHeaderKey, s.receiveChainKey.bytes, Gap(s.receiveNumber, number), clock)
      ensures !e.headerKey.IsNone()
    {
      StagedHeaderKeys([], s.receiveHeaderKey, s.receiveChainKey.bytes, Gap(s.receiveNumber, number), clock, e);
    }
  }

  // No packet, honest or not, can take a party out of a sound state.
  lemma {:induction false} DeliverKeepsSound(s: State, p: Packet, clock: nat -> nat, now: Instants)
    requires Sound(s)
    ensures Sound(Deliver(s, p, clock, now).state)
  {
    var i := FindKey(s.skipped, p);
    if i < |s.skipped| {
      RemoveAtKeepsOrder(s.skipped, i);
    } else if OpensHeader(s.receiveHeaderKey, p) {
      if Deliver(s, p, clock, now).result.Ok? {
        StagingCurrentFits(s, p.header.number, clock);
        CommitKeepsStore(s.skipped,
          Stage([], s.receiveHeaderKey, s.receiveChainKey.bytes, Gap(s.receiveNumber, p.header.number), clock), now);
      }
    } else if OpensHeader(s.nextReceiveHeaderKey, p) {
      if Deliver(s, p, clock, now).result.Ok? {
        var derived := DeriveRootNextHeaderAndChainKeys(
          s.ourPrivateEphemeral, s.ourEphemeral, p.header.ephemeral, s.rootKey, s.role).value;
        StagingFits(s, p.header, derived.chainKey, clock);
        CommitKeepsStore(s.skipped, StageBoth(s, p.header, derived.chainKey, clock), now);
      }
    }
  }

  // A rejected packet changes nothing, with one exception: a packet whose header is malformed
  // but which a stored key opens costs that key (the key is removed before the header is read).
  lemma {:induction false} RejectionKeepsState(s: State, p: Packet, clock: nat -> nat, now: Instants)
    requires Deliver(s, p, clock, now).result.Err?
    ensures Deliver(s, p, clock, now).state == s
        <==> !(p.Packet? && p.header.MalformedHeader? && FindKey(s.skipped, p) < |s.skipped|)
  {
    var i := FindKey(s.skipped, p);
    if i < |s.skipped| {
      assert |RemoveAt(s.skipped, i)| < |s.skipped|;
    }
  }

  // Which error a rejected packet gets, whatever it is.
  lemma {:induction false} RejectionCode(s: State, p: Packet, clock: nat -> nat, now: Instants)
    requires Sound(s) && Deliver(s, p, clock, now).result.Err?
    ensures var current, next := OpensHeader(s.receiveHeaderKey, p), OpensHeader(s.nextReceiveHeaderKey, p);
            Deliver(s, p, clock, now).result.error
            == if p.Garbled? || (!current && !next) then DecryptError
               else if p.header.MalformedHeader? then ProtobufUnpackError
               else if current && s.receiveHeaderKey.IsNone() then DecryptError
               else if current then
                 if p.header.number > s.receiveNumber + 500 then ReceiveError else DecryptError
               else if s.ratchetFlag then DecryptError
               else if p.header.number > 500 then ReceiveError
               else if !s.receiveChainKey.IsNone() && p.header.previous > s.receiveNumber + 500
               then ReceiveError
               else DecryptError
  {
    hide Settle, Discarded, Stage, StageMissing, StageBoth, Walk;
  }

  // Outside of sound states sending can fail, in three ways.
  lemma {:induction false} SendFailsExactly(
    s: State, message: Message, keypair: nat, metadata: Option<PrekeyMetadata>)
    ensures var r := Send(s, message, keypair, metadata).1;
            var headerKey := if s.ratchetFlag then Some(s.nextSendHeaderKey) else s.sendHeaderKey;
            && (r.Ok? <==> (if s.ratchetFlag then !s.rootKey.empty else !s.sendChainKey.empty)
                           && headerKey.Some? && !headerKey.value.empty)
            && (r.Err? ==> r.error == if !s.ratchetFlag && !s.sendChainKey.empty && headerKey.None? then InvalidState
                                      else ExpectationFailed)
            && (s.ratchetFlag && s.rootKey.empty ==>
                  Send(s, message, keypair, metadata).0
                  == s.(ourPrivateEphemeral := PrivateKey(keypair), ourEphemeral := PublicKey(keypair),
                        sendHeaderKey := Some(s.nextSendHeaderKey)))
            && (!s.ratchetFlag && (s.sendChainKey.empty || s.sendHeaderKey.None?) ==>
                  Send(s, message, keypair, metadata).0 == s)
  {
  }

  // After an acceptance that a stored key did not open, no key in the store was a month past its
  // date, that is two months past its staging, at either reading of the commit.
  lemma {:induction false} AcceptanceLeavesFresh(s: State, p: Packet, clock: nat -> nat, now: Instants, e: Entry)
    requires Sound(s) && FindKey(s.skipped, p) == |s.skipped| && Deliver(s, p, clock, now).result.Ok?
    requires e in Deliver(s, p, clock, now).state.skipped
    ensures now.merged < e.expiration + MONTH && now.trimmed < e.expiration + MONTH
  {
    if OpensHeader(s.receiveHeaderKey, p) {
      StagingCurrentFits(s, p.header.number, clock);
      SettledAreFresh(s.skipped,
        Stage([], s.receiveHeaderKey, s.receiveChainKey.bytes, Gap(s.receiveNumber, p.header.number), clock), now, e);
    } else {
      var chain := DeriveRootNextHeaderAndChainKeys(
        s.ourPrivateEphemeral, s.ourEphemeral, p.header.ephemeral, s.rootKey, s.role).value.chainKey;
      StagingFits(s, p.header, chain, clock);
      SettledAreFresh(s.skipped, StageBoth(s, p.header, chain, clock), now, e);
    }
  }

  // A delivery throws a stored or staged key away only because its age is reached, or in favour
  // of a full store of keys that expire no earlier.
  lemma {:induction false} DeliveryDropsForAReason(s: State, p: Packet, clock: nat -> nat, now: Instants, e: Entry)
    requires Sound(s) && e in Deliver(s, p, clock, now).dropped
    ensures var kept := Deliver(s, p, clock, now).state.skipped;
            || e.expiration + MONTH <= now.merged || e.expiration + MONTH <= now.trimmed
            || (|kept| == MAXIMUM_KEYS && forall x :: x in kept ==> e.expiration <= x.expiration)
  {
    if OpensHeader(s.receiveHeaderKey, p) {
      StagingCurrentFits(s, p.header.number, clock);
      DiscardedIsOldOrCrowdedOut(s.skipped,
        Stage([], s.receiveHeaderKey, s.receiveChainKey.bytes, Gap(s.receiveNumber, p.header.number), clock), now, e);
    } else {
      var chain := DeriveRootNextHeaderAndChainKeys(
        s.ourPrivateEphemeral, s.ourEphemeral, p.header.ephemeral, s.rootKey, s.role).value.chainKey;
      StagingFits(s, p.header, chain, clock);
      DiscardedIsOldOrCrowdedOut(s.skipped, StageBoth(s, p.header, chain, clock), now, e);
    }
  }

  // Two states that differ at most in how an absent key is represented.

  predicate AlikeKey(a: EmptyableKey, b: EmptyableKey) {
    a == b || (a.IsNone() && b.IsNone())
  }

  ghost predicate Alike(s: State, t: State) {
    && t == s.(receiveHeaderKey := t.receiveHeaderKey,
               sendChainKey := t.sendChainKey, receiveChainKey := t.receiveChainKey)
    && AlikeKey(s.receiveHeaderKey, t.receiveHeaderKey)
    && AlikeKey(s.sendChainKey, t.sendChainKey)
    && AlikeKey(s.receiveChainKey, t.receiveChainKey)
  }

  lemma {:induction false} SendIsBlindToAbsence(
    s: State, t: State, message: Message, keypair: nat, metadata: Option<PrekeyMetadata>)
    requires Sound(s) && Alike(s, t)
    ensures Send(s, message, keypair, metadata).1 == Send(t, message, keypair, metadata).1
    ensures Alike(Send(s, message, keypair, metadata).0, Send(t, message, keypair, metadata).0)
  {
  }

  ghost predicate IgnoresSendKey(o: Outcome, q: Outcome, key: EmptyableKey) {
    q.result == o.result && q.dropped == o.dropped && q.state == o.state.(sendChainKey := key)
  }

  lemma {:induction false} CurrentIgnoresSendKey(
    s: State, key: EmptyableKey, p: Packet, clock: nat -> nat, now: Instants)
    requires p.Packet?
    ensures IgnoresSendKey(DeliverCurrent(s, p, clock, now),
                           DeliverCurrent(s.(sendChainKey := key), p, clock, now), key)
  {
  }

  lemma {:induction false} NextIgnoresSendKey(s: State, key: EmptyableKey, p: Packet, clock: nat -> nat, now: Instants)
    requires p.Packet?
    ensures IgnoresSendKey(DeliverNext(s, p, clock, now), DeliverNext(s.(sendChainKey := key), p, clock, now), key)
  {
  }

  lemma {:induction false} SendKeyDoesNotMatter(
    s: State, key: EmptyableKey, p: Packet, clock: nat -> nat, now: Instants)
    ensures IgnoresSendKey(Deliver(s, p, clock, now), Deliver(s.(sendChainKey := key), p, clock, now), key)
  {
    if p.Packet? {
      CurrentIgnoresSendKey(s, key, p, clock, now);
      NextIgnoresSendKey(s, key, p, clock, now);
    }
  }

  lemma {:induction false} NextIsBlindToAbsence(s: State, t: State, p: Packet, clock: nat -> nat, now: Instants)
    requires Sound(s) && Alike(s, t) && s.receiveHeaderKey.IsNone() && p.Packet?
    ensures var o, q := DeliverNext(s, p, clock, now), DeliverNext(t, p, clock, now);
            && o.result == q.result && o.dropped == q.dropped
            && (o.result.Ok? ==> q.state == o.state.(sendChainKey := t.sendChainKey))
            && (o.result.Err? ==> o.state == s && q.state == t)
  {
    if p.header.Header? {
      forall newChain
        ensures StageBoth(s, p.header, newChain, clock) == StageBoth(t, p.header, newChain, clock)
      {
      }
    }
  }

  // A packet whose unreadable header is sealed under the all-zero key. Such a header opens under
  // a receive header key that is absent but counts as present.
  predicate IsNullSealed(p: Packet) {
    p.Packet? && p.headerKey == Zero && p.header.MalformedHeader?
  }

  // The same plaintext and numbers or an error on both sides; and the error codes differ exactly
  // for a null-sealed packet before the first chain, when just one of the absent keys counts as
  // present.
  lemma {:induction false} DeliverIsBlindToAbsence(
    s: State, t: State, p: Packet, clock: nat -> nat, now: Instants)
    requires Sound(s) && Alike(s, t)
    ensures var o, q := Deliver(s, p, clock, now), Deliver(t, p, clock, now);
            && (o.result.Ok? || q.result.Ok? ==> o.result == q.result)
            && (o.result == q.result <==>
                  !(IsNullSealed(p) && s.receiveHeaderKey.IsNone()
                    && s.receiveHeaderKey.empty != t.receiveHeaderKey.empty))
            && Alike(o.state, q.state)
            && o.dropped == q.dropped
  {
    if FindKey(s.skipped, p) < |s.skipped| {
      assert !s.skipped[FindKey(s.skipped, p)].headerKey.IsNone();
    } else if !s.receiveHeaderKey.IsNone() {
      SendKeyDoesNotMatter(s, t.sendChainKey, p, clock, now);
    } else if OpensHeader(s.nextReceiveHeaderKey, p) {
      NextIsBlindToAbsence(s, t, p, clock, now);
    } else {
      assert Deliver(s, p, clock, now).state == s && Deliver(t, p, clock, now).state == t;
    }
  }
}
