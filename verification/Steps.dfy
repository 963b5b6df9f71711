// Every event keeps the invariant.
module Steps {
  import opened Keys
  import opened KeyDerivation
  import opened KeyStore
  import opened RatchetState
  import opened Results
  import opened Soundness
  import opened TwoPhase
  import opened Persistence
  import opened History
  import opened Protocol

  // What a delivery does for an honest packet

  // When an honest packet is accepted: its key is stored, or it is ahead on the current chain,
  // or it is on the next chain, within the limits on skipped messages.
  predicate Acceptable(s: State, p: Packet)
    requires p.Packet? && p.header.Header?
  {
    || Copies(s.skipped, p.bodyKey) > 0
    || (&& s.receiveHeaderKey.Holds(p.headerKey)
        && s.receiveNumber <= p.header.number <= s.receiveNumber + MAXIMUM_SKIPPED_MESSAGES)
    || (&& s.nextReceiveHeaderKey.Holds(p.headerKey)
        && p.header.number <= MAXIMUM_SKIPPED_MESSAGES
        && (!s.receiveHeaderKey.IsNone() ==> p.header.previous <= s.receiveNumber + MAXIMUM_SKIPPED_MESSAGES))
  }

  // More than the limit ahead on the current chain, or on the next one or what it closes.
  predicate TooFar(s: State, p: Packet)
    requires p.Packet? && p.header.Header?
  {
    || (s.receiveHeaderKey.Holds(p.headerKey) && p.header.number > s.receiveNumber + MAXIMUM_SKIPPED_MESSAGES)
    || (s.nextReceiveHeaderKey.Holds(p.headerKey) && p.header.number > MAXIMUM_SKIPPED_MESSAGES)
    || (&& s.nextReceiveHeaderKey.Holds(p.headerKey) && !s.receiveHeaderKey.IsNone()
        && p.header.previous > s.receiveNumber + MAXIMUM_SKIPPED_MESSAGES)
  }

  // A stored key opens exactly the packet it belongs to.
  lemma {:induction false} StoredOpens(h: History, s: State, sender: Role, p: Packet)
    requires h.WellLinked() && StoreView(s.skipped, h) && SentBy(h, sender, p)
    ensures FindKey(s.skipped, p) < |s.skipped| <==> Copies(s.skipped, p.bodyKey) > 0
  {
    CopiesMember(s.skipped, p.bodyKey);
    if i :| 0 <= i < |s.skipped| && s.skipped[i].messageKey == p.bodyKey {
      assert s.skipped[i] in s.skipped;
      assert StoredKey(s.skipped[i], h);
      assert Opens(s.skipped[i], p);
    }
  }

  // The header keys tell the chains apart, whoever sent the packet.
  lemma {:induction false} HeaderOpens(h: History, s: State, role: Role, sender: Role, p: Packet)
    requires PartyView(s, role, h) && SentBy(h, sender, p)
    ensures var j, r := Epoch(p.bodyKey), ReceiveIndex(role, h.Top(), s.ratchetFlag);
            && (OpensHeader(s.receiveHeaderKey, p) <==> j == r)
            && (OpensHeader(s.nextReceiveHeaderKey, p) <==> j == r + 2)
            && (j == r + 2 ==> !s.ratchetFlag && j == h.Top())
  {
    var j, r := Epoch(p.bodyKey), ReceiveIndex(role, h.Top(), s.ratchetFlag);
    if r >= 0 && j != r {
      if j < r { HeaderKeysDiffer(h, j, r); } else { HeaderKeysDiffer(h, r, j); }
    }
    if j != r + 2 {
      HeaderKeysDiffer(h, j, r + 2);
    }
  }

  // On the current chain the message key fits exactly for numbers that are not behind.
  lemma {:induction false} CurrentFits(h: History, s: State, role: Role, p: Packet)
    requires PartyView(s, role, h) && SentBy(h, Other(role), p)
    requires Epoch(p.bodyKey) == ReceiveIndex(role, h.Top(), s.ratchetFlag)
    ensures p.bodyKey == MessageKey(Walk(s.receiveChainKey.bytes, Gap(s.receiveNumber, p.header.number)))
       <==> s.receiveNumber <= p.header.number
  {
    var chain := h.ChainKey(Epoch(p.bodyKey));
    WalkComposes(chain, s.receiveNumber, Gap(s.receiveNumber, p.header.number));
    ChainKeyDecodes(h, Epoch(p.bodyKey), p.header.number);
    ChainKeyDecodes(h, Epoch(p.bodyKey), s.receiveNumber);
  }

  // Both sides derive the same link.
  lemma {:induction false} ReceiverDerivesLink(h: History, s: State, role: Role, p: Packet)
    requires PartyView(s, role, h) && SentBy(h, Other(role), p)
    requires Epoch(p.bodyKey) == ReceiveIndex(role, h.Top(), s.ratchetFlag) + 2
    ensures !s.ratchetFlag && h.Top() >= 1
    ensures DeriveRootNextHeaderAndChainKeys(
              s.ourPrivateEphemeral, s.ourEphemeral, p.header.ephemeral, s.rootKey, s.role)
         == Ok(Derived(h.RootKey(h.Top()), h.HeaderKey(h.Top() + 2), h.ChainKey(h.Top())))
  {
    HeaderOpens(h, s, role, Other(role), p);
    assert h.Linked(h.Top());
  }

  lemma {:induction false} HonestDelivery(h: History, s: State, role: Role, p: Packet, clock: nat -> nat, now: Instants)
    requires PartyView(s, role, h) && StoreView(s.skipped, h) && SentBy(h, Other(role), p)
    ensures var o := Deliver(s, p, clock, now);
            && (o.result.Ok? <==> Acceptable(s, p))
            && (o.result.Ok? ==> o.result.value == Received(p.body, p.header.number, p.header.previous))
            && (o.result.Err? ==> o.state == s && o.dropped == []
                                  && o.result == Err(if TooFar(s, p) then ReceiveError else DecryptError))
  {
    StoredOpens(h, s, Other(role), p);
    HeaderOpens(h, s, role, Other(role), p);
    var j, r := Epoch(p.bodyKey), ReceiveIndex(role, h.Top(), s.ratchetFlag);
    if j == r {
      CurrentFits(h, s, role, p);
    } else if j == r + 2 {
      ReceiverDerivesLink(h, s, role, p);
    }
  }

  // What acceptance does to the receiver

  // The keys passed grow by the accepted one and by those that were staged; every staged key is
  // afterwards stored or dropped.
  ghost predicate Accounted(h: History, s: State, p: Packet, o: Outcome, key: Key)
    requires h.WellLinked() && p.Packet?
  {
    && ReceiveIndex(o.state.role, h.Top(), o.state.ratchetFlag) <= h.Top()
    && Passed(h, ReceiveIndex(o.state.role, h.Top(), o.state.ratchetFlag), o.state.receiveNumber, key)
       + Copies(s.skipped, key)
       == Passed(h, ReceiveIndex(s.role, h.Top(), s.ratchetFlag), s.receiveNumber, key)
        + (if p.bodyKey == key then 1 else 0) + Copies(o.state.skipped, key) + Copies(o.dropped, key)
  }

  lemma {:induction false} StoredAccounted(
    h: History, s: State, role: Role, p: Packet, clock: nat -> nat, now: Instants, key: Key)
    requires PartyView(s, role, h) && SentBy(h, Other(role), p) && FindKey(s.skipped, p) < |s.skipped|
    ensures Accounted(h, s, p, Deliver(s, p, clock, now), key)
  {
    RemoveAtTakesOne(s.skipped, FindKey(s.skipped, p), key);
  }

  lemma {:induction false} CurrentOutcome(h: History, s: State, role: Role, p: Packet, clock: nat -> nat, now: Instants)
    requires PartyView(s, role, h) && SentBy(h, Other(role), p)
    requires Epoch(p.bodyKey) == ReceiveIndex(role, h.Top(), s.ratchetFlag)
    requires DeliverCurrent(s, p, clock, now).result.Ok?
    ensures s.receiveNumber <= p.header.number <= s.receiveNumber + MAXIMUM_SKIPPED_MESSAGES
    ensures var o, r := DeliverCurrent(s, p, clock, now), Epoch(p.bodyKey);
            var staged := Stage([], s.receiveHeaderKey, Walk(h.ChainKey(r), s.receiveNumber),
                                p.header.number - s.receiveNumber, clock);
            && o.dropped == Discarded(s.skipped, staged, now)
            && o.state == s.(receiveNumber := p.header.number + 1,
                             receiveChainKey := Present(Walk(h.ChainKey(r), p.header.number + 1)),
                             skipped := Settle(s.skipped, staged, now))
  {
    hide Stage, Settle, Discarded;
    CurrentFits(h, s, role, p);
    WalkComposes(h.ChainKey(Epoch(p.bodyKey)), s.receiveNumber, Gap(s.receiveNumber, p.header.number));
  }

  lemma {:induction false} CurrentBalance(
    h: History, r: nat, headerKey: EmptyableKey, from: nat, gap: nat, clock: nat -> nat, key: Key)
    requires h.WellLinked() && r <= h.Top() && gap <= MAXIMUM_SKIPPED_MESSAGES
    ensures Passed(h, r, from, key) + Copies(Stage([], headerKey, Walk(h.ChainKey(r), from), gap, clock), key)
         == Passed(h, r, from + gap, key)
  {
    ChainKeyDecodes(h, r, 0);
    StageAddsRange([], headerKey, h.ChainKey(r), from, gap, clock, key);
  }

  lemma {:induction false} PassedOneMore(h: History, j: nat, n: nat, key: Key)
    requires h.WellLinked() && j <= h.Top()
    ensures Passed(h, j, n + 1, key) == Passed(h, j, n, key) + if key == MessageKeyAt(h.ChainKey(j), n) then 1 else 0
  {
    ChainKeyDecodes(h, j, 0);
    InRangeStep(h.ChainKey(j), n, key);
  }

  lemma {:induction false} CurrentSettles(
    h: History, s: State, role: Role, p: Packet, clock: nat -> nat, now: Instants, o: Outcome, key: Key)
    requires h.WellLinked() && s.role == role && SentBy(h, Other(role), p)
    requires Epoch(p.bodyKey) == ReceiveIndex(role, h.Top(), s.ratchetFlag)
    requires s.receiveNumber <= p.header.number <= s.receiveNumber + MAXIMUM_SKIPPED_MESSAGES
    requires o.state.role == role && o.state.ratchetFlag == s.ratchetFlag
             && o.state.receiveNumber == p.header.number + 1
    requires var chain := Walk(h.ChainKey(Epoch(p.bodyKey)), s.receiveNumber);
             var staged := Stage([], s.receiveHeaderKey, chain, p.header.number - s.receiveNumber, clock);
             o.dropped == Discarded(s.skipped, staged, now) && o.state.skipped == Settle(s.skipped, staged, now)
    ensures Accounted(h, s, p, o, key)
  {
    hide Settle, Discarded, Stage, Walk, Passed, Copies;
    var r, gap := Epoch(p.bodyKey), p.header.number - s.receiveNumber;
    CurrentBalance(h, r, s.receiveHeaderKey, s.receiveNumber, gap, clock, key);
    PassedOneMore(h, r, p.header.number, key);
    var staged := Stage([], s.receiveHeaderKey, Walk(h.ChainKey(r), s.receiveNumber), gap, clock);
    SettleConserves(s.skipped, staged, now, key);
  }

  lemma {:induction false} CurrentAccounted(
    h: History, s: State, role: Role, p: Packet, clock: nat -> nat, now: Instants, key: Key)
    requires PartyView(s, role, h) && SentBy(h, Other(role), p)
    requires Epoch(p.bodyKey) == ReceiveIndex(role, h.Top(), s.ratchetFlag)
    requires DeliverCurrent(s, p, clock, now).result.Ok?
    ensures Accounted(h, s, p, DeliverCurrent(s, p, clock, now), key)
  {
    CurrentOutcome(h, s, role, p, clock, now);
    CurrentSettles(h, s, role, p, clock, now, DeliverCurrent(s, p, clock, now), key);
  }

  // What a packet of the next chain leads to.
  ghost predicate IsNext(h: History, s: State, role: Role, p: Packet)
    requires h.WellLinked()
  {
    && PartyView(s, role, h)
    && SentBy(h, Other(role), p)
    && Epoch(p.bodyKey) == h.Top() == ReceiveIndex(role, h.Top(), s.ratchetFlag) + 2
    && (!s.receiveChainKey.IsNone() ==> !TooManySkipped(s.receiveNumber, p.header.previous))
    && !TooManySkipped(0, p.header.number)
  }

  lemma {:induction false} NextOutcome(h: History, s: State, role: Role, p: Packet, clock: nat -> nat, now: Instants)
    requires PartyView(s, role, h) && SentBy(h, Other(role), p)
    requires Epoch(p.bodyKey) == ReceiveIndex(role, h.Top(), s.ratchetFlag) + 2
    requires DeliverNext(s, p, clock, now).result.Ok?
    ensures IsNext(h, s, role, p)
    ensures var o, top := DeliverNext(s, p, clock, now), h.Top();
            var staged := StageBoth(s, p.header, h.ChainKey(top), clock);
            && o.dropped == Discarded(s.skipped, staged, now)
            && o.state == s.(rootKey := Present(h.RootKey(top)),
                             receiveHeaderKey := s.nextReceiveHeaderKey,
                             nextReceiveHeaderKey := Present(h.HeaderKey(top + 2)),
                             theirEphemeral := p.header.ephemeral,
                             ourPrivateEphemeral := Erased,
                             ratchetFlag := true,
                             receiveNumber := p.header.number + 1,
                             receiveChainKey := Present(NextChainKey(Walk(h.ChainKey(top), p.header.number))),
                             skipped := Settle(s.skipped, staged, now))
  {
    ReceiverDerivesLink(h, s, role, p);
  }

  lemma {:induction false} MissingClosesChain(h: History, s: State, r: nat, header: Header, clock: nat -> nat, key: Key)
    requires h.WellLinked() && r <= h.Top() && header.Header?
    requires s.receiveChainKey.Holds(Walk(h.ChainKey(r), s.receiveNumber)) && !s.receiveChainKey.IsNone()
    requires s.receiveNumber <= h.sent[r] == header.previous && !TooManySkipped(s.receiveNumber, header.previous)
    ensures InRange(h.ChainKey(r), s.receiveNumber, key) + Copies(StageMissing(s, header, clock), key)
         == InRange(h.ChainKey(r), h.sent[r], key)
  {
    ChainKeyDecodes(h, r, 0);
    StageAddsRange([], s.receiveHeaderKey, h.ChainKey(r), s.receiveNumber, h.sent[r] - s.receiveNumber, clock, key);
  }

  // Staging what is missing from the current chain closes it.
  lemma {:induction false} MissingAddsRest(h: History, s: State, role: Role, p: Packet, clock: nat -> nat, key: Key)
    requires h.WellLinked() && IsNext(h, s, role, p)
    ensures Passed(h, h.Top() - 2, s.receiveNumber, key) + Copies(StageMissing(s, p.header, clock), key)
         == Closed(h, h.Top() - 2, key)
  {
    if h.Top() >= 2 {
      MissingClosesChain(h, s, h.Top() - 2, p.header, clock, key);
    }
  }

  lemma {:induction false} BothAddUp(h: History, s: State, role: Role, p: Packet, clock: nat -> nat, key: Key)
    requires h.WellLinked() && IsNext(h, s, role, p)
    ensures Passed(h, h.Top() - 2, s.receiveNumber, key)
            + Copies(StageBoth(s, p.header, h.ChainKey(h.Top()), clock), key)
         == Passed(h, h.Top(), p.header.number, key)
  {
    var chain := h.ChainKey(h.Top());
    MissingIsStore(s, p.header, clock);
    MissingAddsRest(h, s, role, p, clock, key);
    ChainKeyDecodes(h, h.Top(), 0);
    StageAddsRange(StageMissing(s, p.header, clock), s.nextReceiveHeaderKey, chain, 0, p.header.number, clock, key);
  }

  lemma {:induction false} NextBalance(
    h: History, s: State, role: Role, p: Packet, clock: nat -> nat, now: Instants, o: Outcome, key: Key)
    requires h.WellLinked() && IsNext(h, s, role, p)
    requires o.state.role == role && o.state.ratchetFlag && o.state.receiveNumber == p.header.number + 1
    requires o.state.skipped == Settle(s.skipped, StageBoth(s, p.header, h.ChainKey(h.Top()), clock), now)
    requires o.dropped == Discarded(s.skipped, StageBoth(s, p.header, h.ChainKey(h.Top()), clock), now)
    ensures Accounted(h, s, p, o, key)
  {
    BothAddUp(h, s, role, p, clock, key);
    PassedOneMore(h, h.Top(), p.header.number, key);
    SettleConserves(s.skipped, StageBoth(s, p.header, h.ChainKey(h.Top()), clock), now, key);
  }

  lemma {:induction false} NextAccounted(
    h: History, s: State, role: Role, p: Packet, clock: nat -> nat, now: Instants, key: Key)
    requires PartyView(s, role, h) && SentBy(h, Other(role), p)
    requires Epoch(p.bodyKey) == ReceiveIndex(role, h.Top(), s.ratchetFlag) + 2
    requires DeliverNext(s, p, clock, now).result.Ok?
    ensures Accounted(h, s, p, DeliverNext(s, p, clock, now), key)
  {
    NextOutcome(h, s, role, p, clock, now);
    NextBalance(h, s, role, p, clock, now, DeliverNext(s, p, clock, now), key);
  }

  lemma {:induction false} CurrentKeepsView(
    h: History, s: State, role: Role, p: Packet, clock: nat -> nat, now: Instants)
    requires PartyView(s, role, h) && SentBy(h, Other(role), p)
    requires Epoch(p.bodyKey) == ReceiveIndex(role, h.Top(), s.ratchetFlag)
    requires DeliverCurrent(s, p, clock, now).result.Ok?
    ensures PartyView(DeliverCurrent(s, p, clock, now).state, role, h)
  {
    CurrentOutcome(h, s, role, p, clock, now);
    var t, r := DeliverCurrent(s, p, clock, now).state, Epoch(p.bodyKey);
    assert SendView(t, h, SendIndex(role, h.Top()));
    assert ReceiveView(t, h, r);
  }

  lemma {:induction false} NextKeepsView(h: History, s: State, role: Role, p: Packet, clock: nat -> nat, now: Instants)
    requires PartyView(s, role, h) && SentBy(h, Other(role), p)
    requires Epoch(p.bodyKey) == ReceiveIndex(role, h.Top(), s.ratchetFlag) + 2
    requires DeliverNext(s, p, clock, now).result.Ok?
    ensures PartyView(DeliverNext(s, p, clock, now).state, role, h)
  {
    hide DeliverNext, Settle, Discarded, StageBoth;
    NextOutcome(h, s, role, p, clock, now);
    var t, top := DeliverNext(s, p, clock, now).state, h.Top();
    assert SendView(t, h, top - 1);
    assert ReceiveView(t, h, top);
  }

  lemma {:induction false} StagedOnChain(
    h: History, r: nat, headerKey: EmptyableKey, from: nat, count: nat, clock: nat -> nat, e: Entry)
    requires h.WellLinked() && r <= h.Top() && headerKey.Holds(h.HeaderKey(r)) && count <= MAXIMUM_KEYS
    requires e in Stage([], headerKey, Walk(h.ChainKey(r), from), count, clock)
    ensures StoredKey(e, h)
  {
    ChainKeyDecodes(h, r, 0);
    StageMember([], headerKey, h.ChainKey(r), from, count, clock, e);
  }

  lemma {:induction false} SettleKeepsView(
    h: History, r: nat, skipped: seq<Entry>, headerKey: EmptyableKey, from: nat, gap: nat,
    clock: nat -> nat, now: Instants)
    requires h.WellLinked() && r <= h.Top() && gap <= MAXIMUM_KEYS && headerKey.Holds(h.HeaderKey(r))
    requires StoreView(skipped, h) && Sorted(skipped)
    ensures StoreView(Settle(skipped, Stage([], headerKey, Walk(h.ChainKey(r), from), gap, clock), now), h)
  {
    var staged := Stage([], headerKey, Walk(h.ChainKey(r), from), gap, clock);
    StageIsStore([], headerKey, Walk(h.ChainKey(r), from), gap, clock);
    forall e | e in Settle(skipped, staged, now)
      ensures StoredKey(e, h)
    {
      SettleMember(skipped, staged, now, e);
      if e in staged {
        StagedOnChain(h, r, headerKey, from, gap, clock, e);
      }
    }
  }

  lemma {:induction false} CurrentKeepsStore(
    h: History, s: State, role: Role, p: Packet, clock: nat -> nat, now: Instants)
    requires PartyView(s, role, h) && SentBy(h, Other(role), p) && StoreView(s.skipped, h) && Sorted(s.skipped)
    requires Epoch(p.bodyKey) == ReceiveIndex(role, h.Top(), s.ratchetFlag)
    requires DeliverCurrent(s, p, clock, now).result.Ok?
    ensures StoreView(DeliverCurrent(s, p, clock, now).state.skipped, h)
  {
    hide DeliverCurrent, Stage, Settle, Discarded, Walk, StoreView;
    var r := ReceiveIndex(role, h.Top(), s.ratchetFlag);
    var gap := p.header.number - s.receiveNumber;
    CurrentOutcome(h, s, role, p, clock, now);
    SettleKeepsView(h, r, s.skipped, s.receiveHeaderKey, s.receiveNumber, gap, clock, now);
  }

  lemma {:induction false} MissingStagedKey(h: History, s: State, role: Role, p: Packet, clock: nat -> nat, e: Entry)
    requires h.WellLinked() && IsNext(h, s, role, p)
    requires e in StageMissing(s, p.header, clock)
    ensures StoredKey(e, h)
  {
    if h.Top() >= 2 {
      StagedOnChain(h, h.Top() - 2, s.receiveHeaderKey, s.receiveNumber,
                    Gap(s.receiveNumber, p.header.previous), clock, e);
    }
  }

  lemma {:induction false} NextStagedKey(h: History, s: State, role: Role, p: Packet, clock: nat -> nat, e: Entry)
    requires h.WellLinked() && IsNext(h, s, role, p)
    requires e in StageBoth(s, p.header, h.ChainKey(h.Top()), clock)
    ensures StoredKey(e, h)
  {
    ChainKeyDecodes(h, h.Top(), 0);
    MissingIsStore(s, p.header, clock);
    StageMember(StageMissing(s, p.header, clock), s.nextReceiveHeaderKey, h.ChainKey(h.Top()), 0,
                p.header.number, clock, e);
    if e in StageMissing(s, p.header, clock) {
      MissingStagedKey(h, s, role, p, clock, e);
    }
  }

  lemma {:induction false} NextKeepsStore(h: History, s: State, role: Role, p: Packet, clock: nat -> nat, now: Instants)
    requires PartyInv(h, role, s) && SentBy(h, Other(role), p) && StoreView(s.skipped, h)
    requires Epoch(p.bodyKey) == ReceiveIndex(role, h.Top(), s.ratchetFlag) + 2
    requires DeliverNext(s, p, clock, now).result.Ok?
    ensures StoreView(DeliverNext(s, p, clock, now).state.skipped, h)
  {
    NextOutcome(h, s, role, p, clock, now);
    var staged := StageBoth(s, p.header, h.ChainKey(h.Top()), clock);
    StagingFits(s, p.header, h.ChainKey(h.Top()), clock);
    forall e | e in Settle(s.skipped, staged, now)
      ensures StoredKey(e, h)
    {
      SettleMember(s.skipped, staged, now, e);
      if e in staged {
        NextStagedKey(h, s, role, p, clock, e);
      }
    }
  }

  lemma {:induction false} AcceptanceKeepsReceiver(
    h: History, s: State, role: Role, p: Packet, clock: nat -> nat, now: Instants)
    requires PartyInv(h, role, s) && SentBy(h, Other(role), p) && StoreView(s.skipped, h)
    requires Deliver(s, p, clock, now).result.Ok?
    ensures var o := Deliver(s, p, clock, now);
            && PartyInv(h, role, o.state)
            && StoreView(o.state.skipped, h)
            && forall key :: Accounted(h, s, p, o, key)
  {
    DeliverKeepsSound(s, p, clock, now);
    HeaderOpens(h, s, role, Other(role), p);
    var o := Deliver(s, p, clock, now);
    if FindKey(s.skipped, p) < |s.skipped| {
      RemoveAtKeepsOrder(s.skipped, FindKey(s.skipped, p));
      forall key ensures Accounted(h, s, p, o, key) { StoredAccounted(h, s, role, p, clock, now, key); }
    } else if Epoch(p.bodyKey) == ReceiveIndex(role, h.Top(), s.ratchetFlag) {
      CurrentKeepsView(h, s, role, p, clock, now);
      CurrentKeepsStore(h, s, role, p, clock, now);
      forall key ensures Accounted(h, s, p, o, key) { CurrentAccounted(h, s, role, p, clock, now, key); }
    } else {
      NextKeepsView(h, s, role, p, clock, now);
      NextKeepsStore(h, s, role, p, clock, now);
      forall key ensures Accounted(h, s, p, o, key) { NextAccounted(h, s, role, p, clock, now, key); }
    }
  }

  lemma {:induction false} TakenOneMore(wire: seq<Packet>, got: seq<nat>, index: nat, key: Key)
    requires forall i :: 0 <= i < |got| ==> got[i] < |wire| && wire[got[i]].Packet?
    requires index < |wire| && wire[index].Packet?
    ensures Taken(wire, got + [index], key) == Taken(wire, got, key) + if wire[index].bodyKey == key then 1 else 0
  {
    assert (got + [index])[..|got|] == got;
  }

  lemma {:induction false} DeliveryKeepsLedger(
    h: History, d: Direction, s: State, role: Role, index: nat, clock: nat -> nat, now: Instants)
    requires PartyInv(h, role, s) && DirectionInv(h, Other(role), d, s)
    requires index < |d.wire| && Deliver(s, d.wire[index], clock, now).result.Ok?
    ensures var o := Deliver(s, d.wire[index], clock, now);
            Ledger(h, d.(got := d.got + [index], lost := d.lost + o.dropped), o.state)
  {
    var p := d.wire[index];
    var o := Deliver(s, p, clock, now);
    var e := d.(got := d.got + [index], lost := d.lost + o.dropped);
    assert SentBy(h, Other(role), p);
    AcceptanceKeepsReceiver(h, s, role, p, clock, now);
    forall key
      ensures Balanced(h, e, o.state, key)
    {
      assert Balanced(h, d, s, key) && Accounted(h, s, p, o, key);
      TakenOneMore(d.wire, d.got, index, key);
      CopiesConcat(d.lost, o.dropped, key);
    }
  }

  lemma {:induction false} BothRoles(sys: System, h: History, role: Role)
    requires PartyInv(h, role, sys.Party(role)) && PartyInv(h, Other(role), sys.Party(Other(role)))
    requires DirectionInv(h, role, sys.From(role), sys.Party(Other(role)))
    requires DirectionInv(h, Other(role), sys.From(Other(role)), sys.Party(role))
    ensures Inv(sys, h)
  {
    forall other
      ensures PartyInv(h, other, sys.Party(other)) && DirectionInv(h, other, sys.From(other), sys.Party(Other(other)))
    {
      assert other == role || other == Other(role);
    }
  }

  lemma {:induction false} InvGivesParty(sys: System, h: History, role: Role)
    requires Inv(sys, h)
    ensures h.WellLinked() && sys.Party(role).role == role
    ensures PartyInv(h, role, sys.Party(role))
    ensures DirectionInv(h, Other(role), sys.From(Other(role)), sys.Party(role))
  {
    assert PartyInv(h, role, sys.Party(role));
  }

  lemma {:induction false} ReceivingKeepsInv(
    sys: System, h: History, receiver: Role, index: nat, clock: nat -> nat, now: Instants)
    requires Inv(sys, h) && index < |sys.From(Other(receiver)).wire|
    ensures Inv(Receiving(sys, receiver, index, clock, now), h)
  {
    hide Deliver, Sound, SendView, ReceiveView, StoredKey;
    var s, d := sys.Party(receiver), sys.From(Other(receiver));
    var next := Receiving(sys, receiver, index, clock, now);
    assert PartyInv(h, receiver, s) && PartyInv(h, Other(receiver), sys.Party(Other(receiver)));
    assert DirectionInv(h, Other(receiver), d, s);
    assert DirectionInv(h, receiver, sys.From(receiver), sys.Party(Other(receiver)));
    assert SentBy(h, Other(receiver), d.wire[index]);
    HonestDelivery(h, s, receiver, d.wire[index], clock, now);
    if Deliver(s, d.wire[index], clock, now).result.Ok? {
      AcceptanceKeepsReceiver(h, s, receiver, d.wire[index], clock, now);
      DeliveryKeepsLedger(h, d, s, receiver, index, clock, now);
    } else {
      assert d.lost + [] == d.lost;
    }
    BothRoles(next, h, receiver);
  }

  // Everything a receiver can open derives from the master key

  lemma {:induction false} PassedBase(h: History, r: int, number: nat, key: Key)
    requires h.WellLinked() && r <= h.Top() && Passed(h, r, number, key) > 0
    ensures Base(key) == h.links[0]
  {
    PassedMeaning(h, r, number, key);
    LinkBase(h, Epoch(key));
    WalkBase(h.ChainKey(Epoch(key)), Position(key));
  }

  lemma {:induction false} StoredBase(h: History, d: Direction, s: State, key: Key)
    requires h.WellLinked() && Ledger(h, d, s) && Copies(s.skipped, key) > 0
    requires ReceiveIndex(s.role, h.Top(), s.ratchetFlag) <= h.Top()
    ensures Base(key) == h.links[0]
  {
    assert Balanced(h, d, s, key);
    PassedBase(h, ReceiveIndex(s.role, h.Top(), s.ratchetFlag), s.receiveNumber, key);
  }

  lemma {:induction false} RootBase(h: History, s: State, role: Role)
    requires PartyView(s, role, h)
    ensures Base(s.rootKey.bytes) == h.links[0]
  {
    var c, r := SendIndex(role, h.Top()), ReceiveIndex(role, h.Top(), s.ratchetFlag);
    LinkBase(h, if c > r then c else r);
  }

  lemma {:induction false} ChainBase(h: History, s: State, role: Role)
    requires PartyView(s, role, h) && !s.receiveHeaderKey.IsNone()
    ensures Base(s.receiveChainKey.bytes) == h.links[0]
  {
    var r := ReceiveIndex(role, h.Top(), s.ratchetFlag);
    LinkBase(h, r);
    WalkBase(h.ChainKey(r), s.receiveNumber);
  }

  lemma {:induction false} StoredKeysAreOurs(h: History, d: Direction, s: State, p: Packet)
    requires PartyView(s, s.role, h) && DirectionInv(h, Other(s.role), d, s)
    requires p.Packet? && Base(p.bodyKey) != h.links[0]
    ensures FindKey(s.skipped, p) == |s.skipped|
  {
    CopiesMember(s.skipped, p.bodyKey);
    if FindKey(s.skipped, p) < |s.skipped| {
      assert s.skipped[FindKey(s.skipped, p)].messageKey == p.bodyKey;
      StoredBase(h, d, s, p.bodyKey);
    }
  }

  lemma {:induction false} ForeignOnCurrent(h: History, s: State, p: Packet, clock: nat -> nat, now: Instants)
    requires PartyView(s, s.role, h) && p.Packet? && p.header.Header? && Base(p.bodyKey) != h.links[0]
    ensures var o := DeliverCurrent(s, p, clock, now);
            o.result.Err? && o.state == s && o.dropped == []
  {
    if !s.receiveHeaderKey.IsNone() {
      ChainBase(h, s, s.role);
      WalkBase(s.receiveChainKey.bytes, Gap(s.receiveNumber, p.header.number));
    }
  }

  lemma {:induction false} ForeignOnNext(s: State, p: Packet, clock: nat -> nat, now: Instants)
    requires p.Packet? && p.header.Header? && Base(p.bodyKey) != Base(s.rootKey.bytes)
    ensures var o := DeliverNext(s, p, clock, now);
            o.result.Err? && o.state == s && o.dropped == []
  {
    var derivation := DeriveRootNextHeaderAndChainKeys(
      s.ourPrivateEphemeral, s.ourEphemeral, p.header.ephemeral, s.rootKey, s.role);
    if derivation.Ok? {
      WalkBase(derivation.value.chainKey, p.header.number);
    }
  }

  // A packet is rejected without any change when its body is sealed under a key that does not
  // go back to the master key of this conversation, whatever header it carries under whatever
  // header key.
  lemma {:induction false} InjectionIsRejected(
    h: History, d: Direction, s: State, p: Packet, clock: nat -> nat, now: Instants)
    requires PartyView(s, s.role, h) && DirectionInv(h, Other(s.role), d, s) && IsForeign(h.links[0], p)
    ensures var o := Deliver(s, p, clock, now);
            o.result.Err? && o.state == s && o.dropped == []
  {
    if p.Packet? {
      StoredKeysAreOurs(h, d, s, p);
      RootBase(h, s, s.role);
      if OpensHeader(s.receiveHeaderKey, p) && p.header.Header? {
        ForeignOnCurrent(h, s, p, clock, now);
      } else if p.header.Header? {
        ForeignOnNext(s, p, clock, now);
      }
    }
  }

  lemma {:induction false} ReloadKeepsView(h: History, s: State, role: Role, purported: Purported)
    requires PartyInv(h, role, s)
    ensures PartyInv(h, role, Reload(s, purported))
    ensures Reload(s, purported).skipped == s.skipped && Reload(s, purported).receiveNumber == s.receiveNumber
    ensures Reload(s, purported).role == s.role && Reload(s, purported).ratchetFlag == s.ratchetFlag
  {
    ReloadIsAlike(s, purported);
  }

  // Where a packet stands

  // The receiver has not come to this packet yet.
  predicate IsAhead(s: State, p: Packet)
    requires p.Packet? && p.header.Header?
  {
    || s.nextReceiveHeaderKey.Holds(p.headerKey)
    || (s.receiveHeaderKey.Holds(p.headerKey) && s.receiveNumber <= p.header.number)
  }

  function Count(b: bool): nat {
    if b then 1 else 0
  }

  // A receiver has passed exactly the numbers it is not behind of.
  lemma {:induction false} PassedOrAhead(h: History, s: State, p: Packet)
    requires PartyView(s, s.role, h) && SentBy(h, Other(s.role), p)
    ensures Passed(h, ReceiveIndex(s.role, h.Top(), s.ratchetFlag), s.receiveNumber, p.bodyKey)
            + Count(IsAhead(s, p)) == 1
  {
    PassedMeaning(h, ReceiveIndex(s.role, h.Top(), s.ratchetFlag), s.receiveNumber, p.bodyKey);
    HeaderOpens(h, s, s.role, Other(s.role), p);
    ChainKeyDecodes(h, Epoch(p.bodyKey), p.header.number);
  }

  lemma {:induction false} PacketIsAccounted(h: History, d: Direction, s: State, p: Packet)
    requires PartyInv(h, s.role, s) && DirectionInv(h, Other(s.role), d, s) && SentBy(h, Other(s.role), p)
    ensures Taken(d.wire, d.got, p.bodyKey) + Copies(s.skipped, p.bodyKey) + Copies(d.lost, p.bodyKey)
            + Count(IsAhead(s, p)) == 1
  {
    assert Balanced(h, d, s, p.bodyKey);
    PassedOrAhead(h, s, p);
  }
}
