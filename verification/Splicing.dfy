// Header and body of a packet are sealed separately, and nothing binds one to the other. What a
// packet does that carries the header of one honest packet and the body of another.
module Splicing {
  import opened Keys
  import opened KeyDerivation
  import opened KeyStore
  import opened RatchetState
  import opened History
  import opened Protocol
  import opened Steps

  ghost predicate AreSent(h: History, from: Role, p: Packet, to: Role, q: Packet) {
    h.WellLinked() && SentBy(h, from, p) && SentBy(h, to, q)
  }

  lemma {:induction false} SameHeaderKey(h: History, from: Role, p: Packet, to: Role, q: Packet)
    requires AreSent(h, from, p, to, q)
    ensures p.headerKey == q.headerKey <==> Epoch(p.bodyKey) == Epoch(q.bodyKey)
  {
    var i, j := Epoch(p.bodyKey), Epoch(q.bodyKey);
    if i < j {
      HeaderKeysDiffer(h, i, j);
    } else if j < i {
      HeaderKeysDiffer(h, j, i);
    }
  }

  lemma {:induction false} StoredSplice(h: History, s: State, from: Role, p: Packet, to: Role, q: Packet)
    requires AreSent(h, from, p, to, q) && StoreView(s.skipped, h)
    ensures FindKey(s.skipped, Splice(p, q)) < |s.skipped| <==> BodyIsStored(s, p, q)
  {
    CopiesMember(s.skipped, q.bodyKey);
    var found := FindKey(s.skipped, Splice(p, q));
    if found < |s.skipped| {
      assert StoredKey(s.skipped[found], h);
    }
    if i :| 0 <= i < |s.skipped| && s.skipped[i].messageKey == q.bodyKey {
      assert StoredKey(s.skipped[i], h);
      assert p.headerKey == q.headerKey ==> Opens(s.skipped[i], Splice(p, q));
    }
  }

  lemma {:induction false} CurrentSplice(
    h: History, s: State, role: Role, from: Role, p: Packet, to: Role, q: Packet, clock: nat -> nat, now: Instants)
    requires PartyView(s, role, h) && AreSent(h, from, p, to, q)
    requires Epoch(p.bodyKey) == ReceiveIndex(role, h.Top(), s.ratchetFlag) && p.bodyKey != q.bodyKey
    ensures var o := DeliverCurrent(s, Splice(p, q), clock, now);
            && (o.result.Ok? <==> BodyIsNext(s, p, q))
            && (o.result.Ok? ==> o.result.value == Received(q.body, p.header.number, p.header.previous))
            && (o.result.Err? ==> o.state == s && o.dropped == [])
  {
    hide Settle, Discarded, Stage, Walk;
    var r, gap := Epoch(p.bodyKey), Gap(s.receiveNumber, p.header.number);
    SameHeaderKey(h, from, p, to, q);
    WalkComposes(h.ChainKey(r), s.receiveNumber, gap);
    ChainKeyDecodes(h, r, s.receiveNumber + gap);
  }

  lemma {:induction false} NextSplice(
    h: History, s: State, role: Role, from: Role, p: Packet, to: Role, q: Packet, clock: nat -> nat, now: Instants)
    requires PartyView(s, role, h) && AreSent(h, from, p, to, q)
    requires Epoch(p.bodyKey) == ReceiveIndex(role, h.Top(), s.ratchetFlag) + 2 && p.bodyKey != q.bodyKey
    ensures var o := DeliverNext(s, Splice(p, q), clock, now);
            o.result.Err? && o.state == s && o.dropped == []
  {
    hide Settle, Discarded, StageBoth, StageMissing, Walk;
    assert SentBy(h, Other(role), p);
    ReceiverDerivesLink(h, s, role, p);
  }

  // The splice of two different honest packets, whoever sent them, is accepted exactly when the
  // key of its body is stored or next, under a header of the same chain. It is then reported
  // under the number of the header, which is never its own. Otherwise nothing changes.
  ghost predicate SplicesExactly(s: State, p: Packet, q: Packet, o: Outcome) {
    && p.Packet? && p.header.Header? && q.Packet? && q.header.Header?
    && (o.result.Ok? <==> BodyIsStored(s, p, q) || BodyIsNext(s, p, q))
    && (o.result.Ok? ==>
          && o.result.value == Received(q.body, p.header.number, p.header.previous)
          && p.header.number != q.header.number && p.header.previous == q.header.previous)
    && (o.result.Err? ==> o.state == s && o.dropped == [])
  }

  lemma {:induction false} SpliceIsExact(
    h: History, s: State, role: Role, from: Role, p: Packet, to: Role, q: Packet, clock: nat -> nat, now: Instants)
    requires PartyView(s, role, h) && StoreView(s.skipped, h)
    requires AreSent(h, from, p, to, q) && p.bodyKey != q.bodyKey
    ensures SplicesExactly(s, p, q, Deliver(s, Splice(p, q), clock, now))
  {
    StoredSplice(h, s, from, p, to, q);
    HeaderOpens(h, s, role, from, p);
    SameHeaderKey(h, from, p, to, q);
    var j, r := Epoch(p.bodyKey), ReceiveIndex(role, h.Top(), s.ratchetFlag);
    if j == r {
      CurrentSplice(h, s, role, from, p, to, q, clock, now);
    } else if j == r + 2 {
      NextSplice(h, s, role, from, p, to, q, clock, now);
    }
  }

  // A stored body makes the splice do what the body's own packet does.

  lemma {:induction false} SpliceOpensLikeBody(entries: seq<Entry>, p: Packet, q: Packet)
    requires p.Packet? && q.Packet? && p.headerKey == q.headerKey
    ensures FindKey(entries, Splice(p, q)) == FindKey(entries, q)
  {
    if entries == [] {
    } else {
      SpliceOpensLikeBody(entries[1..], p, q);
    }
  }

  lemma {:induction false} StoredSpliceIsBody(
    h: History, s: State, from: Role, p: Packet, to: Role, q: Packet, clock: nat -> nat, now: Instants)
    requires AreSent(h, from, p, to, q) && StoreView(s.skipped, h) && BodyIsStored(s, p, q)
    ensures var o, own := Deliver(s, Splice(p, q), clock, now), Deliver(s, q, clock, now);
            o.result.Ok? && own.result.Ok? && o.state == own.state && o.dropped == own.dropped
  {
    StoredSplice(h, s, from, p, to, q);
    SpliceOpensLikeBody(s.skipped, p, q);
  }

  // What an accepted splice leaves behind

  lemma {:induction false} RemovedByDelivery(s: State, p: Packet, clock: nat -> nat, now: Instants)
    requires FindKey(s.skipped, p) < |s.skipped|
    ensures Deliver(s, p, clock, now).state == s.(skipped := RemoveAt(s.skipped, FindKey(s.skipped, p)))
  {
  }

  // A stored key belongs to a packet of the other side.
  lemma {:induction false} PassedIsReceived(h: History, d: Direction, s: State, sender: Role, q: Packet)
    requires PartyView(s, s.role, h) && DirectionInv(h, Other(s.role), d, s)
    requires SentBy(h, sender, q) && Copies(s.skipped, q.bodyKey) > 0
    ensures SentBy(h, Other(s.role), q)
  {
    assert Balanced(h, d, s, q.bodyKey);
    PassedMeaning(h, ReceiveIndex(s.role, h.Top(), s.ratchetFlag), s.receiveNumber, q.bodyKey);
  }

  // When the key was stored, it is gone, and with it the body's own packet.
  lemma {:induction false} StoredBodyIsSpent(
    h: History, d: Direction, s: State, from: Role, p: Packet, to: Role, q: Packet,
    clock: nat -> nat, now: Instants, laterClock: nat -> nat, later: Instants)
    requires PartyInv(h, s.role, s) && DirectionInv(h, Other(s.role), d, s)
    requires AreSent(h, from, p, to, q) && BodyIsStored(s, p, q)
    ensures Deliver(Deliver(s, Splice(p, q), clock, now).state, q, laterClock, later).result.Err?
  {
    hide Deliver;
    var found := FindKey(s.skipped, Splice(p, q));
    StoredSplice(h, s, from, p, to, q);
    var t := s.(skipped := RemoveAt(s.skipped, found));
    assert Deliver(s, Splice(p, q), clock, now).state == t by {
      RemovedByDelivery(s, Splice(p, q), clock, now);
    }
    PassedIsReceived(h, d, s, to, q);
    PacketIsAccounted(h, d, s, q);
    RemoveAtTakesOne(s.skipped, found, q.bodyKey);
    RemoveAtKeepsOrder(s.skipped, found);
    HonestDelivery(h, t, s.role, q, laterClock, later);
  }

  // When the body was the next one, the receiver's number falls back behind its chain key.
  ghost predicate OutOfStep(h: History, s: State, r: nat, back: nat, key: nat)
    requires h.WellLinked() && r <= h.Top()
  {
    && s.receiveHeaderKey.Holds(h.HeaderKey(r))
    && s.receiveNumber == back < key
    && s.receiveChainKey == Present(Walk(h.ChainKey(r), key))
  }

  lemma {:induction false} CurrentFallsBack(
    h: History, s: State, r: nat, p: Packet, n: nat, clock: nat -> nat, now: Instants)
    requires h.WellLinked() && r <= h.Top() && p.Packet? && p.header.Header? && p.header.number < n <= UINT32_MAX
    requires s.receiveHeaderKey.Holds(h.HeaderKey(r)) && s.receiveNumber == n
    requires s.receiveChainKey.Holds(Walk(h.ChainKey(r), n)) && p.bodyKey == MessageKeyAt(h.ChainKey(r), n)
    ensures var o := DeliverCurrent(s, p, clock, now);
            && o.result.Ok?
            && OutOfStep(h, o.state, r, p.header.number + 1, n + 1)
            && o.state.skipped == Settle(s.skipped, [], now)
  {
    hide Settle, Discarded;
    assert Stage([], s.receiveHeaderKey, s.receiveChainKey.bytes, 0, clock) == [];
    assert Walk(h.ChainKey(r), n + 1) == NextChainKey(Walk(h.ChainKey(r), n));
  }

  lemma {:induction false} SpliceKeepsRest(s: State, p: Packet, clock: nat -> nat, now: Instants)
    requires FindKey(s.skipped, p) == |s.skipped| && OpensHeader(s.receiveHeaderKey, p)
    ensures var t := Deliver(s, p, clock, now).state;
            t == s.(receiveNumber := t.receiveNumber, receiveChainKey := t.receiveChainKey, skipped := t.skipped)
  {
  }

  lemma {:induction false} SpliceFallsBack(
    h: History, s: State, role: Role, from: Role, p: Packet, to: Role, q: Packet, clock: nat -> nat, now: Instants)
    requires PartyView(s, role, h) && StoreView(s.skipped, h)
    requires AreSent(h, from, p, to, q) && p.bodyKey != q.bodyKey
    requires BodyIsNext(s, p, q) && !BodyIsStored(s, p, q)
    ensures var o, r := Deliver(s, Splice(p, q), clock, now), Epoch(p.bodyKey);
            && o.result.Ok? && r == ReceiveIndex(role, h.Top(), s.ratchetFlag)
            && OutOfStep(h, o.state, r, p.header.number + 1, q.header.number + 1)
            && o.state.skipped == Settle(s.skipped, [], now)
  {
    hide DeliverCurrent, DeliverNext, Settle;
    StoredSplice(h, s, from, p, to, q);
    HeaderOpens(h, s, role, from, p);
    SameHeaderKey(h, from, p, to, q);
    CurrentFallsBack(h, s, Epoch(p.bodyKey), Splice(p, q), q.header.number, clock, now);
  }

  // The number a packet is looked for at lies behind its own.
  lemma {:induction false} CurrentOutOfStep(
    h: History, s: State, sender: Role, r: nat, back: nat, key: nat, x: Packet, clock: nat -> nat, now: Instants)
    requires h.WellLinked() && r <= h.Top() && OutOfStep(h, s, r, back, key)
    requires SentBy(h, sender, x) && Epoch(x.bodyKey) == r
    ensures OpensHeader(s.receiveHeaderKey, x) && DeliverCurrent(s, x, clock, now).result.Err?
  {
    hide Settle, Stage, Walk;
    var gap := Gap(back, x.header.number);
    assert key + gap != x.header.number;
    WalkComposes(h.ChainKey(r), key, gap);
    ChainKeyDecodes(h, r, key + gap);
  }

  // From then on no packet of this chain fits, unless its key is stored.
  lemma {:induction false} OutOfStepRejects(
    h: History, s: State, sender: Role, r: nat, back: nat, key: nat, x: Packet, clock: nat -> nat, now: Instants)
    requires h.WellLinked() && r <= h.Top() && OutOfStep(h, s, r, back, key)
    requires SentBy(h, sender, x) && Epoch(x.bodyKey) == r && Copies(s.skipped, x.bodyKey) == 0
    ensures Deliver(s, x, clock, now).result.Err?
  {
    hide DeliverCurrent, DeliverNext;
    CopiesMember(s.skipped, x.bodyKey);
    CurrentOutOfStep(h, s, sender, r, back, key, x, clock, now);
  }

  lemma {:induction false} NextBodyStrands(
    h: History, d: Direction, s: State, from: Role, p: Packet, to: Role, q: Packet, x: Packet,
    clock: nat -> nat, now: Instants, laterClock: nat -> nat, later: Instants)
    requires PartyInv(h, s.role, s) && DirectionInv(h, Other(s.role), d, s)
    requires AreSent(h, from, p, to, q) && p.bodyKey != q.bodyKey && BodyIsNext(s, p, q) && !BodyIsStored(s, p, q)
    requires SentBy(h, Other(s.role), x) && Epoch(x.bodyKey) == Epoch(p.bodyKey) && Copies(s.skipped, x.bodyKey) == 0
    ensures Deliver(Deliver(s, Splice(p, q), clock, now).state, x, laterClock, later).result.Err?
  {
    hide Deliver, Settle, Discarded;
    var t := Deliver(s, Splice(p, q), clock, now).state;
    SpliceFallsBack(h, s, s.role, from, p, to, q, clock, now);
    SettleConserves(s.skipped, [], now, x.bodyKey);
    OutOfStepRejects(h, t, Other(s.role), Epoch(p.bodyKey), p.header.number + 1, q.header.number + 1, x,
                     laterClock, later);
  }

  lemma {:induction false} NextIsNotStored(
    h: History, d: Direction, s: State, from: Role, p: Packet, to: Role, q: Packet)
    requires PartyInv(h, s.role, s) && DirectionInv(h, Other(s.role), d, s)
    requires AreSent(h, from, p, to, q) && BodyIsNext(s, p, q)
    ensures SentBy(h, Other(s.role), q) && Epoch(q.bodyKey) == Epoch(p.bodyKey) && Copies(s.skipped, q.bodyKey) == 0
  {
    SameHeaderKey(h, from, p, to, q);
    HeaderOpens(h, s, s.role, to, q);
    PacketIsAccounted(h, d, s, q);
  }

  lemma {:induction false} OutOfStepOutcome(
    h: History, s: State, t: State, role: Role, x: Packet, clock: nat -> nat, now: Instants)
    requires PartyView(s, role, h) && !s.receiveChainKey.IsNone() && !t.receiveChainKey.IsNone()
    requires t == s.(receiveNumber := t.receiveNumber, receiveChainKey := t.receiveChainKey, skipped := t.skipped)
    requires SentBy(h, Other(role), x) && Epoch(x.bodyKey) == ReceiveIndex(role, h.Top(), s.ratchetFlag) + 2
    ensures !s.ratchetFlag && h.Top() >= 1
    ensures var o, top := DeliverNext(t, x, clock, now), h.Top();
            && (o.result.Ok? <==>
                  !TooManySkipped(t.receiveNumber, x.header.previous) && !TooManySkipped(0, x.header.number))
            && (o.result.Ok? ==>
                  && o.result.value == Received(x.body, x.header.number, x.header.previous)
                  && o.state == t.(rootKey := Present(h.RootKey(top)),
                                   receiveHeaderKey := s.nextReceiveHeaderKey,
                                   nextReceiveHeaderKey := Present(h.HeaderKey(top + 2)),
                                   theirEphemeral := x.header.ephemeral,
                                   ourPrivateEphemeral := Erased,
                                   ratchetFlag := true,
                                   receiveNumber := x.header.number + 1,
                                   receiveChainKey := Present(Walk(h.ChainKey(top), x.header.number + 1)),
                                   skipped := o.state.skipped))
  {
    hide Settle, Discarded, StageBoth, SendView, ReceiveView;
    ReceiverDerivesLink(h, s, role, x);
    HeaderOpens(h, s, role, Other(role), x);
  }

  // The next chain does not need the chain key that is out of step: the receiver comes back to
  // a view of the history, within limits counted from the number it fell back to.
  lemma {:induction false} OutOfStepRecovers(
    h: History, s: State, t: State, role: Role, x: Packet, clock: nat -> nat, now: Instants)
    requires PartyView(s, role, h) && !s.receiveChainKey.IsNone() && !t.receiveChainKey.IsNone()
    requires t == s.(receiveNumber := t.receiveNumber, receiveChainKey := t.receiveChainKey, skipped := t.skipped)
    requires SentBy(h, Other(role), x) && Epoch(x.bodyKey) == ReceiveIndex(role, h.Top(), s.ratchetFlag) + 2
    ensures var o := DeliverNext(t, x, clock, now);
            && (o.result.Ok? <==>
                  !TooManySkipped(t.receiveNumber, x.header.previous) && !TooManySkipped(0, x.header.number))
            && (o.result.Ok? ==>
                  && o.result.value == Received(x.body, x.header.number, x.header.previous)
                  && PartyView(o.state, role, h))
  {
    hide DeliverNext;
    OutOfStepOutcome(h, s, t, role, x, clock, now);
    var o := DeliverNext(t, x, clock, now);
    if o.result.Ok? {
      assert SendView(o.state, h, h.Top() - 1);
      assert ReceiveView(o.state, h, h.Top());
    }
  }

  lemma {:induction false} NextChainRecovers(
    h: History, d: Direction, s: State, from: Role, p: Packet, to: Role, q: Packet, x: Packet,
    clock: nat -> nat, now: Instants, laterClock: nat -> nat, later: Instants)
    requires PartyInv(h, s.role, s) && DirectionInv(h, Other(s.role), d, s)
    requires AreSent(h, from, p, to, q) && p.bodyKey != q.bodyKey && BodyIsNext(s, p, q)
    requires SentBy(h, Other(s.role), x) && s.nextReceiveHeaderKey.Holds(x.headerKey)
    ensures var o := Deliver(Deliver(s, Splice(p, q), clock, now).state, x, laterClock, later);
            && (o.result.Ok? <==> x.header.previous <= p.header.number + 1 + MAXIMUM_SKIPPED_MESSAGES
                                  && x.header.number <= MAXIMUM_SKIPPED_MESSAGES)
            && (o.result.Ok? ==>
                  && o.result.value == Received(x.body, x.header.number, x.header.previous)
                  && PartyView(o.state, s.role, h))
  {
    hide DeliverCurrent, DeliverNext, Settle, Discarded;
    var t := Deliver(s, Splice(p, q), clock, now).state;
    NextIsNotStored(h, d, s, from, p, to, q);
    SpliceFallsBack(h, s, s.role, from, p, to, q, clock, now);
    SpliceKeepsRest(s, Splice(p, q), clock, now);
    HeaderOpens(h, s, s.role, Other(s.role), x);
    PacketIsAccounted(h, d, s, x);
    SettleConserves(s.skipped, [], now, x.bodyKey);
    CopiesMember(t.skipped, x.bodyKey);
    OutOfStepRecovers(h, s, t, s.role, x, laterClock, later);
  }

  // Recombinations in a run

  // A party's own packets come back to no effect.
  lemma {:induction false} ReflectionIsRejected(
    h: History, d: Direction, s: State, p: Packet, clock: nat -> nat, now: Instants)
    requires PartyInv(h, s.role, s) && DirectionInv(h, Other(s.role), d, s) && SentBy(h, s.role, p)
    ensures var o := Deliver(s, p, clock, now);
            o.result.Err? && o.state == s && o.dropped == []
  {
    hide DeliverCurrent, DeliverNext;
    StoredOpens(h, s, s.role, p);
    if Copies(s.skipped, p.bodyKey) > 0 {
      PassedIsReceived(h, d, s, s.role, p);
    }
    HeaderOpens(h, s, s.role, s.role, p);
  }

  lemma {:induction false} SameKeySamePacket(sys: System, h: History, from: Role, i: nat, to: Role, j: nat)
    requires Inv(sys, h) && i < |sys.From(from).wire| && j < |sys.From(to).wire|
    ensures var p, q := sys.From(from).wire[i], sys.From(to).wire[j];
            AreSent(h, from, p, to, q) && (p.bodyKey == q.bodyKey ==> from == to && i == j)
  {
    assert DirectionInv(h, from, sys.From(from), sys.Party(Other(from)));
    assert DirectionInv(h, to, sys.From(to), sys.Party(Other(to)));
    assert SentBy(h, from, sys.From(from).wire[i]) && SentBy(h, to, sys.From(to).wire[j]);
  }

  // Every recombination amounts to the delivery of the body's own packet, or to nothing.
  lemma {:induction false} RecombinationIsDelivery(
    sys: System, h: History, receiver: Role, from: Role, i: nat, to: Role, j: nat, clock: nat -> nat, now: Instants)
    requires Inv(sys, h) && i < |sys.From(from).wire| && j < |sys.From(to).wire|
    requires CanRecombine(sys.Party(receiver), sys.From(from).wire[i], sys.From(to).wire[j])
    ensures var next := Recombining(sys, receiver, from, i, to, j, clock, now);
            next == sys || (to == Other(receiver) && next == Receiving(sys, receiver, j, clock, now))
  {
    hide Deliver, Inv, SendView, ReceiveView, OnChain, Ledger;
    var s, d := sys.Party(receiver), sys.From(Other(receiver));
    var p, q := sys.From(from).wire[i], sys.From(to).wire[j];
    InvGivesParty(sys, h, receiver);
    SameKeySamePacket(sys, h, from, i, to, j);
    if p.bodyKey == q.bodyKey {
      assert Splice(p, q) == q;
      if to == receiver {
        ReflectionIsRejected(h, d, s, q, clock, now);
        assert d.lost + [] == d.lost;
      }
    } else {
      SpliceIsExact(h, s, receiver, from, p, to, q, clock, now);
      if BodyIsStored(s, p, q) {
        StoredSpliceIsBody(h, s, from, p, to, q, clock, now);
        PassedIsReceived(h, d, s, to, q);
      } else {
        assert d.lost + [] == d.lost;
      }
    }
  }
}
