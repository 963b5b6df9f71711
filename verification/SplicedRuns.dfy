// What splicing does in the reachable states.
module SplicedRuns {
  import opened Keys
  import opened KeyDerivation
  import opened KeyStore
  import opened RatchetState
  import opened Results
  import opened History
  import opened Protocol
  import opened Splicing
  import opened Guarantees

  lemma {:induction false} BothOnTheWire(
    setup: Setup, events: seq<Event>, receiver: Role, from: Role, i: nat, to: Role, j: nat) returns (h: History)
    requires ValidSetup(setup) && (from != to || i != j)
    requires i < |Run(Start(setup), events).From(from).wire| && j < |Run(Start(setup), events).From(to).wire|
    ensures var sys := Run(Start(setup), events);
            var p, q := sys.From(from).wire[i], sys.From(to).wire[j];
            && Inv(sys, h)
            && PartyInv(h, receiver, sys.Party(receiver))
            && DirectionInv(h, Other(receiver), sys.From(Other(receiver)), sys.Party(receiver))
            && AreSent(h, from, p, to, q) && p.bodyKey != q.bodyKey
  {
    h := RunKeepsInv(setup, events);
    var sys := Run(Start(setup), events);
    assert PartyInv(h, receiver, sys.Party(receiver));
    assert DirectionInv(h, Other(receiver), sys.From(Other(receiver)), sys.Party(receiver));
    assert DirectionInv(h, from, sys.From(from), sys.Party(Other(from)));
    assert DirectionInv(h, to, sys.From(to), sys.Party(Other(to)));
    KeysAreUnique(setup, events, from, i, to, j);
  }

  // In every reachable state, for the header of any packet ever sent with the body of any other:
  // the splice is accepted exactly when its body's key is stored or next, under a header of the
  // same chain; then it is reported under a number that is never its own; and otherwise nothing
  // changes. Once it was accepted, the body's own packet is rejected.
  lemma {:induction false} SplicingIsExact(
    setup: Setup, events: seq<Event>, receiver: Role, from: Role, i: nat, to: Role, j: nat,
    clock: nat -> nat, now: Instants, laterClock: nat -> nat, later: Instants)
    requires ValidSetup(setup) && (from != to || i != j)
    requires i < |Run(Start(setup), events).From(from).wire| && j < |Run(Start(setup), events).From(to).wire|
    ensures var sys := Run(Start(setup), events);
            var s, p, q := sys.Party(receiver), sys.From(from).wire[i], sys.From(to).wire[j];
            && p.Packet? && q.Packet?
            && var o := Deliver(s, Splice(p, q), clock, now);
               && SplicesExactly(s, p, q, o)
               && (o.result.Ok? ==> Deliver(o.state, q, laterClock, later).result.Err?)
  {
    hide Deliver, Run, Start;
    var h := BothOnTheWire(setup, events, receiver, from, i, to, j);
    var sys := Run(Start(setup), events);
    var s, d := sys.Party(receiver), sys.From(Other(receiver));
    var p, q := sys.From(from).wire[i], sys.From(to).wire[j];
    SpliceIsExact(h, s, receiver, from, p, to, q, clock, now);
    if BodyIsStored(s, p, q) {
      StoredBodyIsSpent(h, d, s, from, p, to, q, clock, now, laterClock, later);
    } else if BodyIsNext(s, p, q) {
      NextIsNotStored(h, d, s, from, p, to, q);
      NextBodyStrands(h, d, s, from, p, to, q, q, clock, now, laterClock, later);
    }
  }

  lemma {:induction false} AcceptanceReportsHeader(s: State, p: Packet, clock: nat -> nat, now: Instants)
    requires Deliver(s, p, clock, now).result.Ok?
    ensures p.Packet? && p.header.Header?
    ensures Deliver(s, p, clock, now).result.value == Received(p.body, p.header.number, p.header.previous)
  {
  }

  // An accepted message is reported under its own number exactly when header and body were sent
  // together.
  lemma {:induction false} NumberIsOwn(
    setup: Setup, events: seq<Event>, receiver: Role, from: Role, i: nat, to: Role, j: nat,
    clock: nat -> nat, now: Instants)
    requires ValidSetup(setup)
    requires i < |Run(Start(setup), events).From(from).wire| && j < |Run(Start(setup), events).From(to).wire|
    ensures var sys := Run(Start(setup), events);
            var s, p, q := sys.Party(receiver), sys.From(from).wire[i], sys.From(to).wire[j];
            && p.Packet? && q.Packet? && q.header.Header?
            && var r := Deliver(s, Splice(p, q), clock, now).result;
               r.Ok? ==> r.value.message == q.body && (r.value.number == q.header.number <==> from == to && i == j)
  {
    hide Deliver, Run, Start;
    var sys := Run(Start(setup), events);
    var p, q := sys.From(from).wire[i], sys.From(to).wire[j];
    KeysAreUnique(setup, events, from, i, to, j);
    if from == to && i == j {
      assert Splice(p, q) == q;
      if Deliver(sys.Party(receiver), q, clock, now).result.Ok? {
        AcceptanceReportsHeader(sys.Party(receiver), q, clock, now);
      }
    } else {
      SplicingIsExact(setup, events, receiver, from, i, to, j, clock, now, clock, now);
    }
  }

  // What a splice with the next body costs

  ghost predicate OnlySends(events: seq<Event>, sender: Role) {
    forall k :: 0 <= k < |events| ==> events[k].Sending? && events[k].sender == sender
  }

  lemma {:induction false} RunConcat(sys: System, a: seq<Event>, b: seq<Event>)
    ensures Run(sys, a + b) == Run(Run(sys, a), b)
  {
    hide Apply;
    if b == [] {
      assert a + b == a;
    } else {
      var n := |b| - 1;
      RunConcat(sys, a, b[..n]);
      assert (a + b)[..|a| + n] == a + b[..n];
    }
  }

  lemma {:induction false} SendsLeaveReceiver(sys: System, more: seq<Event>, receiver: Role)
    requires OnlySends(more, Other(receiver))
    ensures Run(sys, more).Party(receiver) == sys.Party(receiver)
    ensures sys.From(Other(receiver)).wire <= Run(sys, more).From(Other(receiver)).wire
  {
    hide Send;
    if more == [] {
    } else {
      SendsLeaveReceiver(sys, more[..|more| - 1], receiver);
    }
  }

  // The state and the packets around a splice with the next body, when the sender has gone on
  // sending behind it.
  lemma {:induction false} SentAfterwards(
    setup: Setup, events: seq<Event>, more: seq<Event>, receiver: Role, i: nat, j: nat, k: nat)
    returns (h: History)
    requires ValidSetup(setup) && i != j && OnlySends(more, Other(receiver))
    requires i < |Run(Start(setup), events).From(Other(receiver)).wire|
    requires j < |Run(Start(setup), events).From(Other(receiver)).wire|
    requires k < |Run(Start(setup), events + more).From(Other(receiver)).wire|
    ensures var sys, after := Run(Start(setup), events), Run(Start(setup), events + more);
            var s, p, q := sys.Party(receiver), SentTo(sys, receiver, i), SentTo(sys, receiver, j);
            && s.role == receiver && Inv(after, h)
            && PartyInv(h, receiver, s) && DirectionInv(h, Other(receiver), after.From(Other(receiver)), s)
            && AreSent(h, Other(receiver), p, Other(receiver), q) && p.bodyKey != q.bodyKey
            && SentBy(h, Other(receiver), SentTo(after, receiver, k))
  {
    hide Run, Start;
    var sys, after := Run(Start(setup), events), Run(Start(setup), events + more);
    RunConcat(Start(setup), events, more);
    SendsLeaveReceiver(sys, more, receiver);
    assert after.Party(receiver) == sys.Party(receiver);
    assert after.From(Other(receiver)).wire[i] == SentTo(sys, receiver, i);
    assert after.From(Other(receiver)).wire[j] == SentTo(sys, receiver, j);
    h := BothOnTheWire(setup, events + more, receiver, Other(receiver), i, Other(receiver), j);
  }

  // It strands the chain: every packet of it, whether sent before or after the splice, is
  // rejected from then on unless its key is stored.
  lemma {:induction false} SplicingStrandsChain(
    setup: Setup, events: seq<Event>, more: seq<Event>, receiver: Role, i: nat, j: nat, k: nat,
    clock: nat -> nat, now: Instants, laterClock: nat -> nat, later: Instants)
    requires ValidSetup(setup) && i != j && OnlySends(more, Other(receiver))
    requires i < |Run(Start(setup), events).From(Other(receiver)).wire|
    requires j < |Run(Start(setup), events).From(Other(receiver)).wire|
    requires k < |Run(Start(setup), events + more).From(Other(receiver)).wire|
    ensures var sys, after := Run(Start(setup), events), Run(Start(setup), events + more);
            var s, p, q := sys.Party(receiver), SentTo(sys, receiver, i), SentTo(sys, receiver, j);
            var x := SentTo(after, receiver, k);
            && p.Packet? && p.header.Header? && q.Packet? && q.header.Header? && x.Packet?
            && (BodyIsNext(s, p, q) && x.headerKey == p.headerKey && Copies(s.skipped, x.bodyKey) == 0 ==>
                  Deliver(Deliver(s, Splice(p, q), clock, now).state, x, laterClock, later).result.Err?)
  {
    hide Deliver, Run, Start;
    var h := SentAfterwards(setup, events, more, receiver, i, j, k);
    var sys, after := Run(Start(setup), events), Run(Start(setup), events + more);
    var s, p, q := sys.Party(receiver), SentTo(sys, receiver, i), SentTo(sys, receiver, j);
    var d, x := after.From(Other(receiver)), SentTo(after, receiver, k);
    SameHeaderKey(h, Other(receiver), x, Other(receiver), p);
    if BodyIsNext(s, p, q) && x.headerKey == p.headerKey && Copies(s.skipped, x.bodyKey) == 0 {
      NextIsNotStored(h, d, s, Other(receiver), p, Other(receiver), q);
      NextBodyStrands(h, d, s, Other(receiver), p, Other(receiver), q, x, clock, now, laterClock, later);
    }
  }

  // And it ends with the chain: a packet of the next one is accepted exactly when its gaps are
  // within the limits, counted from the number the receiver fell back to, and makes the receiver
  // a view of the common history again.
  lemma {:induction false} SplicingEndsWithChain(
    setup: Setup, events: seq<Event>, more: seq<Event>, receiver: Role, i: nat, j: nat, k: nat,
    clock: nat -> nat, now: Instants, laterClock: nat -> nat, later: Instants) returns (h: History)
    requires ValidSetup(setup) && i != j && OnlySends(more, Other(receiver))
    requires i < |Run(Start(setup), events).From(Other(receiver)).wire|
    requires j < |Run(Start(setup), events).From(Other(receiver)).wire|
    requires k < |Run(Start(setup), events + more).From(Other(receiver)).wire|
    ensures var sys, after := Run(Start(setup), events), Run(Start(setup), events + more);
            var s, p, q := sys.Party(receiver), SentTo(sys, receiver, i), SentTo(sys, receiver, j);
            var x := SentTo(after, receiver, k);
            && p.Packet? && p.header.Header? && q.Packet? && q.header.Header? && x.Packet? && x.header.Header?
            && Inv(after, h)
            && (BodyIsNext(s, p, q) && s.nextReceiveHeaderKey.Holds(x.headerKey) ==>
                  var o := Deliver(Deliver(s, Splice(p, q), clock, now).state, x, laterClock, later);
                  && (o.result.Ok? <==> x.header.previous <= p.header.number + 1 + MAXIMUM_SKIPPED_MESSAGES
                                        && x.header.number <= MAXIMUM_SKIPPED_MESSAGES)
                  && (o.result.Ok? ==> o.result.value == Received(x.body, x.header.number, x.header.previous)
                                       && PartyView(o.state, receiver, h)))
  {
    hide Deliver, Run, Start;
    h := SentAfterwards(setup, events, more, receiver, i, j, k);
    var sys, after := Run(Start(setup), events), Run(Start(setup), events + more);
    var s, p, q := sys.Party(receiver), SentTo(sys, receiver, i), SentTo(sys, receiver, j);
    var d, x := after.From(Other(receiver)), SentTo(after, receiver, k);
    if BodyIsNext(s, p, q) && s.nextReceiveHeaderKey.Holds(x.headerKey) {
      NextChainRecovers(h, d, s, Other(receiver), p, Other(receiver), q, x, clock, now, laterClock, later);
    }
  }

  lemma {:induction false} CurrentKeyFits(s: State, p: Packet, chain: Key, clock: nat -> nat, now: Instants)
    requires p.Packet? && p.header.Header? && s.skipped == [] && p.header.number <= s.receiveNumber < UINT32_MAX
    requires s.receiveHeaderKey == Present(p.headerKey) && p.headerKey != Zero
    requires s.receiveChainKey == Present(chain) && p.bodyKey == MessageKey(chain)
    ensures DeliverCurrent(s, p, clock, now)
         == Outcome(s.(receiveNumber := p.header.number + 1, receiveChainKey := Present(NextChainKey(chain))),
                    Ok(Received(p.body, p.header.number, p.header.previous)), [])
  {
    hide Settle, Discarded;
    assert Stage([], s.receiveHeaderKey, chain, 0, clock) == [];
    StagedKeysSurvive([], [], now);
  }

  // With no key stored, a body under the next message key is accepted under any header of the
  // current chain that is not ahead.
  lemma {:induction false} NextKeyFits(s: State, p: Packet, chain: Key, clock: nat -> nat, now: Instants)
    requires p.Packet? && p.header.Header? && s.skipped == [] && p.header.number <= s.receiveNumber < UINT32_MAX
    requires s.receiveHeaderKey == Present(p.headerKey) && p.headerKey != Zero
    requires s.receiveChainKey == Present(chain) && p.bodyKey == MessageKey(chain)
    ensures Deliver(s, p, clock, now)
         == Outcome(s.(receiveNumber := p.header.number + 1, receiveChainKey := Present(NextChainKey(chain))),
                    Ok(Received(p.body, p.header.number, p.header.previous)), [])
  {
    hide DeliverCurrent, DeliverNext;
    CurrentKeyFits(s, p, chain, clock, now);
  }

  // Such a splice exists without any stored key: Bob sends two messages, Alice gets the first,
  // and then its header arrives again with the body of the second.
  lemma {:induction false} NextBodyIsAccepted(
    setup: Setup, first: Message, second: Message, keypair: nat, clock: nat -> nat, now: Instants,
    laterClock: nat -> nat, later: Instants)
    requires ValidSetup(setup)
    ensures var sys := Run(Start(setup), [Sending(Bob, first, keypair, None), Sending(Bob, second, keypair, None),
                                          Delivery(Alice, 0, clock, now)]);
            && |sys.fromBob.wire| == 2 && sys.fromBob.wire[0].Packet? && sys.fromBob.wire[1].Packet?
            && sys.fromBob.wire[1].body == second && sys.fromBob.got == [0] && sys.alice.skipped == []
            && Deliver(sys.alice, Splice(sys.fromBob.wire[0], sys.fromBob.wire[1]), laterClock, later).result
               == Ok(Received(second, 0, 0))
  {
    hide Deliver, Start;
    var a, b := Sending(Bob, first, keypair, None), Sending(Bob, second, keypair, None);
    RunOfThree(Start(setup), a, b, Delivery(Alice, 0, clock, now));
    BobSendsTwice(setup, first, second, keypair);
    AliceStartsThere(setup);
    var p, q := FirstChainPacket(setup, 0, first), FirstChainPacket(setup, 1, second);
    var chain := FirstHistory(setup).ChainKey(0);
    NextKeyFits(Start(setup).alice, p, chain, clock, now);
    var s := Deliver(Start(setup).alice, p, clock, now).state;
    NextKeyFits(s, Splice(p, q), NextChainKey(chain), laterClock, later);
  }
}
