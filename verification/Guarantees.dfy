// What holds after every run.
module Guarantees {
  import opened Keys
  import opened KeyDerivation
  import opened KeyStore
  import opened RatchetState
  import opened Results
  import opened Soundness
  import opened TwoPhase
  import opened Persistence
  import opened History
  import opened Protocol
  import opened Steps
  import opened Growth
  import opened Splicing

  // Every event keeps the invariant

  lemma {:induction false} SendingKeepsWire(
    h: History, s: State, wire: seq<Packet>, message: Message, keypair: nat, metadata: Option<PrekeyMetadata>)
    requires PartyInv(h, s.role, s) && !CounterIsFull(s) && WireView(h, s.role, wire)
    ensures var g, r := AfterSend(h, s, keypair), Send(s, message, keypair, metadata).1;
            g.WellLinked() && r.Ok? && WireView(g, s.role, wire + [r.value])
  {
    hide Send, SendView, ReceiveView, Sound;
    var g := AfterSend(h, s, keypair);
    AfterSendIsWellLinked(h, s, keypair);
    SendKeepsView(h, s, message, keypair, metadata);
    var p := Send(s, message, keypair, metadata).1.value;
    SentPacketIsSentBy(g, s.role, p);
    forall i | 0 <= i < |wire|
      ensures SentBy(g, s.role, wire[i]) && wire[i].bodyKey != p.bodyKey
    {
      SentByGrows(h, g, s.role, wire[i]);
      SentPacketIsNew(h, s, keypair, wire[i], p);
    }
  }

  // The direction the message travels in, seen by the receiver `t`.
  lemma {:induction false} SendingKeepsDirection(
    h: History, s: State, d: Direction, t: State, message: Message, keypair: nat, metadata: Option<PrekeyMetadata>)
    requires PartyInv(h, s.role, s) && PartyInv(h, t.role, t) && t.role == Other(s.role) && !CounterIsFull(s)
    requires DirectionInv(h, s.role, d, t)
    ensures var g, r := AfterSend(h, s, keypair), Send(s, message, keypair, metadata).1;
            g.WellLinked() && r.Ok? && DirectionInv(g, s.role, d.(wire := d.wire + [r.value]), t)
  {
    var g := AfterSend(h, s, keypair);
    AfterSendIsWellLinked(h, s, keypair);
    SendingKeepsWire(h, s, d.wire, message, keypair, metadata);
    PartyViewGrows(h, s, keypair, t);
    StoreViewGrows(h, g, t.skipped);
    LedgerGrows(h, g, d, d.wire + [Send(s, message, keypair, metadata).1.value], t, t);
  }

  // The opposite direction, whose receiver is the sending party.
  lemma {:induction false} SendingKeepsOpposite(
    h: History, s: State, d: Direction, message: Message, keypair: nat, metadata: Option<PrekeyMetadata>)
    requires PartyInv(h, s.role, s) && !CounterIsFull(s)
    requires DirectionInv(h, Other(s.role), d, s)
    ensures var g := AfterSend(h, s, keypair);
            g.WellLinked() && DirectionInv(g, Other(s.role), d, Send(s, message, keypair, metadata).0)
  {
    hide Send, SendView, ReceiveView, Sound, Passed;
    var g := AfterSend(h, s, keypair);
    AfterSendIsWellLinked(h, s, keypair);
    SendKeepsView(h, s, message, keypair, metadata);
    SendKeepsSound(s, message, keypair, metadata);
    StoreViewGrows(h, g, s.skipped);
    LedgerGrows(h, g, d, d.wire, s, Send(s, message, keypair, metadata).0);
    assert d.(wire := d.wire) == d;
    forall i | 0 <= i < |d.wire|
      ensures SentBy(g, Other(s.role), d.wire[i])
    {
      SentByGrows(h, g, Other(s.role), d.wire[i]);
    }
  }

  lemma {:induction false} SendingKeepsInv(
    sys: System, h: History, sender: Role, message: Message, keypair: nat, metadata: Option<PrekeyMetadata>)
    requires Inv(sys, h) && !CounterIsFull(sys.Party(sender))
    ensures var s := sys.Party(sender);
            && PartyInv(h, s.role, s)
            && Inv(Apply(sys, Sending(sender, message, keypair, metadata)), AfterSend(h, s, keypair))
  {
    var s, t := sys.Party(sender), sys.Party(Other(sender));
    assert PartyInv(h, sender, s) && PartyInv(h, Other(sender), t);
    assert DirectionInv(h, sender, sys.From(sender), t) && DirectionInv(h, Other(sender), sys.From(Other(sender)), s);
    SendKeepsView(h, s, message, keypair, metadata);
    SendingKeepsDirection(h, s, sys.From(sender), t, message, keypair, metadata);
    SendingKeepsOpposite(h, s, sys.From(Other(sender)), message, keypair, metadata);
    PartyViewGrows(h, s, keypair, t);
    BothRoles(Apply(sys, Sending(sender, message, keypair, metadata)), AfterSend(h, s, keypair), sender);
  }

  lemma {:induction false} InjectionChangesNothing(
    sys: System, h: History, receiver: Role, p: Packet, clock: nat -> nat, now: Instants)
    requires Inv(sys, h) && IsForeign(MasterKey(sys), p)
    ensures var o := Deliver(sys.Party(receiver), p, clock, now);
            o.result.Err? && o.state == sys.Party(receiver) && o.dropped == []
    ensures Apply(sys, Injection(receiver, p, clock, now)) == sys
  {
    hide Deliver, Inv, Sound, SendView, ReceiveView, DirectionInv;
    InvGivesParty(sys, h, receiver);
    InvGivesParty(sys, h, Alice);
    RootBase(h, sys.alice, Alice);
    InjectionIsRejected(h, sys.From(Other(receiver)), sys.Party(receiver), p, clock, now);
  }

  lemma {:induction false} ReloadingKeepsDirection(h: History, s: State, d: Direction, purported: Purported)
    requires PartyInv(h, s.role, s) && DirectionInv(h, Other(s.role), d, s)
    ensures DirectionInv(h, Other(s.role), d, Reload(s, purported))
  {
    ReloadKeepsView(h, s, s.role, purported);
    forall key
      ensures Balanced(h, d, Reload(s, purported), key)
    {
      assert Balanced(h, d, s, key);
    }
  }

  lemma {:induction false} ReloadingKeepsInv(sys: System, h: History, role: Role, purported: Purported)
    requires Inv(sys, h)
    ensures Inv(Apply(sys, Reloading(role, purported)), h)
  {
    hide Reload, Sound, SendView, ReceiveView, StoreView, Ledger;
    var s, d := sys.Party(role), sys.From(Other(role));
    assert PartyInv(h, role, s) && PartyInv(h, Other(role), sys.Party(Other(role)));
    assert DirectionInv(h, Other(role), d, s) && DirectionInv(h, role, sys.From(role), sys.Party(Other(role)));
    ReloadKeepsView(h, s, role, purported);
    ReloadingKeepsDirection(h, s, d, purported);
    BothRoles(Apply(sys, Reloading(role, purported)), h, role);
  }

  lemma {:induction false} RecombinationKeepsInv(
    sys: System, h: History, receiver: Role, from: Role, i: nat, to: Role, j: nat, clock: nat -> nat, now: Instants)
    requires Inv(sys, h)
    ensures Inv(Apply(sys, Recombination(receiver, from, i, to, j, clock, now)), h)
  {
    hide Deliver, Inv;
    if && i < |sys.From(from).wire| && j < |sys.From(to).wire|
       && CanRecombine(sys.Party(receiver), sys.From(from).wire[i], sys.From(to).wire[j]) {
      RecombinationIsDelivery(sys, h, receiver, from, i, to, j, clock, now);
      if to == Other(receiver) {
        ReceivingKeepsInv(sys, h, receiver, j, clock, now);
      }
    }
  }

  // The common history behind an event, and behind a run.
  ghost function NextHistory(sys: System, h: History, e: Event): History {
    if e.Sending? && !CounterIsFull(sys.Party(e.sender)) && PartyView(sys.Party(e.sender), sys.Party(e.sender).role, h)
    then AfterSend(h, sys.Party(e.sender), e.keypair)
    else h
  }

  lemma {:induction false} ApplyKeepsInv(sys: System, h: History, e: Event) returns (g: History)
    requires Inv(sys, h)
    ensures Inv(Apply(sys, e), g)
    ensures g == NextHistory(sys, h, e)
    ensures |h.links| > 0 && |g.links| > 0 && g.links[0] == h.links[0]
  {
    hide Send, Deliver, Reload, Sound, SendView, ReceiveView, Inv, IsForeign, MasterKey;
    g := h;
    InvGivesParty(sys, h, Alice);
    match e {
      case Sending(sender, message, keypair, metadata) =>
        if !CounterIsFull(sys.Party(sender)) {
          SendingKeepsInv(sys, h, sender, message, keypair, metadata);
          InvGivesParty(sys, h, sender);
          g := AfterSend(h, sys.Party(sender), keypair);
        }
      case Delivery(receiver, index, clock, now) =>
        if index < |sys.From(Other(receiver)).wire| {
          ReceivingKeepsInv(sys, h, receiver, index, clock, now);
        }
      case Recombination(receiver, from, i, to, j, clock, now) =>
        RecombinationKeepsInv(sys, h, receiver, from, i, to, j, clock, now);
      case Injection(receiver, packet, clock, now) =>
        if IsForeign(MasterKey(sys), packet) {
          InjectionChangesNothing(sys, h, receiver, packet, clock, now);
        }
      case Reloading(role, purported) =>
        ReloadingKeepsInv(sys, h, role, purported);
    }
  }

  ghost function FirstHistory(setup: Setup): History {
    History([Master(SharedDh(setup.aliceIdentity, setup.bobEphemeral),
                    SharedDh(setup.aliceEphemeral, setup.bobIdentity),
                    SharedDh(setup.aliceEphemeral, setup.bobEphemeral))],
            [setup.bobEphemeral], [0])
  }

  lemma {:induction false} StartInv(setup: Setup)
    requires ValidSetup(setup)
    ensures Inv(Start(setup), FirstHistory(setup))
  {
    var sys, h := Start(setup), FirstHistory(setup);
    CreatedIsSound(setup.aliceIdentity, setup.bobIdentity, setup.aliceEphemeral, setup.bobEphemeral);
    CreatedIsSound(setup.bobIdentity, setup.aliceIdentity, setup.bobEphemeral, setup.aliceEphemeral);
    assert PartyView(sys.alice, Alice, h);
    assert PartyView(sys.bob, Bob, h);
    forall key
      ensures Balanced(h, sys.fromBob, sys.alice, key) && Balanced(h, sys.fromAlice, sys.bob, key)
    {
    }
    BothRoles(sys, h, Alice);
  }

  ghost function HistoryOf(setup: Setup, events: seq<Event>): History
    requires ValidSetup(setup)
  {
    if events == [] then FirstHistory(setup)
    else
      var before := events[..|events| - 1];
      NextHistory(Run(Start(setup), before), HistoryOf(setup, before), events[|events| - 1])
  }

  lemma {:induction false} RunKeepsInv(setup: Setup, events: seq<Event>) returns (h: History)
    requires ValidSetup(setup)
    ensures Inv(Run(Start(setup), events), h)
    ensures h == HistoryOf(setup, events)
    ensures |h.links| > 0 && h.links[0] == FirstHistory(setup).links[0]
  {
    if events == [] {
      StartInv(setup);
      h := FirstHistory(setup);
    } else {
      h := RunKeepsInv(setup, events[..|events| - 1]);
      h := ApplyKeepsInv(Run(Start(setup), events[..|events| - 1]), h, events[|events| - 1]);
    }
  }

  // The two ids of a shared secret, in order.
  function Unordered(a: nat, b: nat): Shared {
    if a <= b then Shared(a, b) else Shared(b, a)
  }

  lemma {:induction false} RootOfView(h: History, s: State, role: Role)
    requires PartyView(s, role, h)
    ensures Epoch(s.rootKey.bytes) < |h.links| && s.rootKey.bytes == Kdf(h.links[Epoch(s.rootKey.bytes)], 0)
  {
    var c, r := SendIndex(role, h.Top()), ReceiveIndex(role, h.Top(), s.ratchetFlag);
    LinkEpoch(h, if c > r then c else r);
  }

  lemma {:induction false} FirstEphemeral(setup: Setup, events: seq<Event>)
    requires ValidSetup(setup)
    ensures |HistoryOf(setup, events).eph| > 0 && HistoryOf(setup, events).eph[0] == setup.bobEphemeral
  {
    if events == [] {
    } else {
      hide Run;
      FirstEphemeral(setup, events[..|events| - 1]);
    }
  }

  // After every run the root chain begins with the three hashed secrets of the setup, each link is
  // the previous root key with the secret of the two ephemerals around it, hashed with Alice's
  // public key first, and both parties' root keys come from this chain.
  lemma {:induction false} RootChainIsFixed(setup: Setup, events: seq<Event>, role: Role, j: nat)
    requires ValidSetup(setup)
    ensures var h := HistoryOf(setup, events);
            var root := Run(Start(setup), events).Party(role).rootKey.bytes;
            && |h.links| == |h.eph| > 0 && h.eph[0] == setup.bobEphemeral
            && h.links[0] == Master(
                 Dh(Unordered(setup.aliceIdentity, setup.bobEphemeral),
                    PublicKey(setup.aliceIdentity), PublicKey(setup.bobEphemeral)),
                 Dh(Unordered(setup.aliceEphemeral, setup.bobIdentity),
                    PublicKey(setup.aliceEphemeral), PublicKey(setup.bobIdentity)),
                 Dh(Unordered(setup.aliceEphemeral, setup.bobEphemeral),
                    PublicKey(setup.aliceEphemeral), PublicKey(setup.bobEphemeral)))
            && (1 <= j < |h.links| ==>
                  var alice := if j % 2 == 1 then h.eph[j] else h.eph[j - 1];
                  var bob := if j % 2 == 1 then h.eph[j - 1] else h.eph[j];
                  h.links[j] == Mac(Kdf(h.links[j - 1], 0),
                                    Dh(Unordered(alice, bob), PublicKey(alice), PublicKey(bob))))
            && Epoch(root) < |h.links| && root == Kdf(h.links[Epoch(root)], 0)
  {
    hide Inv, Sound, SendView, ReceiveView, DirectionInv;
    var h := RunKeepsInv(setup, events);
    InvGivesParty(Run(Start(setup), events), h, role);
    FirstEphemeral(setup, events);
    if 1 <= j < |h.links| {
      assert h.Linked(j);
    }
    RootOfView(h, Run(Start(setup), events).Party(role), role);
  }

  // Agreement

  ghost predicate NoChainYet(sender: State, receiver: State) {
    && sender.sendHeaderKey.None?
    && receiver.receiveHeaderKey.IsNone()
    && receiver.nextReceiveHeaderKey == sender.nextSendHeaderKey
  }

  ghost predicate OnSameChain(sender: State, receiver: State) {
    && sender.sendHeaderKey == Some(receiver.receiveHeaderKey)
    && receiver.receiveNumber <= sender.sendNumber
    && sender.sendChainKey == Present(Walk(receiver.receiveChainKey.bytes, sender.sendNumber - receiver.receiveNumber))
    && receiver.theirEphemeral == sender.ourEphemeral
    && receiver.nextReceiveHeaderKey == sender.nextSendHeaderKey
  }

  ghost predicate OneChainBehind(sender: State, receiver: State) {
    && sender.sendHeaderKey == Some(receiver.nextReceiveHeaderKey)
    && receiver.nextReceiveHeaderKey != receiver.receiveHeaderKey
    && !sender.ratchetFlag && !receiver.ratchetFlag
    && receiver.receiveNumber <= sender.previousNumber
  }

  lemma {:induction false} RootsAgree(h: History, alice: State, bob: State)
    requires PartyInv(h, Alice, alice) && PartyInv(h, Bob, bob)
    ensures var a, b := Epoch(alice.rootKey.bytes), Epoch(bob.rootKey.bytes);
            && a <= b + 1 && b <= a + 1
            && (a == b ==> alice.rootKey == bob.rootKey)
            && !(alice.ratchetFlag && bob.ratchetFlag)
  {
    LinkEpoch(h, h.Top());
    if h.Top() > 0 {
      LinkEpoch(h, h.Top() - 1);
    }
  }

  lemma {:induction false} DirectionAgrees(h: History, sender: State, receiver: State)
    requires PartyInv(h, sender.role, sender) && PartyInv(h, receiver.role, receiver)
             && receiver.role == Other(sender.role)
    ensures NoChainYet(sender, receiver) || OnSameChain(sender, receiver) || OneChainBehind(sender, receiver)
  {
    var c, r := SendIndex(sender.role, h.Top()), ReceiveIndex(receiver.role, h.Top(), receiver.ratchetFlag);
    if c == r {
      if c >= 0 {
        WalkComposes(h.ChainKey(c), receiver.receiveNumber, sender.sendNumber - receiver.receiveNumber);
      }
    } else {
      assert c == r + 2;
      HeaderKeysDiffer(h, if r >= 0 then r else 0, c);
    }
  }

  // The parties' root keys are at most one Diffie-Hellman step apart and equal when none; they
  // are never both about to start a chain; and each receiver is on its sender's chain or
  // exactly one behind.
  lemma {:induction false} Agreement(setup: Setup, events: seq<Event>)
    requires ValidSetup(setup)
    ensures var sys := Run(Start(setup), events);
            var a, b := Epoch(sys.alice.rootKey.bytes), Epoch(sys.bob.rootKey.bytes);
            && a <= b + 1 && b <= a + 1
            && (a == b ==> sys.alice.rootKey == sys.bob.rootKey)
            && !(sys.alice.ratchetFlag && sys.bob.ratchetFlag)
    ensures forall role ::
              var sys := Run(Start(setup), events);
              var sender, receiver := sys.Party(role), sys.Party(Other(role));
              NoChainYet(sender, receiver) || OnSameChain(sender, receiver) || OneChainBehind(sender, receiver)
  {
    var h := RunKeepsInv(setup, events);
    var sys := Run(Start(setup), events);
    assert PartyInv(h, Alice, sys.Party(Alice)) && PartyInv(h, Bob, sys.Party(Bob));
    RootsAgree(h, sys.alice, sys.bob);
    forall role
      ensures var sender, receiver := sys.Party(role), sys.Party(Other(role));
              NoChainYet(sender, receiver) || OnSameChain(sender, receiver) || OneChainBehind(sender, receiver)
    {
      assert PartyInv(h, role, sys.Party(role)) && PartyInv(h, Other(role), sys.Party(Other(role)));
      DirectionAgrees(h, sys.Party(role), sys.Party(Other(role)));
    }
  }

  // Delivery

  // The packet with the given index, as it was sent to the given party.
  function SentTo(sys: System, receiver: Role, index: nat): Packet
    requires index < |sys.From(Other(receiver)).wire|
  {
    sys.From(Other(receiver)).wire[index]
  }

  lemma {:induction false} OnTheWire(setup: Setup, events: seq<Event>, receiver: Role, index: nat) returns (h: History)
    requires ValidSetup(setup)
    requires index < |Run(Start(setup), events).From(Other(receiver)).wire|
    ensures var sys := Run(Start(setup), events);
            && PartyInv(h, receiver, sys.Party(receiver))
            && DirectionInv(h, Other(receiver), sys.From(Other(receiver)), sys.Party(receiver))
            && SentBy(h, Other(receiver), SentTo(sys, receiver, index))
  {
    h := RunKeepsInv(setup, events);
    var sys := Run(Start(setup), events);
    assert PartyInv(h, receiver, sys.Party(receiver));
    assert DirectionInv(h, Other(receiver), sys.From(Other(receiver)), sys.Party(receiver));
  }

  // In every reachable state and for every packet ever sent to a party: it is accepted exactly
  // when it is acceptable, then it yields its plaintext and both of its numbers, and otherwise
  // nothing changes.
  lemma {:induction false} DeliveryIsExact(
    setup: Setup, events: seq<Event>, receiver: Role, index: nat, clock: nat -> nat, now: Instants)
    requires ValidSetup(setup)
    requires index < |Run(Start(setup), events).From(Other(receiver)).wire|
    ensures var sys := Run(Start(setup), events);
            var s, p := sys.Party(receiver), SentTo(sys, receiver, index);
            var o := Deliver(s, p, clock, now);
            && p.Packet? && p.header.Header?
            && (o.result.Ok? <==> Acceptable(s, p))
            && (o.result.Ok? ==> o.result.value == Received(p.body, p.header.number, p.header.previous))
            && (o.result.Err? ==> o.state == s && o.dropped == []
                                  && o.result == Err(if TooFar(s, p) then ReceiveError else DecryptError))
  {
    var h := OnTheWire(setup, events, receiver, index);
    var sys := Run(Start(setup), events);
    HonestDelivery(h, sys.Party(receiver), receiver, SentTo(sys, receiver, index), clock, now);
  }

  // Accounting

  lemma {:induction false} TakenCountsIndices(wire: seq<Packet>, got: seq<nat>, index: nat)
    requires forall i :: 0 <= i < |got| ==> got[i] < |wire| && wire[got[i]].Packet?
    requires forall i :: 0 <= i < |wire| ==> wire[i].Packet?
    requires forall i, j :: 0 <= i < j < |wire| ==> wire[i].bodyKey != wire[j].bodyKey
    requires index < |wire| && Taken(wire, got, wire[index].bodyKey) <= 1
    ensures Taken(wire, got, wire[index].bodyKey) == Count(index in got)
    ensures forall i, j :: 0 <= i < j < |got| ==> !(got[i] == got[j] == index)
  {
    if got == [] {
    } else {
      var last := |got| - 1;
      TakenCountsIndices(wire, got[..last], index);
      assert got == got[..last] + [got[last]];
      forall i, j | 0 <= i < j < |got|
        ensures !(got[i] == got[j] == index)
      {
        if j == last && got[i] == index {
          assert got[i] == got[..last][i];
        } else if j < last {
          assert got[i] == got[..last][i] && got[j] == got[..last][j];
        }
      }
    }
  }

  // After every run each packet is exactly one of: accepted, still openable with a stored key,
  // given up because its key was thrown away, or ahead of the receiver. And none was accepted twice.
  lemma {:induction false} Accounting(setup: Setup, events: seq<Event>, receiver: Role, index: nat)
    requires ValidSetup(setup)
    requires index < |Run(Start(setup), events).From(Other(receiver)).wire|
    ensures var sys := Run(Start(setup), events);
            var d, s, p := sys.From(Other(receiver)), sys.Party(receiver), SentTo(sys, receiver, index);
            && p.Packet? && p.header.Header?
            && Count(index in d.got) + Copies(s.skipped, p.bodyKey) + Copies(d.lost, p.bodyKey)
               + Count(IsAhead(s, p)) == 1
            && forall i, j :: 0 <= i < j < |d.got| ==> !(d.got[i] == d.got[j] == index)
  {
    var h := OnTheWire(setup, events, receiver, index);
    var sys := Run(Start(setup), events);
    var d, s, p := sys.From(Other(receiver)), sys.Party(receiver), SentTo(sys, receiver, index);
    PacketIsAccounted(h, d, s, p);
    forall i | 0 <= i < |d.wire|
      ensures d.wire[i].Packet?
    {
      assert SentBy(h, Other(receiver), d.wire[i]);
    }
    TakenCountsIndices(d.wire, d.got, index);
  }

  // A packet that has been accepted is rejected from then on.
  lemma {:induction false} NeverAcceptedTwice(
    setup: Setup, events: seq<Event>, receiver: Role, index: nat, clock: nat -> nat, now: Instants)
    requires ValidSetup(setup)
    requires index in Run(Start(setup), events).From(Other(receiver)).got
    ensures var sys := Run(Start(setup), events);
            && index < |sys.From(Other(receiver)).wire|
            && Deliver(sys.Party(receiver), SentTo(sys, receiver, index), clock, now).result.Err?
  {
    var h := RunKeepsInv(setup, events);
    var sys := Run(Start(setup), events);
    assert DirectionInv(h, Other(receiver), sys.From(Other(receiver)), sys.Party(receiver));
    Accounting(setup, events, receiver, index);
    DeliveryIsExact(setup, events, receiver, index, clock, now);
  }

  // Within the limits on skipped messages.
  predicate WithinLimits(s: State, p: Packet)
    requires p.Packet? && p.header.Header?
  {
    && (s.receiveHeaderKey.Holds(p.headerKey) ==> p.header.number <= s.receiveNumber + MAXIMUM_SKIPPED_MESSAGES)
    && (s.nextReceiveHeaderKey.Holds(p.headerKey) ==>
          && p.header.number <= MAXIMUM_SKIPPED_MESSAGES
          && (!s.receiveHeaderKey.IsNone() ==> p.header.previous <= s.receiveNumber + MAXIMUM_SKIPPED_MESSAGES))
  }

  // A packet that was not accepted yet and whose key was not thrown away can be delivered now,
  // late or early, on whatever chain, as long as its gaps are within the limits.
  lemma {:induction false} UndeliveredIsDeliverable(
    setup: Setup, events: seq<Event>, receiver: Role, index: nat, clock: nat -> nat, now: Instants)
    requires ValidSetup(setup)
    requires index < |Run(Start(setup), events).From(Other(receiver)).wire|
    requires index !in Run(Start(setup), events).From(Other(receiver)).got
    ensures var sys := Run(Start(setup), events);
            var d, s, p := sys.From(Other(receiver)), sys.Party(receiver), SentTo(sys, receiver, index);
            && p.Packet? && p.header.Header?
            && (Copies(d.lost, p.bodyKey) == 0 && WithinLimits(s, p) ==>
                  Deliver(s, p, clock, now).result == Ok(Received(p.body, p.header.number, p.header.previous)))
  {
    Accounting(setup, events, receiver, index);
    DeliveryIsExact(setup, events, receiver, index, clock, now);
    var h := OnTheWire(setup, events, receiver, index);
    var sys := Run(Start(setup), events);
    HeaderOpens(h, sys.Party(receiver), receiver, Other(receiver), SentTo(sys, receiver, index));
  }

  // Keys

  // Over a whole run, in both directions: message keys never repeat, header keys repeat exactly
  // within a chain, and no header key is a message key.
  lemma {:induction false} KeysAreUnique(setup: Setup, events: seq<Event>, from: Role, i: nat, to: Role, j: nat)
    requires ValidSetup(setup)
    requires i < |Run(Start(setup), events).From(from).wire| && j < |Run(Start(setup), events).From(to).wire|
    ensures var sys := Run(Start(setup), events);
            var p, q := sys.From(from).wire[i], sys.From(to).wire[j];
            && p.Packet? && p.header.Header? && q.Packet? && q.header.Header?
            && (p.bodyKey == q.bodyKey <==> from == to && i == j)
            && (p.headerKey == q.headerKey <==> Epoch(p.bodyKey) == Epoch(q.bodyKey))
            && (p.headerKey == q.headerKey ==> from == to && p.header.ephemeral == q.header.ephemeral)
            && p.headerKey != q.bodyKey
  {
    var h := RunKeepsInv(setup, events);
    var sys := Run(Start(setup), events);
    assert DirectionInv(h, from, sys.From(from), sys.Party(Other(from)));
    assert DirectionInv(h, to, sys.From(to), sys.Party(Other(to)));
    var p, q := sys.From(from).wire[i], sys.From(to).wire[j];
    assert SentBy(h, from, p) && SentBy(h, to, q);
    var m, n := Epoch(p.bodyKey), Epoch(q.bodyKey);
    if m < n {
      HeaderKeysDiffer(h, m, n);
    } else if n < m {
      HeaderKeysDiffer(h, n, m);
    }
  }

  // The root keys of both parties keep going back to the master key of the setup, and another
  // setup has another master key.
  lemma {:induction false} MasterKeyStays(setup: Setup, events: seq<Event>, role: Role)
    requires ValidSetup(setup)
    ensures Base(Run(Start(setup), events).Party(role).rootKey.bytes) == FirstHistory(setup).links[0]
  {
    var h := RunKeepsInv(setup, events);
    assert PartyInv(h, role, Run(Start(setup), events).Party(role));
    RootBase(h, Run(Start(setup), events).Party(role), role);
  }

  lemma {:induction false} PacketBase(setup: Setup, events: seq<Event>, from: Role, i: nat)
    requires ValidSetup(setup) && i < |Run(Start(setup), events).From(from).wire|
    ensures var p := Run(Start(setup), events).From(from).wire[i];
            p.Packet? && Base(p.bodyKey) == FirstHistory(setup).links[0]
  {
    var h := RunKeepsInv(setup, events);
    var sys := Run(Start(setup), events);
    assert DirectionInv(h, from, sys.From(from), sys.Party(Other(from)));
    var p := sys.From(from).wire[i];
    assert SentBy(h, from, p);
    LinkBase(h, Epoch(p.bodyKey));
    WalkBase(h.ChainKey(Epoch(p.bodyKey)), Position(p.bodyKey));
  }

  // Two conversations never accept each other's packets: after any run of one and any run of
  // another that differs in an identity or a first ephemeral, every packet ever sent in the
  // other is rejected without any change, even under a replayed header.
  lemma {:induction false} ConversationsAreSeparate(
    setup: Setup, events: seq<Event>, other: Setup, others: seq<Event>, from: Role, i: nat, receiver: Role,
    headerKey: Key, header: Header, clock: nat -> nat, now: Instants)
    requires ValidSetup(setup) && ValidSetup(other) && setup != other
    requires i < |Run(Start(other), others).From(from).wire|
    ensures var s, p := Run(Start(setup), events).Party(receiver), Run(Start(other), others).From(from).wire[i];
            && p.Packet?
            && var o := Deliver(s, p.(headerKey := headerKey, header := header), clock, now);
               o.result.Err? && o.state == s && o.dropped == []
  {
    hide Run, Start, Deliver, Base;
    PacketBase(other, others, from, i);
    MasterKeyStays(setup, events, Alice);
    var h := RunKeepsInv(setup, events);
    var p := Run(Start(other), others).From(from).wire[i];
    InjectionChangesNothing(
      Run(Start(setup), events), h, receiver, p.(headerKey := headerKey, header := header), clock, now);
  }

  // Sending never gets stuck, and an erased private key is never used: whenever a party would
  // use its private ephemeral it holds the one that belongs to its public ephemeral.
  lemma {:induction false} CanAlwaysSend(
    setup: Setup, events: seq<Event>, role: Role, message: Message, keypair: nat, metadata: Option<PrekeyMetadata>)
    requires ValidSetup(setup)
    ensures var s := Run(Start(setup), events).Party(role);
            && Send(s, message, keypair, metadata).1.Ok?
            && (!s.ratchetFlag ==> KeypairMatches(s) && s.sendHeaderKey.Some? && !s.sendChainKey.IsNone())
            && (s.receiveHeaderKey.IsNone() <==> s.receiveChainKey.IsNone())
  {
    var h := RunKeepsInv(setup, events);
    assert PartyInv(h, role, Run(Start(setup), events).Party(role));
    SendKeepsSound(Run(Start(setup), events).Party(role), message, keypair, metadata);
  }

  // The one error code that reloading changes, on a concrete packet: before its first receive
  // chain Bob's absent header key comes back as a present all-zero one.
  lemma {:induction false} ReloadChangesErrorCode(
    setup: Setup, purported: Purported, key: Key, body: Message, clock: nat -> nat, now: Instants)
    requires ValidSetup(setup)
    ensures var s, p := Start(setup).bob, Packet(Zero, MalformedHeader, key, body, None);
            && Deliver(s, p, clock, now).result == Err(DecryptError)
            && Deliver(Reload(s, purported), p, clock, now).result == Err(ProtobufUnpackError)
  {
    CreatedIsSound(setup.bobIdentity, setup.aliceIdentity, setup.bobEphemeral, setup.aliceEphemeral);
    ExportThenImport(Rested(Start(setup).bob, purported));
  }

  // After any run a party can be exported and imported, unnoticed by anything that follows.
  lemma {:induction false} CanAlwaysReload(
    setup: Setup, events: seq<Event>, role: Role, purported: Purported, calls: seq<Call>)
    requires ValidSetup(setup)
    ensures var x := Rested(Run(Start(setup), events).Party(role), purported);
            && Export(x).Ok? && Import(Export(x).value).Ok?
            && var y := Import(Export(x).value).value;
               AtRest(y) && SameAnswers(calls, CallAll(x.state, calls), CallAll(y.state, calls))
  {
    var h := RunKeepsInv(setup, events);
    var s := Run(Start(setup), events).Party(role);
    assert PartyInv(h, role, s);
    ReloadIsInvisible(Rested(s, purported), calls);
  }

  // A malformed header

  // Bob sends two messages and Alice gets the second one first.
  function SecondFirst(first: Message, second: Message, keypair: nat, clock: nat -> nat, now: Instants): seq<Event> {
    [Sending(Bob, first, keypair, None), Sending(Bob, second, keypair, None), Delivery(Alice, 1, clock, now)]
  }

  lemma {:induction false} RunOfThree(sys: System, a: Event, b: Event, c: Event)
    ensures Run(sys, [a, b, c]) == Apply(Apply(Apply(sys, a), b), c)
  {
    hide Apply;
    assert [a, b, c][..2] == [a, b] && [a, b][..1] == [a] && [a][..0] == [];
    assert Run(sys, [a]) == Apply(sys, a);
    assert Run(sys, [a, b]) == Apply(Apply(sys, a), b);
  }

  // The packet with number `n` of Bob's first chain.
  ghost function FirstChainPacket(setup: Setup, n: nat, message: Message): Packet {
    var h := FirstHistory(setup);
    Packet(h.HeaderKey(0), Header(PublicKey(setup.bobEphemeral), n, 0), MessageKeyAt(h.ChainKey(0), n), message, None)
  }

  lemma {:induction false} BobsFirstChain(setup: Setup, n: nat, message: Message, keypair: nat, s: State)
    requires ValidSetup(setup) && n < UINT32_MAX && Sound(s) && !s.ratchetFlag
    requires s.sendNumber == n && s.previousNumber == 0 && s.ourEphemeral == PublicKey(setup.bobEphemeral)
    requires s.sendHeaderKey == Some(Present(FirstHistory(setup).HeaderKey(0)))
    requires s.sendChainKey == Present(Walk(FirstHistory(setup).ChainKey(0), n))
    ensures Send(s, message, keypair, None)
         == (s.(sendNumber := n + 1, sendChainKey := Present(Walk(FirstHistory(setup).ChainKey(0), n + 1))),
             Ok(FirstChainPacket(setup, n, message)))
  {
    hide Send, Sound;
    SendContinues(s, message, keypair, None);
  }

  lemma {:induction false} BobSendsTwice(setup: Setup, first: Message, second: Message, keypair: nat)
    requires ValidSetup(setup)
    ensures var once := Apply(Start(setup), Sending(Bob, first, keypair, None));
            var sys := Apply(once, Sending(Bob, second, keypair, None));
            && sys.alice == Start(setup).alice
            && sys.fromBob == Direction([FirstChainPacket(setup, 0, first), FirstChainPacket(setup, 1, second)], [], [])
  {
    hide Send, Sound;
    var s := Start(setup).bob;
    CreatedIsSound(setup.bobIdentity, setup.aliceIdentity, setup.bobEphemeral, setup.aliceEphemeral);
    BobsFirstChain(setup, 0, first, keypair, s);
    SendKeepsSound(s, first, keypair, None);
    BobsFirstChain(setup, 1, second, keypair, Send(s, first, keypair, None).0);
  }

  // Alice at the start of Bob's first chain.
  ghost predicate AtFirstChain(setup: Setup, s: State) {
    && s.skipped == [] && s.receiveNumber == 0
    && s.receiveHeaderKey == Present(FirstHistory(setup).HeaderKey(0))
    && s.receiveChainKey == Present(FirstHistory(setup).ChainKey(0))
  }

  lemma {:induction false} AliceStartsThere(setup: Setup)
    requires ValidSetup(setup)
    ensures AtFirstChain(setup, Start(setup).alice)
  {
  }

  lemma {:induction false} OneStaged(headerKey: EmptyableKey, chain: Key, clock: nat -> nat)
    ensures Stage([], headerKey, chain, 1, clock) == [FreshEntry(headerKey, MessageKeyAt(chain, 0), clock(0))]
  {
    assert Stage([], headerKey, chain, 0, clock) == [];
  }

  // A gap of one on the current chain, with nothing stored.
  lemma {:induction false} StagesOneKey(s: State, p: Packet, chain: Key, clock: nat -> nat, now: Instants)
    requires p.Packet? && p.header.Header? && p.header.number == 1 && p.bodyKey == MessageKeyAt(chain, 1)
    requires s.skipped == [] && s.receiveNumber == 0 && p.headerKey != Zero
    requires s.receiveHeaderKey == Present(p.headerKey) && s.receiveChainKey == Present(chain) && chain != Zero
    requires now.merged < clock(0) + EXPIRATION_TIME + MAXIMUM_AGE
    requires now.trimmed < clock(0) + EXPIRATION_TIME + MAXIMUM_AGE
    ensures var o := DeliverCurrent(s, p, clock, now);
            && o.result.Ok?
            && o.state == s.(skipped := [FreshEntry(Present(p.headerKey), MessageKeyAt(chain, 0), clock(0))],
                             receiveNumber := 2, receiveChainKey := Present(Walk(chain, 2)))
  {
    hide Settle, Discarded, Stage;
    OneStaged(s.receiveHeaderKey, chain, clock);
    StagedKeysSurvive([], [FreshEntry(s.receiveHeaderKey, MessageKeyAt(chain, 0), clock(0))], now);
  }

  // Alice stores the key of the first message.
  lemma {:induction false} SecondStoresFirst(
    setup: Setup, s: State, first: Message, second: Message, clock: nat -> nat, now: Instants)
    requires ValidSetup(setup) && AtFirstChain(setup, s)
    requires now.merged < clock(0) + EXPIRATION_TIME + MAXIMUM_AGE
    requires now.trimmed < clock(0) + EXPIRATION_TIME + MAXIMUM_AGE
    ensures var p := FirstChainPacket(setup, 0, first);
            var o := Deliver(s, FirstChainPacket(setup, 1, second), clock, now);
            && o.result.Ok?
            && o.state == s.(skipped := [FreshEntry(Present(p.headerKey), p.bodyKey, clock(0))],
                             receiveNumber := 2,
                             receiveChainKey := Present(Walk(FirstHistory(setup).ChainKey(0), 2)))
  {
    hide DeliverCurrent, DeliverNext;
    var h := FirstHistory(setup);
    StagesOneKey(s, FirstChainPacket(setup, 1, second), h.ChainKey(0), clock, now);
  }

  lemma {:induction false} KeyIsLost(setup: Setup, first: Message, t: State, clock: nat -> nat, now: Instants)
    requires ValidSetup(setup)
    requires var p := FirstChainPacket(setup, 0, first);
             && |t.skipped| == 1 && Opens(t.skipped[0], p)
             && t.receiveHeaderKey == Present(p.headerKey) && t.receiveNumber == 2
             && t.receiveChainKey == Present(Walk(FirstHistory(setup).ChainKey(0), 2))
    ensures var p := FirstChainPacket(setup, 0, first);
            var o := Deliver(t, p.(header := MalformedHeader), clock, now);
            && Deliver(t, p, clock, now).result == Ok(Received(first, 0, 0))
            && o.result.Err? && o.state.skipped == []
            && Deliver(o.state, p, clock, now).result.Err?
  {
    var p := FirstChainPacket(setup, 0, first);
    assert FindKey(t.skipped, p) == 0 && FindKey(t.skipped, p.(header := MalformedHeader)) == 0;
    assert MessageKeyAt(FirstHistory(setup).ChainKey(0), 2) != MessageKeyAt(FirstHistory(setup).ChainKey(0), 0) by {
      MessageKeyDecodes(FirstHistory(setup).ChainKey(0), 2);
      MessageKeyDecodes(FirstHistory(setup).ChainKey(0), 0);
    }
  }

  // A rejected packet can cost a key in a state that a run reaches: under the keys of the first
  // message a malformed header arrives. The packet is rejected, the key is gone, and the
  // genuine first message, readable until then, is rejected.
  lemma {:induction false} MalformedHeaderCostsKey(
    setup: Setup, first: Message, second: Message, keypair: nat, clock: nat -> nat, now: Instants,
    laterClock: nat -> nat, later: Instants)
    requires ValidSetup(setup)
    requires now.merged < clock(0) + EXPIRATION_TIME + MAXIMUM_AGE
    requires now.trimmed < clock(0) + EXPIRATION_TIME + MAXIMUM_AGE
    ensures var sys := Run(Start(setup), SecondFirst(first, second, keypair, clock, now));
            && |sys.fromBob.wire| == 2 && SentTo(sys, Alice, 0).Packet?
            && var p := SentTo(sys, Alice, 0);
               var o := Deliver(sys.alice, p.(header := MalformedHeader), laterClock, later);
               && Deliver(sys.alice, p, laterClock, later).result == Ok(Received(first, 0, 0))
               && o.result.Err? && |sys.alice.skipped| == 1 && o.state.skipped == []
               && Deliver(o.state, p, laterClock, later).result.Err?
  {
    var p, s := FirstChainPacket(setup, 0, first), Start(setup).alice;
    RunOfThree(Start(setup), Sending(Bob, first, keypair, None), Sending(Bob, second, keypair, None),
               Delivery(Alice, 1, clock, now));
    BobSendsTwice(setup, first, second, keypair);
    AliceStartsThere(setup);
    SecondStoresFirst(setup, s, first, second, clock, now);
    var t := s.(skipped := [FreshEntry(Present(p.headerKey), p.bodyKey, clock(0))], receiveNumber := 2,
                receiveChainKey := Present(Walk(FirstHistory(setup).ChainKey(0), 2)));
    KeyIsLost(setup, first, t, laterClock, later);
  }
}
