// What somebody learns about a conversation who gets hold of one ratchet, provided that every
// keypair was drawn anew: forward secrecy, its one exception, and healing.
module Compromise {
  import opened Keys
  import opened KeyDerivation
  import opened KeyStore
  import opened RatchetState
  import opened Results
  import opened Soundness
  import opened TwoPhase
  import opened Persistence
  import opened History
  import opened Protocol
  import opened Steps
  import opened Growth
  import opened Splicing
  import opened Guarantees
  import opened Knowledge
  import opened Secrecy
  import opened Leftovers

  // Freshness

  function DrawnIds(setup: Setup, events: seq<Event>): set<nat> {
    if events == [] then
      {setup.aliceIdentity, setup.bobIdentity, setup.aliceEphemeral, setup.bobEphemeral}
    else
      var last := events[|events| - 1];
      DrawnIds(setup, events[..|events| - 1]) + if last.Sending? then {last.keypair} else {}
  }

  // All four first keypairs differ, and whatever a send draws was not drawn before.
  ghost predicate FreshRun(setup: Setup, events: seq<Event>) {
    if events == [] then
      && ValidSetup(setup)
      && setup.aliceEphemeral !in {setup.aliceIdentity, setup.bobIdentity, setup.bobEphemeral}
      && setup.bobEphemeral !in {setup.aliceIdentity, setup.bobIdentity}
    else
      var before, last := events[..|events| - 1], events[|events| - 1];
      FreshRun(setup, before) && (last.Sending? ==> last.keypair !in DrawnIds(setup, before))
  }

  ghost predicate IsDrawn(h: History, setup: Setup, drawn: set<nat>) {
    && {setup.aliceIdentity, setup.bobIdentity, setup.aliceEphemeral} <= drawn
    && forall i :: 0 <= i < |h.eph| ==> h.eph[i] in drawn
  }

  // A new link, if any, brings the ephemeral that the send has drawn.
  lemma {:induction false} NextEphemerals(sys: System, h: History, e: Event)
    requires Inv(sys, h)
    ensures var g := NextHistory(sys, h, e);
            g.WellLinked() && g.links[0] == h.links[0]
              && (g.eph == h.eph || (e.Sending? && g.eph == h.eph + [e.keypair]))
  {
    hide Inv;
    var g := ApplyKeepsInv(sys, h, e);
    InvGivesParty(sys, h, Alice);
    InvGivesParty(Apply(sys, e), g, Alice);
  }

  lemma {:induction false} ExtendedIsFresh(h: History, g: History, setup: Setup, drawn: set<nat>, keypair: nat)
    requires IsFresh(h, setup) && IsDrawn(h, setup, drawn) && keypair !in drawn
    requires g.WellLinked() && g.links[0] == h.links[0] && g.eph == h.eph + [keypair]
    ensures IsFresh(g, setup) && IsDrawn(g, setup, drawn + {keypair})
  {
  }

  lemma {:induction false} StartIsFresh(setup: Setup)
    requires FreshRun(setup, [])
    ensures IsFresh(FirstHistory(setup), setup) && IsDrawn(FirstHistory(setup), setup, DrawnIds(setup, []))
  {
    StartInv(setup);
    InvGivesParty(Start(setup), FirstHistory(setup), Alice);
  }

  lemma {:induction false} FreshHistory(setup: Setup, events: seq<Event>)
    requires FreshRun(setup, events)
    ensures ValidSetup(setup) && IsFresh(HistoryOf(setup, events), setup)
    ensures IsDrawn(HistoryOf(setup, events), setup, DrawnIds(setup, events))
  {
    if events == [] {
      StartIsFresh(setup);
    } else {
      hide Inv, Run, NextHistory;
      var before, last := events[..|events| - 1], events[|events| - 1];
      FreshHistory(setup, before);
      var h := RunKeepsInv(setup, before);
      NextEphemerals(Run(Start(setup), before), h, last);
      var g := HistoryOf(setup, events);
      if g.eph != h.eph {
        ExtendedIsFresh(h, g, setup, DrawnIds(setup, before), last.keypair);
      }
    }
  }

  lemma {:induction false} HistoryContinues(setup: Setup, events: seq<Event>, more: seq<Event>)
    requires ValidSetup(setup)
    ensures Continues(HistoryOf(setup, events), HistoryOf(setup, events + more))
  {
    if more == [] {
      assert events + more == events;
    } else {
      hide Run, PartyView;
      var n := |more| - 1;
      HistoryContinues(setup, events, more[..n]);
      assert (events + more)[..|events| + n] == events + more[..n];
    }
  }

  // What is given away, in terms of what the ratchet holds

  predicate OnSendChain(s: State, p: Packet) {
    p.Packet? && s.sendHeaderKey == Some(Present(p.headerKey))
  }

  // The purported root key is an earlier one than the committed root key: the last chain that
  // was received is answered, and no header of the answer's answer has arrived since.
  predicate LeftoverRoot(x: Snapshot) {
    && !x.state.ratchetFlag
    && x.purported.rootKey.bytes.Kdf?
    && Epoch(x.purported.rootKey.bytes) < Epoch(x.state.rootKey.bytes)
  }

  predicate Reveals(x: Snapshot, p: Packet)
    requires p.Packet? && p.header.Header?
  {
    var s := x.state;
    || Copies(s.skipped, p.bodyKey) > 0
    || (OnSendChain(s, p) && (p.header.number >= s.sendNumber || LeftoverRoot(x)))
    || (s.receiveHeaderKey.Holds(p.headerKey) && p.header.number >= s.receiveNumber)
    || (s.nextReceiveHeaderKey.Holds(p.headerKey) && !s.ratchetFlag)
  }

  lemma {:induction false} HeaderKeysMatch(g: History, j: nat, i: int)
    requires g.WellLinked() && j <= g.Top() && 0 <= i <= |g.links| + 1
    ensures g.HeaderKey(j) == g.HeaderKey(i) <==> j == i
  {
    if j < i {
      HeaderKeysDiffer(g, j, i);
    } else if i < j {
      HeaderKeysDiffer(g, i, j);
    }
  }

  lemma {:induction false} LeftoverIsPrevious(x: Snapshot, role: Role, h: History)
    requires PartyView(x.state, role, h) && PurportedView(x.purported, x.state, role, h)
    ensures LeftoverRoot(x) <==> !x.state.ratchetFlag && HoldsPrevious(x, h, SendIndex(role, h.Top()))
  {
    RootEpoch(h, x.state, role);
    var c := SendIndex(role, h.Top());
    if c >= 1 {
      KindsOfKeys(h, c - 1, 0);
    }
  }

  lemma {:induction false} GivesAwayIsReveals(
    x: Snapshot, role: Role, h: History, d: Direction, g: History, sender: Role, p: Packet)
    requires IsOurs(x, role, h, d) && g.WellLinked() && Continues(h, g) && SentBy(g, sender, p)
    ensures GivesAway(x, role, h, Epoch(p.bodyKey), p.header.number, p.bodyKey) <==> Reveals(x, p)
  {
    hide Sound, DirectionInv, PurportedView, HoldsPrevious, LeftoverRoot;
    var s, j := x.state, Epoch(p.bodyKey);
    var c, r := SendIndex(role, h.Top()), ReceiveIndex(role, h.Top(), s.ratchetFlag);
    LeftoverIsPrevious(x, role, h);
    RootEpoch(h, s, role);
    HeaderKeysMatch(g, j, r + 2);
    if c >= 0 {
      HeaderKeysMatch(g, j, c);
    }
    if r >= 0 {
      HeaderKeysMatch(g, j, r);
    }
  }

  // The theorems

  lemma {:induction false} SnapshotIsOurs(setup: Setup, events: seq<Event>, role: Role)
    requires ValidSetup(setup)
    ensures var x, h := SnapshotOf(setup, events, role), HistoryOf(setup, events);
            && IsOurs(x, role, h, Run(Start(setup), events).From(Other(role)))
            && PrivateView(x.state, h, setup) && x.state == Run(Start(setup), events).Party(role)
  {
    hide Inv;
    RunLeaves(setup, events, role);
    InvGivesParty(Run(Start(setup), events), HistoryOf(setup, events), role);
  }

  lemma {:induction false} SentInRun(setup: Setup, events: seq<Event>, sender: Role, index: nat)
    requires ValidSetup(setup) && index < |Run(Start(setup), events).From(sender).wire|
    ensures var g, p := HistoryOf(setup, events), Run(Start(setup), events).From(sender).wire[index];
            g.WellLinked() && SentBy(g, sender, p)
  {
    hide Inv;
    var g := RunKeepsInv(setup, events);
    InvGivesParty(Run(Start(setup), events), g, Other(sender));
  }

  lemma {:induction false} SnapshotReveals(
    x: Snapshot, role: Role, h: History, d: Direction, g: History, setup: Setup, sender: Role, p: Packet)
    requires IsOurs(x, role, h, d) && PrivateView(x.state, h, setup)
    requires IsFresh(g, setup) && Continues(h, g) && SentBy(g, sender, p)
    ensures Derives(Learned(x), p.bodyKey) <==> Reveals(x, p)
  {
    hide Derives, Learned, Reveals, Sound, DirectionInv, PurportedView, GivesAway;
    GivesAwayIsReveals(x, role, h, d, g, sender, p);
    DerivedMessageKeys(x, role, h, d, g, setup, Epoch(p.bodyKey), p.header.number);
  }

  // Exactly what a ratchet taken after `events` gives away of all packets sent until then or
  // later, by either side.
  lemma {:induction false} SnapshotRevealsExactly(
    setup: Setup, events: seq<Event>, more: seq<Event>, role: Role, sender: Role, index: nat)
    requires FreshRun(setup, events + more) && ValidSetup(setup)
    requires index < |Run(Start(setup), events + more).From(sender).wire|
    ensures var x, p := SnapshotOf(setup, events, role), Run(Start(setup), events + more).From(sender).wire[index];
            && p.Packet? && p.header.Header?
            && (Derives(Learned(x), p.bodyKey) <==> Reveals(x, p))
  {
    hide Derives, Learned, Reveals, IsOurs, PrivateView, IsFresh, Run, Start, SnapshotOf, HistoryOf;
    var x, h, g := SnapshotOf(setup, events, role), HistoryOf(setup, events), HistoryOf(setup, events + more);
    var d, p := Run(Start(setup), events).From(Other(role)), Run(Start(setup), events + more).From(sender).wire[index];
    SnapshotIsOurs(setup, events, role);
    SentInRun(setup, events + more, sender, index);
    FreshHistory(setup, events + more);
    HistoryContinues(setup, events, more);
    SnapshotReveals(x, role, h, d, g, setup, sender, p);
  }

  lemma {:induction false} SnapshotRevealsSoFar(
    setup: Setup, events: seq<Event>, role: Role, sender: Role, index: nat)
    requires FreshRun(setup, events) && ValidSetup(setup)
    requires index < |Run(Start(setup), events).From(sender).wire|
    ensures var x, p := SnapshotOf(setup, events, role), Run(Start(setup), events).From(sender).wire[index];
            && p.Packet? && p.header.Header?
            && (Derives(Learned(x), p.bodyKey) <==> Reveals(x, p))
  {
    hide Derives, Learned, Reveals, FreshRun, Run, Start, SnapshotOf;
    var none: seq<Event> := [];
    assert events + none == events;
    SnapshotRevealsExactly(setup, events, none, role, sender, index);
  }

  // An own packet is behind the send chain key, and nothing else that is held belongs to it.
  lemma {:induction false} OwnIsPast(x: Snapshot, role: Role, h: History, d: Direction, p: Packet)
    requires IsOurs(x, role, h, d) && SentBy(h, role, p)
    ensures Reveals(x, p) <==> OnSendChain(x.state, p) && LeftoverRoot(x)
  {
    hide LeftoverRoot, Sound, PurportedView;
    var s := x.state;
    if Copies(s.skipped, p.bodyKey) > 0 {
      PassedIsReceived(h, d, s, role, p);
    }
    HeaderOpens(h, s, role, role, p);
    var c := SendIndex(role, h.Top());
    if c >= 0 {
      HeaderKeysMatch(h, Epoch(p.bodyKey), c);
    }
  }

  lemma {:induction false} OwnIsPastInRun(setup: Setup, events: seq<Event>, role: Role, index: nat)
    requires ValidSetup(setup) && index < |Run(Start(setup), events).From(role).wire|
    ensures var x, p := SnapshotOf(setup, events, role), Run(Start(setup), events).From(role).wire[index];
            && p.Packet? && p.header.Header?
            && (Reveals(x, p) <==> OnSendChain(x.state, p) && LeftoverRoot(x))
  {
    hide LeftoverRoot, Reveals, OnSendChain, Sound, DirectionInv, PurportedView, Run, Start, SnapshotOf, HistoryOf;
    SnapshotIsOurs(setup, events, role);
    SentInRun(setup, events, role, index);
    OwnIsPast(SnapshotOf(setup, events, role), role, HistoryOf(setup, events),
              Run(Start(setup), events).From(Other(role)), Run(Start(setup), events).From(role).wire[index]);
  }

  lemma {:induction false} AcceptedIsSpent(setup: Setup, events: seq<Event>, role: Role, index: nat)
    requires ValidSetup(setup)
    requires index < |Run(Start(setup), events).From(Other(role)).wire|
    requires index in Run(Start(setup), events).From(Other(role)).got
    ensures var s, p := Run(Start(setup), events).Party(role), SentTo(Run(Start(setup), events), role, index);
            p.Packet? && p.header.Header? && Copies(s.skipped, p.bodyKey) == 0 && !IsAhead(s, p)
  {
    hide Run, Start, IsAhead;
    Accounting(setup, events, role, index);
  }

  lemma {:induction false} AcceptedIsPast(x: Snapshot, role: Role, h: History, d: Direction, p: Packet)
    requires IsOurs(x, role, h, d) && SentBy(h, Other(role), p)
    requires Copies(x.state.skipped, p.bodyKey) == 0 && !IsAhead(x.state, p)
    ensures !OnSendChain(x.state, p) && !Reveals(x, p)
  {
    hide LeftoverRoot, Sound, PurportedView, DirectionInv;
    var c := SendIndex(role, h.Top());
    if c >= 0 {
      HeaderKeysMatch(h, Epoch(p.bodyKey), c);
    }
  }

  lemma {:induction false} AcceptedIsPastInRun(setup: Setup, events: seq<Event>, role: Role, index: nat)
    requires ValidSetup(setup)
    requires index < |Run(Start(setup), events).From(Other(role)).wire|
    requires index in Run(Start(setup), events).From(Other(role)).got
    ensures var x, p := SnapshotOf(setup, events, role), SentTo(Run(Start(setup), events), role, index);
            p.Packet? && p.header.Header? && !OnSendChain(x.state, p) && !Reveals(x, p)
  {
    hide LeftoverRoot, Reveals, OnSendChain, IsAhead, Sound, DirectionInv, PurportedView;
    hide Run, Start, SnapshotOf, HistoryOf;
    SnapshotIsOurs(setup, events, role);
    SentInRun(setup, events, Other(role), index);
    AcceptedIsSpent(setup, events, role, index);
    AcceptedIsPast(SnapshotOf(setup, events, role), role, HistoryOf(setup, events),
                   Run(Start(setup), events).From(Other(role)), SentTo(Run(Start(setup), events), role, index));
  }

  // Forward secrecy, with its exact exception: of all packets that a party has sent or accepted,
  // its ratchet gives away exactly those it has sent on its current chain, and only while the
  // root key before that chain is left among the purported values.
  lemma {:induction false} ForwardSecrecy(
    setup: Setup, events: seq<Event>, role: Role, sender: Role, index: nat)
    requires FreshRun(setup, events) && ValidSetup(setup)
    requires index < |Run(Start(setup), events).From(sender).wire|
    requires sender == role || index in Run(Start(setup), events).From(sender).got
    ensures var x, p := SnapshotOf(setup, events, role), Run(Start(setup), events).From(sender).wire[index];
            p.Packet? && (Derives(Learned(x), p.bodyKey) <==> OnSendChain(x.state, p) && LeftoverRoot(x))
  {
    hide Derives, Learned, LeftoverRoot, Reveals, OnSendChain, Run, Start, SnapshotOf;
    SnapshotRevealsSoFar(setup, events, role, sender, index);
    if sender == role {
      OwnIsPastInRun(setup, events, role, index);
    } else {
      AcceptedIsPastInRun(setup, events, role, index);
    }
  }

  lemma {:induction false} LaterChains(
    x: Snapshot, role: Role, h: History, d: Direction, g: History, setup: Setup, sender: Role, p: Packet)
    requires IsOurs(x, role, h, d) && PrivateView(x.state, h, setup)
    requires IsFresh(g, setup) && Continues(h, g) && SentBy(g, sender, p)
    requires Epoch(p.bodyKey) > Epoch(x.state.rootKey.bytes)
    ensures Derives(Learned(x), p.bodyKey)
       <==> !x.state.ratchetFlag && Epoch(p.bodyKey) == Epoch(x.state.rootKey.bytes) + 1
  {
    hide Derives, Learned, Sound, PurportedView, HoldsPrevious;
    var s := x.state;
    RootEpoch(h, s, role);
    DerivedMessageKeys(x, role, h, d, g, setup, Epoch(p.bodyKey), p.header.number);
    if Copies(s.skipped, p.bodyKey) > 0 {
      assert Balanced(h, d, s, p.bodyKey);
      PassedMeaning(h, ReceiveIndex(role, h.Top(), s.ratchetFlag), s.receiveNumber, p.bodyKey);
    }
  }

  // Healing: of all chains behind the root key that was learned, exactly the partner's next one
  // is open, and not even that when the ratchet was about to start a chain itself.
  lemma {:induction false} CompromiseHeals(
    setup: Setup, events: seq<Event>, more: seq<Event>, role: Role, sender: Role, index: nat)
    requires FreshRun(setup, events + more) && ValidSetup(setup)
    requires index < |Run(Start(setup), events + more).From(sender).wire|
    ensures var x, p := SnapshotOf(setup, events, role), Run(Start(setup), events + more).From(sender).wire[index];
            && p.Packet?
            && (Epoch(p.bodyKey) > Epoch(x.state.rootKey.bytes) ==>
                  (Derives(Learned(x), p.bodyKey)
                   <==> !x.state.ratchetFlag && Epoch(p.bodyKey) == Epoch(x.state.rootKey.bytes) + 1))
  {
    hide Derives, Learned, IsOurs, PrivateView, IsFresh, Run, Start, SnapshotOf, HistoryOf;
    var x, h, g := SnapshotOf(setup, events, role), HistoryOf(setup, events), HistoryOf(setup, events + more);
    var d, p := Run(Start(setup), events).From(Other(role)), Run(Start(setup), events + more).From(sender).wire[index];
    SnapshotIsOurs(setup, events, role);
    SentInRun(setup, events + more, sender, index);
    FreshHistory(setup, events + more);
    HistoryContinues(setup, events, more);
    if Epoch(p.bodyKey) > Epoch(x.state.rootKey.bytes) {
      LaterChains(x, role, h, d, g, setup, sender, p);
    }
  }

  // The exception happens with every reply

  lemma {:induction false} OnTheWireIsOthers(setup: Setup, events: seq<Event>, role: Role, index: nat)
    requires ValidSetup(setup) && index < |Run(Start(setup), events).From(Other(role)).wire|
    ensures var h, sys := HistoryOf(setup, events), Run(Start(setup), events);
            && PartyInv(h, role, sys.Party(role))
            && DirectionInv(h, Other(role), sys.From(Other(role)), sys.Party(role))
            && SentBy(h, Other(role), SentTo(sys, role, index))
  {
    hide Inv;
    var h := RunKeepsInv(setup, events);
    InvGivesParty(Run(Start(setup), events), h, role);
  }

  lemma {:induction false} TwoMore(setup: Setup, events: seq<Event>, a: Event, b: Event, role: Role)
    requires ValidSetup(setup)
    ensures var sys := Run(Start(setup), events);
            && Run(Start(setup), events + [a, b]) == Apply(Apply(sys, a), b)
            && PurportedOf(setup, events + [a, b], role)
               == NextPurported(Apply(sys, a), b, role, NextPurported(sys, a, role, PurportedOf(setup, events, role)))
  {
    hide Apply, NextPurported;
    assert (events + [a, b])[..|events| + 1] == events + [a];
    assert (events + [a])[..|events|] == events;
    assert Run(Start(setup), events + [a]) == Apply(Run(Start(setup), events), a);
    assert PurportedOf(setup, events + [a], role)
        == NextPurported(Run(Start(setup), events), a, role, PurportedOf(setup, events, role));
  }

  lemma {:induction false} NextKeepsRole(s: State, p: Packet, clock: nat -> nat, now: Instants)
    requires p.Packet?
    ensures DeliverNext(s, p, clock, now).state.role == s.role
  {
  }

  lemma {:induction false} NextDeliveryLeaves(
    h: History, d: Direction, s: State, role: Role, purported: Purported, p: Packet, clock: nat -> nat, now: Instants)
    requires PartyInv(h, role, s) && DirectionInv(h, Other(role), d, s) && SentBy(h, Other(role), p)
    requires s.nextReceiveHeaderKey.Holds(p.headerKey) && Deliver(s, p, clock, now).result.Ok?
    ensures var t, after := Deliver(s, p, clock, now).state, PurportedAfter(s, purported, p, clock);
            && t.role == role && t.ratchetFlag && Sound(t)
            && after.rootKey.bytes == t.rootKey.bytes && after.rootKey.bytes.Kdf?
  {
    hide DeliverCurrent, DeliverNext, StageNext, StageCurrent;
    assert s.role == role;
    PacketIsAccounted(h, d, s, p);
    CopiesMember(s.skipped, p.bodyKey);
    HeaderOpens(h, s, role, Other(role), p);
    DeliverKeepsSound(s, p, clock, now);
    NextHeaderShape(h, s, role);
    NextLeaves(s, purported, p, clock, now);
    NextKeepsRole(s, p, clock, now);
  }

  lemma {:induction false} ReplyIsExposed(
    s: State, purported: Purported, message: Message, keypair: nat, metadata: Option<PrekeyMetadata>)
    requires Sound(s) && s.ratchetFlag
    requires purported.rootKey.bytes == s.rootKey.bytes && s.rootKey.bytes.Kdf?
    ensures var (t, r) := Send(s, message, keypair, metadata);
            && r.Ok? && r.value.body == message
            && OnSendChain(t, r.value) && LeftoverRoot(Rested(t, purported))
            && Derives(Learned(Rested(t, purported)), r.value.bodyKey)
  {
    hide Send, CommittedKeys;
    var dh := DiffieHellman(PrivateKey(keypair), PublicKey(keypair), s.theirEphemeral, s.role);
    var link := Mac(s.rootKey.bytes, dh);
    SendAdvances(s, message, keypair, metadata, link);
    var t := Send(s, message, keypair, metadata).0;
    var known := Learned(Rested(t, purported));
    assert purported.rootKey.bytes in known.keys && keypair in known.privates;
    assert Derives(known, link);
    assert Derives(known, Kdf(link, 2));
    assert Epoch(t.rootKey.bytes) == Epoch(link) == Epoch(s.rootKey.bytes) + 1;
  }

  // Whoever receives the first packet of a new chain and answers has the root key left with
  // which the answer's chain began. This takes no assumption on the keypairs.
  lemma {:induction false} RepliesAreExposed(
    setup: Setup, events: seq<Event>, role: Role, index: nat, clock: nat -> nat, now: Instants,
    message: Message, keypair: nat, metadata: Option<PrekeyMetadata>)
    requires ValidSetup(setup) && index < |Run(Start(setup), events).From(Other(role)).wire|
    requires var s, p := Run(Start(setup), events).Party(role), SentTo(Run(Start(setup), events), role, index);
             p.Packet? && s.nextReceiveHeaderKey.Holds(p.headerKey) && Deliver(s, p, clock, now).result.Ok?
    ensures var replied := events + [Delivery(role, index, clock, now), Sending(role, message, keypair, metadata)];
            var x, wire := SnapshotOf(setup, replied, role), Run(Start(setup), replied).From(role).wire;
            && wire != [] && wire[|wire| - 1].Packet? && wire[|wire| - 1].body == message
            && OnSendChain(x.state, wire[|wire| - 1]) && LeftoverRoot(x)
            && Derives(Learned(x), wire[|wire| - 1].bodyKey)
  {
    hide Deliver, Send, PurportedAfter, Derives, Learned, LeftoverRoot, PartyInv;
    var sys := Run(Start(setup), events);
    var s, p := sys.Party(role), SentTo(sys, role, index);
    var delivery, sending := Delivery(role, index, clock, now), Sending(role, message, keypair, metadata);
    TwoMore(setup, events, delivery, sending, role);
    SnapshotIsOurs(setup, events, role);
    OnTheWireIsOthers(setup, events, role, index);
    var h := HistoryOf(setup, events);
    var purported := PurportedOf(setup, events, role);
    NextDeliveryLeaves(h, sys.From(Other(role)), s, role, purported, p, clock, now);
    var after, t := PurportedAfter(s, purported, p, clock), Deliver(s, p, clock, now).state;
    ReplyIsExposed(t, after, message, keypair, metadata);
  }

  lemma {:induction false} AliceOpens(setup: Setup, first: Message, keypair: nat)
    requires ValidSetup(setup)
    ensures var sys := Run(Start(setup), [Sending(Alice, first, keypair, None)]);
            && |sys.fromAlice.wire| == 1 && sys.fromAlice.wire[0].Packet?
            && sys.fromAlice.wire[0].header == Header(PublicKey(keypair), 0, 0)
            && sys.bob.nextReceiveHeaderKey.Holds(sys.fromAlice.wire[0].headerKey)
            && sys.bob.receiveHeaderKey.IsNone()
  {
    hide Send, Sound;
    var a, event := Start(setup).alice, Sending(Alice, first, keypair, None);
    CreatedIsSound(setup.aliceIdentity, setup.bobIdentity, setup.aliceEphemeral, setup.bobEphemeral);
    assert [event][..0] == [];
    assert Run(Start(setup), [event]) == Apply(Start(setup), event);
    var dh := DiffieHellman(PrivateKey(keypair), PublicKey(keypair), a.theirEphemeral, a.role);
    SendAdvances(a, first, keypair, None, Mac(a.rootKey.bytes, dh));
  }

  // Already the first reply of a conversation: Alice writes, Bob answers, and Bob's ratchet then
  // gives away the key of his own answer.
  lemma {:induction false} FirstReplyIsExposed(
    setup: Setup, first: Message, reply: Message, keypair: nat, next: nat, clock: nat -> nat, now: Instants)
    requires ValidSetup(setup)
    ensures var events := [Sending(Alice, first, keypair, None)]
                          + [Delivery(Bob, 0, clock, now), Sending(Bob, reply, next, None)];
            var x, wire := SnapshotOf(setup, events, Bob), Run(Start(setup), events).fromBob.wire;
            && wire != [] && wire[|wire| - 1].Packet? && wire[|wire| - 1].body == reply
            && Derives(Learned(x), wire[|wire| - 1].bodyKey)
  {
    hide Send, Deliver, Derives, Learned, LeftoverRoot;
    var opening := [Sending(Alice, first, keypair, None)];
    AliceOpens(setup, first, keypair);
    DeliveryIsExact(setup, opening, Bob, 0, clock, now);
    RepliesAreExposed(setup, opening, Bob, 0, clock, now, reply, next, None);
  }
}
