// The purported values of both parties through a run: what the last receptions left behind.
module Leftovers {
  import opened Keys
  import opened KeyDerivation
  import opened KeyStore
  import opened RatchetState
  import opened Results
  import opened Soundness
  import opened TwoPhase
  import opened Persistence
  import opened History
  import opened Protocol
  import opened Steps
  import opened Growth
  import opened Guarantees
  import opened Secrecy

  // One reception

  lemma {:induction false} CurrentAttempt(s: State, purported: Purported, p: Packet, clock: nat -> nat, now: Instants)
    requires p.Packet? && p.header.Header? && !s.receiveHeaderKey.IsNone() && !s.receiveChainKey.IsNone()
    ensures var o, gap := DeliverCurrent(s, p, clock, now), Gap(s.receiveNumber, p.header.number);
            var after := StageCurrent(s, purported.(number := p.header.number), [], p.header.number, clock).purported;
            && o.state == s.(receiveNumber := o.state.receiveNumber, receiveChainKey := o.state.receiveChainKey,
                             skipped := o.state.skipped)
            && after == purported.(number := p.header.number, chainKey := after.chainKey)
            && (after.chainKey == Present(Walk(s.receiveChainKey.bytes, gap + 1))
                || (after.chainKey == purported.chainKey && o.state == s))
            && o.state.receiveNumber <= s.receiveNumber + gap + 1
  {
    hide Settle, Stage, Discarded;
    var gap := Gap(s.receiveNumber, p.header.number);
    assert Walk(s.receiveChainKey.bytes, gap + 1) == NextChainKey(Walk(s.receiveChainKey.bytes, gap));
  }

  // An attempt on the current chain leaves a chain key that is not behind.
  lemma {:induction false} CurrentLeaves(
    h: History, s: State, role: Role, purported: Purported, p: Packet, clock: nat -> nat, now: Instants)
    requires PartyInv(h, role, s) && PurportedView(purported, s, role, h)
    requires p.Packet? && p.header.Header? && OpensHeader(s.receiveHeaderKey, p) && !s.receiveHeaderKey.IsNone()
    ensures var o := DeliverCurrent(s, p, clock, now);
            var after := StageCurrent(s, purported.(number := p.header.number), [], p.header.number, clock).purported;
            && o.state.ratchetFlag == s.ratchetFlag && o.state.rootKey == s.rootKey
            && o.state.ourPrivateEphemeral == s.ourPrivateEphemeral
            && after.rootKey == purported.rootKey && PurportedHeaders(after)
            && PurportedChain(after, o.state, SendIndex(role, h.Top()), ReceiveIndex(role, h.Top(), s.ratchetFlag))
  {
    hide SendView, DeliverCurrent, StageCurrent;
    var r, gap := ReceiveIndex(role, h.Top(), s.ratchetFlag), Gap(s.receiveNumber, p.header.number);
    CurrentAttempt(s, purported, p, clock, now);
    WalkComposes(h.ChainKey(r), s.receiveNumber, gap + 1);
    KindsOfKeys(h, r, s.receiveNumber + gap + 1);
  }

  // An attempt on the next chain leaves nothing, or keys that derive from the root key.
  ghost predicate FromRoot(p: Purported, root: Key) {
    && p.rootKey.bytes.Kdf? && p.rootKey.bytes.index == 0
    && p.rootKey.bytes.parent.Mac? && p.rootKey.bytes.parent.root == root
    && IsChainKey(p.chainKey.bytes) && Epoch(p.chainKey.bytes) == Epoch(root) + 1
    && PurportedHeaders(p)
  }

  lemma {:induction false} NewChainKeys(link: Key, n: nat)
    requires link.Mac?
    ensures IsChainKey(Walk(Kdf(link, 2), n)) && Epoch(Walk(Kdf(link, 2), n)) == Epoch(link.root) + 1
    ensures Keys.Steps(Walk(Kdf(link, 2), n)) == n
  {
    MessageKeyDecodes(Kdf(link, 2), n);
    if n == 0 {
    } else {
      WalkIsKdf(Kdf(link, 2), n - 1);
    }
  }

  lemma {:induction false} NextLeaves(
    s: State, purported: Purported, p: Packet, clock: nat -> nat, now: Instants)
    requires Sound(s) && IsHeaderKey(s.nextReceiveHeaderKey.bytes)
    requires p.Packet? && p.header.Header? && !s.ratchetFlag
    ensures var o := DeliverNext(s, p, clock, now);
            var after := StageNext(s, purported.(number := p.header.number, previous := p.header.previous,
                                                 ephemeral := Some(p.header.ephemeral)), [],
                                   p.header.ephemeral, p.header.number, p.header.previous, clock).purported;
            && (FromRoot(after, s.rootKey.bytes)
                || after == purported.(number := p.header.number, previous := p.header.previous,
                                       ephemeral := Some(p.header.ephemeral)))
            && (o.result.Ok? ==>
                  && o.state.ratchetFlag && o.state.ourPrivateEphemeral == Erased
                  && FromRoot(after, s.rootKey.bytes)
                  && after.rootKey.bytes == o.state.rootKey.bytes
                  && Keys.Steps(after.chainKey.bytes) == o.state.receiveNumber)
            && (o.result.Err? ==> o.state == s)
  {
    hide Settle, Stage, Discarded;
    var derived := DeriveRootNextHeaderAndChainKeys(
      s.ourPrivateEphemeral, s.ourEphemeral, p.header.ephemeral, s.rootKey, s.role).value;
    NewChainKeys(derived.chainKey.parent, 0);
    NewChainKeys(derived.chainKey.parent, p.header.number + 1);
  }

  lemma {:induction false} NextHeaderShape(h: History, s: State, role: Role)
    requires PartyView(s, role, h)
    ensures IsHeaderKey(s.nextReceiveHeaderKey.bytes)
  {
    HeaderKeysAreHeaderKeys(h, ReceiveIndex(role, h.Top(), s.ratchetFlag) + 2);
  }

  // A packet with a stored key, or without a readable header, at most costs a stored key.
  lemma {:induction false} UnreadableLeaves(s: State, p: Packet, clock: nat -> nat, now: Instants)
    requires p.Packet? && p.header.Header? && FindKey(s.skipped, p) == |s.skipped| ==>
               && !(OpensHeader(s.receiveHeaderKey, p) && !s.receiveHeaderKey.IsNone())
               && (OpensHeader(s.receiveHeaderKey, p) || !OpensHeader(s.nextReceiveHeaderKey, p) || s.ratchetFlag)
    ensures var t := Deliver(s, p, clock, now).state;
            t == s.(skipped := t.skipped)
  {
  }

  lemma {:induction false} FromRootIsView(h: History, s: State, role: Role, p: Purported, t: State)
    requires PartyView(s, role, h) && !s.ratchetFlag && FromRoot(p, s.rootKey.bytes)
    requires PartyView(t, role, h)
    requires t == s || (&& t.ratchetFlag && t.rootKey.bytes == p.rootKey.bytes
                        && Keys.Steps(p.chainKey.bytes) == t.receiveNumber)
    ensures PurportedView(p, t, role, h)
  {
    hide SendView, ReceiveView;
    RootEpoch(h, s, role);
    RootEpoch(h, t, role);
    assert Epoch(p.rootKey.bytes) == Epoch(p.rootKey.bytes.parent) == Epoch(s.rootKey.bytes) + 1;
  }

  // Whatever packet arrives: as long as the party stays a view of the history, so do its
  // purported values.
  lemma {:induction false} ReceptionLeavesView(
    h: History, s: State, role: Role, purported: Purported, p: Packet, clock: nat -> nat, now: Instants)
    requires PartyInv(h, role, s) && PurportedView(purported, s, role, h)
    requires PartyView(Deliver(s, p, clock, now).state, role, h)
    ensures PurportedView(PurportedAfter(s, purported, p, clock), Deliver(s, p, clock, now).state, role, h)
  {
    hide DeliverCurrent, DeliverNext, StageCurrent, StageNext, SendView, ReceiveView;
    if p.Packet? && p.header.Header? && FindKey(s.skipped, p) == |s.skipped| {
      if OpensHeader(s.receiveHeaderKey, p) && !s.receiveHeaderKey.IsNone() {
        CurrentLeaves(h, s, role, purported, p, clock, now);
      } else if OpensHeader(s.nextReceiveHeaderKey, p) && !s.ratchetFlag {
        NextHeaderShape(h, s, role);
        NextLeaves(s, purported, p, clock, now);
        var after := PurportedAfter(s, purported, p, clock);
        if FromRoot(after, s.rootKey.bytes) {
          FromRootIsView(h, s, role, after, Deliver(s, p, clock, now).state);
        }
      } else {
        UnreadableLeaves(s, p, clock, now);
      }
    } else {
      UnreadableLeaves(s, p, clock, now);
    }
  }

  lemma {:induction false} ReceptionKeepsPrivate(
    h: History, s: State, p: Packet, clock: nat -> nat, now: Instants, setup: Setup)
    requires PrivateView(s, h, setup)
    ensures PrivateView(Deliver(s, p, clock, now).state, h, setup)
  {
    hide Settle, Stage, Walk, StageMissing;
  }

  // Sending and reloading

  // The sender itself: the committed root key moves on, the purported one does not.
  lemma {:induction false} SendLeavesSender(h: History, s: State, purported: Purported, keypair: nat, t: State)
    requires PartyInv(h, s.role, s) && !CounterIsFull(s) && PurportedView(purported, s, s.role, h)
    requires AfterSend(h, s, keypair).WellLinked() && Grows(h, AfterSend(h, s, keypair))
    requires PartyView(t, s.role, AfterSend(h, s, keypair)) && !t.ratchetFlag && t.receiveNumber == s.receiveNumber
    ensures PurportedView(purported, t, s.role, AfterSend(h, s, keypair))
  {
    hide Sound, SendView, ReceiveView;
    RootEpoch(h, s, s.role);
    RootEpoch(AfterSend(h, s, keypair), t, s.role);
  }

  lemma {:induction false} SendLeavesPartner(h: History, s: State, keypair: nat, t: State, purported: Purported)
    requires PartyInv(h, s.role, s) && PartyInv(h, t.role, t) && t.role == Other(s.role) && !CounterIsFull(s)
    requires PurportedView(purported, t, t.role, h)
    ensures AfterSend(h, s, keypair).WellLinked() && PartyInv(AfterSend(h, s, keypair), t.role, t)
    ensures PurportedView(purported, t, t.role, AfterSend(h, s, keypair))
    ensures SendIndex(t.role, AfterSend(h, s, keypair).Top()) == SendIndex(t.role, h.Top())
  {
    hide Sound, SendView, ReceiveView;
    PartyViewGrows(h, s, keypair, t);
    IndicesStay(h, s, keypair, t);
    AfterSendIsWellLinked(h, s, keypair);
  }

  lemma {:induction false} ReloadLeaves(h: History, s: State, role: Role, purported: Purported, any: Purported)
    requires PartyInv(h, role, s) && PurportedView(purported, s, role, h)
    ensures PartyInv(h, role, Reload(s, any))
    ensures PurportedView(RevivedSnapshot(Rested(s, purported)).purported, Reload(s, any), role, h)
    ensures Reload(s, any).ourPrivateEphemeral == s.ourPrivateEphemeral && Reload(s, any).role == s.role
    ensures Reload(s, any).ratchetFlag == s.ratchetFlag
  {
    hide Export, Import;
    ReloadKeepsView(h, s, role, any);
    ReloadIsAlike(s, any);
  }

  // A run

  // What an event leaves in the purported values of a party.
  function NextPurported(sys: System, e: Event, role: Role, purported: Purported): Purported {
    var s := sys.Party(role);
    match e
    case Sending(_, _, _, _) => purported
    case Delivery(receiver, index, clock, _) =>
      if receiver == role && index < |sys.From(Other(role)).wire|
      then PurportedAfter(s, purported, sys.From(Other(role)).wire[index], clock) else purported
    case Recombination(receiver, from, i, to, j, clock, _) =>
      if && receiver == role && i < |sys.From(from).wire| && j < |sys.From(to).wire|
         && CanRecombine(s, sys.From(from).wire[i], sys.From(to).wire[j])
      then PurportedAfter(s, purported, Splice(sys.From(from).wire[i], sys.From(to).wire[j]), clock) else purported
    case Injection(receiver, packet, clock, _) =>
      if receiver == role && IsForeign(MasterKey(sys), packet)
      then PurportedAfter(s, purported, packet, clock) else purported
    case Reloading(who, _) =>
      if who == role then RevivedSnapshot(Rested(s, purported)).purported else purported
  }

  function PurportedOf(setup: Setup, events: seq<Event>, role: Role): Purported
    requires ValidSetup(setup)
  {
    if events == [] then NOTHING_PURPORTED
    else
      var before := events[..|events| - 1];
      NextPurported(Run(Start(setup), before), events[|events| - 1], role, PurportedOf(setup, before, role))
  }

  // All of a party's ratchet after a run.
  function SnapshotOf(setup: Setup, events: seq<Event>, role: Role): Snapshot
    requires ValidSetup(setup)
  {
    Rested(Run(Start(setup), events).Party(role), PurportedOf(setup, events, role))
  }

  ghost predicate LeavesView(h: History, s: State, role: Role, purported: Purported, setup: Setup) {
    PartyInv(h, role, s) && PurportedView(purported, s, role, h) && PrivateView(s, h, setup)
  }

  lemma {:induction false} SendLeaves(sys: System, h: History, e: Event, role: Role, purported: Purported, setup: Setup)
    requires Inv(sys, h) && e.Sending? && LeavesView(h, sys.Party(role), role, purported, setup)
    ensures LeavesView(NextHistory(sys, h, e), Apply(sys, e).Party(role), role, purported, setup)
  {
    hide Send, Sound, SendView, ReceiveView, PurportedRoot, PurportedChain, DirectionInv;
    var s := sys.Party(e.sender);
    assert PartyInv(h, e.sender, s);
    if !CounterIsFull(s) {
      if e.sender == role {
        SendKeepsView(h, s, e.message, e.keypair, e.metadata);
        SendKeepsSound(s, e.message, e.keypair, e.metadata);
        AfterSendIsWellLinked(h, s, e.keypair);
        SendLeavesSender(h, s, purported, e.keypair, Send(s, e.message, e.keypair, e.metadata).0);
      } else {
        SendLeavesPartner(h, s, e.keypair, sys.Party(role), purported);
      }
    }
  }

  lemma {:induction false} ReceptionLeaves(
    h: History, s: State, role: Role, purported: Purported, p: Packet, clock: nat -> nat, now: Instants, setup: Setup)
    requires LeavesView(h, s, role, purported, setup) && PartyInv(h, role, Deliver(s, p, clock, now).state)
    ensures LeavesView(h, Deliver(s, p, clock, now).state, role, PurportedAfter(s, purported, p, clock), setup)
  {
    ReceptionLeavesView(h, s, role, purported, p, clock, now);
    ReceptionKeepsPrivate(h, s, p, clock, now, setup);
  }

  lemma {:induction false} ReloadingLeaves(
    h: History, s: State, role: Role, purported: Purported, any: Purported, setup: Setup)
    requires LeavesView(h, s, role, purported, setup)
    ensures LeavesView(h, Reload(s, any), role, RevivedSnapshot(Rested(s, purported)).purported, setup)
  {
    hide Reload, PurportedView;
    ReloadLeaves(h, s, role, purported, any);
  }

  lemma {:induction false} EventLeaves(
    sys: System, h: History, e: Event, role: Role, purported: Purported, setup: Setup)
    requires Inv(sys, h) && LeavesView(h, sys.Party(role), role, purported, setup)
    ensures LeavesView(NextHistory(sys, h, e), Apply(sys, e).Party(role), role,
                       NextPurported(sys, e, role, purported), setup)
  {
    hide Send, Deliver, Reload, PurportedAfter, PurportedView, PrivateView, Inv, PartyInv, AfterSend, IsForeign,
      MasterKey;
    var g := ApplyKeepsInv(sys, h, e);
    var s, t := sys.Party(role), Apply(sys, e).Party(role);
    InvGivesParty(Apply(sys, e), g, role);
    match e {
      case Sending(_, _, _, _) => SendLeaves(sys, h, e, role, purported, setup);
      case Delivery(receiver, index, clock, now) =>
        if receiver == role && index < |sys.From(Other(role)).wire| {
          ReceptionLeaves(h, s, role, purported, sys.From(Other(role)).wire[index], clock, now, setup);
        }
      case Recombination(receiver, from, i, to, j, clock, now) =>
        if && receiver == role && i < |sys.From(from).wire| && j < |sys.From(to).wire|
           && CanRecombine(s, sys.From(from).wire[i], sys.From(to).wire[j]) {
          ReceptionLeaves(h, s, role, purported, Splice(sys.From(from).wire[i], sys.From(to).wire[j]), clock, now,
            setup);
        }
      case Injection(receiver, packet, clock, now) =>
        if receiver == role && IsForeign(MasterKey(sys), packet) {
          ReceptionLeaves(h, s, role, purported, packet, clock, now, setup);
        }
      case Reloading(who, any) =>
        if who == role {
          ReloadingLeaves(h, s, role, purported, any, setup);
        }
    }
  }

  lemma {:induction false} StartLeaves(setup: Setup, role: Role)
    requires ValidSetup(setup)
    ensures LeavesView(FirstHistory(setup), Start(setup).Party(role), role, NOTHING_PURPORTED, setup)
  {
    hide Sound, SendView, ReceiveView, Inv;
    StartInv(setup);
    InvGivesParty(Start(setup), FirstHistory(setup), role);
  }

  // After every run.
  lemma {:induction false} RunLeaves(setup: Setup, events: seq<Event>, role: Role)
    requires ValidSetup(setup)
    ensures var h := HistoryOf(setup, events);
            && Inv(Run(Start(setup), events), h)
            && LeavesView(h, Run(Start(setup), events).Party(role), role, PurportedOf(setup, events, role), setup)
  {
    hide Inv, Apply, NextPurported, NextHistory, LeavesView;
    var h := RunKeepsInv(setup, events);
    if events == [] {
      StartLeaves(setup, role);
    } else {
      var before := events[..|events| - 1];
      RunLeaves(setup, before, role);
      EventLeaves(Run(Start(setup), before), HistoryOf(setup, before), events[|events| - 1], role,
                  PurportedOf(setup, before, role), setup);
    }
  }
}
