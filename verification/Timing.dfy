// Under a clock that does not run backwards, no freshly staged key is thrown away.
module Timing {
  import opened Keys
  import opened KeyDerivation
  import opened KeyStore
  import opened RatchetState
  import opened Results
  import opened Soundness
  import opened TwoPhase
  import opened Persistence
  import opened History
  import opened Protocol
  import opened Steps
  import opened Splicing
  import opened Guarantees

  // Readings of one reception: they do not run backwards, and a key staged at the first of them
  // has not reached its age limit at the last.
  ghost predicate Timely(clock: nat -> nat, now: Instants) {
    && NonDecreasing(clock)
    && (forall i: nat :: clock(i) <= now.merged)
    && now.merged <= now.trimmed < clock(0) + EXPIRATION_TIME + MAXIMUM_AGE
  }

  ghost predicate DatedBy(s: seq<Entry>, date: nat) {
    forall e :: e in s ==> e.expiration <= date + EXPIRATION_TIME
  }

  // All receptions of a run are timely, follow each other in time, and end by `until`.
  ghost predicate TimelyRun(events: seq<Event>, until: nat) {
    if events == [] then true
    else
      match events[|events| - 1]
      case Delivery(_, _, clock, now) =>
        Timely(clock, now) && now.trimmed <= until && TimelyRun(events[..|events| - 1], clock(0))
      case Recombination(_, _, _, _, _, clock, now) =>
        Timely(clock, now) && now.trimmed <= until && TimelyRun(events[..|events| - 1], clock(0))
      case _ => TimelyRun(events[..|events| - 1], until)
  }

  ghost predicate StagedTimely(staged: seq<Entry>, clock: nat -> nat, now: Instants) {
    && IsStore(staged)
    && forall i :: 0 <= i < |staged| ==>
         clock(0) + EXPIRATION_TIME <= staged[i].expiration <= now.merged + EXPIRATION_TIME
  }

  lemma {:induction false} StageIsTimely(
    staged: seq<Entry>, headerKey: EmptyableKey, chain: Key, count: nat, clock: nat -> nat, now: Instants)
    requires Timely(clock, now) && StagedTimely(staged, clock, now)
    requires staged != [] ==> staged[|staged| - 1].expiration <= clock(|staged|) + EXPIRATION_TIME
    requires |staged| + count <= MAXIMUM_KEYS
    ensures var t := Stage(staged, headerKey, chain, count, clock);
            && StagedTimely(t, clock, now)
            && |t| == |staged| + count
            && (t != [] ==> t[|t| - 1].expiration <= clock(|t|) + EXPIRATION_TIME)
  {
    StageIsStore(staged, headerKey, chain, count, clock);
    StagesInOrder(staged, headerKey, chain, count, clock);
    var added := InOrder(headerKey, chain, count, |staged|, clock);
    forall i | 0 <= i < |staged| + count
      ensures clock(0) + EXPIRATION_TIME <= (staged + added)[i].expiration <= now.merged + EXPIRATION_TIME
    {
      if i >= |staged| {
        InOrderAt(headerKey, chain, count, |staged|, clock, i - |staged|);
        assert clock(0) <= clock(i);
        assert (staged + added)[i] == added[i - |staged|];
      }
    }
    if count > 0 {
      assert clock(|staged| + count - 1) <= clock(|staged| + count);
    }
  }

  lemma {:induction false} MissingIsTimely(s: State, header: Header, clock: nat -> nat, now: Instants)
    requires Timely(clock, now) && header.Header?
    requires !s.receiveChainKey.IsNone() ==> !TooManySkipped(s.receiveNumber, header.previous)
    ensures var t := StageMissing(s, header, clock);
            && StagedTimely(t, clock, now) && |t| <= MAXIMUM_SKIPPED_MESSAGES
            && (t != [] ==> t[|t| - 1].expiration <= clock(|t|) + EXPIRATION_TIME)
  {
    if !s.receiveChainKey.IsNone() {
      StageIsTimely([], s.receiveHeaderKey, s.receiveChainKey.bytes, Gap(s.receiveNumber, header.previous), clock, now);
    }
  }

  // What was dropped was stored before, as the oldest entries. When keys were staged, the
  // others stay in front of them.
  ghost predicate OnlyOldOnesDropped(s: State, p: Packet, o: Outcome) {
    && o.dropped <= s.skipped
    && (FindKey(s.skipped, p) == |s.skipped| ==> s.skipped[|o.dropped|..] <= o.state.skipped)
  }

  lemma {:induction false} CommitIsTimely(s: State, p: Packet, staged: seq<Entry>, clock: nat -> nat, now: Instants)
    requires p.Packet? && p.header.Header?
    requires IsStore(s.skipped) && Timely(clock, now) && StagedTimely(staged, clock, now)
             && DatedBy(s.skipped, clock(0))
    ensures OnlyOldOnesDropped(s, p, Accept(s, p, staged, now))
    ensures DatedBy(Accept(s, p, staged, now).state.skipped, now.trimmed)
  {
    forall i, j | 0 <= i < |s.skipped| && 0 <= j < |staged|
      ensures s.skipped[i].expiration <= staged[j].expiration
    {
      assert s.skipped[i] in s.skipped;
    }
    StagedKeysSurvive(s.skipped, staged, now);
    assert clock(0) <= now.merged;
  }

  ghost predicate KeepsDates(s: State, p: Packet, o: Outcome, now: Instants) {
    OnlyOldOnesDropped(s, p, o) && DatedBy(o.state.skipped, now.trimmed)
  }

  lemma {:induction false} CurrentIsTimely(s: State, p: Packet, clock: nat -> nat, now: Instants)
    requires Sound(s) && Timely(clock, now) && DatedBy(s.skipped, clock(0))
    requires p.Packet? && DeliverCurrent(s, p, clock, now).result.Ok?
    ensures KeepsDates(s, p, DeliverCurrent(s, p, clock, now), now)
  {
    var gap := Gap(s.receiveNumber, p.header.number);
    StageIsTimely([], s.receiveHeaderKey, s.receiveChainKey.bytes, gap, clock, now);
    CommitIsTimely(s, p, Stage([], s.receiveHeaderKey, s.receiveChainKey.bytes, gap, clock), clock, now);
  }

  lemma {:induction false} NextIsTimely(s: State, p: Packet, clock: nat -> nat, now: Instants)
    requires Sound(s) && Timely(clock, now) && DatedBy(s.skipped, clock(0))
    requires p.Packet? && DeliverNext(s, p, clock, now).result.Ok?
    ensures KeepsDates(s, p, DeliverNext(s, p, clock, now), now)
  {
    var chain := DeriveRootNextHeaderAndChainKeys(
      s.ourPrivateEphemeral, s.ourEphemeral, p.header.ephemeral, s.rootKey, s.role).value.chainKey;
    MissingIsTimely(s, p.header, clock, now);
    StageIsTimely(StageMissing(s, p.header, clock), s.nextReceiveHeaderKey, chain, p.header.number, clock, now);
    CommitIsTimely(s, p, StageBoth(s, p.header, chain, clock), clock, now);
  }

  lemma {:induction false} StoredIsTimely(s: State, p: Packet, clock: nat -> nat, now: Instants)
    requires Timely(clock, now) && DatedBy(s.skipped, clock(0))
    requires FindKey(s.skipped, p) < |s.skipped|
    ensures KeepsDates(s, p, Deliver(s, p, clock, now), now)
  {
    assert clock(0) <= now.merged;
    RemoveAtKeepsOrder(s.skipped, FindKey(s.skipped, p));
  }

  lemma {:induction false} DeliveryIsTimely(s: State, p: Packet, clock: nat -> nat, now: Instants)
    requires Sound(s) && Timely(clock, now) && DatedBy(s.skipped, clock(0))
    ensures KeepsDates(s, p, Deliver(s, p, clock, now), now)
  {
    assert clock(0) <= now.merged;
    if FindKey(s.skipped, p) < |s.skipped| {
      StoredIsTimely(s, p, clock, now);
    } else if Deliver(s, p, clock, now).result.Err? {
      assert Deliver(s, p, clock, now).dropped == [] && Deliver(s, p, clock, now).state == s;
    } else if OpensHeader(s.receiveHeaderKey, p) {
      CurrentIsTimely(s, p, clock, now);
    } else {
      NextIsTimely(s, p, clock, now);
    }
  }

  lemma {:induction false} SendKeepsStore(s: State, message: Message, keypair: nat, metadata: Option<PrekeyMetadata>)
    ensures Send(s, message, keypair, metadata).0.skipped == s.skipped
  {
  }

  lemma {:induction false} ReloadingKeepsStore(sys: System, h: History, role: Role, purported: Purported)
    requires Inv(sys, h)
    ensures Reload(sys.Party(role), purported).skipped == sys.Party(role).skipped
  {
    assert PartyInv(h, role, sys.Party(role));
    ReloadKeepsView(h, sys.Party(role), role, purported);
  }

  // The events that can change a party's store.
  predicate IsReception(e: Event, role: Role) {
    (e.Delivery? || e.Recombination?) && e.receiver == role
  }

  // Events other than receptions leave the stores alone.
  lemma {:induction false} StoreUnchanged(sys: System, h: History, e: Event, role: Role)
    requires Inv(sys, h) && !IsReception(e, role)
    ensures Apply(sys, e).Party(role).skipped == sys.Party(role).skipped
  {
    hide Send, Deliver, Reload, Inv, IsForeign, MasterKey;
    match e {
      case Sending(sender, message, keypair, metadata) =>
        SendKeepsStore(sys.Party(sender), message, keypair, metadata);
      case Delivery(_, _, _, _) =>
      case Recombination(_, _, _, _, _, _, _) =>
      case Injection(receiver, packet, clock, now) =>
        if receiver == role && IsForeign(MasterKey(sys), packet) {
          InjectionChangesNothing(sys, h, role, packet, clock, now);
        }
      case Reloading(who, purported) =>
        if who == role {
          ReloadingKeepsStore(sys, h, role, purported);
        }
    }
  }

  lemma {:induction false} DatedLater(s: seq<Entry>, clock: nat -> nat, now: Instants)
    requires Timely(clock, now) && DatedBy(s, clock(0))
    ensures DatedBy(s, now.trimmed)
  {
    assert clock(0) <= now.merged;
  }

  lemma {:induction false} ReceptionIsDated(sys: System, h: History, e: Event, role: Role)
    requires Inv(sys, h) && IsReception(e, role) && Timely(e.clock, e.now)
    requires DatedBy(sys.Party(role).skipped, e.clock(0))
    ensures DatedBy(Apply(sys, e).Party(role).skipped, e.now.trimmed)
  {
    hide Deliver, Inv, Sound, PartyView, DirectionInv, Timely, DatedBy;
    var s := sys.Party(role);
    InvGivesParty(sys, h, role);
    DatedLater(s.skipped, e.clock, e.now);
    match e {
      case Delivery(_, index, clock, now) =>
        if index < |sys.From(Other(role)).wire| {
          DeliveryIsTimely(s, SentTo(sys, role, index), clock, now);
        }
      case Recombination(_, from, i, to, j, clock, now) =>
        if && i < |sys.From(from).wire| && j < |sys.From(to).wire|
           && CanRecombine(s, sys.From(from).wire[i], sys.From(to).wire[j]) {
          RecombinationIsDelivery(sys, h, role, from, i, to, j, clock, now);
          DeliveryIsTimely(s, sys.From(to).wire[j], clock, now);
        }
    }
  }

  lemma {:induction false} StoresAreDated(setup: Setup, events: seq<Event>, until: nat, role: Role)
    requires ValidSetup(setup) && TimelyRun(events, until)
    ensures DatedBy(Run(Start(setup), events).Party(role).skipped, until)
    decreases |events|
  {
    if events == [] {
    } else {
      hide Apply, Inv, NonDecreasing;
      var before, last := events[..|events| - 1], events[|events| - 1];
      var sys := Run(Start(setup), before);
      var h := RunKeepsInv(setup, before);
      if last.Delivery? || last.Recombination? {
        StoresAreDated(setup, before, last.clock(0), role);
        assert last.clock(0) <= last.now.merged;
      } else {
        StoresAreDated(setup, before, until, role);
      }
      if IsReception(last, role) {
        ReceptionIsDated(sys, h, last, role);
      } else {
        StoreUnchanged(sys, h, last, role);
      }
    }
  }

  // In a timely run a reception throws away only keys that were stored by earlier receptions:
  // everything it stages itself is kept.
  lemma {:induction false} FreshKeysAreKept(
    setup: Setup, events: seq<Event>, receiver: Role, index: nat, clock: nat -> nat, now: Instants)
    requires ValidSetup(setup)
    requires TimelyRun(events, clock(0)) && Timely(clock, now)
    requires index < |Run(Start(setup), events).From(Other(receiver)).wire|
    ensures var sys := Run(Start(setup), events);
            var s := sys.Party(receiver);
            OnlyOldOnesDropped(s, SentTo(sys, receiver, index), Deliver(s, SentTo(sys, receiver, index), clock, now))
  {
    var h := RunKeepsInv(setup, events);
    var sys := Run(Start(setup), events);
    assert PartyInv(h, receiver, sys.Party(receiver));
    StoresAreDated(setup, events, clock(0), receiver);
    DeliveryIsTimely(sys.Party(receiver), SentTo(sys, receiver, index), clock, now);
  }

  // Where the dates come from

  // A date is a month past a reading of the given clock.
  ghost predicate IsReading(clock: nat -> nat, date: nat) {
    exists i: nat :: date == clock(i) + MONTH
  }

  lemma {:induction false} FreshAtReading(headerKey: EmptyableKey, messageKey: Key, clock: nat -> nat, i: nat)
    ensures IsReading(clock, FreshEntry(headerKey, messageKey, clock(i)).expiration)
  {
  }

  lemma {:induction false} StagedAtReading(
    staged: seq<Entry>, headerKey: EmptyableKey, chain: Key, count: nat, clock: nat -> nat, e: Entry)
    requires IsStore(staged) && |staged| + count <= MAXIMUM_KEYS
    requires e in Stage(staged, headerKey, chain, count, clock)
    ensures e in staged || IsReading(clock, e.expiration)
    decreases count
  {
    hide Insert, IsStore, MessageKeyAt, FreshEntry, IsReading;
    if count == 0 {
      assert Stage(staged, headerKey, chain, 0, clock) == staged;
    } else {
      hide Stage;
      var before := Stage(staged, headerKey, chain, count - 1, clock);
      var added := FreshEntry(headerKey, MessageKeyAt(chain, count - 1), clock(|before|));
      StageInserts(staged, headerKey, chain, count - 1, clock);
      InsertMember(before, added, e);
      if e == added {
        FreshAtReading(headerKey, MessageKeyAt(chain, count - 1), clock, |before|);
      } else {
        StagedAtReading(staged, headerKey, chain, count - 1, clock, e);
      }
    }
  }

  lemma {:induction false} NextStagedAtReading(s: State, header: Header, chain: Key, clock: nat -> nat, e: Entry)
    requires Sound(s) && header.Header? && !TooManySkipped(0, header.number)
    requires !s.receiveChainKey.IsNone() ==> !TooManySkipped(s.receiveNumber, header.previous)
    requires e in StageBoth(s, header, chain, clock)
    ensures IsReading(clock, e.expiration)
  {
    StagingMissingFits(s, header, clock);
    StagedAtReading(StageMissing(s, header, clock), s.nextReceiveHeaderKey, chain, header.number, clock, e);
    if e in StageMissing(s, header, clock) {
      StagedAtReading([], s.receiveHeaderKey, s.receiveChainKey.bytes, Gap(s.receiveNumber, header.previous), clock, e);
    }
  }

  // A delivery stores nothing but what it stages, each key dated a month past its own reading.
  lemma {:induction false} DeliveryDates(s: State, p: Packet, clock: nat -> nat, now: Instants, e: Entry)
    requires Sound(s) && e in Deliver(s, p, clock, now).state.skipped
    ensures e in s.skipped || IsReading(clock, e.expiration)
  {
    if e !in s.skipped {
      if FindKey(s.skipped, p) < |s.skipped| {
        RemoveAtKeepsOrder(s.skipped, FindKey(s.skipped, p));
      } else if OpensHeader(s.receiveHeaderKey, p) {
        var gap := Gap(s.receiveNumber, p.header.number);
        StagingCurrentFits(s, p.header.number, clock);
        SettleMember(s.skipped, Stage([], s.receiveHeaderKey, s.receiveChainKey.bytes, gap, clock), now, e);
        StagedAtReading([], s.receiveHeaderKey, s.receiveChainKey.bytes, gap, clock, e);
      } else {
        var chain := DeriveRootNextHeaderAndChainKeys(
          s.ourPrivateEphemeral, s.ourEphemeral, p.header.ephemeral, s.rootKey, s.role).value.chainKey;
        SettleMember(s.skipped, StageBoth(s, p.header, chain, clock), now, e);
        NextStagedAtReading(s, p.header, chain, clock, e);
      }
    }
  }

  // The date is a month past a reading of one of the party's receptions.
  ghost predicate IsRunReading(events: seq<Event>, role: Role, date: nat) {
    exists k :: 0 <= k < |events| && IsReception(events[k], role) && IsReading(events[k].clock, date)
  }

  lemma {:induction false} ReceptionDates(sys: System, h: History, e: Event, role: Role, entry: Entry)
    requires Inv(sys, h) && entry in Apply(sys, e).Party(role).skipped
    ensures entry in sys.Party(role).skipped || (IsReception(e, role) && IsReading(e.clock, entry.expiration))
  {
    hide Deliver, CanRecombine, Inv, IsReading;
    var s := sys.Party(role);
    InvGivesParty(sys, h, role);
    if !IsReception(e, role) {
      StoreUnchanged(sys, h, e, role);
    } else {
      match e {
        case Delivery(_, index, clock, now) =>
          if index < |sys.From(Other(role)).wire| {
            DeliveryDates(s, SentTo(sys, role, index), clock, now, entry);
          }
        case Recombination(_, from, i, to, j, clock, now) =>
          if && i < |sys.From(from).wire| && j < |sys.From(to).wire|
             && CanRecombine(s, sys.From(from).wire[i], sys.From(to).wire[j]) {
            RecombinationIsDelivery(sys, h, role, from, i, to, j, clock, now);
            if entry !in s.skipped {
              DeliveryDates(s, sys.From(to).wire[j], clock, now, entry);
            }
          }
      }
    }
  }

  lemma {:induction false} StoredWereStaged(setup: Setup, events: seq<Event>, role: Role, e: Entry)
    requires ValidSetup(setup) && e in Run(Start(setup), events).Party(role).skipped
    ensures IsRunReading(events, role, e.expiration)
  {
    if events == [] {
    } else {
      hide Apply, Inv, IsReading;
      var before, last := events[..|events| - 1], events[|events| - 1];
      var h := RunKeepsInv(setup, before);
      ReceptionDates(Run(Start(setup), before), h, last, role, e);
      if e in Run(Start(setup), before).Party(role).skipped {
        StoredWereStaged(setup, before, role, e);
        var k :| 0 <= k < |before| && IsReception(before[k], role) && IsReading(before[k].clock, e.expiration);
        assert events[k] == before[k];
      }
    }
  }

  // After any run and one more acceptance that no stored key opened, under any clocks: each key
  // in the store was staged at a reading of a reception, less than two months before both
  // readings of this commit.
  lemma {:induction false} OldKeysAreGone(
    setup: Setup, events: seq<Event>, receiver: Role, index: nat, clock: nat -> nat, now: Instants, e: Entry)
    requires ValidSetup(setup) && index < |Run(Start(setup), events).From(Other(receiver)).wire|
    requires var sys := Run(Start(setup), events);
             var s, p := sys.Party(receiver), SentTo(sys, receiver, index);
             && FindKey(s.skipped, p) == |s.skipped| && Deliver(s, p, clock, now).result.Ok?
             && e in Deliver(s, p, clock, now).state.skipped
    ensures IsRunReading(events + [Delivery(receiver, index, clock, now)], receiver, e.expiration)
    ensures now.merged < e.expiration + MONTH && now.trimmed < e.expiration + MONTH
  {
    hide Deliver, Start, IsReading;
    var more := events + [Delivery(receiver, index, clock, now)];
    assert more[..|events|] == events;
    var h := RunKeepsInv(setup, events);
    var sys := Run(Start(setup), events);
    InvGivesParty(sys, h, receiver);
    AcceptanceLeavesFresh(sys.Party(receiver), SentTo(sys, receiver, index), clock, now, e);
    StoredWereStaged(setup, more, receiver, e);
  }
}
