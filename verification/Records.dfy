// What a record says about the conversation: every field of an exported ratchet in terms of the
// common history, and what a record with such fields is imported to.
module Records {
  import opened Keys
  import opened KeyDerivation
  import opened KeyStore
  import opened RatchetState
  import opened Results
  import opened Soundness
  import opened TwoPhase
  import opened Persistence
  import opened History
  import opened Protocol
  import opened Steps
  import opened Growth
  import opened Guarantees
  import opened Timing

  // Identities and first ephemerals

  function OwnIdentity(setup: Setup, role: Role): nat {
    if role == Alice then setup.aliceIdentity else setup.bobIdentity
  }

  // What a state holds besides the view of the history: identities, Alice's first ephemeral until
  // a chain takes its place, and no private ephemeral once it has been used up.
  ghost predicate Belongs(s: State, role: Role, h: History, setup: Setup) {
    var c, r := SendIndex(role, h.Top()), ReceiveIndex(role, h.Top(), s.ratchetFlag);
    && s.ourIdentity == PublicKey(OwnIdentity(setup, role))
    && s.theirIdentity == PublicKey(OwnIdentity(setup, Other(role)))
    && (c < 0 ==> s.ourEphemeral == PublicKey(setup.aliceEphemeral)
                  && s.ourPrivateEphemeral == PrivateKey(setup.aliceEphemeral))
    && (c >= 0 && s.ratchetFlag ==> s.ourPrivateEphemeral == Erased)
    && (r < 0 ==> s.theirEphemeral == PublicKey(setup.aliceEphemeral))
  }

  // A delivery leaves all of that alone, or moves on to a new receive chain.
  lemma {:induction false} DeliveryKeepsRest(s: State, p: Packet, clock: nat -> nat, now: Instants)
    ensures var t := Deliver(s, p, clock, now).state;
            && t.ourIdentity == s.ourIdentity && t.theirIdentity == s.theirIdentity && t.ourEphemeral == s.ourEphemeral
            && (|| (&& t.ratchetFlag == s.ratchetFlag && t.theirEphemeral == s.theirEphemeral
                    && t.ourPrivateEphemeral == s.ourPrivateEphemeral)
                || (!s.ratchetFlag && t.ratchetFlag && t.ourPrivateEphemeral == Erased))
  {
    hide Settle, Discarded, Stage, StageBoth, Walk;
  }

  lemma {:induction false} DeliveryBelongs(
    h: History, s: State, role: Role, p: Packet, clock: nat -> nat, now: Instants, setup: Setup)
    requires PartyView(s, role, h) && Belongs(s, role, h, setup)
    requires PartyView(Deliver(s, p, clock, now).state, role, h)
    ensures Belongs(Deliver(s, p, clock, now).state, role, h, setup)
  {
    hide Deliver, ReceiveView;
    DeliveryKeepsRest(s, p, clock, now);
  }

  lemma {:induction false} SendKeepsRest(s: State, message: Message, keypair: nat, metadata: Option<PrekeyMetadata>)
    requires Sound(s)
    ensures var t := Send(s, message, keypair, metadata).0;
            && t.ourIdentity == s.ourIdentity && t.theirIdentity == s.theirIdentity
            && t.theirEphemeral == s.theirEphemeral && !t.ratchetFlag
  {
  }

  lemma {:induction false} SenderIndices(h: History, s: State, keypair: nat)
    requires PartyView(s, s.role, h)
    ensures var next := AfterSend(h, s, keypair).Top();
            SendIndex(s.role, next) >= 0
            && ReceiveIndex(s.role, next, false) == ReceiveIndex(s.role, h.Top(), s.ratchetFlag)
  {
  }

  lemma {:induction false} SendingBelongs(sys: System, h: History, e: Event, role: Role, setup: Setup)
    requires Inv(sys, h) && e.Sending? && Belongs(sys.Party(role), role, h, setup)
    ensures Belongs(Apply(sys, e).Party(role), role, NextHistory(sys, h, e), setup)
  {
    hide Send, Sound, SendView, ReceiveView, DirectionInv, Inv;
    var s, t := sys.Party(e.sender), sys.Party(role);
    InvGivesParty(sys, h, e.sender);
    InvGivesParty(sys, h, role);
    if !CounterIsFull(s) {
      SendKeepsView(h, s, e.message, e.keypair, e.metadata);
      if e.sender == role {
        SendKeepsRest(s, e.message, e.keypair, e.metadata);
        SenderIndices(h, s, e.keypair);
      } else {
        IndicesStay(h, s, e.keypair, t);
      }
    }
  }

  lemma {:induction false} ReloadBelongs(h: History, s: State, role: Role, any: Purported, setup: Setup)
    requires PartyInv(h, role, s) && Belongs(s, role, h, setup)
    ensures Belongs(Reload(s, any), role, h, setup)
  {
    hide Reload, Sound;
    ReloadIsAlike(s, any);
  }

  lemma {:induction false} EventBelongs(sys: System, h: History, e: Event, role: Role, setup: Setup)
    requires Inv(sys, h) && Belongs(sys.Party(role), role, h, setup)
    ensures Belongs(Apply(sys, e).Party(role), role, NextHistory(sys, h, e), setup)
  {
    hide Send, Deliver, Reload, Inv, AfterSend, IsForeign, MasterKey, Belongs;
    var g := ApplyKeepsInv(sys, h, e);
    var s := sys.Party(role);
    InvGivesParty(sys, h, role);
    InvGivesParty(Apply(sys, e), g, role);
    match e {
      case Sending(_, _, _, _) => SendingBelongs(sys, h, e, role, setup);
      case Delivery(receiver, index, clock, now) =>
        if receiver == role && index < |sys.From(Other(role)).wire| {
          DeliveryBelongs(h, s, role, sys.From(Other(role)).wire[index], clock, now, setup);
        }
      case Recombination(receiver, from, i, to, j, clock, now) =>
        if && receiver == role && i < |sys.From(from).wire| && j < |sys.From(to).wire|
           && CanRecombine(s, sys.From(from).wire[i], sys.From(to).wire[j]) {
          DeliveryBelongs(h, s, role, Splice(sys.From(from).wire[i], sys.From(to).wire[j]), clock, now, setup);
        }
      case Injection(receiver, packet, clock, now) =>
        if receiver == role && IsForeign(MasterKey(sys), packet) {
          DeliveryBelongs(h, s, role, packet, clock, now, setup);
        }
      case Reloading(who, any) =>
        if who == role {
          ReloadBelongs(h, s, role, any, setup);
        }
    }
  }

  lemma {:induction false} RunBelongs(setup: Setup, events: seq<Event>, role: Role)
    requires ValidSetup(setup)
    ensures Belongs(Run(Start(setup), events).Party(role), role, HistoryOf(setup, events), setup)
  {
    if events == [] {
    } else {
      hide Inv, Apply, NextHistory, Belongs;
      var before := events[..|events| - 1];
      RunBelongs(setup, before, role);
      var h := RunKeepsInv(setup, before);
      EventBelongs(Run(Start(setup), before), h, events[|events| - 1], role, setup);
    }
  }

  // A record as a view of the history

  function KeyOrZero(present: bool, key: Key): Key {
    if present then key else Zero
  }

  ghost predicate RecordSends(r: Record, h: History, setup: Setup, flag: bool, c: int)
    requires h.WellLinked() && -1 <= c <= h.Top()
  {
    && r.nextSendHeaderKey == Some(h.HeaderKey(c + 2))
    && r.previousNumber == Some(h.Previous(c))
    && r.sendHeaderKey == (if c < 0 then None else Some(h.HeaderKey(c)))
    && r.sendChainKey == Some(if c < 0 then Zero else Walk(h.ChainKey(c), h.sent[c]))
    && r.sendNumber == Some(if c < 0 then 0 else h.sent[c])
    && r.ourEphemeral == Some(PublicKey(if c < 0 then setup.aliceEphemeral else h.eph[c]))
    && r.ourPrivateEphemeral == Some(if c < 0 then PrivateKey(setup.aliceEphemeral)
                                     else if flag then Erased else PrivateKey(h.eph[c]))
  }

  ghost predicate RecordReceives(r: Record, h: History, setup: Setup, c: int)
    requires h.WellLinked() && -1 <= c <= h.Top()
  {
    && r.nextReceiveHeaderKey == Some(h.HeaderKey(c + 2))
    && r.receiveHeaderKey == Some(if c < 0 then Zero else h.HeaderKey(c))
    && r.receiveNumber.Some? && (if c < 0 then r.receiveNumber.value == 0 else r.receiveNumber.value <= h.sent[c])
    && r.receiveChainKey == Some(if c < 0 then Zero else Walk(h.ChainKey(c), r.receiveNumber.value))
    && r.theirEphemeral == Some(PublicKey(if c < 0 then setup.aliceEphemeral else h.eph[c]))
  }

  // A stored message key, under the header key of its chain.
  ghost predicate BundleView(b: Bundle, h: History)
    requires h.WellLinked()
  {
    && b.headerKey.Some? && b.messageKey.Some? && b.expiration.Some?
    && var j := Epoch(b.messageKey.value);
       && j <= h.Top()
       && b.messageKey.value == MessageKeyAt(h.ChainKey(j), Position(b.messageKey.value))
       && b.headerKey.value == h.HeaderKey(j)
  }

  ghost predicate BundlesView(b: seq<Bundle>, h: History)
    requires h.WellLinked()
  {
    && |b| <= MAXIMUM_KEYS
    && (forall i :: 0 <= i < |b| ==> BundleView(b[i], h))
    && (forall i, j :: 0 <= i < j < |b| ==> b[i].expiration.value <= b[j].expiration.value)
  }

  ghost predicate RecordView(r: Record, role: Role, h: History, setup: Setup) {
    && h.WellLinked()
    && r.amIAlice == Some(role == Alice)
    && r.ourIdentity == Some(PublicKey(OwnIdentity(setup, role)))
    && r.theirIdentity == Some(PublicKey(OwnIdentity(setup, Other(role))))
    && BundlesView(r.skipped, h)
    && r.ratchetFlag.Some? && (r.ratchetFlag.value ==> h.Top() % 2 != Parity(role))
    && var c, n := SendIndex(role, h.Top()), ReceiveIndex(role, h.Top(), r.ratchetFlag.value);
       && -1 <= c && -1 <= n
       && (!r.ratchetFlag.value ==> c >= 0) && (c < 0 ==> role == Alice)
       && (n < 0 ==> role == Bob && !r.ratchetFlag.value)
       && r.rootKey == Some(h.RootKey(if c > n then c else n))
       && RecordSends(r, h, setup, r.ratchetFlag.value, c)
       && RecordReceives(r, h, setup, n)
  }

  // Exporting

  lemma {:induction false} ExportedBundle(h: History, d: Direction, s: State, e: Entry)
    requires PartyView(s, s.role, h) && DirectionInv(h, Other(s.role), d, s) && e in s.skipped
    ensures BundleView(ExportEntry(e), h)
  {
    var key := e.messageKey;
    assert StoredKey(e, h);
    CopiesMember(s.skipped, key);
    assert Balanced(h, d, s, key);
    PassedMeaning(h, ReceiveIndex(s.role, h.Top(), s.ratchetFlag), s.receiveNumber, key);
  }

  lemma {:induction false} ExportedBundles(h: History, d: Direction, s: State)
    requires PartyView(s, s.role, h) && DirectionInv(h, Other(s.role), d, s) && IsStore(s.skipped)
    ensures BundlesView(ExportEntries(s.skipped), h)
  {
    hide BundleView, SendView, ReceiveView, DirectionInv;
    var b := ExportEntries(s.skipped);
    forall i | 0 <= i < |b|
      ensures BundleView(b[i], h)
    {
      ExportedBundle(h, d, s, s.skipped[i]);
    }
  }

  // Absent keys are exported as zero bytes.
  lemma {:induction false} ExportedSends(h: History, s: State, role: Role, purported: Purported, setup: Setup)
    requires PartyInv(h, role, s) && Belongs(s, role, h, setup)
    ensures var r := Export(Rested(s, purported));
            r.Ok? && RecordSends(r.value, h, setup, s.ratchetFlag, SendIndex(role, h.Top()))
  {
    hide ReceiveView, ExportEntries;
  }

  lemma {:induction false} ExportedReceives(h: History, s: State, role: Role, purported: Purported, setup: Setup)
    requires PartyInv(h, role, s) && Belongs(s, role, h, setup)
    ensures var r := Export(Rested(s, purported));
            r.Ok? && RecordReceives(r.value, h, setup, ReceiveIndex(role, h.Top(), s.ratchetFlag))
  {
    hide SendView, ExportEntries;
  }

  lemma {:induction false} ExportedRest(s: State, purported: Purported)
    requires Sound(s)
    ensures var r := Export(Rested(s, purported));
            && r.Ok?
            && r.value.rootKey == Some(s.rootKey.bytes) && r.value.amIAlice == Some(s.role == Alice)
            && r.value.ratchetFlag == Some(s.ratchetFlag)
            && r.value.ourIdentity == Some(s.ourIdentity) && r.value.theirIdentity == Some(s.theirIdentity)
            && r.value.skipped == ExportEntries(s.skipped) && r.value.staged == []
            && r.value.receivedValid == Some(true) && r.value.decryptable == Some(Listed(NotTried))
            && r.value.purportedNumber == Some(purported.number)
            && r.value.purportedPreviousNumber == Some(purported.previous)
  {
  }

  // The indices and flags that a party's view allows.
  lemma {:induction false} ViewIndices(h: History, s: State, role: Role)
    requires PartyInv(h, role, s)
    ensures var c, n := SendIndex(role, h.Top()), ReceiveIndex(role, h.Top(), s.ratchetFlag);
            && -1 <= c && -1 <= n && (!s.ratchetFlag ==> c >= 0) && (c < 0 ==> role == Alice)
            && (n < 0 ==> role == Bob && !s.ratchetFlag)
            && s.rootKey.bytes == h.RootKey(if c > n then c else n)
            && s.role == role && (s.ratchetFlag ==> h.Top() % 2 != Parity(role))
  {
  }

  lemma {:induction false} ExportedView(
    h: History, d: Direction, s: State, role: Role, purported: Purported, setup: Setup)
    requires PartyInv(h, role, s) && DirectionInv(h, Other(role), d, s) && Belongs(s, role, h, setup)
    ensures var r := Export(Rested(s, purported));
            r.Ok? && RecordView(r.value, role, h, setup)
  {
    hide Export, SendView, ReceiveView, RecordSends, RecordReceives, DirectionInv, BundlesView;
    ViewIndices(h, s, role);
    ExportedRest(s, purported);
    ExportedBundles(h, d, s);
    ExportedSends(h, s, role, purported, setup);
    ExportedReceives(h, s, role, purported, setup);
  }

  // After every run each party's record shows the common history, field by field, and the dates
  // of its stored keys are a month past readings of its receptions.
  lemma {:induction false} RecordShowsHistory(setup: Setup, events: seq<Event>, role: Role, purported: Purported)
    requires ValidSetup(setup)
    ensures var s := Run(Start(setup), events).Party(role);
            var r := Export(Rested(s, purported));
            && r.Ok? && RecordView(r.value, role, HistoryOf(setup, events), setup)
            && r.value.ratchetFlag == Some(s.ratchetFlag)
            && |r.value.skipped| == |s.skipped|
            && forall i :: 0 <= i < |r.value.skipped| ==>
                 IsRunReading(events, role, r.value.skipped[i].expiration.value)
  {
    hide Export, Run, Start, Inv, RecordView, DirectionInv, Belongs, IsRunReading, SendView, ReceiveView;
    var h := RunKeepsInv(setup, events);
    var sys := Run(Start(setup), events);
    var s := sys.Party(role);
    InvGivesParty(sys, h, role);
    RunBelongs(setup, events, role);
    ExportedView(h, sys.From(Other(role)), s, role, purported, setup);
    ExportedRest(s, purported);
    forall i | 0 <= i < |s.skipped|
      ensures IsRunReading(events, role, ExportEntries(s.skipped)[i].expiration.value)
    {
      StoredWereStaged(setup, events, role, s.skipped[i]);
    }
  }

  // Importing

  lemma {:induction false} ImportsEachBundle(b: seq<Bundle>)
    requires forall i :: 0 <= i < |b| ==> b[i].headerKey.Some? && b[i].messageKey.Some? && b[i].expiration.Some?
    ensures var r := ImportEntries(b);
            && r.Ok? && |r.value| == |b|
            && forall i :: 0 <= i < |b| ==>
                 r.value[i] == Entry(Present(b[i].headerKey.value), b[i].messageKey.value, b[i].expiration.value)
  {
    if b == [] {
    } else {
      ImportsEachBundle(b[..|b| - 1]);
    }
  }

  lemma {:induction false} ImportedStore(b: seq<Bundle>, h: History)
    requires h.WellLinked() && BundlesView(b, h)
    ensures var r := ImportEntries(b);
            && r.Ok? && IsStore(r.value) && StoreView(r.value, h)
            && |r.value| == |b|
            && forall i :: 0 <= i < |b| ==>
                 r.value[i].messageKey == b[i].messageKey.value && r.value[i].expiration == b[i].expiration.value
  {
    ImportsEachBundle(b);
    var entries := ImportEntries(b).value;
    forall e | e in entries
      ensures StoredKey(e, h)
    {
      var i :| 0 <= i < |entries| && entries[i] == e;
      assert BundleView(b[i], h);
    }
  }

  // A record that shows the history, and lacks none of the fields that say nothing about it.
  ghost predicate CompleteView(r: Record, role: Role, h: History, setup: Setup) {
    && RecordView(r, role, h, setup) && BundlesView(r.staged, h)
    && r.purportedNumber.Some? && r.purportedPreviousNumber.Some? && r.receivedValid.Some?
    && r.decryptable.Some? && r.decryptable.value.Listed?
  }

  lemma {:induction false} ViewIsComplete(r: Record, role: Role, h: History, setup: Setup)
    requires CompleteView(r, role, h, setup)
    ensures NumbersLack(r).None? && KeysLack(r, role).None? && RoleOf(r.amIAlice.value) == role
  {
    hide BundlesView;
  }

  lemma {:induction false} ImportedFields(r: Record, role: Role, h: History, setup: Setup)
    requires CompleteView(r, role, h, setup)
    ensures var x := Import(r);
            && x.Ok? && x.value.state.role == role && x.value.state.ratchetFlag == r.ratchetFlag.value
            && x.value.state.rootKey == Present(r.rootKey.value)
            && Ok(x.value.state.skipped) == ImportEntries(r.skipped)
            && Ok(x.value.staged) == ImportEntries(r.staged)
            && x.value.receivedValid == r.receivedValid.value && x.value.decryptable == r.decryptable.value.value
  {
    hide RecordSends, RecordReceives;
    ViewIsComplete(r, role, h, setup);
    ImportedStore(r.skipped, h);
    ImportedStore(r.staged, h);
  }

  lemma {:induction false} ImportedSends(r: Record, role: Role, h: History, setup: Setup)
    requires CompleteView(r, role, h, setup) && Import(r).Ok?
    ensures SendView(Import(r).value.state, h, SendIndex(role, h.Top()))
  {
    hide BundlesView, RecordReceives, ImportEntries;
  }

  lemma {:induction false} ImportedReceives(r: Record, role: Role, h: History, setup: Setup)
    requires CompleteView(r, role, h, setup) && Import(r).Ok?
    ensures ReceiveView(Import(r).value.state, h, ReceiveIndex(role, h.Top(), r.ratchetFlag.value))
  {
    hide BundlesView, RecordSends, ImportEntries;
  }

  lemma {:induction false} ImportedBelongs(r: Record, role: Role, h: History, setup: Setup)
    requires CompleteView(r, role, h, setup) && Import(r).Ok?
    ensures Belongs(Import(r).value.state, role, h, setup)
  {
    hide BundlesView, ImportEntries;
  }

  // Whoever wrote it: a record that shows the history is imported to a party of this history.
  lemma {:induction false} ImportGivesView(r: Record, role: Role, h: History, setup: Setup)
    requires CompleteView(r, role, h, setup)
    ensures var x := Import(r);
            && x.Ok?
            && PartyView(x.value.state, role, h) && Belongs(x.value.state, role, h, setup)
            && StoreView(x.value.state.skipped, h) && IsStore(x.value.state.skipped)
            && |x.value.state.skipped| == |r.skipped|
            && (forall i :: 0 <= i < |r.skipped| ==>
                  && x.value.state.skipped[i].messageKey == r.skipped[i].messageKey.value
                  && x.value.state.skipped[i].expiration == r.skipped[i].expiration.value)
            && x.value.receivedValid == r.receivedValid.value && x.value.decryptable == r.decryptable.value.value
  {
    hide Import, SendView, ReceiveView, RecordSends, RecordReceives, BundlesView, Belongs;
    ImportedFields(r, role, h, setup);
    ImportedStore(r.skipped, h);
    ImportedSends(r, role, h, setup);
    ImportedReceives(r, role, h, setup);
    ImportedBelongs(r, role, h, setup);
  }

  // In the middle of a reception

  // The purported values of a record that was written while the first packet of chain `c` waited
  // for its authentication.
  ghost predicate RecordPurports(r: Record, h: History, c: int)
    requires h.WellLinked() && 0 <= c <= h.Top()
  {
    && r.purportedRootKey == Some(h.RootKey(c))
    && r.purportedReceiveHeaderKey == Some(h.HeaderKey(c))
    && r.purportedNextReceiveHeaderKey == Some(h.HeaderKey(c + 2))
    && r.theirPurportedEphemeral == Some(PublicKey(h.eph[c]))
    && r.purportedNumber.Some? && r.purportedNumber.value < h.sent[c]
    && r.purportedReceiveChainKey == Some(Walk(h.ChainKey(c), r.purportedNumber.value + 1))
    && r.purportedPreviousNumber == Some(h.Previous(c))
    && r.receivedValid == Some(false) && r.decryptable == Some(Listed(NextDecryptable))
  }

  // The ratchet after the first phase of such a reception.
  function Waiting(s: State, purported: Purported, p: Packet, clock: nat -> nat): Snapshot
    requires p.Packet? && p.header.Header?
  {
    var plan := StageReceive(s, purported, [], NextDecryptable,
                             p.header.ephemeral, p.header.number, p.header.previous, clock);
    Snapshot(s, plan.purported, plan.staged, false, NextDecryptable)
  }

  lemma {:induction false} WaitingPurports(
    h: History, s: State, role: Role, purported: Purported, p: Packet, clock: nat -> nat)
    requires h.WellLinked() && IsNext(h, s, role, p)
    ensures var x, top := Waiting(s, purported, p, clock), h.Top();
            && x.purported == Purported(Present(h.RootKey(top)), s.nextReceiveHeaderKey, Present(h.HeaderKey(top + 2)),
                                        Present(Walk(h.ChainKey(top), p.header.number + 1)),
                                        Some(p.header.ephemeral), p.header.number, p.header.previous)
            && x.staged == StageBoth(s, p.header, h.ChainKey(top), clock)
  {
    hide Stage;
    ReceiverDerivesLink(h, s, role, p);
  }

  lemma {:induction false} WaitingBundle(
    h: History, s: State, role: Role, p: Packet, clock: nat -> nat, e: Entry)
    requires h.WellLinked() && IsNext(h, s, role, p)
    requires e in StageBoth(s, p.header, h.ChainKey(h.Top()), clock)
    ensures BundleView(ExportEntry(e), h)
  {
    hide Stage, StageBoth, SendView, ReceiveView;
    var key := e.messageKey;
    NextStagedKey(h, s, role, p, clock, e);
    CopiesMember(StageBoth(s, p.header, h.ChainKey(h.Top()), clock), key);
    BothAddUp(h, s, role, p, clock, key);
    PassedMeaning(h, h.Top(), p.header.number, key);
  }

  lemma {:induction false} WaitingBundles(
    h: History, s: State, role: Role, p: Packet, clock: nat -> nat)
    requires h.WellLinked() && IsNext(h, s, role, p) && Sound(s)
    ensures BundlesView(ExportEntries(StageBoth(s, p.header, h.ChainKey(h.Top()), clock)), h)
  {
    hide SendView, ReceiveView, StageBoth, Stage, BundleView;
    var staged := StageBoth(s, p.header, h.ChainKey(h.Top()), clock);
    StagingFits(s, p.header, h.ChainKey(h.Top()), clock);
    var b := ExportEntries(staged);
    forall i | 0 <= i < |b|
      ensures BundleView(b[i], h)
    {
      WaitingBundle(h, s, role, p, clock, staged[i]);
    }
  }

  lemma {:induction false} WaitingShape(s: State, purported: Purported, p: Packet, clock: nat -> nat)
    requires p.Packet? && p.header.Header?
    ensures var x := Waiting(s, purported, p, clock);
            x.state == s && !x.receivedValid && x.decryptable == NextDecryptable
  {
  }

  lemma {:induction false} WaitingHeader(h: History, s: State, role: Role, p: Packet)
    requires h.WellLinked() && IsNext(h, s, role, p)
    ensures s.nextReceiveHeaderKey == Present(h.HeaderKey(h.Top()))
    ensures p.header == Header(PublicKey(h.eph[h.Top()]), p.header.number, h.Previous(h.Top()))
    ensures p.header.number < h.sent[h.Top()]
  {
  }

  // What a record shows of the history does not depend on the purported values.
  lemma {:induction false} PurportedFieldsOnly(x: Snapshot, y: Snapshot, role: Role, h: History, setup: Setup)
    requires x.state == y.state && Export(x).Ok? && RecordView(Export(x).value, role, h, setup)
    ensures Export(y).Ok? && RecordView(Export(y).value, role, h, setup)
  {
    hide BundlesView;
  }

  // The record of a waiting ratchet shows the new chain in its purported fields.
  lemma {:induction false} WaitingRecord(
    h: History, d: Direction, s: State, role: Role, purported: Purported, p: Packet, clock: nat -> nat, setup: Setup)
    requires PartyInv(h, role, s) && DirectionInv(h, Other(role), d, s) && Belongs(s, role, h, setup)
    requires IsNext(h, s, role, p)
    ensures var r := Export(Waiting(s, purported, p, clock));
            r.Ok? && CompleteView(r.value, role, h, setup) && RecordPurports(r.value, h, h.Top())
  {
    hide RecordView, BundlesView, SendView, ReceiveView, Belongs, DirectionInv, Waiting;
    WaitingShape(s, purported, p, clock);
    WaitingPurports(h, s, role, purported, p, clock);
    WaitingBundles(h, s, role, p, clock);
    ExportedView(h, d, s, role, purported, setup);
    PurportedFieldsOnly(Rested(s, purported), Waiting(s, purported, p, clock), role, h, setup);
    WaitingHeader(h, s, role, p);
  }

  lemma {:induction false} ImportedPurported(r: Record, role: Role, h: History, setup: Setup)
    requires CompleteView(r, role, h, setup) && Import(r).Ok?
    ensures Import(r).value.purported
         == Purported(FromKey(r.purportedRootKey), FromKey(r.purportedReceiveHeaderKey),
                      FromKey(r.purportedNextReceiveHeaderKey), FromKey(r.purportedReceiveChainKey),
                      r.theirPurportedEphemeral, r.purportedNumber.value, r.purportedPreviousNumber.value)
  {
    hide RecordView, BundlesView, ImportEntries;
  }

  lemma {:induction false} CommitNext(
    h: History, role: Role, s: State, purported: Purported, staged: seq<Entry>, n: nat, now: Instants)
    requires PartyView(s, role, h) && !s.ratchetFlag && h.Top() % 2 != Parity(role) && n < h.sent[h.Top()]
    requires purported.rootKey == Present(h.RootKey(h.Top())) && purported.headerKey == Present(h.HeaderKey(h.Top()))
    requires purported.nextHeaderKey == Present(h.HeaderKey(h.Top() + 2))
    requires purported.chainKey == Present(Walk(h.ChainKey(h.Top()), n + 1))
    requires purported.ephemeral == Some(PublicKey(h.eph[h.Top()])) && purported.number == n
    ensures var (t, done) := Commit(s, purported, staged, NextDecryptable, now);
            done == Ok(()) && PartyView(t, role, h) && t.ratchetFlag && t.receiveNumber == n + 1
  {
    hide Settle;
    var t := Commit(s, purported, staged, NextDecryptable, now).0;
    assert SendView(t, h, h.Top() - 1);
    assert ReceiveView(t, h, h.Top());
  }

  // Whoever wrote it: importing such a record and accepting what it waits for leads to the same
  // place as a reception without interruption, a party on the new chain.
  lemma {:induction false} ImportThenCommit(r: Record, role: Role, h: History, setup: Setup, now: Instants)
    requires CompleteView(r, role, h, setup) && h.Top() % 2 != Parity(role) && r.ratchetFlag == Some(false)
    requires RecordPurports(r, h, h.Top())
    ensures var x := Import(r);
            && x.Ok? && !x.value.receivedValid && x.value.decryptable == NextDecryptable
            && var (t, done) := Commit(x.value.state, x.value.purported, x.value.staged, NextDecryptable, now);
               && done == Ok(()) && PartyView(t, role, h) && t.ratchetFlag
               && t.receiveNumber == r.purportedNumber.value + 1
  {
    hide BundlesView, Settle;
    ViewIsComplete(r, role, h, setup);
    ImportGivesView(r, role, h, setup);
    ImportedPurported(r, role, h, setup);
    var x := Import(r).value;
    CommitNext(h, role, x.state, x.purported, x.staged, r.purportedNumber.value, now);
  }
}
