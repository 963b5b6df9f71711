// Two parties, and a network that loses, reorders, repeats and injects packets. A run is any
// sequence of events; the invariant ties both parties to one common history.
module Protocol {
  import opened Keys
  import opened KeyDerivation
  import opened KeyStore
  import opened RatchetState
  import opened Results
  import opened Soundness
  import opened TwoPhase
  import opened Persistence
  import opened History

  // One direction of the conversation: every packet ever sent, the indices of those the other
  // side accepted (in the order of acceptance), and the keys its store threw away.
  datatype Direction = Direction(wire: seq<Packet>, got: seq<nat>, lost: seq<Entry>)

  datatype System = System(alice: State, bob: State, fromAlice: Direction, fromBob: Direction) {
    function Party(role: Role): State {
      if role == Alice then alice else bob
    }

    // What the given party sends.
    function From(role: Role): Direction {
      if role == Alice then fromAlice else fromBob
    }

    function WithParty(role: Role, s: State): System {
      if role == Alice then this.(alice := s) else this.(bob := s)
    }

    function WithFrom(role: Role, d: Direction): System {
      if role == Alice then this.(fromAlice := d) else this.(fromBob := d)
    }
  }

  // Identities and first ephemerals. Alice is the one with the bigger identity.
  datatype Setup = Setup(aliceIdentity: nat, bobIdentity: nat, aliceEphemeral: nat, bobEphemeral: nat)

  predicate ValidSetup(setup: Setup) {
    setup.aliceIdentity > setup.bobIdentity
  }

  function CreatedAlice(setup: Setup): Result<State> {
    Create(PrivateKey(setup.aliceIdentity), PublicKey(setup.aliceIdentity), PublicKey(setup.bobIdentity),
           PrivateKey(setup.aliceEphemeral), PublicKey(setup.aliceEphemeral), PublicKey(setup.bobEphemeral))
  }

  function CreatedBob(setup: Setup): Result<State> {
    Create(PrivateKey(setup.bobIdentity), PublicKey(setup.bobIdentity), PublicKey(setup.aliceIdentity),
           PrivateKey(setup.bobEphemeral), PublicKey(setup.bobEphemeral), PublicKey(setup.aliceEphemeral))
  }

  function Start(setup: Setup): System
    requires ValidSetup(setup)
  {
    System(CreatedAlice(setup).value, CreatedBob(setup).value, Direction([], [], []), Direction([], [], []))
  }

  datatype Event =
    | Sending(sender: Role, message: Message, keypair: nat, metadata: Option<PrekeyMetadata>)
    | Delivery(receiver: Role, index: nat, clock: nat -> nat, now: Instants)
    | Recombination(receiver: Role, from: Role, i: nat, to: Role, j: nat, clock: nat -> nat, now: Instants)
    | Injection(receiver: Role, packet: Packet, clock: nat -> nat, now: Instants)
    | Reloading(role: Role, purported: Purported)

  // The secret of the conversation: what all root keys of both parties go back to.
  function MasterKey(sys: System): Key {
    Base(sys.alice.rootKey.bytes)
  }

  // Somebody who does not hold the master key can replay any header under any header key, but
  // seals bodies under keys derived from other secrets, those of another conversation included.
  predicate IsForeign(master: Key, p: Packet) {
    p.Garbled? || Base(p.bodyKey) != master
  }

  // The header of `p` with the body of `q`.
  function Splice(p: Packet, q: Packet): Packet
    requires p.Packet? && q.Packet?
  {
    p.(bodyKey := q.bodyKey, body := q.body)
  }

  // The key of the body is stored, and the header is one of the same chain.
  predicate BodyIsStored(s: State, p: Packet, q: Packet)
    requires p.Packet? && q.Packet?
  {
    Copies(s.skipped, q.bodyKey) > 0 && p.headerKey == q.headerKey
  }

  // Both are of the current chain, the header is behind the receiver, and the body is exactly
  // the one that the receiver comes to next.
  predicate BodyIsNext(s: State, p: Packet, q: Packet)
    requires p.Packet? && p.header.Header? && q.Packet? && q.header.Header?
  {
    && s.receiveHeaderKey.Holds(p.headerKey) && p.headerKey == q.headerKey
    && p.header.number < s.receiveNumber == q.header.number
  }

  // A counter at its limit: the next message of this chain would make it wrap around.
  predicate CounterIsFull(s: State) {
    !s.ratchetFlag && s.sendNumber == UINT32_MAX
  }

  function Receiving(sys: System, receiver: Role, index: nat, clock: nat -> nat, now: Instants): System
    requires index < |sys.From(Other(receiver)).wire|
  {
    var d := sys.From(Other(receiver));
    var o := Deliver(sys.Party(receiver), d.wire[index], clock, now);
    var got := if o.result.Ok? then d.got + [index] else d.got;
    sys.WithParty(receiver, o.state).WithFrom(Other(receiver), d.(got := got, lost := d.lost + o.dropped))
  }

  // The header of one packet with the body of another arrives, each sent by either side; with
  // equal indices this repeats or reflects a packet. An accepted body counts as accepted.
  function Recombining(
    sys: System, receiver: Role, from: Role, i: nat, to: Role, j: nat, clock: nat -> nat, now: Instants): System
    requires i < |sys.From(from).wire| && j < |sys.From(to).wire|
    requires sys.From(from).wire[i].Packet? && sys.From(to).wire[j].Packet?
  {
    var d := sys.From(Other(receiver));
    var o := Deliver(sys.Party(receiver), Splice(sys.From(from).wire[i], sys.From(to).wire[j]), clock, now);
    var got := if o.result.Ok? && to == Other(receiver) then d.got + [j] else d.got;
    sys.WithParty(receiver, o.state).WithFrom(Other(receiver), d.(got := got, lost := d.lost + o.dropped))
  }

  // Whether two packets can be recombined in a run: not with the body that comes next behind
  // an older header.
  predicate CanRecombine(s: State, p: Packet, q: Packet) {
    p.Packet? && p.header.Header? && q.Packet? && q.header.Header? && !BodyIsNext(s, p, q)
  }

  function Apply(sys: System, e: Event): System {
    match e
    case Sending(sender, message, keypair, metadata) =>
      if CounterIsFull(sys.Party(sender)) then sys
      else
        (match Send(sys.Party(sender), message, keypair, metadata)
         case (s, Ok(p)) =>
           var d := sys.From(sender);
           sys.WithParty(sender, s).WithFrom(sender, d.(wire := d.wire + [p]))
         case (s, Err(_)) => sys.WithParty(sender, s))
    case Delivery(receiver, index, clock, now) =>
      if index < |sys.From(Other(receiver)).wire| then Receiving(sys, receiver, index, clock, now) else sys
    case Recombination(receiver, from, i, to, j, clock, now) =>
      if && i < |sys.From(from).wire| && j < |sys.From(to).wire|
         && CanRecombine(sys.Party(receiver), sys.From(from).wire[i], sys.From(to).wire[j])
      then Recombining(sys, receiver, from, i, to, j, clock, now) else sys
    case Injection(receiver, packet, clock, now) =>
      if !IsForeign(MasterKey(sys), packet) then sys
      else sys.WithParty(receiver, Deliver(sys.Party(receiver), packet, clock, now).state)
    case Reloading(role, purported) => sys.WithParty(role, Reload(sys.Party(role), purported))
  }

  function Run(sys: System, events: seq<Event>): System {
    if events == [] then sys
    else Apply(Run(sys, events[..|events| - 1]), events[|events| - 1])
  }

  // The invariant

  // How often a message key was accepted.
  function Taken(wire: seq<Packet>, got: seq<nat>, key: Key): nat
    requires forall i :: 0 <= i < |got| ==> got[i] < |wire| && wire[got[i]].Packet?
  {
    if got == [] then 0
    else Taken(wire, got[..|got| - 1], key) + if wire[got[|got| - 1]].bodyKey == key then 1 else 0
  }

  ghost predicate WireView(h: History, sender: Role, wire: seq<Packet>)
    requires h.WellLinked()
  {
    && (forall i :: 0 <= i < |wire| ==> SentBy(h, sender, wire[i]))
    && (forall i, j :: 0 <= i < j < |wire| ==> wire[i].bodyKey != wire[j].bodyKey)
  }

  ghost predicate Balanced(h: History, d: Direction, receiver: State, key: Key)
    requires h.WellLinked()
    requires forall i :: 0 <= i < |d.got| ==> d.got[i] < |d.wire| && d.wire[d.got[i]].Packet?
  {
    Passed(h, ReceiveIndex(receiver.role, h.Top(), receiver.ratchetFlag), receiver.receiveNumber, key)
    == Taken(d.wire, d.got, key) + Copies(receiver.skipped, key) + Copies(d.lost, key)
  }

  // Every number the receiver has passed is accepted, stored or lost, and only one of these.
  ghost predicate Ledger(h: History, d: Direction, receiver: State)
    requires h.WellLinked()
  {
    && (forall i :: 0 <= i < |d.got| ==> d.got[i] < |d.wire| && d.wire[d.got[i]].Packet?)
    && (forall key :: Balanced(h, d, receiver, key))
  }

  ghost predicate DirectionInv(h: History, sender: Role, d: Direction, receiver: State)
    requires h.WellLinked()
  {
    && WireView(h, sender, d.wire)
    && StoreView(receiver.skipped, h)
    && Ledger(h, d, receiver)
  }

  ghost predicate PartyInv(h: History, role: Role, s: State) {
    PartyView(s, role, h) && Sound(s)
  }

  ghost predicate Inv(sys: System, h: History) {
    && (forall role :: PartyInv(h, role, sys.Party(role)))
    && (forall role :: DirectionInv(h, role, sys.From(role), sys.Party(Other(role))))
  }
}
