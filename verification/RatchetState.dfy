// The values a ratchet commits to, and what one send or one delivered packet does to them.
// Class Ratchet and class Conversation are proved to do exactly this.
module RatchetState {
  import opened Keys
  import opened KeyDerivation
  import opened KeyStore
  import opened Results

  type Message = seq<Byte>

  // Headers and packets as datatypes. The header is sealed under `headerKey` and the message
  // under `bodyKey`; a seal opens only under that very key.
  datatype Header = MalformedHeader | Header(ephemeral: PublicKey, number: nat, previous: nat)

  datatype PrekeyMetadata = PrekeyMetadata(identity: PublicKey, ephemeral: PublicKey, prekey: PublicKey)

  datatype Packet =
    | Garbled // does not unpack
    | Packet(headerKey: Key, header: Header, bodyKey: Key, body: Message, metadata: Option<PrekeyMetadata>)

  datatype Received = Received(message: Message, number: nat, previous: nat)

  datatype SendData = SendData(
    number: nat, previous: nat, ephemeral: PublicKey, messageKey: Key, headerKey: EmptyableKey)

  datatype State = State(
    role: Role,
    rootKey: EmptyableKey,
    sendHeaderKey: Option<EmptyableKey>,
    receiveHeaderKey: EmptyableKey,
    nextSendHeaderKey: EmptyableKey,
    nextReceiveHeaderKey: EmptyableKey,
    sendChainKey: EmptyableKey,
    receiveChainKey: EmptyableKey,
    ourIdentity: PublicKey,
    theirIdentity: PublicKey,
    ourPrivateEphemeral: PrivateKey,
    ourEphemeral: PublicKey,
    theirEphemeral: PublicKey,
    sendNumber: nat,
    receiveNumber: nat,
    previousNumber: nat,
    ratchetFlag: bool,
    skipped: seq<Entry>)

  const MAXIMUM_SKIPPED_MESSAGES: nat := 500

  // Message numbers are 32 bits wide and wrap around.
  const UINT32_MAX: nat := 0xFFFF_FFFF

  function Increment32(n: nat): nat {
    (n + 1) % (UINT32_MAX + 1)
  }

  lemma {:induction false} Increment32Wraps(n: nat)
    requires n <= 0xFFFF_FFFF
    ensures Increment32(n) == if n == 0xFFFF_FFFF then 0 else n + 1
  {
  }

  // Creation

  function FromKey(key: Option<Key>): EmptyableKey {
    match key
    case None => CLEARED
    case Some(k) => Present(k)
  }

  // The one with the bigger public identity is Alice.
  function ChooseRole(ours: PublicKey, theirs: PublicKey): Result<Role> {
    if ours.id > theirs.id then Ok(Alice)
    else if ours.id < theirs.id then Ok(Bob)
    else Err(ShouldntHappen)
  }

  function Create(
    ourPrivateIdentity: PrivateKey, ourIdentity: PublicKey, theirIdentity: PublicKey,
    ourPrivateEphemeral: PrivateKey, ourEphemeral: PublicKey, theirEphemeral: PublicKey): Result<State>
  {
    match ChooseRole(ourIdentity, theirIdentity)
    case Err(error) => Err(error)
    case Ok(role) =>
      var derived := DeriveInitialKeys(ourPrivateIdentity, ourIdentity, theirIdentity,
                                       ourPrivateEphemeral, ourEphemeral, theirEphemeral, role);
      Ok(State(role, Present(derived.rootKey),
               match derived.sendHeaderKey { case None => None case Some(k) => Some(Present(k)) },
               FromKey(derived.receiveHeaderKey),
               Present(derived.nextSendHeaderKey), Present(derived.nextReceiveHeaderKey),
               FromKey(derived.sendChainKey), FromKey(derived.receiveChainKey),
               ourIdentity, theirIdentity, ourPrivateEphemeral, ourEphemeral, theirEphemeral,
               0, 0, 0, role == Alice, []))
  }

  // Sending

  // Start a new send chain with the keypair `keypair`.
  function Advance(s: State, keypair: nat, derived: Derived): State {
    s.(ourPrivateEphemeral := PrivateKey(keypair),
       ourEphemeral := PublicKey(keypair),
       sendHeaderKey := Some(s.nextSendHeaderKey),
       rootKey := Present(derived.rootKey),
       nextSendHeaderKey := Present(derived.nextHeaderKey),
       sendChainKey := Present(derived.chainKey),
       previousNumber := s.sendNumber,
       sendNumber := 0,
       ratchetFlag := false)
  }

  function NextSendKeys(s: State): (State, Result<SendData>) {
    if s.sendChainKey.empty then
      (s, Err(ExpectationFailed))
    else if s.sendHeaderKey.None? then
      (s, Err(InvalidState))
    else
      (s.(sendNumber := Increment32(s.sendNumber), sendChainKey := Present(NextChainKey(s.sendChainKey.bytes))),
       Ok(SendData(s.sendNumber, s.previousNumber, s.ourEphemeral,
                   MessageKey(s.sendChainKey.bytes), s.sendHeaderKey.value)))
  }

  function GetSendData(s: State, keypair: nat): (State, Result<SendData>) {
    if !s.ratchetFlag then
      NextSendKeys(s)
    else
      match DeriveRootNextHeaderAndChainKeys(
        PrivateKey(keypair), PublicKey(keypair), s.theirEphemeral, s.rootKey, s.role)
      case Ok(derived) => NextSendKeys(Advance(s, keypair, derived))
      case Err(error) =>
        (s.(ourPrivateEphemeral := PrivateKey(keypair), ourEphemeral := PublicKey(keypair),
            sendHeaderKey := Some(s.nextSendHeaderKey)), Err(error))
  }

  function Encrypt(data: SendData, message: Message, metadata: Option<PrekeyMetadata>): Result<Packet> {
    if data.headerKey.empty then
      Err(ExpectationFailed)
    else
      Ok(Packet(data.headerKey.bytes, Header(data.ephemeral, data.number, data.previous),
                data.messageKey, message, metadata))
  }

  function Send(s: State, message: Message, keypair: nat, metadata: Option<PrekeyMetadata>): (State, Result<Packet>) {
    match GetSendData(s, keypair)
    case (t, Err(error)) => (t, Err(error))
    case (t, Ok(data)) => (t, Encrypt(data, message, metadata))
  }

  // Receiving

  // Staging `count` keys from the front of a chain; the k-th key added reads the clock at k.
  function Stage(staged: seq<Entry>, headerKey: EmptyableKey, chain: Key, count: nat, clock: nat -> nat): seq<Entry> {
    if count == 0 then staged
    else
      var before := Stage(staged, headerKey, chain, count - 1, clock);
      var now := clock(|before|);
      Add(before, FreshEntry(headerKey, MessageKeyAt(chain, count - 1), now), now)
  }

  function Gap(from: nat, to: nat): nat {
    if to > from then to - from else 0
  }

  predicate TooManySkipped(from: nat, to: nat) {
    to > from + MAXIMUM_SKIPPED_MESSAGES
  }

  predicate OpensHeader(key: EmptyableKey, p: Packet) {
    p.Packet? && key.Holds(p.headerKey)
  }

  predicate Opens(e: Entry, p: Packet) {
    OpensHeader(e.headerKey, p) && e.messageKey == p.bodyKey
  }

  // The first stored entry that opens the packet.
  function FindKey(entries: seq<Entry>, p: Packet): (i: nat)
    ensures i <= |entries|
    ensures i < |entries| ==> Opens(entries[i], p)
    ensures forall k :: 0 <= k < i ==> !Opens(entries[k], p)
  {
    if entries == [] || Opens(entries[0], p) then 0 else 1 + FindKey(entries[1..], p)
  }

  datatype Outcome = Outcome(state: State, result: Result<Received>, dropped: seq<Entry>)

  function Accept(s: State, p: Packet, staged: seq<Entry>, now: Instants): Outcome
    requires p.Packet? && p.header.Header?
  {
    Outcome(s.(skipped := Settle(s.skipped, staged, now)),
            Ok(Received(p.body, p.header.number, p.header.previous)),
            Discarded(s.skipped, staged, now))
  }

  function DeliverCurrent(s: State, p: Packet, clock: nat -> nat, now: Instants): Outcome
    requires p.Packet?
  {
    if p.header.MalformedHeader? then
      Outcome(s, Err(ProtobufUnpackError), [])
    else if s.receiveHeaderKey.IsNone() then
      Outcome(s, Err(DecryptError), [])
    else if TooManySkipped(s.receiveNumber, p.header.number) then
      Outcome(s, Err(ReceiveError), [])
    else
      var gap := Gap(s.receiveNumber, p.header.number);
      var chain := Walk(s.receiveChainKey.bytes, gap);
      if p.bodyKey != MessageKey(chain) then
        Outcome(s, Err(DecryptError), [])
      else
        var staged := Stage([], s.receiveHeaderKey, s.receiveChainKey.bytes, gap, clock);
        Accept(s.(receiveNumber := Increment32(p.header.number), receiveChainKey := Present(NextChainKey(chain))),
               p, staged, now)
  }

  // Keys staged for what is still missing from the old chain, and then from the new one.
  function StageMissing(s: State, header: Header, clock: nat -> nat): seq<Entry>
    requires header.Header?
  {
    if s.receiveChainKey.IsNone() then
      []
    else
      Stage([], s.receiveHeaderKey, s.receiveChainKey.bytes, Gap(s.receiveNumber, header.previous), clock)
  }

  function StageBoth(s: State, header: Header, newChain: Key, clock: nat -> nat): seq<Entry>
    requires header.Header?
  {
    Stage(StageMissing(s, header, clock), s.nextReceiveHeaderKey, newChain, header.number, clock)
  }

  function DeliverNext(s: State, p: Packet, clock: nat -> nat, now: Instants): Outcome
    requires p.Packet?
  {
    if p.header.MalformedHeader? then
      Outcome(s, Err(ProtobufUnpackError), [])
    else if s.ratchetFlag then
      Outcome(s, Err(DecryptError), [])
    else if !s.receiveChainKey.IsNone() && TooManySkipped(s.receiveNumber, p.header.previous) then
      Outcome(s, Err(ReceiveError), [])
    else
      match DeriveRootNextHeaderAndChainKeys(
        s.ourPrivateEphemeral, s.ourEphemeral, p.header.ephemeral, s.rootKey, s.role)
      case Err(error) => Outcome(s, Err(error), [])
      case Ok(derived) =>
        if TooManySkipped(0, p.header.number) then
          Outcome(s, Err(ReceiveError), [])
        else
          var chain := Walk(derived.chainKey, p.header.number);
          if p.bodyKey != MessageKey(chain) then
            Outcome(s, Err(DecryptError), [])
          else
            Accept(s.(rootKey := Present(derived.rootKey),
                      receiveHeaderKey := s.nextReceiveHeaderKey,
                      nextReceiveHeaderKey := Present(derived.nextHeaderKey),
                      theirEphemeral := p.header.ephemeral,
                      ourPrivateEphemeral := Erased,
                      ratchetFlag := true,
                      receiveNumber := Increment32(p.header.number),
                      receiveChainKey := Present(NextChainKey(chain))),
                   p, StageBoth(s, p.header, derived.chainKey, clock), now)
  }

  // One delivery, seen from the committed state only: either the whole packet is accepted and
  // the state moves, or an error is returned. `dropped` records what trimming threw away.
  function Deliver(s: State, p: Packet, clock: nat -> nat, now: Instants): Outcome {
    var i := FindKey(s.skipped, p);
    if i < |s.skipped| then
      var t := s.(skipped := RemoveAt(s.skipped, i));
      match p.header
      case Header(_, number, previous) => Outcome(t, Ok(Received(p.body, number, previous)), [])
      case MalformedHeader =>
        var readable := OpensHeader(s.receiveHeaderKey, p) || OpensHeader(s.nextReceiveHeaderKey, p);
        Outcome(t, Err(if readable then ProtobufUnpackError else DecryptError), [])
    else if OpensHeader(s.receiveHeaderKey, p) then
      DeliverCurrent(s, p, clock, now)
    else if OpensHeader(s.nextReceiveHeaderKey, p) then
      DeliverNext(s, p, clock, now)
    else
      Outcome(s, Err(DecryptError), [])
  }

  // What staging adds, for any clock

  lemma {:induction false} StageIsStore(
    staged: seq<Entry>, headerKey: EmptyableKey, chain: Key, count: nat, clock: nat -> nat)
    requires IsStore(staged) && |staged| + count <= MAXIMUM_KEYS
    ensures var t := Stage(staged, headerKey, chain, count, clock);
            IsStore(t) && |t| == |staged| + count
  {
    if count == 0 {
    } else {
      StageIsStore(staged, headerKey, chain, count - 1, clock);
      var before := Stage(staged, headerKey, chain, count - 1, clock);
      AddKeepsStore(before, FreshEntry(headerKey, MessageKeyAt(chain, count - 1), clock(|before|)), clock(|before|));
    }
  }

  // A fresh key is never outdated and never pushes another staged key out.
  lemma {:induction false} StageInserts(
    staged: seq<Entry>, headerKey: EmptyableKey, chain: Key, count: nat, clock: nat -> nat)
    requires IsStore(staged) && |staged| + count < MAXIMUM_KEYS
    ensures var before := Stage(staged, headerKey, chain, count, clock);
            Stage(staged, headerKey, chain, count + 1, clock)
              == Insert(before, FreshEntry(headerKey, MessageKeyAt(chain, count), clock(|before|)))
  {
    StageIsStore(staged, headerKey, chain, count, clock);
  }

  // How often a key is among the first `count` message keys of a chain.
  function InRange(chain: Key, count: nat, key: Key): nat {
    if Position(key) < count && key == MessageKeyAt(chain, Position(key)) then 1 else 0
  }

  lemma {:induction false} InRangeStep(chain: Key, count: nat, key: Key)
    requires StartsChain(chain)
    ensures InRange(chain, count + 1, key)
         == InRange(chain, count, key) + if key == MessageKeyAt(chain, count) then 1 else 0
  {
    MessageKeyDecodes(chain, count);
  }

  // Staging `count` keys of a chain that has been walked to position `from`.
  lemma {:induction false} StageAddsRange(
    staged: seq<Entry>, headerKey: EmptyableKey, chain: Key, from: nat, count: nat, clock: nat -> nat, key: Key)
    requires StartsChain(chain) && IsStore(staged) && |staged| + count <= MAXIMUM_KEYS
    ensures Copies(Stage(staged, headerKey, Walk(chain, from), count, clock), key) + InRange(chain, from, key)
         == Copies(staged, key) + InRange(chain, from + count, key)
  {
    if count == 0 {
    } else {
      var n, start := count - 1, Walk(chain, from);
      var before := Stage(staged, headerKey, start, n, clock);
      StageAddsRange(staged, headerKey, chain, from, n, clock, key);
      StageInserts(staged, headerKey, start, n, clock);
      InsertAddsOne(before, FreshEntry(headerKey, MessageKeyAt(start, n), clock(|before|)), key);
      WalkComposes(chain, from, n);
      InRangeStep(chain, from + n, key);
    }
  }

  lemma {:induction false} StageMember(
    staged: seq<Entry>, headerKey: EmptyableKey, chain: Key, from: nat, count: nat, clock: nat -> nat, e: Entry)
    requires StartsChain(chain) && IsStore(staged) && |staged| + count <= MAXIMUM_KEYS
    requires e in Stage(staged, headerKey, Walk(chain, from), count, clock)
    ensures e in staged || (e.headerKey == headerKey && e.messageKey.Kdf? && Epoch(e.messageKey) == Epoch(chain))
  {
    if count == 0 {
    } else {
      var n, start := count - 1, Walk(chain, from);
      var before := Stage(staged, headerKey, start, n, clock);
      var added := FreshEntry(headerKey, MessageKeyAt(start, n), clock(|before|));
      StageInserts(staged, headerKey, start, n, clock);
      InsertMember(before, added, e);
      WalkComposes(chain, from, n);
      MessageKeyDecodes(chain, from + n);
      if e != added {
        StageMember(staged, headerKey, chain, from, n, clock, e);
      }
    }
  }

  // Under a clock that does not run backwards the keys are staged in the order of their
  // positions, each dated at its own reading.
  ghost predicate NonDecreasing(clock: nat -> nat) {
    forall i: nat, j: nat :: i <= j ==> clock(i) <= clock(j)
  }

  lemma {:induction false} AddAppends(s: seq<Entry>, e: Entry, now: nat)
    requires |s| < MAXIMUM_KEYS && !IsOutdated(e, now)
    requires s != [] ==> s[|s| - 1].expiration <= e.expiration
    ensures Add(s, e, now) == s + [e]
  {
  }

  // The first `count` message keys of a chain, dated by successive clock readings.
  function InOrder(headerKey: EmptyableKey, chain: Key, count: nat, reading: nat, clock: nat -> nat): (s: seq<Entry>)
    ensures |s| == count
  {
    if count == 0 then
      []
    else
      InOrder(headerKey, chain, count - 1, reading, clock)
      + [FreshEntry(headerKey, MessageKeyAt(chain, count - 1), clock(reading + count - 1))]
  }

  lemma {:induction false} InOrderStep(headerKey: EmptyableKey, chain: Key, n: nat, reading: nat, clock: nat -> nat)
    ensures InOrder(headerKey, chain, n + 1, reading, clock)
         == InOrder(headerKey, chain, n, reading, clock)
            + [FreshEntry(headerKey, MessageKeyAt(chain, n), clock(reading + n))]
  {
  }

  lemma {:induction false} StageAppends(
    staged: seq<Entry>, headerKey: EmptyableKey, chain: Key, n: nat, clock: nat -> nat, before: seq<Entry>)
    requires before == Stage(staged, headerKey, chain, n, clock) && |before| < MAXIMUM_KEYS
    requires before != [] ==> before[|before| - 1].expiration <= clock(|before|) + EXPIRATION_TIME
    ensures Stage(staged, headerKey, chain, n + 1, clock)
         == before + [FreshEntry(headerKey, MessageKeyAt(chain, n), clock(|before|))]
  {
    AddAppends(before, FreshEntry(headerKey, MessageKeyAt(chain, n), clock(|before|)), clock(|before|));
  }

  lemma {:induction false} InOrderAt(
    headerKey: EmptyableKey, chain: Key, count: nat, reading: nat, clock: nat -> nat, i: nat)
    requires i < count
    ensures InOrder(headerKey, chain, count, reading, clock)[i]
         == FreshEntry(headerKey, MessageKeyAt(chain, i), clock(reading + i))
  {
    if i == count - 1 {
    } else {
      InOrderAt(headerKey, chain, count - 1, reading, clock, i);
    }
  }

  lemma {:induction false} LastIsEarlier(
    staged: seq<Entry>, headerKey: EmptyableKey, chain: Key, n: nat, clock: nat -> nat)
    requires NonDecreasing(clock)
    requires staged != [] ==> staged[|staged| - 1].expiration <= clock(|staged|) + EXPIRATION_TIME
    ensures var before := staged + InOrder(headerKey, chain, n, |staged|, clock);
            before != [] ==> before[|before| - 1].expiration <= clock(|before|) + EXPIRATION_TIME
  {
    if n > 0 {
      InOrderAt(headerKey, chain, n, |staged|, clock, n - 1);
      assert clock(|staged| + n - 1) <= clock(|staged| + n);
    }
  }

  lemma {:induction false} StagesInOrder(
    staged: seq<Entry>, headerKey: EmptyableKey, chain: Key, count: nat, clock: nat -> nat)
    requires NonDecreasing(clock) && |staged| + count <= MAXIMUM_KEYS
    requires staged != [] ==> staged[|staged| - 1].expiration <= clock(|staged|) + EXPIRATION_TIME
    ensures Stage(staged, headerKey, chain, count, clock) == staged + InOrder(headerKey, chain, count, |staged|, clock)
  {
    hide FreshEntry, MessageKeyAt, NonDecreasing;
    if count == 0 {
      assert InOrder(headerKey, chain, 0, |staged|, clock) == [];
      assert staged + [] == staged;
    } else {
      hide Stage, InOrder;
      var n := count - 1;
      var earlier := InOrder(headerKey, chain, n, |staged|, clock);
      StagesInOrder(staged, headerKey, chain, n, clock);
      LastIsEarlier(staged, headerKey, chain, n, clock);
      StageAppends(staged, headerKey, chain, n, clock, staged + earlier);
      var last := FreshEntry(headerKey, MessageKeyAt(chain, n), clock(|staged| + n));
      InOrderStep(headerKey, chain, n, |staged|, clock);
      assert (staged + earlier) + [last] == staged + (earlier + [last]);
    }
  }
}
