// Receiving in two phases: purported keys are staged, and committed only after the message
// has been authenticated.
module TwoPhase {
  import opened Keys
  import opened KeyDerivation
  import opened KeyStore
  import opened RatchetState
  import opened Results
  import opened Soundness

  datatype HeaderDecryptability = CurrentDecryptable | NextDecryptable | Undecryptable | NotTried

  // The purported values of the ratchet. They keep their last content between receptions.
  datatype Purported = Purported(
    rootKey: EmptyableKey, headerKey: EmptyableKey, nextHeaderKey: EmptyableKey, chainKey: EmptyableKey,
    ephemeral: Option<PublicKey>, number: nat, previous: nat)

  const NOTHING_PURPORTED := Purported(CLEARED, CLEARED, CLEARED, CLEARED, None, 0, 0)

  // What the first phase leaves behind, after an error too.
  datatype Plan = Plan(purported: Purported, staged: seq<Entry>, result: Result<Key>)

  // A chain walk: the staged keys, and the message key and chain key behind them. Without a
  // chain key nothing happens and the outputs keep what they were.
  function StageSkipped(
    staged: seq<Entry>, headerKey: EmptyableKey, current: nat, future: nat, chainKey: EmptyableKey,
    clock: nat -> nat, messageKey: Key, nextChainKey: EmptyableKey): Result<(seq<Entry>, Key, EmptyableKey)>
  {
    if chainKey.IsNone() then Ok((staged, messageKey, nextChainKey))
    else if TooManySkipped(current, future) then Err(ReceiveError)
    else
      var walked := Walk(chainKey.bytes, Gap(current, future));
      Ok((Stage(staged, headerKey, chainKey.bytes, Gap(current, future), clock),
          MessageKey(walked), Present(NextChainKey(walked))))
  }

  // One turn of the loop that walks a chain, and no turn.
  lemma {:induction false} StageStep(
    staged: seq<Entry>, headerKey: EmptyableKey, chain: Key, count: nat, clock: nat -> nat)
    ensures Stage(staged, headerKey, chain, 0, clock) == staged && Walk(chain, 0) == chain
    ensures Walk(chain, count + 1) == NextChainKey(Walk(chain, count))
    ensures var before := Stage(staged, headerKey, chain, count, clock);
            var now := clock(|before|);
            Stage(staged, headerKey, chain, count + 1, clock)
            == Add(before, FreshEntry(headerKey, MessageKey(Walk(chain, count)), now), now)
  {
  }

  function StageCurrent(
    s: State, purported: Purported, staged: seq<Entry>, number: nat, clock: nat -> nat): Plan
  {
    match StageSkipped(staged, s.receiveHeaderKey, s.receiveNumber, number, s.receiveChainKey, clock,
                       Zero, purported.chainKey)
    case Err(error) => Plan(purported, staged, Err(error))
    case Ok((all, messageKey, chainKey)) => Plan(purported.(chainKey := chainKey), all, Ok(messageKey))
  }

  function StageNewChain(
    s: State, purported: Purported, staged: seq<Entry>, derived: Derived, number: nat, clock: nat -> nat): Plan
  {
    var chain := Present(derived.chainKey);
    var begun := purported.(rootKey := Present(derived.rootKey), nextHeaderKey := Present(derived.nextHeaderKey),
                            chainKey := chain);
    match StageSkipped(staged, s.nextReceiveHeaderKey, 0, number, chain, clock, Zero, chain)
    case Err(error) => Plan(begun, staged, Err(error))
    case Ok((all, messageKey, chainKey)) => Plan(begun.(chainKey := chainKey), all, Ok(messageKey))
  }

  function StageNext(
    s: State, purported: Purported, staged: seq<Entry>,
    ephemeral: PublicKey, number: nat, previous: nat, clock: nat -> nat): Plan
  {
    match StageSkipped(staged, s.receiveHeaderKey, s.receiveNumber, previous, s.receiveChainKey, clock, Zero, CLEARED)
    case Err(error) => Plan(purported, staged, Err(error))
    case Ok((missing, _, _)) =>
      var opening := purported.(headerKey := s.nextReceiveHeaderKey);
      match DeriveRootNextHeaderAndChainKeys(s.ourPrivateEphemeral, s.ourEphemeral, ephemeral, s.rootKey, s.role)
      case Err(error) => Plan(opening, missing, Err(error))
      case Ok(derived) => StageNewChain(s, opening, missing, derived, number, clock)
  }

  // First phase. `staged` and `purported` are what the staging area and the purported values
  // hold beforehand.
  function StageReceive(
    s: State, purported: Purported, staged: seq<Entry>, decryptable: HeaderDecryptability,
    ephemeral: PublicKey, number: nat, previous: nat, clock: nat -> nat): Plan
  {
    if !s.receiveHeaderKey.IsNone() && decryptable == CurrentDecryptable then
      StageCurrent(s, purported.(number := number), staged, number, clock)
    else if s.ratchetFlag || decryptable != NextDecryptable then
      Plan(purported, staged, Err(DecryptError))
    else
      StageNext(s, purported.(number := number, previous := previous, ephemeral := Some(ephemeral)), staged,
                ephemeral, number, previous, clock)
  }

  function CommitChain(s: State, purported: Purported, staged: seq<Entry>, now: Instants): State {
    s.(skipped := Settle(s.skipped, staged, now),
       receiveNumber := Increment32(purported.number),
       receiveChainKey := purported.chainKey)
  }

  // Second phase, for a message that was authentic.
  function Commit(
    s: State, purported: Purported, staged: seq<Entry>, decryptable: HeaderDecryptability,
    now: Instants): (State, Result<()>)
  {
    if s.receiveHeaderKey.IsNone() || decryptable != CurrentDecryptable then
      if s.ratchetFlag || decryptable != NextDecryptable then
        (s, Ok(()))
      else
        var t := s.(rootKey := purported.rootKey,
                    receiveHeaderKey := purported.headerKey,
                    nextReceiveHeaderKey := purported.nextHeaderKey);
        match purported.ephemeral
        case None => (t, Err(InvalidValue))
        case Some(ephemeral) =>
          (CommitChain(t.(theirEphemeral := ephemeral, ourPrivateEphemeral := Erased, ratchetFlag := true),
                       purported, staged, now), Ok(()))
    else
      (CommitChain(s, purported, staged, now), Ok(()))
  }

  // A commit fails in one case only, and then it has already moved root and header keys.
  lemma {:induction false} CommitFailsExactly(
    s: State, purported: Purported, staged: seq<Entry>, d: HeaderDecryptability, now: Instants)
    ensures var (t, done) := Commit(s, purported, staged, d, now);
            && (done.Err? <==> !s.ratchetFlag && d == NextDecryptable && purported.ephemeral.None?)
            && (done.Err? ==>
                  && done == Err(InvalidValue)
                  && t == s.(rootKey := purported.rootKey, receiveHeaderKey := purported.headerKey,
                             nextReceiveHeaderKey := purported.nextHeaderKey))
            && (d == NotTried || d == Undecryptable ==> t == s)
  {
  }

  // The header keys that open a packet decide which chain it belongs to.
  function Decryptability(s: State, p: Packet): HeaderDecryptability {
    if OpensHeader(s.receiveHeaderKey, p) then CurrentDecryptable
    else if OpensHeader(s.nextReceiveHeaderKey, p) then NextDecryptable
    else Undecryptable
  }

  // What a reception leaves in the purported values. A packet that a stored key opens does not
  // touch them, nor does one whose header is not readable.
  function PurportedAfter(s: State, purported: Purported, p: Packet, clock: nat -> nat): Purported {
    if p.Packet? && p.header.Header? && FindKey(s.skipped, p) == |s.skipped| then
      StageReceive(s, purported, [], Decryptability(s, p),
                   p.header.ephemeral, p.header.number, p.header.previous, clock).purported
    else
      purported
  }

  lemma {:induction false} StageSkippedIsStore(
    staged: seq<Entry>, headerKey: EmptyableKey, current: nat, future: nat, chainKey: EmptyableKey,
    clock: nat -> nat, messageKey: Key, nextChainKey: EmptyableKey)
    requires IsStore(staged) && |staged| + MAXIMUM_SKIPPED_MESSAGES <= MAXIMUM_KEYS
    ensures var r := StageSkipped(staged, headerKey, current, future, chainKey, clock, messageKey, nextChainKey);
            r.Ok? ==> IsStore(r.value.0) && |r.value.0| <= |staged| + MAXIMUM_SKIPPED_MESSAGES
  {
    if !chainKey.IsNone() && !TooManySkipped(current, future) {
      StageIsStore(staged, headerKey, chainKey.bytes, Gap(current, future), clock);
    }
  }

  // The plan of the first phase and a delivery belong together: the plan yields the packet's
  // message key exactly when the packet is accepted, and then committing it leads to the same
  // state, store included.
  ghost predicate Refines(s: State, p: Packet, plan: Plan, d: HeaderDecryptability, now: Instants, o: Outcome) {
    && p.Packet?
    && (o.result.Ok? <==> plan.result == Ok(p.bodyKey))
    && (o.result.Ok? ==> Commit(s, plan.purported, plan.staged, d, now) == (o.state, Ok(())))
    && (o.result.Err? ==> o.state == s)
    && (plan.result.Err? ==> o.result == Err(plan.result.error))
  }

  lemma {:induction false} CurrentInTwoPhases(
    s: State, purported: Purported, p: Packet, clock: nat -> nat, now: Instants)
    requires Sound(s) && p.Packet? && p.header.Header? && OpensHeader(s.receiveHeaderKey, p)
             && !s.receiveHeaderKey.IsNone()
    ensures Refines(s, p, StageCurrent(s, purported.(number := p.header.number), [], p.header.number, clock),
                    CurrentDecryptable, now, DeliverCurrent(s, p, clock, now))
  {
    hide Settle, Stage, Walk;
  }

  lemma {:induction false} NextInTwoPhases(
    s: State, purported: Purported, p: Packet, clock: nat -> nat, now: Instants)
    requires Sound(s) && p.Packet? && p.header.Header? && !s.ratchetFlag
    ensures Refines(s, p,
                    StageNext(s, purported.(number := p.header.number, previous := p.header.previous,
                                            ephemeral := Some(p.header.ephemeral)), [],
                              p.header.ephemeral, p.header.number, p.header.previous, clock),
                    NextDecryptable, now, DeliverNext(s, p, clock, now))
  {
    hide Settle, Stage, Walk;
  }

  // Staging and committing refine one delivery: for every sound state, every packet without a
  // stored key, and whatever the purported values happen to hold. Both phases take the same
  // branch.
  lemma {:induction false} TwoPhasesAreOneDelivery(
    s: State, purported: Purported, p: Packet, clock: nat -> nat, now: Instants)
    requires Sound(s) && p.Packet? && p.header.Header?
    requires FindKey(s.skipped, p) == |s.skipped|
    ensures var d := Decryptability(s, p);
            var plan := StageReceive(s, purported, [], d,
                                     p.header.ephemeral, p.header.number, p.header.previous, clock);
            Refines(s, p, plan, d, now, Deliver(s, p, clock, now))
  {
    hide StageCurrent, StageNext, Commit, Settle, Stage, StageBoth, Walk;
    if OpensHeader(s.receiveHeaderKey, p) && !s.receiveHeaderKey.IsNone() {
      CurrentInTwoPhases(s, purported, p, clock, now);
    } else if OpensHeader(s.nextReceiveHeaderKey, p) && !s.ratchetFlag {
      NextInTwoPhases(s, purported, p, clock, now);
    }
  }
}
