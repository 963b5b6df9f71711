// Exporting a ratchet to a record and importing it again.
module Persistence {
  import opened Keys
  import opened KeyDerivation
  import opened KeyStore
  import opened RatchetState
  import opened Results
  import opened Soundness
  import opened TwoPhase

  // All of a ratchet, at rest or in the middle of a reception.
  datatype Snapshot = Snapshot(
    state: State, purported: Purported, staged: seq<Entry>, receivedValid: bool, decryptable: HeaderDecryptability)

  datatype Bundle = Bundle(headerKey: Option<Key>, messageKey: Option<Key>, expiration: Option<nat>)

  // The enumeration on the wire: one of the listed values or some other number.
  datatype WireDecryptability = Listed(value: HeaderDecryptability) | Unlisted

  // The exchanged record: every field may be missing.
  datatype Record = Record(
    rootKey: Option<Key>, purportedRootKey: Option<Key>,
    sendHeaderKey: Option<Key>, receiveHeaderKey: Option<Key>,
    nextSendHeaderKey: Option<Key>, nextReceiveHeaderKey: Option<Key>,
    purportedReceiveHeaderKey: Option<Key>, purportedNextReceiveHeaderKey: Option<Key>,
    sendChainKey: Option<Key>, receiveChainKey: Option<Key>, purportedReceiveChainKey: Option<Key>,
    ourIdentity: Option<PublicKey>, theirIdentity: Option<PublicKey>,
    ourPrivateEphemeral: Option<PrivateKey>, ourEphemeral: Option<PublicKey>,
    theirEphemeral: Option<PublicKey>, theirPurportedEphemeral: Option<PublicKey>,
    sendNumber: Option<nat>, receiveNumber: Option<nat>, purportedNumber: Option<nat>,
    previousNumber: Option<nat>, purportedPreviousNumber: Option<nat>,
    ratchetFlag: Option<bool>, amIAlice: Option<bool>, receivedValid: Option<bool>,
    decryptable: Option<WireDecryptability>,
    skipped: seq<Bundle>, staged: seq<Bundle>)

  function Optional(key: EmptyableKey): Option<Key> {
    if key.empty then None else Some(key.bytes)
  }

  function ExportEntry(e: Entry): Bundle {
    Bundle(Some(e.headerKey.bytes), Some(e.messageKey), Some(e.expiration))
  }

  function ExportEntries(s: seq<Entry>): (b: seq<Bundle>)
    ensures |b| == |s|
    ensures forall i :: 0 <= i < |s| ==> b[i] == ExportEntry(s[i])
  {
    seq(|s|, i requires 0 <= i < |s| => ExportEntry(s[i]))
  }

  function Export(x: Snapshot): Result<Record> {
    var s := x.state;
    if s.rootKey.empty then Err(ExportError)
    else if s.sendHeaderKey.None? && s.role == Bob then Err(ExportError)
    else if s.role == Alice && s.receiveHeaderKey.empty then Err(ExportError)
    else if s.nextSendHeaderKey.empty || s.nextReceiveHeaderKey.empty then Err(ExportError)
    else if s.role == Bob && s.sendChainKey.empty then Err(ExportError)
    else if s.role == Alice && s.receiveChainKey.empty then Err(ExportError)
    else
      Ok(Record(
        Some(s.rootKey.bytes), Optional(x.purported.rootKey),
        match s.sendHeaderKey { case None => None case Some(k) => Some(k.bytes) }, Some(s.receiveHeaderKey.bytes),
        Some(s.nextSendHeaderKey.bytes), Some(s.nextReceiveHeaderKey.bytes),
        Optional(x.purported.headerKey), Optional(x.purported.nextHeaderKey),
        Some(s.sendChainKey.bytes), Some(s.receiveChainKey.bytes), Optional(x.purported.chainKey),
        Some(s.ourIdentity), Some(s.theirIdentity),
        Some(s.ourPrivateEphemeral), Some(s.ourEphemeral),
        Some(s.theirEphemeral), x.purported.ephemeral,
        Some(s.sendNumber), Some(s.receiveNumber), Some(x.purported.number),
        Some(s.previousNumber), Some(x.purported.previous),
        Some(s.ratchetFlag), Some(s.role == Alice), Some(x.receivedValid),
        Some(Listed(x.decryptable)),
        ExportEntries(s.skipped), ExportEntries(x.staged)))
  }

  function ImportEntries(b: seq<Bundle>): Result<seq<Entry>> {
    if b == [] then Ok([])
    else
      match ImportEntries(b[..|b| - 1])
      case Err(error) => Err(error)
      case Ok(entries) =>
        match b[|b| - 1]
        case Bundle(Some(headerKey), Some(messageKey), Some(expiration)) =>
          Ok(entries + [Entry(Present(headerKey), messageKey, expiration)])
        case _ => Err(ProtobufMissingError)
  }

  // The error for the first field that is missing or invalid, in the order of reading.

  function NumbersLack(r: Record): Option<Status> {
    if || r.sendNumber.None? || r.receiveNumber.None? || r.purportedNumber.None?
       || r.previousNumber.None? || r.purportedPreviousNumber.None?
       || r.ratchetFlag.None? || r.amIAlice.None? || r.receivedValid.None? || r.decryptable.None?
    then Some(ProtobufMissingError)
    else if r.decryptable.value.Unlisted? then Some(InvalidValue)
    else None
  }

  // A key that one role may lack is copied from an empty span all the same, which fails.
  function KeysLack(r: Record, role: Role): Option<Status> {
    if r.rootKey.None? || (r.sendHeaderKey.None? && role == Bob) then Some(ProtobufMissingError)
    else if r.receiveHeaderKey.None? then Some(if role == Alice then ProtobufMissingError else ExpectationFailed)
    else if r.nextSendHeaderKey.None? || r.nextReceiveHeaderKey.None? then Some(ProtobufMissingError)
    else if r.sendChainKey.None? then Some(if role == Bob then ProtobufMissingError else ExpectationFailed)
    else if r.receiveChainKey.None? then Some(if role == Alice then ProtobufMissingError else ExpectationFailed)
    else if || r.ourIdentity.None? || r.theirIdentity.None?
            || r.ourPrivateEphemeral.None? || r.ourEphemeral.None? || r.theirEphemeral.None?
    then Some(ProtobufMissingError)
    else None
  }

  function RoleOf(amIAlice: bool): Role {
    if amIAlice then Alice else Bob
  }

  function Import(r: Record): Result<Snapshot> {
    if NumbersLack(r).Some? then
      Err(NumbersLack(r).value)
    else if KeysLack(r, RoleOf(r.amIAlice.value)).Some? then
      Err(KeysLack(r, RoleOf(r.amIAlice.value)).value)
    else
      match ImportEntries(r.skipped)
      case Err(error) => Err(error)
      case Ok(skipped) =>
        match ImportEntries(r.staged)
        case Err(error) => Err(error)
        case Ok(staged) =>
          Ok(Snapshot(
            State(RoleOf(r.amIAlice.value),
                  Present(r.rootKey.value),
                  match r.sendHeaderKey { case None => None case Some(k) => Some(Present(k)) },
                  Present(r.receiveHeaderKey.value),
                  Present(r.nextSendHeaderKey.value), Present(r.nextReceiveHeaderKey.value),
                  Present(r.sendChainKey.value), Present(r.receiveChainKey.value),
                  r.ourIdentity.value, r.theirIdentity.value,
                  r.ourPrivateEphemeral.value, r.ourEphemeral.value, r.theirEphemeral.value,
                  r.sendNumber.value, r.receiveNumber.value, r.previousNumber.value,
                  r.ratchetFlag.value, skipped),
            Purported(FromKey(r.purportedRootKey), FromKey(r.purportedReceiveHeaderKey),
                      FromKey(r.purportedNextReceiveHeaderKey), FromKey(r.purportedReceiveChainKey),
                      r.theirPurportedEphemeral, r.purportedNumber.value, r.purportedPreviousNumber.value),
            staged, r.receivedValid.value, r.decryptable.value.value))
  }

  predicate BundleIsComplete(b: Bundle) {
    b.headerKey.Some? && b.messageKey.Some? && b.expiration.Some?
  }

  lemma {:induction false} EntriesImportExactly(b: seq<Bundle>)
    ensures ImportEntries(b).Ok? <==> forall i :: 0 <= i < |b| ==> BundleIsComplete(b[i])
    ensures ImportEntries(b).Err? ==> ImportEntries(b) == Err(ProtobufMissingError)
  {
    if b == [] {
    } else {
      EntriesImportExactly(b[..|b| - 1]);
    }
  }

  // Exactly the records that have all of this can be imported: the send header key is optional for
  // Alice, everything else is required, and the header decryptability must be a listed value.
  lemma {:induction false} ImportSucceedsExactly(r: Record)
    ensures Import(r).Ok? <==>
              && r.sendNumber.Some? && r.receiveNumber.Some? && r.purportedNumber.Some?
              && r.previousNumber.Some? && r.purportedPreviousNumber.Some?
              && r.ratchetFlag.Some? && r.amIAlice.Some? && r.receivedValid.Some?
              && r.decryptable.Some? && r.decryptable.value.Listed?
              && r.rootKey.Some? && (r.sendHeaderKey.Some? || r.amIAlice.value) && r.receiveHeaderKey.Some?
              && r.nextSendHeaderKey.Some? && r.nextReceiveHeaderKey.Some?
              && r.sendChainKey.Some? && r.receiveChainKey.Some?
              && r.ourIdentity.Some? && r.theirIdentity.Some?
              && r.ourPrivateEphemeral.Some? && r.ourEphemeral.Some? && r.theirEphemeral.Some?
              && (forall i :: 0 <= i < |r.skipped| ==> BundleIsComplete(r.skipped[i]))
              && (forall i :: 0 <= i < |r.staged| ==> BundleIsComplete(r.staged[i]))
  {
    EntriesImportExactly(r.skipped);
    EntriesImportExactly(r.staged);
  }

  // All numbers and flags are there, with a listed decryptability.
  predicate HasNumbers(r: Record) {
    && r.sendNumber.Some? && r.receiveNumber.Some? && r.purportedNumber.Some?
    && r.previousNumber.Some? && r.purportedPreviousNumber.Some?
    && r.ratchetFlag.Some? && r.amIAlice.Some? && r.receivedValid.Some? && r.decryptable.Some?
  }

  // The error is a missing field, but for an unlisted decryptability, and for a key that the other
  // role must have when everything read before it is there.
  lemma {:induction false} ImportErrorsExactly(r: Record)
    requires Import(r).Err?
    ensures Import(r).error
         == if HasNumbers(r) && r.decryptable.value.Unlisted? then InvalidValue
            else if && HasNumbers(r) && r.rootKey.Some? && (r.sendHeaderKey.Some? || r.amIAlice.value)
                    && r.receiveHeaderKey.None? && !r.amIAlice.value then ExpectationFailed
            else if && HasNumbers(r) && r.rootKey.Some? && (r.sendHeaderKey.Some? || r.amIAlice.value)
                    && r.receiveHeaderKey.Some? && r.nextSendHeaderKey.Some? && r.nextReceiveHeaderKey.Some?
                    && (if r.amIAlice.value then r.sendChainKey.None?
                        else r.sendChainKey.Some? && r.receiveChainKey.None?) then ExpectationFailed
            else ProtobufMissingError
  {
    EntriesImportExactly(r.skipped);
    EntriesImportExactly(r.staged);
  }

  // What an exported record says of the reception in progress.
  lemma {:induction false} ExportedReception(x: Snapshot)
    requires Export(x).Ok?
    ensures var r, p := Export(x).value, x.purported;
            && r.receivedValid == Some(x.receivedValid) && r.decryptable == Some(Listed(x.decryptable))
            && r.purportedRootKey == (if p.rootKey.empty then None else Some(p.rootKey.bytes))
            && r.purportedReceiveHeaderKey == (if p.headerKey.empty then None else Some(p.headerKey.bytes))
            && r.purportedNextReceiveHeaderKey == (if p.nextHeaderKey.empty then None else Some(p.nextHeaderKey.bytes))
            && r.purportedReceiveChainKey == (if p.chainKey.empty then None else Some(p.chainKey.bytes))
            && r.theirPurportedEphemeral == p.ephemeral
            && r.purportedNumber == Some(p.number) && r.purportedPreviousNumber == Some(p.previous)
            && |r.staged| == |x.staged|
            && forall i :: 0 <= i < |x.staged| ==>
                 r.staged[i] == Bundle(Some(x.staged[i].headerKey.bytes), Some(x.staged[i].messageKey),
                                       Some(x.staged[i].expiration))
  {
  }

  // What must be present to be exported depends on the role.
  lemma {:induction false} ExportFailsExactly(x: Snapshot)
    ensures Export(x).Ok? <==>
              && !x.state.rootKey.empty && !x.state.nextSendHeaderKey.empty && !x.state.nextReceiveHeaderKey.empty
              && (x.state.role == Alice ==> !x.state.receiveHeaderKey.empty && !x.state.receiveChainKey.empty)
              && (x.state.role == Bob ==> x.state.sendHeaderKey.Some? && !x.state.sendChainKey.empty)
    ensures Export(x).Err? ==> Export(x) == Err(ExportError)
  {
  }

  // Every key of an imported store counts as present.
  function Revived(s: seq<Entry>): (t: seq<Entry>)
    ensures |t| == |s|
    ensures forall i :: 0 <= i < |s| ==> t[i] == s[i].(headerKey := Present(s[i].headerKey.bytes))
  {
    seq(|s|, i requires 0 <= i < |s| => s[i].(headerKey := Present(s[i].headerKey.bytes)))
  }

  lemma {:induction false} EntriesRoundTrip(s: seq<Entry>)
    ensures ImportEntries(ExportEntries(s)) == Ok(Revived(s))
    ensures ExportEntries(Revived(s)) == ExportEntries(s)
  {
    if s == [] {
    } else {
      var n := |s| - 1;
      EntriesRoundTrip(s[..n]);
      assert ExportEntries(s)[..n] == ExportEntries(s[..n]);
      assert Revived(s) == Revived(s[..n]) + [s[n].(headerKey := Present(s[n].headerKey.bytes))];
    }
  }

  ghost predicate AtRest(x: Snapshot) {
    x.receivedValid && x.decryptable == NotTried && x.staged == []
  }

  function PresentOrCleared(key: EmptyableKey): EmptyableKey {
    FromKey(Optional(key))
  }

  // What an export followed by an import makes of a ratchet.
  function RevivedSnapshot(x: Snapshot): Snapshot {
    var s, p := x.state, x.purported;
    Snapshot(
      s.(rootKey := Present(s.rootKey.bytes),
         sendHeaderKey := match s.sendHeaderKey { case None => None case Some(k) => Some(Present(k.bytes)) },
         receiveHeaderKey := Present(s.receiveHeaderKey.bytes),
         nextSendHeaderKey := Present(s.nextSendHeaderKey.bytes),
         nextReceiveHeaderKey := Present(s.nextReceiveHeaderKey.bytes),
         sendChainKey := Present(s.sendChainKey.bytes),
         receiveChainKey := Present(s.receiveChainKey.bytes),
         skipped := Revived(s.skipped)),
      Purported(PresentOrCleared(p.rootKey), PresentOrCleared(p.headerKey), PresentOrCleared(p.nextHeaderKey),
                PresentOrCleared(p.chainKey), p.ephemeral, p.number, p.previous),
      Revived(x.staged), x.receivedValid, x.decryptable)
  }

  // Exporting a sound ratchet succeeds, and so does importing the record.
  lemma {:induction false} ExportThenImport(x: Snapshot)
    requires Sound(x.state)
    ensures Export(x).Ok? && Import(Export(x).value) == Ok(RevivedSnapshot(x))
  {
    var r := Export(x).value;
    assert NumbersLack(r).None? && KeysLack(r, x.state.role).None?;
    assert ImportEntries(r.skipped) == Ok(Revived(x.state.skipped)) by { EntriesRoundTrip(x.state.skipped); }
    assert ImportEntries(r.staged) == Ok(Revived(x.staged)) by { EntriesRoundTrip(x.staged); }
  }

  // The imported ratchet differs at most in that absent keys have become present all-zero ones.
  lemma {:induction false} RevivedIsAlike(x: Snapshot)
    requires Sound(x.state)
    ensures var y := RevivedSnapshot(x);
            Alike(x.state, y.state) && Sound(y.state) && (AtRest(x) ==> AtRest(y))
  {
    assert Revived(x.state.skipped) == x.state.skipped by {
      forall i | 0 <= i < |x.state.skipped|
        ensures Revived(x.state.skipped)[i] == x.state.skipped[i]
      {
        assert x.state.skipped[i] in x.state.skipped;
      }
    }
  }

  // Exporting again gives the same record.
  lemma {:induction false} ExportIsStable(x: Snapshot)
    requires Sound(x.state)
    ensures Export(RevivedSnapshot(x)) == Export(x)
  {
    EntriesRoundTrip(x.state.skipped);
    EntriesRoundTrip(x.staged);
  }

  // A ratchet between two receptions; the purported values keep what the last one left.
  function Rested(s: State, purported: Purported): Snapshot {
    Snapshot(s, purported, [], true, NotTried)
  }

  // Putting a ratchet away and bringing it back.
  function Reload(s: State, purported: Purported): State {
    match Export(Rested(s, purported))
    case Err(_) => s
    case Ok(r) => match Import(r) { case Err(_) => s case Ok(x) => x.state }
  }

  lemma {:induction false} ReloadIsAlike(s: State, purported: Purported)
    requires Sound(s)
    ensures Alike(s, Reload(s, purported)) && Sound(Reload(s, purported))
  {
    ExportThenImport(Rested(s, purported));
    RevivedIsAlike(Rested(s, purported));
  }

  // Bisimulation: whatever a caller does with a ratchet and with its reloaded copy, the two
  // give the same answers.

  datatype Call =
    | SendCall(message: Message, keypair: nat, metadata: Option<PrekeyMetadata>)
    | ReceiveCall(packet: Packet, clock: nat -> nat, now: Instants)

  datatype Answer = Sends(packet: Packet) | Accepts(received: Received) | Fails(error: Status)

  function Call1(s: State, call: Call): (State, Answer) {
    match call
    case SendCall(message, keypair, metadata) =>
      var (t, r) := Send(s, message, keypair, metadata);
      (t, match r { case Ok(p) => Sends(p) case Err(error) => Fails(error) })
    case ReceiveCall(p, clock, now) =>
      var o := Deliver(s, p, clock, now);
      (o.state, match o.result { case Ok(m) => Accepts(m) case Err(error) => Fails(error) })
  }

  // The same answer, up to the error code for packets with an unreadable header under the
  // all-zero key.
  predicate SameAnswer(call: Call, a: Answer, b: Answer) {
    a == b || (call.ReceiveCall? && IsNullSealed(call.packet) && a.Fails? && b.Fails?)
  }

  function CallAll(s: State, calls: seq<Call>): seq<Answer>
    decreases |calls|
  {
    if calls == [] then []
    else
      var (t, answer) := Call1(s, calls[0]);
      [answer] + CallAll(t, calls[1..])
  }

  lemma {:induction false} AnswersPerCall(s: State, calls: seq<Call>)
    ensures |CallAll(s, calls)| == |calls|
    decreases |calls|
  {
    if calls == [] {
    } else {
      AnswersPerCall(Call1(s, calls[0]).0, calls[1..]);
    }
  }

  ghost predicate SameAnswers(calls: seq<Call>, a: seq<Answer>, b: seq<Answer>) {
    |a| == |b| == |calls| && forall i :: 0 <= i < |calls| ==> SameAnswer(calls[i], a[i], b[i])
  }

  lemma {:induction false} OneCallIsAlike(s: State, t: State, call: Call)
    requires Sound(s) && Alike(s, t)
    ensures var a, b := Call1(s, call), Call1(t, call);
            SameAnswer(call, a.1, b.1) && Sound(a.0) && Alike(a.0, b.0)
  {
    hide Send, Deliver;
    match call {
      case SendCall(message, keypair, metadata) =>
        SendIsBlindToAbsence(s, t, message, keypair, metadata);
        SendKeepsSound(s, message, keypair, metadata);
      case ReceiveCall(p, clock, now) =>
        DeliverIsBlindToAbsence(s, t, p, clock, now);
        DeliverKeepsSound(s, p, clock, now);
    }
  }

  lemma {:induction false} AlikeAnswersAlike(s: State, t: State, calls: seq<Call>)
    requires Sound(s) && Alike(s, t)
    ensures SameAnswers(calls, CallAll(s, calls), CallAll(t, calls))
    decreases |calls|
  {
    AnswersPerCall(s, calls);
    AnswersPerCall(t, calls);
    if calls == [] {
    } else {
      var a, b := Call1(s, calls[0]), Call1(t, calls[0]);
      OneCallIsAlike(s, t, calls[0]);
      AlikeAnswersAlike(a.0, b.0, calls[1..]);
      assert CallAll(s, calls) == [a.1] + CallAll(a.0, calls[1..]);
      assert CallAll(t, calls) == [b.1] + CallAll(b.0, calls[1..]);
    }
  }

  // A ratchet at rest and its reloaded copy cannot be told apart by any further calls, whatever
  // its purported values hold. The one exception is an error code: see `IsNullSealed`.
  lemma {:induction false} ReloadIsInvisible(x: Snapshot, calls: seq<Call>)
    requires Sound(x.state) && AtRest(x)
    ensures Export(x).Ok? && Import(Export(x).value).Ok?
    ensures var y := Import(Export(x).value).value;
            AtRest(y) && SameAnswers(calls, CallAll(x.state, calls), CallAll(y.state, calls))
  {
    ExportThenImport(x);
    RevivedIsAlike(x);
    AlikeAnswersAlike(x.state, RevivedSnapshot(x).state, calls);
  }
}
