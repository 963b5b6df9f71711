// lib/ratchet.cpp: the ratchet as an object whose fields change step by step.
module RatchetObject {
  import opened Keys
  import opened KeyDerivation
  import opened KeyStore
  import opened RatchetState
  import opened Results
  import opened TwoPhase
  import opened Persistence

  // class RatchetStorage: the keys, kept apart in protected memory.
  datatype Storage = Storage(
    rootKey: EmptyableKey,
    purportedRootKey: EmptyableKey,
    sendHeaderKey: Option<EmptyableKey>,
    receiveHeaderKey: EmptyableKey,
    nextSendHeaderKey: EmptyableKey,
    nextReceiveHeaderKey: EmptyableKey,
    purportedReceiveHeaderKey: EmptyableKey,
    purportedNextReceiveHeaderKey: EmptyableKey,
    sendChainKey: EmptyableKey,
    receiveChainKey: EmptyableKey,
    purportedReceiveChainKey: EmptyableKey,
    ourIdentity: PublicKey,
    theirIdentity: PublicKey,
    ourPrivateEphemeral: PrivateKey,
    ourEphemeral: PublicKey,
    theirEphemeral: PublicKey,
    theirPurportedEphemeral: Option<PublicKey>)

  const BLANK_STORAGE := Storage(
    CLEARED, CLEARED, None, CLEARED, CLEARED, CLEARED, CLEARED, CLEARED, CLEARED, CLEARED, CLEARED,
    PublicKey(0), PublicKey(0), Erased, PublicKey(0), PublicKey(0), None)

  lemma {:induction false} ImportErrorIsMissing(bundles: seq<Bundle>)
    ensures ImportEntries(bundles).Err? ==> ImportEntries(bundles) == Err(ProtobufMissingError)
  {
    if bundles == [] {
    } else {
      ImportErrorIsMissing(bundles[..|bundles| - 1]);
    }
  }

  lemma {:induction false} ImportStopsAt(bundles: seq<Bundle>, i: nat)
    requires i < |bundles|
    requires bundles[i].headerKey.None? || bundles[i].messageKey.None? || bundles[i].expiration.None?
    ensures ImportEntries(bundles) == Err(ProtobufMissingError)
  {
    var last := |bundles| - 1;
    if i < last {
      ImportStopsAt(bundles[..last], i);
    } else {
      ImportErrorIsMissing(bundles[..last]);
    }
  }

  class Ratchet {
    var storage: Storage
    var sendNumber: nat
    var receiveNumber: nat
    var purportedNumber: nat
    var previousNumber: nat
    var purportedPreviousNumber: nat
    var ratchetFlag: bool
    var role: Role
    var receivedValid: bool
    var decryptable: HeaderDecryptability

    const skipped: HeaderAndMessageKeyStore
    const staged: HeaderAndMessageKeyStore

    ghost predicate Valid()
      reads this, skipped, staged
    {
      skipped != staged && skipped.Valid() && staged.Valid()
    }

    // What only a commit or a send changes.
    ghost function Committed(): State
      reads this, skipped
    {
      var k := storage;
      State(role, k.rootKey, k.sendHeaderKey, k.receiveHeaderKey, k.nextSendHeaderKey, k.nextReceiveHeaderKey,
            k.sendChainKey, k.receiveChainKey, k.ourIdentity, k.theirIdentity, k.ourPrivateEphemeral, k.ourEphemeral,
            k.theirEphemeral, sendNumber, receiveNumber, previousNumber, ratchetFlag, skipped.keys)
    }

    ghost function PurportedValues(): Purported
      reads this
    {
      var k := storage;
      Purported(k.purportedRootKey, k.purportedReceiveHeaderKey, k.purportedNextReceiveHeaderKey,
                k.purportedReceiveChainKey, k.theirPurportedEphemeral, purportedNumber, purportedPreviousNumber)
    }

    ghost function Content(): Snapshot
      reads this, skipped, staged
    {
      Snapshot(Committed(), PurportedValues(), staged.keys, receivedValid, decryptable)
    }

    constructor Blank()
      ensures Valid() && fresh(this) && fresh(skipped) && fresh(staged)
      ensures skipped.keys == staged.keys == [] && PurportedValues() == NOTHING_PURPORTED
      ensures storage == BLANK_STORAGE
    {
      storage := BLANK_STORAGE;
      sendNumber, receiveNumber, purportedNumber, previousNumber, purportedPreviousNumber := 0, 0, 0, 0, 0;
      ratchetFlag, role, receivedValid, decryptable := false, Bob, false, NotTried;
      skipped := new HeaderAndMessageKeyStore();
      staged := new HeaderAndMessageKeyStore();
    }

    // What a new ratchet keeps of the derived keys, step by step.
    static method FillStorage(
      derived: Initial, ourIdentity: PublicKey, theirIdentity: PublicKey,
      ourPrivateEphemeral: PrivateKey, ourEphemeral: PublicKey, theirEphemeral: PublicKey)
      returns (storage: Storage)
      ensures storage == Storage(
                Present(derived.rootKey), CLEARED,
                match derived.sendHeaderKey { case None => None case Some(k) => Some(Present(k)) },
                FromKey(derived.receiveHeaderKey),
                Present(derived.nextSendHeaderKey), Present(derived.nextReceiveHeaderKey), CLEARED, CLEARED,
                FromKey(derived.sendChainKey), FromKey(derived.receiveChainKey), CLEARED,
                ourIdentity, theirIdentity, ourPrivateEphemeral, ourEphemeral, theirEphemeral, None)
    {
      storage := BLANK_STORAGE;
      storage := storage.(rootKey := Present(derived.rootKey));
      if derived.sendChainKey.Some? {
        storage := storage.(sendChainKey := Present(derived.sendChainKey.value));
      } else {
        storage := storage.(sendChainKey := CLEARED);
      }
      if derived.receiveChainKey.Some? {
        storage := storage.(receiveChainKey := Present(derived.receiveChainKey.value));
      } else {
        storage := storage.(receiveChainKey := CLEARED);
      }
      if derived.sendHeaderKey.Some? {
        storage := storage.(sendHeaderKey := Some(Present(derived.sendHeaderKey.value)));
      } else {
        storage := storage.(sendHeaderKey := None);
      }
      if derived.receiveHeaderKey.Some? {
        storage := storage.(receiveHeaderKey := Present(derived.receiveHeaderKey.value));
      } else {
        storage := storage.(receiveHeaderKey := CLEARED);
      }
      storage := storage.(nextSendHeaderKey := Present(derived.nextSendHeaderKey));
      storage := storage.(nextReceiveHeaderKey := Present(derived.nextReceiveHeaderKey));
      storage := storage.(ourIdentity := ourIdentity, theirIdentity := theirIdentity);
      storage := storage.(ourPrivateEphemeral := ourPrivateEphemeral);
      storage := storage.(ourEphemeral := ourEphemeral, theirEphemeral := theirEphemeral);
    }

    static method Create(
      ourPrivateIdentity: PrivateKey, ourIdentity: PublicKey, theirIdentity: PublicKey,
      ourPrivateEphemeral: PrivateKey, ourEphemeral: PublicKey, theirEphemeral: PublicKey)
      returns (r: Result<Ratchet>)
      ensures match RatchetState.Create(ourPrivateIdentity, ourIdentity, theirIdentity,
                                        ourPrivateEphemeral, ourEphemeral, theirEphemeral)
              case Err(error) => r == Err(error)
              case Ok(s) => && r.Ok? && fresh(r.value) && fresh(r.value.skipped) && fresh(r.value.staged)
                            && r.value.Valid() && r.value.Content() == Rested(s, NOTHING_PURPORTED)
    {
      hide DeriveInitialKeys;
      var ratchet := new Ratchet.Blank();
      if ourIdentity.id > theirIdentity.id {
        ratchet.role := Alice;
      } else if ourIdentity.id < theirIdentity.id {
        ratchet.role := Bob;
      } else {
        return Err(ShouldntHappen);
      }
      var derived := DeriveInitialKeys(ourPrivateIdentity, ourIdentity, theirIdentity,
                                       ourPrivateEphemeral, ourEphemeral, theirEphemeral, ratchet.role);
      var filled := FillStorage(derived, ourIdentity, theirIdentity, ourPrivateEphemeral, ourEphemeral, theirEphemeral);
      ratchet.storage := filled;
      ratchet.ratchetFlag := ratchet.role == Alice;
      ratchet.receivedValid := true;
      ratchet.decryptable := NotTried;
      ratchet.sendNumber, ratchet.receiveNumber, ratchet.previousNumber := 0, 0, 0;
      r := Ok(ratchet);
    }

    // `keypair` is what `crypto_box_keypair` draws, should it be called.
    method GetSendData(keypair: nat) returns (r: Result<SendData>)
      requires Valid()
      modifies this
      ensures Valid()
      ensures (Committed(), r) == RatchetState.GetSendData(old(Committed()), keypair)
      ensures Content() == old(Content()).(state := Committed())
    {
      if ratchetFlag {
        storage := storage.(ourEphemeral := PublicKey(keypair), ourPrivateEphemeral := PrivateKey(keypair));
        storage := storage.(sendHeaderKey := Some(storage.nextSendHeaderKey));
        var derivation := DeriveRootNextHeaderAndChainKeys(
          storage.ourPrivateEphemeral, storage.ourEphemeral, storage.theirEphemeral, storage.rootKey, role);
        if derivation.Err? {
          return Err(derivation.error);
        }
        storage := storage.(rootKey := Present(derivation.value.rootKey));
        storage := storage.(nextSendHeaderKey := Present(derivation.value.nextHeaderKey));
        storage := storage.(sendChainKey := Present(derivation.value.chainKey));
        previousNumber := sendNumber;
        sendNumber := 0;
        ratchetFlag := false;
      }
      if storage.sendChainKey.empty {
        return Err(ExpectationFailed);
      }
      var messageKey := MessageKey(storage.sendChainKey.bytes);
      if storage.sendHeaderKey.None? {
        return Err(InvalidState);
      }
      r := Ok(SendData(sendNumber, previousNumber, storage.ourEphemeral, messageKey, storage.sendHeaderKey.value));
      sendNumber := Increment32(sendNumber);
      storage := storage.(sendChainKey := Present(NextChainKey(storage.sendChainKey.bytes)));
    }

    method SetHeaderDecryptability(d: HeaderDecryptability) returns (r: Result<()>)
      requires Valid()
      modifies this
      ensures Valid()
      ensures r == if old(decryptable) == NotTried && d != NotTried then Ok(()) else Err(ExpectationFailed)
      ensures Content() == if r.Ok? then old(Content()).(decryptable := d) else old(Content())
    {
      if decryptable != NotTried || d == NotTried {
        return Err(ExpectationFailed);
      }
      decryptable := d;
      r := Ok(());
    }

    // Derives all message keys up to a number and adds the skipped ones to a store. The two
    // outputs keep `messageKey` and `nextChainKey` when there is no chain.
    static method StageSkippedKeys(
      staging: HeaderAndMessageKeyStore, messageKey: Key, nextChainKey: EmptyableKey,
      headerKey: EmptyableKey, current: nat, future: nat, chainKey: EmptyableKey, clock: nat -> nat)
      returns (r: Result<()>, outMessageKey: Key, outChainKey: EmptyableKey)
      requires staging.Valid()
      modifies staging
      ensures staging.Valid()
      ensures match StageSkipped(old(staging.keys), headerKey, current, future, chainKey, clock,
                                 messageKey, nextChainKey)
              case Err(error) => r == Err(error) && staging.keys == old(staging.keys)
              case Ok((keys, mk, ck)) => r == Ok(()) && staging.keys == keys && outMessageKey == mk && outChainKey == ck
    {
      outMessageKey, outChainKey := messageKey, nextChainKey;
      if chainKey.IsNone() {
        return Ok(()), outMessageKey, outChainKey;
      }
      if future > current + MAXIMUM_SKIPPED_MESSAGES {
        return Err(ReceiveError), outMessageKey, outChainKey;
      }
      ghost var before, steps := staging.keys, 0;
      var currentChainKey := chainKey;
      var pos := current;
      while pos < future
        invariant pos == current + steps && (pos <= future || steps == 0)
        invariant staging.Valid()
        invariant currentChainKey == Present(Walk(chainKey.bytes, steps))
        invariant staging.keys == Stage(before, headerKey, chainKey.bytes, steps, clock)
      {
        StageStep(before, headerKey, chainKey.bytes, steps, clock);
        var now := clock(|staging.keys|);
        staging.AddKeys(headerKey, MessageKey(currentChainKey.bytes), now, now);
        currentChainKey := Present(NextChainKey(currentChainKey.bytes));
        pos := pos + 1;
        steps := steps + 1;
      }
      assert steps == Gap(current, future);
      outMessageKey := MessageKey(currentChainKey.bytes);
      outChainKey := Present(NextChainKey(currentChainKey.bytes));
      r := Ok(());
    }

    // First phase of a reception; nothing committed changes.
    method Receive(ephemeral: PublicKey, number: nat, previous: nat, clock: nat -> nat) returns (r: Result<Key>)
      requires Valid()
      modifies this, staged
      ensures Valid() && Committed() == old(Committed())
      ensures !old(receivedValid) || old(decryptable) == NotTried ==>
              r == Err(InvalidState) && Content() == old(Content())
      ensures decryptable == old(decryptable)
      ensures old(receivedValid) && old(decryptable) != NotTried ==>
                && receivedValid == r.Err?
                && Plan(PurportedValues(), staged.keys, r)
                   == StageReceive(old(Committed()), old(PurportedValues()), old(staged.keys), old(decryptable),
                                   ephemeral, number, previous, clock)
    {
      if !receivedValid {
        return Err(InvalidState);
      }
      if decryptable == NotTried {
        return Err(InvalidState);
      }
      var messageKey := Zero;
      if !storage.receiveHeaderKey.IsNone() && decryptable == CurrentDecryptable {
        purportedNumber := number;
        var staging, mk, ck := StageSkippedKeys(staged, messageKey, storage.purportedReceiveChainKey,
          storage.receiveHeaderKey, receiveNumber, number, storage.receiveChainKey, clock);
        if staging.Err? {
          return Err(staging.error);
        }
        messageKey := mk;
        storage := storage.(purportedReceiveChainKey := ck);
      } else {
        if ratchetFlag || decryptable != NextDecryptable {
          return Err(DecryptError);
        }
        purportedNumber := number;
        purportedPreviousNumber := previous;
        storage := storage.(theirPurportedEphemeral := Some(ephemeral));
        var missing, _, _ := StageSkippedKeys(staged, Zero, CLEARED,
          storage.receiveHeaderKey, receiveNumber, previous, storage.receiveChainKey, clock);
        if missing.Err? {
          return Err(missing.error);
        }
        storage := storage.(purportedReceiveHeaderKey := storage.nextReceiveHeaderKey);
        var derivation := DeriveRootNextHeaderAndChainKeys(
          storage.ourPrivateEphemeral, storage.ourEphemeral, ephemeral, storage.rootKey, role);
        if derivation.Err? {
          return Err(derivation.error);
        }
        storage := storage.(purportedRootKey := Present(derivation.value.rootKey));
        storage := storage.(purportedNextReceiveHeaderKey := Present(derivation.value.nextHeaderKey));
        storage := storage.(purportedReceiveChainKey := Present(derivation.value.chainKey));
        var chainKey := storage.purportedReceiveChainKey;
        var staging, mk, ck := StageSkippedKeys(staged, messageKey, storage.purportedReceiveChainKey,
          storage.purportedReceiveHeaderKey, 0, number, chainKey, clock);
        if staging.Err? {
          return Err(staging.error);
        }
        messageKey := mk;
        storage := storage.(purportedReceiveChainKey := ck);
      }
      receivedValid := false;
      r := Ok(messageKey);
    }

    // Second phase: accept the purported values or forget them.
    method SetLastMessageAuthenticity(valid: bool, now: Instants) returns (r: Result<()>)
      requires Valid()
      modifies this, skipped, staged
      ensures Valid() && receivedValid && decryptable == NotTried && PurportedValues() == old(PurportedValues())
      ensures staged.keys == if r.Ok? then [] else old(staged.keys)
      ensures !valid ==> r == Ok(()) && Committed() == old(Committed())
      ensures valid ==>
                (Committed(), r)
                == Commit(old(Committed()), old(PurportedValues()), old(staged.keys), old(decryptable), now)
    {
      receivedValid := true;
      var d := decryptable;
      decryptable := NotTried;
      if !valid {
        staged.Clear();
        return Ok(());
      }
      if storage.receiveHeaderKey.IsNone() || d != CurrentDecryptable {
        if ratchetFlag || d != NextDecryptable {
          staged.Clear();
          return Ok(());
        }
        storage := storage.(rootKey := storage.purportedRootKey);
        storage := storage.(receiveHeaderKey := storage.purportedReceiveHeaderKey);
        storage := storage.(nextReceiveHeaderKey := storage.purportedNextReceiveHeaderKey);
        if storage.theirPurportedEphemeral.None? {
          return Err(InvalidValue);
        }
        storage := storage.(theirEphemeral := storage.theirPurportedEphemeral.value);
        storage := storage.(ourPrivateEphemeral := Erased);
        ratchetFlag := true;
      }
      CommitSkippedKeys(now);
      receiveNumber := Increment32(purportedNumber);
      storage := storage.(receiveChainKey := storage.purportedReceiveChainKey);
      r := Ok(());
    }

    method CommitSkippedKeys(now: Instants)
      requires Valid()
      modifies skipped, staged
      ensures Valid() && staged.keys == []
      ensures skipped.keys == Settle(old(skipped.keys), old(staged.keys), now)
    {
      SettleIsTrimmedTwice(skipped.keys, staged.keys, now);
      skipped.AddStore(staged, now.merged);
      staged.Clear();
      skipped.RemoveOutdatedAndTrimSize(now.trimmed);
    }

    method ExportProtobuf() returns (r: Result<Record>)
      requires Valid()
      ensures r == Export(Content())
    {
      var k := storage;
      if k.rootKey.empty {
        return Err(ExportError);
      }
      if k.sendHeaderKey.None? && role == Bob {
        return Err(ExportError);
      }
      if role == Alice && k.receiveHeaderKey.empty {
        return Err(ExportError);
      }
      if k.nextSendHeaderKey.empty || k.nextReceiveHeaderKey.empty {
        return Err(ExportError);
      }
      if role == Bob && k.sendChainKey.empty {
        return Err(ExportError);
      }
      if role == Alice && k.receiveChainKey.empty {
        return Err(ExportError);
      }
      var skippedBundles := ExportStore(skipped);
      var stagedBundles := ExportStore(staged);
      r := Ok(Record(
        Some(k.rootKey.bytes), Optional(k.purportedRootKey),
        match k.sendHeaderKey { case None => None case Some(key) => Some(key.bytes) }, Some(k.receiveHeaderKey.bytes),
        Some(k.nextSendHeaderKey.bytes), Some(k.nextReceiveHeaderKey.bytes),
        Optional(k.purportedReceiveHeaderKey), Optional(k.purportedNextReceiveHeaderKey),
        Some(k.sendChainKey.bytes), Some(k.receiveChainKey.bytes), Optional(k.purportedReceiveChainKey),
        Some(k.ourIdentity), Some(k.theirIdentity),
        Some(k.ourPrivateEphemeral), Some(k.ourEphemeral), Some(k.theirEphemeral), k.theirPurportedEphemeral,
        Some(sendNumber), Some(receiveNumber), Some(purportedNumber),
        Some(previousNumber), Some(purportedPreviousNumber),
        Some(ratchetFlag), Some(role == Alice), Some(receivedValid), Some(Listed(decryptable)),
        skippedBundles, stagedBundles));
    }

    static method ExportStore(store: HeaderAndMessageKeyStore) returns (bundles: seq<Bundle>)
      ensures bundles == ExportEntries(store.keys)
    {
      bundles := [];
      for i := 0 to |store.keys|
        invariant bundles == ExportEntries(store.keys)[..i]
      {
        var key := store.keys[i];
        bundles := bundles + [Bundle(Some(key.headerKey.bytes), Some(key.messageKey), Some(key.expiration))];
      }
    }

    static method ImportStore(bundles: seq<Bundle>) returns (r: Result<seq<Entry>>)
      ensures r == ImportEntries(bundles)
    {
      var entries: seq<Entry> := [];
      for i := 0 to |bundles|
        invariant ImportEntries(bundles[..i]) == Ok(entries)
      {
        assert bundles[..i + 1][..i] == bundles[..i];
        if bundles[i].headerKey.None? || bundles[i].messageKey.None? || bundles[i].expiration.None? {
          ImportStopsAt(bundles, i);
          return Err(ProtobufMissingError);
        }
        var b := bundles[i];
        entries := entries + [Entry(Present(b.headerKey.value), b.messageKey.value, b.expiration.value)];
      }
      assert bundles[..|bundles|] == bundles;
      r := Ok(entries);
    }

    // Message numbers and flags, in the order of the record.
    method ImportNumbers(record: Record) returns (r: Result<()>)
      modifies this
      ensures match NumbersLack(record)
              case Some(error) => r == Err(error)
              case None =>
                && r == Ok(()) && storage == old(storage)
                && sendNumber == record.sendNumber.value && receiveNumber == record.receiveNumber.value
                && purportedNumber == record.purportedNumber.value
                && previousNumber == record.previousNumber.value
                && purportedPreviousNumber == record.purportedPreviousNumber.value
                && ratchetFlag == record.ratchetFlag.value && role == RoleOf(record.amIAlice.value)
                && receivedValid == record.receivedValid.value && decryptable == record.decryptable.value.value
    {
      if record.sendNumber.None? {
        return Err(ProtobufMissingError);
      }
      sendNumber := record.sendNumber.value;
      if record.receiveNumber.None? {
        return Err(ProtobufMissingError);
      }
      receiveNumber := record.receiveNumber.value;
      if record.purportedNumber.None? {
        return Err(ProtobufMissingError);
      }
      purportedNumber := record.purportedNumber.value;
      if record.previousNumber.None? {
        return Err(ProtobufMissingError);
      }
      previousNumber := record.previousNumber.value;
      if record.purportedPreviousNumber.None? {
        return Err(ProtobufMissingError);
      }
      purportedPreviousNumber := record.purportedPreviousNumber.value;
      if record.ratchetFlag.None? {
        return Err(ProtobufMissingError);
      }
      ratchetFlag := record.ratchetFlag.value;
      if record.amIAlice.None? {
        return Err(ProtobufMissingError);
      }
      role := RoleOf(record.amIAlice.value);
      if record.receivedValid.None? {
        return Err(ProtobufMissingError);
      }
      receivedValid := record.receivedValid.value;
      if record.decryptable.None? {
        return Err(ProtobufMissingError);
      }
      match record.decryptable.value {
        case Unlisted => r := Err(InvalidValue);
        case Listed(value) =>
          decryptable := value;
          r := Ok(());
      }
    }

    // `fromSpan` on an optional field; a missing one is an empty span.
    static function FromSpan(key: Option<Key>): Result<EmptyableKey> {
      match key
      case None => Err(ExpectationFailed)
      case Some(bytes) => Ok(Present(bytes))
    }

    static function ImportedStorage(r: Record): Storage
      requires KeysLack(r, Alice).None? || KeysLack(r, Bob).None?
    {
      Storage(
        Present(r.rootKey.value), FromKey(r.purportedRootKey),
        match r.sendHeaderKey { case None => None case Some(k) => Some(Present(k)) },
        Present(r.receiveHeaderKey.value),
        Present(r.nextSendHeaderKey.value), Present(r.nextReceiveHeaderKey.value),
        FromKey(r.purportedReceiveHeaderKey), FromKey(r.purportedNextReceiveHeaderKey),
        Present(r.sendChainKey.value), Present(r.receiveChainKey.value), FromKey(r.purportedReceiveChainKey),
        r.ourIdentity.value, r.theirIdentity.value,
        r.ourPrivateEphemeral.value, r.ourEphemeral.value, r.theirEphemeral.value, r.theirPurportedEphemeral)
    }

    // The keys, in the order of the record.
    static method ImportKeys(record: Record, blank: Storage, role: Role) returns (r: Result<Storage>)
      requires blank == BLANK_STORAGE
      ensures match KeysLack(record, role)
              case Some(error) => r == Err(error)
              case None => r == Ok(ImportedStorage(record))
    {
      var storage := blank;
      if record.rootKey.None? {
        return Err(ProtobufMissingError);
      }
      storage := storage.(rootKey := Present(record.rootKey.value));
      if record.purportedRootKey.Some? {
        storage := storage.(purportedRootKey := Present(record.purportedRootKey.value));
      }
      if record.sendHeaderKey.None? {
        if role == Bob {
          return Err(ProtobufMissingError);
        }
        storage := storage.(sendHeaderKey := None);
      } else {
        storage := storage.(sendHeaderKey := Some(Present(record.sendHeaderKey.value)));
      }
      if role == Alice && record.receiveHeaderKey.None? {
        return Err(ProtobufMissingError);
      }
      var receiveHeaderKey := FromSpan(record.receiveHeaderKey);
      if receiveHeaderKey.Err? {
        return Err(receiveHeaderKey.error);
      }
      storage := storage.(receiveHeaderKey := receiveHeaderKey.value);
      if record.nextSendHeaderKey.None? {
        return Err(ProtobufMissingError);
      }
      storage := storage.(nextSendHeaderKey := Present(record.nextSendHeaderKey.value));
      if record.nextReceiveHeaderKey.None? {
        return Err(ProtobufMissingError);
      }
      storage := storage.(nextReceiveHeaderKey := Present(record.nextReceiveHeaderKey.value));
      if record.purportedReceiveHeaderKey.Some? {
        storage := storage.(purportedReceiveHeaderKey := Present(record.purportedReceiveHeaderKey.value));
      }
      if record.purportedNextReceiveHeaderKey.Some? {
        storage := storage.(purportedNextReceiveHeaderKey := Present(record.purportedNextReceiveHeaderKey.value));
      }
      if role == Bob && record.sendChainKey.None? {
        return Err(ProtobufMissingError);
      }
      var sendChainKey := FromSpan(record.sendChainKey);
      if sendChainKey.Err? {
        return Err(sendChainKey.error);
      }
      storage := storage.(sendChainKey := sendChainKey.value);
      if role == Alice && record.receiveChainKey.None? {
        return Err(ProtobufMissingError);
      }
      var receiveChainKey := FromSpan(record.receiveChainKey);
      if receiveChainKey.Err? {
        return Err(receiveChainKey.error);
      }
      storage := storage.(receiveChainKey := receiveChainKey.value);
      if record.purportedReceiveChainKey.Some? {
        storage := storage.(purportedReceiveChainKey := Present(record.purportedReceiveChainKey.value));
      }
      if record.ourIdentity.None? {
        return Err(ProtobufMissingError);
      }
      storage := storage.(ourIdentity := record.ourIdentity.value);
      if record.theirIdentity.None? {
        return Err(ProtobufMissingError);
      }
      storage := storage.(theirIdentity := record.theirIdentity.value);
      if record.ourPrivateEphemeral.None? {
        return Err(ProtobufMissingError);
      }
      storage := storage.(ourPrivateEphemeral := record.ourPrivateEphemeral.value);
      if record.ourEphemeral.None? {
        return Err(ProtobufMissingError);
      }
      storage := storage.(ourEphemeral := record.ourEphemeral.value);
      if record.theirEphemeral.None? {
        return Err(ProtobufMissingError);
      }
      storage := storage.(theirEphemeral := record.theirEphemeral.value);
      if record.theirPurportedEphemeral.Some? {
        storage := storage.(theirPurportedEphemeral := record.theirPurportedEphemeral);
      }
      r := Ok(storage);
    }

    // The imported object holds what the record says; its stores are as ordered as the record is.
    static method ImportProtobuf(record: Record) returns (r: Result<Ratchet>)
      ensures match Import(record)
              case Err(error) => r == Err(error)
              case Ok(x) => && r.Ok? && fresh(r.value) && fresh(r.value.skipped) && fresh(r.value.staged)
                            && r.value.skipped != r.value.staged && r.value.Content() == x
    {
      var ratchet := new Ratchet.Blank();
      var numbers := ratchet.ImportNumbers(record);
      if numbers.Err? {
        return Err(numbers.error);
      }
      var keys := ImportKeys(record, ratchet.storage, ratchet.role);
      if keys.Err? {
        return Err(keys.error);
      }
      ratchet.storage := keys.value;
      var skippedKeys := ImportStore(record.skipped);
      if skippedKeys.Err? {
        return Err(skippedKeys.error);
      }
      ratchet.skipped.keys := skippedKeys.value;
      var stagedKeys := ImportStore(record.staged);
      if stagedKeys.Err? {
        return Err(stagedKeys.error);
      }
      ratchet.staged.keys := stagedKeys.value;
      r := Ok(ratchet);
    }
  }
}
