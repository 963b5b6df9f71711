// lib/conversation.cpp: a ratchet together with the packets it sends and receives.
module ConversationObject {
  import opened Keys
  import opened KeyDerivation
  import opened KeyStore
  import opened RatchetState
  import opened Results
  import opened Soundness
  import opened TwoPhase
  import opened Persistence
  import opened RatchetObject
  import opened PrekeyStorage
  import Protocol

  // packet_decrypt_header and packet_decrypt_message

  function DecryptHeader(p: Packet, key: EmptyableKey): Result<Header> {
    if key.empty then Err(InvalidValue)
    else if p.Garbled? then Err(ProtobufUnpackError)
    else if p.headerKey != key.bytes then Err(DecryptError)
    else Ok(p.header)
  }

  function DecryptMessage(p: Packet, key: Key): Result<Message> {
    if p.Garbled? then Err(ProtobufUnpackError)
    else if p.bodyKey != key then Err(DecryptError)
    else Ok(p.body)
  }

  class Conversation {
    const id: nat
    const ratchet: Ratchet

    // Between calls no reception is in progress.
    ghost predicate Valid()
      reads this, ratchet, ratchet.skipped, ratchet.staged
    {
      ratchet.Valid() && Sound(ratchet.Committed()) && AtRest(ratchet.Content())
    }

    constructor (id: nat, ratchet: Ratchet)
      ensures this.id == id && this.ratchet == ratchet
    {
      this.id := id;
      this.ratchet := ratchet;
    }

    static method Create(
      id: nat, ourPrivateIdentity: PrivateKey, ourIdentity: PublicKey, theirIdentity: PublicKey,
      ourPrivateEphemeral: PrivateKey, ourEphemeral: PublicKey, theirEphemeral: PublicKey)
      returns (r: Result<Conversation>)
      ensures match RatchetState.Create(ourPrivateIdentity, ourIdentity, theirIdentity,
                                        ourPrivateEphemeral, ourEphemeral, theirEphemeral)
              case Err(error) => r == Err(error)
              case Ok(s) => && r.Ok? && fresh(r.value) && fresh(r.value.ratchet)
                            && fresh(r.value.ratchet.skipped) && fresh(r.value.ratchet.staged)
                            && r.value.ratchet.Valid() && r.value.ratchet.Content() == Rested(s, NOTHING_PURPORTED)
    {
      var created := Ratchet.Create(ourPrivateIdentity, ourIdentity, theirIdentity,
                                    ourPrivateEphemeral, ourEphemeral, theirEphemeral);
      if created.Err? {
        return Err(created.error);
      }
      var conversation := new Conversation(id, created.value);
      r := Ok(conversation);
    }

    method Send(message: Message, keypair: nat, metadata: Option<PrekeyMetadata>) returns (r: Result<Packet>)
      requires Valid()
      modifies ratchet
      ensures Valid() && ratchet.PurportedValues() == old(ratchet.PurportedValues())
      ensures (ratchet.Committed(), r) == RatchetState.Send(old(ratchet.Committed()), message, keypair, metadata)
      ensures r.Ok?
    {
      SendKeepsSound(ratchet.Committed(), message, keypair, metadata);
      var data := ratchet.GetSendData(keypair);
      match data {
        case Err(error) => r := Err(error);
        case Ok(keys) => r := Encrypt(keys, message, metadata);
      }
    }

    // Goes through the stored keys. The key that opens the packet is removed before the header
    // is read.
    method TrySkippedKeys(p: Packet) returns (r: Result<Received>)
      requires ratchet.Valid()
      modifies ratchet.skipped
      ensures ratchet.Valid()
      ensures var s := old(ratchet.Committed());
              var i := FindKey(s.skipped, p);
              if i < |s.skipped| then
                && ratchet.Committed() == s.(skipped := RemoveAt(s.skipped, i))
                && r == if p.header.Header? then Ok(Received(p.body, p.header.number, p.header.previous))
                        else Err(ProtobufUnpackError)
              else
                ratchet.Committed() == s && r == Err(DecryptError)
    {
      ghost var keys := ratchet.skipped.keys;
      var index := 0;
      while index < |ratchet.skipped.keys|
        invariant index <= |keys| && ratchet.skipped.keys == keys
        invariant FindKey(keys, p) == index + FindKey(keys[index..], p)
      {
        var node := ratchet.skipped.keys[index];
        assert keys[index..][1..] == keys[index + 1..];
        var header, message := DecryptHeader(p, node.headerKey), DecryptMessage(p, node.messageKey);
        if header.Ok? && message.Ok? {
          ratchet.skipped.Remove(index);
          match header.value {
            case MalformedHeader => return Err(ProtobufUnpackError);
            case Header(_, number, previous) => return Ok(Received(message.value, number, previous));
          }
        }
        index := index + 1;
      }
      r := Err(DecryptError);
    }

    // After a failure the ratchet may be left in the middle of a reception.
    method InternalReceive(p: Packet, clock: nat -> nat, now: Instants) returns (r: Result<Received>)
      requires Valid()
      modifies ratchet, ratchet.skipped, ratchet.staged
      ensures ratchet.Valid()
      ensures var o := Deliver(old(ratchet.Committed()), p, clock, now); ratchet.Committed() == o.state && r == o.result
      ensures ratchet.PurportedValues()
           == PurportedAfter(old(ratchet.Committed()), old(ratchet.PurportedValues()), p, clock)
      ensures r.Ok? ==> AtRest(ratchet.Content())
    {
      var late := TrySkippedKeys(p);
      if late.Ok? {
        return late;
      }
      var header;
      var current := DecryptHeader(p, ratchet.storage.receiveHeaderKey);
      if current.Ok? {
        header := current.value;
        var _ := ratchet.SetHeaderDecryptability(CurrentDecryptable);
      } else {
        var next := DecryptHeader(p, ratchet.storage.nextReceiveHeaderKey);
        if next.Ok? {
          header := next.value;
          var _ := ratchet.SetHeaderDecryptability(NextDecryptable);
        } else {
          var _ := ratchet.SetHeaderDecryptability(Undecryptable);
          return Err(DecryptError);
        }
      }
      if header.MalformedHeader? {
        return Err(ProtobufUnpackError);
      }
      r := ReceiveWithHeader(p, header, clock, now);
    }

    // The part of a reception behind the header: stage, decrypt, commit.
    method ReceiveWithHeader(p: Packet, header: Header, clock: nat -> nat, now: Instants) returns (r: Result<Received>)
      requires ratchet.Valid() && Sound(ratchet.Committed())
      requires p.Packet? && p.header == header && header.Header?
               && FindKey(ratchet.skipped.keys, p) == |ratchet.skipped.keys|
      requires ratchet.receivedValid && ratchet.staged.keys == []
      requires ratchet.decryptable == Decryptability(ratchet.Committed(), p) != Undecryptable
      modifies ratchet, ratchet.skipped, ratchet.staged
      ensures ratchet.Valid()
      ensures var o := Deliver(old(ratchet.Committed()), p, clock, now); ratchet.Committed() == o.state && r == o.result
      ensures ratchet.PurportedValues()
           == PurportedAfter(old(ratchet.Committed()), old(ratchet.PurportedValues()), p, clock)
      ensures r.Ok? ==> AtRest(ratchet.Content())
    {
      TwoPhasesAreOneDelivery(ratchet.Committed(), ratchet.PurportedValues(), p, clock, now);
      var messageKey := ratchet.Receive(header.ephemeral, header.number, header.previous, clock);
      if messageKey.Err? {
        return Err(messageKey.error);
      }
      var message := DecryptMessage(p, messageKey.value);
      if message.Err? {
        return Err(message.error);
      }
      var _ := ratchet.SetLastMessageAuthenticity(true, now);
      r := Ok(Received(message.value, header.number, header.previous));
    }

    // For every packet whatsoever this is one delivery on the committed state, and afterwards no
    // reception is in progress.
    method Receive(p: Packet, clock: nat -> nat, now: Instants) returns (r: Result<Received>)
      requires Valid()
      modifies ratchet, ratchet.skipped, ratchet.staged
      ensures Valid()
      ensures var o := Deliver(old(ratchet.Committed()), p, clock, now); ratchet.Committed() == o.state && r == o.result
      ensures ratchet.PurportedValues()
           == PurportedAfter(old(ratchet.Committed()), old(ratchet.PurportedValues()), p, clock)
    {
      DeliverKeepsSound(ratchet.Committed(), p, clock, now);
      r := InternalReceive(p, clock, now);
      if r.Err? {
        var _ := ratchet.SetLastMessageAuthenticity(false, now);
      }
    }

    // `prekeyNumber` is the random choice, `keypair` what is drawn for the ephemeral and
    // `nextKeypair` what the first message draws if it starts a chain of its own.
    static method CreateSendConversation(
      message: Message, senderIdentity: PublicKey, senderPrivateIdentity: PrivateKey, receiverIdentity: PublicKey,
      prekeys: seq<PublicKey>, id: nat, keypair: nat, prekeyNumber: nat, nextKeypair: nat)
      returns (r: Result<(Packet, Conversation)>)
      requires prekeyNumber < PREKEY_AMOUNT
      requires senderPrivateIdentity == PrivateKey(senderIdentity.id)
      ensures |prekeys| != PREKEY_AMOUNT ==> r == Err(ExpectationFailed)
      ensures |prekeys| == PREKEY_AMOUNT && senderIdentity == receiverIdentity ==> r == Err(ShouldntHappen)
      ensures |prekeys| == PREKEY_AMOUNT && senderIdentity != receiverIdentity ==>
                var created := RatchetState.Create(senderPrivateIdentity, senderIdentity, receiverIdentity,
                                                   PrivateKey(keypair), PublicKey(keypair), prekeys[prekeyNumber]);
                && created.Ok? && r.Ok? && r.value.1.Valid()
                && (r.value.1.ratchet.Committed(), Ok(r.value.0))
                   == RatchetState.Send(created.value, message, nextKeypair,
                                        Some(PrekeyMetadata(senderIdentity, PublicKey(keypair), prekeys[prekeyNumber])))
    {
      if |prekeys| != PREKEY_AMOUNT {
        return Err(ExpectationFailed);
      }
      var prekey := prekeys[prekeyNumber];
      var created := Create(id, senderPrivateIdentity, senderIdentity, receiverIdentity,
                            PrivateKey(keypair), PublicKey(keypair), prekey);
      if created.Err? {
        return Err(created.error);
      }
      if senderIdentity.id != receiverIdentity.id {
        CreatedIsSound(senderIdentity.id, receiverIdentity.id, keypair, prekey.id);
      }
      var metadata := PrekeyMetadata(senderIdentity, PublicKey(keypair), prekey);
      var packet := created.value.Send(message, nextKeypair, Some(metadata));
      r := Ok((packet.value, created.value));
    }

    // The prekey is looked up, and by that deprecated, before anything else is known to be valid.
    static method CreateReceiveConversation(
      p: Packet, receiverIdentity: PublicKey, receiverPrivateIdentity: PrivateKey, prekeys: PrekeyStore,
      id: nat, newPrekey: nat, deprecatedAt: nat, generatedAt: nat, clock: nat -> nat, now: Instants)
      returns (r: Result<(Message, Conversation)>)
      requires prekeys.Valid()
      requires receiverPrivateIdentity == PrivateKey(receiverIdentity.id)
      requires forall i :: 0 <= i < PREKEY_AMOUNT ==>
               prekeys.prekeys[i].privateKey == PrivateKey(prekeys.prekeys[i].publicKey.id)
      requires forall k :: k in prekeys.deprecated ==> k.privateKey == PrivateKey(k.publicKey.id)
      modifies prekeys, prekeys.prekeys
      ensures prekeys.Valid()
      ensures p.Garbled? || p.metadata.None? ==>
                && r == Err(if p.Garbled? then ProtobufUnpackError else InvalidValue)
                && prekeys.Content() == old(prekeys.Content())
      ensures p.Packet? && p.metadata.Some? ==>
                var m := p.metadata.value;
                var (content, privateKey) :=
                  Lookup(old(prekeys.Content()), m.prekey, newPrekey, deprecatedAt, generatedAt);
                && prekeys.Content() == content
                && (privateKey.Err? ==> r == Err(privateKey.error))
                && (privateKey.Ok? ==>
                      match RatchetState.Create(receiverPrivateIdentity, receiverIdentity, m.identity,
                                                privateKey.value, m.prekey, m.ephemeral)
                      case Err(error) => r == Err(error)
                      case Ok(s) =>
                        match Deliver(s, p, clock, now).result
                        case Err(error) => r == Err(error)
                        case Ok(received) => && r.Ok? && r.value.0 == received.message && r.value.1.Valid()
                                             && r.value.1.ratchet.Committed() == Deliver(s, p, clock, now).state)
    {
      if p.Garbled? {
        return Err(ProtobufUnpackError);
      }
      if p.metadata.None? {
        return Err(InvalidValue);
      }
      var m := p.metadata.value;
      var privateKey := prekeys.GetPrekey(m.prekey, newPrekey, deprecatedAt, generatedAt);
      if privateKey.Err? {
        return Err(privateKey.error);
      }
      assert privateKey.value == PrivateKey(m.prekey.id);
      var created := Create(id, receiverPrivateIdentity, receiverIdentity, m.identity,
                            privateKey.value, m.prekey, m.ephemeral);
      if created.Err? {
        return Err(created.error);
      }
      if receiverIdentity.id != m.identity.id {
        CreatedIsSound(receiverIdentity.id, m.identity.id, m.prekey.id, m.ephemeral.id);
      }
      var received := created.value.Receive(p, clock, now);
      if received.Err? {
        return Err(received.error);
      }
      r := Ok((received.value.message, created.value));
    }
  }

  // First contact

  // Two ratchets with opposite roles and mirrored keys.
  ghost predicate Mirrors(a: State, b: State) {
    && a.role == Other(b.role)
    && a.rootKey == b.rootKey
    && (if a.sendHeaderKey.None? then b.receiveHeaderKey.IsNone() else a.sendHeaderKey == Some(b.receiveHeaderKey))
    && (if b.sendHeaderKey.None? then a.receiveHeaderKey.IsNone() else b.sendHeaderKey == Some(a.receiveHeaderKey))
    && a.sendChainKey == b.receiveChainKey && a.receiveChainKey == b.sendChainKey
    && a.nextSendHeaderKey == b.nextReceiveHeaderKey && a.nextReceiveHeaderKey == b.nextSendHeaderKey
    && a.ourEphemeral == b.theirEphemeral && a.theirEphemeral == b.ourEphemeral
    && a.ratchetFlag == !b.ratchetFlag
  }

  // Whoever initiates, the initiator's ratchet and the one the other side makes of the prekey
  // and the metadata mirror each other, they are the pair that runs start from, and the first
  // packet yields the first message.
  lemma {:induction false} FirstContact(
    initiator: nat, responder: nat, ephemeral: nat, prekey: nat, nextKeypair: nat,
    message: Message, metadata: Option<PrekeyMetadata>, clock: nat -> nat, now: Instants)
    requires initiator != responder
    ensures var a := RatchetState.Create(PrivateKey(initiator), PublicKey(initiator), PublicKey(responder),
                                         PrivateKey(ephemeral), PublicKey(ephemeral), PublicKey(prekey));
            var b := RatchetState.Create(PrivateKey(responder), PublicKey(responder), PublicKey(initiator),
                                         PrivateKey(prekey), PublicKey(prekey), PublicKey(ephemeral));
            var setup := if initiator > responder then Protocol.Setup(initiator, responder, ephemeral, prekey)
                         else Protocol.Setup(responder, initiator, prekey, ephemeral);
            && a.Ok? && b.Ok? && Mirrors(a.value, b.value)
            && Protocol.Start(setup).Party(a.value.role) == a.value
            && Protocol.Start(setup).Party(b.value.role) == b.value
            && var sent := RatchetState.Send(a.value, message, nextKeypair, metadata).1;
               sent.Ok? && Deliver(b.value, sent.value, clock, now).result == Ok(Received(message, 0, 0))
  {
    InitialKeysMirror(initiator, responder, ephemeral, prekey);
    InitialKeysMirror(responder, initiator, prekey, ephemeral);
    DiffieHellmanAgrees(nextKeypair, prekey);
  }
}
