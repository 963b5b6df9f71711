// lib/diffie-hellman.cpp and lib/key-derivation.cpp.
module KeyDerivation {
  import opened Keys
  import opened Results

  datatype Role = Alice | Bob

  function Other(role: Role): Role {
    if role == Alice then Bob else Alice
  }

  function ScalarMult(ours: PrivateKey, theirs: PublicKey): Shared {
    match ours
    case Erased => Degenerate(theirs.id)
    case PrivateKey(id) => if id <= theirs.id then Shared(id, theirs.id) else Shared(theirs.id, id)
  }

  function DiffieHellman(ourPrivate: PrivateKey, ourPublic: PublicKey, theirs: PublicKey, role: Role): Dh {
    match role
    case Alice => Dh(ScalarMult(ourPrivate, theirs), ourPublic, theirs)
    case Bob => Dh(ScalarMult(ourPrivate, theirs), theirs, ourPublic)
  }

  function TripleDiffieHellman(
    ourPrivateIdentity: PrivateKey, ourIdentity: PublicKey,
    ourPrivateEphemeral: PrivateKey, ourEphemeral: PublicKey,
    theirIdentity: PublicKey, theirEphemeral: PublicKey, role: Role): Key
  {
    var byIdentity := DiffieHellman(ourPrivateIdentity, ourIdentity, theirEphemeral, role);
    var byEphemeral := DiffieHellman(ourPrivateEphemeral, ourEphemeral, theirIdentity, role);
    var dh3 := DiffieHellman(ourPrivateEphemeral, ourEphemeral, theirEphemeral, role);
    match role
    case Alice => Master(byIdentity, byEphemeral, dh3)
    case Bob => Master(byEphemeral, byIdentity, dh3)
  }

  datatype Derived = Derived(rootKey: Key, nextHeaderKey: Key, chainKey: Key)

  function DeriveRootNextHeaderAndChainKeys(
    ourPrivateEphemeral: PrivateKey, ourEphemeral: PublicKey, theirEphemeral: PublicKey,
    previousRoot: EmptyableKey, role: Role): Result<Derived>
  {
    if previousRoot.empty then
      Err(ExpectationFailed)
    else
      var key := Mac(previousRoot.bytes, DiffieHellman(ourPrivateEphemeral, ourEphemeral, theirEphemeral, role));
      Ok(Derived(Kdf(key, 0), Kdf(key, 1), Kdf(key, 2)))
  }

  datatype Initial = Initial(
    rootKey: Key,
    sendHeaderKey: Option<Key>, receiveHeaderKey: Option<Key>,
    nextSendHeaderKey: Key, nextReceiveHeaderKey: Key,
    sendChainKey: Option<Key>, receiveChainKey: Option<Key>)

  function DeriveInitialKeys(
    ourPrivateIdentity: PrivateKey, ourIdentity: PublicKey, theirIdentity: PublicKey,
    ourPrivateEphemeral: PrivateKey, ourEphemeral: PublicKey, theirEphemeral: PublicKey,
    role: Role): Initial
  {
    var master := TripleDiffieHellman(ourPrivateIdentity, ourIdentity, ourPrivateEphemeral, ourEphemeral,
                                      theirIdentity, theirEphemeral, role);
    match role
    case Alice =>
      Initial(Kdf(master, 0), None, Some(Kdf(master, 1)), Kdf(master, 2), Kdf(master, 3), None, Some(Kdf(master, 4)))
    case Bob =>
      Initial(Kdf(master, 0), Some(Kdf(master, 1)), None, Kdf(master, 3), Kdf(master, 2), Some(Kdf(master, 4)), None)
  }

  // What a pair of keypairs is hashed to: the secret they share, then Alice's public key, then Bob's.
  function SharedDh(alice: nat, bob: nat): Dh {
    Dh(if alice <= bob then Shared(alice, bob) else Shared(bob, alice), PublicKey(alice), PublicKey(bob))
  }

  // A private key that has been erased yields a secret that no private key yields.
  lemma {:induction false} ErasedKeyIsUseless(theirs: PublicKey, honest: nat, other: PublicKey)
    ensures ScalarMult(Erased, theirs) != ScalarMult(PrivateKey(honest), other)
  {
  }

  // Either role computes it from its own private key.
  lemma {:induction false} DiffieHellmanAgrees(alice: nat, bob: nat)
    ensures DiffieHellman(PrivateKey(alice), PublicKey(alice), PublicKey(bob), Alice) == SharedDh(alice, bob)
    ensures DiffieHellman(PrivateKey(bob), PublicKey(bob), PublicKey(alice), Bob) == SharedDh(alice, bob)
  {
  }

  // For all identities and ephemerals, what Alice derives for sending is what Bob derives for
  // receiving and the other way round.
  lemma {:induction false} InitialKeysMirror(alice: nat, bob: nat, aliceEphemeral: nat, bobEphemeral: nat)
    ensures var a := DeriveInitialKeys(
              PrivateKey(alice), PublicKey(alice), PublicKey(bob),
              PrivateKey(aliceEphemeral), PublicKey(aliceEphemeral), PublicKey(bobEphemeral), Alice);
            var b := DeriveInitialKeys(
              PrivateKey(bob), PublicKey(bob), PublicKey(alice),
              PrivateKey(bobEphemeral), PublicKey(bobEphemeral), PublicKey(aliceEphemeral), Bob);
            b == Initial(a.rootKey, a.receiveHeaderKey, a.sendHeaderKey, a.nextReceiveHeaderKey, a.nextSendHeaderKey,
                         a.receiveChainKey, a.sendChainKey)
  {
  }
}
