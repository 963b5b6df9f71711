// Symbolic cryptography: keys form a free datatype, so two derivations agree exactly when
// they were made in the same way from the same secrets.
module Keys {

  // `crypto_box_keypair` draws an id; the public key and the private key both carry it.
  datatype PublicKey = PublicKey(id: nat)
  datatype PrivateKey = Erased | PrivateKey(id: nat)

  // `crypto_scalarmult` is symmetric in the two private ids. With a zeroed private key it
  // yields a value that no honest pair of keys yields.
  datatype Shared = Shared(low: nat, high: nat) | Degenerate(id: nat)

  // A shared secret hashed together with both public keys, Alice's first.
  datatype Dh = Dh(shared: Shared, alice: PublicKey, bob: PublicKey)

  datatype Key =
    | Zero                                // 32 zero bytes
    | Foreign(tag: nat)                   // chosen by somebody else
    | Master(dh1: Dh, dh2: Dh, dh3: Dh)
    | Mac(root: Key, dh: Dh)
    | Kdf(parent: Key, index: nat)

  // A key with the flag `empty`; the bytes of a cleared key are zero.
  datatype EmptyableKey = EmptyableKey(empty: bool, bytes: Key) {
    predicate IsNone() {
      empty || bytes == Zero
    }

    predicate Holds(key: Key) {
      !empty && bytes == key
    }
  }

  const CLEARED := EmptyableKey(true, Zero)

  function Present(key: Key): EmptyableKey {
    EmptyableKey(false, key)
  }

  function MessageKey(chain: Key): Key {
    Kdf(chain, 0)
  }

  function NextChainKey(chain: Key): Key {
    Kdf(chain, 1)
  }

  // The chain key `steps` positions further down its chain.
  function Walk(chain: Key, steps: nat): Key {
    if steps == 0 then chain else NextChainKey(Walk(chain, steps - 1))
  }

  function MessageKeyAt(chain: Key, n: nat): Key {
    MessageKey(Walk(chain, n))
  }

  lemma {:induction false} WalkComposes(chain: Key, i: nat, j: nat)
    ensures Walk(Walk(chain, i), j) == Walk(chain, i + j)
  {
    if j == 0 {
    } else {
      WalkComposes(chain, i, j - 1);
    }
  }

  // Reading a derivation back.

  // The number of Diffie-Hellman ratchet steps that went into a key.
  function Epoch(key: Key): nat {
    match key
    case Mac(root, _) => Epoch(root) + 1
    case Kdf(parent, _) => Epoch(parent)
    case _ => 0
  }

  // The secret a derivation starts from.
  function Base(key: Key): Key {
    match key
    case Mac(root, _) => Base(root)
    case Kdf(parent, _) => Base(parent)
    case _ => key
  }

  lemma {:induction false} WalkBase(chain: Key, n: nat)
    ensures Base(MessageKeyAt(chain, n)) == Base(Walk(chain, n)) == Base(chain)
  {
    if n == 0 {
    } else {
      WalkBase(chain, n - 1);
    }
  }

  // The number of chain steps at the end of a derivation.
  function Steps(key: Key): nat {
    if key.Kdf? && key.index == 1 then Steps(key.parent) + 1 else 0
  }

  // The position of a message key in its chain.
  function Position(key: Key): nat {
    if key.Kdf? then Steps(key.parent) else 0
  }

  // A chain starts at a key that is not itself the result of a chain step.
  predicate StartsChain(key: Key) {
    key.Kdf? && key.index != 1
  }

  lemma {:induction false} MessageKeyDecodes(chain: Key, n: nat)
    requires StartsChain(chain)
    ensures Steps(Walk(chain, n)) == n && Epoch(Walk(chain, n)) == Epoch(chain)
    ensures Position(MessageKeyAt(chain, n)) == n && Epoch(MessageKeyAt(chain, n)) == Epoch(chain)
  {
    if n == 0 {
    } else {
      MessageKeyDecodes(chain, n - 1);
    }
  }
}
