// What can be computed from the contents of a ratchet that somebody has got hold of.
module Knowledge {
  import opened Keys
  import opened KeyStore
  import opened RatchetState
  import opened TwoPhase
  import opened Persistence

  // Known keys, and the ids of known private keys. All public keys count as known.
  datatype Known = Known(keys: set<Key>, privates: set<nat>)

  // Either private key yields the shared secret.
  predicate Computes(known: Known, dh: Dh) {
    match dh.shared
    case Shared(low, high) => low in known.privates || high in known.privates
    case Degenerate(_) => true
  }

  // Derivations only go forwards: from a chain key to the next one, never back.
  predicate Derives(known: Known, key: Key) {
    key in known.keys ||
    match key
    case Zero => true
    case Foreign(_) => true
    case Master(dh1, dh2, dh3) => Computes(known, dh1) && Computes(known, dh2) && Computes(known, dh3)
    case Mac(root, dh) => Derives(known, root) && Computes(known, dh)
    case Kdf(parent, _) => Derives(known, parent)
  }

  // Everything known, public or computable in one step from what `holds` holds, holds as well.
  ghost predicate IsClosed(known: Known, holds: Key -> bool) {
    && (forall key :: key in known.keys ==> holds(key))
    && holds(Zero)
    && (forall tag :: holds(Foreign(tag)))
    && (forall dh1, dh2, dh3 :: Computes(known, dh1) && Computes(known, dh2) && Computes(known, dh3) ==>
          holds(Master(dh1, dh2, dh3)))
    && (forall root, dh :: holds(root) && Computes(known, dh) ==> holds(Mac(root, dh)))
    && (forall parent, index :: holds(parent) ==> holds(Kdf(parent, index)))
  }

  // `Derives` is the least closed set of keys.
  lemma {:induction false} DerivesIsClosed(known: Known)
    ensures IsClosed(known, key => Derives(known, key))
  {
  }

  lemma {:induction false} DerivesIsLeast(known: Known, holds: Key -> bool, key: Key)
    requires IsClosed(known, holds) && Derives(known, key)
    ensures holds(key)
  {
    if key !in known.keys {
      match key {
        case Mac(root, _) => DerivesIsLeast(known, holds, root);
        case Kdf(parent, _) => DerivesIsLeast(known, holds, parent);
        case _ =>
      }
    }
  }

  function MessageKeys(s: seq<Entry>): set<Key> {
    set e | e in s :: e.messageKey
  }

  function HeaderKeys(s: seq<Entry>): set<Key> {
    set e | e in s :: e.headerKey.bytes
  }

  function PurportedKeys(p: Purported): set<Key> {
    {p.rootKey.bytes, p.headerKey.bytes, p.nextHeaderKey.bytes, p.chainKey.bytes}
  }

  function CommittedKeys(s: State): set<Key> {
    {s.rootKey.bytes, s.receiveHeaderKey.bytes, s.nextSendHeaderKey.bytes, s.nextReceiveHeaderKey.bytes,
     s.sendChainKey.bytes, s.receiveChainKey.bytes}
    + (if s.sendHeaderKey.Some? then {s.sendHeaderKey.value.bytes} else {})
    + MessageKeys(s.skipped) + HeaderKeys(s.skipped)
  }

  // All secrets of a ratchet. The private identity key is kept elsewhere.
  function Learned(x: Snapshot): Known {
    Known(CommittedKeys(x.state) + PurportedKeys(x.purported) + MessageKeys(x.staged) + HeaderKeys(x.staged),
          match x.state.ourPrivateEphemeral { case PrivateKey(id) => {id} case Erased => {} })
  }

  // Along a chain: a message key is derived exactly when it is known itself, or a chain key that
  // is not behind it is, or what the chain starts from is derived.
  ghost predicate KnowsChain(known: Known, chain: Key, n: nat) {
    exists m: nat :: m <= n && Walk(chain, m) in known.keys
  }

  lemma {:induction false} DerivesWalk(known: Known, chain: Key, n: nat)
    requires chain.Kdf?
    ensures Derives(known, Walk(chain, n)) <==> KnowsChain(known, chain, n) || Derives(known, chain.parent)
  {
    if n == 0 {
      assert Walk(chain, 0) == chain;
    } else {
      DerivesWalk(known, chain, n - 1);
      if KnowsChain(known, chain, n) && !KnowsChain(known, chain, n - 1) {
        assert Walk(chain, n) in known.keys;
      }
    }
  }

  lemma {:induction false} DerivesMessageKey(known: Known, chain: Key, n: nat)
    requires chain.Kdf?
    ensures Derives(known, MessageKeyAt(chain, n))
       <==> MessageKeyAt(chain, n) in known.keys || KnowsChain(known, chain, n) || Derives(known, chain.parent)
  {
    DerivesWalk(known, chain, n);
  }
}
