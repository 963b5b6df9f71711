// Which message keys the contents of a ratchet give away: seen from one party's view of the
// history, an exact answer for every chain of the conversation, past or still to come.
module Secrecy {
  import opened Keys
  import opened KeyDerivation
  import opened KeyStore
  import opened RatchetState
  import opened Soundness
  import opened TwoPhase
  import opened Persistence
  import opened History
  import opened Protocol
  import opened Guarantees
  import opened Knowledge

  // The kinds of keys do not overlap

  predicate IsLink(key: Key) {
    key.Mac? || key.Master?
  }

  predicate IsRootKey(key: Key) {
    key.Kdf? && IsLink(key.parent) && key.index == 0
  }

  predicate IsHeaderKey(key: Key) {
    key.Kdf? && IsLink(key.parent) && (if key.parent.Mac? then key.index == 1 else 1 <= key.index <= 3)
  }

  predicate IsMessageKey(key: Key) {
    key.Kdf? && key.parent.Kdf? && key.index == 0
  }

  predicate IsChainKey(key: Key) {
    key.Kdf? && !IsRootKey(key) && !IsHeaderKey(key) && !IsMessageKey(key)
  }

  lemma {:induction false} WalkIsKdf(chain: Key, n: nat)
    requires chain.Kdf?
    ensures Walk(chain, n).Kdf?
  {
  }

  lemma {:induction false} KindsOfKeys(h: History, j: nat, n: nat)
    requires h.WellLinked() && j < |h.links|
    ensures IsLink(h.links[j]) && IsRootKey(h.RootKey(j)) && Epoch(h.RootKey(j)) == Epoch(h.links[j]) == j
    ensures var key := Walk(h.ChainKey(j), n);
            IsChainKey(key) && Epoch(key) == j && Keys.Steps(key) == n
    ensures IsMessageKey(MessageKeyAt(h.ChainKey(j), n))
    ensures h.ChainKey(j).parent == h.links[j]
  {
    LinkEpoch(h, j);
    ChainKeyDecodes(h, j, n);
    MessageKeyDecodes(h.ChainKey(j), n);
    assert j > 0 ==> h.Linked(j);
    if n > 0 {
      WalkIsKdf(h.ChainKey(j), n - 1);
    } else {
      WalkIsKdf(h.ChainKey(j), 0);
    }
  }

  lemma {:induction false} HeaderKeysAreHeaderKeys(h: History, j: nat)
    requires h.WellLinked() && j <= |h.links| + 1
    ensures IsHeaderKey(h.HeaderKey(j))
  {
    if j > 2 {
      assert h.Linked(j - 2);
    }
  }

  // What the purported values can hold between two receptions

  // The root key is the committed one until the next send, and then the one before it, unless a
  // reception has failed since on a header of the next chain.
  ghost predicate PurportedRoot(p: Purported, s: State, h: History, c: int)
    requires h.WellLinked() && c <= h.Top()
  {
    || p.rootKey.bytes == Zero
    || (&& IsRootKey(p.rootKey.bytes)
        && if s.ratchetFlag then p.rootKey.bytes == s.rootKey.bytes
           else (c >= 1 && p.rootKey.bytes == h.RootKey(c - 1)) || Epoch(p.rootKey.bytes) == c + 1)
  }

  ghost predicate PurportedChain(p: Purported, s: State, c: int, r: int) {
    || p.chainKey.bytes == Zero
    || (&& IsChainKey(p.chainKey.bytes)
        && var e := Epoch(p.chainKey.bytes);
           (e == r && Keys.Steps(p.chainKey.bytes) >= s.receiveNumber) || (!s.ratchetFlag && e == c + 1))
  }

  ghost predicate PurportedHeaders(p: Purported) {
    && (p.headerKey.bytes == Zero || IsHeaderKey(p.headerKey.bytes))
    && (p.nextHeaderKey.bytes == Zero || IsHeaderKey(p.nextHeaderKey.bytes))
  }

  ghost predicate PurportedView(p: Purported, s: State, role: Role, h: History)
    requires PartyView(s, role, h)
  {
    var c, r := SendIndex(role, h.Top()), ReceiveIndex(role, h.Top(), s.ratchetFlag);
    PurportedRoot(p, s, h, c) && PurportedChain(p, s, c, r) && PurportedHeaders(p)
  }

  lemma {:induction false} RootEpoch(h: History, s: State, role: Role)
    requires PartyView(s, role, h)
    ensures var c, r := SendIndex(role, h.Top()), ReceiveIndex(role, h.Top(), s.ratchetFlag);
            && Epoch(s.rootKey.bytes) == (if s.ratchetFlag then r else c)
            && s.rootKey.bytes == h.RootKey(if s.ratchetFlag then r else c)
            && (if s.ratchetFlag then c == r - 1 else r == c - 1)
  {
    var c, r := SendIndex(role, h.Top()), ReceiveIndex(role, h.Top(), s.ratchetFlag);
    KindsOfKeys(h, if c > r then c else r, 0);
  }

  // What is known

  ghost predicate IsOurs(x: Snapshot, role: Role, h: History, d: Direction) {
    && PartyInv(h, role, x.state) && DirectionInv(h, Other(role), d, x.state)
    && AtRest(x) && PurportedView(x.purported, x.state, role, h)
  }

  ghost predicate Classified(x: Snapshot, role: Role, h: History, key: Key)
    requires h.WellLinked()
  {
    var s := x.state;
    var c, r := SendIndex(role, h.Top()), ReceiveIndex(role, h.Top(), s.ratchetFlag);
    || key == Zero
    || IsHeaderKey(key)
    || (IsRootKey(key) && (key == s.rootKey.bytes || key == x.purported.rootKey.bytes))
    || (IsMessageKey(key) && Copies(s.skipped, key) > 0)
    || (IsChainKey(key) && 0 <= c <= h.Top() && Epoch(key) == c && Keys.Steps(key) == h.sent[c])
    || (IsChainKey(key) && r >= 0 && Epoch(key) == r && Keys.Steps(key) >= s.receiveNumber)
    || (IsChainKey(key) && !s.ratchetFlag && Epoch(key) == c + 1)
  }

  lemma {:induction false} StoredIsClassified(x: Snapshot, role: Role, h: History, d: Direction, e: Entry)
    requires IsOurs(x, role, h, d) && e in x.state.skipped
    ensures IsHeaderKey(e.headerKey.bytes)
    ensures IsMessageKey(e.messageKey) && Copies(x.state.skipped, e.messageKey) > 0
  {
    var s := x.state;
    assert StoredKey(e, h);
    HeaderKeysAreHeaderKeys(h, Epoch(e.messageKey));
    CopiesMember(s.skipped, e.messageKey);
    assert Balanced(h, d, s, e.messageKey);
    PassedMeaning(h, ReceiveIndex(role, h.Top(), s.ratchetFlag), s.receiveNumber, e.messageKey);
    KindsOfKeys(h, Epoch(e.messageKey), Position(e.messageKey));
  }

  lemma {:induction false} SendKeysAreClassified(x: Snapshot, role: Role, h: History)
    requires PartyInv(h, role, x.state)
    ensures Classified(x, role, h, x.state.nextSendHeaderKey.bytes)
    ensures Classified(x, role, h, x.state.sendChainKey.bytes)
    ensures x.state.sendHeaderKey.Some? ==> Classified(x, role, h, x.state.sendHeaderKey.value.bytes)
  {
    hide ReceiveView;
    var c := SendIndex(role, h.Top());
    HeaderKeysAreHeaderKeys(h, c + 2);
    if c >= 0 {
      HeaderKeysAreHeaderKeys(h, c);
      KindsOfKeys(h, c, h.sent[c]);
    }
  }

  lemma {:induction false} ReceiveKeysAreClassified(x: Snapshot, role: Role, h: History)
    requires PartyInv(h, role, x.state)
    ensures Classified(x, role, h, x.state.receiveHeaderKey.bytes)
    ensures Classified(x, role, h, x.state.nextReceiveHeaderKey.bytes)
    ensures Classified(x, role, h, x.state.receiveChainKey.bytes)
  {
    hide SendView;
    var r := ReceiveIndex(role, h.Top(), x.state.ratchetFlag);
    HeaderKeysAreHeaderKeys(h, r + 2);
    if r >= 0 {
      HeaderKeysAreHeaderKeys(h, r);
      KindsOfKeys(h, r, x.state.receiveNumber);
    }
  }

  lemma {:induction false} RootIsClassified(x: Snapshot, role: Role, h: History)
    requires PartyView(x.state, role, h)
    ensures IsRootKey(x.state.rootKey.bytes) && Classified(x, role, h, x.state.rootKey.bytes)
  {
    var c, r := SendIndex(role, h.Top()), ReceiveIndex(role, h.Top(), x.state.ratchetFlag);
    KindsOfKeys(h, if c > r then c else r, 0);
  }

  lemma {:induction false} CommittedIsClassified(x: Snapshot, role: Role, h: History, d: Direction, key: Key)
    requires IsOurs(x, role, h, d) && key in CommittedKeys(x.state)
    ensures Classified(x, role, h, key)
  {
    hide Sound, SendView, ReceiveView, DirectionInv, PurportedView, IsHeaderKey, IsRootKey, IsMessageKey, IsChainKey;
    RootIsClassified(x, role, h);
    SendKeysAreClassified(x, role, h);
    ReceiveKeysAreClassified(x, role, h);
    if e :| e in x.state.skipped && (key == e.messageKey || key == e.headerKey.bytes) {
      StoredIsClassified(x, role, h, d, e);
    }
  }

  lemma {:induction false} PurportedIsClassified(x: Snapshot, role: Role, h: History, key: Key)
    requires PartyView(x.state, role, h) && PurportedView(x.purported, x.state, role, h)
    requires key in PurportedKeys(x.purported)
    ensures Classified(x, role, h, key)
  {
    hide SendView, ReceiveView, IsHeaderKey, IsRootKey, IsMessageKey, IsChainKey;
    RootEpoch(h, x.state, role);
  }

  lemma {:induction false} KnownIsClassified(x: Snapshot, role: Role, h: History, d: Direction, key: Key)
    requires IsOurs(x, role, h, d) && key in Learned(x).keys
    ensures Classified(x, role, h, key)
  {
    hide Classified, CommittedKeys, PurportedKeys, Sound, SendView, ReceiveView, DirectionInv, PurportedView;
    if key in CommittedKeys(x.state) {
      CommittedIsClassified(x, role, h, d, key);
    } else {
      PurportedIsClassified(x, role, h, key);
    }
  }

  // Freshness

  // Every ephemeral was drawn anew.
  ghost predicate IsFresh(g: History, setup: Setup) {
    && g.WellLinked()
    && g.links[0] == FirstHistory(setup).links[0] && g.eph[0] == setup.bobEphemeral
    && (forall i, j :: 0 <= i < j < |g.eph| ==> g.eph[i] != g.eph[j])
    && (forall i :: 0 <= i < |g.eph| ==> g.eph[i] !in {setup.aliceIdentity, setup.bobIdentity, setup.aliceEphemeral})
    && setup.aliceEphemeral != setup.aliceIdentity
  }

  // With a raised flag no private ephemeral is left, except Alice's first one.
  ghost predicate PrivateView(s: State, h: History, setup: Setup) {
    s.ratchetFlag ==>
      || s.ourPrivateEphemeral == Erased
      || (SendIndex(s.role, h.Top()) < 0 && s.ourPrivateEphemeral == PrivateKey(setup.aliceEphemeral))
  }

  ghost predicate Continues(h: History, g: History) {
    h.links <= g.links && h.eph <= g.eph
  }

  lemma {:induction false} SharedDhNeedsPrivate(known: Known, a: nat, b: nat)
    ensures Computes(known, SharedDh(a, b)) <==> a in known.privates || b in known.privates
  {
  }

  // The root chain

  lemma {:induction false} MasterIsSafe(x: Snapshot, role: Role, h: History, g: History, setup: Setup)
    requires PartyView(x.state, role, h) && PrivateView(x.state, h, setup)
    requires IsFresh(g, setup) && Continues(h, g) && g.links[0] !in Learned(x).keys
    ensures !Derives(Learned(x), g.links[0])
  {
    var known := Learned(x);
    SharedDhNeedsPrivate(known, setup.aliceIdentity, setup.bobEphemeral);
    SharedDhNeedsPrivate(known, setup.aliceEphemeral, setup.bobIdentity);
    var c := SendIndex(role, h.Top());
    if !x.state.ratchetFlag {
      assert known.privates == {h.eph[c]} && h.eph[c] == g.eph[c];
    }
  }

  // A link needs one of the two private ephemerals around it.
  lemma {:induction false} LinkNeedsPrivate(known: Known, g: History, j: nat)
    requires g.WellLinked() && 1 <= j < |g.links| && g.links[j] !in known.keys
    ensures Derives(known, g.links[j])
       <==> Derives(known, g.RootKey(j - 1)) && (g.eph[j] in known.privates || g.eph[j - 1] in known.privates)
  {
    assert g.Linked(j);
    SharedDhNeedsPrivate(known, g.eph[j], g.eph[j - 1]);
    SharedDhNeedsPrivate(known, g.eph[j - 1], g.eph[j]);
  }

  ghost predicate HoldsPrevious(x: Snapshot, h: History, c: int)
    requires h.WellLinked() && c <= h.Top()
  {
    c >= 1 && x.purported.rootKey.bytes == h.RootKey(c - 1)
  }

  lemma {:induction false} LinkNotKnown(x: Snapshot, role: Role, h: History, d: Direction, g: History, j: nat)
    requires IsOurs(x, role, h, d) && g.WellLinked() && j < |g.links|
    ensures g.links[j] !in Learned(x).keys
  {
    KindsOfKeys(g, j, 0);
    if g.links[j] in Learned(x).keys {
      KnownIsClassified(x, role, h, d, g.links[j]);
    }
  }

  lemma {:induction false} KnownPrivates(x: Snapshot, role: Role, h: History, g: History)
    requires PartyView(x.state, role, h) && Continues(h, g) && !x.state.ratchetFlag
    ensures var c := SendIndex(role, h.Top());
            0 <= c < |g.eph| && Learned(x).privates == {g.eph[c]}
  {
  }

  lemma {:induction false} PreviousRootKnown(x: Snapshot, role: Role, h: History, d: Direction)
    requires IsOurs(x, role, h, d) && SendIndex(role, h.Top()) >= 1 && !x.state.ratchetFlag
    ensures var c := SendIndex(role, h.Top());
            h.RootKey(c - 1) in Learned(x).keys <==> HoldsPrevious(x, h, c)
  {
    hide Sound, DirectionInv, PurportedView;
    var c := SendIndex(role, h.Top());
    KindsOfKeys(h, c - 1, 0);
    KindsOfKeys(h, c, 0);
    if h.RootKey(c - 1) in Learned(x).keys {
      KnownIsClassified(x, role, h, d, h.RootKey(c - 1));
    }
  }

  lemma {:induction false} PreviousRoot(
    x: Snapshot, role: Role, h: History, d: Direction, g: History, setup: Setup)
    requires IsOurs(x, role, h, d) && PrivateView(x.state, h, setup)
    requires IsFresh(g, setup) && Continues(h, g) && !x.state.ratchetFlag && SendIndex(role, h.Top()) >= 1
    ensures var c := SendIndex(role, h.Top());
            Derives(Learned(x), g.RootKey(c - 1)) <==> HoldsPrevious(x, h, c)
  {
    hide Learned, Sound, SendView, ReceiveView, DirectionInv, PurportedView, HoldsPrevious;
    var c, known := SendIndex(role, h.Top()), Learned(x);
    LinkNotKnown(x, role, h, d, g, c - 1);
    PreviousRootKnown(x, role, h, d);
    KnownPrivates(x, role, h, g);
    if c == 1 {
      MasterIsSafe(x, role, h, g, setup);
    } else {
      LinkNeedsPrivate(known, g, c - 1);
    }
  }

  lemma {:induction false} FlaggedPrivates(x: Snapshot, h: History, setup: Setup)
    requires PrivateView(x.state, h, setup) && x.state.ratchetFlag
    ensures Learned(x).privates <= {setup.aliceEphemeral}
  {
  }

  lemma {:induction false} RootIsKnown(x: Snapshot)
    ensures Derives(Learned(x), x.state.rootKey.bytes)
  {
  }

  // A party about to be answered has a send chain of its own.
  lemma {:induction false} OnLowestChain(x: Snapshot, role: Role, h: History)
    requires PartyView(x.state, role, h) && !x.state.ratchetFlag
    ensures SendIndex(role, h.Top()) >= 0
  {
  }

  // Of all links of the conversation, also of later ones, at most two can be derived: the
  // partner's next one, and the one of the current send chain when the root key before it is left.
  lemma {:induction false} DerivedLinks(
    x: Snapshot, role: Role, h: History, d: Direction, g: History, setup: Setup, j: nat)
    requires IsOurs(x, role, h, d) && PrivateView(x.state, h, setup)
    requires IsFresh(g, setup) && Continues(h, g) && j < |g.links|
    ensures var c := SendIndex(role, h.Top());
            Derives(Learned(x), g.links[j])
            <==> !x.state.ratchetFlag && (j == c + 1 || (j == c && HoldsPrevious(x, h, c)))
  {
    hide Derives, Learned, Sound, SendView, ReceiveView, DirectionInv, PurportedView, PrivateView;
    var c, known := SendIndex(role, h.Top()), Learned(x);
    LinkNotKnown(x, role, h, d, g, j);
    if j == 0 {
      MasterIsSafe(x, role, h, g, setup);
      if !x.state.ratchetFlag {
        OnLowestChain(x, role, h);
      }
    } else {
      LinkNeedsPrivate(known, g, j);
      if x.state.ratchetFlag {
        FlaggedPrivates(x, h, setup);
      } else {
        KnownPrivates(x, role, h, g);
        if j == c + 1 {
          RootIsKnown(x);
          RootEpoch(h, x.state, role);
        } else if j == c {
          PreviousRoot(x, role, h, d, g, setup);
        }
      }
    }
  }

  // Message keys

  // What a ratchet gives away of chain `j`, position `n`.
  ghost predicate GivesAway(x: Snapshot, role: Role, h: History, j: nat, n: nat, key: Key)
    requires h.WellLinked()
  {
    var s := x.state;
    var c, r := SendIndex(role, h.Top()), ReceiveIndex(role, h.Top(), s.ratchetFlag);
    || Copies(s.skipped, key) > 0
    || (j == c && c <= h.Top() && (n >= h.sent[c] || (!s.ratchetFlag && HoldsPrevious(x, h, c))))
    || (j == r && n >= s.receiveNumber)
    || (!s.ratchetFlag && j == c + 1)
  }

  lemma {:induction false} KnownPositions(
    x: Snapshot, role: Role, h: History, d: Direction, g: History, j: nat, n: nat)
    requires IsOurs(x, role, h, d) && g.WellLinked() && Continues(h, g) && j < |g.links|
    requires KnowsChain(Learned(x), g.ChainKey(j), n)
    ensures GivesAway(x, role, h, j, n, MessageKeyAt(g.ChainKey(j), n))
  {
    var m: nat :| m <= n && Walk(g.ChainKey(j), m) in Learned(x).keys;
    KindsOfKeys(g, j, m);
    KnownIsClassified(x, role, h, d, Walk(g.ChainKey(j), m));
  }

  lemma {:induction false} KnownMessageKey(
    x: Snapshot, role: Role, h: History, d: Direction, g: History, j: nat, n: nat)
    requires IsOurs(x, role, h, d) && g.WellLinked() && j < |g.links|
    ensures MessageKeyAt(g.ChainKey(j), n) in Learned(x).keys
       <==> Copies(x.state.skipped, MessageKeyAt(g.ChainKey(j), n)) > 0
  {
    var key := MessageKeyAt(g.ChainKey(j), n);
    KindsOfKeys(g, j, n);
    if key in Learned(x).keys {
      KnownIsClassified(x, role, h, d, key);
    }
    CopiesMember(x.state.skipped, key);
    if i :| 0 <= i < |x.state.skipped| && x.state.skipped[i].messageKey == key {
      assert x.state.skipped[i] in x.state.skipped;
      assert key in MessageKeys(x.state.skipped);
    }
  }

  lemma {:induction false} GivenAwayIsKnown(
    x: Snapshot, role: Role, h: History, g: History, j: nat, n: nat)
    requires PartyView(x.state, role, h) && g.WellLinked() && Continues(h, g) && j < |g.links|
    ensures var c, r := SendIndex(role, h.Top()), ReceiveIndex(role, h.Top(), x.state.ratchetFlag);
            (j == c && n >= h.sent[c]) || (j == r && n >= x.state.receiveNumber) ==>
              KnowsChain(Learned(x), g.ChainKey(j), n)
  {
    var s := x.state;
    var c, r := SendIndex(role, h.Top()), ReceiveIndex(role, h.Top(), s.ratchetFlag);
    if j == c && n >= h.sent[c] {
      assert Walk(g.ChainKey(j), h.sent[c]) == s.sendChainKey.bytes;
    }
    if j == r && n >= s.receiveNumber {
      assert Walk(g.ChainKey(j), s.receiveNumber) == s.receiveChainKey.bytes;
    }
  }

  // For every chain of the conversation, past or future, and every position on it.
  lemma {:induction false} DerivedMessageKeys(
    x: Snapshot, role: Role, h: History, d: Direction, g: History, setup: Setup, j: nat, n: nat)
    requires IsOurs(x, role, h, d) && PrivateView(x.state, h, setup)
    requires IsFresh(g, setup) && Continues(h, g) && j < |g.links|
    ensures Derives(Learned(x), MessageKeyAt(g.ChainKey(j), n))
       <==> GivesAway(x, role, h, j, n, MessageKeyAt(g.ChainKey(j), n))
  {
    hide Derives, Learned, Sound, DirectionInv, SendView, ReceiveView, PurportedView;
    DerivesMessageKey(Learned(x), g.ChainKey(j), n);
    KindsOfKeys(g, j, n);
    KnownMessageKey(x, role, h, d, g, j, n);
    DerivedLinks(x, role, h, d, g, setup, j);
    GivenAwayIsKnown(x, role, h, g, j, n);
    if KnowsChain(Learned(x), g.ChainKey(j), n) {
      KnownPositions(x, role, h, d, g, j, n);
    }
  }
}
