// A conversation seen from above. The Diffie-Hellman ratchet produces one list of chains; Bob
// sends on the even ones and Alice on the odd ones. Every key either party holds is a function
// of this list, and the predicates below say which one.
module History {
  import opened Keys
  import opened KeyDerivation
  import opened KeyStore
  import opened RatchetState
  import opened Results

  // links[j] is the key from which root key, next header key and chain key number j are derived,
  // eph[j] the ephemeral of the sender of chain j, sent[j] the number of messages sent on it.
  datatype History = History(links: seq<Key>, eph: seq<nat>, sent: seq<nat>) {
    ghost predicate WellLinked() {
      && |links| == |eph| == |sent| > 0
      && links[0].Master?
      && (forall j :: 1 <= j < |links| ==> Linked(j))
      && (forall j :: 0 <= j < |sent| ==> sent[j] <= UINT32_MAX)
    }

    ghost predicate Linked(j: nat)
      requires 1 <= j < |links| == |eph|
    {
      links[j] == Mac(RootKey(j - 1), LinkDh(j))
    }

    ghost function Top(): int {
      |links| - 1
    }

    ghost function RootKey(j: nat): Key
      requires j < |links|
    {
      Kdf(links[j], 0)
    }

    ghost function ChainKey(j: nat): Key
      requires j < |links|
    {
      Kdf(links[j], if j == 0 then 4 else 2)
    }

    ghost function HeaderKey(j: nat): Key
      requires 0 < |links| && j <= |links| + 1
    {
      if j <= 2 then Kdf(links[0], j + 1) else Kdf(links[j - 2], 1)
    }

    ghost function LinkDh(j: nat): Dh
      requires 1 <= j < |eph|
    {
      if j % 2 == 1 then SharedDh(eph[j], eph[j - 1]) else SharedDh(eph[j - 1], eph[j])
    }

    // The length of the sender's previous chain.
    ghost function Previous(j: int): nat
      requires j < |sent| + 2
    {
      if j >= 2 then sent[j - 2] else 0
    }
  }

  function Parity(role: Role): nat {
    if role == Alice then 1 else 0
  }

  // The newest chain a party sends on, and the newest one it receives on; -1 for none.
  ghost function SendIndex(role: Role, top: int): int {
    if top % 2 == Parity(role) then top else top - 1
  }

  ghost function ReceiveIndex(role: Role, top: int, flag: bool): int {
    if top % 2 == Parity(role) then top - 1 else if flag then top else top - 2
  }

  ghost predicate SendView(s: State, h: History, c: int)
    requires h.WellLinked() && -1 <= c <= h.Top()
  {
    && s.nextSendHeaderKey.Holds(h.HeaderKey(c + 2))
    && s.previousNumber == h.Previous(c)
    && (!s.ratchetFlag ==> c >= 0 && s.ourPrivateEphemeral == PrivateKey(h.eph[c]))
    && (c < 0 ==> s.sendHeaderKey.None? && s.sendChainKey.IsNone() && s.sendNumber == 0)
    && (c >= 0 ==>
          && s.sendHeaderKey == Some(Present(h.HeaderKey(c)))
          && s.sendChainKey.Holds(Walk(h.ChainKey(c), h.sent[c]))
          && s.sendNumber == h.sent[c]
          && s.ourEphemeral == PublicKey(h.eph[c]))
  }

  ghost predicate ReceiveView(s: State, h: History, r: int)
    requires h.WellLinked() && -1 <= r <= h.Top()
  {
    && s.nextReceiveHeaderKey.Holds(h.HeaderKey(r + 2))
    && (r < 0 ==> s.receiveHeaderKey.IsNone() && s.receiveChainKey.IsNone() && s.receiveNumber == 0)
    && (r >= 0 ==>
          && s.receiveHeaderKey.Holds(h.HeaderKey(r))
          && s.receiveChainKey.Holds(Walk(h.ChainKey(r), s.receiveNumber))
          && s.receiveNumber <= h.sent[r]
          && s.theirEphemeral == PublicKey(h.eph[r]))
  }

  ghost predicate PartyView(s: State, role: Role, h: History) {
    && h.WellLinked()
    && s.role == role
    && (s.ratchetFlag ==> h.Top() % 2 != Parity(role))
    && var c, r := SendIndex(role, h.Top()), ReceiveIndex(role, h.Top(), s.ratchetFlag);
       && -1 <= c && -1 <= r
       && s.rootKey.Holds(h.RootKey(if c > r then c else r))
       && SendView(s, h, c)
       && ReceiveView(s, h, r)
  }

  // Keys never coincide

  lemma {:induction false} LinkEpoch(h: History, j: nat)
    requires h.WellLinked() && j < |h.links|
    ensures Epoch(h.links[j]) == j
  {
    if j == 0 {
    } else {
      LinkEpoch(h, j - 1);
      assert h.Linked(j);
    }
  }

  // Every link goes back to the master key of the conversation.
  lemma {:induction false} LinkBase(h: History, j: nat)
    requires h.WellLinked() && j < |h.links|
    ensures Base(h.links[j]) == h.links[0]
  {
    if j == 0 {
    } else {
      LinkBase(h, j - 1);
      assert h.Linked(j);
    }
  }

  lemma {:induction false} ChainKeyDecodes(h: History, j: nat, n: nat)
    requires h.WellLinked() && j < |h.links|
    ensures StartsChain(h.ChainKey(j)) && Epoch(h.ChainKey(j)) == j
    ensures Epoch(MessageKeyAt(h.ChainKey(j), n)) == j && Position(MessageKeyAt(h.ChainKey(j), n)) == n
  {
    LinkEpoch(h, j);
    MessageKeyDecodes(h.ChainKey(j), n);
  }

  lemma {:induction false} HeaderKeysDiffer(h: History, i: nat, j: nat)
    requires h.WellLinked() && i < j <= |h.links| + 1
    ensures h.HeaderKey(i) != h.HeaderKey(j)
  {
    if j > 2 {
      LinkEpoch(h, j - 2);
      if i > 2 {
        LinkEpoch(h, i - 2);
      } else {
        LinkEpoch(h, 0);
      }
    }
  }

  // Packets

  ghost predicate OnChain(h: History, j: nat, n: nat, p: Packet)
    requires h.WellLinked() && j <= h.Top()
  {
    && p.Packet?
    && n < h.sent[j]
    && p.headerKey == h.HeaderKey(j)
    && p.header == Header(PublicKey(h.eph[j]), n, h.Previous(j))
    && p.bodyKey == MessageKeyAt(h.ChainKey(j), n)
  }

  // A packet the given party has sent.
  ghost predicate SentBy(h: History, role: Role, p: Packet)
    requires h.WellLinked()
  {
    && p.Packet?
    && Epoch(p.bodyKey) <= h.Top()
    && Epoch(p.bodyKey) % 2 == Parity(role)
    && OnChain(h, Epoch(p.bodyKey), Position(p.bodyKey), p)
  }

  ghost predicate StoredKey(e: Entry, h: History)
    requires h.WellLinked()
  {
    && e.messageKey.Kdf?
    && Epoch(e.messageKey) <= h.Top()
    && e.headerKey.Holds(h.HeaderKey(Epoch(e.messageKey)))
  }

  ghost predicate StoreView(skipped: seq<Entry>, h: History)
    requires h.WellLinked()
  {
    forall e :: e in skipped ==> StoredKey(e, h)
  }

  // Accounting: how often a key belongs to the numbers a receiver has passed, that is the
  // first `number` ones of its current chain `r` and all of the chains before.

  ghost function Closed(h: History, j: int, key: Key): nat
    requires h.WellLinked() && j <= h.Top()
    decreases j + 2
  {
    if j < 0 then 0 else InRange(h.ChainKey(j), h.sent[j], key) + Closed(h, j - 2, key)
  }

  ghost function Passed(h: History, r: int, number: nat, key: Key): nat
    requires h.WellLinked() && r <= h.Top()
  {
    if r < 0 then 0 else InRange(h.ChainKey(r), number, key) + Closed(h, r - 2, key)
  }

  lemma {:induction false} ClosedMeaning(h: History, j: int, key: Key)
    requires h.WellLinked() && j <= h.Top()
    ensures Closed(h, j, key)
         == var i := Epoch(key);
            if && i <= j && i % 2 == j % 2 && Position(key) < h.sent[i]
               && key == MessageKeyAt(h.ChainKey(i), Position(key)) then 1 else 0
    decreases j + 2
  {
    if j < 0 {
    } else {
      ClosedMeaning(h, j - 2, key);
      ChainKeyDecodes(h, j, Position(key));
    }
  }

  lemma {:induction false} PassedMeaning(h: History, r: int, number: nat, key: Key)
    requires h.WellLinked() && r <= h.Top()
    ensures Passed(h, r, number, key)
         == var i := Epoch(key);
            if && i <= r && i % 2 == r % 2 && key == MessageKeyAt(h.ChainKey(i), Position(key))
               && Position(key) < (if i == r then number else h.sent[i]) then 1 else 0
  {
    if r >= 0 {
      ClosedMeaning(h, r - 2, key);
      ChainKeyDecodes(h, r, Position(key));
    }
  }
}
