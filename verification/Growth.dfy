// Sending makes the common history grow; what was said about it before stays true.
module Growth {
  import opened Keys
  import opened KeyDerivation
  import opened KeyStore
  import opened RatchetState
  import opened Results
  import opened Soundness
  import opened History
  import opened Protocol

  ghost predicate Grows(h: History, g: History)
    requires h.WellLinked() && g.WellLinked()
  {
    && h.links <= g.links
    && h.eph <= g.eph
    && (forall j :: 0 <= j < |h.sent| ==> h.sent[j] <= g.sent[j])
    && (forall j :: 0 <= j < |h.sent| - 2 ==> h.sent[j] == g.sent[j])
  }

  lemma {:induction false} SentByGrows(h: History, g: History, role: Role, p: Packet)
    requires h.WellLinked() && g.WellLinked() && Grows(h, g) && SentBy(h, role, p)
    ensures SentBy(g, role, p)
  {
  }

  lemma {:induction false} StoreViewGrows(h: History, g: History, skipped: seq<Entry>)
    requires h.WellLinked() && g.WellLinked() && Grows(h, g) && StoreView(skipped, h)
    ensures StoreView(skipped, g)
  {
    forall e | e in skipped
      ensures StoredKey(e, g)
    {
      assert StoredKey(e, h);
    }
  }

  lemma {:induction false} ClosedGrows(h: History, g: History, j: int, key: Key)
    requires h.WellLinked() && g.WellLinked() && Grows(h, g) && j < |h.sent| - 2
    ensures Closed(g, j, key) == Closed(h, j, key)
    decreases j + 2
  {
    if j < 0 {
    } else {
      ClosedGrows(h, g, j - 2, key);
    }
  }

  lemma {:induction false} PassedGrows(h: History, g: History, r: int, number: nat, key: Key)
    requires h.WellLinked() && g.WellLinked() && Grows(h, g) && r <= h.Top()
    ensures Passed(g, r, number, key) == Passed(h, r, number, key)
  {
    if r >= 0 {
      ClosedGrows(h, g, r - 2, key);
    }
  }

  lemma {:induction false} TakenGrows(wire: seq<Packet>, more: seq<Packet>, got: seq<nat>, key: Key)
    requires forall i :: 0 <= i < |got| ==> got[i] < |wire| && wire[got[i]].Packet?
    requires wire <= more
    ensures Taken(more, got, key) == Taken(wire, got, key)
  {
    if got == [] {
    } else {
      TakenGrows(wire, more, got[..|got| - 1], key);
    }
  }

  lemma {:induction false} LedgerGrows(h: History, g: History, d: Direction, wire: seq<Packet>, s: State, t: State)
    requires h.WellLinked() && g.WellLinked() && Grows(h, g) && Ledger(h, d, s)
    requires d.wire <= wire
    requires s.receiveNumber == t.receiveNumber && s.skipped == t.skipped
    requires ReceiveIndex(s.role, h.Top(), s.ratchetFlag) == ReceiveIndex(t.role, g.Top(), t.ratchetFlag) <= h.Top()
    ensures Ledger(g, d.(wire := wire), t)
  {
    forall key
      ensures Balanced(g, d.(wire := wire), t, key)
    {
      assert Balanced(h, d, s, key);
      PassedGrows(h, g, ReceiveIndex(s.role, h.Top(), s.ratchetFlag), s.receiveNumber, key);
      TakenGrows(d.wire, wire, d.got, key);
    }
  }

  // The history after a party has sent one more message.
  ghost function AfterSend(h: History, s: State, keypair: nat): History
    requires PartyView(s, s.role, h)
  {
    if s.ratchetFlag then
      var dh := DiffieHellman(PrivateKey(keypair), PublicKey(keypair), s.theirEphemeral, s.role);
      History(h.links + [Mac(s.rootKey.bytes, dh)], h.eph + [keypair], h.sent + [1])
    else
      var c := SendIndex(s.role, h.Top());
      h.(sent := h.sent[c := h.sent[c] + 1])
  }

  lemma {:induction false} AfterSendIsWellLinked(h: History, s: State, keypair: nat)
    requires PartyInv(h, s.role, s) && !CounterIsFull(s)
    ensures AfterSend(h, s, keypair).WellLinked() && Grows(h, AfterSend(h, s, keypair))
  {
    var g := AfterSend(h, s, keypair);
    if s.ratchetFlag {
      if s.role == Bob {
        DiffieHellmanAgrees(h.eph[h.Top()], keypair);
      }
      forall j | 1 <= j < |g.links|
        ensures g.Linked(j)
      {
        if j < |h.links| {
          assert h.Linked(j);
        }
      }
    } else {
      forall j | 1 <= j < |g.links|
        ensures g.Linked(j)
      {
        assert h.Linked(j);
      }
    }
  }

  // The sender's packet carries the next number of its newest chain, and the sender's new
  // state is the view on the grown history.
  ghost predicate SendsNext(g: History, s: State, message: Message, t: State, r: Result<Packet>) {
    && PartyView(t, s.role, g)
    && r.Ok?
    && t.receiveNumber == s.receiveNumber && t.skipped == s.skipped
    && var c := SendIndex(s.role, g.Top());
       && 0 <= c && g.sent[c] > 0 && OnChain(g, c, g.sent[c] - 1, r.value)
       && r.value.body == message
  }

  // One more message on the same chain.
  lemma {:induction false} SendContinues(s: State, message: Message, keypair: nat, metadata: Option<PrekeyMetadata>)
    requires Sound(s) && !s.ratchetFlag && s.sendNumber < UINT32_MAX
    ensures s.sendHeaderKey.Some?
    ensures Send(s, message, keypair, metadata)
         == (s.(sendNumber := s.sendNumber + 1, sendChainKey := Present(NextChainKey(s.sendChainKey.bytes))),
             Ok(Packet(s.sendHeaderKey.value.bytes, Header(s.ourEphemeral, s.sendNumber, s.previousNumber),
                       MessageKey(s.sendChainKey.bytes), message, metadata)))
  {
  }

  lemma {:induction false} SendOnSameChain(
    h: History, s: State, message: Message, keypair: nat, metadata: Option<PrekeyMetadata>)
    requires PartyInv(h, s.role, s) && !s.ratchetFlag && s.sendNumber < UINT32_MAX
    ensures var (t, r) := Send(s, message, keypair, metadata);
            SendsNext(AfterSend(h, s, keypair), s, message, t, r)
  {
    hide Send, Sound;
    AfterSendIsWellLinked(h, s, keypair);
    SendContinues(s, message, keypair, metadata);
    var (t, r) := Send(s, message, keypair, metadata);
    var g, c := AfterSend(h, s, keypair), SendIndex(s.role, h.Top());
    assert SendView(t, g, c);
    assert ReceiveView(t, g, ReceiveIndex(s.role, h.Top(), false));
  }

  // The first message of a new chain.
  lemma {:induction false} SendAdvances(
    s: State, message: Message, keypair: nat, metadata: Option<PrekeyMetadata>, link: Key)
    requires Sound(s) && s.ratchetFlag
    requires link == Mac(s.rootKey.bytes,
                         DiffieHellman(PrivateKey(keypair), PublicKey(keypair), s.theirEphemeral, s.role))
    ensures Send(s, message, keypair, metadata)
         == (s.(rootKey := Present(Kdf(link, 0)),
                sendHeaderKey := Some(s.nextSendHeaderKey),
                nextSendHeaderKey := Present(Kdf(link, 1)),
                sendChainKey := Present(NextChainKey(Kdf(link, 2))),
                ourPrivateEphemeral := PrivateKey(keypair),
                ourEphemeral := PublicKey(keypair),
                sendNumber := 1,
                previousNumber := s.sendNumber,
                ratchetFlag := false),
             Ok(Packet(s.nextSendHeaderKey.bytes, Header(PublicKey(keypair), 0, s.sendNumber),
                       MessageKey(Kdf(link, 2)), message, metadata)))
  {
  }

  // What the sender holds for its new chain, and what it keeps for the one it receives on.
  lemma {:induction false} NewChainViews(h: History, s: State, keypair: nat, t: State)
    requires PartyInv(h, s.role, s) && s.ratchetFlag
    requires AfterSend(h, s, keypair).WellLinked() && Grows(h, AfterSend(h, s, keypair))
    requires var g, c := AfterSend(h, s, keypair), h.Top() + 1;
             t == s.(rootKey := Present(g.RootKey(c)),
                     sendHeaderKey := Some(s.nextSendHeaderKey),
                     nextSendHeaderKey := Present(Kdf(g.links[c], 1)),
                     sendChainKey := Present(NextChainKey(g.ChainKey(c))),
                     ourPrivateEphemeral := PrivateKey(keypair),
                     ourEphemeral := PublicKey(keypair),
                     sendNumber := 1,
                     previousNumber := s.sendNumber,
                     ratchetFlag := false)
    ensures SendView(t, AfterSend(h, s, keypair), h.Top() + 1)
    ensures ReceiveView(t, AfterSend(h, s, keypair), h.Top())
  {
    hide Sound;
    var g, c := AfterSend(h, s, keypair), h.Top() + 1;
    assert Walk(g.ChainKey(c), 1) == NextChainKey(Walk(g.ChainKey(c), 0));
    assert ReceiveView(s, h, h.Top());
    assert SendView(s, h, h.Top() - 1);
  }

  lemma {:induction false} SendOnNewChain(
    h: History, s: State, message: Message, keypair: nat, metadata: Option<PrekeyMetadata>)
    requires PartyInv(h, s.role, s) && s.ratchetFlag
    ensures var (t, r) := Send(s, message, keypair, metadata);
            SendsNext(AfterSend(h, s, keypair), s, message, t, r)
  {
    hide Send, Sound, ReceiveView, Grows;
    AfterSendIsWellLinked(h, s, keypair);
    var g, c := AfterSend(h, s, keypair), h.Top() + 1;
    SendAdvances(s, message, keypair, metadata, g.links[c]);
    var (t, r) := Send(s, message, keypair, metadata);
    NewChainViews(h, s, keypair, t);
  }

  lemma {:induction false} SendKeepsView(
    h: History, s: State, message: Message, keypair: nat, metadata: Option<PrekeyMetadata>)
    requires PartyInv(h, s.role, s) && !CounterIsFull(s)
    ensures var (t, r) := Send(s, message, keypair, metadata);
            SendsNext(AfterSend(h, s, keypair), s, message, t, r) && Sound(t)
  {
    SendKeepsSound(s, message, keypair, metadata);
    if s.ratchetFlag {
      SendOnNewChain(h, s, message, keypair, metadata);
    } else {
      SendOnSameChain(h, s, message, keypair, metadata);
    }
  }

  // The number of a new packet was not used before.
  lemma {:induction false} SentPacketIsNew(h: History, s: State, keypair: nat, p: Packet, next: Packet)
    requires PartyInv(h, s.role, s) && !CounterIsFull(s) && SentBy(h, s.role, p)
    requires var g := AfterSend(h, s, keypair);
             && g.WellLinked()
             && var c := SendIndex(s.role, g.Top()); 0 <= c && g.sent[c] > 0 && OnChain(g, c, g.sent[c] - 1, next)
    ensures next.bodyKey != p.bodyKey
  {
    var g := AfterSend(h, s, keypair);
    var c := SendIndex(s.role, g.Top());
    ChainKeyDecodes(g, c, g.sent[c] - 1);
  }

  lemma {:induction false} SentPacketIsSentBy(g: History, role: Role, p: Packet)
    requires g.WellLinked()
    requires var c := SendIndex(role, g.Top()); 0 <= c && g.sent[c] > 0 && OnChain(g, c, g.sent[c] - 1, p)
    ensures SentBy(g, role, p)
  {
    var c := SendIndex(role, g.Top());
    ChainKeyDecodes(g, c, g.sent[c] - 1);
  }

  lemma {:induction false} ViewsGrow(h: History, g: History, t: State, c: int, r: int)
    requires h.WellLinked() && g.WellLinked() && Grows(h, g)
    requires -1 <= c <= h.Top() && -1 <= r <= h.Top()
    requires SendView(t, h, c) && (c >= 0 ==> g.sent[c] == h.sent[c])
    requires ReceiveView(t, h, r)
    ensures SendView(t, g, c) && ReceiveView(t, g, r)
  {
  }

  // The indices of the other party do not move when a party sends.
  lemma {:induction false} IndicesStay(h: History, s: State, keypair: nat, t: State)
    requires PartyView(s, s.role, h) && PartyView(t, t.role, h) && t.role == Other(s.role)
    ensures var top, next := h.Top(), AfterSend(h, s, keypair).Top();
            && SendIndex(t.role, next) == SendIndex(t.role, top)
            && ReceiveIndex(t.role, next, t.ratchetFlag) == ReceiveIndex(t.role, top, t.ratchetFlag)
            && (t.ratchetFlag ==> next % 2 != Parity(t.role))
            && (s.ratchetFlag || SendIndex(s.role, top) != SendIndex(t.role, top))
  {
  }

  lemma {:induction false} PartyViewGrows(h: History, s: State, keypair: nat, t: State)
    requires PartyInv(h, s.role, s) && PartyInv(h, t.role, t) && t.role == Other(s.role) && !CounterIsFull(s)
    ensures AfterSend(h, s, keypair).WellLinked() && PartyInv(AfterSend(h, s, keypair), t.role, t)
    ensures ReceiveIndex(t.role, h.Top(), t.ratchetFlag)
            == ReceiveIndex(t.role, AfterSend(h, s, keypair).Top(), t.ratchetFlag)
  {
    AfterSendIsWellLinked(h, s, keypair);
    IndicesStay(h, s, keypair, t);
    ViewsGrow(h, AfterSend(h, s, keypair), t, SendIndex(t.role, h.Top()), ReceiveIndex(t.role, h.Top(), t.ratchetFlag));
  }
}
