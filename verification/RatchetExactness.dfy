/** The hypotheses of agreement are exact: which single deliveries succeed, for every message
    either side ever sent. */
module RatchetExactness {
  import opened Wrappers
  import opened SymbolicCrypto
  import opened Ratchet
  import opened RatchetAgreement
  import opened RatchetDivergence

  // ---- One delivery ----

  /** A message of the batch being read opens exactly when it was not delivered before
      and is not too far ahead. */
  lemma ConsumeExactly(s: Peer, used: set<PublicKey>, j: nat, t: Session, received: set<Place>, n: nat)
    requires Writes(s, used) && Reads(s.log, j, t, received)
    requires n < |s.log[j].sent|
    ensures var sent := s.log[j].sent[n]; var r := Consumed(t, sent.message.header, sent.message.ciphertext).1;
      if Place(j, n) !in received && !TooFar(t, n) then r == Ok(sent.plaintext) else r.Err?
  {
    assert WellSent(s.log, j, n);
    if Place(j, n) in received {
      DeliveredNotIndexed(s, used, j, t, received, n);
      AdvanceInjective(s.log[j].chain, n, t.nr);
    } else if TooFar(t, n) {
      NotIndexedBeyond(s, used, j, t, received, n);
    } else {
      ConsumeOpens(s, used, j, t, received, n);
    }
  }

  lemma DeliveredNotIndexed(s: Peer, used: set<PublicKey>, j: nat, t: Session, received: set<Place>, n: nat)
    requires Writes(s, used) && Reads(s.log, j, t, received)
    requires Place(j, n) in received
    ensures SkipId(s.log[j].dh, n) !in t.skippedKeys
  {
  }

  /** A message under a key the session turns to fails, unless its keys are stored: those it
      was sealed under are of a chain no higher than the root key. */
  lemma TurnedFails(t: Session, chain: Key, n: nat, m: Message, plaintext: Blob, ephemeral: PublicKey)
    requires t.dhRemote != m.header.dh && m.header.n == n && SkipId(m.header.dh, n) !in t.skippedKeys
    requires (chain.Chain? || chain.ChainB?) && Height(chain) <= Height(t.rootKey)
    requires m.ciphertext == Seal(KeysOf(Advance(chain, n)), Some(m.header), plaintext)
    ensures Decrypted(t, m, ephemeral).1.Err?
  {
    var h := m.header;
    if Turns(t, h) {
      if t.nr < h.pn { SkipStores(t, h.pn, SkipId(h.dh, n)); SkipMovesChain(t, h.pn); }
      var turned := RatchetStep(SkipTo(t, h.pn), h.dh, ephemeral);
      if !TooFar(turned, n) {
        SkipMovesChain(turned, n);
        AdvanceLaws(chain, n);
        AdvanceLaws(TurnedChain(t, h.dh), n);
      }
    }
  }

  /** The stored keys open a message of a batch before the one being read, if and only if it
      was not delivered before and the turn its header asks for is not refused. */
  lemma StaleExactly(s: Peer, j: nat, r: Session, received: set<Place>, place: Place, ephemeral: PublicKey,
                     used: set<PublicKey>)
    requires Writes(s, used) && Reads(s.log, j, r, received)
    requires IsPlace(s.log, place) && place.batch < j && Below(s.log, j, Height(r.rootKey))
    ensures var sent := At(s.log, place); var outcome := Decrypted(r, sent.message, ephemeral).1;
      if place !in received && !TooFar(r, sent.message.header.pn) then outcome == Ok(sent.plaintext) else outcome.Err?
  {
    var sent := At(s.log, place);
    var h := sent.message.header;
    assert WellSent(s.log, place.batch, place.n);
    var id := SkipId(h.dh, h.n);
    if place in received {
      assert id !in r.skippedKeys;
      TurnedFails(r, s.log[place.batch].chain, place.n, sent.message, sent.plaintext, ephemeral);
    } else {
      assert Outstanding(s.log, j, r.nr, received, place.batch, place.n);
      if r.nr < h.pn { SkipStores(r, h.pn, id); }
    }
  }

  /** Exactly when one delivery succeeds: in any reachable world a logged message decrypts if
      and only if it was not delivered before and no skip is refused.  Under an older sender
      key the one skip is that of the turn; otherwise both of the header's count.  When it
      decrypts, it gives what was encrypted. */
  lemma DeliveryExactly(bootstrap: Key, identityA: PublicKey, identityB: PublicKey, events: seq<Event>, w: World,
                        to: Side, place: Place, ephemeral: PublicKey)
    requires identityA != identityB
    requires Reaches(Start(bootstrap, identityA, identityB), events, w)
    requires IsPlace(w.Of(to.Other()).log, place)
    ensures var sent, r := At(w.Of(to.Other()).log, place), w.Of(to);
      var h, outcome := sent.message.header, Outcome(w, to, place, ephemeral);
      var unrefused := if NotStale(r, place) then GapsAllowed(r.session, h) else !TooFar(r.session, h.pn);
      && (outcome.Ok? <==> place !in r.received && unrefused)
      && (outcome.Ok? ==> outcome.value == sent.plaintext)
  {
    ReachesSettled(bootstrap, identityA, identityB, events, w);
    SettledPair(w, to);
    var s, r := w.Of(to.Other()), w.Of(to);
    if NotStale(r, place) {
      PairExactly(s, r, place, ephemeral, w.used);
    } else {
      PairStaleExactly(s, r, place, ephemeral, w.used);
    }
  }

  lemma PairStaleExactly(s: Peer, r: Peer, place: Place, ephemeral: PublicKey, used: set<PublicKey>)
    requires Writes(s, used) && IsPlace(s.log, place) && !NotStale(r, place) && Climbs(s, r)
    requires Fresh(s, r) || Leads(s, r) || Leads(r, s)
    ensures var sent := At(s.log, place); var outcome := Decrypted(r.session, sent.message, ephemeral).1;
      if place !in r.received && !TooFar(r.session, sent.message.header.pn)
          then outcome == Ok(sent.plaintext) else outcome.Err?
  {
    var j: nat := if Leads(s, r) then |s.log| - 2 else |s.log| - 1;
    assert Reads(s.log, j, r.session, r.received);
    StaleExactly(s, j, r.session, r.received, place, ephemeral, used);
  }

  /** A reader's own messages never decrypt, whenever they are replayed to it. */
  lemma OwnNeverDecrypts(bootstrap: Key, identityA: PublicKey, identityB: PublicKey, events: seq<Event>, w: World,
                         to: Side, place: Place, ephemeral: PublicKey)
    requires identityA != identityB
    requires Reaches(Start(bootstrap, identityA, identityB), events, w)
    requires IsPlace(w.Of(to).log, place)
    ensures Decrypted(w.Of(to).session, At(w.Of(to).log, place).message, ephemeral).1.Err?
  {
    ReachesSettled(bootstrap, identityA, identityB, events, w);
    SettledPair(w, to);
    OwnFails(w.Of(to.Other()), w.Of(to), place, ephemeral, w.used);
  }

  lemma OwnFails(s: Peer, r: Peer, place: Place, ephemeral: PublicKey, used: set<PublicKey>)
    requires Writes(r, used) && Climbs(s, r) && KeysApart(s.log, r.log) && IsPlace(r.log, place)
    requires Fresh(s, r) || Leads(s, r) || Leads(r, s)
    ensures Decrypted(r.session, At(r.log, place).message, ephemeral).1.Err?
  {
    var j: nat := if Leads(s, r) then |s.log| - 2 else |s.log| - 1;
    assert Reads(s.log, j, r.session, r.received);
    var sent := At(r.log, place);
    assert WellSent(r.log, place.batch, place.n);
    assert SkipId(sent.message.header.dh, place.n) !in r.session.skippedKeys;
    TurnedFails(r.session, r.log[place.batch].chain, place.n, sent.message, sent.plaintext, ephemeral);
  }

  lemma PairExactly(s: Peer, r: Peer, place: Place, ephemeral: PublicKey, used: set<PublicKey>)
    requires Writes(s, used) && IsPlace(s.log, place) && NotStale(r, place)
    requires Fresh(s, r) || Leads(s, r) || Leads(r, s)
    ensures var sent := At(s.log, place); var outcome := Decrypted(r.session, sent.message, ephemeral).1;
      if place !in r.received && GapsAllowed(r.session, sent.message.header)
      then outcome == Ok(sent.plaintext) else outcome.Err?
  {
    if Fresh(s, r) {
      SameBatchExactly(s, r, place, ephemeral, used);
    } else if Leads(r, s) {
      NotBefore(r.received, |s.log| - 1, place);
      SameBatchExactly(s, r, place, ephemeral, used);
    } else {
      NotBefore(r.received, |s.log| - 2, place);
      if place.batch == |s.log| - 2 {
        SameBatchExactly(s, r, place, ephemeral, used);
      } else {
        NextBatchExactly(s, r, place, ephemeral, used);
      }
    }
  }

  lemma SameBatchExactly(s: Peer, r: Peer, place: Place, ephemeral: PublicKey, used: set<PublicKey>)
    requires Writes(s, used) && IsPlace(s.log, place)
    requires Reads(s.log, place.batch, r.session, r.received)
    ensures var sent := At(s.log, place); var outcome := Decrypted(r.session, sent.message, ephemeral).1;
      if place !in r.received && GapsAllowed(r.session, sent.message.header)
      then outcome == Ok(sent.plaintext) else outcome.Err?
  {
    assert WellSent(s.log, place.batch, place.n);
    var t := if r.session.dhSelfIsIdentity then Rotated(r.session, ephemeral) else r.session;
    ConsumeExactly(s, used, place.batch, t, r.received, place.n);
  }

  lemma NextBatchExactly(s: Peer, r: Peer, place: Place, ephemeral: PublicKey, used: set<PublicKey>)
    requires Writes(s, used) && IsPlace(s.log, place) && Leads(s, r)
    requires place.batch == |s.log| - 1
    ensures var sent := At(s.log, place); var outcome := Decrypted(r.session, sent.message, ephemeral).1;
      if place !in r.received && GapsAllowed(r.session, sent.message.header)
      then outcome == Ok(sent.plaintext) else outcome.Err?
  {
    var j := place.batch;
    assert WellSent(s.log, j, place.n);
    AgreeCommutes(s.session.dhSelf, r.session.dhSelf);
    var until := |s.log[j - 1].sent|;
    TurnReads(s.log, j - 1, r.session, r.received, ephemeral);
    var t := RatchetStep(SkipTo(r.session, until), s.log[j].dh, ephemeral);
    SkipMovesChain(r.session, until);
    ConsumeExactly(s, used, j, t, r.received, place.n);
  }

  // ---- What a delivery that does not fork may cost ----

  /** The position of the batch being read whose keys a header under its key takes, if any:
      its own, or that of the next message when its own is gone already. */
  function Burns(t: Session, h: Header): Option<int> {
    if SkipId(h.dh, h.n) in t.skippedKeys then Some(h.n)
    else if TooFar(t, h.n) then None
    else Some(if h.n >= t.nr then h.n else t.nr)
  }

  /** The receiving half of `t` after the keys of position `c` were taken off the chain. */
  predicate TookAhead(t: Session, t': Session, c: nat) {
    && t.nr <= c && t'.nr == c + 1 && t'.dhRemote == t.dhRemote
    && t'.receivingChainKey == Advance(t.receivingChainKey, c + 1 - t.nr)
    && t'.skippedKeys == SkipTo(t, c).skippedKeys
  }

  /** The receiving half of `t` without one stored key. */
  predicate WithoutKey(t: Session, t': Session, lost: set<SkipId>) {
    && t'.nr == t.nr && t'.dhRemote == t.dhRemote && t'.receivingChainKey == t.receivingChainKey
    && t'.skippedKeys == t.skippedKeys - lost
  }

  /** The receiving half after a header under the present key, whatever the ciphertext. */
  lemma HeardInBatch(t: Session, m: Message, ephemeral: PublicKey)
    requires m.header.dh == t.dhRemote
    ensures var t', h := Decrypted(t, m, ephemeral).0, m.header;
      if SkipId(h.dh, h.n) in t.skippedKeys then WithoutKey(t, t', {SkipId(h.dh, h.n)})
      else if TooFar(t, h.n) then WithoutKey(t, t', {})
      else TookAhead(t, t', if h.n >= t.nr then h.n else t.nr)
  {
    var h := m.header;
    var u := if t.dhSelfIsIdentity then Rotated(t, ephemeral) else t;
    var c := if h.n >= t.nr then h.n else t.nr;
    SkipMovesChain(u, c);
    SkipAlike(t, u, c);
    assert t.skippedKeys - {} == t.skippedKeys;
  }

  /** Skipping looks at the receiving half only. */
  lemma {:induction false} SkipAlike(t: Session, u: Session, until: int)
    requires t.dhRemote == u.dhRemote && t.nr == u.nr && t.receivingChainKey == u.receivingChainKey
    requires t.skippedKeys == u.skippedKeys
    ensures SkipTo(t, until).skippedKeys == SkipTo(u, until).skippedKeys
    decreases until - t.nr
  {
    if t.nr < until { SkipAlike(SkipOne(t), SkipOne(u), until); }
  }

  /** The keys a session would use for message `n` of the batch it reads, if it has any. */
  function KeysAt(t: Session, n: nat): Option<MessageKeys> {
    var id := SkipId(t.dhRemote, n);
    if id in t.skippedKeys then Some(t.skippedKeys[id])
    else if TooFar(t, n) then None
    else Some(KeysOf(if n >= t.nr then Advance(t.receivingChainKey, n - t.nr) else t.receivingChainKey))
  }

  /** A message of the batch opens exactly under its own keys. */
  lemma OpensUnder(t: Session, chain: Key, n: nat, m: Message, plaintext: Blob, ephemeral: PublicKey)
    requires m.header.dh == t.dhRemote && m.header.n == n
    requires m.ciphertext == Seal(KeysOf(Advance(chain, n)), Some(m.header), plaintext)
    ensures Decrypted(t, m, ephemeral).1.Ok? <==> KeysAt(t, n) == Some(KeysOf(Advance(chain, n)))
  {
    var u := if t.dhSelfIsIdentity then Rotated(t, ephemeral) else t;
    if n >= t.nr { SkipMovesChain(u, n); }
  }

  /** A reader has the keys of an undelivered message, unless it is too far ahead. */
  lemma ReaderKeys(s: Peer, used: set<PublicKey>, j: nat, t: Session, received: set<Place>, n: nat)
    requires Writes(s, used) && Reads(s.log, j, t, received) && n < |s.log[j].sent|
    ensures KeysAt(t, n) == Some(KeysOf(Advance(s.log[j].chain, n))) <==> Place(j, n) !in received && !TooFar(t, n)
    ensures SkipId(t.dhRemote, n) in t.skippedKeys <==> n < t.nr && Place(j, n) !in received
    ensures SkipId(t.dhRemote, n) in t.skippedKeys ==>
      t.skippedKeys[SkipId(t.dhRemote, n)] == KeysOf(Advance(s.log[j].chain, n))
  {
    if n < t.nr && Place(j, n) !in received {
      assert Outstanding(s.log, j, t.nr, received, j, n);
    } else if n < t.nr {
      DeliveredNotIndexed(s, used, j, t, received, n);
      AdvanceInjective(s.log[j].chain, n, t.nr);
    } else {
      NotIndexedBeyond(s, used, j, t, received, n);
      AdvanceAdds(s.log[j].chain, t.nr, n - t.nr);
    }
  }

  lemma KeysAfterTaking(s: Peer, used: set<PublicKey>, j: nat, t: Session, received: set<Place>, t': Session, c: nat,
                        n: nat)
    requires Writes(s, used) && Reads(s.log, j, t, received) && n < |s.log[j].sent| && TookAhead(t, t', c)
    ensures KeysAt(t', n) == Some(KeysOf(Advance(s.log[j].chain, n)))
       <==> Place(j, n) !in received && n != c && !TooFar(t', n)
  {
    var chain := s.log[j].chain;
    ReaderKeys(s, used, j, t, received, n);
    SkipStores(t, c, SkipId(t.dhRemote, n));
    AdvanceAdds(chain, t.nr, c + 1 - t.nr);
    if t.nr <= n < c {
      AdvanceAdds(chain, t.nr, n - t.nr);
    } else if n > c {
      AdvanceAdds(chain, c + 1, n - (c + 1));
    } else {
      AdvanceInjective(chain, n, c + 1);
    }
  }

  lemma KeysAfterLosing(s: Peer, used: set<PublicKey>, j: nat, t: Session, received: set<Place>, t': Session,
                        lost: set<SkipId>, n: nat)
    requires Writes(s, used) && Reads(s.log, j, t, received) && n < |s.log[j].sent|
    requires WithoutKey(t, t', lost) && lost <= t.skippedKeys.Keys
    ensures KeysAt(t', n) == Some(KeysOf(Advance(s.log[j].chain, n)))
       <==> Place(j, n) !in received && SkipId(t.dhRemote, n) !in lost && !TooFar(t', n)
  {
    ReaderKeys(s, used, j, t, received, n);
    if SkipId(t.dhRemote, n) in lost {
      AdvanceInjective(s.log[j].chain, n, t.nr);
    }
  }

  /** After any message under the present key the keys of one position are gone at most. */
  lemma KeysAfter(s: Peer, used: set<PublicKey>, j: nat, t: Session, received: set<Place>, m: Message,
                  ephemeral: PublicKey, n: nat)
    requires Writes(s, used) && Reads(s.log, j, t, received) && n < |s.log[j].sent|
    requires m.header.dh == t.dhRemote
    ensures var t' := Decrypted(t, m, ephemeral).0;
      KeysAt(t', n) == Some(KeysOf(Advance(s.log[j].chain, n)))
      <==> Place(j, n) !in received && Burns(t, m.header) != Some(n) && !TooFar(t', n)
  {
    var t', h := Decrypted(t, m, ephemeral).0, m.header;
    HeardInBatch(t, m, ephemeral);
    if SkipId(h.dh, h.n) in t.skippedKeys {
      KeysAfterLosing(s, used, j, t, received, t', {SkipId(h.dh, h.n)}, n);
    } else if TooFar(t, h.n) {
      KeysAfterLosing(s, used, j, t, received, t', {}, n);
    } else {
      KeysAfterTaking(s, used, j, t, received, t', if h.n >= t.nr then h.n else t.nr, n);
    }
  }

  lemma BatchAfter(s: Peer, used: set<PublicKey>, r: Session, received: set<Place>, m: Message, ephemeral: PublicKey,
                   place: Place, ephemeral': PublicKey)
    requires Writes(s, used) && IsPlace(s.log, place) && Reads(s.log, place.batch, r, received)
    requires m.header.dh == r.dhRemote
    ensures var r', sent := Decrypted(r, m, ephemeral).0, At(s.log, place);
      Decrypted(r', sent.message, ephemeral').1.Ok?
      <==> place !in received && Burns(r, m.header) != Some(place.n) && !TooFar(r', place.n)
  {
    var sent, chain := At(s.log, place), s.log[place.batch].chain;
    assert WellSent(s.log, place.batch, place.n);
    HeardInBatch(r, m, ephemeral);
    KeysAfter(s, used, place.batch, r, received, m, ephemeral, place.n);
    OpensUnder(Decrypted(r, m, ephemeral).0, chain, place.n, sent.message, sent.plaintext, ephemeral');
  }

  /** What any message under the present sender key, genuine, repeated or made up, costs the
      rest of the batch: a message of it still decrypts if and only if it was not delivered
      before, is not the one whose keys were taken, and is within the skip limit. */
  lemma BurnsAtMostOne(bootstrap: Key, identityA: PublicKey, identityB: PublicKey, events: seq<Event>, w: World,
                       to: Side, m: Message, ephemeral: PublicKey, place: Place, ephemeral': PublicKey)
    requires identityA != identityB
    requires Reaches(Start(bootstrap, identityA, identityB), events, w)
    requires m.header.dh == w.Of(to).session.dhRemote
    requires var log := w.Of(to.Other()).log; IsPlace(log, place) && log[place.batch].dh == m.header.dh
    ensures var r, r', sent := w.Of(to), Hears(w.Of(to), m, ephemeral), At(w.Of(to.Other()).log, place);
      Decrypted(r'.session, sent.message, ephemeral').1.Ok?
      <==> place !in r.received && Burns(r.session, m.header) != Some(place.n) && !TooFar(r'.session, place.n)
  {
    ReachesSettled(bootstrap, identityA, identityB, events, w);
    SettledPair(w, to);
    var s, r := w.Of(to.Other()), w.Of(to);
    ReadsOwnBatch(s, r, w.used, place);
    BatchAfter(s, w.used, r.session, r.received, m, ephemeral, place, ephemeral');
  }

  lemma ReadsOwnBatch(s: Peer, r: Peer, used: set<PublicKey>, place: Place)
    requires Writes(s, used) && IsPlace(s.log, place) && s.log[place.batch].dh == r.session.dhRemote
    requires Fresh(s, r) || Leads(s, r) || Leads(r, s)
    ensures Reads(s.log, place.batch, r.session, r.received)
  {
    var j: nat := if Leads(s, r) then |s.log| - 2 else |s.log| - 1;
    assert Reads(s.log, j, r.session, r.received) && s.log[j].dh == r.session.dhRemote;
    assert place.batch == j;
  }
}
