/** Two Double Ratchet sessions over a network that may lose, delay and reorder messages.
    A world holds both sessions and everything each side has encrypted, grouped by the
    sender key it went out under; a run is any sequence of sends and allowed deliveries. */
module RatchetAgreement {
  import opened Wrappers
  import opened SymbolicCrypto
  import opened Ratchet

  datatype Sent = Sent(plaintext: Blob, message: Message)

  /** Everything sent under one sender key, and the chain key that batch started from. */
  datatype Batch = Batch(dh: PublicKey, chain: Key, sent: seq<Sent>)

  type Log = seq<Batch>

  /** Where a message stands in its sender's log. */
  datatype Place = Place(batch: nat, n: nat)

  datatype Peer = Peer(session: Session, log: Log, received: set<Place>)

  datatype Side = A | B {
    function Other(): Side { if this == A then B else A }
  }

  /** `used` collects every key pair that exists, so that generated keys are new. */
  datatype World = World(a: Peer, b: Peer, used: set<PublicKey>) {
    function Of(side: Side): Peer { if side == A then a else b }

    function With(side: Side, p: Peer, key: PublicKey): World {
      if side == A then World(p, b, used + {key}) else World(a, p, used + {key})
    }
  }

  datatype Event =
    | Send(side: Side, plaintext: Blob)
    | Deliver(to: Side, place: Place, ephemeral: PublicKey)

  // ---- Steps ----

  function StartPeer(bootstrap: Key, mine: PublicKey, peer: PublicKey): Peer {
    var s := InitSession(bootstrap, mine, peer);
    Peer(s, [Batch(mine, s.sendingChainKey, [])], {})
  }

  function Start(bootstrap: Key, identityA: PublicKey, identityB: PublicKey): World {
    World(StartPeer(bootstrap, identityA, identityB), StartPeer(bootstrap, identityB, identityA),
        {identityA, identityB})
  }

  function Sends(p: Peer, plaintext: Blob): Peer
    requires p.log != []
  {
    var last := |p.log| - 1;
    var record := Sent(plaintext, Encrypted(p.session, plaintext));
    p.(session := AfterEncrypt(p.session),
       log := p.log[last := p.log[last].(sent := p.log[last].sent + [record])])
  }

  /** A new sender key of the receiver opens a new batch in its own log. */
  function Hears(p: Peer, m: Message, ephemeral: PublicKey): Peer {
    var s := Decrypted(p.session, m, ephemeral).0;
    p.(session := s,
       log := if s.dhSelf == p.session.dhSelf then p.log else p.log + [Batch(s.dhSelf, s.sendingChainKey, [])])
  }

  function Receives(p: Peer, m: Message, place: Place, ephemeral: PublicKey): Peer {
    Hears(p, m, ephemeral).(received := p.received + {place})
  }

  predicate IsPlace(log: Log, place: Place) {
    place.batch < |log| && place.n < |log[place.batch].sent|
  }

  function At(log: Log, place: Place): Sent
    requires IsPlace(log, place)
  {
    log[place.batch].sent[place.n]
  }

  /** Both skips a header asks for stay within the limit. */
  predicate GapsAllowed(s: Session, h: Header) {
    if h.dh == s.dhRemote then !TooFar(s, h.n) else !TooFar(s, h.pn) && h.n <= MAX_SKIP
  }

  /** No message under an older sender key after one under a newer key. */
  predicate NotStale(r: Peer, place: Place) {
    forall q <- r.received :: q.batch <= place.batch
  }

  /** The delivery does not make the second side, too, rotate away from its identity key. */
  predicate NotCrossing(s: Peer, r: Peer, h: Header) {
    !(r.session.dhSelfIsIdentity && h.dh == r.session.dhRemote && !s.session.dhSelfIsIdentity)
  }

  predicate Allowed(w: World, e: Event) {
    match e
    case Send(side, _) => w.Of(side).log != []
    case Deliver(to, place, ephemeral) =>
      var r, s := w.Of(to), w.Of(to.Other());
      && IsPlace(s.log, place)
      && place !in r.received
      && ephemeral !in w.used
      && NotStale(r, place)
      && NotCrossing(s, r, At(s.log, place).message.header)
      && GapsAllowed(r.session, At(s.log, place).message.header)
  }

  function Step(w: World, e: Event): World
    requires Allowed(w, e)
  {
    match e
    case Send(side, plaintext) =>
      var p := Sends(w.Of(side), plaintext);
      w.With(side, p, p.session.dhSelf)
    case Deliver(to, place, ephemeral) =>
      w.With(to, Receives(w.Of(to), At(w.Of(to.Other()).log, place).message, place, ephemeral), ephemeral)
  }

  /** What the receiver gets out of one delivery. */
  function Outcome(w: World, to: Side, place: Place, ephemeral: PublicKey): Result<Blob, RatchetError>
    requires IsPlace(w.Of(to.Other()).log, place)
  {
    Decrypted(w.Of(to).session, At(w.Of(to.Other()).log, place).message, ephemeral).1
  }

  ghost predicate Reaches(w: World, events: seq<Event>, w': World)
    decreases |events|
  {
    if events == [] then w' == w
    else Allowed(w, events[0]) && Reaches(Step(w, events[0]), events[1..], w')
  }

  // ---- The invariant ----

  function PreviousLength(log: Log, i: nat): nat
    requires i < |log|
  {
    if i == 0 then 0 else |log[i - 1].sent|
  }

  ghost predicate WellSent(log: Log, i: nat, n: nat)
    requires i < |log| && n < |log[i].sent|
  {
    var h := Header(log[i].dh, PreviousLength(log, i), n);
    log[i].sent[n].message == Message(h, Seal(KeysOf(Advance(log[i].chain, n)), Some(h), log[i].sent[n].plaintext))
  }

  /** The log is what the session has sent, and the session continues its last batch. */
  ghost predicate Writes(p: Peer, used: set<PublicKey>) {
    && p.log != []
    && (var last := |p.log| - 1; var s := p.session;
        && s.dhSelf == p.log[last].dh
        && s.ns == |p.log[last].sent|
        && s.pn == PreviousLength(p.log, last)
        && s.sendingChainKey == Advance(p.log[last].chain, s.ns))
    && (forall i, k :: 0 <= i < k < |p.log| ==> p.log[i].dh != p.log[k].dh)
    && (forall i :: 0 <= i < |p.log| ==> p.log[i].dh in used)
    && (forall i: nat, n: nat :: i < |p.log| && n < |p.log[i].sent| ==> WellSent(p.log, i, n))
    && (p.session.dhSelfIsIdentity <==> |p.log| == 1)
  }

  /** How far a reader in batch `j` has gone through batch `i`. */
  function Passed(log: Log, j: nat, nr: nat, i: nat): nat
    requires i <= j < |log|
  {
    if i == j then nr else |log[i].sent|
  }

  /** Passed over and not yet consumed. */
  ghost predicate Outstanding(log: Log, j: nat, nr: nat, received: set<Place>, i: nat, n: int)
    requires j < |log|
  {
    i <= j && 0 <= n < Passed(log, j, nr, i) && Place(i, n) !in received
  }

  /** The skipped-key map holds exactly the outstanding messages, with the sender's keys. */
  ghost predicate Indexed(log: Log, j: nat, nr: nat, received: set<Place>, skipped: map<SkipId, MessageKeys>)
    requires j < |log|
  {
    && (forall i: nat, n: int :: Outstanding(log, j, nr, received, i, n) ==>
          SkipId(log[i].dh, n) in skipped && skipped[SkipId(log[i].dh, n)] == KeysOf(Advance(log[i].chain, n)))
    && (forall id <- skipped :: exists i: nat :: Outstanding(log, j, nr, received, i, id.n) && log[i].dh == id.dh)
  }

  /** The receiving chain of session `s` stands in batch `j` of the other side's log. */
  ghost predicate StandsIn(log: Log, j: nat, s: Session, received: set<Place>) {
    && j < |log|
    && s.dhRemote == log[j].dh
    && s.nr <= |log[j].sent|
    && s.receivingChainKey == Advance(log[j].chain, s.nr)
    && (forall q <- received :: q.batch <= j && q.n < Passed(log, j, s.nr, q.batch))
  }

  ghost predicate Reads(log: Log, j: nat, s: Session, received: set<Place>) {
    StandsIn(log, j, s, received) && Indexed(log, j, s.nr, received, s.skippedKeys)
  }

  /** Nobody has received anything yet. */
  ghost predicate Fresh(x: Peer, y: Peer) {
    && |x.log| == 1 && |y.log| == 1
    && x.session.rootKey == y.session.rootKey
    && Reads(x.log, 0, y.session, y.received)
    && Reads(y.log, 0, x.session, x.received)
  }

  /** The leader turned last: it is one root step ahead, and the follower has not read
      anything of the leader's current batch. */
  ghost predicate Leads(leader: Peer, follower: Peer) {
    && |leader.log| >= 2 && follower.log != []
    && (var l, f := leader.session, follower.session;
        && l.rootKey == Root(f.rootKey, Agree(l.dhSelf, f.dhSelf))
        && leader.log[|leader.log| - 1].chain == Chain(f.rootKey, Agree(l.dhSelf, f.dhSelf)))
    && Reads(follower.log, |follower.log| - 1, leader.session, leader.received)
    && Reads(leader.log, |leader.log| - 2, follower.session, follower.received)
    && Arrived(leader.received, |follower.log| - 1)
    && Arrived(follower.received, |leader.log| - 2)
  }

  /** A reader enters a batch by receiving something of it. */
  ghost predicate Arrived(received: set<Place>, j: nat) {
    j == 0 || exists q <- received :: q.batch == j
  }

  ghost predicate Synced(w: World) {
    && Writes(w.a, w.used)
    && Writes(w.b, w.used)
    && (Fresh(w.a, w.b) || Leads(w.a, w.b) || Leads(w.b, w.a))
  }

  // ---- Sending keeps the invariant ----

  lemma SendWrites(p: Peer, plaintext: Blob, used: set<PublicKey>)
    requires Writes(p, used)
    ensures Writes(Sends(p, plaintext), used)
  {
    var q := Sends(p, plaintext);
    forall i: nat, n: nat | i < |q.log| && n < |q.log[i].sent|
      ensures WellSent(q.log, i, n)
    {
      if n < |p.log[i].sent| { assert WellSent(p.log, i, n); }
    }
  }

  /** A reader is not disturbed by messages appended to the last batch or by new batches. */
  lemma ReadsMonotone(log: Log, log': Log, j: nat, s: Session, received: set<Place>)
    requires Reads(log, j, s, received)
    requires |log| <= |log'|
    requires forall i :: 0 <= i <= j ==> log'[i].dh == log[i].dh && log'[i].chain == log[i].chain
    requires forall i :: 0 <= i < j ==> |log'[i].sent| == |log[i].sent|
    requires |log[j].sent| <= |log'[j].sent|
    ensures Reads(log', j, s, received)
  {
    assert forall i: nat, n: int :: Outstanding(log', j, s.nr, received, i, n) <==>
        Outstanding(log, j, s.nr, received, i, n);
    forall id | id in s.skippedKeys
      ensures exists i: nat :: Outstanding(log', j, s.nr, received, i, id.n) && log'[i].dh == id.dh
    {
      var i: nat :| Outstanding(log, j, s.nr, received, i, id.n) && log[i].dh == id.dh;
      assert Outstanding(log', j, s.nr, received, i, id.n);
    }
  }

  // ---- Receiving keeps the invariant ----

  /** A message beyond the chain position is not in the map. */
  lemma NotIndexedBeyond(s: Peer, used: set<PublicKey>, j: nat, t: Session, received: set<Place>, n: nat)
    requires Writes(s, used) && Reads(s.log, j, t, received)
    requires t.nr <= n
    ensures SkipId(s.log[j].dh, n) !in t.skippedKeys
  {
  }

  /** A message of the batch being read decrypts to its plaintext. */
  lemma ConsumeOpens(s: Peer, used: set<PublicKey>, j: nat, t: Session, received: set<Place>, n: nat)
    requires Writes(s, used) && Reads(s.log, j, t, received)
    requires n < |s.log[j].sent| && Place(j, n) !in received && !TooFar(t, n)
    ensures var m := s.log[j].sent[n].message;
      Consumed(t, m.header, m.ciphertext).1 == Ok(s.log[j].sent[n].plaintext)
  {
    assert WellSent(s.log, j, n);
    if n < t.nr {
      assert Outstanding(s.log, j, t.nr, received, j, n);
    } else {
      NotIndexedBeyond(s, used, j, t, received, n);
      SkipMovesChain(t, n);
      AdvanceAdds(s.log[j].chain, t.nr, n - t.nr);
    }
  }

  /** Consuming it keeps the receiving chain in place. */
  lemma ConsumeStands(s: Peer, used: set<PublicKey>, j: nat, t: Session, received: set<Place>, n: nat)
    requires Writes(s, used) && Reads(s.log, j, t, received)
    requires n < |s.log[j].sent| && Place(j, n) !in received && !TooFar(t, n)
    ensures var m := s.log[j].sent[n].message;
      StandsIn(s.log, j, Consumed(t, m.header, m.ciphertext).0, received + {Place(j, n)})
  {
    assert WellSent(s.log, j, n);
    if n < t.nr {
      assert Outstanding(s.log, j, t.nr, received, j, n);
    } else {
      NotIndexedBeyond(s, used, j, t, received, n);
      SkipMovesChain(t, n);
      AdvanceAdds(s.log[j].chain, t.nr, n - t.nr);
    }
  }

  /** No earlier batch went out under the key of batch `j`. */
  predicate NewKey(log: Log, j: nat)
    requires j < |log|
  {
    forall i :: 0 <= i < j ==> log[i].dh != log[j].dh
  }

  /** A message passed over turns up: its entry leaves the index. */
  lemma TakenIndexed(log: Log, j: nat, nr: nat, received: set<Place>, skipped: map<SkipId, MessageKeys>, n: nat)
    requires j < |log| && NewKey(log, j) && Indexed(log, j, nr, received, skipped)
    ensures Indexed(log, j, nr, received + {Place(j, n)}, skipped - {SkipId(log[j].dh, n)})
  {
    var received', skipped' := received + {Place(j, n)}, skipped - {SkipId(log[j].dh, n)};
    assert forall i: nat, k: int :: Outstanding(log, j, nr, received', i, k) <==>
      Outstanding(log, j, nr, received, i, k) && !(i == j && k == n);
    forall e | e in skipped'
      ensures exists i: nat :: Outstanding(log, j, nr, received', i, e.n) && log[i].dh == e.dh
    {
      var i: nat :| Outstanding(log, j, nr, received, i, e.n) && log[i].dh == e.dh;
      assert Outstanding(log, j, nr, received', i, e.n);
    }
  }

  /** Skipping ahead to message `n` stores what is then outstanding. */
  lemma AheadStores(log: Log, j: nat, t: Session, received: set<Place>, n: nat, i: nat, k: int)
    requires Reads(log, j, t, received) && NewKey(log, j) && t.nr <= n
    requires Outstanding(log, j, n + 1, received + {Place(j, n)}, i, k)
    ensures var skipped := SkipTo(t, n).skippedKeys;
      SkipId(log[i].dh, k) in skipped && skipped[SkipId(log[i].dh, k)] == KeysOf(Advance(log[i].chain, k))
  {
    SkipStores(t, n, SkipId(log[i].dh, k));
    if i == j && t.nr <= k {
      AdvanceAdds(log[j].chain, t.nr, k - t.nr);
    } else {
      assert Outstanding(log, j, t.nr, received, i, k);
    }
  }

  lemma AheadStoresOnly(log: Log, j: nat, t: Session, received: set<Place>, n: nat, e: SkipId)
    requires Reads(log, j, t, received) && t.nr <= n && e in SkipTo(t, n).skippedKeys
    ensures exists i: nat :: Outstanding(log, j, n + 1, received + {Place(j, n)}, i, e.n) && log[i].dh == e.dh
  {
    var received' := received + {Place(j, n)};
    SkipStores(t, n, e);
    if e.dh == log[j].dh && t.nr <= e.n < n {
      assert Outstanding(log, j, n + 1, received', j, e.n);
    } else {
      var i: nat :| Outstanding(log, j, t.nr, received, i, e.n) && log[i].dh == e.dh;
      assert Outstanding(log, j, n + 1, received', i, e.n);
    }
  }

  lemma AheadIndexed(log: Log, j: nat, t: Session, received: set<Place>, n: nat)
    requires Reads(log, j, t, received) && NewKey(log, j) && t.nr <= n
    ensures Indexed(log, j, n + 1, received + {Place(j, n)}, SkipTo(t, n).skippedKeys)
  {
    var skipped, received' := SkipTo(t, n).skippedKeys, received + {Place(j, n)};
    forall i: nat, k: int | Outstanding(log, j, n + 1, received', i, k)
      ensures SkipId(log[i].dh, k) in skipped && skipped[SkipId(log[i].dh, k)] == KeysOf(Advance(log[i].chain, k))
    {
      AheadStores(log, j, t, received, n, i, k);
    }
    forall e | e in skipped
      ensures exists i: nat :: Outstanding(log, j, n + 1, received', i, e.n) && log[i].dh == e.dh
    {
      AheadStoresOnly(log, j, t, received, n, e);
    }
  }

  /** The index after consuming one message of the batch being read. */
  lemma ConsumeIndexed(s: Peer, used: set<PublicKey>, j: nat, t: Session, received: set<Place>, n: nat)
    requires Writes(s, used) && Reads(s.log, j, t, received)
    requires n < |s.log[j].sent| && Place(j, n) !in received && !TooFar(t, n)
    ensures var m := s.log[j].sent[n].message; var t' := Consumed(t, m.header, m.ciphertext).0;
      Indexed(s.log, j, t'.nr, received + {Place(j, n)}, t'.skippedKeys)
  {
    assert WellSent(s.log, j, n);
    if n < t.nr {
      assert Outstanding(s.log, j, t.nr, received, j, n);
      TakenIndexed(s.log, j, t.nr, received, t.skippedKeys, n);
    } else {
      NotIndexedBeyond(s, used, j, t, received, n);
      SkipMovesChain(t, n);
      AheadIndexed(s.log, j, t, received, n);
    }
  }

  lemma ConsumeReads(s: Peer, used: set<PublicKey>, j: nat, t: Session, received: set<Place>, n: nat)
    requires Writes(s, used) && Reads(s.log, j, t, received)
    requires n < |s.log[j].sent| && Place(j, n) !in received && !TooFar(t, n)
    ensures var m := s.log[j].sent[n].message;
      Reads(s.log, j, Consumed(t, m.header, m.ciphertext).0, received + {Place(j, n)})
  {
    ConsumeStands(s, used, j, t, received, n);
    ConsumeIndexed(s, used, j, t, received, n);
  }

  /** Skipping the rest of a batch stores what is outstanding of it. */
  lemma TurnStores(log: Log, j: nat, t: Session, received: set<Place>, i: nat, k: int)
    requires Reads(log, j, t, received) && j + 1 < |log| && Outstanding(log, j + 1, 0, received, i, k)
    requires NewKey(log, j)
    ensures var skipped := SkipTo(t, |log[j].sent|).skippedKeys;
      SkipId(log[i].dh, k) in skipped && skipped[SkipId(log[i].dh, k)] == KeysOf(Advance(log[i].chain, k))
  {
    SkipStores(t, |log[j].sent|, SkipId(log[i].dh, k));
    if i == j && t.nr <= k {
      AdvanceAdds(log[j].chain, t.nr, k - t.nr);
    } else {
      assert Outstanding(log, j, t.nr, received, i, k);
    }
  }

  lemma TurnStoresOnly(log: Log, j: nat, t: Session, received: set<Place>, e: SkipId)
    requires Reads(log, j, t, received) && j + 1 < |log| && e in SkipTo(t, |log[j].sent|).skippedKeys
    ensures exists i: nat :: Outstanding(log, j + 1, 0, received, i, e.n) && log[i].dh == e.dh
  {
    SkipStores(t, |log[j].sent|, e);
    if e.dh == log[j].dh && t.nr <= e.n < |log[j].sent| {
      assert Outstanding(log, j + 1, 0, received, j, e.n) by {
        if Place(j, e.n) in received { assert false; }
      }
    } else {
      var i: nat :| Outstanding(log, j, t.nr, received, i, e.n) && log[i].dh == e.dh;
      assert Outstanding(log, j + 1, 0, received, i, e.n);
    }
  }

  lemma TurnIndexed(log: Log, j: nat, t: Session, received: set<Place>)
    requires Reads(log, j, t, received)
    requires j + 1 < |log| && NewKey(log, j)
    ensures Indexed(log, j + 1, 0, received, SkipTo(t, |log[j].sent|).skippedKeys)
  {
    var skipped := SkipTo(t, |log[j].sent|).skippedKeys;
    forall i: nat, k: int | Outstanding(log, j + 1, 0, received, i, k)
      ensures SkipId(log[i].dh, k) in skipped && skipped[SkipId(log[i].dh, k)] == KeysOf(Advance(log[i].chain, k))
    {
      TurnStores(log, j, t, received, i, k);
    }
    forall e | e in skipped
      ensures exists i: nat :: Outstanding(log, j + 1, 0, received, i, e.n) && log[i].dh == e.dh
    {
      TurnStoresOnly(log, j, t, received, e);
    }
  }

  /** Turning to the next batch: the rest of the old one is stored, the new chain agrees. */
  lemma TurnReads(log: Log, j: nat, t: Session, received: set<Place>, ephemeral: PublicKey)
    requires Reads(log, j, t, received)
    requires j + 1 < |log| && NewKey(log, j)
    requires log[j + 1].chain == Chain(t.rootKey, Agree(t.dhSelf, log[j + 1].dh))
    ensures Reads(log, j + 1, RatchetStep(SkipTo(t, |log[j].sent|), log[j + 1].dh, ephemeral), received)
  {
    SkipMovesChain(t, |log[j].sent|);
    TurnIndexed(log, j, t, received);
    var t' := RatchetStep(SkipTo(t, |log[j].sent|), log[j + 1].dh, ephemeral);
    assert StandsIn(log, j + 1, t', received);
  }

  /** Consuming a message touches nothing but the receiving half of a session. */
  lemma ConsumeKeepsSending(t: Session, h: Header, ciphertext: Blob)
    ensures var t' := Consumed(t, h, ciphertext).0;
      t' == t.(receivingChainKey := t'.receivingChainKey, nr := t'.nr, skippedKeys := t'.skippedKeys)
  {
    if h.n > t.nr { SkipMovesChain(t, h.n); }
  }

  /** A session that moved to a new key continues in a new batch. */
  lemma TurnWrites(p: Peer, used: set<PublicKey>, s: Session, ephemeral: PublicKey, received: set<Place>)
    requires Writes(p, used) && ephemeral !in used
    requires s.dhSelf == ephemeral && s.pn == p.session.ns && s.ns == 0 && !s.dhSelfIsIdentity
    ensures Writes(Peer(s, p.log + [Batch(ephemeral, s.sendingChainKey, [])], received), used + {ephemeral})
  {
    var q := Peer(s, p.log + [Batch(ephemeral, s.sendingChainKey, [])], received);
    forall i: nat, n: nat | i < |q.log| && n < |q.log[i].sent|
      ensures WellSent(q.log, i, n)
    {
      assert WellSent(p.log, i, n);
    }
  }

  lemma AgreeCommutes(x: PublicKey, y: PublicKey)
    ensures Agree(x, y) == Agree(y, x)
  {
  }

  /** The pair after one delivery from `s` to `r`, with the plaintext that was encrypted. */
  ghost predicate Delivers(s: Peer, r: Peer, place: Place, ephemeral: PublicKey, used: set<PublicKey>)
    requires IsPlace(s.log, place)
  {
    var m := At(s.log, place).message;
    var r' := Receives(r, m, place, ephemeral);
    && Decrypted(r.session, m, ephemeral).1 == Ok(At(s.log, place).plaintext)
    && Writes(r', used + {ephemeral})
    && (Fresh(s, r') || Leads(s, r') || Leads(r', s))
  }

  /** The first delivery of all: the receiver leaves its identity key and leads. */
  lemma DeliverFresh(s: Peer, r: Peer, place: Place, ephemeral: PublicKey, used: set<PublicKey>)
    requires Writes(s, used) && Writes(r, used) && Fresh(s, r)
    requires IsPlace(s.log, place) && place !in r.received && ephemeral !in used
    requires GapsAllowed(r.session, At(s.log, place).message.header)
    ensures Delivers(s, r, place, ephemeral, used)
  {
    var m := At(s.log, place).message;
    assert WellSent(s.log, 0, place.n);
    var t := Rotated(r.session, ephemeral);
    ConsumeKeepsSending(t, m.header, m.ciphertext);
    ConsumeOpens(s, used, 0, t, r.received, place.n);
    ConsumeReads(s, used, 0, t, r.received, place.n);
    var t' := Consumed(t, m.header, m.ciphertext).0;
    TurnWrites(r, used, t', ephemeral, r.received + {place});
    var r' := Receives(r, m, place, ephemeral);
    ReadsMonotone(r.log, r'.log, 0, s.session, s.received);
    assert Leads(r', s);
  }

  /** One more message read within a batch leaves the writing half of a peer alone. */
  ghost predicate ReadOneMore(s: Peer, r: Peer, r': Peer, place: Place) {
    var t := r'.session;
    && r'.log == r.log && r'.received == r.received + {place}
    && t == r.session.(receivingChainKey := t.receivingChainKey, nr := t.nr, skippedKeys := t.skippedKeys)
    && Reads(s.log, place.batch, t, r'.received)
  }

  /** One delivery within the batch being read, as seen by the receiver. */
  lemma ReceiveSameBatch(s: Peer, r: Peer, place: Place, ephemeral: PublicKey, used: set<PublicKey>)
    requires Writes(s, used) && Reads(s.log, place.batch, r.session, r.received)
    requires IsPlace(s.log, place) && place !in r.received
    requires !r.session.dhSelfIsIdentity
    requires GapsAllowed(r.session, At(s.log, place).message.header)
    ensures var m := At(s.log, place).message;
      && Decrypted(r.session, m, ephemeral).1 == Ok(At(s.log, place).plaintext)
      && ReadOneMore(s, r, Receives(r, m, place, ephemeral), place)
  {
    var m := At(s.log, place).message;
    assert WellSent(s.log, place.batch, place.n);
    ConsumeKeepsSending(r.session, m.header, m.ciphertext);
    ConsumeOpens(s, used, place.batch, r.session, r.received, place.n);
    ConsumeReads(s, used, place.batch, r.session, r.received, place.n);
  }

  /** Writing does not depend on the receiving half of a session. */
  lemma WritesFrame(p: Peer, q: Peer, used: set<PublicKey>, used': set<PublicKey>)
    requires Writes(p, used) && used <= used' && q.log == p.log
    requires var t := q.session;
      t == p.session.(receivingChainKey := t.receivingChainKey, nr := t.nr, skippedKeys := t.skippedKeys)
    ensures Writes(q, used')
  {
    forall i: nat, n: nat | i < |q.log| && n < |q.log[i].sent|
      ensures WellSent(q.log, i, n)
    {
      assert WellSent(p.log, i, n);
    }
  }

  lemma ArrivedMonotone(received: set<Place>, place: Place, j: nat)
    requires Arrived(received, j)
    ensures Arrived(received + {place}, j)
  {
    if j > 0 {
      var q :| q in received && q.batch == j;
      assert q in received + {place};
    }
  }

  lemma NotBefore(received: set<Place>, j: nat, place: Place)
    requires Arrived(received, j)
    requires forall q <- received :: q.batch <= place.batch
    ensures j <= place.batch
  {
  }

  lemma FollowerStays(s: Peer, r: Peer, r': Peer, place: Place)
    requires Leads(s, r) && ReadOneMore(s, r, r', place) && place.batch == |s.log| - 2
    ensures Leads(s, r')
  {
    ArrivedMonotone(r.received, place, |s.log| - 2);
  }

  lemma LeaderStays(s: Peer, r: Peer, r': Peer, place: Place)
    requires Leads(r, s) && ReadOneMore(s, r, r', place) && place.batch == |s.log| - 1
    ensures Leads(r', s)
  {
    ArrivedMonotone(r.received, place, |s.log| - 1);
  }

  /** The follower still reads the leader's last batch but one. */
  lemma DeliverToFollower(s: Peer, r: Peer, place: Place, ephemeral: PublicKey, used: set<PublicKey>)
    requires Writes(s, used) && Writes(r, used) && Leads(s, r) && !r.session.dhSelfIsIdentity
    requires IsPlace(s.log, place) && place !in r.received && place.batch == |s.log| - 2
    requires GapsAllowed(r.session, At(s.log, place).message.header)
    ensures Delivers(s, r, place, ephemeral, used)
  {
    ReceiveSameBatch(s, r, place, ephemeral, used);
    var r' := Receives(r, At(s.log, place).message, place, ephemeral);
    WritesFrame(r, r', used, used + {ephemeral});
    FollowerStays(s, r, r', place);
  }

  /** The leader reads the follower's current batch. */
  lemma DeliverToLeader(s: Peer, r: Peer, place: Place, ephemeral: PublicKey, used: set<PublicKey>)
    requires Writes(s, used) && Writes(r, used) && Leads(r, s)
    requires IsPlace(s.log, place) && place !in r.received && place.batch == |s.log| - 1
    requires GapsAllowed(r.session, At(s.log, place).message.header)
    ensures Delivers(s, r, place, ephemeral, used)
  {
    ReceiveSameBatch(s, r, place, ephemeral, used);
    var r' := Receives(r, At(s.log, place).message, place, ephemeral);
    WritesFrame(r, r', used, used + {ephemeral});
    LeaderStays(s, r, r', place);
  }

  /** The receiver's move to the sender's next batch. */
  lemma ReceiveNextBatch(s: Peer, r: Peer, place: Place, ephemeral: PublicKey, used: set<PublicKey>)
    requires Writes(s, used) && IsPlace(s.log, place) && place !in r.received && place.batch > 0
    requires Reads(s.log, place.batch - 1, r.session, r.received)
    requires s.log[place.batch].chain == Chain(r.session.rootKey, Agree(r.session.dhSelf, s.log[place.batch].dh))
    requires GapsAllowed(r.session, At(s.log, place).message.header)
    ensures var m := At(s.log, place).message; var (t, outcome) := Decrypted(r.session, m, ephemeral);
      var root1 := Root(r.session.rootKey, Agree(r.session.dhSelf, m.header.dh));
      && outcome == Ok(At(s.log, place).plaintext)
      && t.dhSelf == ephemeral && t.pn == r.session.ns && t.ns == 0 && !t.dhSelfIsIdentity
      && t.rootKey == Root(root1, Agree(ephemeral, m.header.dh))
      && t.sendingChainKey == Chain(root1, Agree(ephemeral, m.header.dh))
      && Reads(s.log, place.batch, t, r.received + {place})
  {
    var m := At(s.log, place).message;
    var j := place.batch;
    assert WellSent(s.log, j, place.n);
    var until := |s.log[j - 1].sent|;
    TurnReads(s.log, j - 1, r.session, r.received, ephemeral);
    SkipMovesChain(r.session, until);
    var t := RatchetStep(SkipTo(r.session, until), m.header.dh, ephemeral);
    ConsumeKeepsSending(t, m.header, m.ciphertext);
    ConsumeOpens(s, used, j, t, r.received, place.n);
    ConsumeReads(s, used, j, t, r.received, place.n);
  }

  /** A follower that turned to the leader's current batch leads. */
  lemma FollowerTurns(s: Peer, r: Peer, r': Peer, place: Place)
    requires Leads(s, r) && place.batch == |s.log| - 1
    requires r'.log == r.log + [Batch(r'.session.dhSelf, r'.session.sendingChainKey, [])]
        && r'.received == r.received + {place}
    requires Reads(s.log, place.batch, r'.session, r'.received)
    requires r'.session.rootKey == Root(s.session.rootKey, Agree(r'.session.dhSelf, s.session.dhSelf))
    requires r'.session.sendingChainKey == Chain(s.session.rootKey, Agree(r'.session.dhSelf, s.session.dhSelf))
    ensures Leads(r', s)
  {
    ReadsMonotone(r.log, r'.log, |r.log| - 1, s.session, s.received);
    assert place in r'.received;
  }

  /** The first message the follower sees of the leader's current batch: it turns, reads
      the new batch, opens one of its own, and leads. */
  lemma DeliverNextBatch(s: Peer, r: Peer, place: Place, ephemeral: PublicKey, used: set<PublicKey>)
    requires Writes(s, used) && Writes(r, used) && Leads(s, r)
    requires IsPlace(s.log, place) && place !in r.received && ephemeral !in used
    requires place.batch == |s.log| - 1
    requires GapsAllowed(r.session, At(s.log, place).message.header)
    ensures Delivers(s, r, place, ephemeral, used)
  {
    var m := At(s.log, place).message;
    AgreeCommutes(s.session.dhSelf, r.session.dhSelf);
    assert WellSent(s.log, place.batch, place.n);
    ReceiveNextBatch(s, r, place, ephemeral, used);
    var r' := Receives(r, m, place, ephemeral);
    TurnWrites(r, used, r'.session, ephemeral, r'.received);
    FollowerTurns(s, r, r', place);
  }

  lemma DeliverKeeps(w: World, to: Side, place: Place, ephemeral: PublicKey)
    requires Synced(w) && Allowed(w, Deliver(to, place, ephemeral))
    ensures Delivers(w.Of(to.Other()), w.Of(to), place, ephemeral, w.used)
  {
    var s, r := w.Of(to.Other()), w.Of(to);
    assert WellSent(s.log, place.batch, place.n);
    if Fresh(s, r) {
      DeliverFresh(s, r, place, ephemeral, w.used);
    } else if Leads(r, s) {
      NotBefore(r.received, |s.log| - 1, place);
      DeliverToLeader(s, r, place, ephemeral, w.used);
    } else if place.batch == |s.log| - 1 {
      DeliverNextBatch(s, r, place, ephemeral, w.used);
    } else {
      NotBefore(r.received, |s.log| - 2, place);
      DeliverToFollower(s, r, place, ephemeral, w.used);
    }
  }

  // Sending disturbs neither half of the pair, in any of its phases.

  lemma SendFresh(p: Peer, q: Peer, plaintext: Blob)
    requires Fresh(p, q)
    ensures Fresh(Sends(p, plaintext), q)
  {
    ReadsMonotone(p.log, Sends(p, plaintext).log, 0, q.session, q.received);
  }

  lemma SendLeader(p: Peer, q: Peer, plaintext: Blob)
    requires Leads(p, q)
    ensures Leads(Sends(p, plaintext), q)
  {
    ReadsMonotone(p.log, Sends(p, plaintext).log, |p.log| - 2, q.session, q.received);
  }

  lemma SendFollower(p: Peer, q: Peer, plaintext: Blob)
    requires Leads(q, p)
    ensures Leads(q, Sends(p, plaintext))
  {
    ReadsMonotone(p.log, Sends(p, plaintext).log, |p.log| - 1, q.session, q.received);
  }

  lemma FreshCommutes(x: Peer, y: Peer)
    ensures Fresh(x, y) <==> Fresh(y, x)
  {
  }

  lemma SendKeeps(p: Peer, q: Peer, plaintext: Blob, used: set<PublicKey>)
    requires Writes(p, used) && (Fresh(p, q) || Leads(p, q) || Leads(q, p))
    ensures var p' := Sends(p, plaintext);
      Writes(p', used + {p'.session.dhSelf}) && (Fresh(p', q) || Leads(p', q) || Leads(q, p'))
  {
    SendWrites(p, plaintext, used);
    assert used + {p.session.dhSelf} == used;
    if Fresh(p, q) { SendFresh(p, q, plaintext); }
    else if Leads(p, q) { SendLeader(p, q, plaintext); }
    else { SendFollower(p, q, plaintext); }
  }

  /** Replacing one peer, from either side's point of view. */
  lemma SyncedWith(w: World, side: Side, p: Peer, key: PublicKey)
    requires var q := w.Of(side.Other());
      && Writes(p, w.used + {key}) && Writes(q, w.used)
      && (Fresh(p, q) || Leads(p, q) || Leads(q, p))
    ensures Synced(w.With(side, p, key))
  {
    var q := w.Of(side.Other());
    WritesFrame(q, q, w.used, w.used + {key});
    FreshCommutes(p, q);
  }

  lemma SyncedOf(w: World, side: Side)
    requires Synced(w)
    ensures var p, q := w.Of(side), w.Of(side.Other());
      Writes(p, w.used) && Writes(q, w.used) && (Fresh(p, q) || Leads(p, q) || Leads(q, p))
  {
    FreshCommutes(w.a, w.b);
  }

  lemma SendStepKeeps(w: World, side: Side, plaintext: Blob)
    requires Synced(w) && Allowed(w, Send(side, plaintext))
    ensures Synced(Step(w, Send(side, plaintext)))
  {
    SyncedOf(w, side);
    SendKeeps(w.Of(side), w.Of(side.Other()), plaintext, w.used);
    var p := Sends(w.Of(side), plaintext);
    SyncedWith(w, side, p, p.session.dhSelf);
  }

  lemma DeliverStepKeeps(w: World, to: Side, place: Place, ephemeral: PublicKey)
    requires Synced(w) && Allowed(w, Deliver(to, place, ephemeral))
    ensures Synced(Step(w, Deliver(to, place, ephemeral)))
  {
    SyncedOf(w, to);
    DeliverKeeps(w, to, place, ephemeral);
    SyncedWith(w, to, Receives(w.Of(to), At(w.Of(to.Other()).log, place).message, place, ephemeral), ephemeral);
  }

  lemma StepKeeps(w: World, e: Event)
    requires Synced(w) && Allowed(w, e)
    ensures Synced(Step(w, e))
  {
    match e
    case Send(side, plaintext) => SendStepKeeps(w, side, plaintext);
    case Deliver(to, place, ephemeral) => DeliverStepKeeps(w, to, place, ephemeral);
  }

  lemma StartSynced(bootstrap: Key, identityA: PublicKey, identityB: PublicKey)
    requires identityA != identityB
    ensures Synced(Start(bootstrap, identityA, identityB))
  {
    var w := Start(bootstrap, identityA, identityB);
    AgreeCommutes(identityA, identityB);
    assert Fresh(w.a, w.b);
  }

  lemma {:induction false} RunKeeps(w: World, events: seq<Event>, w': World)
    requires Synced(w) && Reaches(w, events, w')
    ensures Synced(w')
    decreases |events|
  {
    if events != [] {
      StepKeeps(w, events[0]);
      RunKeeps(Step(w, events[0]), events[1..], w');
    }
  }

  // ---- Main results ----

  /** Agreement.  From two sessions initialised with the same secret and each other's
      distinct identity keys, after any run, every allowed delivery decrypts to exactly
      the plaintext that was encrypted. */
  lemma Agreement(bootstrap: Key, identityA: PublicKey, identityB: PublicKey, events: seq<Event>, w: World,
                  to: Side, place: Place, ephemeral: PublicKey)
    requires identityA != identityB
    requires Reaches(Start(bootstrap, identityA, identityB), events, w)
    requires Allowed(w, Deliver(to, place, ephemeral))
    ensures Outcome(w, to, place, ephemeral) == Ok(At(w.Of(to.Other()).log, place).plaintext)
  {
    StartSynced(bootstrap, identityA, identityB);
    RunKeeps(Start(bootstrap, identityA, identityB), events, w);
    DeliverKeeps(w, to, place, ephemeral);
  }

  /** Equal, or one step apart by the Diffie-Hellman value of the present keys. */
  predicate RootsClose(x: Session, y: Session) {
    var dh := Agree(x.dhSelf, y.dhSelf);
    x.rootKey == y.rootKey || x.rootKey == Root(y.rootKey, dh) || y.rootKey == Root(x.rootKey, dh)
  }

  /** After any run the two root keys are equal or one KDF step apart. */
  lemma RootsStayClose(bootstrap: Key, identityA: PublicKey, identityB: PublicKey, events: seq<Event>, w: World)
    requires identityA != identityB
    requires Reaches(Start(bootstrap, identityA, identityB), events, w)
    ensures RootsClose(w.a.session, w.b.session)
  {
    StartSynced(bootstrap, identityA, identityB);
    RunKeeps(Start(bootstrap, identityA, identityB), events, w);
    AgreeCommutes(w.a.session.dhSelf, w.b.session.dhSelf);
  }

  /** The receiver has moved past message `n` of batch `i` without being given it. */
  ghost predicate PassedOver(s: Peer, r: Peer, i: nat, n: int) {
    exists j: nat ::
      && j < |s.log| && s.log[j].dh == r.session.dhRemote
      && Outstanding(s.log, j, r.session.nr, r.received, i, n)
  }

  /** The map holds exactly the messages passed over, each with keys that open it. */
  ghost predicate IndexExact(s: Peer, r: Peer) {
    && (forall i: nat, n: nat :: PassedOver(s, r, i, n) ==>
          && IsPlace(s.log, Place(i, n))
          && var id, sent := SkipId(s.log[i].dh, n), At(s.log, Place(i, n));
          && id in r.session.skippedKeys
          && Open(r.session.skippedKeys[id], Some(sent.message.header), sent.message.ciphertext)
              == Some(sent.plaintext))
    && (forall id <- r.session.skippedKeys :: exists i: nat :: PassedOver(s, r, i, id.n) && s.log[i].dh == id.dh)
  }

  lemma PassedOverOutstanding(s: Peer, r: Peer, used: set<PublicKey>, j: nat, i: nat, n: int)
    requires Writes(s, used) && j < |s.log| && s.log[j].dh == r.session.dhRemote
    ensures PassedOver(s, r, i, n) <==> Outstanding(s.log, j, r.session.nr, r.received, i, n)
  {
  }

  lemma ReadsIndexExact(s: Peer, r: Peer, used: set<PublicKey>, j: nat)
    requires Writes(s, used) && Reads(s.log, j, r.session, r.received)
    ensures IndexExact(s, r)
  {
    forall i: nat, n: nat | PassedOver(s, r, i, n)
      ensures IsPlace(s.log, Place(i, n))
      ensures var id, sent := SkipId(s.log[i].dh, n), At(s.log, Place(i, n));
        && id in r.session.skippedKeys
        && Open(r.session.skippedKeys[id], Some(sent.message.header), sent.message.ciphertext) == Some(sent.plaintext)
    {
      PassedOverOutstanding(s, r, used, j, i, n);
      assert WellSent(s.log, i, n);
    }
    forall id | id in r.session.skippedKeys
      ensures exists i: nat :: PassedOver(s, r, i, id.n) && s.log[i].dh == id.dh
    {
      var i: nat :| Outstanding(s.log, j, r.session.nr, r.received, i, id.n) && s.log[i].dh == id.dh;
      PassedOverOutstanding(s, r, used, j, i, id.n);
    }
  }

  /** After any run a receiver's skipped-key map holds exactly the messages passed over
      and not yet consumed, each with the key pair its sender used. */
  lemma SkippedKeysExact(bootstrap: Key, identityA: PublicKey, identityB: PublicKey, events: seq<Event>, w: World,
                         side: Side)
    requires identityA != identityB
    requires Reaches(Start(bootstrap, identityA, identityB), events, w)
    ensures IndexExact(w.Of(side.Other()), w.Of(side))
  {
    StartSynced(bootstrap, identityA, identityB);
    RunKeeps(Start(bootstrap, identityA, identityB), events, w);
    var r, s := w.Of(side), w.Of(side.Other());
    FreshCommutes(w.a, w.b);
    var j := if Fresh(s, r) then 0 else if Leads(s, r) then |s.log| - 2 else |s.log| - 1;
    ReadsIndexExact(s, r, w.used, j);
  }
}
