/** What the skip limit of the ratchet (client/lib/core/crypto/double_ratchet.dart) means for
    a conversation, in terms of what was sent and what has arrived. */
module SkipLimit {
  import opened SymbolicCrypto
  import opened Ratchet
  import opened RatchetAgreement
  import opened RatchetDivergence
  import opened RatchetExactness

  /** The newest batch anything was received of; a reader starts in the first one. */
  ghost function Newest(received: set<Place>): (j: nat)
    ensures forall q <- received :: q.batch <= j
    ensures j == 0 || exists q <- received :: q.batch == j
  {
    if received == {} then 0
    else
      var q :| q in received;
      var j := Newest(received - {q});
      assert forall p <- received :: p == q || p in received - {q};
      if q.batch > j then q.batch else j
  }

  /** One more than the largest number received of a batch, zero when nothing was. */
  ghost function Furthest(received: set<Place>, batch: nat): (f: nat)
    ensures forall q <- received :: q.batch == batch ==> q.n < f
    ensures f == 0 || Place(batch, f - 1) in received
  {
    if received == {} then 0
    else
      var q :| q in received;
      var f := Furthest(received - {q}, batch);
      assert forall p <- received :: p == q || p in received - {q};
      if q.batch == batch && q.n >= f then q.n + 1 else f
  }

  // ---- The receiving counter is one past the furthest message received ----

  /** The last message the receiving chain went past was received. */
  ghost predicate AtFront(s: Peer, r: Peer) {
    r.session.nr > 0 ==>
      exists q <- r.received :: IsBatchOf(s.log, q.batch, r.session.dhRemote) && q.n == r.session.nr - 1
  }

  predicate IsBatchOf(log: Log, j: nat, key: PublicKey) {
    j < |log| && log[j].dh == key
  }

  /** The batch a reader stands in. */
  lemma ReadsNewest(s: Peer, r: Peer)
    requires Fresh(s, r) || Leads(s, r) || Leads(r, s)
    ensures Reads(s.log, Newest(r.received), r.session, r.received)
    ensures Newest(r.received) + 2 >= |s.log|
    ensures Newest(r.received) + 1 < |s.log| ==> Leads(s, r)
  {
    var j: nat := if Leads(s, r) then |s.log| - 2 else |s.log| - 1;
    assert Reads(s.log, j, r.session, r.received) && Arrived(r.received, j);
  }

  lemma FrontIsFurthest(s: Peer, r: Peer, used: set<PublicKey>)
    requires Writes(s, used) && AtFront(s, r) && (Fresh(s, r) || Leads(s, r) || Leads(r, s))
    ensures r.session.nr == Furthest(r.received, Newest(r.received))
  {
    ReadsNewest(s, r);
    var now := Newest(r.received);
    if r.session.nr > 0 {
      var q :| q in r.received && IsBatchOf(s.log, q.batch, r.session.dhRemote) && q.n == r.session.nr - 1;
      assert q.batch == now;
    }
  }

  /** The counter after one message. */
  lemma CounterAfter(t: Session, m: Message, ephemeral: PublicKey)
    requires m.header.n >= 0 && (m.header.dh == t.dhRemote ==> SkipId(m.header.dh, m.header.n) in t.skippedKeys
                                                                || m.header.n >= t.nr)
    ensures var t', h := Decrypted(t, m, ephemeral).0, m.header;
      || t'.nr == 0 || (t'.nr == t.nr && t'.dhRemote == t.dhRemote) || (t'.nr == h.n + 1 && t'.dhRemote == h.dh)
  {
    var h := m.header;
    var turned := Turned(t, h, ephemeral);
    if turned.Ok? {
      var u := turned.value;
      if h.n >= u.nr { SkipMovesChain(u, h.n); }
    }
  }

  lemma DeliverAtFront(w: World, to: Side, place: Place, ephemeral: PublicKey)
    requires Settled(w) && Allowed(w, Deliver(to, place, ephemeral)) && AtFront(w.Of(to.Other()), w.Of(to))
    ensures AtFront(w.Of(to.Other()), Receives(w.Of(to), At(w.Of(to.Other()).log, place).message, place, ephemeral))
  {
    SettledPair(w, to);
    var s, r := w.Of(to.Other()), w.Of(to);
    var m := At(s.log, place).message;
    assert WellSent(s.log, place.batch, place.n);
    if m.header.dh == r.session.dhRemote {
      ReadsOwnBatch(s, r, w.used, place);
      assert place.n < r.session.nr ==> Outstanding(s.log, place.batch, r.session.nr, r.received, place.batch, place.n);
    }
    CounterAfter(r.session, m, ephemeral);
    var r' := Receives(r, m, place, ephemeral);
    assert place in r'.received && IsBatchOf(s.log, place.batch, m.header.dh);
    if r'.session.nr == r.session.nr > 0 && r'.session.dhRemote == r.session.dhRemote {
      var q :| q in r.received && IsBatchOf(s.log, q.batch, r.session.dhRemote) && q.n == r.session.nr - 1;
      assert q in r'.received;
    }
  }

  /** The reader is not concerned by what its peer logs or receives. */
  lemma FrontGrows(s: Peer, s': Peer, r: Peer)
    requires AtFront(s, r) && |s.log| <= |s'.log| && forall i :: 0 <= i < |s.log| ==> s'.log[i].dh == s.log[i].dh
    ensures AtFront(s', r)
  {
    if r.session.nr > 0 {
      var q :| q in r.received && IsBatchOf(s.log, q.batch, r.session.dhRemote) && q.n == r.session.nr - 1;
      assert IsBatchOf(s'.log, q.batch, r.session.dhRemote);
    }
  }

  ghost predicate BothAtFront(w: World) {
    AtFront(w.a, w.b) && AtFront(w.b, w.a)
  }

  /** A delivery seen from the other side. */
  lemma HearingFrontGrows(s: Peer, r: Peer, m: Message, place: Place, ephemeral: PublicKey)
    requires AtFront(r, s)
    ensures AtFront(Receives(r, m, place, ephemeral), s)
  {
    FrontGrows(r, Receives(r, m, place, ephemeral), s);
  }

  lemma SendingFrontGrows(s: Peer, r: Peer, plaintext: Blob)
    requires AtFront(s, r) && s.log != []
    ensures AtFront(Sends(s, plaintext), r) && (AtFront(r, s) ==> AtFront(r, Sends(s, plaintext)))
  {
    FrontGrows(s, Sends(s, plaintext), r);
  }

  lemma StepAtFront(w: World, e: Event)
    requires Settled(w) && BothAtFront(w) && Allowed(w, e)
    ensures BothAtFront(Step(w, e))
  {
    match e
    case Send(side, plaintext) =>
      SendingFrontGrows(w.Of(side), w.Of(side.Other()), plaintext);
    case Deliver(to, place, ephemeral) =>
      DeliverAtFront(w, to, place, ephemeral);
      HearingFrontGrows(w.Of(to.Other()), w.Of(to), At(w.Of(to.Other()).log, place).message, place, ephemeral);
  }

  lemma {:induction false} RunAtFront(w: World, events: seq<Event>, w': World)
    requires Settled(w) && BothAtFront(w) && Reaches(w, events, w')
    ensures BothAtFront(w')
    decreases |events|
  {
    if events != [] {
      StepAtFront(w, events[0]);
      RunSettled(w, events[..1], Step(w, events[0]));
      RunAtFront(Step(w, events[0]), events[1..], w');
    }
  }

  lemma ReachesAtFront(bootstrap: Key, identityA: PublicKey, identityB: PublicKey, events: seq<Event>, w: World,
                       to: Side)
    requires identityA != identityB
    requires Reaches(Start(bootstrap, identityA, identityB), events, w)
    ensures Settled(w) && AtFront(w.Of(to.Other()), w.Of(to))
  {
    var start := Start(bootstrap, identityA, identityB);
    ReachesSettled(bootstrap, identityA, identityB, [], start);
    RunAtFront(start, events, w);
    ReachesSettled(bootstrap, identityA, identityB, events, w);
  }

  // ---- The limit ----

  /** Nothing that has to be passed over on the way to the message counts more than 1000:
      counted from the furthest message received, up to the message within the batch being
      read, and otherwise up to the end of the batch before the message's own. */
  ghost predicate WithinLimit(log: Log, received: set<Place>, place: Place)
    requires place.batch < |log| && Newest(received) < |log|
  {
    var now := Newest(received);
    var furthest := Furthest(received, now);
    if place.batch == now then place.n - furthest <= 1000
    else if place.batch > now then |log[now].sent| - furthest <= 1000 && place.n <= 1000
    else PreviousLength(log, place.batch) - furthest <= 1000
  }

  /** The skip limit, for every message the peer ever sent and after every run: a message
      decrypts if and only if it was not received before and no more than 1000 messages of a
      batch are missing in front of it.  A message that fails is refused for that reason
      unless it was received before. */
  lemma SkipLimitExactly(bootstrap: Key, identityA: PublicKey, identityB: PublicKey, events: seq<Event>, w: World,
                         to: Side, place: Place, ephemeral: PublicKey)
    requires identityA != identityB
    requires Reaches(Start(bootstrap, identityA, identityB), events, w)
    requires IsPlace(w.Of(to.Other()).log, place)
    ensures var log, received := w.Of(to.Other()).log, w.Of(to).received;
      && Newest(received) < |log| <= Newest(received) + 2
      && (Outcome(w, to, place, ephemeral).Ok? <==> place !in received && WithinLimit(log, received, place))
  {
    ReachesAtFront(bootstrap, identityA, identityB, events, w, to);
    SettledPair(w, to);
    LimitIsRefusal(w.Of(to.Other()), w.Of(to), w.used, place);
    DeliveryExactly(bootstrap, identityA, identityB, events, w, to, place, ephemeral);
  }

  /** The session refuses what is beyond the limit. */
  lemma LimitIsRefusal(s: Peer, r: Peer, used: set<PublicKey>, place: Place)
    requires Writes(s, used) && AtFront(s, r) && (Fresh(s, r) || Leads(s, r) || Leads(r, s)) && IsPlace(s.log, place)
    ensures Newest(r.received) < |s.log| <= Newest(r.received) + 2
    ensures var h := At(s.log, place).message.header;
      WithinLimit(s.log, r.received, place)
      <==> if NotStale(r, place) then GapsAllowed(r.session, h) else !TooFar(r.session, h.pn)
  {
    ReadsNewest(s, r);
    FrontIsFurthest(s, r, used);
    HeaderAt(s, used, Newest(r.received), place);
    LimitCases(s.log, r, place, At(s.log, place).message.header);
  }

  lemma HeaderAt(s: Peer, used: set<PublicKey>, now: nat, place: Place)
    requires Writes(s, used) && IsPlace(s.log, place) && now < |s.log|
    ensures At(s.log, place).message.header
         == Header(s.log[place.batch].dh, PreviousLength(s.log, place.batch), place.n)
    ensures s.log[place.batch].dh == s.log[now].dh <==> place.batch == now
  {
    assert WellSent(s.log, place.batch, place.n);
  }

  lemma LimitCases(log: Log, r: Peer, place: Place, h: Header)
    requires Newest(r.received) < |log| <= Newest(r.received) + 2 && place.batch < |log|
    requires r.session.nr == Furthest(r.received, Newest(r.received))
    requires h == Header(log[place.batch].dh, PreviousLength(log, place.batch), place.n)
    requires h.dh == r.session.dhRemote <==> place.batch == Newest(r.received)
    ensures WithinLimit(log, r.received, place)
       <==> if NotStale(r, place) then GapsAllowed(r.session, h) else !TooFar(r.session, h.pn)
  {
    assert NotStale(r, place) <==> Newest(r.received) <= place.batch;
  }

  /** The rest of a batch is stored, every message that is missing and no other, if 1000 are
      missing at most behind the furthest one received; otherwise the session stays put. */
  ghost predicate RestKept(log: Log, received: set<Place>, now: nat, t: Session, t': Session)
    requires now < |log|
  {
    if |log[now].sent| - Furthest(received, now) <= 1000 then
      forall n: nat :: n < |log[now].sent| ==>
        (SkipId(log[now].dh, n) in t'.skippedKeys <==> Place(now, n) !in received)
    else t' == t
  }

  /** What the first message of a new batch does to the one before, after every run. */
  lemma RestIsStoredExactly(bootstrap: Key, identityA: PublicKey, identityB: PublicKey, events: seq<Event>, w: World,
                            to: Side, place: Place, ephemeral: PublicKey)
    requires identityA != identityB
    requires Reaches(Start(bootstrap, identityA, identityB), events, w)
    requires IsPlace(w.Of(to.Other()).log, place) && Newest(w.Of(to).received) < place.batch
    ensures var log, r := w.Of(to.Other()).log, w.Of(to);
      RestKept(log, r.received, Newest(r.received), r.session, Hears(r, At(log, place).message, ephemeral).session)
  {
    ReachesAtFront(bootstrap, identityA, identityB, events, w, to);
    SettledPair(w, to);
    PairRestIsKept(w.Of(to.Other()), w.Of(to), w.used, place, ephemeral);
  }

  lemma PairRestIsKept(s: Peer, r: Peer, used: set<PublicKey>, place: Place, ephemeral: PublicKey)
    requires Writes(s, used) && AtFront(s, r) && (Fresh(s, r) || Leads(s, r) || Leads(r, s))
    requires IsPlace(s.log, place) && Newest(r.received) < place.batch
    ensures RestKept(s.log, r.received, Newest(r.received), r.session,
                     Decrypted(r.session, At(s.log, place).message, ephemeral).0)
  {
    NextBatchAhead(s, r, used, place);
    RestIsKept(s, used, Newest(r.received), r.session, r.received, At(s.log, place).message, ephemeral);
  }

  lemma NextBatchAhead(s: Peer, r: Peer, used: set<PublicKey>, place: Place)
    requires Writes(s, used) && AtFront(s, r) && (Fresh(s, r) || Leads(s, r) || Leads(r, s))
    requires IsPlace(s.log, place) && Newest(r.received) < place.batch
    ensures var now, h := Newest(r.received), At(s.log, place).message.header;
      && Reads(s.log, now, r.session, r.received) && r.session.nr == Furthest(r.received, now)
      && h.dh != r.session.dhRemote && h.pn == |s.log[now].sent|
  {
    ReadsNewest(s, r);
    FrontIsFurthest(s, r, used);
    NextBatchHeader(s, used, Newest(r.received), r.session, r.received, place);
  }

  lemma NextBatchHeader(s: Peer, used: set<PublicKey>, now: nat, t: Session, received: set<Place>, place: Place)
    requires Writes(s, used) && StandsIn(s.log, now, t, received)
    requires IsPlace(s.log, place) && now < place.batch && |s.log| <= now + 2
    ensures var h := At(s.log, place).message.header; h.dh != t.dhRemote && h.pn == |s.log[now].sent|
  {
    HeaderAt(s, used, now, place);
    assert place.batch == now + 1;
  }

  lemma RestIsKept(s: Peer, used: set<PublicKey>, now: nat, t: Session, received: set<Place>, m: Message,
                   ephemeral: PublicKey)
    requires Writes(s, used) && Reads(s.log, now, t, received) && t.nr == Furthest(received, now)
    requires m.header.dh != t.dhRemote && m.header.pn == |s.log[now].sent|
    ensures RestKept(s.log, received, now, t, Decrypted(t, m, ephemeral).0)
  {
    if !TooFar(t, m.header.pn) {
      RestIsStored(s, used, now, t, received, m, ephemeral);
    }
  }

  lemma RestIsStored(s: Peer, used: set<PublicKey>, now: nat, t: Session, received: set<Place>, m: Message,
                     ephemeral: PublicKey)
    requires Writes(s, used) && Reads(s.log, now, t, received)
    requires m.header.dh != t.dhRemote && m.header.pn == |s.log[now].sent| && !TooFar(t, m.header.pn)
    ensures forall n: nat :: n < |s.log[now].sent| ==>
      (SkipId(t.dhRemote, n) in Decrypted(t, m, ephemeral).0.skippedKeys <==> Place(now, n) !in received)
  {
    forall n: nat | n < |s.log[now].sent|
      ensures SkipId(t.dhRemote, n) in Decrypted(t, m, ephemeral).0.skippedKeys <==> Place(now, n) !in received
    {
      ReaderKeys(s, used, now, t, received, n);
      TurnLeavesKeys(t, m, ephemeral, |s.log[now].sent|, SkipId(t.dhRemote, n));
    }
  }

  /** Consuming a key of the new batch leaves those of older ones as the turn stored them. */
  lemma TurnLeavesKeys(t: Session, m: Message, ephemeral: PublicKey, until: nat, id: SkipId)
    requires m.header.dh != t.dhRemote && m.header.pn == until && t.nr <= until && !TooFar(t, until)
    requires id.dh == t.dhRemote
    ensures id in Decrypted(t, m, ephemeral).0.skippedKeys <==> id in t.skippedKeys || t.nr <= id.n < until
  {
    var u := RatchetStep(SkipTo(t, until), m.header.dh, ephemeral);
    SkipStores(t, until, id);
    if m.header.n >= 0 { SkipStores(u, m.header.n, id); }
  }
}
