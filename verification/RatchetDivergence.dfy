/** What happens to two sessions after a delivery that the agreement theorem forbids.  From
    then on a run is wild: either side may be handed any message, any number of times. */
module RatchetDivergence {
  import opened Wrappers
  import opened SymbolicCrypto
  import opened Ratchet
  import opened RatchetAgreement

  // ---- The key tree ----

  function Height(k: Key): nat {
    match k
    case Root(p, _) => 1 + Height(p)
    case Chain(p, _) => 1 + Height(p)
    case ChainB(p, _) => 1 + Height(p)
    case Next(c) => Height(c)
    case _ => 0
  }

  /** `k` was reached from `ancestor` by root steps. */
  predicate Descends(k: Key, ancestor: Key) {
    k == ancestor || (k.Root? && Descends(k.parent, ancestor))
  }

  /** A chain that starts somewhere below `branch`. */
  predicate Under(chain: Key, branch: Key) {
    chain.Chain? && Descends(chain.parent, branch)
  }

  lemma {:induction false} DescendsHeight(k: Key, ancestor: Key)
    requires Descends(k, ancestor)
    ensures Height(k) >= Height(ancestor)
  {
    if k != ancestor { DescendsHeight(k.parent, ancestor); }
  }

  /** Branches of equal height are disjoint. */
  lemma {:induction false} BranchesDisjoint(k: Key, x: Key, y: Key)
    requires Descends(k, x) && Descends(k, y) && Height(x) == Height(y)
    ensures x == y
  {
    if k != x && k != y {
      BranchesDisjoint(k.parent, x, y);
    } else if k == x && k != y {
      DescendsHeight(k.parent, y);
    } else if k == y && k != x {
      DescendsHeight(k.parent, x);
    }
  }

  // ---- What a session can open ----

  function OriginOfKeys(keys: MessageKeys): Key {
    if keys.a.MessageA? then Origin(keys.a.chain) else keys.a
  }

  /** The chains a session holds receiving keys of. */
  function Holdings(s: Session): set<Key> {
    {Origin(s.receivingChainKey)} + set id <- s.skippedKeys :: OriginOfKeys(s.skippedKeys[id])
  }

  /** The chain a session derives on turning to a new sender key. */
  function TurnedChain(s: Session, remote: PublicKey): Key {
    Chain(s.rootKey, Agree(s.dhSelf, remote))
  }

  /** The header makes the session turn to another sender key. */
  predicate Turns(s: Session, h: Header) {
    h.dh != s.dhRemote && !TooFar(s, h.pn)
  }

  /** The header makes the session move away from its identity key. */
  predicate Rotates(s: Session, h: Header) {
    s.dhSelfIsIdentity && h.dh == s.dhRemote
  }

  lemma {:induction false} SkipHoldings(s: Session, until: int)
    ensures Holdings(SkipTo(s, until)) <= Holdings(s)
    decreases until - s.nr
  {
    if s.nr < until {
      SkipHoldings(SkipOne(s), until);
      assert Holdings(SkipOne(s)) <= Holdings(s);
    }
  }

  /** A message opens only under keys of a chain the session holds. */
  lemma ConsumeHoldings(s: Session, h: Header, ciphertext: Blob)
    ensures Holdings(Consumed(s, h, ciphertext).0) <= Holdings(s)
    ensures forall k: Key, p: Blob :: ciphertext == Seal(KeysOf(k), Some(h), p) && Origin(k) !in Holdings(s) ==>
              Consumed(s, h, ciphertext).1.Err?
  {
    var id := SkipId(h.dh, h.n);
    if id in s.skippedKeys {
      assert OriginOfKeys(s.skippedKeys[id]) in Holdings(s);
    } else {
      SkipHoldings(s, h.n);
    }
  }

  /** The same for decryption: at most the chain of the announced sender key is added. */
  lemma DecryptHoldings(s: Session, m: Message, ephemeral: PublicKey)
    ensures var t := Decrypted(s, m, ephemeral).0;
      Holdings(t) <= Holdings(s) + if Turns(s, m.header) then {TurnedChain(s, m.header.dh)} else {}
    ensures forall k: Key, p: Blob ::
      && m.ciphertext == Seal(KeysOf(k), Some(m.header), p)
      && Origin(k) !in Holdings(s) && Origin(k) != TurnedChain(s, m.header.dh) ==>
        Decrypted(s, m, ephemeral).1.Err?
  {
    var t := Turned(s, m.header, ephemeral);
    if t.Ok? {
      if s.dhRemote != m.header.dh {
        SkipHoldings(s, m.header.pn);
        if s.nr < m.header.pn { SkipMovesChain(s, m.header.pn); }
        assert Holdings(t.value) <= Holdings(s) + {TurnedChain(s, m.header.dh)};
      }
      ConsumeHoldings(t.value, m.header, m.ciphertext);
    }
  }

  // ---- Wild runs ----

  /** From the forbidden delivery on, either side may be handed any message at all. */
  datatype Wild =
    | Says(side: Side, plaintext: Blob)
    | HearsOf(to: Side, message: Message, ephemeral: PublicKey)

  predicate Possible(w: World, e: Wild) {
    match e
    case Says(side, _) => w.Of(side).log != []
    case HearsOf(_, message, ephemeral) => ephemeral !in w.used + {message.header.dh}
  }

  function WildStep(w: World, e: Wild): World
    requires Possible(w, e)
  {
    match e
    case Says(side, plaintext) =>
      var p := Sends(w.Of(side), plaintext);
      w.With(side, p, p.session.dhSelf)
    case HearsOf(to, message, ephemeral) =>
      w.With(to, Hears(w.Of(to), message, ephemeral), ephemeral).(used := w.used + {ephemeral, message.header.dh})
  }

  ghost predicate WildReaches(w: World, events: seq<Wild>, w': World)
    decreases |events|
  {
    if events == [] then w' == w
    else Possible(w, events[0]) && WildReaches(WildStep(w, events[0]), events[1..], w')
  }

  /** The sending half after any delivery whatsoever: unchanged, rotated or turned. */
  lemma ReceiveSendingHalf(s: Session, m: Message, ephemeral: PublicKey)
    ensures var t := Decrypted(s, m, ephemeral).0; var h := m.header;
      var heard := (u: Session) => u.(receivingChainKey := t.receivingChainKey, nr := t.nr,
          skippedKeys := t.skippedKeys);
      || (!Turns(s, h) && !Rotates(s, h) && t == heard(s))
      || (Rotates(s, h) && t == heard(Rotated(s, ephemeral)))
      || (Turns(s, h) && t == heard(RatchetStep(s, h.dh, ephemeral)))
  {
    var t := Turned(s, m.header, ephemeral);
    if s.nr < m.header.pn { SkipMovesChain(s, m.header.pn); }
    if t.Ok? { ConsumeKeepsSending(t.value, m.header, m.ciphertext); }
  }

  lemma HearWrites(p: Peer, m: Message, ephemeral: PublicKey, used: set<PublicKey>)
    requires Writes(p, used) && ephemeral !in used
    ensures Writes(Hears(p, m, ephemeral), used + {ephemeral})
    ensures Writes(Hears(p, m, ephemeral), used + {ephemeral, m.header.dh})
  {
    ReceiveSendingHalf(p.session, m, ephemeral);
    var q := Hears(p, m, ephemeral);
    if q.session.dhSelf == ephemeral {
      TurnWrites(p, used, q.session, ephemeral, q.received);
    } else {
      WritesFrame(p, q, used, used + {ephemeral});
    }
    WritesFrame(q, q, used + {ephemeral}, used + {ephemeral, m.header.dh});
  }

  // ---- Divergence ----

  /** The reader neither holds nor can ever derive the chain of a batch from `cut` on. */
  ghost predicate Unreadable(log: Log, cut: nat, reader: Session, branch: Key) {
    forall i :: cut <= i < |log| ==>
      log[i].chain.Chain? && !Under(log[i].chain, branch) && log[i].chain !in Holdings(reader)
  }

  /** The two root keys stand in different branches of the key tree. */
  ghost predicate Diverged(x: Peer, y: Peer, branchX: Key, branchY: Key, cutX: nat, cutY: nat) {
    && branchX != branchY && Height(branchX) == Height(branchY)
    && Descends(x.session.rootKey, branchX) && Descends(y.session.rootKey, branchY)
    && (forall o <- Holdings(x.session) :: !Under(o, branchY))
    && (forall o <- Holdings(y.session) :: !Under(o, branchX))
    && Unreadable(x.log, cutX, y.session, branchY)
    && Unreadable(y.log, cutY, x.session, branchX)
  }

  lemma DivergedHear(x: Peer, y: Peer, p: Key, q: Key, cx: nat, cy: nat, m: Message, ephemeral: PublicKey)
    requires Diverged(x, y, p, q, cx, cy)
    ensures Diverged(Hears(x, m, ephemeral), y, p, q, cx, cy)
  {
    var x' := Hears(x, m, ephemeral);
    var s, t := x.session, x'.session;
    ReceiveSendingHalf(s, m, ephemeral);
    DecryptHoldings(s, m, ephemeral);
    OnlyOneBranch(p, q);
    assert !Under(TurnedChain(s, m.header.dh), q) && Under(TurnedChain(s, m.header.dh), p);
    assert (t.sendingChainKey == s.sendingChainKey && t.dhSelf == s.dhSelf) || Under(t.sendingChainKey, p);
  }

  lemma DivergedSend(x: Peer, y: Peer, p: Key, q: Key, cx: nat, cy: nat, plaintext: Blob)
    requires Diverged(x, y, p, q, cx, cy) && x.log != []
    ensures Diverged(Sends(x, plaintext), y, p, q, cx, cy)
  {
  }

  lemma DivergedCommutes(x: Peer, y: Peer, p: Key, q: Key, cx: nat, cy: nat)
    ensures Diverged(x, y, p, q, cx, cy) <==> Diverged(y, x, q, p, cy, cx)
  {
  }

  /** A message of a batch from `cutX` on does not open at the other side. */
  lemma DivergedDelivery(x: Peer, y: Peer, p: Key, q: Key, cx: nat, cy: nat, used: set<PublicKey>, place: Place,
                         ephemeral: PublicKey)
    requires Diverged(x, y, p, q, cx, cy) && Writes(x, used)
    requires IsPlace(x.log, place) && cx <= place.batch
    ensures Decrypted(y.session, At(x.log, place).message, ephemeral).1.Err?
  {
    assert WellSent(x.log, place.batch, place.n);
    AdvanceLaws(x.log[place.batch].chain, place.n);
    DecryptHoldings(y.session, At(x.log, place).message, ephemeral);
  }

  lemma OnlyOneBranch(p: Key, q: Key)
    requires p != q && Height(p) == Height(q)
    ensures forall k: Key :: Descends(k, p) ==> !Descends(k, q)
  {
    forall k: Key | Descends(k, p) && Descends(k, q)
      ensures false
    {
      BranchesDisjoint(k, p, q);
    }
  }

  // ---- How high the chains of a synchronised pair stand ----

  ghost predicate Below(log: Log, count: nat, top: nat)
    requires count <= |log|
  {
    forall i :: 0 <= i < count ==> (log[i].chain.Chain? || log[i].chain.ChainB?) && Height(log[i].chain) <= top
  }

  ghost predicate Climbs(x: Peer, y: Peer) {
    && x.log != [] && y.log != []
    && Below(x.log, |x.log|, Height(x.session.rootKey))
    && Below(y.log, |y.log|, Height(y.session.rootKey))
    && Below(x.log, |x.log| - 1, Height(y.session.rootKey))
    && Below(y.log, |y.log| - 1, Height(x.session.rootKey))
  }

  /** The two sides never send under the same key. */
  predicate KeysApart(x: Log, y: Log) {
    forall i, j :: 0 <= i < |x| && 0 <= j < |y| ==> x[i].dh != y[j].dh
  }

  /** Everything a run of allowed steps keeps. */
  ghost predicate Settled(w: World) {
    Synced(w) && Climbs(w.a, w.b) && KeysApart(w.a.log, w.b.log)
  }

  lemma ReceiveClimbs(s: Peer, r: Peer, place: Place, ephemeral: PublicKey, used: set<PublicKey>)
    requires Climbs(s, r) && IsPlace(s.log, place) && Delivers(s, r, place, ephemeral, used)
    ensures Climbs(s, Receives(r, At(s.log, place).message, place, ephemeral))
  {
    ReceiveSendingHalf(r.session, At(s.log, place).message, ephemeral);
  }

  lemma ReceiveApart(s: Peer, r: Peer, m: Message, place: Place, ephemeral: PublicKey, used: set<PublicKey>)
    requires Writes(s, used) && KeysApart(s.log, r.log) && ephemeral !in used
    ensures KeysApart(s.log, Receives(r, m, place, ephemeral).log)
  {
    ReceiveSendingHalf(r.session, m, ephemeral);
  }

  lemma SendClimbs(p: Peer, q: Peer, plaintext: Blob)
    requires Climbs(p, q)
    ensures Climbs(Sends(p, plaintext), q)
  {
  }

  lemma ClimbsCommutes(x: Peer, y: Peer)
    ensures Climbs(x, y) <==> Climbs(y, x)
  {
  }

  lemma StepClimbs(w: World, e: Event)
    requires Synced(w) && Climbs(w.a, w.b) && Allowed(w, e)
    ensures Climbs(Step(w, e).a, Step(w, e).b)
  {
    ClimbsCommutes(w.a, w.b);
    ClimbsCommutes(Step(w, e).a, Step(w, e).b);
    match e
    case Send(side, plaintext) =>
      SendClimbs(w.Of(side), w.Of(side.Other()), plaintext);
    case Deliver(to, place, ephemeral) =>
      DeliverKeeps(w, to, place, ephemeral);
      ReceiveClimbs(w.Of(to.Other()), w.Of(to), place, ephemeral, w.used);
  }

  lemma StepApart(w: World, e: Event)
    requires Writes(w.a, w.used) && Writes(w.b, w.used) && KeysApart(w.a.log, w.b.log) && Allowed(w, e)
    ensures KeysApart(Step(w, e).a.log, Step(w, e).b.log)
  {
    if e.Deliver? {
      var s, r := w.Of(e.to.Other()), w.Of(e.to);
      ReceiveApart(s, r, At(s.log, e.place).message, e.place, e.ephemeral, w.used);
    }
  }

  lemma {:induction false} RunSettled(w: World, events: seq<Event>, w': World)
    requires Settled(w) && Reaches(w, events, w')
    ensures Settled(w')
    decreases |events|
  {
    if events != [] {
      StepKeeps(w, events[0]);
      StepClimbs(w, events[0]);
      StepApart(w, events[0]);
      RunSettled(Step(w, events[0]), events[1..], w');
    }
  }

  lemma ReachesSettled(bootstrap: Key, identityA: PublicKey, identityB: PublicKey, events: seq<Event>, w: World)
    requires identityA != identityB
    requires Reaches(Start(bootstrap, identityA, identityB), events, w)
    ensures Settled(w)
  {
    StartSynced(bootstrap, identityA, identityB);
    RunSettled(Start(bootstrap, identityA, identityB), events, w);
  }

  /** The same seen from one side. */
  lemma SettledPair(w: World, to: Side)
    requires Settled(w)
    ensures var s, r := w.Of(to.Other()), w.Of(to);
      && Writes(s, w.used) && Writes(r, w.used) && Climbs(s, r) && KeysApart(s.log, r.log)
      && (Fresh(s, r) || Leads(s, r) || Leads(r, s))
  {
    FreshCommutes(w.a, w.b);
    ClimbsCommutes(w.a, w.b);
  }

  /** A reader holds chains of the batches up to its own only. */
  lemma HoldingsBelow(s: Peer, j: nat, t: Session, received: set<Place>, top: nat)
    requires Reads(s.log, j, t, received) && Below(s.log, j + 1, top)
    ensures forall o <- Holdings(t) :: Height(o) <= top
  {
    AdvanceLaws(s.log[j].chain, t.nr);
    forall id | id in t.skippedKeys
      ensures Height(OriginOfKeys(t.skippedKeys[id])) <= top
    {
      var i: nat :| Outstanding(s.log, j, t.nr, received, i, id.n) && s.log[i].dh == id.dh;
      AdvanceLaws(s.log[i].chain, id.n);
    }
  }

  lemma UnderHeight(o: Key, branch: Key)
    requires Under(o, branch)
    ensures Height(o) > Height(branch)
  {
    DescendsHeight(o.parent, branch);
  }

  lemma UnderIsHigh(branch: Key)
    ensures forall o: Key :: Under(o, branch) ==> Height(o) > Height(branch)
  {
    forall o: Key | Under(o, branch)
      ensures Height(o) > Height(branch)
    {
      UnderHeight(o, branch);
    }
  }

  lemma LowNotUnder(chains: set<Key>, branch: Key)
    requires forall o <- chains :: Height(o) <= Height(branch)
    ensures forall o <- chains :: !Under(o, branch)
  {
    UnderIsHigh(branch);
  }

  // ---- The forbidden deliveries ----

  /** What both sides hold while one is a step ahead. */
  lemma LeaderHoldings(leader: Peer, follower: Peer)
    requires Leads(leader, follower) && Climbs(leader, follower)
    ensures var top := Height(follower.session.rootKey);
      && (forall o <- Holdings(leader.session) :: Height(o) <= top)
      && (forall o <- Holdings(follower.session) :: Height(o) <= top)
  {
    var top := Height(follower.session.rootKey);
    HoldingsBelow(leader, |leader.log| - 2, follower.session, follower.received, top);
    HoldingsBelow(follower, |follower.log| - 1, leader.session, leader.received, top);
  }

  lemma FreshHoldings(x: Peer, y: Peer)
    requires Fresh(x, y) && Climbs(x, y)
    ensures var top := Height(x.session.rootKey);
      && (forall o <- Holdings(x.session) :: Height(o) <= top)
      && (forall o <- Holdings(y.session) :: Height(o) <= top)
  {
    HoldingsBelow(x, 0, y.session, y.received, Height(x.session.rootKey));
    HoldingsBelow(y, 0, x.session, x.received, Height(x.session.rootKey));
  }

  /** The sender's current batch is out of the receiver's reach. */
  lemma LeaderBatchUnreadable(s: Peer, r: Session, branch: Key)
    requires s.log != [] && var chain := s.log[|s.log| - 1].chain;
      chain.Chain? && Height(chain) <= Height(branch) && chain !in Holdings(r)
    ensures Unreadable(s.log, |s.log| - 1, r, branch)
  {
    LowNotUnder({s.log[|s.log| - 1].chain}, branch);
  }

  /** Both sides' first messages cross: the second side rotates, too. */
  lemma CrossingDiverges(s: Peer, r: Peer, m: Message, ephemeral: PublicKey, used: set<PublicKey>)
    requires Writes(s, used) && Writes(r, used) && Leads(s, r) && Climbs(s, r)
    requires ephemeral !in used && Rotates(r.session, m.header)
    ensures var r' := Hears(r, m, ephemeral);
      Diverged(s, r', s.session.rootKey, r'.session.rootKey, |s.log| - 1, |r.log|)
  {
    var r' := Hears(r, m, ephemeral);
    ReceiveSendingHalf(r.session, m, ephemeral);
    DecryptHoldings(r.session, m, ephemeral);
    LeaderHoldings(s, r);
    var p, q := s.session.rootKey, r'.session.rootKey;
    assert p != q by {
      assert s.log[|s.log| - 2].dh in used && s.log[|s.log| - 1].dh in used;
    }
    LowNotUnder(Holdings(s.session), q);
    LowNotUnder(Holdings(r'.session), p);
    LeaderBatchUnreadable(s, r'.session, q);
    LeaderBatchUnreadable(r', s.session, p);
  }

  /** The reader turns to another key than the one its peer went ahead with. */
  lemma TurnAwayDiverges(s: Peer, r: Peer, m: Message, ephemeral: PublicKey, ahead: PublicKey)
    requires Turns(r.session, m.header) && s.log != [] && ephemeral != r.session.dhSelf
    requires Agree(ahead, r.session.dhSelf) != Agree(r.session.dhSelf, m.header.dh)
    requires s.session.rootKey == Root(r.session.rootKey, Agree(ahead, r.session.dhSelf))
    requires s.log[|s.log| - 1].chain == Chain(r.session.rootKey, Agree(ahead, r.session.dhSelf))
    requires forall o <- Holdings(s.session) :: Height(o) <= Height(r.session.rootKey)
    requires forall o <- Holdings(r.session) :: Height(o) <= Height(r.session.rootKey)
    requires s.log[|s.log| - 1].chain !in Holdings(r.session)
    ensures Diverged(s, Hears(r, m, ephemeral), s.session.rootKey,
                     Root(r.session.rootKey, Agree(r.session.dhSelf, m.header.dh)), |s.log| - 1, |r.log|)
  {
    var r' := Hears(r, m, ephemeral);
    ReceiveSendingHalf(r.session, m, ephemeral);
    DecryptHoldings(r.session, m, ephemeral);
    var p, q := s.session.rootKey, Root(r.session.rootKey, Agree(r.session.dhSelf, m.header.dh));
    LowNotUnder(Holdings(s.session), q);
    LowNotUnder(Holdings(r'.session), p);
    LeaderBatchUnreadable(s, r'.session, q);
    var chain := Chain(q, Agree(ephemeral, m.header.dh));
    assert r'.log == r.log + [Batch(ephemeral, chain, [])];
    assert !Under(chain, p) by {
      if Under(chain, p) { BranchesDisjoint(q, p, q); }
    }
  }

  /** The follower turns to any key but the leader's present one. */
  lemma FollowerTurnsAway(s: Peer, r: Peer, m: Message, ephemeral: PublicKey, used: set<PublicKey>)
    requires Writes(r, used) && Leads(s, r) && Climbs(s, r) && ephemeral !in used
    requires Turns(r.session, m.header) && m.header.dh != s.session.dhSelf
    ensures Diverged(s, Hears(r, m, ephemeral), s.session.rootKey,
                     Root(r.session.rootKey, Agree(r.session.dhSelf, m.header.dh)), |s.log| - 1, |r.log|)
  {
    LeaderHoldings(s, r);
    KeysUsed(r, used, 0);
    TurnAwayDiverges(s, r, m, ephemeral, s.session.dhSelf);
  }

  // ---- One side has branched off, the other still stands at the trunk ----

  /** `r` went down the branch that `d` opens at the root key `s` stands at; `s` has not
      moved, and holds nothing of any branch. */
  ghost predicate Branched(s: Peer, r: Peer, d: SharedSecret, cutS: nat, cutR: nat) {
    var trunk := s.session.rootKey;
    && |s.log| == cutS
    && Descends(r.session.rootKey, Root(trunk, d))
    && (forall o <- Holdings(s.session) :: Height(o) <= Height(trunk))
    && (forall o <- Holdings(r.session) ::
          Height(o) <= Height(trunk) || o == Chain(trunk, d) || Under(o, Root(trunk, d)))
    && (forall i :: cutR <= i < |r.log| ==> Under(r.log[i].chain, Root(trunk, d)))
  }

  /** What `r` holds of its branch, as seen from any other. */
  lemma BranchedApart(s: Peer, r: Peer, d: SharedSecret, cs: nat, cr: nat, p: Key)
    requires Branched(s, r, d, cs, cr)
    requires p != Root(s.session.rootKey, d) && Height(p) == Height(s.session.rootKey) + 1
    ensures forall o <- Holdings(r.session) :: !Under(o, p)
    ensures forall i :: cr <= i < |r.log| ==> !Under(r.log[i].chain, p)
  {
    OnlyOneBranch(Root(s.session.rootKey, d), p);
    UnderIsHigh(p);
  }

  lemma BranchedTurns(s: Peer, r: Peer, d: SharedSecret, cs: nat, cr: nat, m: Message, ephemeral: PublicKey)
    requires Branched(s, r, d, cs, cr) && Turns(s.session, m.header) && ephemeral != s.session.dhSelf
    requires Agree(s.session.dhSelf, m.header.dh) != d
    ensures Diverged(Hears(s, m, ephemeral), r, Root(s.session.rootKey, Agree(s.session.dhSelf, m.header.dh)),
                     Root(s.session.rootKey, d), cs, cr)
  {
    var trunk, e := s.session.rootKey, Agree(s.session.dhSelf, m.header.dh);
    var p, q, s' := Root(trunk, e), Root(trunk, d), Hears(s, m, ephemeral);
    ReceiveSendingHalf(s.session, m, ephemeral);
    DecryptHoldings(s.session, m, ephemeral);
    BranchedApart(s, r, d, cs, cr, p);
    LowNotUnder(Holdings(s'.session), q);
    UnderIsHigh(q);
    var chain := Chain(p, Agree(ephemeral, m.header.dh));
    assert s'.log == s.log + [Batch(ephemeral, chain, [])];
    assert Under(chain, p) && !Under(chain, q) by { OnlyOneBranch(p, q); }
  }

  lemma BranchedRotates(s: Peer, r: Peer, d: SharedSecret, cs: nat, cr: nat, m: Message, ephemeral: PublicKey)
    requires Branched(s, r, d, cs, cr) && Rotates(s.session, m.header) && ephemeral != s.session.dhSelf
    requires Agree(ephemeral, s.session.dhRemote) != d
    ensures Diverged(Hears(s, m, ephemeral), r, Root(s.session.rootKey, Agree(ephemeral, s.session.dhRemote)),
                     Root(s.session.rootKey, d), cs, cr)
  {
    var trunk, e := s.session.rootKey, Agree(ephemeral, s.session.dhRemote);
    var p, q, s' := Root(trunk, e), Root(trunk, d), Hears(s, m, ephemeral);
    ReceiveSendingHalf(s.session, m, ephemeral);
    DecryptHoldings(s.session, m, ephemeral);
    BranchedApart(s, r, d, cs, cr, p);
    LowNotUnder(Holdings(s'.session) + {Chain(trunk, e)}, q);
    UnderIsHigh(q);
    assert s'.log == s.log + [Batch(ephemeral, Chain(trunk, e), [])];
  }

  lemma BranchedHear(s: Peer, r: Peer, d: SharedSecret, cs: nat, cr: nat, m: Message, ephemeral: PublicKey)
    requires Branched(s, r, d, cs, cr)
    ensures Branched(s, Hears(r, m, ephemeral), d, cs, cr)
  {
    ReceiveSendingHalf(r.session, m, ephemeral);
    DecryptHoldings(r.session, m, ephemeral);
  }

  lemma BranchedSends(s: Peer, r: Peer, d: SharedSecret, cs: nat, cr: nat, plaintext: Blob)
    requires Branched(s, r, d, cs, cr)
    ensures s.log != [] ==> Branched(Sends(s, plaintext), r, d, cs, cr)
    ensures r.log != [] ==> Branched(s, Sends(r, plaintext), d, cs, cr)
  {
  }

  /** Nothing sent from down the branch opens at the trunk. */
  lemma BranchedDelivery(s: Peer, r: Peer, d: SharedSecret, cs: nat, cr: nat, used: set<PublicKey>, place: Place,
                         ephemeral: PublicKey)
    requires Branched(s, r, d, cs, cr) && Writes(r, used) && IsPlace(r.log, place) && cr <= place.batch
    ensures Decrypted(s.session, At(r.log, place).message, ephemeral).1.Err?
  {
    assert WellSent(r.log, place.batch, place.n);
    AdvanceLaws(r.log[place.batch].chain, place.n);
    UnderHeight(r.log[place.batch].chain, Root(s.session.rootKey, d));
    DecryptHoldings(s.session, At(r.log, place).message, ephemeral);
  }

  // ---- The leader turns back ----

  /** The leader turned to a key that is not the follower's next: it will never again agree
      with what the follower derives, but the follower still has a batch of the leader to
      turn to.  `key` is the leader's key of that batch, `other` the key it turned to. */
  ghost predicate Pending(s: Peer, r: Peer, key: PublicKey, other: PublicKey, cutS: nat, cutR: nat) {
    var trunk := s.session.rootKey;
    var root1 := Root(trunk, Agree(s.session.dhSelf, key));
    var branch := Root(root1, Agree(key, other));
    && |s.log| == cutS
    && Descends(r.session.rootKey, branch)
    && (forall o <- Holdings(s.session) :: Height(o) <= Height(trunk))
    && (forall o <- Holdings(r.session) ::
          Height(o) <= Height(trunk) || o == Chain(root1, Agree(key, other)) || Under(o, branch))
    && (forall i :: cutR <= i < |r.log| ==> Under(r.log[i].chain, branch))
  }

  lemma {:induction false} DescendsTransitive(k: Key, x: Key, y: Key)
    requires Descends(k, x) && Descends(x, y)
    ensures Descends(k, y)
  {
    if k != x { DescendsTransitive(k.parent, x, y); }
  }

  lemma PendingBranched(s: Peer, r: Peer, key: PublicKey, other: PublicKey, cs: nat, cr: nat)
    requires Pending(s, r, key, other, cs, cr)
    ensures Branched(s, r, Agree(s.session.dhSelf, key), cs, cr)
  {
    var root1 := Root(s.session.rootKey, Agree(s.session.dhSelf, key));
    var branch := Root(root1, Agree(key, other));
    forall k | Descends(k, branch)
      ensures Descends(k, root1)
    {
      DescendsTransitive(k, branch, root1);
    }
  }

  /** The leader turns to any key at all that its peer is not sending under next. */
  lemma LeaderTurnsPends(s: Peer, r: Peer, m: Message, ephemeral: PublicKey)
    requires Leads(r, s) && Climbs(s, r) && Turns(r.session, m.header) && ephemeral != r.session.dhSelf
    ensures Pending(s, Hears(r, m, ephemeral), r.session.dhSelf, m.header.dh, |s.log|, |r.log|)
  {
    ClimbsCommutes(s, r);
    LeaderHoldings(r, s);
    AgreeCommutes(r.session.dhSelf, s.session.dhSelf);
    ReceiveSendingHalf(r.session, m, ephemeral);
    DecryptHoldings(r.session, m, ephemeral);
  }

  lemma PendingHear(s: Peer, r: Peer, key: PublicKey, other: PublicKey, cs: nat, cr: nat, m: Message,
                    ephemeral: PublicKey)
    requires Pending(s, r, key, other, cs, cr)
    ensures Pending(s, Hears(r, m, ephemeral), key, other, cs, cr)
  {
    ReceiveSendingHalf(r.session, m, ephemeral);
    DecryptHoldings(r.session, m, ephemeral);
  }

  /** The follower turns to the leader's waiting batch: the branches part after it. */
  lemma PendingTurnsToKey(s: Peer, r: Peer, key: PublicKey, other: PublicKey, cs: nat, cr: nat, m: Message,
                          ephemeral: PublicKey)
    requires Pending(s, r, key, other, cs, cr) && Turns(s.session, m.header) && m.header.dh == key
    requires ephemeral != key && ephemeral != other
    ensures var root1 := Root(s.session.rootKey, Agree(s.session.dhSelf, key)); var s' := Hears(s, m, ephemeral);
      Diverged(s', r, s'.session.rootKey, Root(root1, Agree(key, other)), cs, cr)
  {
    var root1 := Root(s.session.rootKey, Agree(s.session.dhSelf, key));
    var s' := Hears(s, m, ephemeral);
    var p, q := s'.session.rootKey, Root(root1, Agree(key, other));
    ReceiveSendingHalf(s.session, m, ephemeral);
    DecryptHoldings(s.session, m, ephemeral);
    LowNotUnder(Holdings(s'.session), q);
    OnlyOneBranch(p, q);
    UnderIsHigh(q);
    LowNotUnder({Chain(root1, Agree(key, other)), Chain(root1, Agree(ephemeral, key))}, q);
    LowNotUnder({Chain(root1, Agree(key, other))}, p);
    LowNotUnder((set o <- Holdings(r.session) | Height(o) <= Height(p)), p);
  }

  /** Whatever the follower hears leaves it where it is or parts the two for good. */
  lemma PendingFollowerHears(s: Peer, r: Peer, key: PublicKey, other: PublicKey, cs: nat, cr: nat, m: Message,
                             ephemeral: PublicKey)
    requires Pending(s, r, key, other, cs, cr) && ephemeral !in {key, other, s.session.dhSelf}
    ensures var s' := Hears(s, m, ephemeral);
      Pending(s', r, key, other, cs, cr) || exists p, q :: Diverged(s', r, p, q, cs, cr)
  {
    PendingBranched(s, r, key, other, cs, cr);
    if Rotates(s.session, m.header) {
      BranchedRotates(s, r, Agree(s.session.dhSelf, key), cs, cr, m, ephemeral);
    } else if !Turns(s.session, m.header) {
      ReceiveSendingHalf(s.session, m, ephemeral);
      DecryptHoldings(s.session, m, ephemeral);
    } else if m.header.dh == key {
      PendingTurnsToKey(s, r, key, other, cs, cr, m, ephemeral);
    } else {
      BranchedTurns(s, r, Agree(s.session.dhSelf, key), cs, cr, m, ephemeral);
    }
  }

  lemma PendingSends(s: Peer, r: Peer, key: PublicKey, other: PublicKey, cs: nat, cr: nat, plaintext: Blob)
    requires Pending(s, r, key, other, cs, cr)
    ensures s.log != [] ==> Pending(Sends(s, plaintext), r, key, other, cs, cr)
    ensures r.log != [] ==> Pending(s, Sends(r, plaintext), key, other, cs, cr)
  {
  }

  // ---- A fresh side turns ----

  /** `r` went down a branch that no key of `s`, present or generated, opens. */
  ghost predicate Astray(s: Peer, r: Peer, key: PublicKey, other: PublicKey, cutS: nat, cutR: nat) {
    Branched(s, r, Agree(key, other), cutS, cutR) && s.session.dhSelf !in {key, other}
  }

  /** Before anything was received, turning to any key but the peer's is turning away. */
  lemma FreshTurnsAstray(s: Peer, r: Peer, m: Message, ephemeral: PublicKey)
    requires Fresh(s, r) && Climbs(s, r) && Turns(r.session, m.header) && ephemeral != r.session.dhSelf
    requires s.session.dhSelf !in {r.session.dhSelf, m.header.dh}
    ensures Astray(s, Hears(r, m, ephemeral), r.session.dhSelf, m.header.dh, |s.log|, |r.log|)
  {
    FreshHoldings(s, r);
    ReceiveSendingHalf(r.session, m, ephemeral);
    DecryptHoldings(r.session, m, ephemeral);
  }

  lemma AstrayFollowerHears(s: Peer, r: Peer, key: PublicKey, other: PublicKey, cs: nat, cr: nat, m: Message,
                            ephemeral: PublicKey)
    requires Astray(s, r, key, other, cs, cr) && ephemeral !in {key, other, s.session.dhSelf}
    ensures var s' := Hears(s, m, ephemeral);
      Astray(s', r, key, other, cs, cr) || exists p, q :: Diverged(s', r, p, q, cs, cr)
  {
    if Rotates(s.session, m.header) {
      BranchedRotates(s, r, Agree(key, other), cs, cr, m, ephemeral);
    } else if Turns(s.session, m.header) {
      BranchedTurns(s, r, Agree(key, other), cs, cr, m, ephemeral);
    } else {
      ReceiveSendingHalf(s.session, m, ephemeral);
      DecryptHoldings(s.session, m, ephemeral);
    }
  }

  // ---- No way back ----

  /** The pair right after a forbidden delivery to `r`, or any time later. */
  ghost predicate Parted(s: Peer, r: Peer, used: set<PublicKey>, cutS: nat, cutR: nat) {
    || (exists key, other :: key in used && other in used && Pending(s, r, key, other, cutS, cutR))
    || (exists key, other :: key in used && other in used && Astray(s, r, key, other, cutS, cutR))
    || (exists p, q :: Diverged(s, r, p, q, cutS, cutR))
  }

  lemma PartedReaderHears(s: Peer, r: Peer, used: set<PublicKey>, cs: nat, cr: nat, m: Message, ephemeral: PublicKey)
    requires Parted(s, r, used, cs, cr)
    ensures Parted(s, Hears(r, m, ephemeral), used + {ephemeral}, cs, cr)
  {
    if p, q :| Diverged(s, r, p, q, cs, cr) {
      DivergedCommutes(s, r, p, q, cs, cr);
      DivergedHear(r, s, q, p, cr, cs, m, ephemeral);
      DivergedCommutes(s, Hears(r, m, ephemeral), p, q, cs, cr);
    } else if key, other :| key in used && other in used && Astray(s, r, key, other, cs, cr) {
      BranchedHear(s, r, Agree(key, other), cs, cr, m, ephemeral);
      assert Astray(s, Hears(r, m, ephemeral), key, other, cs, cr);
    } else {
      var key, other :| key in used && other in used && Pending(s, r, key, other, cs, cr);
      PendingHear(s, r, key, other, cs, cr, m, ephemeral);
    }
  }

  lemma PartedOtherHears(s: Peer, r: Peer, used: set<PublicKey>, cs: nat, cr: nat, m: Message, ephemeral: PublicKey)
    requires Parted(s, r, used, cs, cr) && ephemeral !in used && s.session.dhSelf in used
    ensures Parted(Hears(s, m, ephemeral), r, used + {ephemeral}, cs, cr)
  {
    if p, q :| Diverged(s, r, p, q, cs, cr) {
      DivergedHear(s, r, p, q, cs, cr, m, ephemeral);
    } else if key, other :| key in used && other in used && Astray(s, r, key, other, cs, cr) {
      AstrayFollowerHears(s, r, key, other, cs, cr, m, ephemeral);
    } else {
      var key, other :| key in used && other in used && Pending(s, r, key, other, cs, cr);
      PendingFollowerHears(s, r, key, other, cs, cr, m, ephemeral);
    }
  }

  lemma PartedSends(s: Peer, r: Peer, used: set<PublicKey>, cs: nat, cr: nat, plaintext: Blob)
    requires Parted(s, r, used, cs, cr)
    ensures s.log != [] ==> Parted(Sends(s, plaintext), r, used, cs, cr)
    ensures r.log != [] ==> Parted(s, Sends(r, plaintext), used, cs, cr)
  {
    if p, q :| Diverged(s, r, p, q, cs, cr) {
      DivergedCommutes(s, r, p, q, cs, cr);
      if s.log != [] { DivergedSend(s, r, p, q, cs, cr, plaintext); }
      if r.log != [] {
        DivergedSend(r, s, q, p, cr, cs, plaintext);
        DivergedCommutes(s, Sends(r, plaintext), p, q, cs, cr);
      }
    } else if key, other :| key in used && other in used && Astray(s, r, key, other, cs, cr) {
      BranchedSends(s, r, Agree(key, other), cs, cr, plaintext);
      assert s.log != [] ==> Astray(Sends(s, plaintext), r, key, other, cs, cr);
      assert r.log != [] ==> Astray(s, Sends(r, plaintext), key, other, cs, cr);
    } else {
      var key, other :| key in used && other in used && Pending(s, r, key, other, cs, cr);
      PendingSends(s, r, key, other, cs, cr, plaintext);
    }
  }

  /** Nothing of a batch past its cut is read by the other side. */
  lemma PartedDelivery(s: Peer, r: Peer, used: set<PublicKey>, cs: nat, cr: nat, place: Place, ephemeral: PublicKey)
    requires Parted(s, r, used, cs, cr) && Writes(s, used) && Writes(r, used)
    ensures IsPlace(s.log, place) && cs <= place.batch ==>
        Decrypted(r.session, At(s.log, place).message, ephemeral).1.Err?
    ensures IsPlace(r.log, place) && cr <= place.batch ==>
        Decrypted(s.session, At(r.log, place).message, ephemeral).1.Err?
  {
    if p, q :| Diverged(s, r, p, q, cs, cr) {
      DivergedCommutes(s, r, p, q, cs, cr);
      if IsPlace(s.log, place) && cs <= place.batch { DivergedDelivery(s, r, p, q, cs, cr, used, place, ephemeral); }
      if IsPlace(r.log, place) && cr <= place.batch { DivergedDelivery(r, s, q, p, cr, cs, used, place, ephemeral); }
    } else if key, other :| key in used && other in used && Astray(s, r, key, other, cs, cr) {
      if IsPlace(r.log, place) && cr <= place.batch {
        BranchedDelivery(s, r, Agree(key, other), cs, cr, used, place, ephemeral);
      }
    } else {
      var key, other :| key in used && other in used && Pending(s, r, key, other, cs, cr);
      PendingBranched(s, r, key, other, cs, cr);
      if IsPlace(r.log, place) && cr <= place.batch {
        BranchedDelivery(s, r, Agree(s.session.dhSelf, key), cs, cr, used, place, ephemeral);
      }
    }
  }

  /** Side `r` took a forbidden delivery; `cutS` and `cutR` count the batches of then. */
  ghost predicate Doomed(w: World, r: Side, cutS: nat, cutR: nat) {
    var x, y := w.Of(r.Other()), w.Of(r);
    Writes(x, w.used) && Writes(y, w.used) && Parted(x, y, w.used, cutS, cutR)
  }

  lemma DoomedHears(w: World, to: Side, m: Message, ephemeral: PublicKey, r: Side, cs: nat, cr: nat)
    requires Doomed(w, r, cs, cr) && Possible(w, HearsOf(to, m, ephemeral))
    ensures Doomed(WildStep(w, HearsOf(to, m, ephemeral)), r, cs, cr)
  {
    var x, y, used' := w.Of(r.Other()), w.Of(r), w.used + {ephemeral, m.header.dh};
    HearWrites(w.Of(to), m, ephemeral, w.used);
    WritesFrame(w.Of(to.Other()), w.Of(to.Other()), w.used, used');
    if to == r {
      PartedReaderHears(x, y, w.used, cs, cr, m, ephemeral);
      PartedMonotone(x, Hears(y, m, ephemeral), w.used + {ephemeral}, used', cs, cr);
    } else {
      KeysUsed(x, w.used, 0);
      PartedOtherHears(x, y, w.used, cs, cr, m, ephemeral);
      PartedMonotone(Hears(x, m, ephemeral), y, w.used + {ephemeral}, used', cs, cr);
    }
  }

  lemma DoomedStep(w: World, e: Wild, r: Side, cs: nat, cr: nat)
    requires Doomed(w, r, cs, cr) && Possible(w, e)
    ensures Doomed(WildStep(w, e), r, cs, cr)
  {
    match e
    case Says(side, plaintext) =>
      PartedSends(w.Of(r.Other()), w.Of(r), w.used, cs, cr, plaintext);
      SendWrites(w.Of(side), plaintext, w.used);
      assert w.used + {w.Of(side).session.dhSelf} == w.used;
    case HearsOf(to, m, ephemeral) =>
      DoomedHears(w, to, m, ephemeral, r, cs, cr);
  }

  lemma {:induction false} DoomedRun(w: World, events: seq<Wild>, w': World, r: Side, cs: nat, cr: nat)
    requires Doomed(w, r, cs, cr) && WildReaches(w, events, w')
    ensures Doomed(w', r, cs, cr)
    decreases |events|
  {
    if events != [] {
      DoomedStep(w, events[0], r, cs, cr);
      DoomedRun(WildStep(w, events[0]), events[1..], w', r, cs, cr);
    }
  }

  // ---- Which deliveries are fatal ----

  /** The header makes `r` turn to a key that is not its peer's present one, or move away
      from its identity key though its peer has done so already. */
  predicate Forks(s: Session, r: Session, h: Header) {
    (Turns(r, h) && h.dh != s.dhSelf) || (Rotates(r, h) && r.dhRemote != s.dhSelf)
  }

  lemma KeysUsed(p: Peer, used: set<PublicKey>, i: nat)
    requires Writes(p, used)
    ensures p.session.dhSelf in used && (i < |p.log| ==> p.log[i].dh in used)
  {
  }

  lemma DivergedLater(x: Peer, y: Peer, p: Key, q: Key, cx: nat, cx': nat, cy: nat)
    requires Diverged(x, y, p, q, cx, cy) && cx <= cx'
    ensures Diverged(x, y, p, q, cx', cy)
  {
  }

  lemma PartedMonotone(s: Peer, r: Peer, used: set<PublicKey>, used': set<PublicKey>, cs: nat, cr: nat)
    requires Parted(s, r, used, cs, cr) && used <= used'
    ensures Parted(s, r, used', cs, cr)
  {
  }

  /** What a side knows of its peer's keys, in each phase of the pair. */
  lemma RemoteKey(s: Peer, r: Peer, used: set<PublicKey>)
    requires Writes(s, used) && KeysApart(s.log, r.log) && Writes(r, used)
    requires Fresh(s, r) || Leads(s, r) || Leads(r, s)
    ensures s.session.dhSelf != r.session.dhSelf
    ensures r.session.dhRemote == s.session.dhSelf <==> !Leads(s, r)
    ensures exists j :: 0 <= j < |s.log| && r.session.dhRemote == s.log[j].dh
  {
    assert s.session.dhSelf == s.log[|s.log| - 1].dh && r.session.dhSelf == r.log[|r.log| - 1].dh;
  }

  lemma FollowerForks(s: Peer, r: Peer, m: Message, ephemeral: PublicKey, used: set<PublicKey>)
    requires Writes(s, used) && Writes(r, used) && Leads(s, r) && Climbs(s, r) && ephemeral !in used
    requires Forks(s.session, r.session, m.header)
    ensures Parted(s, Hears(r, m, ephemeral), used + {m.header.dh}, |s.log|, |r.log|)
  {
    var r' := Hears(r, m, ephemeral);
    if Rotates(r.session, m.header) {
      CrossingDiverges(s, r, m, ephemeral, used);
      DivergedLater(s, r', s.session.rootKey, r'.session.rootKey, |s.log| - 1, |s.log|, |r.log|);
    } else {
      FollowerTurnsAway(s, r, m, ephemeral, used);
      var q := Root(r.session.rootKey, Agree(r.session.dhSelf, m.header.dh));
      DivergedLater(s, r', s.session.rootKey, q, |s.log| - 1, |s.log|, |r.log|);
    }
  }

  /** A message whose header forks parts the two, whoever made it and whatever it contains. */
  lemma ForkParts(s: Peer, r: Peer, m: Message, ephemeral: PublicKey, used: set<PublicKey>)
    requires Writes(s, used) && Writes(r, used) && Climbs(s, r) && KeysApart(s.log, r.log) && ephemeral !in used
    requires Fresh(s, r) || Leads(s, r) || Leads(r, s)
    requires Forks(s.session, r.session, m.header)
    ensures Parted(s, Hears(r, m, ephemeral), used + {m.header.dh}, |s.log|, |r.log|)
  {
    RemoteKey(s, r, used);
    KeysUsed(r, used, 0);
    if Leads(s, r) {
      FollowerForks(s, r, m, ephemeral, used);
    } else if Leads(r, s) {
      LeaderTurnsPends(s, r, m, ephemeral);
    } else {
      FreshTurnsAstray(s, r, m, ephemeral);
    }
  }

  /** Any other message leaves the roots in step. */
  lemma NoForkStaysClose(s: Peer, r: Peer, m: Message, ephemeral: PublicKey, used: set<PublicKey>)
    requires Writes(s, used) && Writes(r, used) && KeysApart(s.log, r.log)
    requires Fresh(s, r) || Leads(s, r) || Leads(r, s)
    requires !Forks(s.session, r.session, m.header)
    ensures RootsClose(s.session, Hears(r, m, ephemeral).session)
  {
    RemoteKey(s, r, used);
    ReceiveSendingHalf(r.session, m, ephemeral);
    AgreeCommutes(s.session.dhSelf, r.session.dhSelf);
    AgreeCommutes(ephemeral, s.session.dhSelf);
  }

  /** Parted roots are not in step. */
  lemma PartedNotClose(s: Peer, r: Peer, used: set<PublicKey>, cs: nat, cr: nat)
    requires Parted(s, r, used, cs, cr)
    ensures !RootsClose(s.session, r.session)
  {
    if p, q :| Diverged(s, r, p, q, cs, cr) {
      DivergedNotClose(s.session.rootKey, r.session.rootKey, p, q);
    } else if key, other :| key in used && other in used && Astray(s, r, key, other, cs, cr) {
      DescendsHeight(r.session.rootKey, Root(s.session.rootKey, Agree(key, other)));
      if r.session.rootKey == Root(s.session.rootKey, Agree(s.session.dhSelf, r.session.dhSelf)) {
        BranchesDisjoint(r.session.rootKey, r.session.rootKey, Root(s.session.rootKey, Agree(key, other)));
      }
    } else {
      var key, other :| key in used && other in used && Pending(s, r, key, other, cs, cr);
      var root1 := Root(s.session.rootKey, Agree(s.session.dhSelf, key));
      DescendsHeight(r.session.rootKey, Root(root1, Agree(key, other)));
    }
  }

  lemma DivergedNotClose(x: Key, y: Key, p: Key, q: Key)
    requires Descends(x, p) && Descends(y, q) && p != q && Height(p) == Height(q)
    ensures x != y && !(x.Root? && x.parent == y) && !(y.Root? && y.parent == x)
  {
    if x == y || (x.Root? && x.parent == y) {
      BranchesDisjoint(x, p, q);
    } else if y.Root? && y.parent == x {
      BranchesDisjoint(y, p, q);
    }
  }

  /** Exactly which single deliveries of any message at all, logged, repeated, replayed or
      made up, end the conversation: those whose header forks.  They part the two sides for
      good; every other leaves the roots in step. */
  lemma SingleDeliveryExactly(bootstrap: Key, identityA: PublicKey, identityB: PublicKey, events: seq<Event>, w: World,
                              to: Side, m: Message, ephemeral: PublicKey)
    requires identityA != identityB
    requires Reaches(Start(bootstrap, identityA, identityB), events, w) && ephemeral !in w.used
    ensures var s, r, r' := w.Of(to.Other()), w.Of(to), Hears(w.Of(to), m, ephemeral);
      && (Forks(s.session, r.session, m.header) <==> Parted(s, r', w.used + {m.header.dh}, |s.log|, |r.log|))
      && (Forks(s.session, r.session, m.header) <==> !RootsClose(s.session, r'.session))
  {
    ReachesSettled(bootstrap, identityA, identityB, events, w);
    SettledPair(w, to);
    var s, r, r' := w.Of(to.Other()), w.Of(to), Hears(w.Of(to), m, ephemeral);
    if Forks(s.session, r.session, m.header) {
      ForkParts(s, r, m, ephemeral, w.used);
      PartedNotClose(s, r', w.used + {m.header.dh}, |s.log|, |r.log|);
    } else {
      NoForkStaysClose(s, r, m, ephemeral, w.used);
      if Parted(s, r', w.used + {m.header.dh}, |s.log|, |r.log|) {
        PartedNotClose(s, r', w.used + {m.header.dh}, |s.log|, |r.log|);
      }
    }
  }

  lemma PartedDooms(w: World, to: Side, m: Message, ephemeral: PublicKey, cs: nat, cr: nat)
    requires Writes(w.a, w.used) && Writes(w.b, w.used) && ephemeral !in w.used + {m.header.dh}
    requires Parted(w.Of(to.Other()), Hears(w.Of(to), m, ephemeral), w.used + {m.header.dh}, cs, cr)
    ensures Doomed(WildStep(w, HearsOf(to, m, ephemeral)), to, cs, cr)
  {
    var s, r, used' := w.Of(to.Other()), w.Of(to), w.used + {ephemeral, m.header.dh};
    HearWrites(r, m, ephemeral, w.used);
    WritesFrame(s, s, w.used, used');
    PartedMonotone(s, Hears(r, m, ephemeral), w.used + {m.header.dh}, used', cs, cr);
  }

  lemma FatalFrom(w: World, to: Side, m: Message, ephemeral: PublicKey, after: seq<Wild>, w': World,
                  to': Side, place': Place, ephemeral': PublicKey)
    requires Settled(w) && Forks(w.Of(to.Other()).session, w.Of(to).session, m.header)
    requires ephemeral !in w.used + {m.header.dh}
    requires WildReaches(WildStep(w, HearsOf(to, m, ephemeral)), after, w')
    requires IsPlace(w'.Of(to'.Other()).log, place') && |w.Of(to'.Other()).log| <= place'.batch
    ensures Outcome(w', to', place', ephemeral').Err?
  {
    var s, r := w.Of(to.Other()), w.Of(to);
    SettledPair(w, to);
    ForkParts(s, r, m, ephemeral, w.used);
    PartedDooms(w, to, m, ephemeral, |s.log|, |r.log|);
    DoomedRun(WildStep(w, HearsOf(to, m, ephemeral)), after, w', to, |s.log|, |r.log|);
    PartedDelivery(w'.Of(to.Other()), w'.Of(to), w'.used, |s.log|, |r.log|, place', ephemeral');
  }

  /** A fork ends the conversation.  However the run goes on, and whatever messages either
      side is handed, what is encrypted under a sender key made after it is never decrypted
      by the other side. */
  lemma ForkIsFatal(bootstrap: Key, identityA: PublicKey, identityB: PublicKey, before: seq<Event>, w: World,
                    to: Side, m: Message, ephemeral: PublicKey, after: seq<Wild>, w': World,
                    to': Side, place': Place, ephemeral': PublicKey)
    requires identityA != identityB
    requires Reaches(Start(bootstrap, identityA, identityB), before, w)
    requires Forks(w.Of(to.Other()).session, w.Of(to).session, m.header) && ephemeral !in w.used + {m.header.dh}
    requires WildReaches(WildStep(w, HearsOf(to, m, ephemeral)), after, w')
    requires IsPlace(w'.Of(to'.Other()).log, place') && |w.Of(to'.Other()).log| <= place'.batch
    ensures Outcome(w', to', place', ephemeral').Err?
  {
    ReachesSettled(bootstrap, identityA, identityB, before, w);
    FatalFrom(w, to, m, ephemeral, after, w', to', place', ephemeral');
  }

  // ---- The deliveries that agreement forbids ----

  /** The message at a place of one side's log, handed to side `to`, breaks a hypothesis of
      agreement: it makes the second side rotate; or it is under an older sender key; or it
      is the reader's own, as the relay replays it.  The skip limit refuses some of them. */
  predicate Forbidden(w: World, to: Side, from: Side, place: Place) {
    var r, log := w.Of(to), w.Of(from).log;
    && IsPlace(log, place)
    && var h := At(log, place).message.header;
       if from == to then !TooFar(r.session, h.pn)
       else !NotCrossing(w.Of(from), r, h) || (!NotStale(r, place) && !TooFar(r.session, h.pn))
  }

  lemma OwnForks(s: Peer, r: Peer, place: Place, used: set<PublicKey>)
    requires Writes(s, used) && Writes(r, used) && KeysApart(s.log, r.log)
    requires Fresh(s, r) || Leads(s, r) || Leads(r, s)
    requires IsPlace(r.log, place) && !TooFar(r.session, At(r.log, place).message.header.pn)
    ensures Forks(s.session, r.session, At(r.log, place).message.header)
  {
    assert WellSent(r.log, place.batch, place.n);
    RemoteKey(s, r, used);
    assert s.session.dhSelf == s.log[|s.log| - 1].dh;
  }

  lemma StaleForks(s: Peer, r: Peer, place: Place, used: set<PublicKey>)
    requires Writes(s, used) && IsPlace(s.log, place)
    requires Fresh(s, r) || Leads(s, r) || Leads(r, s)
    requires !NotStale(r, place) && !TooFar(r.session, At(s.log, place).message.header.pn)
    ensures Forks(s.session, r.session, At(s.log, place).message.header)
  {
    assert WellSent(s.log, place.batch, place.n);
  }

  /** Every one of them forks. */
  lemma ForbiddenForks(w: World, to: Side, from: Side, place: Place)
    requires Settled(w) && Forbidden(w, to, from, place)
    ensures Forks(w.Of(to.Other()).session, w.Of(to).session, At(w.Of(from).log, place).message.header)
    ensures At(w.Of(from).log, place).message.header.dh in w.used
  {
    var s, r := w.Of(to.Other()), w.Of(to);
    SettledPair(w, to);
    assert WellSent(w.Of(from).log, place.batch, place.n);
    KeysUsed(w.Of(from), w.used, place.batch);
    if from == to {
      OwnForks(s, r, place, w.used);
    } else if NotCrossing(s, r, At(s.log, place).message.header) {
      StaleForks(s, r, place, w.used);
    } else {
      RemoteKey(s, r, w.used);
    }
  }

  /** So one forbidden delivery ends the conversation. */
  lemma ForbiddenIsFatal(bootstrap: Key, identityA: PublicKey, identityB: PublicKey, before: seq<Event>, w: World,
                         to: Side, from: Side, place: Place, ephemeral: PublicKey, after: seq<Wild>, w': World,
                         to': Side, place': Place, ephemeral': PublicKey)
    requires identityA != identityB
    requires Reaches(Start(bootstrap, identityA, identityB), before, w)
    requires Forbidden(w, to, from, place) && ephemeral !in w.used + {At(w.Of(from).log, place).message.header.dh}
    requires WildReaches(WildStep(w, HearsOf(to, At(w.Of(from).log, place).message, ephemeral)), after, w')
    requires IsPlace(w'.Of(to'.Other()).log, place') && |w.Of(to'.Other()).log| <= place'.batch
    ensures Outcome(w', to', place', ephemeral').Err?
  {
    ReachesSettled(bootstrap, identityA, identityB, before, w);
    ForbiddenForks(w, to, from, place);
    FatalFrom(w, to, At(w.Of(from).log, place).message, ephemeral, after, w', to', place', ephemeral');
  }

  /** The hypothesis is needed at once: three allowed steps lead to a crossing.  Both sides
      have sent a first message and one has arrived; the other one is forbidden. */
  lemma FirstMessagesCross(bootstrap: Key, identityA: PublicKey, identityB: PublicKey, x: Blob, y: Blob,
                           ephemeral: PublicKey)
    returns (w: World)
    requires identityA != identityB && ephemeral !in {identityA, identityB}
    ensures Reaches(Start(bootstrap, identityA, identityB),
        [Send(A, x), Send(B, y), Deliver(B, Place(0, 0), ephemeral)], w)
    ensures Forbidden(w, A, B, Place(0, 0))
  {
    var start := Start(bootstrap, identityA, identityB);
    var w1 := Step(start, Send(A, x));
    var w2 := Step(w1, Send(B, y));
    var delivery := Deliver(B, Place(0, 0), ephemeral);
    assert Allowed(w2, delivery) by {
      assert w2.used == {identityA, identityB};
      assert At(w2.a.log, Place(0, 0)).message.header == Header(identityA, 0, 0);
    }
    w := Step(w2, delivery);
    FirstDeliveryTurns(w2, delivery);
    assert [Send(B, y), delivery][1..] == [delivery] && [delivery][1..] == [];
    assert [Send(A, x), Send(B, y), delivery][1..] == [Send(B, y), delivery];
    assert Reaches(w2, [delivery], w);
    assert Reaches(w1, [Send(B, y), delivery], w);
  }

  lemma FirstDeliveryTurns(w: World, e: Event)
    requires e.Deliver? && e.to == B && Allowed(w, e)
    requires w.b.session.dhSelfIsIdentity && w.a.session.dhSelfIsIdentity
    requires IsPlace(w.b.log, Place(0, 0)) && w.b.log[0].sent[0].message.header.dh == w.a.session.dhRemote
    ensures Forbidden(Step(w, e), A, B, Place(0, 0))
  {
    var m := At(w.a.log, e.place).message;
    ReceiveSendingHalf(w.b.session, m, e.ephemeral);
  }
}
