/** LAN sync of chat history (client/lib/core/sync/background_sync_service.dart): a peer
    announces the newest timestamp of each conversation and is sent what is newer. */
module BackgroundSync {
  import opened ChatHistory

  type Manifest = map<string, int>

  // ---- Manifests and pushes ----

  function MaxTimestamp(s: Records): int
    requires s != []
  {
    var last := s[|s| - 1].timestampMs;
    if |s| == 1 then last
    else
      var before := MaxTimestamp(s[..|s| - 1]);
      if before > last then before else last
  }

  /** The newest timestamp of a conversation, 0 when there is none. */
  function Latest(box: Box, c: string): int {
    var s := MessagesFor(box, c);
    if s == [] then 0 else MaxTimestamp(s)
  }

  function ManifestOf(box: Box): Manifest {
    map c | c in box && box[c] != [] :: MaxTimestamp(box[c])
  }

  function TheirMax(m: Manifest, c: string): int {
    if c in m then m[c] else 0
  }

  function Newer(s: Records, than: int): Records {
    if s == [] then [] else (if s[0].timestampMs > than then [s[0]] else []) + Newer(s[1..], than)
  }

  function PushFor(box: Box, theirs: Manifest): map<string, Records> {
    map c | c in box && Newer(box[c], TheirMax(theirs, c)) != [] :: Newer(box[c], TheirMax(theirs, c))
  }

  function Stored(box: Box, c: string): set<MessageRecord> {
    Content(MessagesFor(box, c))
  }

  lemma TheirMaxIsLatest(box: Box, c: string)
    ensures TheirMax(ManifestOf(box), c) == Latest(box, c)
  {
  }

  lemma {:induction false} MaxTimestampIsMax(s: Records)
    requires s != []
    ensures forall m <- s :: m.timestampMs <= MaxTimestamp(s)
    ensures exists m :: m in s && m.timestampMs == MaxTimestamp(s)
  {
    var last := s[|s| - 1];
    assert last in s;
    if |s| > 1 {
      var before := s[..|s| - 1];
      MaxTimestampIsMax(before);
      var m :| m in before && m.timestampMs == MaxTimestamp(before);
      assert m in s;
      assert forall m <- s :: m in before || m == last;
    } else {
      assert forall m <- s :: m == last;
    }
  }

  lemma {:induction false} NewerMember(s: Records, than: int, m: MessageRecord)
    ensures m in Newer(s, than) <==> m in s && m.timestampMs > than
  {
    if s != [] {
      NewerMember(s[1..], than, m);
      assert m in s <==> m == s[0] || m in s[1..];
    }
  }

  lemma {:induction false} NewerUnique(s: Records, than: int)
    requires UniqueIds(s)
    ensures UniqueIds(Newer(s, than))
  {
    if s != [] {
      NewerUnique(s[1..], than);
      forall m | m in Newer(s[1..], than)
        ensures m.id != s[0].id
      {
        NewerMember(s[1..], than, m);
      }
    }
  }

  // ---- Quiescence ----

  ghost predicate Positive(box: Box) {
    forall c, m :: m in Stored(box, c) ==> m.timestampMs > 0
  }

  /** `box` has nothing to push to a peer that announces `other`. */
  ghost predicate Quiet(box: Box, other: Box) {
    PushFor(box, ManifestOf(other)) == map[]
  }

  lemma LatestBounds(box: Box, c: string)
    requires Positive(box)
    ensures forall m <- Stored(box, c) :: m.timestampMs <= Latest(box, c)
    ensures Stored(box, c) != {} ==> exists m :: m in Stored(box, c) && m.timestampMs == Latest(box, c)
    ensures Stored(box, c) == {} ==> Latest(box, c) == 0
    ensures Latest(box, c) >= 0
  {
    var s := MessagesFor(box, c);
    if s != [] {
      MaxTimestampIsMax(s);
      var m :| m in s && m.timestampMs == MaxTimestamp(s);
      assert m in Stored(box, c);
    }
  }

  lemma QuietExactly(box: Box, other: Box)
    requires Positive(box) && Positive(other)
    ensures Quiet(box, other) <==> forall c :: Latest(box, c) <= Latest(other, c)
  {
    forall c
      ensures c in PushFor(box, ManifestOf(other)) <==> Latest(box, c) > Latest(other, c)
    {
      TheirMaxIsLatest(other, c);
      LatestBounds(box, c);
      LatestBounds(other, c);
      var newer := Newer(MessagesFor(box, c), Latest(other, c));
      if newer != [] {
        NewerMember(MessagesFor(box, c), Latest(other, c), newer[0]);
        assert newer[0] in Stored(box, c);
      }
      if Latest(box, c) > Latest(other, c) {
        var m :| m in Stored(box, c) && m.timestampMs == Latest(box, c);
        NewerMember(MessagesFor(box, c), Latest(other, c), m);
      }
    }
    if forall c :: Latest(box, c) <= Latest(other, c) {
      assert PushFor(box, ManifestOf(other)).Keys == {};
    }
  }

  /** Fixpoint: an exchange is quiescent both ways exactly when the newest timestamps agree
      in every conversation. */
  lemma Fixpoint(a: Box, b: Box)
    requires Positive(a) && Positive(b)
    ensures Quiet(a, b) && Quiet(b, a) <==> forall c :: Latest(a, c) == Latest(b, c)
  {
    QuietExactly(a, b);
    QuietExactly(b, a);
  }

  // ---- One push ----

  /** Stores that never hold different records under one id, each id once. */
  ghost predicate Compatible(a: Box, b: Box) {
    forall c :: UniqueIds(MessagesFor(a, c)) && UniqueIds(MessagesFor(b, c)) && Consistent(Stored(a, c), Stored(b, c))
  }

  /** `after` is the receiver's store once it imported the sender's answer to the manifest of
      `asker`: an answer goes to every connection. */
  ghost predicate PushedFor(sender: Box, asker: Box, receiver: Box, after: Box) {
    Imported(receiver, PushFor(sender, ManifestOf(asker)), after)
  }

  /** The answer to its own manifest. */
  ghost predicate Pushed(sender: Box, receiver: Box, after: Box) {
    PushedFor(sender, receiver, receiver, after)
  }

  lemma NewerContent(s: Records, than: int)
    ensures Content(Newer(s, than)) == set m | m in Content(s) && m.timestampMs > than
  {
    forall m: MessageRecord
      ensures m in Newer(s, than) <==> m in s && m.timestampMs > than
    {
      NewerMember(s, than, m);
    }
  }

  lemma MergeNewer(existing: Records, s: Records, than: int, after: Records)
    requires UniqueIds(existing) && UniqueIds(s) && Consistent(Content(existing), Content(s))
    requires if Newer(s, than) != [] then Merged(existing, Newer(s, than), after) else after == existing
    ensures Content(after) == Content(existing) + Content(Newer(s, than)) && UniqueIds(after)
  {
    NewerContent(s, than);
    NewerUnique(s, than);
    if Newer(s, than) != [] {
      MergeIsUnion(existing, Newer(s, than), after);
    }
  }

  /** An answer gives every receiver the sender's messages newer than the asker's newest. */
  lemma AnyPush(sender: Box, asker: Box, receiver: Box, after: Box, c: string)
    requires Compatible(sender, receiver) && PushedFor(sender, asker, receiver, after)
    ensures Stored(after, c) == Stored(receiver, c) + set m | m in Stored(sender, c) && m.timestampMs > Latest(asker, c)
    ensures UniqueIds(MessagesFor(after, c))
  {
    TheirMaxIsLatest(asker, c);
    NewerContent(MessagesFor(sender, c), Latest(asker, c));
    MergeNewer(MessagesFor(receiver, c), MessagesFor(sender, c), Latest(asker, c), MessagesFor(after, c));
  }

  /** One push makes the receiver its old set plus the sender's messages newer than its
      newest, conversation by conversation. */
  lemma OnePush(sender: Box, receiver: Box, after: Box, c: string)
    requires Compatible(sender, receiver) && Pushed(sender, receiver, after)
    ensures Stored(after, c) == Stored(receiver, c) + set m | m in Stored(sender, c)
        && m.timestampMs > Latest(receiver, c)
    ensures UniqueIds(MessagesFor(after, c))
  {
    AnyPush(sender, receiver, receiver, after, c);
  }

  /** One push is enough exactly when everything the receiver lacks is newer than its newest. */
  lemma OnePushSuffices(sender: Box, receiver: Box, after: Box, c: string)
    requires Compatible(sender, receiver) && Pushed(sender, receiver, after)
    ensures Stored(sender, c) <= Stored(after, c)
       <==> forall m <- Stored(sender, c) - Stored(receiver, c) :: m.timestampMs > Latest(receiver, c)
  {
    OnePush(sender, receiver, after, c);
  }

  lemma PushedPositive(sender: Box, receiver: Box, after: Box)
    requires Compatible(sender, receiver) && Pushed(sender, receiver, after)
    requires Positive(sender) && Positive(receiver)
    ensures Positive(after)
  {
    forall c, m | m in Stored(after, c)
      ensures m.timestampMs > 0
    {
      OnePush(sender, receiver, after, c);
    }
  }

  /** The receiver's newest timestamp catches up. */
  lemma PushLevelsLatest(sender: Box, receiver: Box, after: Box, c: string)
    requires Compatible(sender, receiver) && Pushed(sender, receiver, after)
    requires Positive(sender) && Positive(receiver)
    ensures Latest(after, c) == if Latest(sender, c) > Latest(receiver, c)
        then Latest(sender, c) else Latest(receiver, c)
  {
    OnePush(sender, receiver, after, c);
    PushedPositive(sender, receiver, after);
    LatestBounds(sender, c);
    LatestBounds(receiver, c);
    LatestBounds(after, c);
    if Latest(sender, c) > Latest(receiver, c) {
      var m :| m in Stored(sender, c) && m.timestampMs == Latest(sender, c);
      assert m in Stored(after, c);
    } else if Stored(receiver, c) != {} {
      var m :| m in Stored(receiver, c) && m.timestampMs == Latest(receiver, c);
      assert m in Stored(after, c);
    }
  }

  lemma AnyPushKeepsCompatible(sender: Box, asker: Box, receiver: Box, after: Box)
    requires Compatible(sender, receiver) && PushedFor(sender, asker, receiver, after)
    ensures Compatible(after, sender) && Compatible(sender, after)
  {
    forall c
      ensures UniqueIds(MessagesFor(after, c)) && Consistent(Stored(after, c), Stored(sender, c))
    {
      AnyPush(sender, asker, receiver, after, c);
      UniqueIsConsistent(MessagesFor(sender, c));
    }
  }

  lemma PushKeepsCompatible(sender: Box, receiver: Box, after: Box)
    requires Compatible(sender, receiver) && Pushed(sender, receiver, after)
    ensures Compatible(after, sender)
  {
    AnyPushKeepsCompatible(sender, receiver, receiver, after);
  }

  // ---- A full exchange ----

  /** Both sides push once, the first receiver answering second. */
  ghost predicate Exchanged(a: Box, b: Box, a': Box, b': Box) {
    Pushed(a, b, b') && Pushed(b', a, a')
  }

  /** After one exchange the pair is quiescent, for good. */
  lemma ExchangeReachesFixpoint(a: Box, b: Box, a': Box, b': Box)
    requires Compatible(a, b) && Positive(a) && Positive(b) && Exchanged(a, b, a', b')
    ensures Quiet(a', b') && Quiet(b', a')
  {
    PushKeepsCompatible(a, b, b');
    PushedPositive(a, b, b');
    PushedPositive(b', a, a');
    forall c
      ensures Latest(a', c) == Latest(b', c)
    {
      PushLevelsLatest(a, b, b', c);
      PushLevelsLatest(b', a, a', c);
    }
    Fixpoint(a', b');
  }

  /** `big` is `small` and messages newer than everything in it. */
  ghost predicate Extends(big: set<MessageRecord>, small: set<MessageRecord>, latest: int) {
    small <= big && forall m <- big - small :: m.timestampMs > latest
  }

  /** The newer part of each side added to the other makes them equal exactly when one
      side extends the other. */
  lemma SidesMeet(x: set<MessageRecord>, y: set<MessageRecord>, latestX: int, latestY: int)
    requires forall m <- x :: m.timestampMs <= latestX
    requires forall m <- y :: m.timestampMs <= latestY
    ensures x + (set m | m in y && m.timestampMs > latestX) == y + (set m | m in x && m.timestampMs > latestY)
       <==> Extends(x, y, latestY) || Extends(y, x, latestX)
  {
    var newX, newY := set m | m in x && m.timestampMs > latestY, set m | m in y && m.timestampMs > latestX;
    if x + newY == y + newX {
      forall m | m in x - y
        ensures m.timestampMs > latestY
      {
        assert m in y + newX;
      }
      forall m | m in y - x
        ensures m.timestampMs > latestX
      {
        assert m in x + newY;
      }
      if !(y <= x) {
        var n :| n in y && n !in x;
        assert n in y - x;
        forall m | m in x
          ensures m in y
        {
          assert m !in y ==> m in x - y;
        }
      }
    }
  }

  /** What the first receiver sends back is what it had before the exchange. */
  lemma SecondAnswer(x: set<MessageRecord>, y: set<MessageRecord>, latestX: int, latestY: int)
    ensures var y' := y + set m | m in x && m.timestampMs > latestY;
      x + (set m | m in y' && m.timestampMs > latestX) == x + (set m | m in y && m.timestampMs > latestX)
  {
  }

  /** Convergence, exactly: one exchange makes the two stores of a conversation equal if
      and only if one of them was the other and newer messages only. */
  lemma ConvergesExactly(a: Box, b: Box, a': Box, b': Box, c: string)
    requires Compatible(a, b) && Positive(a) && Positive(b) && Exchanged(a, b, a', b')
    ensures Stored(a', c) == Stored(b', c)
       <==> Extends(Stored(a, c), Stored(b, c), Latest(b, c)) || Extends(Stored(b, c), Stored(a, c), Latest(a, c))
  {
    PushKeepsCompatible(a, b, b');
    OnePush(a, b, b', c);
    OnePush(b', a, a', c);
    LatestBounds(a, c);
    LatestBounds(b, c);
    SecondAnswer(Stored(a, c), Stored(b, c), Latest(a, c), Latest(b, c));
    SidesMeet(Stored(a, c), Stored(b, c), Latest(a, c), Latest(b, c));
  }

  // ---- Answers meant for another device ----

  /** A message that an answer to `asker` passes over although `receiver` is older still,
      while it does bring the receiver something newer. */
  ghost predicate Stranded(sender: Box, asker: Box, receiver: Box, c: string, m: MessageRecord) {
    && m in Stored(sender, c) - Stored(receiver, c)
    && Latest(receiver, c) < m.timestampMs <= Latest(asker, c) < Latest(sender, c)
  }

  /** The answer to another device's manifest is harmless to a third one, in the sense that
      its own answer later still brings it all that it would have brought without, if and
      only if no message is stranded. */
  lemma ForeignPushHarmlessExactly(sender: Box, asker: Box, receiver: Box, direct: Box, foreign: Box, after: Box,
                                   c: string)
    requires Compatible(sender, receiver) && Positive(sender) && Positive(asker) && Positive(receiver)
    requires Pushed(sender, receiver, direct)
    requires PushedFor(sender, asker, receiver, foreign) && Pushed(sender, foreign, after)
    ensures Stored(direct, c) <= Stored(after, c) <==> !exists m :: Stranded(sender, asker, receiver, c, m)
  {
    forall m
      ensures m in Stored(direct, c) && m !in Stored(after, c) <==> Stranded(sender, asker, receiver, c, m)
    {
      LostExactly(sender, asker, receiver, direct, foreign, after, c, m);
    }
  }

  /** The messages lost are the stranded ones. */
  lemma LostExactly(sender: Box, asker: Box, receiver: Box, direct: Box, foreign: Box, after: Box, c: string,
                    m: MessageRecord)
    requires Compatible(sender, receiver) && Positive(sender) && Positive(asker) && Positive(receiver)
    requires Pushed(sender, receiver, direct)
    requires PushedFor(sender, asker, receiver, foreign) && Pushed(sender, foreign, after)
    ensures m in Stored(direct, c) && m !in Stored(after, c) <==> Stranded(sender, asker, receiver, c, m)
  {
    BothWays(sender, asker, receiver, direct, foreign, after, c);
    ForeignLatest(sender, asker, receiver, foreign, c);
    LatestBounds(sender, c);
    PassedOver(Stored(sender, c), Stored(receiver, c), Latest(asker, c), Latest(receiver, c), Latest(sender, c), m);
  }

  /** What the two ways end with. */
  lemma BothWays(sender: Box, asker: Box, receiver: Box, direct: Box, foreign: Box, after: Box, c: string)
    requires Compatible(sender, receiver) && Positive(sender) && Positive(asker) && Positive(receiver)
    requires Pushed(sender, receiver, direct)
    requires PushedFor(sender, asker, receiver, foreign) && Pushed(sender, foreign, after)
    ensures Stored(direct, c)
         == Stored(receiver, c) + set n | n in Stored(sender, c) && n.timestampMs > Latest(receiver, c)
    ensures Stored(after, c)
         == Stored(receiver, c) + (set n | n in Stored(sender, c) && n.timestampMs > Latest(asker, c))
            + set n | n in Stored(sender, c) && n.timestampMs > Latest(foreign, c)
  {
    OnePush(sender, receiver, direct, c);
    AnyPush(sender, asker, receiver, foreign, c);
    AnyPushKeepsCompatible(sender, asker, receiver, foreign);
    OnePush(sender, foreign, after, c);
  }

  /** The sets of the two ways: straight to the receiver, or after an answer to the asker. */
  lemma PassedOver(from: set<MessageRecord>, receiver: set<MessageRecord>, asked: int, latest: int, newest: int,
                   m: MessageRecord)
    requires forall n <- from :: n.timestampMs <= newest
    ensures var direct := receiver + set n | n in from && n.timestampMs > latest;
      var foreign := receiver + set n | n in from && n.timestampMs > asked;
      var levelled := if newest > asked && newest > latest then newest else latest;
      var after := foreign + set n | n in from && n.timestampMs > levelled;
      m in direct && m !in after <==> m in from - receiver && latest < m.timestampMs <= asked < newest
  {
  }

  /** What an answer to `asker` makes of the receiver's newest timestamp. */
  lemma ForeignLatest(sender: Box, asker: Box, receiver: Box, foreign: Box, c: string)
    requires Compatible(sender, receiver) && Positive(sender) && Positive(asker) && Positive(receiver)
    requires PushedFor(sender, asker, receiver, foreign)
    ensures Latest(foreign, c)
         == if Latest(sender, c) > Latest(asker, c) && Latest(sender, c) > Latest(receiver, c)
            then Latest(sender, c) else Latest(receiver, c)
  {
    AnyPush(sender, asker, receiver, foreign, c);
    LatestBounds(sender, c);
    LatestBounds(asker, c);
    LatestBounds(receiver, c);
    var newer := set m | m in Stored(sender, c) && m.timestampMs > Latest(asker, c);
    LatestOfUnion(foreign, c, Stored(receiver, c), newer, Latest(receiver, c), Latest(sender, c));
  }

  /** The newest timestamp of a store made of two sets. */
  lemma LatestOfUnion(box: Box, c: string, base: set<MessageRecord>, more: set<MessageRecord>, latest: int, newest: int)
    requires Stored(box, c) == base + more
    requires latest >= 0 && (forall m <- base :: 0 < m.timestampMs <= latest)
    requires base == {} ==> latest == 0
    requires base != {} ==> exists m :: m in base && m.timestampMs == latest
    requires forall m <- more :: 0 < m.timestampMs <= newest
    requires more != {} ==> exists m :: m in more && m.timestampMs == newest
    ensures Latest(box, c) == if more != {} && newest > latest then newest else latest
  {
    var s := MessagesFor(box, c);
    if s != [] {
      MaxTimestampIsMax(s);
      var top :| top in s && top.timestampMs == MaxTimestamp(s);
      assert top in Stored(box, c);
      if more != {} {
        var m :| m in more && m.timestampMs == newest;
        assert m in Stored(box, c);
      }
      if base != {} {
        var m :| m in base && m.timestampMs == latest;
        assert m in Stored(box, c);
      }
    } else {
      assert base == {} && more == {};
    }
  }

  /** And a stranded message stays so: whatever the receiver imports from then on, no answer
      anybody gives to its own manifest contains it. */
  lemma StrandedForGood(sender: Box, asker: Box, receiver: Box, foreign: Box, later: Box, anyone: Box, c: string,
                        m: MessageRecord)
    requires Compatible(sender, receiver)
    requires Positive(sender) && Positive(asker) && Positive(receiver) && Positive(later)
    requires PushedFor(sender, asker, receiver, foreign) && Stranded(sender, asker, receiver, c, m)
    requires Stored(foreign, c) <= Stored(later, c)
    ensures m !in Stored(foreign, c)
    ensures var push := PushFor(anyone, ManifestOf(later)); c in push ==> m !in push[c]
  {
    AnyPush(sender, asker, receiver, foreign, c);
    LatestBounds(sender, c);
    LatestBounds(later, c);
    var newest :| newest in Stored(sender, c) && newest.timestampMs == Latest(sender, c);
    assert newest in Stored(foreign, c);
    TheirMaxIsLatest(later, c);
    NewerMember(MessagesFor(anyone, c), Latest(later, c), m);
  }

  // ---- The service ----

  /** The push as far as the loop got: all but these conversations. */
  function PushWithout(box: Box, theirs: Manifest, todo: set<string>): map<string, Records> {
    map c | c in box && c !in todo && Newer(box[c], TheirMax(theirs, c)) != [] :: Newer(box[c], TheirMax(theirs, c))
  }

  lemma PushOneMore(box: Box, theirs: Manifest, todo: set<string>, c: string)
    requires c in todo && c in box
    ensures var newer := Newer(box[c], TheirMax(theirs, c)); var push := PushWithout(box, theirs, todo);
      PushWithout(box, theirs, todo - {c}) == if newer != [] then push[c := newer] else push
  {
  }

  class BackgroundSyncService {
    const store: ChatHistoryStore
    /** What was sent over each connection. */
    var connections: map<string, seq<map<string, Records>>>

    constructor (store: ChatHistoryStore)
      ensures this.store == store && connections == map[]
    {
      this.store := store;
      connections := map[];
    }

    method BuildMessageManifest() returns (manifest: Manifest)
      ensures manifest == ManifestOf(store.box)
    {
      manifest := map[];
      var todo := store.box.Keys;
      while todo != {}
        invariant todo <= store.box.Keys
        invariant manifest == map c | c in store.box && c !in todo && store.box[c] != [] :: MaxTimestamp(store.box[c])
        decreases |todo|
      {
        var c :| c in todo;
        var messages := MessagesFor(store.box, c);
        if messages != [] { manifest := manifest[c := MaxTimestamp(messages)]; }
        todo := todo - {c};
      }
    }

    method ComputePush(theirs: Manifest) returns (push: map<string, Records>)
      ensures push == PushFor(store.box, theirs)
    {
      push := map[];
      var todo := store.box.Keys;
      while todo != {}
        invariant todo <= store.box.Keys && push == PushWithout(store.box, theirs, todo)
        decreases |todo|
      {
        var c :| c in todo;
        var newer := Newer(MessagesFor(store.box, c), TheirMax(theirs, c));
        PushOneMore(store.box, theirs, todo, c);
        if newer != [] { push := push[c := newer]; }
        todo := todo - {c};
      }
    }

    /** The answer to a manifest goes to every connection, whoever announced it. */
    method HandleManifest(theirs: Manifest)
      modifies this`connections
      ensures connections.Keys == old(connections).Keys
      ensures var push := PushFor(store.box, theirs);
        forall k <- connections :: connections[k] == old(connections)[k] + if push == map[] then [] else [push]
    {
      var push := ComputePush(theirs);
      if push == map[] { return; }
      var todo := connections.Keys;
      while todo != {}
        invariant todo <= connections.Keys == old(connections).Keys
        invariant forall k <- connections ::
          connections[k] == old(connections)[k] + if k in todo then [] else [push]
        decreases |todo|
      {
        var k :| k in todo;
        connections := connections[k := connections[k] + [push]];
        todo := todo - {k};
      }
    }

    /** A push is imported as it comes, whoever sent it and whenever. */
    method HandlePush(data: map<string, Records>)
      modifies store
      ensures Imported(old(store.box), data, store.box)
    {
      store.ImportAll(data);
    }
  }
}
