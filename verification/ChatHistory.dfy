/** The message store (client/lib/core/storage/chat_history_store.dart).  Dart's sort is not
    stable, so an operation's result is specified up to the order of equal timestamps. */
module ChatHistory {

  datatype MessageRecord = MessageRecord(
    id: string, conversationId: string, senderId: string, text: string, isMine: bool, timestampMs: int)

  type Records = seq<MessageRecord>

  type Box = map<string, Records>

  function MessagesFor(box: Box, conversation: string): Records {
    if conversation in box then box[conversation] else []
  }

  predicate Sorted(s: Records) {
    forall i, j :: 0 <= i < j < |s| ==> s[i].timestampMs <= s[j].timestampMs
  }

  predicate HasId(s: Records, id: string) {
    exists i :: 0 <= i < |s| && s[i].id == id
  }

  predicate UniqueIds(s: Records) {
    forall i, j :: 0 <= i < j < |s| ==> s[i].id != s[j].id
  }

  function Content(s: Records): set<MessageRecord> {
    set m | m in s
  }

  /** The incoming records whose id is not in the store yet. */
  function Unseen(existing: Records, incoming: Records): Records {
    if incoming == [] then []
    else (if HasId(existing, incoming[0].id) then [] else [incoming[0]]) + Unseen(existing, incoming[1..])
  }

  ghost predicate SortedFrom(r: Records, s: Records) {
    Sorted(r) && multiset(r) == multiset(s)
  }

  ghost predicate Appended(before: Records, m: MessageRecord, after: Records) {
    if HasId(before, m.id) then after == before else SortedFrom(after, before + [m])
  }

  ghost predicate Merged(before: Records, incoming: Records, after: Records) {
    SortedFrom(after, before + Unseen(before, incoming))
  }

  // ---- Order does not matter for what is stored ----

  lemma SameElements(r: Records, s: Records)
    requires multiset(r) == multiset(s)
    ensures Content(r) == Content(s) && |r| == |s|
    ensures forall m :: m in r <==> m in s
  {
    assert forall m :: m in r <==> m in multiset(r);
    assert forall m :: m in s <==> m in multiset(s);
    assert |multiset(r)| == |r| && |multiset(s)| == |s|;
  }

  lemma {:induction false} UniqueCounts(s: Records, m: MessageRecord)
    requires UniqueIds(s)
    ensures multiset(s)[m] <= 1
  {
    if s != [] {
      var last := |s| - 1;
      assert s == s[..last] + [s[last]];
      UniqueCounts(s[..last], m);
      if s[last] == m {
        assert m !in s[..last];
        assert m !in multiset(s[..last]);
      }
    }
  }

  lemma TwiceCounts(s: Records, i: nat, j: nat)
    requires i < j < |s| && s[i] == s[j]
    ensures multiset(s)[s[i]] >= 2
  {
    assert s == s[..j] + [s[j]] + s[j + 1..];
    assert s[i] in s[..j];
    assert s[i] in multiset(s[..j]);
  }

  lemma UniqueUpToOrder(r: Records, s: Records)
    requires multiset(r) == multiset(s) && UniqueIds(s)
    ensures UniqueIds(r)
  {
    SameElements(r, s);
    forall i, j | 0 <= i < j < |r|
      ensures r[i].id != r[j].id
    {
      if r[i].id == r[j].id {
        assert r[i] in s && r[j] in s;
        TwiceCounts(r, i, j);
        UniqueCounts(s, r[i]);
      }
    }
  }

  // ---- Merging ----

  lemma {:induction false} UnseenMember(existing: Records, incoming: Records, m: MessageRecord)
    ensures m in Unseen(existing, incoming) <==> m in incoming && !HasId(existing, m.id)
  {
    if incoming != [] {
      UnseenMember(existing, incoming[1..], m);
      assert m in incoming <==> m == incoming[0] || m in incoming[1..];
    }
  }

  lemma {:induction false} UnseenUnique(existing: Records, incoming: Records)
    requires UniqueIds(incoming)
    ensures UniqueIds(Unseen(existing, incoming))
  {
    if incoming != [] {
      UnseenUnique(existing, incoming[1..]);
      forall m | m in Unseen(existing, incoming[1..])
        ensures m.id != incoming[0].id
      {
        UnseenMember(existing, incoming[1..], m);
        assert m in incoming[1..];
      }
    }
  }

  /** Merging keeps ids unique exactly when the records it adds have unique ids. */
  lemma MergeUniqueExactly(before: Records, incoming: Records, after: Records)
    requires UniqueIds(before) && Merged(before, incoming, after)
    ensures UniqueIds(after) <==> UniqueIds(Unseen(before, incoming))
  {
    var new_ := Unseen(before, incoming);
    var all := before + new_;
    forall i, j | 0 <= i < |before| && 0 <= j < |new_|
      ensures before[i].id != new_[j].id
    {
      UnseenMember(before, incoming, new_[j]);
    }
    if UniqueIds(new_) {
      assert UniqueIds(all);
      UniqueUpToOrder(after, all);
    }
    if UniqueIds(after) {
      UniqueUpToOrder(all, after);
      forall i, j | 0 <= i < j < |new_|
        ensures new_[i].id != new_[j].id
      {
        assert all[|before| + i] == new_[i] && all[|before| + j] == new_[j];
      }
    }
  }

  /** Two stores never hold different records under one id. */
  predicate Consistent(x: set<MessageRecord>, y: set<MessageRecord>) {
    forall m, n :: m in x && n in y && m.id == n.id ==> m == n
  }

  lemma UniqueIsConsistent(s: Records)
    requires UniqueIds(s)
    ensures Consistent(Content(s), Content(s))
  {
  }

  lemma HasIdContent(s: Records, id: string)
    ensures HasId(s, id) <==> exists m :: m in s && m.id == id
  {
    if m :| m in s && m.id == id {
      var i :| 0 <= i < |s| && s[i] == m;
    }
  }

  /** Merging is set union on what is stored, keeps it sorted and ids unique. */
  lemma MergeIsUnion(before: Records, incoming: Records, after: Records)
    requires Merged(before, incoming, after)
    requires UniqueIds(before) && UniqueIds(incoming) && Consistent(Content(before), Content(incoming))
    ensures Content(after) == Content(before) + Content(incoming)
    ensures UniqueIds(after) && Sorted(after)
  {
    UnseenUnique(before, incoming);
    MergeUniqueExactly(before, incoming, after);
    SameElements(after, before + Unseen(before, incoming));
    forall m: MessageRecord
      ensures m in after <==> m in before || m in incoming
    {
      UnseenMember(before, incoming, m);
      assert m in before + Unseen(before, incoming) <==> m in before || m in Unseen(before, incoming);
      if m in incoming && HasId(before, m.id) {
        var i :| 0 <= i < |before| && before[i].id == m.id;
        assert before[i] in Content(before) && m in Content(incoming);
      }
    }
  }

  /** A chain of merges: `states[k + 1]` results from merging `pushes[k]` into `states[k]`. */
  ghost predicate MergeRun(states: seq<Records>, pushes: seq<Records>) {
    |states| == |pushes| + 1 && forall k :: 0 <= k < |pushes| ==> Merged(states[k], pushes[k], states[k + 1])
  }

  function Union(pushes: seq<Records>): set<MessageRecord> {
    if pushes == [] then {} else Union(pushes[..|pushes| - 1]) + Content(pushes[|pushes| - 1])
  }

  /** Every push has unique ids, and all the records agree on the ids they share. */
  ghost predicate Agreeing(first: Records, pushes: seq<Records>) {
    && (forall p <- pushes :: UniqueIds(p))
    && Consistent(Content(first) + Union(pushes), Content(first) + Union(pushes))
  }

  ghost predicate Joined(first: Records, pushes: seq<Records>, last: Records) {
    && Content(last) == Content(first) + Union(pushes)
    && UniqueIds(last) && (pushes != [] ==> Sorted(last))
  }

  lemma AgreeingPrefix(first: Records, pushes: seq<Records>, p: Records)
    requires Agreeing(first, pushes + [p])
    ensures Agreeing(first, pushes) && UniqueIds(p) && Consistent(Content(first) + Union(pushes), Content(p))
  {
    assert (pushes + [p])[..|pushes|] == pushes;
    assert p in pushes + [p] && forall q <- pushes :: q in pushes + [p];
  }

  lemma JoinStep(first: Records, pushes: seq<Records>, p: Records, before: Records, after: Records)
    requires Agreeing(first, pushes + [p]) && Joined(first, pushes, before) && Merged(before, p, after)
    ensures Joined(first, pushes + [p], after)
  {
    AgreeingPrefix(first, pushes, p);
    MergeIsUnion(before, p, after);
    assert (pushes + [p])[..|pushes|] == pushes;
  }

  lemma {:induction false} AgreeingUpTo(first: Records, pushes: seq<Records>, k: nat)
    requires Agreeing(first, pushes) && k <= |pushes|
    ensures Agreeing(first, pushes[..k])
    decreases |pushes|
  {
    if k < |pushes| {
      var last := |pushes| - 1;
      assert pushes == pushes[..last] + [pushes[last]] && pushes[..last][..k] == pushes[..k];
      AgreeingPrefix(first, pushes[..last], pushes[last]);
      AgreeingUpTo(first, pushes[..last], k);
    } else {
      assert pushes[..k] == pushes;
    }
  }

  lemma {:induction false} JoinedUpTo(states: seq<Records>, pushes: seq<Records>, k: nat)
    requires MergeRun(states, pushes) && UniqueIds(states[0]) && Agreeing(states[0], pushes) && k <= |pushes|
    ensures Joined(states[0], pushes[..k], states[k])
  {
    if k > 0 {
      JoinedUpTo(states, pushes, k - 1);
      AgreeingUpTo(states[0], pushes, k);
      assert pushes[..k] == pushes[..k - 1] + [pushes[k - 1]];
      assert Merged(states[k - 1], pushes[k - 1], states[k - 1 + 1]);
      JoinStep(states[0], pushes[..k - 1], pushes[k - 1], states[k - 1], states[k]);
    }
  }

  /** Merge is a join: among consistent stores, whatever the pushes and however often or in
      whatever order they arrive, the result is the union, sorted, with unique ids. */
  lemma MergeIsJoin(states: seq<Records>, pushes: seq<Records>)
    requires MergeRun(states, pushes) && UniqueIds(states[0]) && Agreeing(states[0], pushes)
    ensures Joined(states[0], pushes, states[|pushes|])
  {
    JoinedUpTo(states, pushes, |pushes|);
    assert pushes[..|pushes|] == pushes;
  }

  /** Merging a merge is merging one after the other. */
  lemma MergeAssociates(a: Records, b: Records, c: Records, ab: Records, left: Records, bc: Records, right: Records)
    requires UniqueIds(a) && UniqueIds(b) && UniqueIds(c)
    requires var all := Content(a) + Content(b) + Content(c); Consistent(all, all)
    requires Merged(a, b, ab) && Merged(ab, c, left)
    requires Merged(b, c, bc) && Merged(a, bc, right)
    ensures Content(left) == Content(right) == Content(a) + Content(b) + Content(c)
  {
    MergeIsUnion(a, b, ab);
    MergeIsUnion(ab, c, left);
    MergeIsUnion(b, c, bc);
    MergeIsUnion(a, bc, right);
  }

  // ---- Appending ----

  /** Appending a record keeps everything stored and adds at most this one. */
  lemma AppendAddsOne(before: Records, m: MessageRecord, after: Records)
    requires Appended(before, m, after) && UniqueIds(before)
    ensures UniqueIds(after) && Content(after) == Content(before) + if HasId(before, m.id) then {} else {m}
    ensures Sorted(before) ==> Sorted(after)
    ensures HasId(after, m.id)
  {
    if !HasId(before, m.id) {
      SameElements(after, before + [m]);
      assert UniqueIds(before + [m]);
      UniqueUpToOrder(after, before + [m]);
      assert m in after by { assert m in before + [m]; }
    }
  }

  // ---- The mutable store ----

  lemma InsertKeepsSorted(r: Records, i: nat, m: MessageRecord)
    requires Sorted(r) && i <= |r|
    requires i > 0 ==> r[i - 1].timestampMs <= m.timestampMs
    requires forall k :: i <= k < |r| ==> r[k].timestampMs > m.timestampMs
    ensures Sorted(r[..i] + [m] + r[i..])
  {
    var t := r[..i] + [m] + r[i..];
    forall j, k | 0 <= j < k < |t|
      ensures t[j].timestampMs <= t[k].timestampMs
    {
      assert t[j] == if j < i then r[j] else if j == i then m else r[j - 1];
      assert t[k] == if k < i then r[k] else if k == i then m else r[k - 1];
      assert j < i ==> r[j].timestampMs <= r[i - 1].timestampMs;
    }
  }

  lemma InsertKeepsContent(r: Records, i: nat, m: MessageRecord)
    requires i <= |r|
    ensures multiset(r[..i] + [m] + r[i..]) == multiset(r) + multiset{m}
  {
    assert r == r[..i] + r[i..];
  }

  method SortByTimestamp(s: Records) returns (r: Records)
    ensures SortedFrom(r, s)
  {
    r := [];
    for n := 0 to |s|
      invariant SortedFrom(r, s[..n])
    {
      var m := s[n];
      var i := |r|;
      while i > 0 && r[i - 1].timestampMs > m.timestampMs
        invariant 0 <= i <= |r|
        invariant forall k :: i <= k < |r| ==> r[k].timestampMs > m.timestampMs
      {
        i := i - 1;
      }
      InsertKeepsSorted(r, i, m);
      InsertKeepsContent(r, i, m);
      assert s[..n + 1] == s[..n] + [m];
      r := r[..i] + [m] + r[i..];
    }
    assert s[..|s|] == s;
  }

  class ChatHistoryStore {
    var box: Box

    constructor ()
      ensures box == map[]
    {
      box := map[];
    }

    method Append(message: MessageRecord)
      modifies this
      ensures Appended(MessagesFor(old(box), message.conversationId), message, MessagesFor(box, message.conversationId))
      ensures forall c :: c != message.conversationId ==> MessagesFor(box, c) == MessagesFor(old(box), c)
    {
      var existing := MessagesFor(box, message.conversationId);
      if HasId(existing, message.id) { return; }
      var sorted := SortByTimestamp(existing + [message]);
      box := box[message.conversationId := sorted];
    }

    method MergeAll(conversation: string, incoming: Records)
      modifies this
      ensures Merged(MessagesFor(old(box), conversation), incoming, MessagesFor(box, conversation))
      ensures forall c :: c != conversation ==> MessagesFor(box, c) == MessagesFor(old(box), c)
    {
      var existing := MessagesFor(box, conversation);
      var merged := SortByTimestamp(existing + Unseen(existing, incoming));
      box := box[conversation := merged];
    }

    /** Entries are merged one conversation at a time, in any order. */
    method ImportAll(data: map<string, Records>)
      modifies this
      ensures Imported(old(box), data, box)
    {
      var todo := data.Keys;
      while todo != {}
        invariant todo <= data.Keys
        invariant forall c :: c !in data || c in todo ==> MessagesFor(box, c) == MessagesFor(old(box), c)
        invariant forall c :: c in data && c !in todo ==> Merged(MessagesFor(old(box), c), data[c], MessagesFor(box, c))
        decreases |todo|
      {
        var c :| c in todo;
        MergeAll(c, data[c]);
        todo := todo - {c};
      }
    }
  }

  ghost predicate Imported(before: Box, data: map<string, Records>, after: Box) {
    forall c ::
      if c in data then Merged(MessagesFor(before, c), data[c], MessagesFor(after, c))
      else MessagesFor(after, c) == MessagesFor(before, c)
  }
}
