/** The connection registry (backend/internal/ws/hub.go).  Go slices are headers over backing
    arrays that append and removal overwrite in place, so aliasing is part of the model. */
module Hub {
  import opened Padding
  import opened Connections

  // ---- The registry as a value ----

  type Registry<C> = map<string, seq<C>>

  function ConnsOf<C>(m: Registry<C>, user: string): seq<C> {
    if user in m then m[user] else []
  }

  function RemoveFirst<C(==)>(s: seq<C>, c: C): seq<C> {
    if s == [] then [] else if s[0] == c then s[1..] else [s[0]] + RemoveFirst(s[1..], c)
  }

  function Registered<C>(m: Registry<C>, user: string, c: C): Registry<C> {
    m[user := ConnsOf(m, user) + [c]]
  }

  /** A user whose last connection goes loses its key. */
  function Unregistered<C(==)>(m: Registry<C>, user: string, c: C): Registry<C> {
    var rest := RemoveFirst(ConnsOf(m, user), c);
    if rest == [] then m - {user} else m[user := rest]
  }

  datatype Op<C> = Register(user: string, conn: C) | Unregister(user: string, conn: C)

  function Applied<C(==)>(m: Registry<C>, op: Op<C>): Registry<C> {
    if op.Register? then Registered(m, op.user, op.conn) else Unregistered(m, op.user, op.conn)
  }

  function AppliedAll<C(==)>(m: Registry<C>, ops: seq<Op<C>>): Registry<C> {
    if ops == [] then m else Applied(AppliedAll(m, ops[..|ops| - 1]), ops[|ops| - 1])
  }

  function Apply<C(==)>(ops: seq<Op<C>>): Registry<C> {
    AppliedAll(map[], ops)
  }

  lemma {:induction false} AppliedTwice<C>(m: Registry<C>, first: seq<Op<C>>, second: seq<Op<C>>)
    ensures AppliedAll(AppliedAll(m, first), second) == AppliedAll(m, first + second)
  {
    if second == [] {
      assert first + second == first;
    } else {
      var last := |second| - 1;
      AppliedTwice(m, first, second[..last]);
      assert first + second == first + second[..last] + [second[last]];
    }
  }

  /** The connection registered by operation `i` and not unregistered after it. */
  predicate StillThere<C(==)>(ops: seq<Op<C>>, user: string, i: nat)
    requires i < |ops|
  {
    ops[i].Register? && ops[i].user == user && Unregister(user, ops[i].conn) !in ops[i..]
  }

  /** The connections of a user not yet unregistered, in order of registration. */
  function Live<C(==)>(ops: seq<Op<C>>, user: string, upTo: nat): seq<C>
    requires upTo <= |ops|
  {
    if upTo == 0 then []
    else Live(ops, user, upTo - 1) + if StillThere(ops, user, upTo - 1) then [ops[upTo - 1].conn] else []
  }

  /** Every connection is registered once: the server makes a new one per upgrade. */
  predicate RegisteredOnce<C(==)>(ops: seq<Op<C>>) {
    forall i, j :: 0 <= i < j < |ops| && ops[i].Register? && ops[j].Register? ==> ops[i].conn != ops[j].conn
  }

  lemma {:induction false} LiveMember<C>(ops: seq<Op<C>>, user: string, upTo: nat, c: C)
    requires upTo <= |ops|
    ensures c in Live(ops, user, upTo) <==> exists i: nat :: i < upTo && StillThere(ops, user, i) && ops[i].conn == c
  {
    if upTo > 0 {
      LiveMember(ops, user, upTo - 1, c);
    }
  }

  /** A later registration changes nothing about those before it. */
  lemma {:induction false} LiveAfterRegister<C>(ops: seq<Op<C>>, op: Op<C>, user: string, upTo: nat)
    requires upTo <= |ops| && op.Register?
    ensures Live(ops + [op], user, upTo) == Live(ops, user, upTo)
  {
    if upTo > 0 {
      LiveAfterRegister(ops, op, user, upTo - 1);
      assert (ops + [op])[upTo - 1..] == ops[upTo - 1..] + [op];
    }
  }

  lemma StillThereAfter<C>(ops: seq<Op<C>>, op: Op<C>, user: string, k: nat)
    requires k < |ops| && op.Unregister?
    ensures StillThere(ops + [op], user, k) <==> StillThere(ops, user, k) && op != Unregister(user, ops[k].conn)
  {
    assert (ops + [op])[k..] == ops[k..] + [op];
  }

  /** What was registered before is another connection than the `k`th. */
  lemma LiveBefore<C>(ops: seq<Op<C>>, user: string, k: nat)
    requires k < |ops| && RegisteredOnce(ops) && ops[k].Register?
    ensures ops[k].conn !in Live(ops, user, k)
  {
    LiveMember(ops, user, k, ops[k].conn);
  }

  /** A later unregistration takes exactly its connection out. */
  lemma {:induction false} LiveAfterUnregister<C>(ops: seq<Op<C>>, op: Op<C>, user: string, upTo: nat)
    requires upTo <= |ops| && op.Unregister? && RegisteredOnce(ops)
    ensures Live(ops + [op], user, upTo)
         == if op.user == user then RemoveFirst(Live(ops, user, upTo), op.conn) else Live(ops, user, upTo)
  {
    if upTo > 0 {
      var k := upTo - 1;
      LiveAfterUnregister(ops, op, user, k);
      StillThereAfter(ops, op, user, k);
      assert (ops + [op])[k] == ops[k];
      if !StillThere(ops, user, k) {
        assert Live(ops, user, upTo) == Live(ops, user, k);
        assert Live(ops + [op], user, upTo) == Live(ops + [op], user, k);
      } else if op.user == user {
        LiveBefore(ops, user, k);
        RemoveFirstAppend(Live(ops, user, k), ops[k].conn, op.conn);
        if ops[k].conn == op.conn {
          assert Live(ops + [op], user, upTo) == Live(ops + [op], user, k);
        }
      }
    }
  }

  lemma {:induction false} RemoveFirstAppend<C>(s: seq<C>, last: C, c: C)
    ensures c in s ==> RemoveFirst(s + [last], c) == RemoveFirst(s, c) + [last]
    ensures c !in s ==> RemoveFirst(s + [last], c) == (if last == c then s else s + [last]) && RemoveFirst(s, c) == s
  {
    if s != [] {
      assert (s + [last])[1..] == s[1..] + [last];
      RemoveFirstAppend(s[1..], last, c);
    } else {
      assert s + [last] == [last];
    }
  }

  lemma {:induction false} NoEmptySlices<C>(ops: seq<Op<C>>)
    ensures forall u <- Apply(ops) :: Apply(ops)[u] != []
  {
    if ops != [] {
      NoEmptySlices(ops[..|ops| - 1]);
      assert Apply(ops) == Applied(Apply(ops[..|ops| - 1]), ops[|ops| - 1]);
    }
  }

  lemma AppliedConns<C>(m: Registry<C>, op: Op<C>, user: string)
    ensures ConnsOf(Applied(m, op), user)
         == if op.user != user then ConnsOf(m, user)
            else if op.Register? then ConnsOf(m, user) + [op.conn] else RemoveFirst(ConnsOf(m, user), op.conn)
  {
  }

  /** After any sequence of operations a user's slice is exactly the connections not yet
      unregistered, in order, and a key exists only when its slice is non-empty. */
  lemma {:induction false} RegistryIsLive<C>(ops: seq<Op<C>>, user: string)
    requires RegisteredOnce(ops)
    ensures ConnsOf(Apply(ops), user) == Live(ops, user, |ops|)
    ensures user in Apply(ops) <==> Live(ops, user, |ops|) != []
  {
    NoEmptySlices(ops);
    if ops != [] {
      var before, op := ops[..|ops| - 1], ops[|ops| - 1];
      assert ops == before + [op];
      OnceInPrefix(before, [op]);
      RegistryIsLive(before, user);
      LiveStep(before, op, user);
      AppliedConns(Apply(before), op, user);
      assert Apply(ops) == Applied(Apply(before), op);
    }
  }

  /** One operation changes the description as it changes the registry. */
  lemma LiveStep<C>(before: seq<Op<C>>, op: Op<C>, user: string)
    requires RegisteredOnce(before)
    ensures var live := Live(before, user, |before|);
      Live(before + [op], user, |before| + 1)
      == if op.user != user then live else if op.Register? then live + [op.conn] else RemoveFirst(live, op.conn)
  {
    var ops := before + [op];
    assert ops[|before|..] == [op];
    if op.Register? {
      LiveAfterRegister(before, op, user, |before|);
    } else {
      LiveAfterUnregister(before, op, user, |before|);
    }
  }

  // ---- The registry over backing arrays ----

  /** A Go slice: the first `len` elements of a backing array. */
  datatype Slice<!C> = Slice(backing: array<C>, len: nat)

  class ConnHub<C(==, 0)> {
    var conns: map<string, Slice<C>>

    ghost predicate Valid()
      reads this, Backing()
    {
      && (forall u <- conns :: 0 < conns[u].len <= conns[u].backing.Length)
      && (forall u, v :: u in conns && v in conns && u != v ==> conns[u].backing != conns[v].backing)
    }

    ghost function Backing(): set<array<C>>
      reads this
    {
      set u <- conns :: conns[u].backing
    }

    /** The registry this hub stands for. */
    ghost function View(): Registry<C>
      requires Valid()
      reads this, Backing()
    {
      map u <- conns :: conns[u].backing[..conns[u].len]
    }

    constructor ()
      ensures Valid() && View() == map[] && fresh(Backing())
    {
      conns := map[];
    }

    /** Go's append: in place while the backing array has room, else in a larger copy. */
    method Append(s: Slice<C>, c: C) returns (r: Slice<C>)
      requires s.len <= s.backing.Length
      modifies s.backing
      ensures r.len == s.len + 1 <= r.backing.Length
      ensures r.backing[..r.len] == old(s.backing[..s.len]) + [c]
      ensures r.backing == s.backing || fresh(r.backing)
    {
      if s.len < s.backing.Length {
        s.backing[s.len] := c;
        return Slice(s.backing, s.len + 1);
      }
      var larger := new C[2 * s.len + 1];
      forall i | 0 <= i < s.len {
        larger[i] := s.backing[i];
      }
      larger[s.len] := c;
      assert larger[..s.len] == s.backing[..s.len];
      return Slice(larger, s.len + 1);
    }

    /** A user's slice, or an empty one. */
    method SliceOf(user: string) returns (s: Slice<C>)
      requires Valid()
      ensures s.len <= s.backing.Length && s.backing[..s.len] == ConnsOf(View(), user)
      ensures if user in conns then s == conns[user] else fresh(s.backing)
    {
      if user in conns { return conns[user]; }
      var empty := new C[0];
      return Slice(empty, 0);
    }

    method Register(user: string, c: C)
      requires Valid()
      modifies this, Backing()
      ensures Valid() && fresh(Backing() - old(Backing()))
      ensures View() == Registered(old(View()), user, c)
    {
      ghost var was := View();
      var s := SliceOf(user);
      assert forall u <- conns :: u != user ==> conns[u].backing != s.backing;
      var r := Append(s, c);
      Store(user, r, was);
    }

    /** The slices of all other users. */
    ghost predicate Others(user: string, was: Registry<C>)
      reads this, Backing()
    {
      && (forall u <- conns :: u != user ==>
            0 < conns[u].len <= conns[u].backing.Length && u in was && conns[u].backing[..conns[u].len] == was[u])
      && (forall u <- was :: u != user ==> u in conns)
      && (forall u, v :: u in conns && v in conns && u != v && u != user && v != user ==>
          conns[u].backing != conns[v].backing)
    }

    lemma ViewWith(user: string, was: Registry<C>)
      requires Others(user, was) && user in conns && 0 < conns[user].len <= conns[user].backing.Length
      requires forall u <- conns :: u != user ==> conns[u].backing != conns[user].backing
      ensures Valid() && View() == was[user := conns[user].backing[..conns[user].len]]
    {
      assert Valid();
      forall u <- conns
        ensures View()[u] == was[user := conns[user].backing[..conns[user].len]][u]
      {
      }
    }

    /** Replaces one user's slice by one over its own or a new backing array. */
    method Store(user: string, s: Slice<C>, ghost was: Registry<C>)
      requires 0 < s.len <= s.backing.Length
      requires Others(user, was) && forall u <- conns :: u != user ==> conns[u].backing != s.backing
      modifies this
      ensures Valid() && View() == was[user := s.backing[..s.len]]
      ensures Backing() <= old(Backing()) + {s.backing}
    {
      ghost var before := conns;
      conns := conns[user := s];
      assert forall u <- conns :: conns[u] == if u == user then s else before[u];
      ViewWith(user, was);
    }

    method Forget(user: string, ghost was: Registry<C>)
      requires Others(user, was)
      modifies this
      ensures Valid() && View() == was - {user}
      ensures Backing() <= old(Backing())
    {
      conns := conns - {user};
    }

    /** The tail is shifted down over the removed element, in the same backing array. */
    method Unregister(user: string, c: C)
      requires Valid()
      modifies this, Backing()
      ensures Valid() && Backing() <= old(Backing())
      ensures View() == Unregistered(old(View()), user, c)
    {
      ghost var was := View();
      if user !in conns {
        assert was - {user} == was;
        return;
      }
      var s := conns[user];
      assert s.backing[..s.len] == ConnsOf(was, user);
      var n := Shift(s.backing, s.len, c);
      if n == 0 {
        Forget(user, was);
      } else {
        Store(user, Slice(s.backing, n), was);
      }
    }

    /** Removes the first occurrence of `c` among the first `n` elements. */
    method Shift(a: array<C>, n: nat, c: C) returns (m: nat)
      requires n <= a.Length
      modifies a
      ensures m <= n && a[..m] == RemoveFirst(old(a[..n]), c)
    {
      ghost var was := a[..n];
      var i := 0;
      while i < n && a[i] != c
        invariant i <= n
        invariant a[..n] == was
        invariant RemoveFirst(was, c) == was[..i] + RemoveFirst(was[i..], c)
      {
        RemoveFirstFrom(was, i, c);
        i := i + 1;
      }
      if i == n {
        assert was[..i] == was && RemoveFirst(was[i..], c) == [];
        return n;
      }
      CopyDown(a, i, n);
      assert was[i..][1..] == was[i + 1..];
      return n - 1;
    }

    method CopyDown(a: array<C>, i: nat, n: nat)
      requires i < n <= a.Length
      modifies a
      ensures a[..n - 1] == old(a[..n])[..i] + old(a[..n])[i + 1..]
    {
      var j := i;
      while j + 1 < n
        invariant i <= j < n
        invariant forall k :: 0 <= k < i || j < k < n ==> a[k] == old(a[k])
        invariant forall k :: i <= k < j ==> a[k] == old(a[k + 1])
      {
        a[j] := a[j + 1];
        j := j + 1;
      }
    }

    static lemma RemoveFirstFrom(s: seq<C>, i: nat, c: C)
      requires i < |s| && s[i] != c
      ensures s[..i] + RemoveFirst(s[i..], c) == s[..i + 1] + RemoveFirst(s[i + 1..], c)
    {
      assert s[i..][1..] == s[i + 1..];
    }

    /** A copy taken under the lock: no later operation of the hub can change it. */
    method LocalConns(user: string) returns (snapshot: array<C>)
      requires Valid()
      ensures fresh(snapshot) && snapshot !in Backing()
      ensures snapshot[..] == ConnsOf(View(), user)
    {
      if user !in conns {
        snapshot := new C[0];
        return;
      }
      var s := conns[user];
      snapshot := new C[s.len];
      forall i | 0 <= i < s.len {
        snapshot[i] := s.backing[i];
      }
    }
  }

  method RunOp<C(==, 0)>(hub: ConnHub<C>, op: Op<C>)
    requires hub.Valid()
    modifies hub, hub.Backing()
    ensures hub.Valid() && fresh(hub.Backing() - old(hub.Backing()))
    ensures hub.View() == Applied(old(hub.View()), op)
  {
    match op
    case Register(user, conn) => hub.Register(user, conn);
    case Unregister(user, conn) => hub.Unregister(user, conn);
  }

  /** Any sequence of operations: the slices follow the registry, and no array outside them
      changes, although removals shift backing arrays in place. */
  method RunOps<C(==, 0)>(hub: ConnHub<C>, ops: seq<Op<C>>, ghost snapshots: set<array<C>>)
    requires hub.Valid() && snapshots !! hub.Backing()
    modifies hub, hub.Backing()
    ensures hub.Valid() && fresh(hub.Backing() - old(hub.Backing()))
    ensures hub.View() == AppliedAll(old(hub.View()), ops)
    ensures snapshots !! hub.Backing() && forall s <- snapshots :: s[..] == old(s[..])
  {
    var i := 0;
    while i < |ops|
      invariant i <= |ops| && hub.Valid() && fresh(hub.Backing() - old(hub.Backing()))
      invariant hub.View() == AppliedAll(old(hub.View()), ops[..i])
      invariant snapshots !! hub.Backing() && forall s <- snapshots :: s[..] == old(s[..])
    {
      assert ops[..i + 1][..i] == ops[..i];
      RunOp(hub, ops[i]);
      i := i + 1;
    }
    assert ops[..i] == ops;
  }

  /** A whole life of a hub with a snapshot taken anywhere in it: the snapshot is and stays
      the connections alive when it was taken, whatever is registered and removed later, and
      the slices are those alive at the end. */
  method SnapshotSurvives<C(==, 0)>(before: seq<Op<C>>, after: seq<Op<C>>, user: string)
    returns (hub: ConnHub<C>, snapshot: array<C>)
    requires RegisteredOnce(before + after)
    ensures hub.Valid() && snapshot[..] == Live(before, user, |before|)
    ensures forall u :: ConnsOf(hub.View(), u) == Live(before + after, u, |before + after|)
    ensures forall u :: u in hub.View() <==> Live(before + after, u, |before + after|) != []
  {
    hub := new ConnHub();
    RunOps(hub, before, {});
    snapshot := hub.LocalConns(user);
    OnceInPrefix(before, after);
    RegistryIsLive(before, user);
    RunOps(hub, after, {snapshot});
    AppliedTwice<C>(map[], before, after);
    forall u {
      RegistryIsLive(before + after, u);
    }
  }

  lemma OnceInPrefix<C>(before: seq<Op<C>>, after: seq<Op<C>>)
    requires RegisteredOnce(before + after)
    ensures RegisteredOnce(before)
  {
    var all := before + after;
    forall i, j | 0 <= i < j < |before| && before[i].Register? && before[j].Register?
      ensures before[i].conn != before[j].conn
    {
      assert before[i] == all[i] && before[j] == all[j];
    }
  }

  predicate NoRepeats(s: seq<Conn?>) {
    forall i, j :: 0 <= i < j < |s| ==> s[i] != s[j]
  }

  /** The channel of connection `c` after an envelope was sent to these connections. */
  function Offered<C(==)>(to: seq<C>, raw: Bytes, c: C, was: seq<Bytes>): seq<Bytes> {
    if c in to && |was| < SEND_BUFFER_SIZE then was + [raw] else was
  }

  /** Every local connection of the recipient is sent the envelope; only when there is none
      is it published to the other nodes. */
  method Deliver(hub: ConnHub<Conn?>, user: string, raw: Bytes, ghost local: set<Conn>) returns (published: bool)
    requires hub.Valid() && NoRepeats(ConnsOf(hub.View(), user))
    requires forall c <- ConnsOf(hub.View(), user) :: c != null && c in local
    modifies local`send
    ensures hub.Valid() && hub.View() == old(hub.View()) && (published <==> ConnsOf(hub.View(), user) == [])
    ensures forall c <- local ::
      c.send == Offered(ConnsOf(hub.View(), user), raw, c, old(c.send))
  {
    var snapshot := hub.LocalConns(user);
    ghost var targets := snapshot[..];
    if snapshot.Length == 0 { return true; }
    var i := 0;
    while i < snapshot.Length
      invariant i <= snapshot.Length && snapshot[..] == targets
      invariant forall c <- local ::
        c.send == Offered(targets[..i], raw, c, old(c.send))
    {
      assert snapshot[i] == targets[i] && targets[i] in targets;
      assert targets[..i + 1] == targets[..i] + [targets[i]];
      var c := snapshot[i];
      var queued := c.Send(raw);
      i := i + 1;
    }
    assert targets[..i] == targets;
    return false;
  }
}
