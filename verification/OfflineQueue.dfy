/** The offline queue (backend/internal/relay/offline_queue.go): one bounded list of
    envelopes per conversation. */
module OfflineQueue {

  const QUEUE_MAX_LEN := 500

  /** The wire envelope (backend/internal/ws/hub.go); an absent id is the empty string. */
  datatype Envelope = Envelope(
    kind: string, conversation: string, sender: string, to: string, id: string, header: string, ciphertext: string)

  function Tail<T>(s: seq<T>): seq<T> {
    if |s| <= QUEUE_MAX_LEN then s else s[|s| - QUEUE_MAX_LEN..]
  }

  function ListOf<T>(lists: map<string, seq<T>>, conversation: string): seq<T> {
    if conversation in lists then lists[conversation] else []
  }

  /** Push and trim. */
  function Pushed<T>(list: seq<T>, x: T): seq<T> {
    Tail(list + [x])
  }

  function PushedAll<T>(xs: seq<T>): seq<T> {
    if xs == [] then [] else Pushed(PushedAll(xs[..|xs| - 1]), xs[|xs| - 1])
  }

  /** Trimming after every push keeps the last 500 of everything ever pushed. */
  lemma {:induction false} PushedAllIsTail<T>(xs: seq<T>)
    ensures PushedAll(xs) == Tail(xs)
    ensures Tail(xs) == if |xs| <= 500 then xs else xs[|xs| - 500..]
  {
    if xs != [] {
      var before := xs[..|xs| - 1];
      PushedAllIsTail(before);
      assert xs == before + [xs[|xs| - 1]];
      PushedTail(before, xs[|xs| - 1]);
    }
  }

  lemma PushedTail<T>(xs: seq<T>, x: T)
    ensures Pushed(Tail(xs), x) == Tail(xs + [x])
  {
    if |xs| > QUEUE_MAX_LEN {
      assert Tail(xs) + [x] == (xs + [x])[|xs| - QUEUE_MAX_LEN..];
    }
  }

  /** An element is still queued when fewer than 500 were pushed after it. */
  lemma InTail<T>(xs: seq<T>, i: nat)
    requires i < |xs| <= i + QUEUE_MAX_LEN
    ensures xs[i] in Tail(xs)
  {
    if |xs| > QUEUE_MAX_LEN {
      assert Tail(xs)[i - (|xs| - QUEUE_MAX_LEN)] == xs[i];
    }
  }

  /** A stored entry: a marshalled envelope, or bytes that do not unmarshal. */
  datatype Payload = Json(env: Envelope) | Corrupt

  /** The entries that unmarshal, in order. */
  function Readable(list: seq<Payload>): seq<Envelope> {
    if list == [] then []
    else Readable(list[..|list| - 1]) + if list[|list| - 1].Json? then [list[|list| - 1].env] else []
  }

  /** Reading is entry by entry: an envelope gives itself, anything else nothing. */
  lemma {:induction false} ReadableAppends(a: seq<Payload>, b: seq<Payload>)
    ensures Readable(a + b) == Readable(a) + Readable(b)
  {
    if b == [] {
      assert a + b == a;
    } else {
      var last := |b| - 1;
      ReadableAppends(a, b[..last]);
      assert (a + b)[..|a + b| - 1] == a + b[..last];
    }
  }

  lemma ReadableOne(e: Payload)
    ensures Readable([e]) == if e.Json? then [e.env] else []
  {
    assert [e][..0] == [];
  }

  /** What the relay itself queued is read back entry by entry. */
  lemma {:induction false} OwnEntriesReadable(envs: seq<Envelope>)
    ensures Readable(seq(|envs|, i requires 0 <= i < |envs| => Json(envs[i]))) == envs
  {
    if envs != [] {
      var before := envs[..|envs| - 1];
      OwnEntriesReadable(before);
      var list := seq(|envs|, i requires 0 <= i < |envs| => Json(envs[i]));
      assert list[..|envs| - 1] == seq(|before|, i requires 0 <= i < |before| => Json(before[i]));
      assert envs == before + [envs[|envs| - 1]];
    }
  }

  class OfflineQueue {
    var lists: map<string, seq<Payload>>

    constructor ()
      ensures lists == map[]
    {
      lists := map[];
    }

    /** Gives the envelope an id unless the sender chose one; the transaction pushes it and
        trims the list. */
    method Enqueue(env: Envelope, generated: string) returns (id: string)
      modifies this
      ensures id == if env.id == "" then generated else env.id
      ensures ListOf(lists, env.conversation) == Pushed(ListOf(old(lists), env.conversation), Json(env.(id := id)))
      ensures forall c :: c != env.conversation ==> ListOf(lists, c) == ListOf(old(lists), c)
    {
      id := env.id;
      if id == "" { id := generated; }
      var list := ListOf(lists, env.conversation) + [Json(env.(id := id))];
      if |list| > QUEUE_MAX_LEN {
        list := list[|list| - QUEUE_MAX_LEN..];
      }
      lists := lists[env.conversation := list];
    }

    /** Reads a whole list, leaving it in place; entries that do not unmarshal are skipped. */
    method ForConversation(conversation: string) returns (envs: seq<Envelope>)
      ensures envs == Readable(ListOf(lists, conversation))
    {
      envs := [];
      var raw := ListOf(lists, conversation);
      var i := 0;
      while i < |raw|
        invariant i <= |raw| && envs == Readable(raw[..i])
      {
        assert raw[..i + 1][..i] == raw[..i];
        if raw[i].Json? { envs := envs + [raw[i].env]; }
        i := i + 1;
      }
      assert raw[..i] == raw;
    }
  }
}
