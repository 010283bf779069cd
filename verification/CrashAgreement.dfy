/** Agreement across crashes: two devices that send and receive through the session manager
    (client/lib/core/crypto/session_manager.dart) and may crash at any point. */
module CrashAgreement {
  import opened Wrappers
  import opened SymbolicCrypto
  import opened Ratchet
  import opened RatchetAgreement
  import CrashSafety

  type Device = CrashSafety.Device
  type Fate = CrashSafety.Fate

  /** A device, everything it has written out as sent, and what it has written as received.
      `lost` are the messages whose send crashed after the write: nobody ever got them. */
  datatype Endpoint = Endpoint(device: Device, log: Log, lost: set<Place>, received: set<Place>)

  datatype CrashWorld = CrashWorld(a: Endpoint, b: Endpoint, used: set<PublicKey>) {
    function Of(side: Side): Endpoint { if side == A then a else b }

    function With(side: Side, e: Endpoint, keys: set<PublicKey>): CrashWorld {
      if side == A then CrashWorld(e, b, used + keys) else CrashWorld(a, e, used + keys)
    }
  }

  datatype CrashEvent =
    | Sending(side: Side, plaintext: Blob, fate: Fate)
    | Delivery(to: Side, place: Place, ephemeral: PublicKey, fate: Fate)
    | Crash(side: Side)

  /** The endpoint as the next operation finds it, after a crash or not. */
  function Seen(e: Endpoint): Peer {
    Peer(e.device.Loaded(), e.log, e.received)
  }

  function View(w: CrashWorld): World {
    World(Seen(w.a), Seen(w.b), w.used)
  }

  function StartEndpoint(bootstrap: Key, mine: PublicKey, peer: PublicKey): Endpoint {
    Endpoint(CrashSafety.Established(bootstrap, mine, peer), StartPeer(bootstrap, mine, peer).log, {}, {})
  }

  function CrashStart(bootstrap: Key, identityA: PublicKey, identityB: PublicKey): CrashWorld {
    CrashWorld(StartEndpoint(bootstrap, identityA, identityB), StartEndpoint(bootstrap, identityB, identityA),
        {identityA, identityB})
  }

  /** The hypotheses of agreement, on the state the devices would reload. */
  predicate May(w: CrashWorld, e: CrashEvent) {
    match e
    case Sending(side, _, _) => w.Of(side).log != []
    case Delivery(to, place, ephemeral, _) =>
      place !in w.Of(to.Other()).lost && Allowed(View(w), Deliver(to, place, ephemeral))
    case Crash(_) => true
  }

  /** Nothing happened unless it was written. */
  function CrashStep(w: CrashWorld, e: CrashEvent): CrashWorld
    requires May(w, e)
  {
    match e
    case Sending(side, plaintext, fate) =>
      var x := w.Of(side);
      var device := CrashSafety.Outcome(x.device, AfterEncrypt(x.device.Loaded()), fate, true);
      if fate.CrashedBeforeWrite? then w.With(side, x.(device := device), {})
      else
        var last := |x.log| - 1;
        var lost := if fate.CrashedAfterWrite? then {Place(last, |x.log[last].sent|)} else {};
        w.With(side, x.(device := device, log := Sends(Seen(x), plaintext).log, lost := x.lost + lost), {})
    case Delivery(to, place, ephemeral, fate) =>
      var x, m := w.Of(to), At(w.Of(to.Other()).log, place).message;
      var (s, r) := Decrypted(x.device.Loaded(), m, ephemeral);
      var device := CrashSafety.Outcome(x.device, s, fate, r.Ok?);
      if fate.CrashedBeforeWrite? then w.With(to, x.(device := device), {ephemeral})
      else
        var p := Receives(Seen(x), m, place, ephemeral);
        w.With(to, x.(device := device, log := p.log, received := p.received), {ephemeral})
    case Crash(side) =>
      var x := w.Of(side);
      w.With(side, x.(device := x.device.(memory := None)), {})
  }

  ghost predicate CrashReaches(w: CrashWorld, events: seq<CrashEvent>, w': CrashWorld)
    decreases |events|
  {
    if events == [] then w' == w
    else May(w, events[0]) && CrashReaches(CrashStep(w, events[0]), events[1..], w')
  }

  /** What the device has in memory, if anything, is what it has stored. */
  predicate Durable(d: Device) {
    d.Loaded() == FromJson(d.disk)
  }

  predicate BothDurable(w: CrashWorld) {
    Durable(w.a.device) && Durable(w.b.device)
  }

  /** The devices are durable, and what they would reload are sessions in step. */
  ghost predicate InStep(w: CrashWorld) {
    Synced(View(w)) && BothDurable(w)
  }

  /** A send that was not written is no send; one that was is one step of the devices. */
  lemma SendSeen(w: CrashWorld, side: Side, plaintext: Blob, fate: Fate)
    requires BothDurable(w) && May(w, Sending(side, plaintext, fate)) && w.Of(side).device.Loaded().dhSelf in w.used
    ensures var w' := CrashStep(w, Sending(side, plaintext, fate));
      BothDurable(w') && View(w') == if fate.CrashedBeforeWrite? then View(w) else Step(View(w), Send(side, plaintext))
  {
    assert w.used + {} == w.used == w.used + {w.Of(side).device.Loaded().dhSelf};
  }

  /** The same for a delivery, but that the generated key is used up. */
  lemma DeliverySeen(w: CrashWorld, to: Side, place: Place, ephemeral: PublicKey, fate: Fate)
    requires BothDurable(w) && May(w, Delivery(to, place, ephemeral, fate))
        && Outcome(View(w), to, place, ephemeral).Ok?
    ensures var w' := CrashStep(w, Delivery(to, place, ephemeral, fate));
      && BothDurable(w')
      && View(w') == if fate.CrashedBeforeWrite? then View(w).(used := w.used + {ephemeral})
                     else Step(View(w), Deliver(to, place, ephemeral))
  {
  }

  lemma SyncedWithMore(w: World, key: PublicKey)
    requires Synced(w)
    ensures Synced(w.(used := w.used + {key}))
  {
    WritesFrame(w.a, w.a, w.used, w.used + {key});
    WritesFrame(w.b, w.b, w.used, w.used + {key});
  }

  lemma SendInStep(w: CrashWorld, side: Side, plaintext: Blob, fate: Fate)
    requires InStep(w) && May(w, Sending(side, plaintext, fate))
    ensures InStep(CrashStep(w, Sending(side, plaintext, fate)))
  {
    SyncedOf(View(w), side);
    SendSeen(w, side, plaintext, fate);
    StepKeeps(View(w), Send(side, plaintext));
  }

  lemma DeliveryAgrees(w: World, to: Side, place: Place, ephemeral: PublicKey)
    requires Synced(w) && Allowed(w, Deliver(to, place, ephemeral))
    ensures Outcome(w, to, place, ephemeral) == Ok(At(w.Of(to.Other()).log, place).plaintext)
  {
    DeliverKeeps(w, to, place, ephemeral);
  }

  lemma DeliveryInStep(w: CrashWorld, to: Side, place: Place, ephemeral: PublicKey, fate: Fate)
    requires InStep(w) && May(w, Delivery(to, place, ephemeral, fate))
    ensures InStep(CrashStep(w, Delivery(to, place, ephemeral, fate)))
  {
    DeliveryAgrees(View(w), to, place, ephemeral);
    DeliverySeen(w, to, place, ephemeral, fate);
    StepKeeps(View(w), Deliver(to, place, ephemeral));
    SyncedWithMore(View(w), ephemeral);
  }

  lemma StepInStep(w: CrashWorld, e: CrashEvent)
    requires InStep(w) && May(w, e)
    ensures InStep(CrashStep(w, e))
  {
    match e
    case Sending(side, plaintext, fate) => SendInStep(w, side, plaintext, fate);
    case Delivery(to, place, ephemeral, fate) => DeliveryInStep(w, to, place, ephemeral, fate);
    case Crash(side) =>
      assert View(CrashStep(w, e)) == View(w).(used := w.used + {});
      assert w.used + {} == w.used;
  }

  lemma {:induction false} RunInStep(w: CrashWorld, events: seq<CrashEvent>, w': CrashWorld)
    requires InStep(w) && CrashReaches(w, events, w')
    ensures InStep(w')
    decreases |events|
  {
    if events != [] {
      StepInStep(w, events[0]);
      RunInStep(CrashStep(w, events[0]), events[1..], w');
    }
  }

  lemma StartInStep(bootstrap: Key, identityA: PublicKey, identityB: PublicKey)
    requires identityA != identityB
    ensures InStep(CrashStart(bootstrap, identityA, identityB))
  {
    StartSynced(bootstrap, identityA, identityB);
    assert View(CrashStart(bootstrap, identityA, identityB)) == Start(bootstrap, identityA, identityB);
  }

  /** Agreement survives restarts: after any run in which either device crashes at any point
      of any operation, or between them, every allowed delivery still gives exactly the
      plaintext encrypted.  A decrypt that crashed before its write is a delivery that did
      not happen, and may be repeated; an encrypt that crashed after it is a lost message. */
  lemma AgreementSurvivesCrashes(bootstrap: Key, identityA: PublicKey, identityB: PublicKey, events: seq<CrashEvent>,
                                 w: CrashWorld,
                                 to: Side, place: Place, ephemeral: PublicKey, fate: Fate)
    requires identityA != identityB
    requires CrashReaches(CrashStart(bootstrap, identityA, identityB), events, w)
    requires May(w, Delivery(to, place, ephemeral, fate))
    ensures var m := At(w.Of(to.Other()).log, place);
      Decrypted(w.Of(to).device.Loaded(), m.message, ephemeral).1 == Ok(m.plaintext)
  {
    StartInStep(bootstrap, identityA, identityB);
    RunInStep(CrashStart(bootstrap, identityA, identityB), events, w);
    DeliveryAgrees(View(w), to, place, ephemeral);
  }
}
