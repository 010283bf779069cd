/** The signalling state machine of calls (client/lib/core/calls/call_controller.dart).
    Handlers run to completion; media and connections are reduced to whether they succeed. */
module Calls {
  import opened Wrappers

  datatype CallState = Idle | OutgoingRinging | IncomingRinging | Connecting | Active

  datatype Signal = GroupAnnounce | Offer(group: bool) | Answer | Ice | MuteState | Hangup

  datatype Packet = Packet(conversation: string, sender: string, to: string, signal: Signal)

  datatype IncomingCall = IncomingCall(conversation: string, sender: string, isGroup: bool)

  /** `legs` are the peers in order of insertion; `stream` says whether local media is held. */
  datatype Call = Call(
    state: CallState, legs: seq<string>, stream: bool, conversation: Option<string>, group: Option<string>,
    isGroup: bool, me: Option<string>, groups: map<string, string>)

  /** A handler's effect: the new state, the signals it sent, and whether it threw. */
  datatype Effect = Effect(call: Call, sent: seq<Packet>, threw: bool)

  /** The peers a signal can be encrypted to at this moment, and those a peer connection can
      be created for. */
  datatype Reach = Reach(known: set<string>, connects: set<string>)

  datatype Party = Party(id: string, reach: Reach)

  const FRESH_CALL := Call(Idle, [], false, None, None, false, None, map[])

  /** String comparison by code units. */
  predicate Less(a: string, b: string) {
    b != "" && (a == "" || a[0] < b[0] || (a[0] == b[0] && Less(a[1..], b[1..])))
  }

  lemma {:induction false} LessIsAsymmetric(a: string, b: string)
    ensures Less(a, b) ==> !Less(b, a)
  {
    if a != "" && b != "" {
      LessIsAsymmetric(a[1..], b[1..]);
    }
  }

  lemma {:induction false} LessIsTotal(a: string, b: string)
    ensures a == b || Less(a, b) || Less(b, a)
  {
    if a != "" && b != "" {
      LessIsTotal(a[1..], b[1..]);
      assert a == [a[0]] + a[1..] && b == [b[0]] + b[1..];
    }
  }

  // ---- The handlers as functions ----

  function WithLeg(c: Call, peer: string): Call {
    if peer in c.legs then c else c.(legs := c.legs + [peer])
  }

  function Dropped(legs: seq<string>, peer: string): seq<string> {
    if legs == [] then []
    else (if legs[0] == peer then [] else [legs[0]]) + Dropped(legs[1..], peer)
  }

  lemma DroppedFrom(legs: seq<string>, i: nat, peer: string, rest: seq<string>)
    requires i < |legs|
    ensures rest + Dropped(legs[i..], peer)
         == (if legs[i] == peer then rest else rest + [legs[i]]) + Dropped(legs[i + 1..], peer)
  {
    assert legs[i..][1..] == legs[i + 1..];
  }

  function Reset(c: Call): Call {
    FRESH_CALL.(groups := c.groups)
  }

  /** Sending fails without a conversation, in a group call without the group's id, and to
      a peer there is no session with. */
  predicate CanSend(c: Call, self: Party, peer: string) {
    c.conversation.Some? && (c.isGroup ==> c.group.Some?) && peer in self.reach.known
  }

  /** One signal, after which the handler goes on with state `c`, or throws. */
  function SentTo(c: Call, self: Party, peer: string, signal: Signal): Effect {
    if CanSend(c, self, peer) then Effect(c, [Packet(c.conversation.value, self.id, peer, signal)], false)
    else Effect(c, [], true)
  }

  /** The same signal to one peer after the other, until sending throws. */
  function ToAll(c: Call, self: Party, peers: seq<string>, signal: Signal): Effect {
    if peers == [] then Effect(c, [], false)
    else
      var before := ToAll(c, self, peers[..|peers| - 1], signal);
      if before.threw then before
      else
        var now := SentTo(c, self, peers[|peers| - 1], signal);
        Effect(c, before.sent + now.sent, now.threw)
  }

  /** One group offer, unless there is a leg already or no local media; the leg is in the
      table once its connection could be created. */
  function OfferedTo(c: Call, self: Party, peer: string): Effect {
    if peer in c.legs || !c.stream then Effect(c, [], false)
    else if peer !in self.reach.connects then Effect(c, [], true)
    else SentTo(WithLeg(c, peer), self, peer, Offer(true))
  }

  /** Group offers to those of `others` with larger ids, in turn, until sending throws. */
  function OfferedToLarger(c: Call, self: Party, others: seq<string>): Effect {
    if others == [] then Effect(c, [], false)
    else
      var before := OfferedToLarger(c, self, others[..|others| - 1]);
      var other := others[|others| - 1];
      if before.threw || !Less(self.id, other) then before
      else
        var now := OfferedTo(before.call, self, other);
        Effect(now.call, before.sent + now.sent, now.threw)
  }

  function Joining(c: Call, conversation: string, group: string, me: string): Call {
    c.(conversation := Some(conversation), group := Some(group), me := Some(me), isGroup := true, state := Connecting)
  }

  /** Announces to all, then offers to the larger ids; without media it stays connecting. */
  function Announced(c: Call, self: Party, others: seq<string>, media: bool): Effect {
    if !media then Effect(c, [], true)
    else
      var announces := ToAll(c.(stream := true, state := Active), self, others, GroupAnnounce);
      if announces.threw then announces
      else
        var offers := OfferedToLarger(announces.call, self, others);
        Effect(offers.call, announces.sent + offers.sent, offers.threw)
  }

  function JoinedGroupCall(c: Call, self: Party, conversation: string, group: string, others: seq<string>,
                           media: bool): Effect {
    Announced(Joining(c, conversation, group, self.id).(groups := c.groups[conversation := group]), self, others, media)
  }

  /** Any failure, of media, connection or sending, resets everything. */
  function StartedCall(c: Call, self: Party, conversation: string, peer: string, media: bool): Effect {
    var ringing := c.(conversation := Some(conversation), isGroup := false, state := OutgoingRinging, stream := true);
    var r := SentTo(WithLeg(ringing, peer), self, peer, Offer(false));
    if !media || peer !in self.reach.connects || r.threw then Effect(Reset(c), [], true) else r
  }

  /** `members` is the answer to the member query, none when it failed. */
  function AcceptedCall(c: Call, self: Party, call: IncomingCall, members: Option<seq<string>>, media: bool): Effect {
    var here := c.(conversation := Some(call.conversation));
    if call.isGroup && call.sender !in c.legs then
      if call.conversation !in c.groups then Effect(here, [], true)
      else
        var others := if members.Some? then Dropped(members.value, self.id) else [call.sender];
        Announced(Joining(here, call.conversation, c.groups[call.conversation], self.id), self, others, media)
    else
      var ready := here.(isGroup := call.isGroup, state := Connecting, stream := true);
      var r := SentTo(ready, self, call.sender, Answer);
      if !media then Effect(Reset(c), [], true)
      else if call.sender !in c.legs then Effect(ready, [], false)
      else if r.threw then Effect(Reset(c), [], true)
      else r.(call := ready.(state := Active))
  }

  function DeclinedCall(c: Call, self: Party, call: IncomingCall): Effect {
    var r := SentTo(c.(conversation := Some(call.conversation)), self, call.sender, Hangup);
    if r.threw then r
    else
      var rest := r.call.(legs := Dropped(c.legs, call.sender));
      r.(call := if rest.legs == [] then Reset(rest) else rest)
  }

  function HungUp(c: Call, self: Party): Effect {
    if c.conversation.None? then Effect(Reset(c), [], false)
    else
      var r := ToAll(c, self, c.legs, Hangup);
      if r.threw then r else r.(call := Reset(c))
  }

  function LegFailed(c: Call, peer: string): Call {
    var rest := c.(legs := Dropped(c.legs, peer));
    if !rest.isGroup && rest.legs == [] then Reset(rest) else rest
  }

  /** An offer of another conversation than the present one is dropped; so is a direct offer
      while there is none but the controller is not idle. */
  predicate DropsOffer(c: Call, p: Packet, group: bool) {
    || (c.conversation.Some? && c.conversation != Some(p.conversation))
    || (!group && c.state != Idle && c.conversation != Some(p.conversation))
  }

  function TookOffer(c: Call, self: Party, p: Packet, group: bool, described: bool): Effect {
    if DropsOffer(c, p, group) then Effect(c, [], false)
    else
      var known := if group && p.conversation in c.groups then Some(c.groups[p.conversation]) else c.group;
      var taken := c.(conversation := Some(p.conversation), isGroup := group || c.isGroup, group := known);
      var here := WithLeg(taken, p.sender);
      if p.sender !in self.reach.connects then Effect(taken, [], true)
      else if !described then Effect(here, [], true)
      else if !here.stream then Effect(here.(state := IncomingRinging), [], false)
      else
        var r := SentTo(here, self, p.sender, Answer);
        if r.threw then r else r.(call := here.(state := Active))
  }

  /** `described` says whether the peer's session description could be applied. */
  function Signalled(c: Call, self: Party, p: Packet, described: bool): Effect {
    Handled(if p.conversation in c.groups && c.me.None? then c.(me := Some(self.id)) else c, self, p, described)
  }

  function Handled(c: Call, self: Party, p: Packet, described: bool): Effect {
    match p.signal
    case GroupAnnounce =>
      if c.conversation != Some(p.conversation) || c.state == Idle then Effect(c, [], false)
      else if c.me.Some? && Less(c.me.value, p.sender) then OfferedTo(c, self, p.sender)
      else Effect(c, [], false)
    case Offer(group) => TookOffer(c, self, p, group, described)
    case Answer =>
      if p.sender in c.legs && !described then Effect(c, [], true) else Effect(c.(state := Active), [], false)
    case Hangup =>
      var rest := c.(legs := Dropped(c.legs, p.sender));
      Effect(if !rest.isGroup || rest.legs == [] then Reset(rest) else rest, [], false)
    case _ => Effect(c, [], false)
  }

  // ---- Runs ----

  datatype Event =
    | RegisterGroup(conversation: string, group: string)
    | JoinGroupCall(conversation: string, group: string, others: seq<string>, media: bool)
    | StartCall(conversation: string, peer: string, media: bool)
    | AcceptCall(call: IncomingCall, members: Option<seq<string>>, media: bool)
    | DeclineCall(call: IncomingCall)
    | HangUp
    | Receive(packet: Packet, described: bool)
    | LegUp(peer: string)
    | LegDown(peer: string)

  function Next(c: Call, self: Party, e: Event): Effect {
    match e
    case RegisterGroup(conversation, group) => Effect(c.(groups := c.groups[conversation := group]), [], false)
    case JoinGroupCall(conversation, group, others, media) =>
      JoinedGroupCall(c, self, conversation, group, others, media)
    case StartCall(conversation, peer, media) => StartedCall(c, self, conversation, peer, media)
    case AcceptCall(call, members, media) => AcceptedCall(c, self, call, members, media)
    case DeclineCall(call) => DeclinedCall(c, self, call)
    case HangUp => HungUp(c, self)
    case Receive(packet, described) => Signalled(c, self, packet, described)
    case LegUp(peer) => Effect(c.(state := Active), [], false)
    case LegDown(peer) => Effect(LegFailed(c, peer), [], false)
  }

  /** Any number of parties, each with its own controller; every party may receive anything. */
  datatype Move = Move(party: Party, event: Event)

  datatype World = World(calls: map<string, Call>, sent: seq<Packet>)

  function CallOf(w: World, party: string): Call {
    if party in w.calls then w.calls[party] else FRESH_CALL
  }

  function After(moves: seq<Move>): World {
    if moves == [] then World(map[], [])
    else
      var w, m := After(moves[..|moves| - 1]), moves[|moves| - 1];
      var r := Next(CallOf(w, m.party.id), m.party, m.event);
      World(w.calls[m.party.id := r.call], w.sent + r.sent)
  }

  // ---- What every step keeps ----

  predicate KnowsItself(c: Call, self: string) {
    c.me.Some? ==> c.me.value == self
  }

  predicate Clean(c: Call) {
    c.state == Idle ==> c.legs == [] && !c.stream
  }

  /** Every group offer among these goes to a larger id which had no leg before, has one
      after, and gets no second offer. */
  ghost predicate OffersSound(self: Party, before: Call, r: Effect) {
    && (forall p <- r.sent :: p.sender == self.id)
    && (forall p <- r.sent :: p.signal == Offer(true) ==>
        Less(self.id, p.to) && p.to !in before.legs && p.to in r.call.legs)
    && (forall i, j :: 0 <= i < j < |r.sent| && r.sent[i].signal == r.sent[j].signal == Offer(true) ==>
        r.sent[i].to != r.sent[j].to)
  }

  lemma {:induction false} LargerOffersSound(c: Call, self: Party, others: seq<string>)
    ensures var r := OfferedToLarger(c, self, others);
      && OffersSound(self, c, r)
      && (forall leg <- c.legs :: leg in r.call.legs)
      && r.call == c.(legs := r.call.legs)
      && (forall p <- r.sent :: p.signal == Offer(true))
  {
    if others != [] {
      LargerOffersSound(c, self, others[..|others| - 1]);
    }
  }

  lemma {:induction false} ToAllSound(c: Call, self: Party, peers: seq<string>, signal: Signal)
    ensures var r := ToAll(c, self, peers, signal);
      r.call == c && forall p <- r.sent :: p.signal == signal && p.sender == self.id
  {
    if peers != [] {
      ToAllSound(c, self, peers[..|peers| - 1], signal);
    }
  }

  /** Joining and accepting change nothing but what `Announced` names, and offer soundly. */
  lemma AnnouncedSound(c: Call, self: Party, others: seq<string>, media: bool)
    ensures var r := Announced(c, self, others, media);
      && OffersSound(self, c, r)
      && r.call == (if media then c.(stream := true, state := Active, legs := r.call.legs) else c)
  {
    if media {
      var live := c.(stream := true, state := Active);
      ToAllSound(live, self, others, GroupAnnounce);
      LargerOffersSound(live, self, others);
    }
  }

  lemma JoinSound(c: Call, self: Party, conversation: string, group: string, others: seq<string>, media: bool)
    ensures var r := JoinedGroupCall(c, self, conversation, group, others, media);
      OffersSound(self, c, r) && r.call.me == Some(self.id) && Clean(r.call)
  {
    AnnouncedSound(Joining(c, conversation, group, self.id).(groups := c.groups[conversation := group]), self, others,
        media);
  }

  lemma AcceptSound(c: Call, self: Party, call: IncomingCall, members: Option<seq<string>>, media: bool)
    requires KnowsItself(c, self.id)
    ensures var r := AcceptedCall(c, self, call, members, media);
      OffersSound(self, c, r) && KnowsItself(r.call, self.id) && (Clean(c) ==> Clean(r.call))
  {
    if call.isGroup && call.sender !in c.legs && call.conversation in c.groups {
      var others := if members.Some? then Dropped(members.value, self.id) else [call.sender];
      var here := c.(conversation := Some(call.conversation));
      AnnouncedSound(Joining(here, call.conversation, c.groups[call.conversation], self.id), self, others, media);
    }
  }

  lemma OfferSound(c: Call, self: Party, peer: string)
    requires Less(self.id, peer)
    ensures var r := OfferedTo(c, self, peer);
      OffersSound(self, c, r) && r.call.me == c.me
  {
  }

  lemma SignalSound(c: Call, self: Party, p: Packet, described: bool)
    requires KnowsItself(c, self.id)
    ensures var r := Signalled(c, self, p, described);
      OffersSound(self, c, r) && KnowsItself(r.call, self.id)
  {
    HandledSound(if p.conversation in c.groups && c.me.None? then c.(me := Some(self.id)) else c, self, p, described);
  }

  lemma HandledSound(c: Call, self: Party, p: Packet, described: bool)
    requires KnowsItself(c, self.id)
    ensures var r := Handled(c, self, p, described);
      OffersSound(self, c, r) && KnowsItself(r.call, self.id)
  {
    if p.signal.GroupAnnounce? && Less(self.id, p.sender) {
      OfferSound(c, self, p.sender);
    }
  }

  lemma StepOffers(c: Call, self: Party, e: Event)
    requires KnowsItself(c, self.id)
    ensures OffersSound(self, c, Next(c, self, e)) && KnowsItself(Next(c, self, e).call, self.id)
  {
    if e.JoinGroupCall? {
      JoinSound(c, self, e.conversation, e.group, e.others, e.media);
    } else if e.AcceptCall? {
      AcceptSound(c, self, e.call, e.members, e.media);
    } else if e.HangUp? {
      ToAllSound(c, self, c.legs, Hangup);
    } else if e.Receive? {
      SignalSound(c, self, e.packet, e.described);
    }
  }

  ghost predicate WorldSound(w: World) {
    && (forall party <- w.calls :: KnowsItself(w.calls[party], party))
    && (forall p <- w.sent :: p.signal == Offer(true) ==> Less(p.sender, p.to))
  }

  lemma {:induction false} RunSound(moves: seq<Move>)
    ensures WorldSound(After(moves))
  {
    if moves != [] {
      RunSound(moves[..|moves| - 1]);
      var w, m := After(moves[..|moves| - 1]), moves[|moves| - 1];
      StepOffers(CallOf(w, m.party.id), m.party, m.event);
    }
  }

  /** No glare: whatever any number of parties do and receive, group offers go only from the
      smaller to the larger id, so no two were ever sent across each other. */
  lemma NoGlare(moves: seq<Move>, p: Packet, q: Packet)
    requires p in After(moves).sent && p.signal == Offer(true)
    requires q in After(moves).sent && q.signal == Offer(true)
    ensures Less(p.sender, p.to)
    ensures !(p.sender == q.to && p.to == q.sender)
  {
    RunSound(moves);
    LessIsAsymmetric(p.sender, p.to);
  }

  /** Whether a step of this party sends a group offer to this peer. */
  predicate OffersTo(moves: seq<Move>, k: nat, id: string, peer: string)
    requires k < |moves|
  {
    && moves[k].party.id == id
    && exists p <- Next(CallOf(After(moves[..k]), id), moves[k].party, moves[k].event).sent ::
         p.to == peer && p.signal == Offer(true)
  }

  /** For every moment of a run, whether the party has a leg to the peer. */
  function LegHistory(moves: seq<Move>, id: string, peer: string): (r: seq<bool>)
    ensures |r| == |moves| + 1
  {
    seq(|moves| + 1, k requires 0 <= k <= |moves| => peer in CallOf(After(moves[..k]), id).legs)
  }

  /** A party offers to a peer only when it has no leg to it, at most once in a step, and has
      one afterwards. */
  lemma OffersAddLegs(moves: seq<Move>, k: nat, id: string, peer: string)
    requires k < |moves| && OffersTo(moves, k, id, peer)
    ensures !LegHistory(moves, id, peer)[k] && LegHistory(moves, id, peer)[k + 1]
    ensures var sent := Next(CallOf(After(moves[..k]), id), moves[k].party, moves[k].event).sent;
      forall i, j :: 0 <= i < j < |sent| && sent[i].signal == sent[j].signal == Offer(true) ==> sent[i].to != sent[j].to
  {
    RunSound(moves[..k]);
    StepOffers(CallOf(After(moves[..k]), id), moves[k].party, moves[k].event);
    assert moves[..k + 1][..k] == moves[..k];
  }

  /** A flag that is set first and not set later falls somewhere in between. */
  lemma {:induction false} Falls(flags: seq<bool>, i: nat, j: nat) returns (k: nat)
    requires i <= j < |flags| && flags[i] && !flags[j]
    ensures i <= k < j && flags[k] && !flags[k + 1]
    decreases j - i
  {
    if flags[i + 1] {
      k := Falls(flags, i + 1, j);
    } else {
      k := i;
    }
  }

  /** Never again while a leg exists: in every run, between two offers of a party to a peer
      some step took the leg away. */
  lemma NoReoffer(moves: seq<Move>, i: nat, j: nat, id: string, peer: string) returns (k: nat)
    requires i < j < |moves| && OffersTo(moves, i, id, peer) && OffersTo(moves, j, id, peer)
    ensures var legs := LegHistory(moves, id, peer); i < k < j && legs[k] && !legs[k + 1]
  {
    OffersAddLegs(moves, i, id, peer);
    OffersAddLegs(moves, j, id, peer);
    k := Falls(LegHistory(moves, id, peer), i + 1, j);
  }

  // ---- Idle means idle ----

  /** An offer whose description cannot be applied, taken while idle: the leg is already in
      the table when the handler gives up. */
  predicate LeavesLeg(c: Call, self: Party, e: Event) {
    && c.state == Idle
    && e.Receive? && e.packet.signal.Offer? && !e.described && e.packet.sender in self.reach.connects
    && (c.conversation.None? || c.conversation == Some(e.packet.conversation))
  }

  /** An idle controller holds no legs and no local media, exactly as long as no step is of
      that one kind. */
  lemma CleanExactly(c: Call, self: Party, e: Event)
    requires Clean(c) && KnowsItself(c, self.id)
    ensures Clean(Next(c, self, e).call) <==> !LeavesLeg(c, self, e)
  {
    if e.JoinGroupCall? {
      JoinSound(c, self, e.conversation, e.group, e.others, e.media);
    } else if e.AcceptCall? {
      AcceptSound(c, self, e.call, e.members, e.media);
    } else if e.HangUp? {
      ToAllSound(c, self, c.legs, Hangup);
    } else if e.Receive? {
      SignalCleanExactly(c, self, e.packet, e.described);
    }
  }

  lemma SignalCleanExactly(c: Call, self: Party, p: Packet, described: bool)
    requires Clean(c)
    ensures Clean(Signalled(c, self, p, described).call) <==> !LeavesLeg(c, self, Receive(p, described))
  {
    var named := if p.conversation in c.groups && c.me.None? then c.(me := Some(self.id)) else c;
    HandledCleanExactly(named, self, p, described);
  }

  lemma HandledCleanExactly(c: Call, self: Party, p: Packet, described: bool)
    requires Clean(c)
    ensures Clean(Handled(c, self, p, described).call) <==> !LeavesLeg(c, self, Receive(p, described))
  {
    if p.signal.Offer? {
      assert p.sender in WithLeg(c, p.sender).legs;
    }
  }

  /** No step of the run is of that kind. */
  predicate NoLegLeft(moves: seq<Move>) {
    forall k :: 0 <= k < |moves| ==>
      !LeavesLeg(CallOf(After(moves[..k]), moves[k].party.id), moves[k].party, moves[k].event)
  }

  lemma {:induction false} IdleIsClean(moves: seq<Move>, id: string)
    requires NoLegLeft(moves)
    ensures Clean(CallOf(After(moves), id))
  {
    if moves != [] {
      var k := |moves| - 1;
      var before, m := moves[..k], moves[k];
      assert forall n :: 0 <= n < k ==> before[..n] == moves[..n];
      IdleIsClean(before, id);
      IdleIsClean(before, m.party.id);
      RunSound(before);
      CleanExactly(CallOf(After(before), m.party.id), m.party, m.event);
    }
  }

  /** The property does fail: one offer with a bad description leaves an idle party a leg. */
  lemma IdleWithALeg(party: Party, packet: Packet)
    requires packet.signal.Offer? && packet.sender in party.reach.connects
    ensures var c := CallOf(After([Move(party, Receive(packet, false))]), party.id);
      c.state == Idle && c.legs == [packet.sender]
  {
    var moves := [Move(party, Receive(packet, false))];
    assert moves[..0] == [] && After([]) == World(map[], []);
  }

  // ---- The controller ----

  class CallController {
    const self: string
    var state: CallState
    var peers: seq<string>
    var localStream: bool
    var conversationId: Option<string>
    var groupId: Option<string>
    var isGroup: bool
    var myUserId: Option<string>
    var groupIds: map<string, string>
    var wire: seq<Packet>

    function View(): Call
      reads this
    {
      Call(state, peers, localStream, conversationId, groupId, isGroup, myUserId, groupIds)
    }

    /** The handler did exactly this. */
    twostate predicate Did(r: Effect, threw: bool)
      reads this
    {
      View() == r.call && wire == old(wire) + r.sent && threw == r.threw
    }

    constructor (self: string)
      ensures this.self == self && View() == FRESH_CALL && wire == []
    {
      this.self := self;
      state, peers, localStream, conversationId, groupId := Idle, [], false, None, None;
      isGroup, myUserId, groupIds, wire := false, None, map[], [];
    }

    method ResetAll()
      modifies this
      ensures View() == Reset(old(View())) && wire == old(wire)
    {
      peers := [];
      localStream := false;
      conversationId, groupId, myUserId := None, None, None;
      isGroup := false;
      state := Idle;
    }

    method SendSignalTo(peer: string, signal: Signal, reach: Reach) returns (threw: bool)
      modifies this`wire
      ensures Did(SentTo(old(View()), Party(self, reach), peer, signal), threw)
    {
      if conversationId.None? || (isGroup && groupId.None?) || peer !in reach.known { return true; }
      wire := wire + [Packet(conversationId.value, self, peer, signal)];
      return false;
    }

    method SendToAll(to: seq<string>, signal: Signal, reach: Reach) returns (threw: bool)
      modifies this`wire
      ensures Did(ToAll(old(View()), Party(self, reach), to, signal), threw)
    {
      ghost var c, me := View(), Party(self, reach);
      var i := 0;
      threw := false;
      while i < |to|
        invariant i <= |to| && !threw && !ToAll(c, me, to[..i], signal).threw
        invariant wire == old(wire) + ToAll(c, me, to[..i], signal).sent
      {
        assert to[..i + 1][..i] == to[..i];
        threw := SendSignalTo(to[i], signal, reach);
        if threw {
          ToAllStops(c, me, to, i, signal);
          return;
        }
        i := i + 1;
      }
      assert to[..i] == to;
      ToAllSound(c, me, to, signal);
    }

    /** What was sent when sending threw is all that is sent. */
    static lemma {:induction false} ToAllStops(c: Call, self: Party, to: seq<string>, i: nat, signal: Signal)
      requires i < |to| && !ToAll(c, self, to[..i], signal).threw && !CanSend(c, self, to[i])
      ensures ToAll(c, self, to, signal) == Effect(c, ToAll(c, self, to[..i], signal).sent, true)
      decreases |to|
    {
      var last := |to| - 1;
      if i < last {
        assert to[..last][..i] == to[..i];
        ToAllStops(c, self, to[..last], i, signal);
      } else {
        assert ToAll(c, self, to[..i], signal).sent + [] == ToAll(c, self, to[..i], signal).sent;
      }
    }

    method AddPeer(peer: string)
      modifies this`peers
      ensures View() == WithLeg(old(View()), peer)
    {
      if peer !in peers { peers := peers + [peer]; }
    }

    method RemovePeer(peer: string)
      modifies this`peers
      ensures View() == old(View()).(legs := Dropped(old(peers), peer))
    {
      var rest, i := [], 0;
      assert peers[0..] == peers && [] + Dropped(peers, peer) == Dropped(peers, peer);
      while i < |peers|
        invariant 0 <= i <= |peers| && peers == old(peers)
        invariant rest + Dropped(peers[i..], peer) == Dropped(peers, peer)
      {
        DroppedFrom(peers, i, peer, rest);
        if peers[i] != peer { rest := rest + [peers[i]]; }
        i := i + 1;
      }
      assert peers[i..] == [] && rest + [] == rest;
      peers := rest;
    }

    method OfferTo(peer: string, reach: Reach) returns (threw: bool)
      modifies this`peers, this`wire
      ensures Did(OfferedTo(old(View()), Party(self, reach), peer), threw)
    {
      if peer in peers || !localStream { return false; }
      if peer !in reach.connects { return true; }
      AddPeer(peer);
      threw := SendSignalTo(peer, Offer(true), reach);
    }

    /** Offers to the larger ids in turn, until one throws. */
    method OfferToLarger(others: seq<string>, reach: Reach) returns (threw: bool)
      modifies this`peers, this`wire
      ensures Did(OfferedToLarger(old(View()), Party(self, reach), others), threw)
    {
      ghost var live, me := View(), Party(self, reach);
      var i := 0;
      threw := false;
      while i < |others|
        invariant i <= |others|
        invariant var r := OfferedToLarger(live, me, others[..i]);
          View() == r.call && wire == old(wire) + r.sent && threw == r.threw
      {
        assert others[..i + 1][..i] == others[..i];
        if !threw && Less(self, others[i]) { threw := OfferTo(others[i], reach); }
        i := i + 1;
      }
      assert others[..i] == others;
    }

    /** The common end of joining and of accepting an announced call. */
    method AnnounceAndOffer(others: seq<string>, media: bool, reach: Reach) returns (threw: bool)
      modifies this
      ensures Did(Announced(old(View()), Party(self, reach), others, media), threw)
    {
      if !media { return true; }
      localStream := true;
      state := Active;
      ToAllSound(View(), Party(self, reach), others, GroupAnnounce);
      threw := SendToAll(others, GroupAnnounce, reach);
      if threw { return; }
      threw := OfferToLarger(others, reach);
    }

    method JoinGroupCall(conversation: string, group: string, others: seq<string>, media: bool, reach: Reach)
      returns (threw: bool)
      modifies this
      ensures Did(JoinedGroupCall(old(View()), Party(self, reach), conversation, group, others, media), threw)
    {
      conversationId, groupId := Some(conversation), Some(group);
      groupIds := groupIds[conversation := group];
      myUserId := Some(self);
      isGroup := true;
      state := Connecting;
      threw := AnnounceAndOffer(others, media, reach);
    }

    method StartCall(conversation: string, peer: string, media: bool, reach: Reach) returns (threw: bool)
      modifies this
      ensures Did(StartedCall(old(View()), Party(self, reach), conversation, peer, media), threw)
    {
      conversationId := Some(conversation);
      isGroup := false;
      state := OutgoingRinging;
      if !media || peer !in reach.connects { ResetAll(); return true; }
      localStream := true;
      AddPeer(peer);
      threw := SendSignalTo(peer, Offer(false), reach);
      if threw { ResetAll(); }
    }

    method AcceptCall(call: IncomingCall, members: Option<seq<string>>, media: bool, reach: Reach)
      returns (threw: bool)
      modifies this
      ensures Did(AcceptedCall(old(View()), Party(self, reach), call, members, media), threw)
    {
      if call.isGroup && call.sender !in peers {
        conversationId := Some(call.conversation);
        if call.conversation !in groupIds { return true; }
        groupId := Some(groupIds[call.conversation]);
        myUserId := Some(self);
        isGroup := true;
        state := Connecting;
        threw := AnnounceAndOffer(if members.Some? then Dropped(members.value, self) else [call.sender], media, reach);
        return;
      }
      conversationId := Some(call.conversation);
      isGroup := call.isGroup;
      state := Connecting;
      if !media { ResetAll(); return true; }
      localStream := true;
      if call.sender !in peers { return false; }
      threw := SendSignalTo(call.sender, Answer, reach);
      if threw { ResetAll(); return; }
      state := Active;
    }

    method DeclineCall(call: IncomingCall, reach: Reach) returns (threw: bool)
      modifies this
      ensures Did(DeclinedCall(old(View()), Party(self, reach), call), threw)
    {
      conversationId := Some(call.conversation);
      threw := SendSignalTo(call.sender, Hangup, reach);
      if threw { return; }
      RemovePeer(call.sender);
      if peers == [] { ResetAll(); }
    }

    method HangUp(reach: Reach) returns (threw: bool)
      modifies this
      ensures Did(HungUp(old(View()), Party(self, reach)), threw)
    {
      if conversationId.Some? {
        ToAllSound(View(), Party(self, reach), peers, Hangup);
        threw := SendToAll(peers, Hangup, reach);
        if threw { return; }
      }
      ResetAll();
      return false;
    }

    method OnConnectionState(peer: string, connected: bool)
      modifies this
      ensures wire == old(wire)
      ensures View() == if connected then old(View()).(state := Active) else LegFailed(old(View()), peer)
    {
      if connected { state := Active; return; }
      RemovePeer(peer);
      if !isGroup && peers == [] { ResetAll(); }
    }

    method HandleSignal(p: Packet, described: bool, reach: Reach) returns (threw: bool)
      modifies this
      ensures Did(Signalled(old(View()), Party(self, reach), p, described), threw)
    {
      if p.conversation in groupIds && myUserId.None? { myUserId := Some(self); }
      threw := HandleNamed(p, described, reach);
    }

    method HandleNamed(p: Packet, described: bool, reach: Reach) returns (threw: bool)
      modifies this
      ensures Did(Handled(old(View()), Party(self, reach), p, described), threw)
    {
      threw := false;
      match p.signal
      case GroupAnnounce =>
        if conversationId != Some(p.conversation) || state == Idle { return; }
        if myUserId.Some? && Less(myUserId.value, p.sender) { threw := OfferTo(p.sender, reach); }
      case Offer(group) => threw := HandleOffer(p, described, reach);
      case Answer =>
        if p.sender in peers && !described { return true; }
        state := Active;
      case Hangup =>
        RemovePeer(p.sender);
        if !isGroup || peers == [] { ResetAll(); }
      case _ =>
    }

    method HandleOffer(p: Packet, described: bool, reach: Reach) returns (threw: bool)
      requires p.signal.Offer?
      modifies this
      ensures Did(TookOffer(old(View()), Party(self, reach), p, p.signal.group, described), threw)
    {
      threw := false;
      if conversationId.Some? && conversationId != Some(p.conversation) { return; }
      if !p.signal.group && state != Idle && conversationId != Some(p.conversation) { return; }
      conversationId := Some(p.conversation);
      isGroup := p.signal.group || isGroup;
      if p.signal.group && p.conversation in groupIds { groupId := Some(groupIds[p.conversation]); }
      if p.sender !in reach.connects { return true; }
      AddPeer(p.sender);
      if !described { return true; }
      if localStream {
        threw := SendSignalTo(p.sender, Answer, reach);
        if !threw { state := Active; }
      } else {
        state := IncomingRinging;
      }
    }
  }
}
