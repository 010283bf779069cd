/** What the handlers of several parties add up to (client/lib/core/calls/call_controller.dart):
    who is announced and offered to, and that calls connect and end on both sides. */
module CallScenarios {
  import opened Wrappers
  import opened Calls

  // ---- Sending to many ----

  /** One signal to each peer in turn, up to the first it cannot be encrypted to. */
  predicate InTurn(c: Call, self: Party, peers: seq<string>, signal: Signal, r: Effect) {
    var n := |r.sent|;
    && r.call == c && n <= |peers|
    && (r.threw <==> n < |peers|)
    && (n > 0 ==> c.conversation.Some? && (c.isGroup ==> c.group.Some?))
    && (forall i :: 0 <= i < n ==>
          peers[i] in self.reach.known && r.sent[i] == Packet(c.conversation.value, self.id, peers[i], signal))
    && (n < |peers| ==> c.conversation.None? || (c.isGroup && c.group.None?) || peers[n] !in self.reach.known)
  }

  lemma {:induction false} ToAllExactly(c: Call, self: Party, peers: seq<string>, signal: Signal)
    ensures InTurn(c, self, peers, signal, ToAll(c, self, peers, signal))
  {
    if peers != [] {
      ToAllExactly(c, self, peers[..|peers| - 1], signal);
      OneMoreInTurn(c, self, peers, signal, ToAll(c, self, peers[..|peers| - 1], signal));
    }
  }

  lemma OneMoreInTurn(c: Call, self: Party, peers: seq<string>, signal: Signal, before: Effect)
    requires peers != [] && InTurn(c, self, peers[..|peers| - 1], signal, before)
    ensures var now := SentTo(c, self, peers[|peers| - 1], signal);
      InTurn(c, self, peers, signal, if before.threw then before else Effect(c, before.sent + now.sent, now.threw))
  {
    var last := |peers| - 1;
    assert forall i :: 0 <= i < last ==> peers[..last][i] == peers[i];
  }

  /** Everybody can be reached in the call the party is in. */
  predicate CanReach(c: Call, self: Party, peers: seq<string>) {
    c.conversation.Some? && (c.isGroup ==> c.group.Some?) && forall o <- peers :: o in self.reach.known
  }

  lemma {:induction false} ToAllCounts(c: Call, self: Party, peers: seq<string>, signal: Signal, p: Packet)
    requires CanReach(c, self, peers)
    ensures var r := ToAll(c, self, peers, signal);
      && r.call == c && !r.threw
      && multiset(r.sent)[p]
         == if p == Packet(c.conversation.value, self.id, p.to, signal) then multiset(peers)[p.to] else 0
  {
    if peers != [] {
      var before := peers[..|peers| - 1];
      assert peers == before + [peers[|peers| - 1]];
      ToAllCounts(c, self, before, signal, p);
    }
  }

  /** Every larger id without a leg gets one offer and a leg, though it be listed twice. */
  lemma {:induction false} OfferCounts(c: Call, self: Party, others: seq<string>, p: Packet, o: string)
    requires c.stream && CanReach(c, self, others) && forall o <- others :: o in self.reach.connects
    ensures var r := OfferedToLarger(c, self, others);
      && !r.threw && r.call == c.(legs := r.call.legs)
      && (o in r.call.legs <==> o in c.legs || (o in others && Less(self.id, o)))
      && multiset(r.sent)[p]
         == if p == Packet(c.conversation.value, self.id, p.to, Offer(true)) && p.to in others && Less(self.id, p.to)
               && p.to !in c.legs then 1 else 0
  {
    if others != [] {
      var before, last := others[..|others| - 1], others[|others| - 1];
      assert others == before + [last];
      OfferCounts(c, self, before, p, o);
      OfferCounts(c, self, before, p, last);
      OfferCounts(c, self, before, p, p.to);
    }
  }

  lemma {:induction false} DroppedCounts(legs: seq<string>, peer: string, o: string)
    ensures multiset(Dropped(legs, peer))[o] == if o == peer then 0 else multiset(legs)[o]
    ensures o in Dropped(legs, peer) <==> o in legs && o != peer
  {
    if legs != [] {
      assert legs == [legs[0]] + legs[1..];
      DroppedCounts(legs[1..], peer, o);
    }
  }

  lemma {:induction false} DroppedEmpty(legs: seq<string>, peer: string)
    ensures Dropped(legs, peer) == [] <==> forall leg <- legs :: leg == peer
  {
    if legs != [] {
      assert legs == [legs[0]] + legs[1..];
      DroppedEmpty(legs[1..], peer);
      assert legs[0] in legs && forall leg :: leg in legs <==> leg == legs[0] || leg in legs[1..];
    }
  }

  // ---- Entering a group call ----

  predicate InGroupCall(c: Call, me: string, conversation: string) {
    && c.state == Active && c.stream && c.conversation == Some(conversation)
    && c.isGroup && c.group.Some? && c.me == Some(me)
  }

  /** The party is in the call, announced itself to all others as often as they are listed,
      offered once to each of larger id it had no leg to, has a leg to each of these, and sent
      nothing else. */
  ghost predicate Entered(legs: seq<string>, self: Party, conversation: string, others: seq<string>, r: Effect) {
    && !r.threw && InGroupCall(r.call, self.id, conversation)
    && (forall o :: o in r.call.legs <==> o in legs || (o in others && Less(self.id, o)))
    && (forall p: Packet ::
          multiset(r.sent)[p]
          == if p.conversation != conversation || p.sender != self.id then 0
             else if p.signal == GroupAnnounce then multiset(others)[p.to]
             else if p.signal == Offer(true) && p.to in others && Less(self.id, p.to) && p.to !in legs then 1
             else 0)
  }

  lemma AnnouncedEnters(c: Call, self: Party, conversation: string, others: seq<string>)
    requires c.conversation == Some(conversation) && c.isGroup && c.group.Some? && c.me == Some(self.id)
    requires forall o <- others :: o in self.reach.known && o in self.reach.connects
    ensures Entered(c.legs, self, conversation, others, Announced(c, self, others, true))
  {
    var live, r := c.(stream := true, state := Active), Announced(c, self, others, true);
    forall o: string
      ensures !r.threw && InGroupCall(r.call, self.id, conversation)
      ensures o in r.call.legs <==> o in c.legs || (o in others && Less(self.id, o))
    {
      var any := Packet(conversation, self.id, o, GroupAnnounce);
      ToAllCounts(live, self, others, GroupAnnounce, any);
      OfferCounts(live, self, others, any, o);
    }
    forall p: Packet
      ensures multiset(r.sent)[p]
        == if p.conversation != conversation || p.sender != self.id then 0
           else if p.signal == GroupAnnounce then multiset(others)[p.to]
           else if p.signal == Offer(true) && p.to in others && Less(self.id, p.to) && p.to !in c.legs then 1
           else 0
    {
      ToAllCounts(live, self, others, GroupAnnounce, p);
      OfferCounts(live, self, others, p, p.to);
    }
  }

  /** Joining with media when every member can be reached. */
  lemma JoinReachesAll(c: Call, self: Party, conversation: string, group: string, others: seq<string>)
    requires forall o <- others :: o in self.reach.known && o in self.reach.connects
    ensures Entered(c.legs, self, conversation, others, JoinedGroupCall(c, self, conversation, group, others, true))
  {
    AnnouncedEnters(Joining(c, conversation, group, self.id).(groups := c.groups[conversation := group]), self,
                    conversation, others);
  }

  /** Accepting an announced call, with the members but oneself, or only the caller when they
      cannot be listed. */
  lemma AcceptReachesAll(c: Call, self: Party, call: IncomingCall, members: Option<seq<string>>, others: seq<string>)
    requires call.isGroup && call.sender !in c.legs && call.conversation in c.groups
    requires others == if members.Some? then Dropped(members.value, self.id) else [call.sender]
    requires forall o <- others :: o in self.reach.known && o in self.reach.connects
    ensures Entered(c.legs, self, call.conversation, others, AcceptedCall(c, self, call, members, true))
  {
    var here := c.(conversation := Some(call.conversation));
    AnnouncedEnters(Joining(here, call.conversation, c.groups[call.conversation], self.id), self, call.conversation,
                    others);
  }

  /** When somebody cannot be reached the announcements break off there, and nothing is
      offered; the party counts as in the call all the same. */
  lemma AnnouncementBreaksOff(c: Call, self: Party, others: seq<string>, o: string)
    requires c.conversation.Some? && c.group.Some? && o in others && o !in self.reach.known
    ensures var r := Announced(c, self, others, true); var n := |r.sent|;
      && r.threw && r.call == c.(stream := true, state := Active)
      && n < |others| && others[n] !in self.reach.known
      && forall i :: 0 <= i < n ==>
           && others[i] in self.reach.known
           && r.sent[i] == Packet(c.conversation.value, self.id, others[i], GroupAnnounce)
  {
    ToAllExactly(c.(stream := true, state := Active), self, others, GroupAnnounce);
  }

  /** Joining or accepting an announced call without media sends nothing and stays connecting;
      accepting a call of a group that is not known changes nothing but the conversation. */
  lemma NoMediaNoCall(c: Call, self: Party, conversation: string, group: string, others: seq<string>,
                      call: IncomingCall, members: Option<seq<string>>, media: bool)
    requires call.isGroup && call.sender !in c.legs
    ensures var r := JoinedGroupCall(c, self, conversation, group, others, false);
      && r.threw && r.sent == [] && r.call.state == Connecting && r.call.legs == c.legs && r.call.stream == c.stream
    ensures var r := AcceptedCall(c, self, call, members, false);
      && r.threw && r.sent == [] && r.call.legs == c.legs && r.call.stream == c.stream
      && (call.conversation in c.groups ==> r.call.state == Connecting)
    ensures call.conversation !in c.groups ==>
      var r := AcceptedCall(c, self, call, members, media);
      r.threw && r.sent == [] && r.call == c.(conversation := Some(call.conversation))
  {
  }

  /** Offers go on until one fails, and whoever is larger and comes before that has a leg. */
  lemma {:induction false} OffersBreakOff(c: Call, self: Party, others: seq<string>) returns (n: nat)
    requires c.stream
    ensures n <= |others| && OffersUpTo(c, self, others, OfferedToLarger(c, self, others), n)
  {
    if others == [] {
      n := 0;
    } else {
      n := OffersBreakOff(c, self, others[..|others| - 1]);
      n := OneMoreOffer(c, self, others, n);
    }
  }

  lemma OneMoreOffer(c: Call, self: Party, others: seq<string>, n: nat) returns (m: nat)
    requires c.stream && others != [] && n < |others|
    requires var before := others[..|others| - 1]; OffersUpTo(c, self, before, OfferedToLarger(c, self, before), n)
    ensures m <= |others| && OffersUpTo(c, self, others, OfferedToLarger(c, self, others), m)
  {
    var before, last := others[..|others| - 1], others[|others| - 1];
    var was, r := OfferedToLarger(c, self, before), OfferedToLarger(c, self, others);
    LargerOffersSound(c, self, before);
    m := if was.threw || r.threw then n else |others|;
    if was.threw {
      assert r == was;
    } else if Less(self.id, last) {
      OfferedOrFails(was.call, self, last);
      assert r.call == OfferedTo(was.call, self, last).call;
    }
  }

  /** One offer leaves a leg to the peer or fails because the peer cannot be reached. */
  lemma OfferedOrFails(c: Call, self: Party, peer: string)
    requires c.stream
    ensures var r := OfferedTo(c, self, peer);
      && (forall leg <- c.legs :: leg in r.call.legs)
      && if r.threw then peer !in c.legs && (peer !in self.reach.connects || !CanReach(c, self, [peer]))
         else peer in r.call.legs
  {
  }

  /** The first `n` of larger id have a leg; the next one, if any, is larger, had none, and can
      not be connected or not be sent to. */
  predicate OffersUpTo(c: Call, self: Party, others: seq<string>, r: Effect, n: nat)
    requires n <= |others|
  {
    && (r.threw <==> n < |others|)
    && (forall i :: 0 <= i < n && Less(self.id, others[i]) ==> others[i] in r.call.legs)
    && (n < |others| ==>
          && Less(self.id, others[n]) && others[n] !in c.legs
          && (others[n] !in self.reach.connects || !CanReach(c, self, [others[n]])))
  }

  // ---- Two parties ----

  /** A party handles what is addressed to it, in order; descriptions can be applied. */
  function HandleAll(c: Call, self: Party, packets: seq<Packet>): Effect {
    if packets == [] then Effect(c, [], false)
    else
      var before := HandleAll(c, self, packets[..|packets| - 1]);
      var p := packets[|packets| - 1];
      if p.to != self.id then before
      else
        var now := Signalled(before.call, self, p, true);
        Effect(now.call, before.sent + now.sent, before.threw || now.threw)
  }

  /** These packets are announcements and group offers of `from` in one conversation. */
  predicate FromEntering(packets: seq<Packet>, from: string, conversation: string) {
    forall p <- packets ::
      p.conversation == conversation && p.sender == from && p.signal in {GroupAnnounce, Offer(true)}
  }

  predicate Addressed(packets: seq<Packet>, to: string, signal: Signal) {
    exists p <- packets :: p.to == to && p.signal == signal
  }

  lemma AddressedOneMore(packets: seq<Packet>, to: string, signal: Signal)
    requires packets != []
    ensures var last := packets[|packets| - 1];
      Addressed(packets, to, signal)
      <==> Addressed(packets[..|packets| - 1], to, signal) || (last.to == to && last.signal == signal)
  {
    assert packets == packets[..|packets| - 1] + [packets[|packets| - 1]];
  }

  predicate Meets(self: Party, other: string) {
    self.id != other && other in self.reach.known && other in self.reach.connects
  }

  lemma LargerTakesOne(c: Call, self: Party, p: Packet)
    requires InGroupCall(c, self.id, p.conversation) && Meets(self, p.sender) && Less(p.sender, self.id)
    requires p.signal in {GroupAnnounce, Offer(true)}
    ensures var r := Signalled(c, self, p, true);
      && !r.threw && InGroupCall(r.call, self.id, p.conversation)
      && (forall o :: o in r.call.legs <==> o in c.legs || (o == p.sender && p.signal == Offer(true)))
      && r.sent == if p.signal == Offer(true) then [Packet(p.conversation, self.id, p.sender, Answer)] else []
  {
    LessIsAsymmetric(p.sender, self.id);
  }

  /** The larger id waits: it takes the offer, answers it and has a leg. */
  lemma {:induction false} LargerTakes(c: Call, self: Party, from: string, conversation: string, packets: seq<Packet>)
    requires InGroupCall(c, self.id, conversation) && Meets(self, from) && Less(from, self.id)
    requires FromEntering(packets, from, conversation)
    ensures var r := HandleAll(c, self, packets);
      && !r.threw && InGroupCall(r.call, self.id, conversation)
      && (forall o :: o in r.call.legs <==> o in c.legs || (o == from && Addressed(packets, self.id, Offer(true))))
      && (forall p <- r.sent :: p == Packet(conversation, self.id, from, Answer))
      && (r.sent != [] <==> Addressed(packets, self.id, Offer(true)))
  {
    if packets != [] {
      var before := packets[..|packets| - 1];
      LargerTakes(c, self, from, conversation, before);
      AddressedOneMore(packets, self.id, Offer(true));
      var last := packets[|packets| - 1];
      if last.to == self.id {
        LargerTakesOne(HandleAll(c, self, before).call, self, last);
      }
    }
  }

  /** The smaller id offers once when it first hears of the other. */
  lemma {:induction false} SmallerOffers(c: Call, self: Party, from: string, conversation: string,
                                         packets: seq<Packet>)
    requires InGroupCall(c, self.id, conversation) && Meets(self, from) && Less(self.id, from) && from !in c.legs
    requires FromEntering(packets, from, conversation) && !Addressed(packets, self.id, Offer(true))
    ensures var r := HandleAll(c, self, packets);
      && !r.threw && InGroupCall(r.call, self.id, conversation)
      && (forall o :: o in r.call.legs <==> o in c.legs || (o == from && Addressed(packets, self.id, GroupAnnounce)))
      && r.sent == if Addressed(packets, self.id, GroupAnnounce)
                   then [Packet(conversation, self.id, from, Offer(true))] else []
  {
    if packets != [] {
      var before := packets[..|packets| - 1];
      AddressedOneMore(packets, self.id, Offer(true));
      AddressedOneMore(packets, self.id, GroupAnnounce);
      SmallerOffers(c, self, from, conversation, before);
    }
  }

  /** Answers change no leg. */
  lemma {:induction false} AnswersKeepLegs(c: Call, self: Party, conversation: string, packets: seq<Packet>)
    requires InGroupCall(c, self.id, conversation) && forall p <- packets :: p.signal == Answer
    ensures HandleAll(c, self, packets) == Effect(c, [], false)
  {
    if packets != [] {
      AnswersKeepLegs(c, self, conversation, packets[..|packets| - 1]);
    }
  }

  /** Two parties connect.  `p` is in the call and `q` enters it, whichever id is smaller:
      once announcement, offer and answer are handled each has a leg to the other, and nothing
      is left to handle between them. */
  lemma TwoConnect(c: Call, p: Party, legs: seq<string>, q: Party, conversation: string, others: seq<string>,
                   entering: Effect)
    requires InGroupCall(c, p.id, conversation) && Meets(p, q.id) && Meets(q, p.id)
    requires q.id !in c.legs && p.id !in legs && p.id in others && Entered(legs, q, conversation, others, entering)
    ensures var first := HandleAll(c, p, entering.sent);
      var second := HandleAll(entering.call, q, first.sent);
      var third := HandleAll(first.call, p, second.sent);
      && !first.threw && !second.threw && !third.threw
      && q.id in third.call.legs && p.id in second.call.legs
      && (forall packet <- third.sent :: packet.to != q.id)
  {
    LessIsTotal(p.id, q.id);
    LessIsAsymmetric(p.id, q.id);
    EnteringPackets(legs, q, conversation, others, entering, p.id);
    var first := HandleAll(c, p, entering.sent);
    if Less(q.id, p.id) {
      LargerTakes(c, p, q.id, conversation, entering.sent);
      AnswersKeepLegs(entering.call, q, conversation, first.sent);
    } else {
      SmallerOffers(c, p, q.id, conversation, entering.sent);
      FirstOffer(entering.call, q, p.id, conversation);
      var second := HandleAll(entering.call, q, first.sent);
      AnswersKeepLegs(first.call, p, conversation, second.sent);
    }
  }

  /** What one who enters sends to one of the others. */
  lemma EnteringPackets(legs: seq<string>, self: Party, conversation: string, others: seq<string>, r: Effect, o: string)
    requires Entered(legs, self, conversation, others, r) && o in others && o !in legs
    ensures FromEntering(r.sent, self.id, conversation)
    ensures Addressed(r.sent, o, GroupAnnounce)
    ensures Addressed(r.sent, o, Offer(true)) <==> Less(self.id, o)
  {
    forall p | p in r.sent
      ensures multiset(r.sent)[p] > 0
    {
    }
    var announce := Packet(conversation, self.id, o, GroupAnnounce);
    var offer := Packet(conversation, self.id, o, Offer(true));
    assert multiset(others)[o] > 0 && multiset(r.sent)[announce] > 0;
    assert announce in r.sent;
    assert multiset(r.sent)[offer] > 0 <==> offer in r.sent;
    assert offer.signal == Offer(true) && announce.signal == GroupAnnounce;
  }

  lemma FirstOffer(c: Call, self: Party, from: string, conversation: string)
    requires InGroupCall(c, self.id, conversation) && Meets(self, from)
    ensures var r := HandleAll(c, self, [Packet(conversation, from, self.id, Offer(true))]);
      && !r.threw && from in r.call.legs && r.sent == [Packet(conversation, self.id, from, Answer)]
  {
    var packets := [Packet(conversation, from, self.id, Offer(true))];
    assert packets[..0] == [] && HandleAll(c, self, []) == Effect(c, [], false);
    assert HandleAll(c, self, packets[..0]).sent + [Packet(conversation, self.id, from, Answer)]
        == [Packet(conversation, self.id, from, Answer)];
  }

  // ---- Direct calls ----

  /** A controller that is in no call. */
  predicate AtRest(c: Call) {
    && c.state == Idle && c.legs == [] && !c.stream && c.conversation.None? && c.group.None? && !c.isGroup && c.me.None?
  }

  /** Starting a call rings the peer, with one offer and one leg, or leaves everything at rest:
      when there are no media, no connection, or no session with the peer. */
  lemma StartExactly(c: Call, self: Party, conversation: string, peer: string, media: bool)
    requires AtRest(c)
    ensures var r := StartedCall(c, self, conversation, peer, media);
      && r.threw == !(media && peer in self.reach.connects && peer in self.reach.known)
      && r.call.groups == c.groups
      && if r.threw then AtRest(r.call) && r.sent == []
         else
           && r.call.state == OutgoingRinging && r.call.legs == [peer] && r.call.stream && !r.call.isGroup
           && r.call.conversation == Some(conversation)
           && r.sent == [Packet(conversation, self.id, peer, Offer(false))]
  {
  }

  lemma HandleOne(c: Call, self: Party, p: Packet)
    requires p.to == self.id
    ensures HandleAll(c, self, [p]) == Signalled(c, self, p, true)
  {
    assert [p][..0] == [] && HandleAll(c, self, []) == Effect(c, [], false);
    var now := Signalled(c, self, p, true);
    assert [] + now.sent == now.sent;
  }

  /** The callee rings. */
  lemma OfferRings(c: Call, self: Party, p: Packet)
    requires AtRest(c) && p.signal == Offer(false) && p.sender in self.reach.connects
    ensures var r := Signalled(c, self, p, true);
      && !r.threw && r.sent == []
      && r.call.state == IncomingRinging && r.call.legs == [p.sender] && !r.call.stream && !r.call.isGroup
      && r.call.conversation == Some(p.conversation) && r.call.groups == c.groups
  {
  }

  /** A direct call from one party at rest to another connects once it is accepted: both are
      active with a leg to the other, and one offer and one answer were sent. */
  lemma DirectConnects(cp: Call, p: Party, cq: Call, q: Party, conversation: string, members: Option<seq<string>>)
    requires AtRest(cp) && AtRest(cq) && Meets(p, q.id) && Meets(q, p.id)
    ensures var offered := StartedCall(cp, p, conversation, q.id, true);
      var ringing := HandleAll(cq, q, offered.sent);
      var accepted := AcceptedCall(ringing.call, q, IncomingCall(conversation, p.id, false), members, true);
      var answered := HandleAll(offered.call, p, accepted.sent);
      && !offered.threw && !ringing.threw && !accepted.threw && !answered.threw
      && InDirectCall(answered.call, conversation, q.id) && InDirectCall(accepted.call, conversation, p.id)
      && offered.sent == [Packet(conversation, p.id, q.id, Offer(false))] && ringing.sent == []
      && accepted.sent == [Packet(conversation, q.id, p.id, Answer)] && answered.sent == []
  {
    StartExactly(cp, p, conversation, q.id, true);
    HandleOne(cq, q, Packet(conversation, p.id, q.id, Offer(false)));
    OfferRings(cq, q, Packet(conversation, p.id, q.id, Offer(false)));
    HandleOne(StartedCall(cp, p, conversation, q.id, true).call, p, Packet(conversation, q.id, p.id, Answer));
  }

  predicate InDirectCall(c: Call, conversation: string, peer: string) {
    && c.state == Active && c.stream && c.legs == [peer] && c.conversation == Some(conversation) && !c.isGroup
  }

  /** A declined call leaves both at rest. */
  lemma DeclineEndsBoth(cp: Call, p: Party, cq: Call, q: Party, conversation: string)
    requires AtRest(cp) && AtRest(cq) && Meets(p, q.id) && Meets(q, p.id)
    ensures var offered := StartedCall(cp, p, conversation, q.id, true);
      var ringing := HandleAll(cq, q, offered.sent);
      var declined := DeclinedCall(ringing.call, q, IncomingCall(conversation, p.id, false));
      var ended := HandleAll(offered.call, p, declined.sent);
      && AtRest(declined.call) && AtRest(ended.call)
      && declined.sent == [Packet(conversation, q.id, p.id, Hangup)] && ended.sent == []
  {
    StartExactly(cp, p, conversation, q.id, true);
    HandleOne(cq, q, Packet(conversation, p.id, q.id, Offer(false)));
    OfferRings(cq, q, Packet(conversation, p.id, q.id, Offer(false)));
    DroppedEmpty([p.id], p.id);
    DroppedEmpty([q.id], q.id);
    HandleOne(StartedCall(cp, p, conversation, q.id, true).call, p, Packet(conversation, q.id, p.id, Hangup));
  }

  /** When one party of a direct call hangs up, both are at rest. */
  lemma HangUpEndsBoth(cp: Call, p: Party, cq: Call, q: Party, conversation: string)
    requires InDirectCall(cp, conversation, q.id) && InDirectCall(cq, conversation, p.id) && q.id in p.reach.known
    ensures var hung := HungUp(cp, p); var ended := HandleAll(cq, q, hung.sent);
      && !hung.threw && AtRest(hung.call) && AtRest(ended.call)
      && hung.sent == [Packet(conversation, p.id, q.id, Hangup)] && ended.sent == []
  {
    ToAllExactly(cp, p, cp.legs, Hangup);
    var sent := ToAll(cp, p, cp.legs, Hangup).sent;
    assert sent == [Packet(conversation, p.id, q.id, Hangup)];
    HandleOne(cq, q, sent[0]);
    HangupExactly(cq, q, sent[0], p.id);
  }

  /** Accepting a call there is a leg for already, or a direct one: answered and active; or, when
      the caller is gone, waiting; or everything at rest when there are no media or the answer
      cannot be sent. */
  lemma AcceptExactly(c: Call, self: Party, call: IncomingCall, members: Option<seq<string>>, media: bool)
    requires call.isGroup ==> call.sender in c.legs
    ensures var r := AcceptedCall(c, self, call, members, media);
      var gone := call.sender !in c.legs;
      var answers := call.sender in self.reach.known && (call.isGroup ==> c.group.Some?);
      && r.threw == !(media && (gone || answers))
      && r.call.groups == c.groups
      && r.sent == (if r.threw || gone then [] else [Packet(call.conversation, self.id, call.sender, Answer)])
      && if r.threw then AtRest(r.call)
         else
           && r.call.state == (if gone then Connecting else Active) && r.call.legs == c.legs && r.call.stream
           && r.call.conversation == Some(call.conversation) && r.call.isGroup == call.isGroup
  {
  }

  /** Declining tells the caller and drops its leg and no other; the last one gone, all is at
      rest.  When the caller cannot be told the legs stay. */
  lemma DeclineExactly(c: Call, self: Party, call: IncomingCall, o: string)
    ensures var r := DeclinedCall(c, self, call);
      && r.threw == !(call.sender in self.reach.known && (c.isGroup ==> c.group.Some?))
      && r.sent == (if r.threw then [] else [Packet(call.conversation, self.id, call.sender, Hangup)])
      && if r.threw then r.call == c.(conversation := Some(call.conversation))
         else if forall leg <- c.legs :: leg == call.sender then AtRest(r.call) && r.call.groups == c.groups
         else
           && r.call == c.(conversation := Some(call.conversation), legs := r.call.legs)
           && (o in r.call.legs <==> o in c.legs && o != call.sender)
  {
    DroppedCounts(c.legs, call.sender, o);
    DroppedEmpty(c.legs, call.sender);
  }

  // ---- Leaving ----

  /** Hanging up tells every leg once and leaves the party at rest, when all can be reached. */
  lemma HangUpTellsAll(c: Call, self: Party, p: Packet)
    requires CanReach(c, self, c.legs)
    ensures var r := HungUp(c, self);
      && !r.threw && AtRest(r.call) && r.call.groups == c.groups
      && multiset(r.sent)[p]
         == if p == Packet(c.conversation.value, self.id, p.to, Hangup) then multiset(c.legs)[p.to] else 0
  {
    ToAllCounts(c, self, c.legs, Hangup, p);
  }

  /** A leg that fails is taken out and no other; a direct call without legs is over, a group
      call goes on. */
  lemma LegLostExactly(c: Call, peer: string, o: string)
    ensures var after := LegFailed(c, peer);
      if !c.isGroup && (forall leg <- c.legs :: leg == peer) then AtRest(after) && after.groups == c.groups
      else after == c.(legs := after.legs) && (o in after.legs <==> o in c.legs && o != peer)
  {
    DroppedCounts(c.legs, peer, o);
    DroppedEmpty(c.legs, peer);
  }

  /** The same when the peer hangs up, except that a group call without legs is over, too. */
  lemma HangupExactly(c: Call, self: Party, p: Packet, o: string)
    requires p.signal == Hangup
    ensures var r := Signalled(c, self, p, true);
      && !r.threw && r.sent == []
      && if !c.isGroup || (forall leg <- c.legs :: leg == p.sender) then AtRest(r.call) && r.call.groups == c.groups
         else r.call == c.(legs := r.call.legs, me := r.call.me) && (o in r.call.legs <==> o in c.legs && o != p.sender)
  {
    DroppedCounts(c.legs, p.sender, o);
    DroppedEmpty(c.legs, p.sender);
  }

  /** A description that cannot be applied: an answer to a leg changes nothing, an offer has
      added its leg, unless the connection could not be created either; the handler throws. */
  lemma BadDescription(c: Call, self: Party, p: Packet, group: bool, o: string)
    requires c.conversation == Some(p.conversation) && p.conversation !in c.groups
    ensures p.signal == Answer && p.sender in c.legs ==> Signalled(c, self, p, false) == Effect(c, [], true)
    ensures p.signal == Offer(group) ==>
      var r := Signalled(c, self, p, false);
      && r.threw && r.sent == [] && r.call == c.(legs := r.call.legs, isGroup := group || c.isGroup)
      && (o in r.call.legs <==> o in c.legs || (o == p.sender && o in self.reach.connects))
  {
  }

  /** Whoever is in a call of one conversation does not react to those of another. */
  lemma OtherCallsIgnored(c: Call, self: Party, p: Packet, described: bool)
    requires p.signal.Offer? || p.signal.GroupAnnounce?
    requires || (c.conversation.Some? && c.conversation != Some(p.conversation))
             || (p.signal == Offer(false) && c.state != Idle && c.conversation != Some(p.conversation))
    ensures var r := Signalled(c, self, p, described);
      !r.threw && r.sent == [] && r.call == c.(me := r.call.me)
  {
  }
}
