/** The node trust monitor (client/lib/core/network/node_trust_monitor.dart): counters and a
    flag, against a description of which event traces are suspicious. */
module NodeTrustMonitor {
  import opened Wrappers
  import Padding

  const MAX_FRAME_GAP_MS := 2000
  const VIOLATIONS_TO_FLAG := 5
  const ALLOWED_TYPES := {"direct", "call_signal", "avatar", "message"}

  datatype Event =
    | Bind(url: string)
    | Open
    | Frame(length: nat, now: int)
    | Envelope(kind: string)

  datatype Reason = WrongSizes | TimingGaps | UnknownType(kind: string)

  datatype State = State(
    compromised: bool, reason: Option<Reason>, nodeUrl: Option<string>,
    lastFrameAt: Option<int>, gapViolations: nat, sizeViolations: nat)

  const INITIAL := State(false, None, None, None, 0, 0)

  // ---- What the monitor does ----

  function Flagged(s: State, reason: Reason): State {
    if s.compromised then s else s.(compromised := true, reason := Some(reason))
  }

  function Opened(s: State): State {
    s.(lastFrameAt := None, gapViolations := 0, sizeViolations := 0)
  }

  function Bound(s: State, url: string): State {
    var t := Opened(s.(nodeUrl := Some(url)));
    if s.nodeUrl != Some(url) && s.compromised then t.(compromised := false, reason := None) else t
  }

  function WrongSize(s: State): State {
    var t := s.(sizeViolations := s.sizeViolations + 1);
    if t.sizeViolations >= VIOLATIONS_TO_FLAG then Flagged(t, WrongSizes) else t
  }

  function RightSize(s: State, now: int): State {
    var t := s.(sizeViolations := 0, lastFrameAt := Some(now));
    if s.lastFrameAt.None? then t
    else if now - s.lastFrameAt.value > MAX_FRAME_GAP_MS then
      var u := t.(gapViolations := t.gapViolations + 1);
      if u.gapViolations >= VIOLATIONS_TO_FLAG then Flagged(u, TimingGaps) else u
    else t.(gapViolations := 0)
  }

  function Step(s: State, e: Event): State {
    match e
    case Bind(url) => Bound(s, url)
    case Open => Opened(s)
    case Frame(length, now) => if length != Padding.FRAME_SIZE then WrongSize(s) else RightSize(s, now)
    case Envelope(kind) => if kind !in ALLOWED_TYPES then Flagged(s, UnknownType(kind)) else s
  }

  function Run(trace: seq<Event>): State {
    if trace == [] then INITIAL else Step(Run(trace[..|trace| - 1]), trace[|trace| - 1])
  }

  // ---- Which traces are suspicious ----

  /** The events since the connection was last opened or bound. */
  function Connection(trace: seq<Event>): seq<Event> {
    if trace == [] then []
    else
      var last := trace[|trace| - 1];
      if last.Bind? || last.Open? then [] else Connection(trace[..|trace| - 1]) + [last]
  }

  /** For each frame of a connection, whether its size is wrong. */
  function SizeFaults(c: seq<Event>): seq<bool> {
    if c == [] then []
    else
      var last := c[|c| - 1];
      SizeFaults(c[..|c| - 1]) + if last.Frame? then [last.length != 2048] else []
  }

  /** Arrival times of the frames of the right size. */
  function Arrivals(c: seq<Event>): seq<int> {
    if c == [] then []
    else
      var last := c[|c| - 1];
      Arrivals(c[..|c| - 1]) + if last.Frame? && last.length == 2048 then [last.now] else []
  }

  /** For each pause between two of them, whether it is too long. */
  function GapFaults(arrivals: seq<int>): seq<bool> {
    if |arrivals| < 2 then []
    else seq(|arrivals| - 1, i requires 0 <= i < |arrivals| - 1 => arrivals[i + 1] - arrivals[i] > 2000)
  }

  /** Five faults in a row, from position `i`. */
  predicate FiveFrom(faults: seq<bool>, i: nat) {
    i + 5 <= |faults| && forall j :: i <= j < i + 5 ==> faults[j]
  }

  ghost predicate FiveInARow(faults: seq<bool>) {
    exists i: nat :: FiveFrom(faults, i)
  }

  ghost predicate Faulty(c: seq<Event>) {
    FiveInARow(SizeFaults(c)) || FiveInARow(GapFaults(Arrivals(c)))
  }

  predicate EndsUnknown(trace: seq<Event>) {
    && trace != []
    && var last := trace[|trace| - 1];
       last.Envelope? && last.kind !in {"direct", "call_signal", "avatar", "message"}
  }

  ghost predicate Suspicious(trace: seq<Event>) {
    EndsUnknown(trace) || Faulty(Connection(trace))
  }

  function BoundUrl(trace: seq<Event>): Option<string> {
    if trace == [] then None
    else
      var last := trace[|trace| - 1];
      if last.Bind? then Some(last.url) else BoundUrl(trace[..|trace| - 1])
  }

  /** How many events there are up to and including the last bind to a new node. */
  function EraStart(trace: seq<Event>): nat {
    if trace == [] then 0
    else
      var before, last := trace[..|trace| - 1], trace[|trace| - 1];
      if last.Bind? && BoundUrl(before) != Some(last.url) then |trace| else EraStart(before)
  }

  // ---- The characterisation ----

  /** Faults at the end of a list. */
  function Streak(faults: seq<bool>): nat {
    if faults == [] || !faults[|faults| - 1] then 0 else 1 + Streak(faults[..|faults| - 1])
  }

  lemma {:induction false} StreakTail(faults: seq<bool>)
    ensures Streak(faults) <= |faults|
    ensures forall j :: |faults| - Streak(faults) <= j < |faults| ==> faults[j]
    ensures Streak(faults) < |faults| ==> !faults[|faults| - Streak(faults) - 1]
  {
    if faults != [] && faults[|faults| - 1] { StreakTail(faults[..|faults| - 1]); }
  }

  /** A new fault completes five in a row, or they were there before. */
  lemma FiveInARowStep(faults: seq<bool>, fault: bool)
    ensures FiveInARow(faults + [fault]) <==> FiveInARow(faults) || Streak(faults + [fault]) >= VIOLATIONS_TO_FLAG
  {
    var all := faults + [fault];
    StreakTail(all);
    forall i: nat
      ensures FiveFrom(all, i) <==>
        FiveFrom(faults, i) || (i == |all| - VIOLATIONS_TO_FLAG && Streak(all) >= VIOLATIONS_TO_FLAG)
    {
      assert forall j :: 0 <= j < |faults| ==> all[j] == faults[j];
      assert Streak(all) < |all| ==> !all[|all| - Streak(all) - 1];
    }
    if Streak(all) >= VIOLATIONS_TO_FLAG { assert FiveFrom(all, |all| - VIOLATIONS_TO_FLAG); }
    if FiveInARow(faults) {
      var i: nat :| FiveFrom(faults, i);
      assert FiveFrom(all, i);
    }
  }

  /** What one more frame adds to a connection. */
  lemma FaultsStep(c: seq<Event>, e: Event)
    requires e.Frame?
    ensures SizeFaults(c + [e]) == SizeFaults(c) + [e.length != Padding.FRAME_SIZE]
    ensures Arrivals(c + [e]) == if e.length == Padding.FRAME_SIZE then Arrivals(c) + [e.now] else Arrivals(c)
  {
    assert (c + [e])[..|c|] == c;
  }

  lemma ConnectionStep(before: seq<Event>, e: Event)
    ensures Connection(before + [e]) == if e.Bind? || e.Open? then [] else Connection(before) + [e]
    ensures BoundUrl(before + [e]) == if e.Bind? then Some(e.url) else BoundUrl(before)
  {
    assert (before + [e])[..|before|] == before;
  }

  lemma GapFaultsStep(arrivals: seq<int>, now: int)
    requires arrivals != []
    ensures GapFaults(arrivals + [now]) == GapFaults(arrivals) + [now - arrivals[|arrivals| - 1] > MAX_FRAME_GAP_MS]
  {
  }

  lemma StreakStep(faults: seq<bool>, fault: bool)
    ensures Streak(faults + [fault]) == if fault then Streak(faults) + 1 else 0
  {
    assert (faults + [fault])[..|faults|] == faults;
  }

  /** The counters are the streaks of the connection. */
  ghost predicate Counts(s: State, c: seq<Event>) {
    var arrivals := Arrivals(c);
    && s.sizeViolations == Streak(SizeFaults(c))
    && s.gapViolations == Streak(GapFaults(arrivals))
    && s.lastFrameAt == if arrivals == [] then None else Some(arrivals[|arrivals| - 1])
  }

  ghost predicate Tracks(s: State, trace: seq<Event>) {
    Counts(s, Connection(trace)) && s.nodeUrl == BoundUrl(trace)
  }

  lemma WrongSizeCounts(c: seq<Event>, e: Event, s: State)
    requires e.Frame? && e.length != Padding.FRAME_SIZE && Counts(s, c)
    ensures Counts(WrongSize(s), c + [e])
  {
    FaultsStep(c, e);
    StreakStep(SizeFaults(c), true);
  }

  lemma RightSizeCounts(c: seq<Event>, e: Event, s: State)
    requires e.Frame? && e.length == Padding.FRAME_SIZE && Counts(s, c)
    ensures Counts(RightSize(s, e.now), c + [e])
  {
    var arrivals := Arrivals(c);
    FaultsStep(c, e);
    StreakStep(SizeFaults(c), false);
    if arrivals != [] {
      var long := e.now - arrivals[|arrivals| - 1] > MAX_FRAME_GAP_MS;
      GapFaultsStep(arrivals, e.now);
      StreakStep(GapFaults(arrivals), long);
    }
  }

  lemma EnvelopeAddsNothing(c: seq<Event>, e: Event)
    requires e.Envelope?
    ensures SizeFaults(c + [e]) == SizeFaults(c) && Arrivals(c + [e]) == Arrivals(c)
  {
    assert (c + [e])[..|c|] == c;
  }

  lemma OpenedCounts(s: State)
    ensures Counts(Opened(s), [])
  {
  }

  lemma StepCounts(c: seq<Event>, e: Event, s: State)
    requires Counts(s, c)
    ensures Counts(Step(s, e), if e.Bind? || e.Open? then [] else c + [e])
    ensures Step(s, e).nodeUrl == if e.Bind? then Some(e.url) else s.nodeUrl
  {
    match e
    case Bind(url) => OpenedCounts(s.(nodeUrl := Some(url)));
    case Open => OpenedCounts(s);
    case Frame(length, now) =>
      if length != Padding.FRAME_SIZE { WrongSizeCounts(c, e, s); } else { RightSizeCounts(c, e, s); }
    case Envelope(kind) => EnvelopeAddsNothing(c, e);
  }

  lemma StepTracks(before: seq<Event>, e: Event, s: State)
    requires Tracks(s, before)
    ensures Tracks(Step(s, e), before + [e])
  {
    ConnectionStep(before, e);
    StepCounts(Connection(before), e, s);
  }

  lemma WrongSizeFlags(c: seq<Event>, e: Event, s: State)
    requires e.Frame? && e.length != Padding.FRAME_SIZE && Counts(s, c)
    requires Faulty(c) ==> s.compromised
    ensures WrongSize(s).compromised <==> s.compromised || Faulty(c + [e])
  {
    FaultsStep(c, e);
    StreakStep(SizeFaults(c), true);
    FiveInARowStep(SizeFaults(c), true);
  }

  lemma RightSizeFlags(c: seq<Event>, e: Event, s: State)
    requires e.Frame? && e.length == Padding.FRAME_SIZE && Counts(s, c)
    requires Faulty(c) ==> s.compromised
    ensures RightSize(s, e.now).compromised <==> s.compromised || Faulty(c + [e])
  {
    var arrivals := Arrivals(c);
    FaultsStep(c, e);
    StreakStep(SizeFaults(c), false);
    FiveInARowStep(SizeFaults(c), false);
    if arrivals != [] {
      var long := e.now - arrivals[|arrivals| - 1] > MAX_FRAME_GAP_MS;
      GapFaultsStep(arrivals, e.now);
      StreakStep(GapFaults(arrivals), long);
      FiveInARowStep(GapFaults(arrivals), long);
    }
  }

  /** A step flags exactly the traces that have just become suspicious. */
  lemma StepFlags(before: seq<Event>, e: Event, s: State)
    requires Tracks(s, before) && (Suspicious(before) ==> s.compromised)
    requires !(e.Bind? && s.nodeUrl != Some(e.url))
    ensures Step(s, e).compromised <==> s.compromised || Suspicious(before + [e])
  {
    ConnectionStep(before, e);
    var c := Connection(before);
    if e.Frame? {
      if e.length != Padding.FRAME_SIZE { WrongSizeFlags(c, e, s); } else { RightSizeFlags(c, e, s); }
    } else if e.Envelope? {
      EnvelopeAddsNothing(c, e);
    }
  }

  /** A prefix of the trace, past the last bind to a new node, was suspicious. */
  ghost predicate SuspiciousSinceBind(trace: seq<Event>) {
    exists n :: EraStart(trace) < n <= |trace| && Suspicious(trace[..n])
  }

  lemma {:induction false} EraBound(trace: seq<Event>)
    ensures EraStart(trace) <= |trace|
    ensures EraStart(trace) == |trace| ==> !Suspicious(trace)
  {
    if trace != [] { EraBound(trace[..|trace| - 1]); }
  }

  /** A suspicious trace lies past the bind. */
  lemma SuspiciousNow(trace: seq<Event>)
    requires Suspicious(trace)
    ensures SuspiciousSinceBind(trace)
  {
    EraBound(trace);
    assert trace[..|trace|] == trace;
  }

  lemma SuspiciousGrows(before: seq<Event>, e: Event)
    requires !(e.Bind? && BoundUrl(before) != Some(e.url))
    ensures SuspiciousSinceBind(before + [e]) <==> SuspiciousSinceBind(before) || Suspicious(before + [e])
  {
    var trace := before + [e];
    EraStands(before, e);
    if SuspiciousSinceBind(before) {
      var n :| EraStart(before) < n <= |before| && Suspicious(before[..n]);
      assert trace[..n] == before[..n];
      assert SuspiciousSinceBind(trace);
    }
    if Suspicious(trace) {
      SuspiciousNow(trace);
    }
    if SuspiciousSinceBind(trace) {
      var n :| EraStart(trace) < n <= |trace| && Suspicious(trace[..n]);
      if n <= |before| {
        assert trace[..n] == before[..n];
        assert SuspiciousSinceBind(before);
      } else {
        assert trace[..n] == trace;
      }
    }
  }

  lemma EraStands(before: seq<Event>, e: Event)
    requires !(e.Bind? && BoundUrl(before) != Some(e.url))
    ensures EraStart(before + [e]) == EraStart(before)
  {
    assert (before + [e])[..|before|] == before;
  }

  /** The flag, exactly: after any trace the monitor reports the node as compromised if and
      only if, since the last bind to a new node, an envelope type was unknown, or one
      connection had five wrong-size frames in a row, or five pauses in a row over two
      seconds between its right-size frames. */
  lemma {:induction false} CompromisedExactly(trace: seq<Event>)
    ensures Tracks(Run(trace), trace)
    ensures Run(trace).compromised <==> SuspiciousSinceBind(trace)
  {
    if trace != [] {
      var before, e := trace[..|trace| - 1], trace[|trace| - 1];
      var s := Run(before);
      CompromisedExactly(before);
      assert trace == before + [e];
      StepTracks(before, e, s);
      if !(e.Bind? && BoundUrl(before) != Some(e.url)) {
        SuspiciousGrows(before, e);
        if Suspicious(before) { SuspiciousNow(before); }
        StepFlags(before, e, s);
      }
    }
  }

  // ---- The reason given ----

  /** What makes a trace suspicious. */
  ghost function Cause(trace: seq<Event>): Reason
    requires trace != []
  {
    var last := trace[|trace| - 1];
    if EndsUnknown(trace) then UnknownType(last.kind)
    else if FiveInARow(SizeFaults(Connection(trace))) then WrongSizes
    else TimingGaps
  }

  /** At moment `n`, past the bind at `era`, the trace became suspicious. */
  ghost predicate FirstSuspicion(trace: seq<Event>, era: nat, n: nat) {
    era < n <= |trace| && Suspicious(trace[..n]) && !SuspiciousSinceBind(trace[..n - 1])
  }

  lemma StepReason(before: seq<Event>, e: Event, s: State)
    requires Tracks(s, before) && !s.compromised && !Suspicious(before)
    requires Step(s, e).compromised
    ensures Suspicious(before + [e]) && Step(s, e).reason == Some(Cause(before + [e]))
  {
    StepFlags(before, e, s);
    ConnectionStep(before, e);
    if e.Frame? {
      FaultsStep(Connection(before), e);
      FiveInARowStep(SizeFaults(Connection(before)), e.length != 2048);
      StreakStep(SizeFaults(Connection(before)), e.length != 2048);
    }
  }

  /** There is no reason while the node is trusted, and otherwise it is the cause of the first
      suspicion since the last bind to a new node. */
  ghost predicate Explained(s: State, trace: seq<Event>) {
    if s.compromised then
      exists n: nat :: FirstSuspicion(trace, EraStart(trace), n) && s.reason == Some(Cause(trace[..n]))
    else s.reason == None
  }

  lemma FirstStands(before: seq<Event>, e: Event, era: nat, n: nat)
    requires FirstSuspicion(before, era, n)
    ensures FirstSuspicion(before + [e], era, n) && (before + [e])[..n] == before[..n]
  {
    assert (before + [e])[..n] == before[..n] && (before + [e])[..n - 1] == before[..n - 1];
  }

  lemma FirstNow(before: seq<Event>, e: Event, era: nat)
    requires !SuspiciousSinceBind(before) && Suspicious(before + [e]) && era <= |before|
    ensures FirstSuspicion(before + [e], era, |before| + 1) && (before + [e])[..|before| + 1] == before + [e]
  {
    assert (before + [e])[..|before|] == before && (before + [e])[..|before| + 1] == before + [e];
  }

  lemma ReasonStands(s: State, e: Event)
    requires s.compromised && !(e.Bind? && s.nodeUrl != Some(e.url))
    ensures Step(s, e).compromised && Step(s, e).reason == s.reason
  {
  }

  lemma ExplainedOn(before: seq<Event>, e: Event, s: State, s': State)
    requires Explained(s, before) && s.compromised && !(e.Bind? && BoundUrl(before) != Some(e.url))
    requires s'.compromised && s'.reason == s.reason
    ensures Explained(s', before + [e])
  {
    var n: nat :| FirstSuspicion(before, EraStart(before), n) && s.reason == Some(Cause(before[..n]));
    FirstStands(before, e, EraStart(before), n);
    EraStands(before, e);
  }

  lemma ExplainedNow(before: seq<Event>, e: Event, s: State)
    requires Tracks(s, before) && !s.compromised && !SuspiciousSinceBind(before)
    requires Step(s, e).compromised && !(e.Bind? && BoundUrl(before) != Some(e.url))
    ensures Explained(Step(s, e), before + [e])
  {
    if Suspicious(before) { SuspiciousNow(before); }
    StepReason(before, e, s);
    EraBound(before);
    EraStands(before, e);
    FirstNow(before, e, EraStart(before));
  }

  /** The reason, exactly, after any trace. */
  lemma {:induction false} ReasonExactly(trace: seq<Event>)
    ensures Explained(Run(trace), trace)
  {
    if trace != [] {
      var before, e := trace[..|trace| - 1], trace[|trace| - 1];
      ReasonExactly(before);
      CompromisedExactly(before);
      assert trace == before + [e];
      var s := Run(before);
      if !(e.Bind? && BoundUrl(before) != Some(e.url)) && Step(s, e).compromised {
        if s.compromised {
          ReasonStands(s, e);
          ExplainedOn(before, e, s, Step(s, e));
        } else {
          ExplainedNow(before, e, s);
        }
      }
    }
  }

  // ---- The mutable monitor ----

  class Monitor {
    var compromised: bool
    var reason: Option<Reason>
    var nodeUrl: Option<string>
    var lastFrameAt: Option<int>
    var gapViolations: nat
    var sizeViolations: nat

    function Current(): State
      reads this
    {
      State(compromised, reason, nodeUrl, lastFrameAt, gapViolations, sizeViolations)
    }

    constructor ()
      ensures Current() == INITIAL
    {
      compromised, reason, nodeUrl, lastFrameAt, gapViolations, sizeViolations := false, None, None, None, 0, 0;
    }

    method BindNode(url: string)
      modifies this
      ensures Current() == Step(old(Current()), Bind(url))
    {
      var isNewNode := nodeUrl != Some(url);
      nodeUrl := Some(url);
      OnConnectionOpened();
      if isNewNode && compromised {
        compromised := false;
        reason := None;
      }
    }

    method OnConnectionOpened()
      modifies this`lastFrameAt, this`gapViolations, this`sizeViolations
      ensures Current() == Step(old(Current()), Open)
    {
      lastFrameAt := None;
      gapViolations := 0;
      sizeViolations := 0;
    }

    method OnRawFrame(length: nat, now: int)
      modifies this
      ensures Current() == Step(old(Current()), Frame(length, now))
    {
      if length != Padding.FRAME_SIZE {
        sizeViolations := sizeViolations + 1;
        if sizeViolations >= VIOLATIONS_TO_FLAG { Flag(WrongSizes); }
        return;
      }
      sizeViolations := 0;
      var last := lastFrameAt;
      lastFrameAt := Some(now);
      if last.None? { return; }
      var gap := now - last.value;
      if gap > MAX_FRAME_GAP_MS {
        gapViolations := gapViolations + 1;
        if gapViolations >= VIOLATIONS_TO_FLAG { Flag(TimingGaps); }
      } else {
        gapViolations := 0;
      }
    }

    method OnEnvelope(kind: string)
      modifies this
      ensures Current() == Step(old(Current()), Envelope(kind))
    {
      if kind !in ALLOWED_TYPES { Flag(UnknownType(kind)); }
    }

    method Flag(why: Reason)
      modifies this`compromised, this`reason
      ensures Current() == Flagged(old(Current()), why)
    {
      if compromised { return; }
      compromised := true;
      reason := Some(why);
    }
  }
}
