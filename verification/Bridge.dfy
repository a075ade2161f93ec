/** The media bridge's select loop: model audio into the jitter buffer, a frame to the phone per
    tick, events to the engine, and the forward-only phase after the phone has gone. */
module Bridge {
  import opened Base
  import P = Pace

  const FADE_MS: nat := 25

  /** An event that the bridge passes on without looking inside. */
  type Token(==, !new)

  datatype Input =
    | Cancel | UplinkEnded | GraceTimer | EventsClosed
    | Audio(pcm: seq<Pcm>, muted: bool) | Interrupted | TurnComplete | Other(token: Token)
    | Tick(sent: bool)

  datatype Entry = Entry(at: nat, input: Input)

  datatype Out = Down(op: P.Op) | Frame | ForwardTurnComplete | ForwardOther(token: Token)

  datatype BridgeEnd = Cancelled | PhoneClosed | GeminiClosed

  datatype State = State(uplinkRunning: bool, harvesting: bool, deadline: Option<nat>, end: Option<BridgeEnd>)

  const START := State(true, false, None, None)

  function Finish(s: State, end: BridgeEnd): State { s.(end := Some(end)) }

  /** The phone turned out to be gone: close, or arm the grace unless it is armed. */
  function LosePhone(grace: Option<nat>, s: State, at: nat): State {
    if grace.None? then Finish(s, PhoneClosed)
    else if s.harvesting then s
    else s.(harvesting := true, deadline := Some(at + grace.value))
  }

  /** One turn of the loop; an arm whose guard is off ignores its entry. */
  function Step(grace: Option<nat>, s: State, e: Entry): State {
    if s.end.Some? then s else
    match e.input
    case Cancel => Finish(s, Cancelled)
    case UplinkEnded =>
      if s.uplinkRunning then LosePhone(grace, s.(uplinkRunning := false), e.at) else s
    case GraceTimer =>
      if s.deadline.Some? && e.at >= s.deadline.value then Finish(s, PhoneClosed) else s
    case EventsClosed => Finish(s, GeminiClosed)
    case Tick(false) => if s.harvesting then s else LosePhone(grace, s, e.at)
    case _ => s
  }

  function Emitted(s: State, e: Entry): seq<Out> {
    if s.end.Some? then [] else
    match e.input
    case Audio(pcm, muted) =>
      if s.harvesting || muted then [] else [Down(P.Expect(true)), Down(P.Push(pcm))]
    case Interrupted => [Down(P.Expect(false)), Down(P.Fade(FADE_MS))]
    case TurnComplete => [Down(P.Expect(false)), ForwardTurnComplete]
    case Other(token) => [ForwardOther(token)]
    case Tick(_) => if s.harvesting then [] else [Down(P.Tick), Frame]
    case _ => []
  }

  function Run(grace: Option<nat>, trace: seq<Entry>): State {
    if trace == [] then START else Step(grace, Run(grace, DropLast(trace)), Last(trace))
  }

  function Outs(grace: Option<nat>, trace: seq<Entry>): seq<Out> {
    if trace == [] then []
    else Outs(grace, DropLast(trace)) + Emitted(Run(grace, DropLast(trace)), Last(trace))
  }

  /** The trace stops where the bridge does, if it does. */
  predicate Proper(grace: Option<nat>, trace: seq<Entry>) {
    trace == [] || Run(grace, DropLast(trace)).end.None?
  }

  // ----- the phone going away -------------------------------------------------------------------

  predicate LosesPhone(e: Input) { e == UplinkEnded || e == Tick(false) }

  /** When the phone was first seen gone, by either sign. */
  function GoneAt(trace: seq<Entry>): Option<nat> {
    if trace == [] then None
    else
      var earlier := GoneAt(DropLast(trace));
      if earlier.None? && LosesPhone(Last(trace).input) then Some(Last(trace).at) else earlier
  }

  /** The deadline is armed when the phone is first seen gone and never moves. */
  lemma {:induction false} ArmedOnce(grace: Option<nat>, trace: seq<Entry>)
    requires Run(grace, trace).end.None?
    ensures var s, gone := Run(grace, trace), GoneAt(trace);
            (s.harvesting <==> gone.Some?) && (!s.harvesting ==> s.uplinkRunning)
            && (gone.Some? ==> grace.Some? && s.deadline == Some(gone.value + grace.value))
            && (gone.None? ==> s.deadline.None?)
  {
    if trace != [] { ArmedOnce(grace, DropLast(trace)); }
  }

  /** Why the bridge ends: the phone is reported closed at once without a grace, with one at its
      deadline and never earlier; the other ends have their own causes. */
  lemma EndsExactly(grace: Option<nat>, trace: seq<Entry>)
    requires trace != [] && Proper(grace, trace)
    ensures var end, gone, e := Run(grace, trace).end, GoneAt(DropLast(trace)), Last(trace);
            (end == Some(PhoneClosed)
             <==> (if grace.None? then LosesPhone(e.input)
                   else gone.Some? && e.input == GraceTimer && e.at >= gone.value + grace.value))
            && (end == Some(Cancelled) <==> e.input == Cancel)
            && (end == Some(GeminiClosed) <==> e.input == EventsClosed)
  {
    ArmedOnce(grace, DropLast(trace));
  }

  /** Neither a frame for the phone nor audio for the buffer. */
  predicate Silent(out: Out) { !out.Frame? && !(out.Down? && (out.op.Tick? || out.op.Push?)) }

  predicate AllSilent(outs: seq<Out>) { forall i :: 0 <= i < |outs| ==> Silent(outs[i]) }

  /** Once the phone is gone no frame is sent and no model audio is buffered. */
  lemma {:induction false} SilentOnceGone(grace: Option<nat>, trace: seq<Entry>, n: nat)
    requires n <= |trace| && Proper(grace, trace) && GoneAt(trace[..n]).Some?
    ensures Outs(grace, trace[..n]) <= Outs(grace, trace)
    ensures AllSilent(Outs(grace, trace)[|Outs(grace, trace[..n])|..])
  {
    if n == |trace| {
      assert trace[..n] == trace;
    } else {
      var before := DropLast(trace);
      assert before[..n] == trace[..n];
      SilentOnceGone(grace, before, n);
      GoneStays(before, n);
      ArmedOnce(grace, before);
      SilentAppend(Outs(grace, before), Emitted(Run(grace, before), Last(trace)), |Outs(grace, trace[..n])|);
    }
  }

  lemma SilentAppend(outs: seq<Out>, more: seq<Out>, start: nat)
    requires start <= |outs| && AllSilent(outs[start..]) && AllSilent(more)
    ensures AllSilent((outs + more)[start..])
  {
    assert (outs + more)[start..] == outs[start..] + more;
  }

  lemma {:induction false} GoneStays(trace: seq<Entry>, n: nat)
    requires n <= |trace| && GoneAt(trace[..n]).Some?
    ensures GoneAt(trace) == GoneAt(trace[..n])
  {
    if n == |trace| {
      assert trace[..n] == trace;
    } else {
      assert DropLast(trace)[..n] == trace[..n];
      GoneStays(DropLast(trace), n);
    }
  }

  // ----- a frame per tick -----------------------------------------------------------------------

  /** The pacer's tick comes while the phone is there. */
  predicate Beats(before: seq<Entry>, e: Input) { e.Tick? && GoneAt(before).None? }

  /** How many of them a trace holds. */
  function BeatCount(trace: seq<Entry>): nat {
    if trace == [] then 0
    else BeatCount(DropLast(trace)) + (if Beats(DropLast(trace), Last(trace).input) then 1 else 0)
  }

  predicate OfPacer(out: Out) { out == Down(P.Tick) || out.Frame? }

  /** The pacer advanced and its frame sent, `n` times over. */
  function FramesSent(n: nat): seq<Out> {
    if n == 0 then [] else FramesSent(n - 1) + [Down(P.Tick), Frame]
  }

  predicate PairedAt(outs: seq<Out>, i: nat)
    requires i < |outs|
  {
    (outs[i].Frame? ==> i > 0 && outs[i - 1] == Down(P.Tick))
    && (outs[i] == Down(P.Tick) ==> i + 1 < |outs| && outs[i + 1].Frame?)
  }

  /** No frame without an advance just before it, and no advance without its frame just after it. */
  predicate Paired(outs: seq<Out>) { forall i :: 0 <= i < |outs| ==> PairedAt(outs, i) }

  lemma PairedAppend(a: seq<Out>, b: seq<Out>)
    requires Paired(a) && Paired(b)
    ensures Paired(a + b)
  {
    forall i | 0 <= i < |a + b| ensures PairedAt(a + b, i) {
      if i < |a| { assert PairedAt(a, i); } else { assert PairedAt(b, i - |a|); }
    }
  }

  lemma EmittedBeat(s: State, e: Entry)
    requires s.end.None?
    ensures Select(OfPacer, Emitted(s, e)) == if e.input.Tick? && !s.harvesting then [Down(P.Tick), Frame] else []
    ensures Paired(Emitted(s, e))
  {
    SelectShort(OfPacer, Emitted(s, e));
  }

  /** While the phone is there every tick advances the pacer once and sends that frame at once;
      nothing else does either. */
  lemma {:induction false} FramePerTick(grace: Option<nat>, trace: seq<Entry>)
    requires Proper(grace, trace)
    ensures Select(OfPacer, Outs(grace, trace)) == FramesSent(BeatCount(trace))
    ensures Paired(Outs(grace, trace))
  {
    if trace != [] {
      var before, e := DropLast(trace), Last(trace);
      FramePerTick(grace, before);
      ArmedOnce(grace, before);
      FramesGrow(Outs(grace, before), Run(grace, before), e, BeatCount(before));
    }
  }

  lemma FramesGrow(outs: seq<Out>, s: State, e: Entry, n: nat)
    requires s.end.None? && Select(OfPacer, outs) == FramesSent(n) && Paired(outs)
    ensures Select(OfPacer, outs + Emitted(s, e))
         == FramesSent(if e.input.Tick? && !s.harvesting then n + 1 else n)
    ensures Paired(outs + Emitted(s, e))
  {
    EmittedBeat(s, e);
    SelectAppend(OfPacer, outs, Emitted(s, e));
    PairedAppend(outs, Emitted(s, e));
    NothingAdded(FramesSent(n));
  }

  // ----- forwarding -----------------------------------------------------------------------------

  predicate IsForward(out: Out) { out.ForwardTurnComplete? || out.ForwardOther? }

  function Forwards(outs: seq<Out>): seq<Out> { Select(IsForward, outs) }

  function ForwardOf(e: Input): seq<Out> {
    if e.TurnComplete? then [ForwardTurnComplete] else if e.Other? then [ForwardOther(e.token)] else []
  }

  function Received(trace: seq<Entry>): seq<Out> {
    if trace == [] then [] else Received(DropLast(trace)) + ForwardOf(Last(trace).input)
  }

  lemma EmittedForwards(s: State, e: Entry)
    requires s.end.None?
    ensures Forwards(Emitted(s, e)) == ForwardOf(e.input)
  {
    SelectShort(IsForward, Emitted(s, e));
  }

  /** Before and after the phone goes, the engine receives every event but audio and
      interruptions, in order. */
  lemma {:induction false} EventsForwarded(grace: Option<nat>, trace: seq<Entry>)
    requires Proper(grace, trace)
    ensures Forwards(Outs(grace, trace)) == Received(trace)
  {
    if trace != [] {
      EventsForwarded(grace, DropLast(trace));
      SelectAppend(IsForward, Outs(grace, DropLast(trace)), Emitted(Run(grace, DropLast(trace)), Last(trace)));
      EmittedForwards(Run(grace, DropLast(trace)), Last(trace));
    }
  }

  // ----- the audio ------------------------------------------------------------------------------

  /** What the bridge did to the jitter buffer. */
  function Ops(outs: seq<Out>): seq<P.Op> {
    if outs == [] then [] else Ops(DropLast(outs)) + OpOf(Last(outs))
  }

  function OpOf(out: Out): seq<P.Op> { if out.Down? then [out.op] else [] }

  lemma {:induction false} OpsAppend(a: seq<Out>, b: seq<Out>)
    ensures Ops(a + b) == Ops(a) + Ops(b)
  {
    if b == [] {
      NothingAdded(a);
      NothingAdded(Ops(a));
    } else {
      assert DropLast(a + b) == a + DropLast(b) && Last(a + b) == Last(b);
      OpsAppend(a, DropLast(b));
      Associates(Ops(a), Ops(DropLast(b)), OpOf(Last(b)));
    }
  }

  lemma {:induction false} PushedAppend(a: seq<P.Op>, b: seq<P.Op>)
    ensures P.Pushed(a + b) == P.Pushed(a) + P.Pushed(b)
  {
    if b == [] {
      NothingAdded(a);
      NothingAdded(P.Pushed(a));
    } else {
      var n := |b| - 1;
      assert (a + b)[..|a + b| - 1] == a + b[..n] && (a + b)[|a + b| - 1] == b[n];
      PushedAppend(a, b[..n]);
      Associates(P.Pushed(a), P.Pushed(b[..n]), P.In(b[n]));
    }
  }

  /** The unmuted model audio that came while the phone was there. */
  function Audible(trace: seq<Entry>): seq<Pcm> {
    if trace == [] then []
    else
      var e := Last(trace).input;
      Audible(DropLast(trace)) + (if e.Audio? && !e.muted && GoneAt(DropLast(trace)).None? then e.pcm else [])
  }

  lemma OpsOfTwo(a: Out, b: Out)
    ensures Ops([a, b]) == Ops([a]) + Ops([b])
  {
    assert [a, b] == [a] + [b];
    OpsAppend([a], [b]);
  }

  lemma PushedOfTwo(a: P.Op, b: P.Op)
    ensures P.Pushed([a]) == P.In(a) && P.Pushed([a, b]) == P.In(a) + P.In(b)
  {
    assert [a][..|[a]| - 1] == [] && [a, b][..|[a, b]| - 1] == [a];
  }

  /** What one entry does to the jitter buffer. */
  function OpsOf(s: State, e: Input): seq<P.Op> {
    match e
    case Audio(pcm, muted) => if s.harvesting || muted then [] else [P.Expect(true), P.Push(pcm)]
    case Interrupted => [P.Expect(false), P.Fade(FADE_MS)]
    case TurnComplete => [P.Expect(false)]
    case Tick(_) => if s.harvesting then [] else [P.Tick]
    case _ => []
  }

  lemma EmittedOps(s: State, e: Entry)
    requires s.end.None?
    ensures Ops(Emitted(s, e)) == OpsOf(s, e.input)
  {
    var outs := Emitted(s, e);
    if |outs| == 2 { OpsOfTwo(outs[0], outs[1]); }
  }

  lemma PushedOps(s: State, e: Input)
    ensures P.Pushed(OpsOf(s, e)) == if e.Audio? && !e.muted && !s.harvesting then e.pcm else []
  {
    match e {
      case Audio(pcm, _) => PushedOfTwo(P.Expect(true), P.Push(pcm));
      case Interrupted => PushedOfTwo(P.Expect(false), P.Fade(FADE_MS));
      case TurnComplete => PushedOfTwo(P.Expect(false), P.Tick);
      case Tick(_) => PushedOfTwo(P.Tick, P.Tick);
      case _ =>
    }
  }

  lemma OnlyInterruptedFades(s: State, e: Input)
    requires e != Interrupted
    ensures P.NoBargeIn(OpsOf(s, e))
  {}

  predicate CutsOff(op: P.Op) { P.BargeIn(op) }

  /** One fade of 25 ms for each interruption. */
  function Fades(trace: seq<Entry>): seq<P.Op> {
    if trace == [] then []
    else Fades(DropLast(trace)) + (if Last(trace).input == Interrupted then [P.Fade(25)] else [])
  }

  lemma CutsOfEntry(s: State, e: Input)
    ensures Select(CutsOff, OpsOf(s, e)) == if e == Interrupted then [P.Fade(25)] else []
  {
    SelectShort(CutsOff, OpsOf(s, e));
  }

  /** Each interruption fades the buffer once, before and after the phone goes, and nothing else
      cuts it. */
  lemma {:induction false} FadePerInterruption(grace: Option<nat>, trace: seq<Entry>)
    requires Proper(grace, trace)
    ensures Select(CutsOff, Ops(Outs(grace, trace))) == Fades(trace)
  {
    if trace != [] {
      var before, e := DropLast(trace), Last(trace);
      FadePerInterruption(grace, before);
      EmittedOps(Run(grace, before), e);
      CutsOfEntry(Run(grace, before), e.input);
      OpsAppend(Outs(grace, before), Emitted(Run(grace, before), e));
      SelectAppend(CutsOff, Ops(Outs(grace, before)), OpsOf(Run(grace, before), e.input));
    }
  }

  predicate NeverInterrupted(trace: seq<Entry>) {
    forall i :: 0 <= i < |trace| ==> trace[i].input != Interrupted
  }

  /** The jitter buffer is given exactly the audible audio. */
  lemma {:induction false} AudioBuffered(grace: Option<nat>, trace: seq<Entry>)
    requires Proper(grace, trace)
    ensures P.Pushed(Ops(Outs(grace, trace))) == Audible(trace)
  {
    if trace != [] {
      var before, e := DropLast(trace), Last(trace);
      AudioBuffered(grace, before);
      ArmedOnce(grace, before);
      EmittedOps(Run(grace, before), e);
      PushedOps(Run(grace, before), e.input);
      OpsAppend(Outs(grace, before), Emitted(Run(grace, before), e));
      PushedAppend(Ops(Outs(grace, before)), Ops(Emitted(Run(grace, before), e)));
    }
  }

  lemma {:induction false} OnlyInterruptionsBargeIn(grace: Option<nat>, trace: seq<Entry>)
    requires Proper(grace, trace) && NeverInterrupted(trace)
    ensures P.NoBargeIn(Ops(Outs(grace, trace)))
  {
    if trace != [] {
      var before, e := DropLast(trace), Last(trace);
      assert e == trace[|trace| - 1] && forall i :: 0 <= i < |before| ==> before[i] == trace[i];
      OnlyInterruptionsBargeIn(grace, before);
      EmittedOps(Run(grace, before), e);
      OnlyInterruptedFades(Run(grace, before), e.input);
      OpsAppend(Outs(grace, before), Emitted(Run(grace, before), e));
    }
  }

  /** From the model to the phone: while nobody interrupts, what was played followed by what is
      still buffered is exactly the unmuted audio that came while the phone was there. */
  lemma AudioConserved(grace: Option<nat>, trace: seq<Entry>, h: P.Holds)
    requires Proper(grace, trace) && NeverInterrupted(trace)
    ensures var ops := Ops(Outs(grace, trace));
            P.Played(h, P.Fresh(h), ops) + P.Run(h, P.Fresh(h), ops).buf == Audible(trace)
  {
    AudioBuffered(grace, trace);
    OnlyInterruptionsBargeIn(grace, trace);
    P.Conservation(h, P.Fresh(h), Ops(Outs(grace, trace)));
  }

  // ----- turns ----------------------------------------------------------------------------------

  /** The entry brings model audio that goes into the jitter buffer. */
  predicate Accepted(before: seq<Entry>, e: Input) { e.Audio? && !e.muted && GoneAt(before).None? }

  predicate ClosesTurn(e: Input) { e == Interrupted || e == TurnComplete }

  /** The model has spoken since the last interruption or completed turn. */
  predicate TurnOpen(trace: seq<Entry>) {
    trace != []
    && (Accepted(DropLast(trace), Last(trace).input)
        || (!ClosesTurn(Last(trace).input) && TurnOpen(DropLast(trace))))
  }

  lemma EntryExpects(h: P.Holds, p: P.Pacer, s: State, e: Input)
    ensures P.Run(h, p, OpsOf(s, e)).expecting
         == if e.Audio? && !e.muted && !s.harvesting then true else !ClosesTurn(e) && p.expecting
  {
    match e {
      case Audio(pcm, _) => P.Pair(h, p, P.Expect(true), P.Push(pcm));
      case Interrupted => P.Pair(h, p, P.Expect(false), P.Fade(FADE_MS));
      case TurnComplete => P.Single(h, p, P.Expect(false));
      case Tick(_) => P.Single(h, p, P.Tick);
      case _ =>
    }
  }

  /** The jitter buffer expects audio exactly while a turn is open. */
  lemma {:induction false} ExpectsOpenTurn(grace: Option<nat>, trace: seq<Entry>, h: P.Holds)
    requires Proper(grace, trace)
    ensures P.Run(h, P.Fresh(h), Ops(Outs(grace, trace))).expecting == TurnOpen(trace)
  {
    if trace != [] {
      var before, e := DropLast(trace), Last(trace);
      var s, ops := Run(grace, before), Ops(Outs(grace, before));
      ExpectsOpenTurn(grace, before, h);
      ArmedOnce(grace, before);
      EmittedOps(s, e);
      OpsAppend(Outs(grace, before), Emitted(s, e));
      P.Joins(h, P.Fresh(h), ops, OpsOf(s, e.input));
      EntryExpects(h, P.Run(h, P.Fresh(h), ops), s, e.input);
    }
  }

  /** What the entries from index `n` on do to the jitter buffer. */
  function OpsFrom(grace: Option<nat>, trace: seq<Entry>, n: nat): seq<P.Op>
    requires n <= |trace|
  {
    if n == |trace| then []
    else OpsFrom(grace, DropLast(trace), n) + OpsOf(Run(grace, DropLast(trace)), Last(trace).input)
  }

  lemma {:induction false} OpsSplit(grace: Option<nat>, trace: seq<Entry>, n: nat)
    requires n <= |trace| && Proper(grace, trace)
    ensures Ops(Outs(grace, trace)) == Ops(Outs(grace, trace[..n])) + OpsFrom(grace, trace, n)
  {
    if n == |trace| {
      assert trace[..n] == trace;
    } else {
      var before, e := DropLast(trace), Last(trace);
      assert before[..n] == trace[..n];
      OpsSplit(grace, before, n);
      EmittedOps(Run(grace, before), e);
      OpsAppend(Outs(grace, before), Emitted(Run(grace, before), e));
      Associates(Ops(Outs(grace, trace[..n])), OpsFrom(grace, before, n), OpsOf(Run(grace, before), e.input));
    }
  }

  lemma {:induction false} OpsFromFirst(grace: Option<nat>, trace: seq<Entry>, n: nat)
    requires n < |trace|
    ensures OpsFrom(grace, trace, n)
         == OpsOf(Run(grace, trace[..n]), trace[n].input) + OpsFrom(grace, trace, n + 1)
  {
    var before := DropLast(trace);
    if n == |before| {
      assert trace[..n] == before;
    } else {
      assert before[..n] == trace[..n];
      OpsFromFirst(grace, before, n);
      Associates(OpsOf(Run(grace, trace[..n]), trace[n].input), OpsFrom(grace, before, n + 1),
                 OpsOf(Run(grace, before), Last(trace).input));
    }
  }

  lemma {:induction false} NoBargeInFrom(grace: Option<nat>, trace: seq<Entry>, n: nat)
    requires n <= |trace| && forall i :: n <= i < |trace| ==> trace[i].input != Interrupted
    ensures P.NoBargeIn(OpsFrom(grace, trace, n))
  {
    if n < |trace| {
      NoBargeInFrom(grace, DropLast(trace), n);
      OnlyInterruptedFades(Run(grace, DropLast(trace)), Last(trace).input);
    }
  }

  /** A tick found a whole prefill buffered while everything before it was silent. */
  predicate PrefilledAt(h: P.Holds, p: P.Pacer, ops: seq<P.Op>, k: nat) {
    k < |ops| && ops[k].Tick? && P.Played(h, p, ops[..k]) == []
    && |P.Run(h, p, ops[..k]).buf| >= Max(h.prebuffer, P.IN_PER_FRAME)
  }

  /** One operation earlier. */
  lemma PrefilledLater(h: P.Holds, p: P.Pacer, op: P.Op, rest: seq<P.Op>, k: nat)
    requires P.Out(p, op) == [] && PrefilledAt(h, P.Step(h, p, op), rest, k)
    ensures PrefilledAt(h, p, [op] + rest, k + 1)
  {
    P.Single(h, p, op);
    P.Joins(h, p, [op], rest[..k]);
    assert ([op] + rest)[..k + 1] == [op] + rest[..k];
  }

  lemma HeldPrefills(h: P.Holds, q: P.Pacer, rest: seq<P.Op>) returns (k: nat)
    requires !q.playing && q.fillTarget == h.prebuffer && P.NoBargeIn(rest) && P.Played(h, q, rest) != []
    ensures PrefilledAt(h, q, rest, k)
  {
    P.FirstFrameIsFilled(h, q, rest);
    k :| P.LetOutAt(h, q, rest, k);
    assert !P.BargeIn(rest[k]);
  }

  lemma RisingEdgePrefills(h: P.Holds, p: P.Pacer, rest: seq<P.Op>)
    requires !p.expecting && P.NoBargeIn(rest) && P.Played(h, p, [P.Expect(true)] + rest) != []
    ensures exists k: nat :: PrefilledAt(h, p, [P.Expect(true)] + rest, k)
  {
    P.Single(h, p, P.Expect(true));
    P.Joins(h, p, [P.Expect(true)], rest);
    var k := HeldPrefills(h, P.Step(h, p, P.Expect(true)), rest);
    PrefilledLater(h, p, P.Expect(true), rest, k);
  }

  /** The first audio of a turn, after an interruption or a completed turn, is heard only once a
      whole prefill is buffered: nothing that is still there from before the turn plays either. */
  lemma NewTurnPrefills(grace: Option<nat>, trace: seq<Entry>, n: nat, h: P.Holds)
    requires n < |trace| && Proper(grace, trace)
    requires Accepted(trace[..n], trace[n].input) && !TurnOpen(trace[..n])
    requires forall i :: n <= i < |trace| ==> trace[i].input != Interrupted
    ensures var p, ops := P.Run(h, P.Fresh(h), Ops(Outs(grace, trace[..n]))), OpsFrom(grace, trace, n);
            Ops(Outs(grace, trace)) == Ops(Outs(grace, trace[..n])) + ops
            && (P.Played(h, p, ops) != [] ==> exists k: nat :: PrefilledAt(h, p, ops, k))
  {
    var p, ops := P.Run(h, P.Fresh(h), Ops(Outs(grace, trace[..n]))), OpsFrom(grace, trace, n);
    ProperPrefix(grace, trace, n);
    OpsSplit(grace, trace, n);
    OpsFromFirst(grace, trace, n);
    NoBargeInFrom(grace, trace, n);
    ArmedOnce(grace, trace[..n]);
    ExpectsOpenTurn(grace, trace[..n], h);
    var rest := ops[1..];
    assert ops == [P.Expect(true)] + rest;
    forall i | 0 <= i < |rest| ensures !P.BargeIn(rest[i]) { assert rest[i] == ops[i + 1]; }
    if P.Played(h, p, ops) != [] { RisingEdgePrefills(h, p, rest); }
  }

  // ----- released audio -------------------------------------------------------------------------

  predicate Released(p: P.Pacer) { p.playing || P.Filled(p) }

  /** The entry leaves a released buffer released: it neither cuts it nor opens a turn. */
  predicate GoesOn(before: seq<Entry>, e: Input) {
    e != Interrupted && (Accepted(before, e) ==> TurnOpen(before))
  }

  lemma EntryFlows(h: P.Holds, q: P.Pacer, s: State, e: Input)
    requires Released(q) && e != Interrupted && (e.Audio? && !e.muted && !s.harvesting ==> q.expecting)
    requires e.Tick? && !s.harvesting ==> |q.buf| >= P.IN_PER_FRAME
    ensures var r, out := P.Run(h, q, OpsOf(s, e)), P.Played(h, q, OpsOf(s, e));
            Released(r) && |r.buf| + |out| >= |q.buf|
            && |out| == if e.Tick? && !s.harvesting then P.IN_PER_FRAME else 0
  {
    match e {
      case Audio(pcm, _) => P.Pair(h, q, P.Expect(true), P.Push(pcm));
      case TurnComplete => P.Single(h, q, P.Expect(false));
      case Tick(_) => P.Single(h, q, P.Tick);
      case _ =>
    }
  }

  /** Since entry `n` the buffer has been played out, a frame per tick. */
  predicate Flowed(grace: Option<nat>, trace: seq<Entry>, n: nat, h: P.Holds, p: P.Pacer)
    requires n <= |trace|
  {
    var q, out := P.Run(h, p, OpsFrom(grace, trace, n)), P.Played(h, p, OpsFrom(grace, trace, n));
    Released(q) && |q.buf| + |out| >= |p.buf| && |out| + P.Samples(BeatCount(trace[..n])) == P.Samples(BeatCount(trace))
  }

  lemma {:induction false} BeatsGrow(trace: seq<Entry>, n: nat)
    requires n <= |trace|
    ensures BeatCount(trace[..n]) <= BeatCount(trace)
  {
    if n == |trace| {
      assert trace[..n] == trace;
    } else {
      assert DropLast(trace)[..n] == trace[..n];
      BeatsGrow(DropLast(trace), n);
    }
  }

  /** So do all entries from index `n` on. */
  predicate GoesOnFrom(trace: seq<Entry>, n: nat) {
    |trace| <= n || (GoesOn(DropLast(trace), Last(trace).input) && GoesOnFrom(DropLast(trace), n))
  }

  lemma {:induction false} FlowsOn(grace: Option<nat>, trace: seq<Entry>, n: nat, h: P.Holds, p: P.Pacer)
    requires n <= |trace| && Proper(grace, trace) && GoesOnFrom(trace, n)
    requires p == P.Run(h, P.Fresh(h), Ops(Outs(grace, trace[..n]))) && Released(p)
    requires P.Samples(BeatCount(trace)) <= |p.buf| + P.Samples(BeatCount(trace[..n]))
    ensures Flowed(grace, trace, n, h, p)
  {
    if n == |trace| {
      assert trace[..n] == trace;
    } else {
      assert DropLast(trace)[..n] == trace[..n];
      FlowsOn(grace, DropLast(trace), n, h, p);
      FlowsNext(grace, trace, n, h, p);
    }
  }

  lemma FlowsNext(grace: Option<nat>, trace: seq<Entry>, n: nat, h: P.Holds, p: P.Pacer)
    requires n < |trace| && Proper(grace, trace) && Flowed(grace, DropLast(trace), n, h, p)
    requires p == P.Run(h, P.Fresh(h), Ops(Outs(grace, trace[..n])))
    requires GoesOn(DropLast(trace), Last(trace).input)
    requires P.Samples(BeatCount(trace)) <= |p.buf| + P.Samples(BeatCount(trace[..n]))
    ensures Flowed(grace, trace, n, h, p)
  {
    var before, e := DropLast(trace), Last(trace).input;
    var s, ops := Run(grace, before), OpsFrom(grace, before, n);
    assert before[..n] == trace[..n];
    OpsSplit(grace, before, n);
    P.Joins(h, P.Fresh(h), Ops(Outs(grace, before[..n])), ops);
    ExpectsOpenTurn(grace, before, h);
    ArmedOnce(grace, before);
    EntryFlows(h, P.Run(h, p, ops), s, e);
    P.Joins(h, p, ops, OpsOf(s, e));
  }

  lemma {:induction false} NeverCutFrom(grace: Option<nat>, trace: seq<Entry>, n: nat)
    requires n <= |trace| && GoesOnFrom(trace, n)
    ensures P.NoBargeIn(OpsFrom(grace, trace, n))
  {
    if n < |trace| {
      NeverCutFrom(grace, DropLast(trace), n);
      OnlyInterruptedFades(Run(grace, DropLast(trace)), Last(trace).input);
    }
  }

  /** Audio that is released reaches the phone: as long as nobody interrupts and no turn opens, the
      ticks play it block by block from the head of the buffer. */
  lemma ReleasedIsHeard(grace: Option<nat>, trace: seq<Entry>, n: nat, h: P.Holds)
    requires n <= |trace| && Proper(grace, trace) && GoesOnFrom(trace, n)
    requires Released(P.Run(h, P.Fresh(h), Ops(Outs(grace, trace[..n]))))
    ensures var p := P.Run(h, P.Fresh(h), Ops(Outs(grace, trace[..n])));
            var beats := BeatCount(trace) - BeatCount(trace[..n]);
            beats >= 0
            && (P.Samples(beats) <= |p.buf| ==>
                  P.Played(h, p, OpsFrom(grace, trace, n)) == p.buf[..P.Samples(beats)])
  {
    var p, ops := P.Run(h, P.Fresh(h), Ops(Outs(grace, trace[..n]))), OpsFrom(grace, trace, n);
    BeatsGrow(trace, n);
    if P.Samples(BeatCount(trace) - BeatCount(trace[..n])) <= |p.buf| {
      FlowsOn(grace, trace, n, h, p);
      NeverCutFrom(grace, trace, n);
      PlaysHead(h, p, ops);
    }
  }

  lemma PlaysHead(h: P.Holds, p: P.Pacer, ops: seq<P.Op>)
    requires P.NoBargeIn(ops) && |P.Played(h, p, ops)| <= |p.buf|
    ensures P.Played(h, p, ops) == p.buf[..|P.Played(h, p, ops)|]
  {
    P.Conservation(h, p, ops);
    HeadOf(P.Played(h, p, ops), P.Run(h, p, ops).buf, p.buf, P.Pushed(ops));
  }

  lemma HeadOf<T>(head: seq<T>, tail: seq<T>, a: seq<T>, b: seq<T>)
    requires head + tail == a + b && |head| <= |a|
    ensures head == a[..|head|]
  {
    assert head == (head + tail)[..|head|] == (a + b)[..|head|];
  }

  /** A bridge that goes on has not ended before. */
  lemma {:induction false} ProperPrefix(grace: Option<nat>, trace: seq<Entry>, n: nat)
    requires n < |trace| && Proper(grace, trace)
    ensures Proper(grace, trace[..n]) && Run(grace, trace[..n]).end.None?
  {
    var before := DropLast(trace);
    if n == |before| {
      assert trace[..n] == before;
    } else {
      assert before[..n] == trace[..n];
      ProperPrefix(grace, before, n);
    }
  }

  // ----- the loop -------------------------------------------------------------------------------

  lemma OneMore(grace: Option<nat>, trace: seq<Entry>, n: nat)
    requires n < |trace|
    ensures Run(grace, trace[..n + 1]) == Step(grace, Run(grace, trace[..n]), trace[n])
    ensures Outs(grace, trace[..n + 1]) == Outs(grace, trace[..n]) + Emitted(Run(grace, trace[..n]), trace[n])
    ensures Run(grace, trace[..n]).end.None? ==> Proper(grace, trace[..n + 1])
  {
    assert DropLast(trace[..n + 1]) == trace[..n] && Last(trace[..n + 1]) == trace[n];
  }

  /** One turn of the loop on its variables. */
  method Turn(grace: Option<nat>, s: State, entry: Entry) returns (s': State, emitted: seq<Out>)
    requires s.end.None?
    ensures s' == Step(grace, s, entry) && emitted == Emitted(s, entry)
  {
    var uplinkRunning, harvesting, graceDeadline := s.uplinkRunning, s.harvesting, s.deadline;
    var end: Option<BridgeEnd> := None;
    var phoneGone := false;
    emitted := [];
    match entry.input {
      case Cancel => end := Some(Cancelled);
      case UplinkEnded =>
        if uplinkRunning {
          uplinkRunning := false;
          phoneGone := true;
        }
      case GraceTimer =>
        if graceDeadline.Some? && entry.at >= graceDeadline.value {
          end := Some(PhoneClosed);
        }
      case EventsClosed => end := Some(GeminiClosed);
      case Audio(pcm, muted) =>
        if !harvesting && !muted {
          emitted := [Down(P.Expect(true)), Down(P.Push(pcm))];
        }
      case Interrupted => emitted := [Down(P.Expect(false)), Down(P.Fade(FADE_MS))];
      case TurnComplete => emitted := [Down(P.Expect(false)), ForwardTurnComplete];
      case Other(token) => emitted := [ForwardOther(token)];
      case Tick(sent) =>
        if !harvesting {
          emitted := [Down(P.Tick), Frame];
          phoneGone := !sent;
        }
    }
    if phoneGone {
      if grace.None? {
        end := Some(PhoneClosed);
      } else if !harvesting {
        harvesting := true;
        graceDeadline := Some(entry.at + grace.value);
      }
    }
    s' := State(uplinkRunning, harvesting, graceDeadline, end);
  }

  /** Runs until the bridge ends or the trace is used up. */
  method RunBridge(grace: Option<nat>, trace: seq<Entry>)
    returns (end: Option<BridgeEnd>, outs: seq<Out>, taken: nat)
    ensures taken <= |trace| && Proper(grace, trace[..taken]) && (end.None? ==> taken == |trace|)
    ensures end == Run(grace, trace[..taken]).end && outs == Outs(grace, trace[..taken])
  {
    var s := START;
    outs, taken := [], 0;
    while taken < |trace| && s.end.None?
      invariant taken <= |trace| && Proper(grace, trace[..taken])
      invariant s == Run(grace, trace[..taken]) && outs == Outs(grace, trace[..taken])
    {
      OneMore(grace, trace, taken);
      var emitted;
      s, emitted := Turn(grace, s, trace[taken]);
      outs := outs + emitted;
      taken := taken + 1;
    }
    end := s.end;
  }
}
