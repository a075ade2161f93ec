/** The per-call session driver: one select loop over the session's events, the uplink, three
    timers and the hang-up. A trace lists what the loop woke up for, with the times and the
    results of its sends; an arm whose guard is off ignores its entry. */
module Driver {
  import opened Base

  /** A JSON value; nothing here looks inside. */
  type Json(==, !new)

  datatype Role = User | Model

  datatype Event =
    | OutputAudio(pcm: seq<Pcm>) | Transcript(role: Role, text: string, final: bool)
    | Affect(mood: string) | Interrupted | TurnComplete

  datatype Input =
    | Answered(yes: bool) | AnswerDropped
    | GreetTimer(sent: bool) | EndingTimer
    | Audio(pcm: seq<Pcm>, onset: bool, sent: bool) | AudioClosed
    | Opened(isReconnect: bool, resumed: bool, sent: bool)
    | Heard(event: Event)
    | ToolCall(name: string, id: nat, args: Json)
    | Closed | Hangup | Cue(text: string) | CueClosed

  datatype Entry = Entry(at: nat, input: Input)

  /** What the loop puts out: to the bridge, or to the session. */
  datatype Out =
    | Send(event: Event) | EndCall(goal: Json) | Uplink(pcm: seq<Pcm>) | Ack(id: nat)
    | GreetCue | ResumeCue | TextCue(text: string)

  datatype EndedBy = ModelEndCall | CallerHangup | RemoteClose

  datatype End = End(cause: EndedBy, goal: Option<Json>)

  datatype Line = Line(role: Role, text: string, tsMs: int)

  datatype Config = Config(start: nat, answered: bool, greetAfterMs: nat)

  const FAR_MS: nat := 86_400_000
  const ENDING_MS: nat := 10_000

  /** What decides whether the model should speak first. */
  datatype Greeting = Greeting(
    greeted: bool, hadActivity: bool, calleeActive: bool, reconnected: bool,
    armed: bool, deadline: nat, answeredClosed: bool)

  /** The unfinished turn of each speaker, and the lines of finished turns. */
  datatype Notes = Notes(user: string, model: string, lines: seq<Line>)

  /** An accepted `end_call` whose turn has not finished yet. */
  datatype Called = Called(at: nat, args: Json)

  datatype State = State(
    greeting: Greeting, resumeNeeded: bool, ending: Option<Called>, cueOpen: bool, notes: Notes, end: Option<End>)

  function StartGreeting(c: Config): Greeting {
    Greeting(c.greetAfterMs == 0, false, false, false,
             c.answered, c.start + (if c.answered then c.greetAfterMs else FAR_MS), false)
  }

  function Start(c: Config): State {
    State(StartGreeting(c), false, None, true, Notes("", "", []), None)
  }

  // ----- the transcript accumulator ---------------------------------------------------------

  /** Unicode White_Space, which `str::trim` removes. */
  predicate IsSpace(ch: char) {
    var n := ch as int;
    9 <= n <= 13 || n == 32 || n == 0x85 || n == 0xA0 || n == 0x1680 || 0x2000 <= n <= 0x200A
    || n == 0x2028 || n == 0x2029 || n == 0x202F || n == 0x205F || n == 0x3000
  }

  function TrimStart(s: string): string {
    if s != [] && IsSpace(s[0]) then TrimStart(s[1..]) else s
  }

  function TrimEnd(s: string): string {
    if s != [] && IsSpace(s[|s| - 1]) then TrimEnd(s[..|s| - 1]) else s
  }

  function Trim(s: string): string { TrimEnd(TrimStart(s)) }

  /** The line, if any, that one speaker's turn becomes. */
  function LineOf(role: Role, text: string, ts: int): seq<Line> {
    if Trim(text) == "" then [] else [Line(role, Trim(text), ts)]
  }

  function Flushed(user: string, model: string, tsMs: int): seq<Line> {
    LineOf(User, user, tsMs) + LineOf(Model, model, tsMs)
  }

  function Flush(c: Config, n: Notes, at: nat): Notes {
    Notes("", "", n.lines + Flushed(n.user, n.model, at - c.start))
  }

  function Noted(n: Notes, role: Role, text: string): Notes {
    if role.User? then n.(user := n.user + text) else n.(model := n.model + text)
  }

  function StepNotes(c: Config, n: Notes, e: Entry): Notes {
    match e.input
    case Heard(Transcript(role, text, _)) => Noted(n, role, text)
    case Heard(TurnComplete) => Flush(c, n, e.at)
    case _ => n
  }

  // ----- one turn of the loop -----------------------------------------------------------------

  predicate GreetReady(g: Greeting, at: nat) {
    g.armed && !g.greeted && !g.hadActivity && !g.calleeActive && !g.reconnected && at >= g.deadline
  }

  predicate IsEndCall(e: Input) { e.ToolCall? && e.name == "end_call" }

  predicate FromCallee(e: Input) {
    (e.Audio? && e.onset) || (e.Heard? && e.event.Transcript? && e.event.role.User?)
  }

  predicate FromModel(e: Input) { e.Heard? }

  function StepGreeting(c: Config, g: Greeting, e: Entry): Greeting {
    match e.input
    case Answered(yes) =>
      if yes && !g.armed && !g.greeted && !g.answeredClosed then
        g.(armed := true, deadline := e.at + c.greetAfterMs)
      else g
    case AnswerDropped => if !g.armed && !g.greeted then g.(answeredClosed := true) else g
    case GreetTimer(_) => if GreetReady(g, e.at) then g.(greeted := true) else g
    case Opened(true, _, _) => g.(reconnected := true, greeted := true)
    case ToolCall(_, _, _) => if IsEndCall(e.input) then g.(greeted := true) else g
    case Audio(_, onset, _) => if onset then g.(calleeActive := true) else g
    case Heard(event) =>
      var h := g.(hadActivity := true);
      if FromCallee(e.input) then h.(calleeActive := true) else h
    case _ => g
  }

  function StepResume(needed: bool, e: Input): bool {
    if e == Heard(TurnComplete) then false else needed || FromCallee(e)
  }

  function StepEnding(ending: Option<Called>, e: Entry): Option<Called> {
    if IsEndCall(e.input) && ending.None? then Some(Called(e.at, e.input.args)) else ending
  }

  /** The cue for a session that reopened without its context in the middle of an exchange. */
  predicate Resumes(d: State, e: Input) { e.Opened? && e.isReconnect && !e.resumed && d.resumeNeeded }

  predicate EndReady(d: State, at: nat) { d.ending.Some? && at >= d.ending.value.at + ENDING_MS }

  function WithGoal(d: State): Option<End>
    requires d.ending.Some?
  {
    Some(End(ModelEndCall, Some(d.ending.value.args)))
  }

  function EndOf(d: State, e: Entry): Option<End> {
    match e.input
    case GreetTimer(false) => if GreetReady(d.greeting, e.at) then Some(End(RemoteClose, None)) else None
    case EndingTimer => if EndReady(d, e.at) then WithGoal(d) else None
    case Audio(_, _, false) => Some(End(RemoteClose, None))
    case AudioClosed => Some(End(CallerHangup, None))
    case Opened(_, _, false) => if Resumes(d, e.input) then Some(End(RemoteClose, None)) else None
    case Heard(TurnComplete) => if d.ending.Some? then WithGoal(d) else None
    case Closed => Some(End(RemoteClose, None))
    case Hangup => Some(End(CallerHangup, None))
    case _ => None
  }

  function Step(c: Config, d: State, e: Entry): State {
    if d.end.Some? then d
    else State(StepGreeting(c, d.greeting, e), StepResume(d.resumeNeeded, e.input), StepEnding(d.ending, e),
               d.cueOpen && !e.input.CueClosed?, StepNotes(c, d.notes, e), EndOf(d, e))
  }

  function Emitted(d: State, e: Entry): seq<Out> {
    if d.end.Some? then [] else
    match e.input
    case GreetTimer(_) => if GreetReady(d.greeting, e.at) then [GreetCue] else []
    case EndingTimer => if EndReady(d, e.at) then [EndCall(d.ending.value.args)] else []
    case Audio(pcm, _, _) => [Uplink(pcm)]
    case Opened(isReconnect, _, _) =>
      if !isReconnect then []
      else if Resumes(d, e.input) then [Send(Interrupted), ResumeCue] else [Send(Interrupted)]
    case Heard(event) =>
      if event.TurnComplete? && d.ending.Some? then [Send(event), EndCall(d.ending.value.args)]
      else [Send(event)]
    case ToolCall(_, id, _) => if IsEndCall(e.input) then [Ack(id)] else []
    case Cue(text) => if d.cueOpen then [TextCue(text)] else []
    case _ => []
  }

  function Run(c: Config, trace: seq<Entry>): State {
    if trace == [] then Start(c) else Step(c, Run(c, DropLast(trace)), Last(trace))
  }

  function Outs(c: Config, trace: seq<Entry>): seq<Out> {
    if trace == [] then [] else Outs(c, DropLast(trace)) + Emitted(Run(c, DropLast(trace)), Last(trace))
  }

  /** The trace stops where the driver does, if it does. */
  predicate Proper(c: Config, trace: seq<Entry>) { trace == [] || Run(c, DropLast(trace)).end.None? }

  // ----- the deferred end -----------------------------------------------------------------------

  /** The first `end_call` of the trace. */
  function FirstEndCall(trace: seq<Entry>): Option<Called> {
    if trace == [] then None
    else
      var earlier := FirstEndCall(DropLast(trace));
      if earlier.None? && IsEndCall(Last(trace).input) then Some(Called(Last(trace).at, Last(trace).input.args))
      else earlier
  }

  lemma {:induction false} EndingIsFirstCall(c: Config, trace: seq<Entry>)
    requires Run(c, trace).end.None?
    ensures Run(c, trace).ending == FirstEndCall(trace)
  {
    if trace != [] { EndingIsFirstCall(c, DropLast(trace)); }
  }

  /** The driver ends with a goal exactly when the first `end_call` has been made and then its
      turn completes or ten seconds have passed; the goal is that call's. Whatever else ends
      the driver drops the goal. */
  lemma DeferredEnd(c: Config, trace: seq<Entry>, goal: Json)
    requires trace != [] && Proper(c, trace)
    ensures var f, e := FirstEndCall(DropLast(trace)), Last(trace);
            Run(c, trace).end == Some(End(ModelEndCall, Some(goal)))
            <==> (f.Some? && f.value.args == goal
                  && (e.input == Heard(TurnComplete)
                      || (e.input == EndingTimer && e.at >= f.value.at + ENDING_MS)))
    ensures Run(c, trace).end.Some? ==>
              (Run(c, trace).end.value.goal.Some? <==> Run(c, trace).end.value.cause == ModelEndCall)
  {
    EndingIsFirstCall(c, DropLast(trace));
  }

  // ----- the events for the bridge --------------------------------------------------------------

  predicate ForBridge(out: Out) { out.Send? || out.EndCall? }

  function Events(outs: seq<Out>): seq<Out> { Select(ForBridge, outs) }

  function ForwardOf(e: Input): seq<Out> {
    match e
    case Opened(true, _, _) => [Send(Interrupted)]
    case Heard(event) => [Send(event)]
    case _ => []
  }

  function Forwarded(trace: seq<Entry>): seq<Out> {
    if trace == [] then [] else Forwarded(DropLast(trace)) + ForwardOf(Last(trace).input)
  }

  /** The event that closes the stream, if the model ended the call. */
  function Closing(end: Option<End>): seq<Out> {
    if end.Some? && end.value.goal.Some? then [EndCall(end.value.goal.value)] else []
  }

  /** An entry closes the stream exactly when it ends the driver with a goal. */
  predicate Closes(d: State, e: Entry) {
    d.ending.Some? && (e.input == Heard(TurnComplete) || (e.input == EndingTimer && EndReady(d, e.at)))
  }

  lemma ClosesExactly(d: State, e: Entry)
    requires d.end.None?
    ensures Closing(EndOf(d, e)) == if Closes(d, e) then [EndCall(d.ending.value.args)] else []
  {}

  lemma EmittedOpen(d: State, e: Entry)
    requires d.end.None? && !Closes(d, e)
    ensures Events(Emitted(d, e)) == ForwardOf(e.input)
  {
    SelectShort(ForBridge, Emitted(d, e));
  }

  lemma EmittedEvents(d: State, e: Entry)
    requires d.end.None?
    ensures Events(Emitted(d, e)) == ForwardOf(e.input) + Closing(EndOf(d, e))
  {
    ClosesExactly(d, e);
    if Closes(d, e) {
      SelectShort(ForBridge, Emitted(d, e));
    } else {
      EmittedOpen(d, e);
      NothingAdded(ForwardOf(e.input));
    }
  }

  lemma {:induction false} EventsOfStep(c: Config, trace: seq<Entry>)
    requires trace != [] && Proper(c, trace)
    ensures Events(Outs(c, trace))
         == Events(Outs(c, DropLast(trace))) + (ForwardOf(Last(trace).input) + Closing(Run(c, trace).end))
  {
    var d, e := Run(c, DropLast(trace)), Last(trace);
    SelectAppend(ForBridge, Outs(c, DropLast(trace)), Emitted(d, e));
    EmittedEvents(d, e);
  }

  lemma {:induction false} EventsWhileRunning(c: Config, trace: seq<Entry>)
    requires Run(c, trace).end.None?
    ensures Events(Outs(c, trace)) == Forwarded(trace)
  {
    if trace != [] {
      EventsWhileRunning(c, DropLast(trace));
      EventsOfStep(c, trace);
      NothingAdded(ForwardOf(Last(trace).input));
    }
  }

  /** The bridge receives every event of the session in order, an interruption for each
      reconnect, and then, exactly when the model ended the call, one `EndCall`. */
  lemma {:induction false} EventsForwarded(c: Config, trace: seq<Entry>)
    requires Proper(c, trace)
    ensures Events(Outs(c, trace)) == Forwarded(trace) + Closing(Run(c, trace).end)
  {
    if trace != [] {
      EventsWhileRunning(c, DropLast(trace));
      EventsOfStep(c, trace);
      Associates(Forwarded(DropLast(trace)), ForwardOf(Last(trace).input), Closing(Run(c, trace).end));
    }
  }

  /** That `EndCall` is the only one, and the last event. */
  lemma {:induction false} EndCallOnceAndLast(c: Config, trace: seq<Entry>, i: nat)
    requires Proper(c, trace) && i < |Events(Outs(c, trace))| && Events(Outs(c, trace))[i].EndCall?
    ensures i == |Events(Outs(c, trace))| - 1
    ensures Run(c, trace).end == Some(End(ModelEndCall, Some(Events(Outs(c, trace))[i].goal)))
  {
    EventsForwarded(c, trace);
    if i < |Forwarded(trace)| { ForwardsNoEndCall(trace, i); }
    EndHasCause(c, trace);
  }

  lemma {:induction false} ForwardsNoEndCall(trace: seq<Entry>, i: nat)
    requires i < |Forwarded(trace)|
    ensures !Forwarded(trace)[i].EndCall?
  {
    if i < |Forwarded(DropLast(trace))| { ForwardsNoEndCall(DropLast(trace), i); }
  }

  lemma EndHasCause(c: Config, trace: seq<Entry>)
    requires Proper(c, trace) && Run(c, trace).end.Some?
    ensures Run(c, trace).end.value.goal.Some? <==> Run(c, trace).end.value.cause == ModelEndCall
  {}

  /** What the session receives apart from cues. */
  predicate ForSession(out: Out) { out.Uplink? || out.Ack? }

  function ToSession(outs: seq<Out>): seq<Out> { Select(ForSession, outs) }

  function AnswerOf(e: Input): seq<Out> {
    if e.Audio? then [Uplink(e.pcm)] else if IsEndCall(e) then [Ack(e.id)] else []
  }

  function Answers(trace: seq<Entry>): seq<Out> {
    if trace == [] then [] else Answers(DropLast(trace)) + AnswerOf(Last(trace).input)
  }

  lemma EmittedAnswers(d: State, e: Entry)
    requires d.end.None?
    ensures ToSession(Emitted(d, e)) == AnswerOf(e.input)
  {
    var outs := Emitted(d, e);
    SelectShort(ForSession, outs);
    if e.input.Audio? {
      assert outs == [Uplink(e.input.pcm)];
    } else if IsEndCall(e.input) {
      assert outs == [Ack(e.input.id)];
    } else {
      assert forall i :: 0 <= i < |outs| ==> !ForSession(outs[i]);
    }
  }

  /** Every uplink frame reaches the model unchanged and in order, and every `end_call` is
      acknowledged, even repeated ones. */
  lemma {:induction false} UplinkTransparent(c: Config, trace: seq<Entry>)
    requires Proper(c, trace)
    ensures ToSession(Outs(c, trace)) == Answers(trace)
  {
    if trace != [] {
      UplinkTransparent(c, DropLast(trace));
      SelectAppend(ForSession, Outs(c, DropLast(trace)), Emitted(Run(c, DropLast(trace)), Last(trace)));
      EmittedAnswers(Run(c, DropLast(trace)), Last(trace));
    }
  }

  // ----- the greeting ---------------------------------------------------------------------------

  /** What silences the greeting for good. */
  predicate Disturbs(e: Input) {
    FromModel(e) || FromCallee(e) || (e.Opened? && e.isReconnect) || IsEndCall(e)
  }

  predicate Quiet(trace: seq<Entry>) { forall k :: 0 <= k < |trace| ==> !Disturbs(trace[k].input) }

  lemma QuietBefore(trace: seq<Entry>)
    requires trace != []
    ensures Quiet(trace) <==> Quiet(DropLast(trace)) && !Disturbs(Last(trace).input)
  {
    if Quiet(DropLast(trace)) && !Disturbs(Last(trace).input) {
      forall k | 0 <= k < |trace| ensures !Disturbs(trace[k].input) {
        if k < |trace| - 1 { assert trace[k] == DropLast(trace)[k]; }
      }
    }
    if Quiet(trace) {
      forall k | 0 <= k < |DropLast(trace)| ensures !Disturbs(DropLast(trace)[k].input) {
        assert trace[k] == DropLast(trace)[k];
      }
      assert !Disturbs(trace[|trace| - 1].input);
    }
  }

  predicate Dropped(trace: seq<Entry>) {
    trace != [] && (Dropped(DropLast(trace)) || Last(trace).input.AnswerDropped?)
  }

  function ArmStep(armed: Option<nat>, dropped: bool, e: Entry): Option<nat> {
    if armed.None? && e.input == Answered(true) && !dropped then Some(e.at) else armed
  }

  /** When the call was answered: at the start, or at the first answer while one could come. */
  function ArmTime(c: Config, trace: seq<Entry>): Option<nat> {
    if trace == [] then (if c.answered then Some(c.start) else None)
    else ArmStep(ArmTime(c, DropLast(trace)), Dropped(DropLast(trace)), Last(trace))
  }

  /** The greeting can still come. */
  predicate CanGreet(g: Greeting) { !g.greeted && !g.hadActivity && !g.calleeActive && !g.reconnected }

  predicate Armed(c: Config, time: Option<nat>, dropped: bool, g: Greeting) {
    (g.armed <==> time.Some?)
    && (g.armed ==> g.deadline == time.value + c.greetAfterMs)
    && (!g.armed ==> g.answeredClosed == dropped)
  }

  lemma {:induction false} GreetingHistory(c: Config, trace: seq<Entry>)
    requires Run(c, trace).end.None?
    ensures var g := Run(c, trace).greeting;
            (CanGreet(g) <==> c.greetAfterMs > 0 && Quiet(trace) && GreetCue !in Outs(c, trace))
            && (CanGreet(g) ==> Armed(c, ArmTime(c, trace), Dropped(trace), g))
  {
    if trace != [] {
      GreetingHistory(c, DropLast(trace));
      QuietBefore(trace);
      StepCanGreet(c, Run(c, DropLast(trace)), Last(trace));
      var g := Run(c, DropLast(trace)).greeting;
      if CanGreet(Run(c, trace).greeting) {
        StepArmed(c, ArmTime(c, DropLast(trace)), Dropped(DropLast(trace)), g, Last(trace));
      }
    }
  }

  lemma StepCanGreet(c: Config, d: State, e: Entry)
    requires d.end.None?
    ensures CanGreet(StepGreeting(c, d.greeting, e))
            <==> CanGreet(d.greeting) && !Disturbs(e.input) && GreetCue !in Emitted(d, e)
  {}

  lemma StepArmed(c: Config, time: Option<nat>, dropped: bool, g: Greeting, e: Entry)
    requires Armed(c, time, dropped, g) && CanGreet(g) && CanGreet(StepGreeting(c, g, e))
    ensures Armed(c, ArmStep(time, dropped, e), dropped || e.input.AnswerDropped?, StepGreeting(c, g, e))
  {}

  /** At `at` the greeting is due: it is enabled, the call was answered long enough ago, nothing
      has silenced it and it has not come yet. */
  predicate GreetDue(c: Config, trace: seq<Entry>, at: nat) {
    c.greetAfterMs > 0 && Quiet(trace) && GreetCue !in Outs(c, trace)
    && ArmTime(c, trace).Some? && at >= ArmTime(c, trace).value + c.greetAfterMs
  }

  /** The greet cue goes out exactly when its timer finds that greeting is enabled, the call was
      answered at least `greet_after_silence_ms` ago, nobody has said anything since, there was
      no reconnect and no `end_call`, and no cue was sent before. */
  lemma GreetsExactly(c: Config, trace: seq<Entry>)
    requires trace != [] && Proper(c, trace)
    ensures var before, e := DropLast(trace), Last(trace);
            GreetCue in Emitted(Run(c, before), e)
            <==> e.input.GreetTimer? && GreetDue(c, before, e.at)
  {
    GreetingHistory(c, DropLast(trace));
  }

  /** So there is never a second one. */
  lemma {:induction false} GreetsAtMostOnce(c: Config, trace: seq<Entry>, i: nat, j: nat)
    requires Proper(c, trace) && i < j < |Outs(c, trace)| && Outs(c, trace)[i] == GreetCue
    ensures Outs(c, trace)[j] != GreetCue
  {
    var before := Outs(c, DropLast(trace));
    if j < |before| {
      GreetsAtMostOnce(c, DropLast(trace), i, j);
    } else {
      GreetsExactly(c, trace);
      if i < |before| { assert GreetCue in before; }
    }
  }

  // ----- the resume cue -------------------------------------------------------------------------

  /** The callee has spoken since the last completed turn. */
  predicate CalleeWaits(trace: seq<Entry>) {
    exists k :: 0 <= k < |trace| && FromCallee(trace[k].input) && NoTurnAfter(trace, k)
  }

  predicate NoTurnAfter(trace: seq<Entry>, k: int) {
    forall j :: 0 <= k < j < |trace| ==> trace[j].input != Heard(TurnComplete)
  }

  lemma {:induction false} ResumeIsWaiting(c: Config, trace: seq<Entry>)
    requires Run(c, trace).end.None?
    ensures Run(c, trace).resumeNeeded <==> CalleeWaits(trace)
  {
    if trace != [] {
      ResumeIsWaiting(c, DropLast(trace));
      var n := |trace| - 1;
      if CalleeWaits(DropLast(trace)) && trace[n].input != Heard(TurnComplete) {
        var k :| 0 <= k < n && FromCallee(DropLast(trace)[k].input) && NoTurnAfter(DropLast(trace), k);
        forall j | k < j < |trace| ensures trace[j].input != Heard(TurnComplete) {
          if j < n { assert DropLast(trace)[j] == trace[j]; }
        }
        assert FromCallee(trace[k].input) && NoTurnAfter(trace, k);
      }
      if FromCallee(trace[n].input) { assert NoTurnAfter(trace, n); }
      if CalleeWaits(trace) {
        var k :| 0 <= k < |trace| && FromCallee(trace[k].input) && NoTurnAfter(trace, k);
        if k < n {
          forall j | k < j < n ensures DropLast(trace)[j].input != Heard(TurnComplete) {
            assert DropLast(trace)[j] == trace[j];
          }
          assert FromCallee(DropLast(trace)[k].input) && NoTurnAfter(DropLast(trace), k);
        }
      }
    }
  }

  /** The resume cue goes out exactly on a reconnect that did not resume while the callee was
      waiting for an answer. */
  lemma ResumesExactly(c: Config, trace: seq<Entry>)
    requires trace != [] && Proper(c, trace)
    ensures var e := Last(trace).input;
            ResumeCue in Emitted(Run(c, DropLast(trace)), Last(trace))
            <==> (e.Opened? && e.isReconnect && !e.resumed && CalleeWaits(DropLast(trace)))
    ensures ResumeCue in Emitted(Run(c, DropLast(trace)), Last(trace)) ==>
              Outs(c, trace) == Outs(c, DropLast(trace)) + [Send(Interrupted), ResumeCue]
  {
    ResumeIsWaiting(c, DropLast(trace));
  }

  // ----- why the driver ends --------------------------------------------------------------------

  /** The session does not take what it is sent: a frame, a greet cue that is due, or the cue after
      a reconnect that left the callee waiting. */
  predicate SendFails(c: Config, before: seq<Entry>, e: Entry) {
    match e.input
    case Audio(_, _, sent) => !sent
    case GreetTimer(sent) => !sent && GreetDue(c, before, e.at)
    case Opened(isReconnect, resumed, sent) => !sent && isReconnect && !resumed && CalleeWaits(before)
    case _ => false
  }

  /** Without a goal the driver ends exactly with a hang-up or the end of the callee's audio, or
      with a session that closes or no longer takes what it is sent; `DeferredEnd` has the ends
      with a goal, and there are no others. */
  lemma EndsExactly(c: Config, trace: seq<Entry>)
    requires trace != [] && Proper(c, trace)
    ensures var end, before, e := Run(c, trace).end, DropLast(trace), Last(trace);
            (end == Some(End(CallerHangup, None)) <==> e.input.Hangup? || e.input.AudioClosed?)
            && (end == Some(End(RemoteClose, None)) <==> e.input.Closed? || SendFails(c, before, e))
            && (end.Some? && end.value.goal.None? <==>
                  e.input.Hangup? || e.input.AudioClosed? || e.input.Closed? || SendFails(c, before, e))
  {
    GreetsExactly(c, trace);
    ResumesExactly(c, trace);
  }

  // ----- cues from outside ----------------------------------------------------------------------

  predicate IsTextCue(out: Out) { out.TextCue? }

  predicate CuesClosed(trace: seq<Entry>) { exists k :: 0 <= k < |trace| && trace[k].input.CueClosed? }

  /** The cues of the trace up to the end of their channel. */
  function Cues(trace: seq<Entry>): seq<Out> {
    if trace == [] then []
    else
      var e := Last(trace).input;
      Cues(DropLast(trace)) + (if e.Cue? && !CuesClosed(DropLast(trace)) then [TextCue(e.text)] else [])
  }

  lemma {:induction false} OpenUntilClosed(c: Config, trace: seq<Entry>)
    requires Run(c, trace).end.None?
    ensures Run(c, trace).cueOpen <==> !CuesClosed(trace)
  {
    if trace != [] {
      var before, n := DropLast(trace), |trace| - 1;
      OpenUntilClosed(c, before);
      if CuesClosed(before) {
        var k :| 0 <= k < |before| && before[k].input.CueClosed?;
        assert trace[k].input.CueClosed?;
      }
      if CuesClosed(trace) {
        var k :| 0 <= k < |trace| && trace[k].input.CueClosed?;
        assert k < n ==> before[k].input.CueClosed?;
      }
    }
  }

  lemma EmittedCues(d: State, e: Entry)
    requires d.end.None?
    ensures Select(IsTextCue, Emitted(d, e)) == if e.input.Cue? && d.cueOpen then [TextCue(e.input.text)] else []
  {
    SelectShort(IsTextCue, Emitted(d, e));
  }

  /** The session gets the engine's cues unchanged and in order, as long as their channel is open. */
  lemma {:induction false} CuesDelivered(c: Config, trace: seq<Entry>)
    requires Proper(c, trace)
    ensures Select(IsTextCue, Outs(c, trace)) == Cues(trace)
  {
    if trace != [] {
      var before := DropLast(trace);
      CuesDelivered(c, before);
      OpenUntilClosed(c, before);
      EmittedCues(Run(c, before), Last(trace));
      SelectAppend(IsTextCue, Outs(c, before), Emitted(Run(c, before), Last(trace)));
    }
  }

  // ----- the transcript -------------------------------------------------------------------------

  predicate IsVisible(ch: char) { !IsSpace(ch) }

  function Visible(s: string): string { Select(IsVisible, s) }

  predicate Tidy(s: string) { s != "" && !IsSpace(s[0]) && !IsSpace(Last(s)) }

  lemma {:induction false} TrimStartKeeps(s: string)
    ensures Visible(TrimStart(s)) == Visible(s)
    ensures TrimStart(s) != "" ==> !IsSpace(TrimStart(s)[0])
  {
    if s != [] && IsSpace(s[0]) {
      assert s == [s[0]] + s[1..];
      SelectAppend(IsVisible, [s[0]], s[1..]);
      TrimStartKeeps(s[1..]);
    }
  }

  lemma {:induction false} TrimEndKeeps(s: string)
    ensures Visible(TrimEnd(s)) == Visible(s) && TrimEnd(s) <= s
    ensures TrimEnd(s) != "" ==> !IsSpace(Last(TrimEnd(s)))
  {
    if s != [] && IsSpace(s[|s| - 1]) { TrimEndKeeps(DropLast(s)); }
  }

  /** Trimming drops only white space, and all of it at both ends. */
  lemma TrimKeeps(s: string)
    ensures Visible(Trim(s)) == Visible(s)
    ensures Trim(s) != "" ==> Tidy(Trim(s))
  {
    TrimStartKeeps(s);
    TrimEndKeeps(TrimStart(s));
  }

  /** Everything one speaker said, according to the lines. */
  function Text(lines: seq<Line>, role: Role): string {
    if lines == [] then ""
    else Text(DropLast(lines), role) + (if Last(lines).role == role then Last(lines).text else "")
  }

  /** Everything one speaker said, according to the session. */
  function Deltas(trace: seq<Entry>, role: Role): string {
    if trace == [] then "" else Deltas(DropLast(trace), role) + DeltaOf(Last(trace).input, role)
  }

  function DeltaOf(e: Input, role: Role): string {
    if e.Heard? && e.event.Transcript? && e.event.role == role then e.event.text else ""
  }

  function Pending(n: Notes, role: Role): string { if role.User? then n.user else n.model }

  lemma TextOfLine(lines: seq<Line>, speaker: Role, text: string, ts: int, role: Role)
    ensures Text(lines + LineOf(speaker, text, ts), role)
         == Text(lines, role) + (if speaker == role then Trim(text) else "")
  {
    var more := LineOf(speaker, text, ts);
    if more == [] {
      assert lines + more == lines;
    } else {
      assert DropLast(lines + more) == lines;
    }
  }

  /** The visible characters of one speaker so far, lines first. */
  function Said(n: Notes, role: Role): string {
    Visible(Text(n.lines, role)) + Visible(Pending(n, role))
  }

  lemma {:induction false} FlushedText(user: string, model: string, ts: int, lines: seq<Line>, role: Role)
    ensures Text(lines + Flushed(user, model, ts), role)
         == Text(lines, role) + Trim(if role.User? then user else model)
  {
    var u, m := LineOf(User, user, ts), LineOf(Model, model, ts);
    TextOfLine(lines, User, user, ts, role);
    TextOfLine(lines + u, Model, model, ts, role);
    Associates(lines, u, m);
    NothingAdded(Text(lines, role));
    NothingAdded(Text(lines + u, role));
  }

  lemma FlushKeeps(c: Config, n: Notes, at: nat, role: Role)
    ensures Visible(Text(Flush(c, n, at).lines, role)) == Said(n, role)
  {
    var lines, ts := Flush(c, n, at).lines, at - c.start;
    assert Text(lines, role) == Text(n.lines, role) + Trim(Pending(n, role)) by {
      FlushedText(n.user, n.model, ts, n.lines, role);
    }
    assert Visible(Text(n.lines, role) + Trim(Pending(n, role))) == Said(n, role) by {
      VisibleOfTrimmed(Text(n.lines, role), Pending(n, role));
    }
  }

  lemma VisibleOfTrimmed(a: string, b: string)
    ensures Visible(a + Trim(b)) == Visible(a) + Visible(b)
  {
    SelectAppend(IsVisible, a, Trim(b));
    TrimKeeps(b);
  }

  lemma DeltaKeeps(n: Notes, speaker: Role, text: string, role: Role)
    ensures Said(Noted(n, speaker, text), role) == Said(n, role) + Visible(if speaker == role then text else "")
  {
    if speaker == role {
      SelectAppend(IsVisible, Pending(n, role), text);
      Associates(Visible(Text(n.lines, role)), Visible(Pending(n, role)), Visible(text));
    } else {
      NothingAdded(Said(n, role));
    }
  }

  lemma StepKeeps(c: Config, n: Notes, e: Entry, role: Role)
    ensures Said(StepNotes(c, n, e), role) == Said(n, role) + Visible(DeltaOf(e.input, role))
  {
    match e.input {
      case Heard(Transcript(speaker, text, _)) => DeltaKeeps(n, speaker, text, role);
      case Heard(TurnComplete) =>
        FlushKeeps(c, n, e.at, role);
        NothingAdded(Said(n, role));
      case _ => NothingAdded(Said(n, role));
    }
  }

  lemma {:induction false} NotesKeep(c: Config, trace: seq<Entry>, role: Role)
    requires Proper(c, trace)
    ensures Said(Run(c, trace).notes, role) == Visible(Deltas(trace, role))
  {
    if trace != [] {
      NotesKeep(c, DropLast(trace), role);
      SelectAppend(IsVisible, Deltas(DropLast(trace), role), DeltaOf(Last(trace).input, role));
      StepKeeps(c, Run(c, DropLast(trace)).notes, Last(trace), role);
    }
  }

  /** The finished transcript holds every visible character of every delta, in order, for each
      speaker, also of a turn cut short. */
  lemma TranscriptComplete(c: Config, trace: seq<Entry>, at: nat, role: Role)
    requires Proper(c, trace)
    ensures Visible(Text(Flush(c, Run(c, trace).notes, at).lines, role)) == Visible(Deltas(trace, role))
  {
    NotesKeep(c, trace, role);
    FlushKeeps(c, Run(c, trace).notes, at, role);
  }

  predicate AllTidy(lines: seq<Line>) { forall i :: 0 <= i < |lines| ==> Tidy(lines[i].text) }

  lemma FlushTidy(c: Config, n: Notes, at: nat)
    requires AllTidy(n.lines)
    ensures AllTidy(Flush(c, n, at).lines)
  {
    TrimKeeps(n.user);
    TrimKeeps(n.model);
  }

  /** Its lines are never blank and carry no white space around them. */
  lemma {:induction false} LinesTidy(c: Config, trace: seq<Entry>, at: nat)
    ensures AllTidy(Run(c, trace).notes.lines) && AllTidy(Flush(c, Run(c, trace).notes, at).lines)
  {
    if trace != [] { LinesTidy(c, DropLast(trace), Last(trace).at); }
    FlushTidy(c, Run(c, trace).notes, at);
  }

  // ----- one turn's lines -----------------------------------------------------------------------

  predicate Blank(s: string) { forall i :: 0 <= i < |s| ==> IsSpace(s[i]) }

  /** `inner` is `s` without the white space around it, and with all that is inside. */
  ghost predicate Trimmed(inner: string, s: string) {
    exists i, j :: 0 <= i <= j <= |s| && inner == s[i..j] && Blank(s[..i]) && Blank(s[j..])
                   && (inner == "" || Tidy(inner))
  }

  lemma {:induction false} TrimStartAt(s: string) returns (i: nat)
    ensures i <= |s| && TrimStart(s) == s[i..] && Blank(s[..i])
    ensures i < |s| ==> !IsSpace(s[i])
  {
    i := 0;
    if s != [] && IsSpace(s[0]) {
      var k := TrimStartAt(s[1..]);
      i := k + 1;
      assert s[..i] == [s[0]] + s[1..][..k];
    }
  }

  lemma {:induction false} TrimEndAt(s: string) returns (j: nat)
    ensures j <= |s| && TrimEnd(s) == s[..j] && Blank(s[j..])
    ensures j > 0 ==> !IsSpace(s[j - 1])
  {
    j := |s|;
    if s != [] && IsSpace(s[|s| - 1]) {
      j := TrimEndAt(s[..|s| - 1]);
      assert s[j..] == s[..|s| - 1][j..] + [s[|s| - 1]];
    }
  }

  lemma TrimIsInner(s: string)
    ensures Trimmed(Trim(s), s) && (Trim(s) == "" <==> Blank(s))
  {
    var i := TrimStartAt(s);
    var j := TrimEndAt(s[i..]);
    assert Trim(s) == s[i..i + j] && s[i..][j..] == s[i + j..];
    if Trim(s) == "" {
      assert s == s[..i] + s[i + j..];
    } else {
      assert !IsSpace(s[i]) && s[i..][j - 1] == s[i + j - 1];
    }
  }

  /** What one speaker said in a turn, as a line dated `ts`; nothing visible leaves no line. */
  ghost predicate IsLineOf(lines: seq<Line>, role: Role, said: string, ts: int) {
    if Blank(said) then lines == []
    else |lines| == 1 && lines[0].role == role && lines[0].tsMs == ts && Trimmed(lines[0].text, said)
  }

  lemma LineOfTurn(role: Role, said: string, ts: int)
    ensures IsLineOf(LineOf(role, said, ts), role, said, ts)
  {
    TrimIsInner(said);
  }

  /** A turn began at entry `a` and has not been completed since. */
  predicate InTurnFrom(trace: seq<Entry>, a: nat) {
    a <= |trace| && (a > 0 ==> trace[a - 1].input == Heard(TurnComplete))
    && forall i :: a <= i < |trace| ==> trace[i].input != Heard(TurnComplete)
  }

  lemma {:induction false} NotesOfTurn(c: Config, trace: seq<Entry>, a: nat)
    requires Proper(c, trace) && InTurnFrom(trace, a)
    ensures var n := Run(c, trace).notes;
            n.lines == Run(c, trace[..a]).notes.lines
            && n.user == Deltas(trace[a..], User) && n.model == Deltas(trace[a..], Model)
    decreases |trace|
  {
    if a == |trace| {
      assert trace[..a] == trace && trace[a..] == [];
      assert a > 0 ==> Last(trace).input == Heard(TurnComplete);
    } else {
      var before := DropLast(trace);
      assert before[..a] == trace[..a] && DropLast(trace[a..]) == before[a..] && Last(trace[a..]) == Last(trace);
      assert InTurnFrom(before, a) by {
        forall i | a <= i < |before| ensures before[i].input != Heard(TurnComplete) { assert before[i] == trace[i]; }
      }
      NotesOfTurn(c, before, a);
      assert trace[|trace| - 1].input != Heard(TurnComplete);
      NotedDeltas(c, Run(c, before).notes, Last(trace));
    }
  }

  lemma NotedDeltas(c: Config, n: Notes, e: Entry)
    requires e.input != Heard(TurnComplete)
    ensures var m := StepNotes(c, n, e);
            m.lines == n.lines
            && m.user == n.user + DeltaOf(e.input, User) && m.model == n.model + DeltaOf(e.input, Model)
  {
    NothingAdded(n.user);
    NothingAdded(n.model);
  }

  /** What a completed turn leaves: the callee's line and then the model's. */
  ghost predicate AddsTurn(before: seq<Line>, after: seq<Line>, turn: seq<Entry>, ts: int) {
    exists user, model :: after == before + user + model
      && IsLineOf(user, User, Deltas(turn, User), ts) && IsLineOf(model, Model, Deltas(turn, Model), ts)
  }

  lemma FlushAdds(c: Config, n: Notes, at: nat, turn: seq<Entry>)
    requires n.user == Deltas(turn, User) && n.model == Deltas(turn, Model)
    ensures AddsTurn(n.lines, Flush(c, n, at).lines, turn, at - c.start)
  {
    var ts := at - c.start;
    var user, model := LineOf(User, n.user, ts), LineOf(Model, n.model, ts);
    LineOfTurn(User, n.user, ts);
    LineOfTurn(Model, n.model, ts);
    Associates(n.lines, user, model);
  }

  /** A turn adds the callee's line and then the model's: what each of them said in this turn, with
      all white space inside it, dated from the start of the call. The flush at the very end does
      the same for a turn cut short. */
  lemma TurnFlushes(c: Config, trace: seq<Entry>, a: nat, at: nat)
    requires Proper(c, trace) && InTurnFrom(trace, a)
    ensures AddsTurn(Run(c, trace[..a]).notes.lines, Flush(c, Run(c, trace).notes, at).lines,
                     trace[a..], at - c.start)
  {
    NotesOfTurn(c, trace, a);
    FlushAdds(c, Run(c, trace).notes, at, trace[a..]);
  }

  lemma NotesStep(c: Config, trace: seq<Entry>)
    requires trace != [] && Proper(c, trace)
    ensures var n, e := Run(c, DropLast(trace)).notes, Last(trace);
            Run(c, trace).notes.lines == if e.input == Heard(TurnComplete) then Flush(c, n, e.at).lines else n.lines
  {}

  /** Lines come into being at the completion of a turn only, and then those of that turn. */
  lemma LinesByTurn(c: Config, trace: seq<Entry>, a: nat)
    requires trace != [] && Proper(c, trace) && InTurnFrom(DropLast(trace), a)
    ensures var before, e := DropLast(trace), Last(trace);
            var lines, after := Run(c, before[..a]).notes.lines, Run(c, trace).notes.lines;
            if e.input == Heard(TurnComplete) then AddsTurn(lines, after, before[a..], e.at - c.start)
            else after == lines
  {
    NotesStep(c, trace);
    NotesOfTurn(c, DropLast(trace), a);
    TurnFlushes(c, DropLast(trace), a, Last(trace).at);
  }

  // ----- the loop -------------------------------------------------------------------------------

  lemma OneMore(c: Config, trace: seq<Entry>, n: nat)
    requires n < |trace|
    ensures Run(c, trace[..n + 1]) == Step(c, Run(c, trace[..n]), trace[n])
    ensures Outs(c, trace[..n + 1]) == Outs(c, trace[..n]) + Emitted(Run(c, trace[..n]), trace[n])
    ensures Run(c, trace[..n]).end.None? ==> Proper(c, trace[..n + 1])
  {
    assert DropLast(trace[..n + 1]) == trace[..n] && Last(trace[..n + 1]) == trace[n];
  }

  /** The arm for what the session says. */
  method HearEvent(c: Config, d: State, now: nat, event: Event) returns (d': State, emitted: seq<Out>)
    requires d.end.None?
    ensures d' == Step(c, d, Entry(now, Heard(event))) && emitted == Emitted(d, Entry(now, Heard(event)))
  {
    d', emitted := d.(greeting := d.greeting.(hadActivity := true)), [Send(event)];
    match event {
      case Transcript(role, text, _) =>
        if role.User? {
          d' := d'.(greeting := d'.greeting.(calleeActive := true), resumeNeeded := true);
        }
        d' := d'.(notes := Noted(d'.notes, role, text));
      case TurnComplete =>
        d' := d'.(resumeNeeded := false, notes := Flush(c, d'.notes, now));
        if d'.ending.Some? {
          emitted := [Send(event), EndCall(d'.ending.value.args)];
          d' := d'.(end := Some(End(ModelEndCall, Some(d'.ending.value.args))));
        }
      case _ =>
    }
  }

  /** The arm for a reconnect. */
  method Reopen(c: Config, d: State, now: nat, resumed: bool, sent: bool) returns (d': State, emitted: seq<Out>)
    requires d.end.None?
    ensures d' == Step(c, d, Entry(now, Opened(true, resumed, sent)))
    ensures emitted == Emitted(d, Entry(now, Opened(true, resumed, sent)))
  {
    d', emitted := d.(greeting := d.greeting.(reconnected := true, greeted := true)), [Send(Interrupted)];
    if !resumed && d.resumeNeeded {
      emitted := [Send(Interrupted), ResumeCue];
      if !sent {
        d' := d'.(end := Some(End(RemoteClose, None)));
      }
    }
  }

  /** One turn of the loop on its variables. */
  method Turn(c: Config, d: State, entry: Entry) returns (d': State, emitted: seq<Out>)
    requires d.end.None?
    ensures d' == Step(c, d, entry) && emitted == Emitted(d, entry)
  {
    var now, e := entry.at, entry.input;
    var greeting, resumeNeeded, ending := d.greeting, d.resumeNeeded, d.ending;
    var textChannelOpen, notes := d.cueOpen, d.notes;
    var outcome: Option<End> := None;
    emitted := [];
    match e {
      case Answered(yes) =>
        if yes && !greeting.armed && !greeting.greeted && !greeting.answeredClosed {
          greeting := greeting.(armed := true, deadline := now + c.greetAfterMs);
        }
      case AnswerDropped =>
        if !greeting.armed && !greeting.greeted {
          greeting := greeting.(answeredClosed := true);
        }
      case GreetTimer(sent) =>
        if GreetReady(greeting, now) {
          greeting := greeting.(greeted := true);
          emitted := [GreetCue];
          if !sent { outcome := Some(End(RemoteClose, None)); }
        }
      case EndingTimer =>
        if ending.Some? && now >= ending.value.at + ENDING_MS {
          emitted := [EndCall(ending.value.args)];
          outcome := Some(End(ModelEndCall, Some(ending.value.args)));
        }
      case Audio(pcm, onset, sent) =>
        if onset {
          greeting := greeting.(calleeActive := true);
          resumeNeeded := true;
        }
        emitted := [Uplink(pcm)];
        if !sent { outcome := Some(End(RemoteClose, None)); }
      case AudioClosed => outcome := Some(End(CallerHangup, None));
      case Opened(isReconnect, resumed, sent) =>
        if isReconnect {
          d', emitted := Reopen(c, d, now, resumed, sent);
          return;
        }
      case Heard(event) =>
        d', emitted := HearEvent(c, d, now, event);
        return;
      case ToolCall(name, id, args) =>
        if name == "end_call" {
          emitted := [Ack(id)];
          if ending.None? { ending := Some(Called(now, args)); }
          greeting := greeting.(greeted := true);
        }
      case Closed => outcome := Some(End(RemoteClose, None));
      case Hangup => outcome := Some(End(CallerHangup, None));
      case Cue(text) =>
        if textChannelOpen { emitted := [TextCue(text)]; }
      case CueClosed => textChannelOpen := false;
    }
    d' := State(greeting, resumeNeeded, ending, textChannelOpen, notes, outcome);
  }

  /** Runs until the driver ends or the trace is used up. `taken` entries were looked at; the
      final flush is dated with the time of the last of them. */
  method RunDriver(c: Config, trace: seq<Entry>)
    returns (outcome: Option<End>, transcript: seq<Line>, outs: seq<Out>, taken: nat)
    ensures taken <= |trace| && Proper(c, trace[..taken]) && (outcome.None? ==> taken == |trace|)
    ensures outcome == Run(c, trace[..taken]).end && outs == Outs(c, trace[..taken])
    ensures transcript
         == Flush(c, Run(c, trace[..taken]).notes, if taken == 0 then c.start else trace[taken - 1].at).lines
  {
    var d := Start(c);
    outs, taken := [], 0;
    while taken < |trace| && d.end.None?
      invariant taken <= |trace| && Proper(c, trace[..taken])
      invariant d == Run(c, trace[..taken]) && outs == Outs(c, trace[..taken])
    {
      OneMore(c, trace, taken);
      var emitted;
      d, emitted := Turn(c, d, trace[taken]);
      outs := outs + emitted;
      taken := taken + 1;
    }
    outcome := d.end;
    transcript := Flush(c, d.notes, if taken == 0 then c.start else trace[taken - 1].at).lines;
  }
}
