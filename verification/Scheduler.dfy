/** The call scheduler as interleaved atomic steps.

    One step is one lock region or one atomic operation of one of the threads that
    share the queue, the `running` counter, the cancel map, the record store, the
    breaker and the dispatcher's wake permit: callers placing calls, callers ending
    calls, one task per dispatched attempt, and the dispatcher. */
module Scheduler {
  import opened Base
  import opened CallIds
  import opened Store
  import Q = Queue
  import B = Breaker

  datatype Config = Config(
    cap: nat, maxHistory: nat, busyMaxAttempts: nat, busyRetryIntervalMs: nat,
    netCheck: bool, breaker: B.Config, probeWindow: Millis)

  // ----- threads ------------------------------------------------------------

  /** `place_call_at`, step by step. */
  datatype PlacePc = Claimed | Recorded | Counted | Pushed | Placed

  /** `end_call`: the queue path, then the signal path. */
  datatype EndPc =
    | Dequeued | EndFinalized(d: Disposition) | EndCounted(d: Disposition)
    | Signalling(token: nat) | Signalled(token: nat)

  /** A dispatched attempt: in the dispatcher's hand, running, requeuing, finishing, unwinding. */
  datatype CallPc =
    | Taken(probe: bool, at: Millis) | Marked | Spawnable
    | Preflight | Reported(ok: bool) | Dialing | RingWait | Answered | Live
    | Requeuing(until: nat) | RequeueReset(until: nat) | RequeueCounted(until: nat) | RequeuePushed
    | Finalizing(fd: Disposition) | CallFinalized(fd: Disposition)
    | Unwinding | GuardDropped | SlotReleased | Gone

  datatype Fate = Unsettled | Settled(d: Disposition) | Requeued | Panicked

  datatype Proc =
    | Placer(id: CallId, number: string, scenario: string, eligibleAtMs: nat, attempt: nat,
             clientRef: Option<string>, placePc: PlacePc)
    | Call(id: CallId, number: string, scenario: string, attempt: nat, callPc: CallPc, fate: Fate)
    | Ender(id: CallId, endPc: EndPc)

  datatype DispatcherPc =
    | Draining | Locked | Decided(now: Millis, probe: bool) | Handling(i: nat)
    | Measuring(hold: Option<Millis>) | Peeking(hold: Option<Millis>)
    | Arming(next: Option<nat>, hold: Option<Millis>) | Parked(deadline: Option<nat>)

  datatype Counters = Counters(
    completed: nat, voicemail: nat, announcement: nat, ivr: nat, hold: nat, busy: nat,
    noAnswer: nat, rejected: nat, notFound: nat, unavailable: nat, failed: nat, cancelled: nat)

  datatype State = State(
    clock: Millis, nextSeq: nat, procs: seq<Proc>, disp: DispatcherPc,
    queue: seq<Q.PendingEntry>, running: int, cancels: map<CallId, nat>, signalled: set<nat>,
    store: Records, placed: nat, counters: Counters, permit: bool,
    breaker: B.State, log: seq<B.Event>)

  function Init(clock: Millis): State {
    State(clock, 0, [], Draining, [], 0, map[], {}, map[], 0,
          Counters(0, 0, 0, 0, 0, 0, 0, 0, 0, 0, 0, 0), false, B.INITIAL, [])
  }

  function CounterOf(c: Counters, d: Disposition): nat {
    match d
    case Completed => c.completed
    case Voicemail => c.voicemail
    case Announcement => c.announcement
    case Ivr => c.ivr
    case Hold => c.hold
    case Busy => c.busy
    case NoAnswer => c.noAnswer
    case Rejected => c.rejected
    case NotFound => c.notFound
    case Unavailable => c.unavailable
    case Failed => c.failed
    case Cancelled => c.cancelled
  }

  /** `bump_disposition`. */
  function Bump(c: Counters, d: Disposition): Counters {
    match d
    case Completed => c.(completed := c.completed + 1)
    case Voicemail => c.(voicemail := c.voicemail + 1)
    case Announcement => c.(announcement := c.announcement + 1)
    case Ivr => c.(ivr := c.ivr + 1)
    case Hold => c.(hold := c.hold + 1)
    case Busy => c.(busy := c.busy + 1)
    case NoAnswer => c.(noAnswer := c.noAnswer + 1)
    case Rejected => c.(rejected := c.rejected + 1)
    case NotFound => c.(notFound := c.notFound + 1)
    case Unavailable => c.(unavailable := c.unavailable + 1)
    case Failed => c.(failed := c.failed + 1)
    case Cancelled => c.(cancelled := c.cancelled + 1)
  }

  function OutcomeTotal(c: Counters): nat {
    c.completed + c.voicemail + c.announcement + c.ivr + c.hold + c.busy
    + c.noAnswer + c.rejected + c.notFound + c.unavailable + c.failed + c.cancelled
  }

  // ----- steps ----------------------------------------------------------------

  datatype PlaceStep = WriteRecord | CountPlaced | PushEntry | WakeForPlaced

  datatype EndStep = FinalizeQueued(after: Records) | CountCancelled | SendCancel

  datatype DispatchStep =
    | Lock | Decide | Take | MarkProbe | SetRinging | Spawn | Measure | Peek | Arm | WakeUp | TimeOut

  /** `run_call` up to its outcome. */
  datatype RunStep =
    | SkipPreflight | CancelPreflight | ReportHealth(ok: bool) | WakeForReport | Dial(ok: bool)
    | RingAnswer | RingEnd(outcome: Option<DialOutcome>) | MarkAnswered
    | HangUp(cancelled: bool, amd: Option<string>, shape: CallShape)

  /** Requeuing, settling or unwinding. */
  datatype SettleStep =
    | ResetRecord | CountRetry | PushRetry | WakeForRetry
    | FinalizeCall(goal: Option<string>, error: Option<string>, after: Records) | CountOutcome | Panic
    | DropGuard | ReleaseSlot | WakeForSlot

  /** `i` is the thread that moves; the other parameters are what the environment supplies. */
  datatype Action =
    | Tick(now: Millis)
    | PlaceCall(number: string, scenario: string, eligibleAtMs: nat, attempt: nat, clientRef: Option<string>)
    | Place(i: nat, place: PlaceStep)
    | EndCall(id: CallId)
    | End(i: nat, end: EndStep)
    | Dispatch(dispatch: DispatchStep)
    | Run(i: nat, run: RunStep)
    | Settle(i: nat, settle: SettleStep)

  /** The dispatcher does not hold the queue lock. */
  predicate QueueFree(s: State) { !s.disp.Locked? && !s.disp.Decided? }

  predicate IsPlacer(s: State, i: nat) { i < |s.procs| && s.procs[i].Placer? }

  predicate IsCall(s: State, i: nat) { i < |s.procs| && s.procs[i].Call? }

  predicate IsEnder(s: State, i: nat) { i < |s.procs| && s.procs[i].Ender? }

  // ----- place_call_at ----------------------------------------------------------

  predicate PlaceReady(s: State, i: nat, step: PlaceStep) {
    IsPlacer(s, i)
    && match step
       case WriteRecord => s.procs[i].placePc == Claimed
       case CountPlaced => s.procs[i].placePc == Recorded
       case PushEntry => s.procs[i].placePc == Counted && QueueFree(s)
       case WakeForPlaced => s.procs[i].placePc == Pushed
  }

  function PlaceNext(step: PlaceStep): PlacePc {
    match step
    case WriteRecord => Recorded
    case CountPlaced => Counted
    case PushEntry => Pushed
    case WakeForPlaced => Placed
  }

  function FreshRecord(s: State, p: Proc): CallRecord
    requires p.Placer?
  {
    CallRecord(p.id, p.number, Queued, [], None, None, s.clock, None, None, p.attempt, p.clientRef)
  }

  function FirstEntry(p: Proc): Q.PendingEntry
    requires p.Placer?
  {
    Q.PendingEntry(p.id, p.number, p.scenario, p.eligibleAtMs, p.attempt)
  }

  function PlaceShared(s: State, p: Proc, step: PlaceStep): State
    requires p.Placer?
  {
    match step
    case WriteRecord => s.(store := s.store[p.id := FreshRecord(s, p)])
    case CountPlaced => s.(placed := s.placed + 1)
    case PushEntry => s.(queue := Q.Insert(s.queue, FirstEntry(p)))
    case WakeForPlaced => s.(permit := true)
  }

  // ----- end_call -----------------------------------------------------------------

  function QueuedCancel(): Disposition {
    ResolveDisposition(true, None, None, CallShape(false, 0, 0, CallerHangup))
  }

  /** Under the queue lock: take the call out of the queue, else take its cancel sender. */
  function EndCallChange(s: State, id: CallId): Change {
    if Q.Occurs(s.queue, id) > 0 then Add(Ender(id, Dequeued))
    else if id in s.cancels then Add(Ender(id, Signalling(s.cancels[id])))
    else Same
  }

  function EndCallShared(s: State, id: CallId): State {
    if Q.Occurs(s.queue, id) > 0 then s.(queue := Q.RemoveId(s.queue, id))
    else s.(cancels := s.cancels - {id})
  }

  predicate EndReady(s: State, i: nat, step: EndStep) {
    IsEnder(s, i)
    && match step
       case FinalizeQueued(_) => s.procs[i].endPc == Dequeued
       case CountCancelled => s.procs[i].endPc.EndFinalized?
       case SendCancel => s.procs[i].endPc.Signalling?
  }

  function EndNext(pc: EndPc, step: EndStep): EndPc {
    match step
    case FinalizeQueued(_) => EndFinalized(QueuedCancel())
    case CountCancelled => if pc.EndFinalized? then EndCounted(pc.d) else pc
    case SendCancel => if pc.Signalling? then Signalled(pc.token) else pc
  }

  function EndShared(s: State, pc: EndPc, step: EndStep): State {
    match step
    case FinalizeQueued(after) => s.(store := after)
    case CountCancelled => if pc.EndFinalized? then s.(counters := Bump(s.counters, pc.d)) else s
    case SendCancel => if pc.Signalling? then s.(signalled := s.signalled + {pc.token}) else s
  }

  // ----- dispatcher ----------------------------------------------------------------

  predicate InHand(pc: CallPc) { pc.Taken? || pc == Marked || pc == Spawnable }

  predicate Holding(s: State) {
    s.disp.Handling? && IsCall(s, s.disp.i) && InHand(s.procs[s.disp.i].callPc)
  }

  predicate DispatchReady(s: State, step: DispatchStep) {
    match step
    case Lock => s.disp == Draining
    case Decide => s.disp == Locked
    case Take => s.disp.Decided?
    case MarkProbe => Holding(s) && s.procs[s.disp.i].callPc.Taken? && s.procs[s.disp.i].callPc.probe
    case SetRinging =>
      Holding(s) && (s.procs[s.disp.i].callPc.Taken? ==> !s.procs[s.disp.i].callPc.probe)
      && s.procs[s.disp.i].callPc != Spawnable
    case Spawn => Holding(s) && s.procs[s.disp.i].callPc == Spawnable
    case Measure => s.disp.Measuring?
    case Peek => s.disp.Peeking?
    case Arm => s.disp.Arming?
    case WakeUp => s.disp.Parked? && s.permit
    case TimeOut => s.disp.Parked? && s.disp.deadline.Some? && s.disp.deadline.value <= s.clock
  }

  /** The attempt the dispatcher starts for a queue entry. */
  function Attempt(e: Q.PendingEntry, probe: bool, now: Millis): Proc {
    Call(e.callId, e.number, e.scenario, e.attempt, Taken(probe, now), Unsettled)
  }

  function DispatchChange(s: State, step: DispatchStep): Change
    requires DispatchReady(s, step)
  {
    match step
    case Take =>
      if Q.HeadEligible(s.queue, s.disp.now) then Add(Attempt(s.queue[0], s.disp.probe, s.disp.now)) else Same
    case MarkProbe => GoTo(s, s.disp.i, Marked)
    case SetRinging => GoTo(s, s.disp.i, Spawnable)
    case Spawn => GoTo(s, s.disp.i, Preflight)
    case _ => Same
  }

  /** Dropping or using a sender resolves its receiver. */
  function Resolved(s: State, id: CallId): set<nat> {
    if id in s.cancels then s.signalled + {s.cancels[id]} else s.signalled
  }

  function Soonest(a: Option<nat>, b: Option<Millis>): Option<nat> {
    match (a, b)
    case (Some(x), Some(y)) => Some(Min(x, y))
    case (Some(x), None) => Some(x)
    case (None, Some(y)) => Some(y)
    case (None, None) => None
  }

  function NotBefore(t: Option<nat>, now: Millis): Option<nat> {
    match t case Some(x) => Some(Max(x, now)) case None => None
  }

  /** Pop the head and claim its slot and cancel channel, all under the queue lock. */
  function TakeHead(s: State): State
    requires s.queue != []
  {
    var id := s.queue[0].callId;
    s.(queue := s.queue[1..], cancels := s.cancels[id := |s.procs|], signalled := Resolved(s, id),
       running := s.running + 1, disp := Handling(|s.procs|))
  }

  function AfterDecision(d: B.Decision, now: Millis): DispatcherPc {
    match d
    case Dispatch => Decided(now, false)
    case Probe => Decided(now, true)
    case Hold(until) => Measuring(Some(until))
  }

  function DispatchShared(c: Config, s: State, step: DispatchStep): State
    requires DispatchReady(s, step)
  {
    match step
    case Lock => s.(disp := if s.running >= c.cap then Measuring(None) else Locked)
    case Decide => s.(disp := AfterDecision(B.Decide(c.breaker, s.breaker, s.clock), s.clock))
    case Take => if Q.HeadEligible(s.queue, s.disp.now) then TakeHead(s) else s.(disp := Measuring(None))
    case MarkProbe =>
      var at := s.procs[s.disp.i].callPc.at;
      s.(breaker := B.MarkProbe(s.breaker, at, c.probeWindow), log := s.log + [B.Mark(at, c.probeWindow)])
    case SetRinging => s.(store := WithState(s.store, s.procs[s.disp.i].id, Ringing))
    case Spawn => s.(disp := Draining)
    case Measure => s.(disp := if s.running < c.cap then Peeking(s.disp.hold) else Arming(None, s.disp.hold))
    case Peek => s.(disp := Arming(Q.NextEligibleAt(s.queue), s.disp.hold))
    case Arm => s.(disp := Parked(NotBefore(Soonest(s.disp.next, s.disp.hold), s.clock)))
    case WakeUp => s.(permit := false, disp := Draining)
    case TimeOut => s.(disp := Draining)
  }

  // ----- run_call up to its outcome ---------------------------------------------

  predicate RunReady(c: Config, s: State, i: nat, step: RunStep) {
    IsCall(s, i)
    && var pc := s.procs[i].callPc;
       match step
       case SkipPreflight => pc == Preflight && !c.netCheck
       case CancelPreflight => pc == Preflight && c.netCheck && i in s.signalled
       case ReportHealth(_) => pc == Preflight && c.netCheck
       case WakeForReport => pc.Reported?
       case Dial(_) => pc == Dialing
       case RingAnswer => pc == RingWait
       case RingEnd(_) => pc == RingWait
       case MarkAnswered => pc == Answered
       case HangUp(cancelled, _, shape) => pc == Live && shape.answered && (cancelled ==> i in s.signalled)
  }

  /** `should_retry_busy`. */
  predicate ShouldRetryBusy(c: Config, attempt: nat) { attempt < c.busyMaxAttempts }

  const UNUSABLE := Finalizing(ResolveDisposition(false, None, None, UNANSWERED))

  function RunNext(c: Config, now: Millis, attempt: nat, pc: CallPc, step: RunStep): CallPc {
    match step
    case SkipPreflight => Dialing
    case CancelPreflight => Finalizing(ResolveDisposition(true, None, None, UNANSWERED))
    case ReportHealth(ok) => Reported(ok)
    case WakeForReport => if pc == Reported(true) then Dialing else UNUSABLE
    case Dial(ok) => if ok then RingWait else UNUSABLE
    case RingAnswer => Answered
    case RingEnd(outcome) =>
      if outcome == Some(DialBusy) && ShouldRetryBusy(c, attempt) then Requeuing(now + c.busyRetryIntervalMs)
      else Finalizing(ResolveDisposition(false, None, outcome, UNANSWERED))
    case MarkAnswered => Live
    case HangUp(cancelled, amd, shape) => Finalizing(ResolveDisposition(cancelled, amd, None, shape))
  }

  function RunShared(c: Config, s: State, id: CallId, step: RunStep): State {
    match step
    case ReportHealth(ok) =>
      s.(breaker := B.OnResult(c.breaker, s.breaker, ok, s.clock), log := s.log + [B.Report(ok, s.clock)])
    case WakeForReport => s.(permit := s.permit || c.breaker.threshold > 0)
    case MarkAnswered => s.(store := WithState(s.store, id, InProgress))
    case _ => s
  }

  // ----- requeue, finalize, unwind --------------------------------------------------

  predicate SettleReady(s: State, i: nat, step: SettleStep) {
    IsCall(s, i)
    && var pc := s.procs[i].callPc;
       match step
       case ResetRecord => pc.Requeuing?
       case CountRetry => pc.RequeueReset?
       case PushRetry => pc.RequeueCounted? && QueueFree(s)
       case WakeForRetry => pc == RequeuePushed
       case FinalizeCall(_, _, _) => pc.Finalizing?
       case CountOutcome => pc.CallFinalized?
       case Panic => pc in {Preflight, Dialing, RingWait, Answered, Live}
       case DropGuard => pc == Unwinding
       case ReleaseSlot => pc == GuardDropped
       case WakeForSlot => pc == SlotReleased
  }

  function SettleNext(pc: CallPc, step: SettleStep): CallPc {
    match step
    case ResetRecord => if pc.Requeuing? then RequeueReset(pc.until) else pc
    case CountRetry => if pc.RequeueReset? then RequeueCounted(pc.until) else pc
    case PushRetry => RequeuePushed
    case WakeForRetry => Unwinding
    case FinalizeCall(_, _, _) => if pc.Finalizing? then CallFinalized(pc.fd) else pc
    case CountOutcome => Unwinding
    case Panic => Unwinding
    case DropGuard => GuardDropped
    case ReleaseSlot => SlotReleased
    case WakeForSlot => Gone
  }

  function SettleFate(pc: CallPc, fate: Fate, step: SettleStep): Fate {
    match step
    case CountRetry => Requeued
    case CountOutcome => if pc.CallFinalized? then Settled(pc.fd) else fate
    case Panic => Panicked
    case _ => fate
  }

  function RetryEntry(p: Proc): Q.PendingEntry
    requires p.Call? && p.callPc.RequeueCounted?
  {
    Q.PendingEntry(p.id, p.number, p.scenario, p.callPc.until, p.attempt + 1)
  }

  function SettleShared(s: State, p: Proc, step: SettleStep): State
    requires p.Call?
  {
    match step
    case ResetRecord => s.(store := WithState(s.store, p.id, Queued))
    case CountRetry => s.(placed := s.placed + 1)
    case PushRetry =>
      if p.callPc.RequeueCounted? then s.(queue := Q.Insert(s.queue, RetryEntry(p))) else s
    case WakeForRetry => s.(permit := true)
    case FinalizeCall(_, _, after) => s.(store := after)
    case CountOutcome => if p.callPc.CallFinalized? then s.(counters := Bump(s.counters, p.callPc.fd)) else s
    case Panic => s
    case DropGuard => s.(signalled := Resolved(s, p.id), cancels := s.cancels - {p.id})
    case ReleaseSlot => s.(running := s.running - 1)
    case WakeForSlot => s.(permit := true)
  }

  // ----- all steps -------------------------------------------------------------------

  /** What happens to the thread list: nothing, one thread moves, or one is added. */
  datatype Change = Same | Put(i: nat, p: Proc) | Add(p: Proc)

  function Commit(ps: seq<Proc>, ch: Change): seq<Proc> {
    match ch
    case Same => ps
    case Put(i, p) => if i < |ps| then ps[i := p] else ps
    case Add(p) => ps + [p]
  }

  function GoTo(s: State, i: nat, pc: CallPc): Change
    requires IsCall(s, i)
  {
    Put(i, s.procs[i].(callPc := pc))
  }

  /** The thread that would move stands where the step starts. */
  predicate Ready(c: Config, s: State, a: Action) {
    match a
    case Tick(now) => s.clock <= now
    case PlaceCall(_, _, _, _, _) => s.nextSeq <= U64_MAX
    case Place(i, step) => PlaceReady(s, i, step)
    case EndCall(_) => QueueFree(s)
    case End(i, step) => EndReady(s, i, step)
    case Dispatch(step) => DispatchReady(s, step)
    case Run(i, step) => RunReady(c, s, i, step)
    case Settle(i, step) => SettleReady(s, i, step)
  }

  function ThreadChange(c: Config, s: State, a: Action): (ch: Change)
    requires Ready(c, s, a)
    ensures ch.Put? ==> ch.i < |s.procs| && ch.p.id == s.procs[ch.i].id
  {
    match a
    case Tick(_) => Same
    case PlaceCall(number, scenario, at, attempt, ref) =>
      Add(Placer(CallIdOf(s.nextSeq), number, scenario, at, attempt, ref, Claimed))
    case Place(i, step) => Put(i, s.procs[i].(placePc := PlaceNext(step)))
    case EndCall(id) => EndCallChange(s, id)
    case End(i, step) => Put(i, s.procs[i].(endPc := EndNext(s.procs[i].endPc, step)))
    case Dispatch(step) => DispatchChange(s, step)
    case Run(i, step) => GoTo(s, i, RunNext(c, s.clock, s.procs[i].attempt, s.procs[i].callPc, step))
    case Settle(i, step) =>
      var p := s.procs[i];
      Put(i, p.(callPc := SettleNext(p.callPc, step), fate := SettleFate(p.callPc, p.fate, step)))
  }

  function Shared(c: Config, s: State, a: Action): State
    requires Ready(c, s, a)
  {
    match a
    case Tick(now) => s.(clock := now)
    case PlaceCall(_, _, _, _, _) => s.(nextSeq := s.nextSeq + 1)
    case Place(i, step) => PlaceShared(s, s.procs[i], step)
    case EndCall(id) => EndCallShared(s, id)
    case End(i, step) => EndShared(s, s.procs[i].endPc, step)
    case Dispatch(step) => DispatchShared(c, s, step)
    case Run(i, step) => RunShared(c, s, s.procs[i].id, step)
    case Settle(i, step) => SettleShared(s, s.procs[i], step)
  }

  function ProcsAfter(c: Config, s: State, a: Action): seq<Proc>
    requires Ready(c, s, a)
  {
    Commit(s.procs, ThreadChange(c, s, a))
  }

  function Apply(c: Config, s: State, a: Action): State
    requires Ready(c, s, a)
  {
    Shared(c, s, a).(procs := ProcsAfter(c, s, a))
  }

  /** A finalize leaves the store as `finalize` may leave it. */
  ghost predicate StoreOutcome(c: Config, s: State, a: Action)
    requires Ready(c, s, a)
  {
    && (a.End? && a.end.FinalizeQueued? ==>
          Evicted(Terminated(s.store, s.procs[a.i].id, QueuedCancel(), None, None, s.clock),
                  a.end.after, c.maxHistory))
    && (a.Settle? && a.settle.FinalizeCall? ==>
          Evicted(Terminated(s.store, s.procs[a.i].id, s.procs[a.i].callPc.fd,
                             a.settle.goal, a.settle.error, s.clock),
                  a.settle.after, c.maxHistory))
  }

  ghost predicate Enabled(c: Config, s: State, a: Action) {
    Ready(c, s, a) && StoreOutcome(c, s, a)
  }

  // ----- runs ---------------------------------------------------------------------

  ghost predicate IsRun(c: Config, run: seq<State>, acts: seq<Action>) {
    && |run| == |acts| + 1
    && run[0] == Init(run[0].clock)
    && forall k {:trigger Enabled(c, run[k], acts[k])} :: 0 <= k < |acts| ==>
         Enabled(c, run[k], acts[k]) && run[k + 1] == Apply(c, run[k], acts[k])
  }

  lemma StepOfRun(c: Config, run: seq<State>, acts: seq<Action>, j: nat)
    requires IsRun(c, run, acts) && j < |acts|
    ensures Ready(c, run[j], acts[j]) && run[j + 1] == Apply(c, run[j], acts[j])
  {
    assert Enabled(c, run[j], acts[j]);
  }
}
