/** No attempt is out of `end_call`'s reach, and no thread is ever stuck. */
module Liveness {
  import opened Base
  import opened Store
  import opened Scheduler
  import opened Ownership
  import opened Cancels
  import opened Progress
  import opened Reachability
  import opened Spinning
  import Q = Queue

  // ----- end_call reaches every attempt ---------------------------------------------------------

  lemma {:induction false} RunInReach(c: Config, run: seq<State>, acts: seq<Action>, k: nat)
    requires IsRun(c, run, acts) && k <= |acts|
    ensures AllInReach(run[k])
  {
    if k > 0 {
      RunInReach(c, run, acts, k - 1);
      StepOfRun(c, run, acts, k - 1);
      ReachStep(c, run[k - 1], acts[k - 1]);
    }
  }

  /** In every reachable state an `end_call` catches a guarding attempt that nothing has cancelled
      yet: it takes the call out of the queue, if the call is queued again, or takes the attempt's
      own sender. It never finds neither. */
  lemma NeverNeither(c: Config, s: State, i: nat)
    requires Reachable(c, s) && QueueFree(s) && IsCall(s, i) && Guards(s.procs[i])
    requires i !in s.signalled && Count(s.procs, TakenBy(i)) == 0
    ensures var id := s.procs[i].id;
            Apply(c, s, EndCall(id)).procs
            == s.procs + [Ender(id, if Q.Occurs(s.queue, id) > 0 then Dequeued else Signalling(i))]
  {
    var run, acts :| ReachedBy(c, s, run, acts);
    RunInReach(c, run, acts, |acts|);
    assert InReach(s, i);
  }

  // ----- the dispatcher's hand ------------------------------------------------------------------

  /** The attempt in the dispatcher's hand is the one it is handling, and there is one. */
  ghost predicate HandOk(s: State) {
    (s.disp.Handling? ==> Holding(s))
    && forall i :: 0 <= i < |s.procs| && s.procs[i].Call? && InHand(s.procs[i].callPc) ==> s.disp == Handling(i)
  }

  lemma HandStep(c: Config, s: State, a: Action)
    requires HandOk(s) && Ready(c, s, a)
    ensures HandOk(Apply(c, s, a))
  {
    if a.Dispatch? { HandByDispatch(c, s, a); } else { HandElsewhere(c, s, a); }
  }

  lemma HandByDispatch(c: Config, s: State, a: Action)
    requires HandOk(s) && Ready(c, s, a) && a.Dispatch?
    ensures HandOk(Apply(c, s, a))
  {
    if a.dispatch == Take { HandByTake(c, s, a); }
    else if a.dispatch in {MarkProbe, SetRinging, Spawn} { HandByHandling(c, s, a); }
    else { HandByPass(c, s, a); }
  }

  lemma HandByTake(c: Config, s: State, a: Action)
    requires HandOk(s) && Ready(c, s, a) && a == Dispatch(Take)
    ensures HandOk(Apply(c, s, a))
  {}

  lemma HandByHandling(c: Config, s: State, a: Action)
    requires HandOk(s) && Ready(c, s, a) && a.Dispatch? && a.dispatch in {MarkProbe, SetRinging, Spawn}
    ensures HandOk(Apply(c, s, a))
  {}

  lemma HandByPass(c: Config, s: State, a: Action)
    requires HandOk(s) && Ready(c, s, a) && a.Dispatch? && !(a.dispatch in {Take, MarkProbe, SetRinging, Spawn})
    ensures HandOk(Apply(c, s, a))
  {}

  /** Other steps neither take an attempt into the hand nor move the one there. */
  lemma HandElsewhere(c: Config, s: State, a: Action)
    requires HandOk(s) && Ready(c, s, a) && !a.Dispatch?
    ensures HandOk(Apply(c, s, a))
  {
    OnlyDispatcherMoves(c, s, a);
    OthersKeepHand(c, s, a);
  }

  lemma OnlyDispatcherMoves(c: Config, s: State, a: Action)
    requires Ready(c, s, a) && !a.Dispatch?
    ensures Shared(c, s, a).disp == s.disp
  {}

  lemma OthersKeepHand(c: Config, s: State, a: Action)
    requires Ready(c, s, a) && !a.Dispatch?
    ensures var ch := ThreadChange(c, s, a);
            (!ch.Same? ==> !(ch.p.Call? && InHand(ch.p.callPc)))
            && (ch.Put? ==> !(s.procs[ch.i].Call? && InHand(s.procs[ch.i].callPc)))
  {}

  lemma {:induction false} RunHandOk(c: Config, run: seq<State>, acts: seq<Action>, k: nat)
    requires IsRun(c, run, acts) && k <= |acts|
    ensures HandOk(run[k])
  {
    if k > 0 {
      RunHandOk(c, run, acts, k - 1);
      StepOfRun(c, run, acts, k - 1);
      HandStep(c, run[k - 1], acts[k - 1]);
    }
  }

  // ----- every thread can move ------------------------------------------------------------------

  predicate Unfinished(p: Proc) {
    match p
    case Placer(_, _, _, _, _, _, pc) => pc != Placed
    case Call(_, _, _, _, pc, _) => pc != Gone
    case Ender(_, pc) => !pc.EndCounted? && !pc.Signalled?
  }

  /** The step moves thread `i`, and takes the call that it owns one step further. */
  ghost predicate MovesOn(c: Config, s: State, a: Action, i: nat) {
    Enabled(c, s, a) && ThreadChange(c, s, a).Put? && ThreadChange(c, s, a).i == i
    && ThreadChange(c, s, a).p != s.procs[i]
    && forall id :: Owns(s.procs[i], id) ==> Advances(s, a, id)
  }

  lemma PlacerCanMove(c: Config, s: State, i: nat) returns (a: Action)
    requires QueueFree(s) && IsPlacer(s, i) && Unfinished(s.procs[i])
    ensures MovesOn(c, s, a, i)
  {
    a := match s.procs[i].placePc {
      case Claimed => Place(i, WriteRecord)
      case Recorded => Place(i, CountPlaced)
      case Counted => Place(i, PushEntry)
      case _ => Place(i, WakeForPlaced)
    };
  }

  lemma EnderCanMove(c: Config, s: State, i: nat) returns (a: Action)
    requires IsEnder(s, i) && Unfinished(s.procs[i])
    ensures MovesOn(c, s, a, i)
  {
    var after := EvictionExists(
      Terminated(s.store, s.procs[i].id, QueuedCancel(), None, None, s.clock), c.maxHistory);
    a := match s.procs[i].endPc {
      case Dequeued => End(i, FinalizeQueued(after))
      case EndFinalized(_) => End(i, CountCancelled)
      case _ => End(i, SendCancel)
    };
  }

  lemma InHandCanMove(c: Config, s: State, i: nat) returns (a: Action)
    requires IsCall(s, i) && InHand(s.procs[i].callPc) && s.disp == Handling(i)
    ensures MovesOn(c, s, a, i)
  {
    a := match s.procs[i].callPc {
      case Taken(probe, _) => Dispatch(if probe then MarkProbe else SetRinging)
      case Marked => Dispatch(SetRinging)
      case _ => Dispatch(Spawn)
    };
  }

  const SILENT_CALL := CallShape(true, 0, 0, CallerHangup)

  predicate Dials(pc: CallPc) { pc in {Preflight, Dialing, RingWait, Answered, Live} || pc.Reported? }

  /** Up to its outcome an attempt waits for answers from outside; each of them can come. */
  lemma DialingCanMove(c: Config, s: State, i: nat) returns (a: Action)
    requires IsCall(s, i) && Dials(s.procs[i].callPc)
    ensures MovesOn(c, s, a, i)
  {
    a := match s.procs[i].callPc {
      case Preflight => Run(i, if c.netCheck then ReportHealth(true) else SkipPreflight)
      case Reported(_) => Run(i, WakeForReport)
      case Dialing => Run(i, Dial(true))
      case RingWait => Run(i, RingAnswer)
      case Answered => Run(i, MarkAnswered)
      case _ => Run(i, HangUp(false, None, SILENT_CALL))
    };
  }

  lemma SettlingCanMove(c: Config, s: State, i: nat) returns (a: Action)
    requires QueueFree(s) && IsCall(s, i) && Unfinished(s.procs[i])
    requires !InHand(s.procs[i].callPc) && !Dials(s.procs[i].callPc)
    ensures MovesOn(c, s, a, i)
  {
    var p := s.procs[i];
    if p.callPc.Finalizing? {
      var after := EvictionExists(Terminated(s.store, p.id, p.callPc.fd, None, None, s.clock), c.maxHistory);
      return Settle(i, FinalizeCall(None, None, after));
    }
    a := Settle(i, match p.callPc {
      case Requeuing(_) => ResetRecord
      case RequeueReset(_) => CountRetry
      case RequeueCounted(_) => PushRetry
      case RequeuePushed => WakeForRetry
      case CallFinalized(_) => CountOutcome
      case Unwinding => DropGuard
      case GuardDropped => ReleaseSlot
      case _ => WakeForSlot
    });
  }

  /** No thread is stuck: in every reachable state with the queue lock free each unfinished thread
      has an enabled step, and for the owner of a call it is a step of the call's life. */
  lemma NeverStuck(c: Config, s: State, i: nat) returns (a: Action)
    requires Reachable(c, s) && QueueFree(s) && i < |s.procs| && Unfinished(s.procs[i])
    ensures MovesOn(c, s, a, i)
  {
    var run, acts :| ReachedBy(c, s, run, acts);
    RunHandOk(c, run, acts, |acts|);
    if s.procs[i].Placer? { a := PlacerCanMove(c, s, i); }
    else if s.procs[i].Ender? { a := EnderCanMove(c, s, i); }
    else if InHand(s.procs[i].callPc) { a := InHandCanMove(c, s, i); }
    else if Dials(s.procs[i].callPc) { a := DialingCanMove(c, s, i); }
    else { a := SettlingCanMove(c, s, i); }
  }

  /** The dispatcher gives the queue lock back within two steps of its own. */
  lemma LockIsBrief(c: Config, s: State) returns (steps: seq<DispatchStep>, t: State)
    requires !QueueFree(s)
    ensures |steps| <= 2 && Leads(c, s, steps, t) && QueueFree(t)
  {
    if s.disp.Locked? {
      var decided := Apply(c, s, Dispatch(Decide));
      if QueueFree(decided) {
        steps, t := [Decide], decided;
        Then(c, s, Decide, [], t);
      } else {
        t := Apply(c, decided, Dispatch(Take));
        steps := [Decide] + [Take];
        Then(c, decided, Take, [], t);
        Then(c, s, Decide, [Take], t);
      }
    } else {
      steps, t := [Take], Apply(c, s, Dispatch(Take));
      Then(c, s, Take, [], t);
    }
  }
}
