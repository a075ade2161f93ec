/** What an attempt's own steps say about how its call ends. */
module Outcomes {
  import opened Base
  import opened Store
  import opened Scheduler

  // ----- what a thread has tried ----------------------------------------------------------------

  /** The step brings thread `i` towards its outcome, or kills it. */
  predicate Tries(a: Action, i: nat) {
    (a.Run? || (a.Settle? && a.settle == Panic)) && a.i == i
  }

  /** All such steps of thread `i`, in order. */
  function Tried(acts: seq<Action>, i: nat): seq<Action> {
    if acts == [] then [] else Tried(DropLast(acts), i) + TriedBy(Last(acts), i)
  }

  function TriedBy(a: Action, i: nat): seq<Action> { if Tries(a, i) then [a] else [] }

  /** The last step, after others that satisfy the next predicate of the chain. */
  predicate Ran(t: seq<Action>, step: RunStep) { t != [] && Last(t).Run? && Last(t).run == step }

  /** The preflight is switched off, or its report was good. */
  predicate Cleared(c: Config, t: seq<Action>) {
    (!c.netCheck && |t| == 1 && Ran(t, SkipPreflight))
    || (c.netCheck && |t| == 2 && Ran(t[..1], ReportHealth(true)) && Ran(t, WakeForReport))
  }

  predicate Unusable(c: Config, t: seq<Action>) {
    c.netCheck && |t| == 2 && Ran(t[..1], ReportHealth(false)) && Ran(t, WakeForReport)
  }

  predicate Rings(c: Config, t: seq<Action>) { Ran(t, Dial(true)) && Cleared(c, DropLast(t)) }

  predicate PickedUp(c: Config, t: seq<Action>) { Ran(t, RingAnswer) && Rings(c, DropLast(t)) }

  predicate Connected(c: Config, t: seq<Action>) { Ran(t, MarkAnswered) && PickedUp(c, DropLast(t)) }

  /** The line is busy and another attempt is left. */
  predicate TriesAgain(c: Config, attempt: nat, t: seq<Action>) {
    Ran(t, RingEnd(Some(DialBusy))) && Rings(c, DropLast(t)) && attempt < c.busyMaxAttempts
  }

  predicate Crashed(c: Config, t: seq<Action>) {
    t != [] && Last(t).Settle? && Last(t).settle == Panic
    && var before := DropLast(t);
       before == [] || Cleared(c, before) || Rings(c, before) || PickedUp(c, before) || Connected(c, before)
  }

  /** Which disposition an unanswered dial deserves. */
  predicate DialDeserves(outcome: Option<DialOutcome>, d: Disposition) {
    match d
    case Busy => outcome == Some(DialBusy)
    case NoAnswer => outcome == Some(DialNoAnswer)
    case Rejected => outcome == Some(DialRejected)
    case NotFound => outcome == Some(DialNotFound)
    case Unavailable => outcome == Some(DialUnavailable)
    case Failed => outcome in {None, Some(DialCompleted), Some(DialFailed)}
    case _ => false
  }

  /** The steps taken end the call, and end it as `d`. */
  predicate EndsAs(c: Config, attempt: nat, t: seq<Action>, d: Disposition) {
    t != [] && Last(t).Run?
    && match Last(t).run
       case CancelPreflight => c.netCheck && |t| == 1 && d == Cancelled
       case WakeForReport => Unusable(c, t) && d == Failed
       case Dial(ok) => !ok && Cleared(c, DropLast(t)) && d == Failed
       case RingEnd(outcome) =>
         Rings(c, DropLast(t)) && !TriesAgain(c, attempt, t) && DialDeserves(outcome, d)
       case HangUp(cancelled, amd, shape) =>
         Connected(c, DropLast(t)) && shape.answered && Deserved(d, cancelled, amd, None, shape)
       case _ => false
  }

  /** Where an attempt that has taken the steps `t` may stand. */
  predicate StandsBy(c: Config, attempt: nat, pc: CallPc, t: seq<Action>) {
    match pc
    case Taken(_, _) => t == []
    case Marked => t == []
    case Spawnable => t == []
    case Preflight => t == []
    case Reported(ok) => c.netCheck && |t| == 1 && Ran(t, ReportHealth(ok))
    case Dialing => Cleared(c, t)
    case RingWait => Rings(c, t)
    case Answered => PickedUp(c, t)
    case Live => Connected(c, t)
    case Requeuing(_) => TriesAgain(c, attempt, t)
    case RequeueReset(_) => TriesAgain(c, attempt, t)
    case RequeueCounted(_) => TriesAgain(c, attempt, t)
    case RequeuePushed => TriesAgain(c, attempt, t)
    case Finalizing(d) => EndsAs(c, attempt, t, d)
    case CallFinalized(d) => EndsAs(c, attempt, t, d)
    case _ => true
  }

  predicate IsOver(pc: CallPc) { pc in {Unwinding, GuardDropped, SlotReleased, Gone} }

  /** The fate of an attempt that has taken the steps `t`. */
  predicate FateBy(c: Config, p: Proc, t: seq<Action>)
    requires p.Call?
  {
    match p.fate
    case Unsettled => !IsOver(p.callPc) && !p.callPc.RequeueCounted? && p.callPc != RequeuePushed
    case Settled(d) => IsOver(p.callPc) && EndsAs(c, p.attempt, t, d)
    case Requeued => TriesAgain(c, p.attempt, t)
                     && (p.callPc.RequeueCounted? || p.callPc == RequeuePushed || IsOver(p.callPc))
    case Panicked => IsOver(p.callPc) && Crashed(c, t)
  }

  predicate TellsStory(c: Config, p: Proc, t: seq<Action>) {
    !p.Call? || (StandsBy(c, p.attempt, p.callPc, t) && FateBy(c, p, t))
  }

  // ----- every step keeps the story -------------------------------------------------------------

  lemma Appended(t: seq<Action>, a: Action)
    ensures DropLast(t + [a]) == t && Last(t + [a]) == a
    ensures |t| == 1 ==> (t + [a])[..1] == t
  {}

  lemma StoryByRun(c: Config, s: State, a: Action, t: seq<Action>)
    requires Ready(c, s, a) && a.Run? && TellsStory(c, s.procs[a.i], t)
    ensures TellsStory(c, ThreadChange(c, s, a).p, t + [a])
  {
    if a.run.RingEnd? { StoryOfRing(c, s, a, t); }
    else if a.run.HangUp? { StoryOfHangUp(c, s, a, t); }
    else if a.run.Dial? || a.run.RingAnswer? || a.run.MarkAnswered? { StoryOfDial(c, s, a, t); }
    else { StoryOfPreflight(c, s, a, t); }
  }

  lemma StoryOfPreflight(c: Config, s: State, a: Action, t: seq<Action>)
    requires Ready(c, s, a) && a.Run? && TellsStory(c, s.procs[a.i], t)
    requires !a.run.RingEnd? && !a.run.HangUp? && !a.run.Dial? && !a.run.RingAnswer? && !a.run.MarkAnswered?
    ensures TellsStory(c, ThreadChange(c, s, a).p, t + [a])
  {
    Appended(t, a);
  }

  lemma StoryOfDial(c: Config, s: State, a: Action, t: seq<Action>)
    requires Ready(c, s, a) && a.Run? && TellsStory(c, s.procs[a.i], t)
    requires a.run.Dial? || a.run.RingAnswer? || a.run.MarkAnswered?
    ensures TellsStory(c, ThreadChange(c, s, a).p, t + [a])
  {
    Appended(t, a);
  }

  lemma StoryOfRing(c: Config, s: State, a: Action, t: seq<Action>)
    requires Ready(c, s, a) && a.Run? && a.run.RingEnd? && TellsStory(c, s.procs[a.i], t)
    ensures TellsStory(c, ThreadChange(c, s, a).p, t + [a])
  {
    Appended(t, a);
  }

  lemma StoryOfHangUp(c: Config, s: State, a: Action, t: seq<Action>)
    requires Ready(c, s, a) && a.Run? && a.run.HangUp? && TellsStory(c, s.procs[a.i], t)
    ensures TellsStory(c, ThreadChange(c, s, a).p, t + [a])
  {
    Appended(t, a);
    var cancelled, amd, shape := a.run.cancelled, a.run.amd, a.run.shape;
    ResolvesAsDeserved(ResolveDisposition(cancelled, amd, None, shape), cancelled, amd, None, shape);
  }

  lemma StoryBySettle(c: Config, s: State, a: Action, t: seq<Action>)
    requires Ready(c, s, a) && a.Settle? && TellsStory(c, s.procs[a.i], t)
    ensures TellsStory(c, ThreadChange(c, s, a).p, t + TriedBy(a, a.i))
  {
    if a.settle == Panic {
      StoryOfPanic(c, s, a, t);
    } else {
      StoryOfSettling(c, s, a, t);
      NothingAdded(t);
    }
  }

  lemma StoryOfPanic(c: Config, s: State, a: Action, t: seq<Action>)
    requires Ready(c, s, a) && a.Settle? && a.settle == Panic && TellsStory(c, s.procs[a.i], t)
    ensures TellsStory(c, ThreadChange(c, s, a).p, t + [a])
  {
    Appended(t, a);
  }

  lemma StoryOfSettling(c: Config, s: State, a: Action, t: seq<Action>)
    requires Ready(c, s, a) && a.Settle? && a.settle != Panic && TellsStory(c, s.procs[a.i], t)
    ensures TellsStory(c, ThreadChange(c, s, a).p, t)
  {}

  /** The dispatcher moves an attempt that has not tried anything yet. */
  lemma StoryByDispatch(c: Config, s: State, a: Action, t: seq<Action>)
    requires Ready(c, s, a) && a.Dispatch? && a.dispatch != Take
    requires var ch := ThreadChange(c, s, a); ch.Put? ==> TellsStory(c, s.procs[ch.i], t)
    ensures var ch := ThreadChange(c, s, a); ch.Put? ==> TellsStory(c, ch.p, t)
    ensures !ThreadChange(c, s, a).Add?
  {}

  lemma StoryOfTaken(c: Config, s: State, a: Action)
    requires Ready(c, s, a)
    ensures ThreadChange(c, s, a).Add? ==> TellsStory(c, ThreadChange(c, s, a).p, [])
  {}

  /** Only a thread's own steps and the dispatcher's hand move it. */
  lemma MovedBy(c: Config, s: State, a: Action, i: nat)
    requires Ready(c, s, a) && i < |s.procs|
    ensures i < |ProcsAfter(c, s, a)|
    ensures var ch := ThreadChange(c, s, a);
            ProcsAfter(c, s, a)[i] == if ch.Put? && ch.i == i then ch.p else s.procs[i]
    ensures (a.Run? || a.Settle?) ==> ThreadChange(c, s, a).Put? && ThreadChange(c, s, a).i == a.i
    ensures (a.Place? || a.End?) ==> ThreadChange(c, s, a).Put? && !ThreadChange(c, s, a).p.Call?
    ensures a == Dispatch(Take) || a.Tick? || a.PlaceCall? || a.EndCall? ==> !ThreadChange(c, s, a).Put?
  {}

  lemma StoryStep(c: Config, s: State, a: Action, i: nat, t: seq<Action>)
    requires Ready(c, s, a) && i < |s.procs| && TellsStory(c, s.procs[i], t)
    ensures i < |ProcsAfter(c, s, a)| && TellsStory(c, ProcsAfter(c, s, a)[i], t + TriedBy(a, i))
  {
    MovedBy(c, s, a, i);
    NothingAdded(t);
    if (a.Run? || a.Settle?) && a.i == i {
      if a.Run? { StoryByRun(c, s, a, t); } else { StoryBySettle(c, s, a, t); }
    } else if a.Dispatch? && a.dispatch != Take && ThreadChange(c, s, a).Put? && ThreadChange(c, s, a).i == i {
      StoryByDispatch(c, s, a, t);
    }
  }

  /** A thread that did not exist before the last step has not tried anything. */
  lemma {:induction false} NothingTried(c: Config, run: seq<State>, acts: seq<Action>, k: nat, i: nat)
    requires IsRun(c, run, acts) && k <= |acts| && (k > 0 ==> i >= |run[k - 1].procs|)
    ensures Tried(acts[..k], i) == []
  {
    if k > 0 {
      TriedOneMore(acts, k - 1, i);
      StepOfRun(c, run, acts, k - 1);
      ThreadsStay(c, run[k - 1], acts[k - 1]);
      if k > 1 { NeverFewer(c, run, acts, k - 2); }
      NothingTried(c, run, acts, k - 1, i);
    }
  }

  lemma NeverFewer(c: Config, run: seq<State>, acts: seq<Action>, k: nat)
    requires IsRun(c, run, acts) && k < |acts|
    ensures |run[k].procs| <= |run[k + 1].procs|
  {
    StepOfRun(c, run, acts, k);
    ThreadsStay(c, run[k], acts[k]);
  }

  lemma ThreadsStay(c: Config, s: State, a: Action)
    requires Ready(c, s, a)
    ensures |s.procs| <= |ProcsAfter(c, s, a)| <= |s.procs| + 1
    ensures a.Run? || a.Settle? ==> a.i < |s.procs|
  {}

  lemma TriedOneMore(acts: seq<Action>, k: nat, i: nat)
    requires k < |acts|
    ensures Tried(acts[..k + 1], i) == Tried(acts[..k], i) + TriedBy(acts[k], i)
  {
    assert DropLast(acts[..k + 1]) == acts[..k] && Last(acts[..k + 1]) == acts[k];
  }

  lemma {:induction false} RunTells(c: Config, run: seq<State>, acts: seq<Action>, k: nat, i: nat)
    requires IsRun(c, run, acts) && k <= |acts| && i < |run[k].procs|
    ensures TellsStory(c, run[k].procs[i], Tried(acts[..k], i))
  {
    if k > 0 {
      TriedOneMore(acts, k - 1, i);
      if i < |run[k - 1].procs| {
        RunTells(c, run, acts, k - 1, i);
        OldTells(c, run, acts, k - 1, i);
      } else {
        NothingTried(c, run, acts, k, i);
        NewTells(c, run, acts, k - 1, i);
      }
    }
  }

  lemma OldTells(c: Config, run: seq<State>, acts: seq<Action>, k: nat, i: nat)
    requires IsRun(c, run, acts) && k < |acts| && i < |run[k].procs|
    requires TellsStory(c, run[k].procs[i], Tried(acts[..k], i))
    ensures i < |run[k + 1].procs|
    ensures TellsStory(c, run[k + 1].procs[i], Tried(acts[..k], i) + TriedBy(acts[k], i))
  {
    StepOfRun(c, run, acts, k);
    StoryStep(c, run[k], acts[k], i, Tried(acts[..k], i));
  }

  lemma NewTells(c: Config, run: seq<State>, acts: seq<Action>, k: nat, i: nat)
    requires IsRun(c, run, acts) && k < |acts| && |run[k].procs| <= i < |run[k + 1].procs|
    ensures TellsStory(c, run[k + 1].procs[i], [])
  {
    StepOfRun(c, run, acts, k);
    ThreadsStay(c, run[k], acts[k]);
    StoryOfTaken(c, run[k], acts[k]);
  }

  // ----- what the steps tell --------------------------------------------------------------------

  /** A number is dialled only after exactly this: the preflight is off, or its one report was good. */
  lemma DialsWhenCleared(c: Config, run: seq<State>, acts: seq<Action>, k: nat, i: nat, ok: bool)
    requires IsRun(c, run, acts) && k < |acts| && acts[k] == Run(i, Dial(ok))
    ensures Tried(acts[..k], i)
         == if c.netCheck then [Run(i, ReportHealth(true)), Run(i, WakeForReport)] else [Run(i, SkipPreflight)]
  {
    StepOfRun(c, run, acts, k);
    RunTells(c, run, acts, k, i);
    TriedByOne(acts[..k], i);
    ClearedIs(c, Tried(acts[..k], i), i);
  }

  lemma ClearedIs(c: Config, t: seq<Action>, i: nat)
    requires Cleared(c, t) && forall a :: a in t ==> Tries(a, i)
    ensures t == if c.netCheck then [Run(i, ReportHealth(true)), Run(i, WakeForReport)] else [Run(i, SkipPreflight)]
  {
    assert Tries(t[0], i) && Tries(Last(t), i);
    if c.netCheck { assert Last(t[..1]) == t[0] == Run(i, ReportHealth(true)); }
  }

  lemma {:induction false} TriedByOne(acts: seq<Action>, i: nat)
    ensures forall a :: a in Tried(acts, i) ==> Tries(a, i) && a in acts
  {
    if acts != [] { TriedByOne(DropLast(acts), i); }
  }

  /** Some fate has been decided. */
  predicate Decided(p: Proc) { p.Call? && p.fate != Unsettled }

  /** Nothing ends an attempt in two ways. */
  lemma OneEnding(c: Config, attempt: nat, t: seq<Action>)
    ensures forall d, e :: EndsAs(c, attempt, t, d) && EndsAs(c, attempt, t, e) ==> d == e
    ensures forall d :: EndsAs(c, attempt, t, d) ==> !TriesAgain(c, attempt, t) && !Crashed(c, t)
    ensures TriesAgain(c, attempt, t) ==> !Crashed(c, t)
  {
    forall d, e | EndsAs(c, attempt, t, d) && EndsAs(c, attempt, t, e) ensures d == e {
      if Last(t).run.HangUp? {
        ResolvesAsDeserved(d, Last(t).run.cancelled, Last(t).run.amd, None, Last(t).run.shape);
        ResolvesAsDeserved(e, Last(t).run.cancelled, Last(t).run.amd, None, Last(t).run.shape);
      }
    }
  }

  /** An attempt's own steps decide its fate, and decide it alone: it goes back to the queue exactly
      when its ring ended busy with an attempt left, and settles as `d` exactly when its steps end
      the call as `d`. Once it unwinds, one of the three has happened. */
  lemma FateFollows(c: Config, run: seq<State>, acts: seq<Action>, k: nat, i: nat)
    requires IsRun(c, run, acts) && k <= |acts| && IsCall(run[k], i)
    ensures var p, t := run[k].procs[i], Tried(acts[..k], i);
            (IsOver(p.callPc) ==> Decided(p))
            && (Decided(p) ==>
                  (p.fate == Requeued <==> TriesAgain(c, p.attempt, t))
                  && (forall d :: p.fate == Settled(d) <==> EndsAs(c, p.attempt, t, d))
                  && (p.fate == Panicked <==> Crashed(c, t)))
  {
    RunTells(c, run, acts, k, i);
    OneEnding(c, run[k].procs[i].attempt, Tried(acts[..k], i));
  }

  lemma {:induction false} Remembered(acts: seq<Action>, i: nat, a: Action)
    requires a in acts && Tries(a, i)
    ensures a in Tried(acts, i)
  {
    if a != Last(acts) {
      NotLast(acts, a);
      Remembered(DropLast(acts), i, a);
    }
  }

  lemma NotLast(t: seq<Action>, a: Action)
    requires a in t && a != Last(t)
    ensures a in DropLast(t)
  {
    assert t == DropLast(t) + [Last(t)];
  }

  /** After a bad report nothing is dialled. */
  lemma NotCleared(c: Config, t: seq<Action>, bad: Action)
    requires bad in t && bad.Run? && bad.run == ReportHealth(false)
    ensures !Cleared(c, t)
  {
    if bad != Last(t) { NotLast(t, bad); }
  }

  lemma NeverRings(c: Config, t: seq<Action>, bad: Action)
    requires bad in t && bad.Run? && bad.run == ReportHealth(false)
    ensures !Rings(c, t) && !PickedUp(c, t) && !Connected(c, t)
    decreases |t|
  {
    if bad != Last(t) {
      NotLast(t, bad);
      NotCleared(c, DropLast(t), bad);
      NeverRings(c, DropLast(t), bad);
    }
  }

  lemma OnlyFails(c: Config, attempt: nat, t: seq<Action>, bad: Action)
    requires bad in t && bad.Run? && bad.run == ReportHealth(false)
    ensures !TriesAgain(c, attempt, t) && !Crashed(c, t)
    ensures forall d :: EndsAs(c, attempt, t, d) ==> d == Failed
  {
    if bad != Last(t) {
      NotLast(t, bad);
      NotCleared(c, DropLast(t), bad);
      NeverRings(c, DropLast(t), bad);
    }
  }

  lemma CallStays(c: Config, s: State, a: Action, i: nat)
    requires Ready(c, s, a) && IsCall(s, i)
    ensures IsCall(Apply(c, s, a), i)
  {
    MovedBy(c, s, a, i);
  }

  lemma {:induction false} RunCallStays(c: Config, run: seq<State>, acts: seq<Action>, j: nat, k: nat, i: nat)
    requires IsRun(c, run, acts) && j <= k <= |acts| && IsCall(run[j], i)
    ensures IsCall(run[k], i)
    decreases k
  {
    if j < k {
      RunCallStays(c, run, acts, j, k - 1, i);
      StepOfRun(c, run, acts, k - 1);
      CallStays(c, run[k - 1], acts[k - 1], i);
    }
  }

  /** An attempt that reported bad health never dials, is never requeued and never panics: it can
      only settle, as failed. */
  lemma UnhealthyFails(c: Config, run: seq<State>, acts: seq<Action>, j: nat, k: nat, i: nat)
    requires IsRun(c, run, acts) && j < k <= |acts| && acts[j] == Run(i, ReportHealth(false))
    ensures IsCall(run[k], i) && run[k].procs[i].fate in {Unsettled, Settled(Failed)}
    ensures k < |acts| ==> forall ok :: acts[k] != Run(i, Dial(ok))
  {
    var t := Tried(acts[..k], i);
    StepOfRun(c, run, acts, j);
    RunCallStays(c, run, acts, j, k, i);
    assert acts[j] == acts[..k][j];
    Remembered(acts[..k], i, acts[j]);
    RunTells(c, run, acts, k, i);
    OnlyFails(c, run[k].procs[i].attempt, t, acts[j]);
    if k < |acts| && acts[k].Run? && acts[k].run.Dial? && acts[k].i == i {
      StepOfRun(c, run, acts, k);
      NotCleared(c, t, acts[j]);
      assert false;
    }
  }
}
