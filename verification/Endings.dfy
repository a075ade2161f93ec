/** What is written when a call ends, and how long it stands. */
module Endings {
  import opened Base
  import opened CallIds
  import opened Store
  import opened Scheduler
  import opened Ownership
  import opened Cancels
  import opened SchedulerTheorems
  import opened Outcomes

  // ----- cancelled attempts ---------------------------------------------------------------------

  /** The step gives up because the attempt's receiver has resolved. */
  predicate GivesUp(a: Action) {
    a.Run? && (a.run == CancelPreflight || (a.run.HangUp? && a.run.cancelled))
  }

  lemma {:induction false} GaveUpSignalled(c: Config, run: seq<State>, acts: seq<Action>, k: nat, i: nat, a: Action)
    requires IsRun(c, run, acts) && k <= |acts| && a in acts[..k] && GivesUp(a) && a.i == i
    ensures i in run[k].signalled
  {
    StepOfRun(c, run, acts, k - 1);
    SignalledStep(c, run[k - 1], acts[k - 1]);
    if acts[k - 1] == a {
      assert i in run[k - 1].signalled;
    } else {
      assert acts[..k] == acts[..k - 1] + [acts[k - 1]];
      GaveUpSignalled(c, run, acts, k - 1, i, a);
    }
  }

  /** An attempt settles as cancelled only if its cancel receiver has resolved. */
  lemma CancelledWasSignalled(c: Config, run: seq<State>, acts: seq<Action>, k: nat, i: nat)
    requires IsRun(c, run, acts) && k <= |acts| && IsCall(run[k], i) && run[k].procs[i].fate == Settled(Cancelled)
    ensures i in run[k].signalled
  {
    var t := Tried(acts[..k], i);
    FateFollows(c, run, acts, k, i);
    TriedByOne(acts[..k], i);
    assert Last(t) in t && GivesUp(Last(t));
    GaveUpSignalled(c, run, acts, k, i, Last(t));
  }

  // ----- what is written at the end -------------------------------------------------------------

  /** The attempt has ended its call as `d`, counted or about to be. */
  predicate SettlesTo(p: Proc, d: Disposition) {
    p.Call? && ((p.callPc == CallFinalized(d) && p.fate == Unsettled) || (IsOver(p.callPc) && p.fate == Settled(d)))
  }

  lemma SettlesStep(c: Config, s: State, a: Action, i: nat, d: Disposition)
    requires Ready(c, s, a) && i < |s.procs| && SettlesTo(s.procs[i], d)
    ensures SettlesTo(Apply(c, s, a).procs[i], d)
  {
    MovedBy(c, s, a, i);
    if a.Settle? && a.i == i { SettlesBySettle(c, s, a, d); }
    else if a.Run? && a.i == i { assert false; }
    else if a.Dispatch? { HandDiffers(c, s, a, i, d); }
  }

  lemma SettlesBySettle(c: Config, s: State, a: Action, d: Disposition)
    requires Ready(c, s, a) && a.Settle? && SettlesTo(s.procs[a.i], d)
    ensures SettlesTo(ThreadChange(c, s, a).p, d)
  {}

  lemma HandDiffers(c: Config, s: State, a: Action, i: nat, d: Disposition)
    requires Ready(c, s, a) && a.Dispatch? && i < |s.procs| && SettlesTo(s.procs[i], d)
    ensures ThreadChange(c, s, a).Put? ==> ThreadChange(c, s, a).i != i
  {}

  lemma {:induction false} RunSettlesTo(
    c: Config, run: seq<State>, acts: seq<Action>, j: nat, k: nat, i: nat, d: Disposition)
    requires IsRun(c, run, acts) && j <= k <= |acts| && i < |run[j].procs| && SettlesTo(run[j].procs[i], d)
    ensures i < |run[k].procs| && SettlesTo(run[k].procs[i], d)
    decreases k
  {
    if j < k {
      RunSettlesTo(c, run, acts, j, k - 1, i, d);
      StepOfRun(c, run, acts, k - 1);
      MovedBy(c, run[k - 1], acts[k - 1], i);
      SettlesStep(c, run[k - 1], acts[k - 1], i, d);
    }
  }

  lemma FinalizeWrites(c: Config, s: State, a: Action) returns (d: Disposition)
    requires Enabled(c, s, a) && a.Settle? && a.settle.FinalizeCall?
    ensures var t, id := Apply(c, s, a), s.procs[a.i].id;
            s.procs[a.i].callPc == Finalizing(d)
            && t.procs[a.i].callPc == CallFinalized(d) && t.procs[a.i].fate == s.procs[a.i].fate
            && (id in t.store ==>
                  id in s.store && EndedAs(t.store[id], s.store[id], d, a.settle.goal, a.settle.error, s.clock))
  {
    d := s.procs[a.i].callPc.fd;
    TerminatedIsEnded(s.store, a.settle.after, c.maxHistory, s.procs[a.i].id, d,
                      a.settle.goal, a.settle.error, s.clock);
  }

  /** What is written when an attempt ends its call: the goal and the error it was given, the time,
      and the disposition that its own steps deserve, which is also the one it is counted as; all
      else in the record is as before. It stays like that until the history drops it. */
  lemma FinalizedTells(
    c: Config, run: seq<State>, acts: seq<Action>, j: nat, k: nat, i: nat,
    goal: Option<string>, error: Option<string>, after: Records) returns (d: Disposition)
    requires c.breaker.Valid() && IsRun(c, run, acts) && j < k <= |acts|
    requires acts[j] == Settle(i, FinalizeCall(goal, error, after))
    ensures IsCall(run[j], i) && EndsAs(c, run[j].procs[i].attempt, Tried(acts[..j], i), d)
    ensures IsCall(run[k], i) && SettlesTo(run[k].procs[i], d)
    ensures var id := run[j].procs[i].id;
            id in run[k].store ==>
              id in run[j].store && EndedAs(run[k].store[id], run[j].store[id], d, goal, error, run[j].clock)
  {
    assert Enabled(c, run[j], acts[j]);
    d := FinalizeWrites(c, run[j], acts[j]);
    RunTells(c, run, acts, j, i);
    FinalizedSettles(c, run, acts, j, k, i, d);
    FinalizedRecord(c, run, acts, j, k, run[j].procs[i].id);
  }

  /** The record that a step leaves when it ends the call is never rewritten. */
  lemma FinalizedRecord(c: Config, run: seq<State>, acts: seq<Action>, j: nat, k: nat, id: CallId)
    requires c.breaker.Valid() && IsRun(c, run, acts) && j < k <= |acts| && Ends(run[j], acts[j], id)
    ensures id in run[k].store ==> id in run[j + 1].store && run[k].store[id] == run[j + 1].store[id]
  {
    FinalizedRetires(c, run, acts, j, id);
    RetiredForever(c, run, acts, j + 1, k, id);
  }

  lemma FinalizedSettles(c: Config, run: seq<State>, acts: seq<Action>, j: nat, k: nat, i: nat, d: Disposition)
    requires IsRun(c, run, acts) && j < k <= |acts| && IsCall(run[j], i) && IsCall(run[j + 1], i)
    requires run[j].procs[i].callPc == Finalizing(d) && run[j + 1].procs[i].callPc == CallFinalized(d)
    ensures IsCall(run[k], i) && SettlesTo(run[k].procs[i], d)
  {
    RunTells(c, run, acts, j + 1, i);
    RunSettlesTo(c, run, acts, j + 1, k, i, d);
  }

  /** The same for a call that `end_call` took out of the queue. */
  lemma QueueCancelTells(c: Config, run: seq<State>, acts: seq<Action>, j: nat, k: nat, i: nat, after: Records)
    requires c.breaker.Valid() && IsRun(c, run, acts) && j < k <= |acts|
    requires acts[j] == End(i, FinalizeQueued(after))
    ensures IsEnder(run[j], i)
    ensures var id := run[j].procs[i].id;
            id in run[k].store ==>
              id in run[j].store && EndedAs(run[k].store[id], run[j].store[id], Cancelled, None, None, run[j].clock)
  {
    var s := run[j];
    assert Enabled(c, s, acts[j]);
    var id := s.procs[i].id;
    TerminatedIsEnded(s.store, after, c.maxHistory, id, Cancelled, None, None, s.clock);
    FinalizedRecord(c, run, acts, j, k, id);
  }
}
