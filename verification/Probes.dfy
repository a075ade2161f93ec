/** The breaker in the scheduler follows its history, and probes stay a window apart. */
module Probes {
  import opened Scheduler
  import B = Breaker

  /** The attempt in the dispatcher's hand still carries a probe permission. */
  predicate ProbeInHand(s: State) {
    Holding(s) && s.procs[s.disp.i].callPc.Taken? && s.procs[s.disp.i].callPc.probe
  }

  ghost predicate ProbesOk(c: Config, s: State) {
    && s.breaker == B.Replay(c.breaker, s.log)
    && B.ProbesSpaced(s.log)
    && (s.disp.Decided? && s.disp.probe ==> B.ReadyToProbe(s.log, s.disp.now))
    && (ProbeInHand(s) ==> B.ReadyToProbe(s.log, s.procs[s.disp.i].callPc.at))
  }

  lemma ProbesStep(c: Config, s: State, a: Action)
    requires c.breaker.Valid() && ProbesOk(c, s) && Ready(c, s, a)
    ensures ProbesOk(c, Apply(c, s, a))
  {
    if a.Dispatch? {
      if a.dispatch == Decide { ProbesByDecide(c, s, a); }
      else if a.dispatch == MarkProbe { ProbesByMark(c, s, a); }
      else { ProbesByOtherDispatch(c, s, a); }
    } else if a.Run? && a.run.ReportHealth? {
      ProbesByReport(c, s, a);
    } else {
      LogUntouched(c, s, a);
      HandUntouched(c, s, a);
    }
  }

  lemma ProbesByDecide(c: Config, s: State, a: Action)
    requires c.breaker.Valid() && ProbesOk(c, s) && Ready(c, s, a) && a == Dispatch(Decide)
    ensures ProbesOk(c, Apply(c, s, a))
  {
    if B.Decide(c.breaker, s.breaker, s.clock) == B.Probe {
      B.ProbeDecisionIsReady(c.breaker, s.log, s.clock);
    }
  }

  lemma ProbesByMark(c: Config, s: State, a: Action)
    requires ProbesOk(c, s) && Ready(c, s, a) && a == Dispatch(MarkProbe)
    ensures ProbesOk(c, Apply(c, s, a))
  {
    var e := B.Mark(s.procs[s.disp.i].callPc.at, c.probeWindow);
    B.ReplayAppend(c.breaker, s.log, e);
    B.SpacedAppend(s.log, e);
  }

  lemma ProbesByOtherDispatch(c: Config, s: State, a: Action)
    requires ProbesOk(c, s) && Ready(c, s, a) && a.Dispatch? && a.dispatch != Decide && a.dispatch != MarkProbe
    ensures ProbesOk(c, Apply(c, s, a))
  {}

  lemma ProbesByReport(c: Config, s: State, a: Action)
    requires ProbesOk(c, s) && Ready(c, s, a) && a.Run? && a.run.ReportHealth?
    ensures ProbesOk(c, Apply(c, s, a))
  {
    var e := B.Report(a.run.ok, s.clock);
    B.ReplayAppend(c.breaker, s.log, e);
    B.SpacedAppend(s.log, e);
  }

  lemma LogUntouched(c: Config, s: State, a: Action)
    requires Ready(c, s, a) && !a.Dispatch? && !(a.Run? && a.run.ReportHealth?)
    ensures var after := Shared(c, s, a);
            after.log == s.log && after.breaker == s.breaker && after.disp == s.disp
  {
    if a.Run? { LogUntouchedByRun(c, s, a); }
    else if a.Settle? { LogUntouchedBySettle(c, s, a); }
  }

  lemma LogUntouchedByRun(c: Config, s: State, a: Action)
    requires Ready(c, s, a) && a.Run? && !a.run.ReportHealth?
    ensures var after := Shared(c, s, a);
            after.log == s.log && after.breaker == s.breaker && after.disp == s.disp
  {}

  lemma LogUntouchedBySettle(c: Config, s: State, a: Action)
    requires Ready(c, s, a) && a.Settle?
    ensures var after := Shared(c, s, a);
            after.log == s.log && after.breaker == s.breaker && after.disp == s.disp
  {}

  lemma HandUntouched(c: Config, s: State, a: Action)
    requires Ready(c, s, a) && !a.Dispatch?
    ensures var after := s.(procs := ProcsAfter(c, s, a));
            ProbeInHand(after) ==> ProbeInHand(s) && after.procs[s.disp.i] == s.procs[s.disp.i]
  {}
}
