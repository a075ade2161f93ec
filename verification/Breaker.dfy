/** Circuit breaker for the shared model leg. */
module Breaker {
  import opened Base

  datatype Decision = Dispatch | Probe | Hold(until: Millis)

  /** What the breaker has been told, oldest first. */
  datatype Event = Report(ok: bool, at: Millis) | Mark(at: Millis, window: Millis)

  datatype Config = Config(threshold: nat, cooldown: Millis) {
    predicate Valid() { threshold <= U32_MAX }
  }

  datatype State = State(
    consecFailures: nat, openUntil: Millis, probeInFlight: bool, probeDeadline: Millis)

  const INITIAL := State(0, 0, false, 0)

  // ----- the code's transitions -----------------------------------------

  function OnResult(c: Config, s: State, ok: bool, now: Millis): State {
    if c.threshold == 0 then s
    else if ok then s.(probeInFlight := false, consecFailures := 0, openUntil := 0)
    else
      var n := Min(s.consecFailures + 1, U32_MAX);
      s.(probeInFlight := false, consecFailures := n,
         openUntil := if n >= c.threshold then SatAdd(now, c.cooldown) else s.openUntil)
  }

  function MarkProbe(s: State, now: Millis, window: Millis): State {
    s.(probeInFlight := true, probeDeadline := SatAdd(now, window))
  }

  function Decide(c: Config, s: State, now: Millis): Decision {
    if c.threshold == 0 || s.openUntil == 0 then Dispatch
    else if now < s.openUntil then Hold(s.openUntil)
    else if s.probeInFlight && now < s.probeDeadline then Hold(s.probeDeadline)
    else Probe
  }

  function Absorb(c: Config, s: State, e: Event): State {
    match e
    case Report(ok, at) => OnResult(c, s, ok, at)
    case Mark(at, w) => MarkProbe(s, at, w)
  }

  function Replay(c: Config, h: seq<Event>): State {
    if h == [] then INITIAL else Absorb(c, Replay(c, h[..|h| - 1]), h[|h| - 1])
  }

  lemma ReplayAppend(c: Config, h: seq<Event>, e: Event)
    ensures Replay(c, h + [e]) == Absorb(c, Replay(c, h), e)
  {
    assert (h + [e])[..|h|] == h;
  }

  // ----- what the history alone says ------------------------------------

  /** Failures reported since the last success. */
  function Streak(h: seq<Event>): nat {
    if h == [] then 0
    else
      var rest := h[..|h| - 1];
      match h[|h| - 1]
      case Report(ok, _) => if ok then 0 else Streak(rest) + 1
      case Mark(_, _) => Streak(rest)
  }

  /** When the last report came in; zero when there was none. */
  function LastReport(h: seq<Event>): Millis {
    if h == [] then 0
    else match h[|h| - 1]
         case Report(_, at) => at
         case Mark(_, _) => LastReport(h[..|h| - 1])
  }

  /** The deadline of the last probe mark no report has followed. */
  function OpenProbe(h: seq<Event>): Option<Millis> {
    if h == [] then None
    else match h[|h| - 1]
         case Report(_, _) => None
         case Mark(at, w) => Some(SatAdd(at, w))
  }

  predicate Tripped(c: Config, h: seq<Event>) {
    c.threshold > 0 && Streak(h) >= c.threshold
  }

  /** The decision a reader of the history would expect. */
  function Expected(c: Config, h: seq<Event>, now: Millis): Decision {
    if !Tripped(c, h) then Dispatch
    else
      var until := SatAdd(LastReport(h), c.cooldown);
      if now < until then Hold(until)
      else match OpenProbe(h)
           case Some(d) => if now < d then Hold(d) else Probe
           case None => Probe
  }

  /** The end of the cooldown is representable as an open breaker: zero means closed. */
  predicate CooldownVisible(c: Config, h: seq<Event>) {
    Tripped(c, h) ==> LastReport(h) + c.cooldown > 0
  }

  lemma {:induction false} ReplayMeaning(c: Config, h: seq<Event>)
    requires c.Valid() && c.threshold > 0
    ensures var s := Replay(c, h);
            s.consecFailures == Min(Streak(h), U32_MAX)
            && s.openUntil == (if Tripped(c, h) then SatAdd(LastReport(h), c.cooldown) else 0)
            && s.probeInFlight == OpenProbe(h).Some?
            && (OpenProbe(h).Some? ==> s.probeDeadline == OpenProbe(h).value)
  {
    if h != [] {
      ReplayMeaning(c, h[..|h| - 1]);
    }
  }

  /** After any interleaving of reports and probe marks the breaker decides what
      its history says, exactly when the cooldown's end is not the zero instant. */
  lemma DecisionRefinesHistory(c: Config, h: seq<Event>, now: Millis)
    requires c.Valid()
    ensures Decide(c, Replay(c, h), now) == Expected(c, h, now) <==> CooldownVisible(c, h)
  {
    if c.threshold > 0 {
      ReplayMeaning(c, h);
    }
  }

  /** The family that fails: no cooldown and a failure at the zero instant. */
  lemma ZeroCooldownNeverTrips(now: Millis)
    ensures var c, h := Config(1, 0), [Report(false, 0)];
            Tripped(c, h) && Decide(c, Replay(c, h), now) == Dispatch && Expected(c, h, now) == Probe
  {
    var h := [Report(false, 0)];
    assert h[..0] == [];
  }

  // ----- probes -----------------------------------------------------------

  predicate Quiet(h: seq<Event>, from: nat, to: nat)
    requires from <= to <= |h|
  {
    forall k :: from <= k < to ==> !h[k].Report?
  }

  /** Two probe marks with no report between them are a full window apart. */
  ghost predicate ProbesSpaced(h: seq<Event>) {
    forall i, j :: 0 <= i < j < |h| && h[i].Mark? && h[j].Mark? && Quiet(h, i, j)
                   ==> SatAdd(h[i].at, h[i].window) <= h[j].at
  }

  /** A probe marked now would keep the spacing. */
  ghost predicate ReadyToProbe(h: seq<Event>, now: Millis) {
    forall i :: 0 <= i < |h| && h[i].Mark? && Quiet(h, i, |h|) ==> SatAdd(h[i].at, h[i].window) <= now
  }

  lemma {:induction false} ProbeDecisionIsReady(c: Config, h: seq<Event>, now: Millis)
    requires c.Valid() && ProbesSpaced(h)
    requires Decide(c, Replay(c, h), now) == Probe
    ensures ReadyToProbe(h, now)
  {
    ReplayMeaning(c, h);
    forall i | 0 <= i < |h| && h[i].Mark? && Quiet(h, i, |h|)
      ensures SatAdd(h[i].at, h[i].window) <= now
    {
      var last := |h| - 1;
      assert h[last].Mark?;
      if i < last { assert Quiet(h, i, last); }
    }
  }

  lemma SpacedAppend(h: seq<Event>, e: Event)
    requires ProbesSpaced(h)
    requires e.Mark? ==> ReadyToProbe(h, e.at)
    ensures ProbesSpaced(h + [e])
    ensures e.Report? ==> forall now :: ReadyToProbe(h + [e], now)
  {
    var h' := h + [e];
    forall i, j | 0 <= i < j < |h'| && h'[i].Mark? && h'[j].Mark? && Quiet(h', i, j)
      ensures SatAdd(h'[i].at, h'[i].window) <= h'[j].at
    {
      if j < |h| {
        assert forall k :: i <= k < j ==> h'[k] == h[k];
        assert Quiet(h, i, j);
      } else {
        assert forall k :: i <= k < |h| ==> h'[k] == h[k];
        assert Quiet(h, i, |h|);
      }
    }
    if e.Report? {
      forall i | 0 <= i < |h'| && h'[i].Mark? ensures !Quiet(h', i, |h'|) {
        assert h'[|h|] == e;
      }
    }
  }

  // ----- the mutable breaker -------------------------------------------------

  /** Breaker state behind its lock, with the history that produced it. */
  class Breaker {
    const config: Config
    var consecFailures: nat
    var openUntil: Millis
    var probeInFlight: bool
    var probeDeadline: Millis
    ghost var history: seq<Event>

    ghost function View(): State
      reads this
    {
      State(consecFailures, openUntil, probeInFlight, probeDeadline)
    }

    ghost predicate Valid()
      reads this
    {
      config.Valid() && View() == Replay(config, history)
    }

    constructor (c: Config)
      requires c.Valid()
      ensures Valid() && config == c && history == []
    {
      config := c;
      consecFailures, openUntil, probeInFlight, probeDeadline := 0, 0, false, 0;
      history := [];
    }

    /** Non-mutating decision at `now`. */
    method DecisionAt(now: Millis) returns (d: Decision)
      requires Valid()
      ensures CooldownVisible(config, history) ==> d == Expected(config, history, now)
      ensures !CooldownVisible(config, history) ==> d == Dispatch
    {
      DecisionRefinesHistory(config, history, now);
      if config.threshold == 0 { return Dispatch; }
      ReplayMeaning(config, history);
      if openUntil == 0 { return Dispatch; }
      if now < openUntil { return Hold(openUntil); }
      if probeInFlight && now < probeDeadline { return Hold(probeDeadline); }
      d := Probe;
    }

    method MarkProbeDispatched(now: Millis, window: Millis)
      requires Valid()
      modifies this
      ensures Valid() && history == old(history) + [Mark(now, window)]
    {
      ReplayAppend(config, history, Mark(now, window));
      probeInFlight := true;
      probeDeadline := SatAdd(now, window);
      history := history + [Mark(now, window)];
    }

    /** Record a preflight outcome; `wake` says whether the dispatcher is woken. */
    method OnResultAt(ok: bool, now: Millis) returns (wake: bool)
      requires Valid()
      modifies this
      ensures Valid() && history == old(history) + [Report(ok, now)]
      ensures wake <==> config.threshold > 0
    {
      ghost var before := View();
      ghost var told := history;
      wake := config.threshold > 0;
      if wake {
        probeInFlight := false;
        if ok {
          consecFailures := 0;
          openUntil := 0;
        } else {
          consecFailures := Min(consecFailures + 1, U32_MAX);
          if consecFailures >= config.threshold {
            openUntil := SatAdd(now, config.cooldown);
          }
        }
      }
      assert View() == OnResult(config, before, ok, now);
      history := told + [Report(ok, now)];
      ReplayAppend(config, told, Report(ok, now));
    }
  }
}
