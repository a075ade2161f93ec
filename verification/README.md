# kutsu: scheduler, media and session proofs

A Dafny 4.11 model of the parts of kutsu (a voice-call engine in Rust) whose behaviour spans
many steps: the call scheduler, the circuit breaker, the call queue and record store, the
preflight retry phase, RTP sequence accounting, the downlink jitter buffer and its decimator,
the media bridge, the two adaptive uplink filters and the per-call session driver.
`dafny verify dfyconfig.toml` checks everything.

## How it is organised

* **Scheduler.** `Scheduler` is a state machine: callers placing and ending calls, one thread per
  dispatched attempt, and the dispatcher, each with a program counter, over the shared queue,
  `running` counter, cancel map, record store, counters, breaker and wake permit. One step is one
  lock region or one atomic operation. `Ownership`, `RecordKeeping`, `Ledger`, `Wakeup`, `Probes`,
  `Attempts`, `Cancels` and `Progress` prove what every step keeps; `SchedulerTheorems` lifts that
  to every run. `SignalTheorems`, `Spinning` and `SelfEviction` characterise configurations, with
  runs built step by step from the moves in `Reachability`; `Liveness` shows that nothing is stuck.
  `Outcomes`, `Endings`, `Placements` and `Admission` read a run from its actions alone: how an
  attempt's own steps decide its fate, what is written at the end, what a call keeps of its
  placement, and what the dispatcher does with the breaker's decisions.
* **Its parts.** `Queue`, `Breaker` and `Store` give the pure operations that the state machine
  uses, and classes that update their fields in place, proved equal to them. `CallIds` covers
  identifiers; their order is by characters, so "call-10" sorts before "call-2".
* **Media.** `Uplink`, `Resample`, `Pace`, `Vad` and `Agc` are classes over pure step functions,
  with theorems about every stream. `Bridge` is the bridge's select loop over a trace and uses
  `Pace` for what it does to the jitter buffer.
* **Session.** `Driver` is the driver's select loop over a trace of events, timers and send results.
* **Probe.** `NetCheck` is the preflight retry loop and the window that bounds it.

An entry of a trace is what the select loop woke up for; the order is arbitrary, so every choice
among ready arms is covered. An entry whose arm is off, or a timer before its deadline, is ignored.

## Where a natural claim is false

* *Every cancelled attempt was ended by somebody.* `requeue` queues the retry before the old
  attempt drops its cancel guard, and dropping a sender resolves its receiver. With two channels
  and a busy retry the old guard can drop the new attempt's sender. `SignalTheorems.GenuineIff`:
  the claim holds for exactly the configurations with one channel or without busy retries.
* *A call whose `end_call` was delivered is never queued again.* The ring wait does not look at the
  cancel receiver. `SignalTheorems.CancelSticksIff`: a delivered cancellation is never followed by a
  requeue for exactly the configurations without busy retries (or without channels). And wherever
  calls are dispatched at all, a signalled call can settle with the number's own outcome instead
  (`SignalTheorems.CancelOverruledIff`). Taking a call out of the queue always sticks
  (`SchedulerTheorems.QueueCancelIsFinal`).
* *The breaker opens after `threshold` failures.* Zero stands for "closed", so a zero cooldown at
  the zero instant never opens it. `Breaker.DecisionRefinesHistory` gives the exact condition.
* *The dispatcher never busy-spins.* With a free slot and a due entry that the breaker holds back,
  it parks for no time at all and starts over. `Spinning.SpinsIff`: that state is the only one from
  which it comes round by itself. `Spinning.NeverSpinsIff`: it is reachable for exactly the
  configurations with a channel, the preflight, a breaker threshold, and a cooldown or a probe
  window; `Spinning.HeldBackReached` is the run.
* *The preflight window bounds the retry phase.* The probe sends one ping even for zero samples,
  which the window does not count. `NetCheck.WindowBoundsIff`: it is a bound exactly when a sample
  is configured or pings have no budget, and nothing saturates. Connecting, sending the pings and
  the setup, and closing have no limit in the code; `NetCheck.MarginBoundsIff`: the bound stands
  exactly as long as these take no more than the five seconds per attempt that the window allows.
* *A finalized record stays.* The step that ends a call can evict that call's own record.
  `Store.SurvivesIffYoung` says which records stay; `SelfEviction.FinalizedStaysIff`: the one just
  written always does exactly with an unbounded history, and `SelfEviction.SelfEvictionReached` is
  the run in which it does not.
* *A packet's place is always recovered from 16 bits.* `Uplink.StepExactIff` says for which
  distances it is; `Uplink.BigJumpIsLost` is a stream of two packets for which it is not.
* *A faded barge-in by itself re-arms a full prefill.* So reads the comment in `src/bridge/pace.rs`,
  lines 68-73. `Pace.FadedTailHolds`: once the tail has run out the hold is the smaller refill, and
  the full prefill comes with the rising edge of the next turn. The bridge always brings that edge
  about, so there the comment's claim about the next turn holds: `Bridge.NewTurnPrefills`.

Where the code and its comments differ the model follows the code. Besides the above, the header of
`src/bridge/pace.rs` says a partial block is zero-padded, but the code keeps the remainder buffered
and plays silence; and a requeue raises the queue entry's `attempt` and leaves the record's unchanged.

## Model

| member | source | states |
|---|---|---|
| Queue.DoRefinesBag | src/queue.rs:47-84 | each operation changes the set of pending entries as an unordered bag would: push adds, pop takes an earliest eligible entry or nothing, remove takes the named one; the sorted form is kept |
| Queue.HistorySorted | src/queue.rs:36-84 | over every history of operations with distinct ids the queue is the one sorted arrangement of its entries |
| Queue.PositionIsPopOrder | src/queue.rs:52-84 | a call has position k exactly when the k-th pop at a late enough time hands it out |
| Queue.HeadIsFirst | src/queue.rs:36-62 | the head is due before every other entry, or at the same time with an identifier that is first in the order of a dictionary |
| Queue.MemQueue.Push | src/queue.rs:48-51 | the in-place insertion gives the sorted insertion |
| Queue.MemQueue.PopEligible | src/queue.rs:52-63 | the head leaves exactly when it is eligible |
| Queue.MemQueue.Remove | src/queue.rs:67-74 | the named entry leaves, the others keep their order |
| Queue.MemQueue.PositionOf | src/queue.rs:78-83 | the in-place scan returns the rank in dispatch order |
| Queue.MemQueue.PeekNextEligibleAt | src/queue.rs:64-66 | the earliest time at which an entry is due |
| CallIds.CallSeqOfCallId | src/state.rs:175-182 | the number of a fresh identifier reads back as the counter value it was made from |
| CallIds.StringLessTotal | src/queue.rs:38-40 | identifiers are totally ordered by their characters, so ties in the queue are decided |
| CallIds.StringLessIff | src/queue.rs:38-40 | one identifier comes before another if and only if they agree up to a place where the first one ends or has the smaller character |
| CallIds.TenBeforeTwo | src/queue.rs:38-40 | the concrete identifiers: "call-10" comes before "call-2" |
| Breaker.DecisionRefinesHistory | src/breaker.rs:48-96 | after any interleaving of reports and probe marks the decision is the one the history alone implies, if and only if the end of a tripped cooldown is not the zero instant |
| Breaker.ZeroCooldownNeverTrips | src/breaker.rs:48-66 | the concrete failing input: no cooldown and a failure at instant zero |
| Breaker.ReplayMeaning | src/breaker.rs:70-96 | every field of the breaker as a function of the history: failures since the last success, last report plus cooldown, last unanswered probe mark |
| Breaker.ProbeDecisionIsReady | src/breaker.rs:48-76 | a probe is admitted only a full window after every earlier probe without a report |
| Breaker.Breaker.DecisionAt | src/breaker.rs:48-66 | the mutable breaker decides what its history implies, or Dispatch in the failing family |
| Breaker.Breaker.OnResultAt | src/breaker.rs:78-96 | a report extends the history that the fields stand for |
| Breaker.Breaker.MarkProbeDispatched | src/breaker.rs:70-76 | a probe mark extends the history that the fields stand for |
| Store.EvictionUnique | src/state.rs:252-269 | with distinct ages there is one way to drop the oldest ended records, so eviction is determined whatever order the map is scanned in |
| Store.ResolvesAsDeserved | src/state.rs:56-101 | a call is filed under a disposition if and only if it meets that disposition's own condition, so under exactly one |
| Store.EvictionExists | src/state.rs:252-269 | whatever the records, the oldest ended ones can be dropped down to the cap, so a finalize is never stuck |
| Store.SurvivesIffYoung | src/state.rs:229-269 | an ended record survives exactly when fewer than `cap` ended records are younger |
| Store.CallStore.Finalize | src/state.rs:229-251 | the record gets its end, disposition, goal, error and time, and all its other fields and all other records stay as they were; then only the oldest ended records beyond the cap go, and in-flight records stay |
| Store.CallStore.EvictEndedOverCap | src/state.rs:252-269 | exactly the youngest `cap` ended records remain and every survivor is unchanged |
| Store.CallStore.SetState | src/state.rs:203-208 | only the named record's state changes |
| Ownership.OwnersStep | src/engine.rs:262-628 | each step changes the number of owners of a call only by creating or retiring it |
| RecordKeeping.KeptStep | src/engine.rs:262-736 | one owner per call, records that fit the owner's phase, and known identifiers survive every step |
| RecordKeeping.StoreStep | src/state.rs:199-269 | a step touches no in-flight record but that of the thread that moves, and no ended one except by eviction |
| Ledger.SlotsStep | src/engine.rs:562-596 | every step keeps `running` equal to the held slots and within the cap |
| Ledger.PlacedStep | src/engine.rs:286-322 | every step keeps `placed` equal to the enqueueings, wherever their calls are now |
| Ledger.Conservation | src/engine.rs:694-736 | placed = queued + unsettled + all outcomes + requeues + panics + operations midway |
| Wakeup.WakeStep | src/engine.rs:557-653 | every step, the dispatcher's own included, keeps a parked dispatcher covered by a permit, a pending notify or a timer |
| Probes.ProbesStep | src/engine.rs:598-603 | every step keeps the breaker equal to its history and probes a window apart |
| Attempts.AttemptsStep | src/engine.rs:306-324 | every step keeps attempt numbers equal to first attempt plus requeues, within the limit |
| Cancels.GenuineStep | src/engine.rs:660-677 | a step keeps every cancellation genuine if and only if it does not drop a guard whose call has another attempt's channel registered |
| Progress.MeasureStep | src/engine.rs:545-1009 | a measure of remaining attempts and phase falls on every lifecycle step of a call and changes on no other |
| Progress.AheadAtBirth | src/engine.rs:262-297 | a new call starts with 32 units per busy retry still allowed plus 30 |
| SchedulerTheorems.UniqueOwnership | src/engine.rs:262-736 | in every reachable state a call has at most one owner, and an owned call's record is present and fits its phase |
| SchedulerTheorems.Capacity | src/engine.rs:562-596 | in every reachable state `running` counts the held slots, panicked attempts included, and stays within the channels |
| SchedulerTheorems.PlacedIsConserved | src/engine.rs:679-736 | in every reachable state placed calls balance, and each outcome counter counts exactly the calls settled with it |
| SchedulerTheorems.ParkedIsSafe | src/engine.rs:557-653 | in every interleaving a parked, unannounced dispatcher has a timer no later than any instant at which an entry becomes dispatchable |
| SchedulerTheorems.ProbesKeepApart | src/engine.rs:598-603 | in every run two probes with no report between them are a window apart |
| SchedulerTheorems.HistoryBounded | src/state.rs:252-269 | in every reachable state at most `max_history` ended records are held, with distinct ages |
| SchedulerTheorems.EndedIsFinal | src/engine.rs:720-736 | a terminal record is never rewritten, only dropped |
| SchedulerTheorems.FinalizedOnce | src/engine.rs:720-736 | a call is finalized at most once and never dispatched afterwards |
| SchedulerTheorems.QueueCancelIsFinal | src/engine.rs:502-531 | a call that `end_call` took out of the queue is never dispatched, and ends as cancelled |
| SchedulerTheorems.BoundedRetries | src/engine.rs:306-324 | a call is dispatched at most max(1, busy_max_attempts) times, and a queued attempt number is the first one plus the dispatches so far |
| SchedulerTheorems.CancelsAreGenuine | src/engine.rs:660-677 | if guards drop before the call is taken again, an attempt is only cancelled by an `end_call` |
| SchedulerTheorems.LifecycleBound | src/engine.rs:545-1009 | after being placed, a call takes a bounded number of lifecycle steps in every run |
| SignalTheorems.GenuineIff | src/engine.rs:660-677 | every cancellation in every reachable state is genuine if and only if the configuration has at most one channel or no busy retries |
| SignalTheorems.OverlapReached | src/engine.rs:966-974 | the concrete run: one call that nobody ends has its second attempt cancelled |
| SignalTheorems.CancelSticksIff | src/engine.rs:786-808 | no delivered cancellation is followed by a requeue, in any reachable state, if and only if there are no busy retries or no channels |
| SignalTheorems.CancelOverruledIff | src/engine.rs:786-808 | every delivered cancellation settles as cancelled, in any reachable state, if and only if there are no channels |
| SignalTheorems.SignalLost | src/engine.rs:786-808 | the concrete run: a call cancelled while ringing turns out busy and is queued again |
| Cancels.ReachStep | src/engine.rs:494-531 | every step keeps each guarding attempt in reach: its channel is registered, taken by an `end_call`, or resolved |
| Liveness.NeverNeither | src/engine.rs:494-531 | in every reachable state an `end_call` catches a guarding attempt that nothing has cancelled yet, in the queue or by its own sender, never neither |
| Liveness.NeverStuck | src/engine.rs:262-1009 | in every reachable state with the queue lock free each unfinished thread has an enabled step, which for the owner of a call is a step of the call's life |
| Liveness.LockIsBrief | src/engine.rs:562-596 | the dispatcher gives the queue lock back within two of its own steps |
| Outcomes.FateFollows | src/engine.rs:814-1009 | an attempt's own steps decide its fate: requeued if and only if its ring ended busy with an attempt left, settled as `d` if and only if its steps end the call as `d`, panicked if and only if it panicked; once it unwinds it has one of these fates |
| Outcomes.DialsWhenCleared | src/engine.rs:843-911 | a number is dialled only by an attempt whose whole history is a preflight switched off, or one good report and its wake-up |
| Outcomes.UnhealthyFails | src/engine.rs:890-907 | after a bad health report an attempt never dials, is never requeued, never panics, and settles as nothing but failed |
| Endings.CancelledWasSignalled | src/engine.rs:848-888 | an attempt settles as cancelled only if its cancel receiver has resolved |
| Endings.FinalizedTells | src/engine.rs:720-736 | in every later state the record of a call that an attempt ended has the goal and error given, the time of the step, and the disposition that the attempt's own steps deserve, which is the one it is counted as; all else is as before |
| Endings.QueueCancelTells | src/engine.rs:502-525 | the same for a call taken out of the queue: cancelled, without goal or error |
| Placements.CallsCarry | src/engine.rs:262-324 | in every reachable state the call numbered n is the n-th one placed, and its queue entry, its attempts and its record carry the number, scenario, first attempt and reference it was placed with |
| Placements.PlacedAsAsked | src/engine.rs:262-297 | placing writes a fresh record dated now and queues the first attempt for the instant asked for |
| Placements.RetriedAfterInterval | src/engine.rs:306-324 | a busy call is queued again as it was placed, for the next attempt, one interval after the line turned out busy |
| Admission.TakenAsDecided | src/engine.rs:566-583 | a call is taken only on the breaker's last decision: a plain attempt on `Dispatch`, a probe on `Probe`, nothing while it holds |
| Admission.ProbesAreMarked | src/engine.rs:598-603 | an attempt let through as a probe is marked with the instant of the decision and the whole window before anything else happens to it |
| Admission.ParksUntil | src/engine.rs:629-653 | a parked dispatcher waits exactly for the sooner of the earliest due instant it just read and the hold it was last told, or without a limit if there is neither |
| Admission.BreakerIsTold | src/engine.rs:890-890 | in every reachable state the breaker stands where exactly the reports made and the probes marked so far put it, each at its own instant |
| Admission.ReportWakes | src/breaker.rs:78-96 | a report to an active breaker wakes the dispatcher before the reporting attempt goes on |
| Spinning.SpinsIff | src/engine.rs:557-653 | the dispatcher alone, with the clock standing still, returns to the state it started from if and only if a slot is free, an entry is due and the breaker holds; a full house, nothing due or a call to dispatch never lead back |
| Spinning.NeverSpinsIff | src/engine.rs:539-543 | no reachable state spins if and only if the configuration has no channel, no preflight, no breaker threshold, or neither cooldown nor probe window |
| Spinning.HeldBackReached | src/engine.rs:566-576 | the run: enough bad health reports, or a probe whose attempt panics, and then a call that is due |
| SelfEviction.FinalizedStaysIff | src/state.rs:229-269 | in every reachable state every finalize keeps the record it writes if and only if the history is unbounded |
| SelfEviction.SelfEvictionReached | src/state.rs:229-269 | the run: calls ended from the youngest to the oldest, one more than the history holds; ending the oldest drops its own record |
| NetCheck.BackoffDoubles | src/net_check.rs:67-70 | the first wait is the base, and the wait doubles up to the seventeenth attempt, short of saturation |
| NetCheck.WindowClamps | src/net_check.rs:77-90 | all the saturating steps on times act together as one clamp of the exact window, for every configuration |
| NetCheck.WindowFormula | src/net_check.rs:77-90 | the window in plain numbers while nothing saturates: the base times the sum of the doublings, and per attempt four round trips for each ping, the larger of that and two seconds for the acknowledgement, and five seconds |
| NetCheck.WindowCovers | src/engine.rs:843-890 | however the attempts go, the breaker report comes within the window, if the unlimited waits fit into its margins and it counts every ping |
| NetCheck.MarginBoundsIff | src/net_check.rs:96-149 | for given unlimited waits the window bounds every phase if and only if they add up to at most five seconds per attempt |
| NetCheck.WindowAttained | src/net_check.rs:77-90 | the bound is met with equality by the slowest phase |
| NetCheck.WindowBoundsIff | src/net_check.rs:77-149 | the window bounds every phase within limits and margins if and only if it does not saturate and a counted sample is configured or pings have no budget |
| NetCheck.PhaseEndsWhenUsable | src/engine.rs:843-890 | the phase ends with the first usable attempt or the last one, after all attempts so far and one wait between any two |
| NetCheck.RetryPhase | src/engine.rs:843-890 | the loop's elapsed time and verdict: usable exactly when some attempt was, and within the window |
| Uplink.StepExactIff | src/sip/uplink.rs:52-75 | one packet keeps the counters on the true stream if and only if its true distance lies on the matching side of half the number space |
| Uplink.BigJumpIsLost | src/sip/uplink.rs:47-51 | the concrete failing stream: after a jump of 40000 the counters stand still |
| Uplink.UnwrapExact | src/sip/uplink.rs:52-88 | within the window the counters measure the true span and count the late packets exactly |
| Uplink.NoUnderflow | src/sip/uplink.rs:77-88 | on every stream the span subtraction stays non-negative |
| Uplink.LossIsMissing | src/sip/uplink.rs:77-88 | loss never exceeds the missing indices, and equals them if and only if nothing is missing or no packet repeats or precedes the first |
| Uplink.UplinkStats.Observe | src/sip/uplink.rs:52-75 | the fields stand for the packets heard |
| Uplink.UplinkStats.Snapshot | src/sip/uplink.rs:77-88 | the published numbers are those of the packets heard |
| Resample.BlocksDoNotMatter | src/bridge/resample.rs:59-86 | however the input is cut into blocks, the joined outputs are the decimated convolution of the joined input |
| Resample.SplitIsWhole | src/bridge/resample.rs:68-86 | feeding A then B gives what feeding A followed by B gives |
| Resample.OutputIsNearest | src/bridge/resample.rs:74-81 | each output is the sample nearest to the convolution around every third input, ties away from zero, or the end of the range |
| Resample.ImpulseResponse | src/bridge/resample.rs:68-86 | a single sample comes out along the taps, the last one first, and is gone after them |
| Resample.Superposes | src/bridge/resample.rs:74-79 | before rounding, inputs that add up give outputs that add up |
| Resample.SteadyLevelPasses | src/bridge/resample.rs:26-54 | a steady level passes unit-gain taps unchanged once it fills the window; silence passes any taps |
| Resample.SilenceStaysSilent | src/bridge/resample.rs:59-86 | a fresh filter puts out silence for silence |
| Resample.Downsampler.Process | src/bridge/resample.rs:68-86 | the sliding window and phase produce the convolution of everything fed, at every third sample |
| Pace.Conservation | src/bridge/pace.rs:53-161 | between barge-ins, what was played followed by what is buffered is what was buffered followed by what was pushed |
| Pace.FadeDropsTheBulk | src/bridge/pace.rs:74-88 | a barge-in leaves at most the fade, no louder, its first sample untouched, and nothing else of the buffer is ever played |
| Pace.FadesLinearly | src/bridge/pace.rs:74-88 | a barge-in leaves exactly the head of the buffer as long as the fade, or all of it, sample i scaled to the share (n - i) / n with the fraction dropped; with nothing to fade it empties and re-arms |
| Pace.FirstFrameIsFilled | src/bridge/pace.rs:135-145 | after a re-arm, over every log, the first audible frame comes only once a tick found the whole target buffered or a barge-in faded what was buffered |
| Pace.ShortTurnStaysHeld | src/bridge/pace.rs:135-145 | a turn shorter than its prefill is never heard |
| Pace.RefillsExactly | src/bridge/pace.rs:94-161 | after running dry the resume amount, and after a new turn or a clear the prefill, is exactly what makes the next frame audible |
| Pace.FadedTailHolds | src/bridge/pace.rs:68-88 | after a faded tail has run out, audio of the same turn is heard exactly from the resume amount on, and after a rising edge exactly from the full prefill on |
| Pace.Drains | src/bridge/pace.rs:146-151 | once released, n ticks play exactly the first n blocks in order and move no counter |
| Pace.CountersAreExact | src/bridge/pace.rs:135-161 | `starved_ms` is 20 per silent frame while expecting, `underruns` counts the turns broken off, and 20 times it never exceeds `starved_ms` |
| Pace.Downlink.NextFrame | src/bridge/pace.rs:135-167 | 160 samples per frame, all frames since the last reset are the decimation of everything fed, and silence after silence is silent |
| Pace.Downlink.InterruptFade | src/bridge/pace.rs:74-88 | the in-place fade, its length and every sample in whole numbers; with nothing to fade it resets the filter |
| Pace.Downlink.SetExpecting | src/bridge/pace.rs:94-100 | only a rising edge re-arms the prefill |
| Bridge.ArmedOnce | src/bridge/mod.rs:304-345 | the deadline is the first sign of the phone's absence plus the grace, and never moves |
| Bridge.EndsExactly | src/bridge/mod.rs:304-457 | `PhoneClosed` at once without a grace and, with one, at the deadline only; the other ends exactly on their own causes |
| Bridge.SilentOnceGone | src/bridge/mod.rs:345-457 | once the phone is gone no frame is sent and no model audio is buffered |
| Bridge.FramePerTick | src/bridge/mod.rs:398-434 | each tick while the phone is there advances the pacer once and sends that frame right after; no other entry does, and none once the phone is gone |
| Bridge.FadePerInterruption | src/bridge/mod.rs:368-380 | each interruption fades the buffer once, over 25 ms, before and after the phone goes; nothing else cuts it |
| Bridge.ReleasedIsHeard | src/bridge/mod.rs:346-434 | once released, the buffered audio is played to the phone from its head, a block per tick, as long as nobody interrupts and no turn opens |
| Bridge.EventsForwarded | src/bridge/mod.rs:345-396 | every event but audio and interruptions reaches the engine in order, before and after the phone goes |
| Bridge.AudioBuffered | src/bridge/mod.rs:346-367 | the jitter buffer is given exactly the unmuted audio that came while the phone was there |
| Bridge.AudioConserved | src/bridge/mod.rs:304-457 | without interruptions, played audio followed by buffered audio is exactly that audio |
| Bridge.ExpectsOpenTurn | src/bridge/mod.rs:346-388 | the jitter buffer expects audio exactly while the model has spoken since the last interruption or completed turn |
| Bridge.NewTurnPrefills | src/bridge/mod.rs:346-388 | after an interruption or a completed turn, new audio is heard only once a whole prefill is buffered |
| Bridge.RunBridge | src/bridge/mod.rs:304-457 | the loop stops exactly where its trace ends the bridge, having put out what the trace implies |
| Driver.DeferredEnd | src/gemini_live.rs:302-460 | the driver ends with a goal if and only if an `end_call` was made and then its turn completed or ten seconds passed; the goal is the first call's, and every other end drops it |
| Driver.EndsExactly | src/gemini_live.rs:274-490 | without a goal the driver ends if and only if it is hung up, the callee's audio ends, the session closes, or a frame, a due greet cue or a due resume cue cannot be sent, each with its own cause |
| Driver.EventsForwarded | src/gemini_live.rs:364-460 | the bridge gets every session event in order, an interruption per reconnect, and a closing `EndCall` if the model ended the call |
| Driver.EndCallOnceAndLast | src/gemini_live.rs:302-445 | an `EndCall` event is the last one and carries the goal of the outcome |
| Driver.UplinkTransparent | src/gemini_live.rs:309-363 | every uplink frame reaches the model unchanged and in order, every `end_call` is acknowledged |
| Driver.GreetsExactly | src/gemini_live.rs:275-301 | the greet cue goes out if and only if its timer finds the call answered long enough ago, nobody heard, no reconnect, no `end_call` and no earlier cue |
| Driver.GreetsAtMostOnce | src/gemini_live.rs:289-301 | no run has two greet cues |
| Driver.ResumesExactly | src/gemini_live.rs:369-404 | the resume cue goes out if and only if a reconnect did not resume while the callee had spoken since the last completed turn, and then right after the interruption |
| Driver.CuesDelivered | src/gemini_live.rs:473-484 | the session gets the engine's cues unchanged and in order until their channel closes |
| Driver.TranscriptComplete | src/gemini_live.rs:72-111 | the transcript holds every visible character of each speaker's deltas in order, also of a turn cut short |
| Driver.LinesTidy | src/gemini_live.rs:89-110 | no line is blank or has white space around it |
| Driver.LinesByTurn | src/gemini_live.rs:89-110 | lines come into being at the completion of a turn only: the callee's line and then the model's, what each said in this turn, trimmed at the ends and whole inside, dated from the start of the call |
| Driver.TurnFlushes | src/gemini_live.rs:487-494 | the flush at the end does the same for a turn cut short |
| Driver.RunDriver | src/gemini_live.rs:274-504 | the loop stops exactly where its trace ends the driver, with the outcome, outputs and flushed transcript the trace implies |
| Vad.BackgroundNeverFiresIff | src/vad.rs:65-114 | no stream of levels between lo and hi ever fires if and only if hi is below the threshold trained by lo |
| Vad.FiresAtMostOnce | src/vad.rs:65-94 | no stream has two onsets |
| Vad.OnsetIsStreak | src/vad.rs:100-114 | an onset ends exactly max(1, onset_frames) frames in a row at or above one frozen threshold, the seed frame not among them |
| Vad.StreakCounts | src/vad.rs:100-114 | from a trained floor, enough frames above the threshold always fire |
| Vad.FloorFollows | src/vad.rs:100-114 | a steady background leaves 0.9^n of its distance to the trained floor after n frames, and none of them counts towards an onset |
| Vad.LastLevelIsFresh | src/vad.rs:65-76 | the level that is read out is the newest frame's, also after the onset |
| Vad.Vad.Observe | src/vad.rs:65-114 | true exactly on the frame that confirms the onset; empty frames change nothing |
| Agc.GainBounded | src/bridge/agc.rs:34-57 | on every stream the gain stays positive and at most max(1, max_gain) |
| Agc.DesiredReaches | src/bridge/agc.rs:45-45 | the desired gain carries a level exactly to the target, or is the ceiling and falls short of it |
| Agc.Contraction | src/bridge/agc.rs:44-51 | on a steady signal the distance to the desired gain is exactly 0.95^n or 0.7^n of what it was, by the side it started on |
| Agc.NoOvershoot | src/bridge/agc.rs:44-51 | a steady signal never carries the gain past the desired one |
| Agc.LeftIsGeometric | src/bridge/agc.rs:44-51 | that remainder is a geometric share, strictly smaller after every frame |
| Agc.SilenceHolds | src/bridge/agc.rs:42-51 | frames below the noise floor leave the gain alone, however many |
| Agc.AmplifyKeepsOrder | src/bridge/agc.rs:53-60 | amplifying, rounding and clamping keep the order of samples, and silence stays silence |
| Agc.AmplifyIsNearest | src/bridge/agc.rs:53-60 | every sample becomes the one nearest to its multiple by the gain, or the end of the range; a gain within a thousandth of one leaves it alone |
| Agc.Agc.Process | src/bridge/agc.rs:34-61 | the frame is amplified in place by the gain adapted to it |

## Left out

- The scheduler as an object: its threads interleave at lock and atomic operations, so it is a state machine on values; aliasing and update in place of the shared maps are shown only for the queue, the breaker and the store.
- Memory ordering: every atomic operation is sequentially consistent, and the wall clock never goes back.
- Panics are possible in the preflight, the dial, the ring wait, after the answer and in the live call; not inside a lock region.
- Widths: the counters and 2^64 placed calls do not overflow; saturating and wrapping arithmetic is modelled where the code uses it.
- The live part of `run_call` (quality aborts, wrap-up watchdog, call timer) is one step with any outcome and shape.
- `Engine::new`, shutdown, metrics, suggested poll intervals and persisted call files.
- Record fields that only carry data: affect, quality and transcript contents.
- SIP signalling, RTP sockets and the Gemini session: their events are arbitrary inputs; calls into them return arbitrary results.
- Voice codec and upsampling: length-preserving maps that finite tables settle.
- Floating-point rounding: real numbers throughout; taps, square roots and decibel conversions are parameters.
- Bridge timing diagnostics, the recent-audio flag, dumps and the uplink task's own loop.
- `summarize` and `verdict` of the probe: which health figures pass is one comparison each.
- The driver's answering-machine profile: it only logs. The stale uplink frames dropped on a reconnect do not appear in a trace.
- A clock read is one step with the lock region after it: the dispatcher reads the time just before it asks the breaker, and an attempt just before it reports to it.
- NetCheck.WindowCovers: the waits that the code does not limit (connecting, sending, closing) must fit into the window's margins, because without a limit no window bounds them; NetCheck.MarginBoundsIff makes that exact.
