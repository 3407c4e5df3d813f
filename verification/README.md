# Verification of the stabsight core

Stabsight runs network probes as goroutines. FR4 of its requirements says that a
Speedtest must suspend all other probes while it runs and bring them back
afterwards. The scheduler does this with a pause / ack / resume protocol over two
channels of capacity 1 per worker. This project models that protocol as a machine
whose steps are the atomic actions of the goroutines, proves what it guarantees
over whole runs, and where the code guarantees less than its comments say, proves
exactly when it does. It also models the traceroute and the diagnosis built on it,
the recognition of quoted ICMP headers, the jitter bookkeeping of the ICMP probe,
and the registration of probes.

## How it is organised

- `Session.dfy`: the machine. A `Label` names a step, `Enabled` and `Apply` say
  when it can happen and what it does. A run is a sequence of labels, each enabled
  in turn; Go's `select` and its scheduler are the choice among enabled labels. The
  number of workers and of callers is unbounded. `mu` is never held across a
  blocking operation, so each of its critical sections is one step.
- `Safety.dfy`: what every step keeps and Start and registration keep too (`Base`),
  what holds within one session (`Wf`) and on all its runs (`Sane`), the invariant of
  runs without part-way cuts (`Inv`), FR4, refinement of a readers-writer machine.
- `Recovery.dfy`, `AbortedPauses.dfy`: what an aborted `PauseAll` leaves behind.
- `Progress.dfy`, `Pace.dfy`: measures for a call of `ExecuteExclusive`, and runs that
  bring it to `fn` and to its end.
- `Resumption.dfy`: what happens when `fn` has ended.
- `AbortFree.dfy`, `Conservation.dfy`: channel contents and message histories.
- `Deadline.dfy`: the deadline of the deferred `ResumeAll`, exactly.
- `Restart.dfy`, `Inherited.dfy`: what a session inherits from the one before, in its
  channels and in calls of `ExecuteExclusive` that `Stop` did not wait for, and
  exactly when that breaks FR4.
- `OwnUse.dfy`: the protocol with Speedtest workers as the only callers.
- `Causes.dfy`: which step must have come before which, counting steps only.
- `Drain.dfy`: shutdown.
- `Witnesses.dfy`: runs from a clean start to the failing inputs of those results.
- `Goroutine.dfy`: one goroutine among the others, as a function of the state and of
  the choices Go leaves open (`Play`); plays are runs and runs are plays.
- `Registration.dfy`, `Scheduler.dfy`: the `Scheduler` object and the worker loops in
  imperative form. What other goroutines do before each step is an argument; a method
  ends when its code does or when these turns have run out, and its contract says
  that the object and the turns left are those of the play.
- `RunApp.dfy`: the registration loop of the program, and its use of the diagnosis.
- `QuotedHeader.dfy`, `Mtr.dfy`, `Diagnostic.dfy`: traceroute and diagnosis.
- `IcmpProbe.dfy`: jitter and check history.

## What the code does not do

Three statements one would expect are false of the code. Each is replaced by the
exact condition.

- The comment in `ExecuteExclusive` (scheduler.go:216) announces a resume after a
  partial pause failure. `paused` is still false there, so nothing is sent
  (`AbortedPauses.FailedPauseResumesNobody`). A later exclusive call can reach `fn`
  if and only if no call gave up after collecting an ack
  (`AbortedPauses.ExactRecovery`); a worker whose ack such a call had collected
  stays paused as long as the session lives (`AbortedPauses.StrandedUntilCancelled`).
  In a live session this takes an outside caller with a context of its own: Speedtest
  workers pass the run context and never give up before it is done
  (`OwnUse.LiveNeverAborts`).
- When the 5s deadline of the deferred `ResumeAll` fires part-way, `paused` stays
  true and the next `PauseAll` returns at once. FR4 survives the first such deadline if
  and only if `paused` is no longer set (after a Stop), or every worker that has been sent
  its CmdResume has exited (`Deadline.DeadlineHarmlessExactly`); in a live session
  that means: before the first send (`Deadline.LiveDeadlineHarmlessExactlyAtStart`).
  Without aborted pauses no such send ever has to wait (`AbortFree.ResumeNeverBlocks`).
- `Stop` waits for the worker goroutines only, and `Start` looks at nothing but
  `running` and reuses the channels made at registration. A session in which somebody
  can call `ExecuteExclusive`, be it a Speedtest worker or an outside caller, keeps FR4
  on all its runs without such a part-way cut if and only if it inherits neither a
  queued ack nor an outside call of `ExecuteExclusive` that stands in `fn`, in a
  `PauseAll` that counts acks of the old session or misses a new worker and can be
  completed by the CmdPause left queued, or in a `ResumeAll` that has yet to pass a
  queued CmdPause (`Inherited.SafeExactlyAfterStart`). Calls anywhere else, and queued commands by
  themselves, do no harm. Where Speedtest workers are the only callers the condition is
  that no ack is queued (`Inherited.OwnSessionSafeExactly`).

For each condition, and each of the harmful places, a failing input is reached from a
clean start (`Witnesses.dfy`). In what follows a part-way cut is the step by which the
deadline ends a `ResumeAll` that has sent some but not all of its CmdResume, `paused`
being set; a run is live if it neither cancels the run context nor stops. Unless a row
says otherwise, sessions start without queued acks and without an inherited call.

## Model

| member | source | states |
|---|---|---|
| Session.LightsExact | internal/scheduler/scheduler.go:140-145 | nonExclusiveHandles lists exactly the non-exclusive workers, each once, in registration order |
| Safety.StepKeepsWf | internal/scheduler/scheduler.go:129-246 | every step keeps, in any session: one holder of exclusiveMu, loops inside the handles they have listed, channels within capacity; within a session also: flags consistent with the holder's phase, handles complete |
| Safety.LightStepKeeps | internal/probes/icmp.go:96-136 | a worker's own steps never make a queued ack untrue and never leave the stopped state without a CmdResume |
| Safety.StepKeepsInv | internal/scheduler/scheduler.go:129-229 | every step except a part-way cut of ResumeAll keeps the protocol invariant |
| Safety.StepKeepsSane | internal/scheduler/scheduler.go:129-229 | every step, part-way cuts included, keeps: acks tell the truth, collected workers are held, and while a pause is taken for completed no worker has an ack queued or is about to send one |
| Safety.FnRunsAlone | internal/scheduler/scheduler.go:211-229 | while fn runs each light worker has had its ack collected, and is in its pause loop with no CmdResume queued, or has exited |
| Safety.NoOverlap | internal/scheduler/scheduler.go:211-229 | FR4: on every run without a part-way cut, from a session without stale acks, no check overlaps fn, whatever is aborted, cancelled or stopped |
| Safety.AcksNeverLie | internal/probes/icmp.go:103-125 | on every run of a session without stale acks, part-way cuts included: a queued ack means its worker is in the pause loop or has exited with no CmdResume queued; an ack send always finds room |
| Safety.OneExclusiveTask | internal/scheduler/scheduler.go:211-213 | at most one caller is past exclusiveMu, and no caller waits for its own worker |
| Safety.StepRefines | internal/scheduler/scheduler.go:148-168 | each protocol step except a part-way cut is a step of the readers-writer machine, or none |
| Safety.RunRefines | internal/scheduler/scheduler.go:129-229 | every run without a part-way cut maps, step by step, to a readers-writer run (checks read, fn writes) |
| Recovery.StepKeepsLostOk | internal/scheduler/scheduler.go:157-164 | in a live session the stranded workers are exactly those whose ack an aborted call had collected |
| AbortedPauses.LostExactlyByAborts | internal/scheduler/scheduler.go:157-164 | workers are lost exactly by a PauseAll that gives up after collecting an ack |
| AbortedPauses.FailedPauseResumesNobody | internal/scheduler/scheduler.go:215-219 | the ResumeAll of the failure path sends nothing, in every run |
| AbortedPauses.StrandedUntilCancelled | internal/probes/icmp.go:111-125 | after any live run, a worker whose collected ack was thrown away stays in its pause loop on every live continuation, part-way cuts included |
| AbortedPauses.ExactRecovery | internal/scheduler/scheduler.go:180-183 | after any live run, part-way cuts included, a call waiting for exclusiveMu, whoever holds it, can reach fn if and only if no PauseAll aborted after collecting an ack |
| Progress.StepRemaining | internal/scheduler/scheduler.go:148-204 | every step serving a call lowers its measure; a new check adds one; nothing else changes it |
| Progress.CallIsLinear | internal/scheduler/scheduler.go:211-229 | in every run, one call and all that the workers do meanwhile takes a number of steps linear in the workers plus the checks started meanwhile |
| Pace.StepSpends | internal/scheduler/scheduler.go:148-204 | with commands served before ticks, every step of the call or of a worker it has commanded uses up its budget, and no other step adds to it |
| Pace.CallIsLinearWhenServedFirst | internal/scheduler/scheduler.go:211-229 | in every run in which commands are served before ticks, a call takes at most 8n + 7 steps of its own and of the workers it has commanded, n being the light workers |
| Progress.CallNeverStuck | internal/scheduler/scheduler.go:148-164 | no deadlock, after any live run, part-way cuts included: with nobody lost, a call always has an enabled step that gives nothing up and lowers the measure |
| Progress.ReachFn | internal/scheduler/scheduler.go:148-170 | from any point of a pause, a bounded run of such steps leads into fn |
| Progress.FinishCall | internal/scheduler/scheduler.go:193-206 | from fn on, a bounded run of such steps leads to the unlock with paused false |
| Progress.ReachCommit | internal/scheduler/scheduler.go:148-164 | the loops of a PauseAll, inherited ones included, are completed by a bounded run that leaves the workers they do not wait for as they are |
| Resumption.EveryOutcomeResumes | internal/scheduler/scheduler.go:221-228 | success, error or panic of fn, in a live run without a part-way cut, no deadline firing after fn: paused is false again and each light worker has been sent exactly one CmdResume, taken or queued |
| Resumption.ReleasedSelects | internal/probes/icmp.go:117-120 | such a worker is back in its select loop after at most one step of its own, pending tick or not |
| Resumption.CallCompletes | internal/scheduler/scheduler.go:211-229 | after any live run, part-way cuts included: any call on course with nobody lost can be completed without giving up |
| AbortFree.ResumeNeverBlocks | internal/scheduler/scheduler.go:193-204 | on every run without aborts and part-way cuts, all channels are empty during fn, every resume send is enabled at once, and commands alternate Pause, Resume |
| OwnUse.LiveNeverAborts | internal/probes/speedtest.go:114-134 | with Speedtest workers as the only callers a live run contains no abort and loses nobody |
| OwnUse.EverySpeedtestCanRun | internal/probes/speedtest.go:114-134 | then after any live run a Speedtest that waits can reach fn |
| OwnUse.EverySpeedtestCanEnd | internal/probes/speedtest.go:114-134 | and whoever holds exclusiveMu can be brought to release it without giving up |
| OwnUse.ResumesNeverWait | internal/scheduler/scheduler.go:193-200 | and from a clean start, without part-way cuts, no resume send has to wait |
| Causes.ChecksNeedTicks | internal/probes/icmp.go:133-134 | on every run of any session a worker, light or exclusive, starts at most as many periodic checks as its ticker has ticked |
| Causes.TickBetweenChecks | internal/probes/icmp.go:133-134 | on every run there is a tick of its own between any two periodic checks of a worker |
| Causes.TickIsKept | internal/probes/icmp.go:96-134 | a tick is not forgotten: until it is used a check can be started whenever the worker is in its select loop |
| Causes.GiveUpNeedsCancel | internal/scheduler/scheduler.go:150-163 | a call of an outside caller gives up only if its own context has been cancelled since the call began |
| Causes.CancelIsHeard | internal/scheduler/scheduler.go:150-163 | and once that is cancelled it can give up at any handle of a pause |
| Causes.StopEndsWorker | internal/probes/icmp.go:121-128 | a worker that takes a CmdStop, in either loop, takes no further step |
| Causes.ExclusiveIgnoresCommands | internal/probes/speedtest.go:102-105 | an exclusive worker stays in its loop on any other command and acknowledges nothing |
| Causes.FlagsExact | internal/scheduler/scheduler.go:166-168 | after every run: running until a Stop; paused as the last completed pause, completed resume or Stop left it; the lock as the last lock or unlock did |
| Conservation.MessagesConserved | internal/scheduler/scheduler.go:148-164 | on every run: sent = received then queued; acks sent = collected + queued; pauses taken are acknowledged once; exclusive workers are sent nothing |
| Deadline.DeadlineHarmlessExactly | internal/scheduler/scheduler.go:194-204 | after any run without an earlier part-way cut, live, cancelled or stopped: the resume deadline is harmless if and only if paused is not set any more or all workers already sent their CmdResume have exited |
| Deadline.LiveDeadlineHarmlessExactlyAtStart | internal/scheduler/scheduler.go:194-204 | after any live run that condition means: before the first CmdResume |
| Deadline.StalePauseEntersFn | internal/scheduler/scheduler.go:135-138 | with paused left true, the next call enters fn beside a running check |
| Restart.StaleAckSurvives | internal/scheduler/scheduler.go:55-59 | a stale ack can outlive a whole exclusive call |
| Restart.StaleAckOverlaps | internal/scheduler/scheduler.go:157-164 | from any place between two calls, a worker with a stale ack can be brought to measure beside fn, by an outside caller or by an exclusive worker |
| Inherited.SafeExactlyAfterStart | internal/scheduler/scheduler.go:101-125 | a session, whoever its callers are and wherever those of the session before stand, keeps FR4 on all runs without a part-way cut if and only if nobody can call ExecuteExclusive, or it inherits no queued ack and no call at a harmful place |
| Inherited.OwnSessionSafeExactly | internal/probes/speedtest.go:114-134 | with Speedtest workers as the only callers: if and only if no light worker inherits a queued ack |
| Inherited.StepFromHarmless | internal/scheduler/scheduler.go:158-204 | an inherited call at a harmless place stays harmless at every step until the session's invariant holds |
| Inherited.InheritedPauseOverlaps | internal/scheduler/scheduler.go:157-168 | a PauseAll that collected acks before the Stop, or listed its handles before a registration, enters fn beside a check |
| Inherited.InheritedResumeOverlaps | internal/scheduler/scheduler.go:193-200 | a ResumeAll that passes a queued CmdPause in the new session makes an ack stale |
| Drain.RunLeft | internal/scheduler/scheduler.go:231-246 | on every run the steps taken are paid for by a measure of the start state and by the checks and calls begun since |
| Drain.DrainStepWorks | internal/scheduler/scheduler.go:150-163 | once cancelled, an exit-bound step of every unfinished worker is enabled |
| Drain.StopDrains | internal/scheduler/scheduler.go:231-246 | from any cancelled state a bounded run takes every worker goroutine to its exit |
| Drain.SessionDrains | internal/probes/speedtest.go:97-110 | with exclusive probes as the only callers, every session can drain after any run, within an explicit bound |
| Drain.RestIsDrained | internal/scheduler/scheduler.go:231-246 | every run, not just some: once the run context and that of the lock's holder are done, it comes to rest only when every worker goroutine has exited |
| Drain.OutsideCallerCanBlockStop | internal/scheduler/scheduler.go:158-163 | an outside caller with a live context that waits for the ack of an exited worker keeps wg.Wait from returning |
| Witnesses.AbortWithAcksReachable | internal/scheduler/scheduler.go:157-164 | a live run from a clean start after which a PauseAll has aborted with an ack collected and a caller waits |
| Witnesses.PartialCutReachable | internal/scheduler/scheduler.go:194-200 | a live run from a clean start after which the resume deadline does harm |
| Witnesses.StaleAckReachable | internal/scheduler/scheduler.go:232-246 | a run, a Stop that returns and a Start that inherits a queued ack |
| Witnesses.InheritedFnReachable | internal/scheduler/scheduler.go:232-246 | a run, a Stop that returns and a Start beside a running fn, with every channel empty |
| Witnesses.InheritedCollectingReachable | internal/scheduler/scheduler.go:157-164 | the same with a PauseAll that has collected an ack of the old session |
| Witnesses.InheritedResumingReachable | internal/scheduler/scheduler.go:193-200 | the same with a ResumeAll that has a queued CmdPause ahead of it |
| Witnesses.InheritedBroadcastReachable | internal/scheduler/scheduler.go:140-154 | the same with a PauseAll that misses a worker registered after the Stop |
| Witnesses.OwnStaleAckReachable | internal/scheduler/scheduler.go:232-246 | with a Speedtest worker as the only caller: a run, a Stop that returns and a Start that inherits a queued ack |
| Witnesses.WedgedReachable | internal/scheduler/scheduler.go:157-164 | a run from a clean start after which Stop does not return |
| Goroutine.NextIsComplete | internal/probes/icmp.go:96-136 | whatever step of its own a goroutine can take in the machine, some outcome of the choices makes the code take it |
| Goroutine.PlaysAreRuns | internal/scheduler/scheduler.go:129-229 | every play of a goroutine, whatever the turns, is a run of the machine |
| Goroutine.RunsArePlays | internal/scheduler/scheduler.go:129-229 | every run of the machine, up to a goroutine's last step in it, is exactly its play for some turns |
| Goroutine.WaitsAreRuns | internal/scheduler/scheduler.go:245 | what happens while Stop waits is a run of the machine |
| Goroutine.RunsAreWaits | internal/scheduler/scheduler.go:245 | and any run can happen while it waits |
| Goroutine.PlayPart | internal/scheduler/scheduler.go:211-229 | to play a routine is to play a part of it first |
| Registration.Registered | internal/scheduler/scheduler.go:37-62 | a registration leaves every caller where it is, inside ExecuteExclusive too, and no listed handles change |
| Registration.WithWorkersExact | internal/scheduler/scheduler.go:55-59 | several registrations leave earlier workers, their channels and all callers as they are and give the new workers empty channels |
| Registration.Started | internal/scheduler/scheduler.go:101-125 | what Start makes of any stopped scheduler whose workers have exited |
| SchedulerObject.Scheduler.constructor | internal/scheduler/scheduler.go:29-33 | nothing registered, not running |
| SchedulerObject.Scheduler.RegisterWorker | internal/scheduler/scheduler.go:37-62 | nil, running, duplicate, in this order of precedence; appended with fresh channels or nothing changed; names stay distinct |
| SchedulerObject.Scheduler.RegisterWorkers | internal/scheduler/scheduler.go:65-72 | registers exactly the prefix before the first rejection, one after the other, and reports that rejection; nothing on a running scheduler |
| SchedulerObject.Scheduler.Start | internal/scheduler/scheduler.go:101-125 | refused while running; otherwise a session starts with the channels and the callers as they were |
| SchedulerObject.Scheduler.NonExclusiveHandles | internal/scheduler/scheduler.go:140-145 | the loop computes nonExclusiveHandles |
| SchedulerObject.Scheduler.SelectSend | internal/scheduler/scheduler.go:150-154 | the send, the error or neither, exactly as cmdChan and ctx are ready; the step is the goroutine's next |
| SchedulerObject.Scheduler.SelectAck | internal/scheduler/scheduler.go:159-163 | the receive, the error or neither, exactly as ackChan and ctx are ready; the step is the goroutine's next |
| SchedulerObject.Scheduler.PauseAll | internal/scheduler/scheduler.go:129-171 | plays PauseAll turn by turn to its end: fn, or the error it reports; waiting only with the turns used up |
| SchedulerObject.CompletedPauseHoldsAll | internal/scheduler/scheduler.go:157-170 | for any turns: when PauseAll has ended in fn every light worker is stopped and acknowledged |
| SchedulerObject.Scheduler.SelectResume | internal/scheduler/scheduler.go:194-199 | the send, the deadline or neither, exactly as they are ready |
| SchedulerObject.Scheduler.ResumeAll | internal/scheduler/scheduler.go:174-207 | plays ResumeAll to the unlock; waiting only with the turns used up; on the failure path its first step is its last and it sends nothing |
| SchedulerObject.Scheduler.ExecuteExclusive | internal/scheduler/scheduler.go:211-229 | plays the whole call; fn has run exactly if the pause succeeded; unless the turns are used up the lock is released |
| SchedulerObject.Scheduler.Stop | internal/scheduler/scheduler.go:232-246 | no effect when not running; otherwise cancels, then waits: it has returned exactly if every worker has exited |
| SchedulerObject.Scheduler.TakeCommand | internal/probes/icmp.go:101-130 | the command switch of the main loop is the machine's receive |
| SchedulerObject.Scheduler.TakeResumeCommand | internal/probes/icmp.go:117-124 | the command switch of the pause loop is the machine's receive: a CmdPause is swallowed |
| SchedulerObject.Scheduler.PauseLoop | internal/probes/icmp.go:111-125 | plays the pause loop until it is left for the select loop or the exit |
| SchedulerObject.Scheduler.WorkerPass | internal/probes/icmp.go:96-136 | plays one pass of the select loop with its nested loops |
| SchedulerObject.Scheduler.WorkerStart | internal/probes/icmp.go:89-137 | plays the whole light worker loop; it has returned exactly if the worker has exited |
| SchedulerObject.Scheduler.Trigger | internal/probes/speedtest.go:114-134 | one measurement of an exclusive probe is one call of ExecuteExclusive, played to its end |
| SchedulerObject.Scheduler.SpeedtestStart | internal/probes/speedtest.go:90-111 | plays the whole exclusive worker loop; it has returned exactly if the worker has exited |
| RunApp.ProbeNamesInjective | internal/probes/icmp.go:63 | label + "/" + type determines label and type, whatever slashes the label contains |
| RunApp.FirstOccurrencesExact | internal/scheduler/scheduler.go:49-53 | the dedup keeps the elements, each once, by first occurrence |
| RunApp.RegisterTargets | internal/cli/run.go:112-158 | every section of every target is served by a probe named label/type, exclusive exactly for Speedtest; nothing else is registered; names are distinct and in the order of the configuration (the first-occurrence dedup) |
| RunApp.OnResult | internal/cli/run.go:140-146 | the analyses RunApp makes of its traces all come out normal |
| QuotedHeader.QuoteLayout | internal/probes/mtr.go:448-468 | where a quoted echo request has its type, identifier and sequence number, byte by byte in network order |
| QuotedHeader.MatchUndoesQuote | internal/probes/mtr.go:432-469 | for every header length, options and trailing bytes, a quoted echo request is matched by its seq and its id (or id zero), and by nothing else |
| QuotedHeader.MatchedIsQuote | internal/probes/mtr.go:432-469 | for every byte string, what matches is a quoted echo request at the announced offset |
| QuotedHeader.MatchDependsOnPrefix | internal/probes/mtr.go:441-460 | the answer depends on the header and eight further bytes only; with less there is no match |
| Mtr.PingHop | internal/probes/mtr.go:378-427 | the receive loop returns what the first matching packet says |
| Mtr.FirstReplyExact | internal/probes/mtr.go:402-426 | the least matching position decides; silent exactly if none matches |
| Mtr.NoiseIrrelevant | internal/probes/mtr.go:392-395 | inserting or deleting packets that do not match changes nothing |
| Mtr.Trace | internal/probes/mtr.go:244-289 | error-free: all hops, target reached or not; cancelled: a prefix of the same hops, exactly when the context is found done at a TTL the trace gets to |
| Mtr.HopsArePath | internal/probes/mtr.go:251-287 | packet by packet: hop i carries the sender and RTT of the first packet that counts for TTL i + 1, or "*"; only an echo reply of the target ends the trace early |
| Mtr.TraceShape | internal/probes/mtr.go:251-287 | hops numbered from 1; as many as the least TTL reaching the target, else maxHops; only the last can be the target |
| Mtr.SamplesExact | internal/probes/mtr.go:213-225 | an RTT and a loss of 0 for each hop that answered, a loss of 1 for each silent one, nothing else |
| Mtr.MTRProbe.ExecuteTrace | internal/probes/mtr.go:171-231 | a cancelled trace changes nothing; otherwise last result, samples and report are those of the trace |
| Diagnostic.NothingMeasuredIsNormal | internal/diagnostic/analyzer.go:44-73 | whatever thresholds an engine was made with, an analysis without loss and latency is normal and blames nobody |
| Diagnostic.Engine.FindFaulty | internal/diagnostic/analyzer.go:81-99 | the loop finds the first faulty hop and classifies it by its number |
| Diagnostic.Engine.Analyze | internal/diagnostic/analyzer.go:60-139 | normal exactly without anomaly; otherwise the report explains the traceroute, or its absence |
| Diagnostic.BlamedHopExact | internal/diagnostic/analyzer.go:75-111 | for a traced path: FaultyHop is the least TTL without a prompt answer, and 0 exactly if there is none |
| Diagnostic.DiagnosisExact | internal/diagnostic/analyzer.go:86-104 | for a traced path: local, ISP, transit by TTL 1, 2-3, 4 and above; unreachable exactly when all maxHops answered in time and none was the target |
| IcmpProbe.JitterCalculator.Compute | internal/probes/jitter.go:23-36 | the absolute difference to the previous RTT, if there is one |
| IcmpProbe.ICMPProbe.ExecuteCheck | internal/probes/icmp.go:140-190 | one more check is accounted for: loss, RTT and jitter records stay those of the whole history |
| IcmpProbe.SuccessesExact | internal/probes/icmp.go:145-161 | the RTT records are the successful checks, each once and in order |
| IcmpProbe.RecordCounts | internal/probes/icmp.go:140-190 | one loss record per check, one RTT record per success, one jitter record per success but the first |
| IcmpProbe.LossRecordsExact | internal/probes/icmp.go:145-189 | the loss record of each check is 1 if it failed and 0 if not, in order |
| IcmpProbe.JitterRecordsExact | internal/probes/jitter.go:34-36 | each jitter record is the distance between neighbouring recorded RTTs, rising or falling |
| IcmpProbe.TotalJitterBoundsSpread | internal/probes/jitter.go:34-36 | recorded jitters add up to at least the distance between any two recorded RTTs |

## Left out

- Start: assumes that it is not called while a Stop is still waiting for the workers of the session before. Its two critical sections are one step: a Stop between them, which finds nobody to wait for and returns while the workers are about to be launched, is not modelled.
- RegisterWorker: like Start, not among the steps that other goroutines take while another method is in progress; a run belongs to one session.
- EveryOutcomeResumes: assumes that the 5s deadline does not fire; ResumeNeverBlocks shows that without aborted pauses no send waits for it.
- CallNeverStuck: needs that nobody has been lost to an aborted pause; ExactRecovery shows that this cannot be dropped.
- StopDrains: needs that whoever holds exclusiveMu has a context that is done, as every exclusive worker has; OutsideCallerCanBlockStop shows why.
- FnReturn: how fn ends makes no difference to the steps of ExecuteExclusive. After a panic of fn in a Speedtest goroutine, once the deferred calls have run, nothing recovers it and the program ends; the model lets the worker go on.
- PauseAll: modelled with exclusiveMu held, as ExecuteExclusive calls it; direct calls beside an exclusive task are not modelled.
- Real time: that a deadline of 5s is long, that a ticker fires, that fn and checks return when their context is done; a check and fn can end at any moment in the model.
- Fairness: `select` may keep choosing a tick over a queued command; CallIsLinear counts the checks started for this reason, CallIsLinearWhenServedFirst excludes those.
- The Start loops of the DNS, HTTP, TCP and MTR probes, which are the loop of the ICMP probe with another check.
- A Speedtest probe without coordinator, which runs its test directly; the program never builds one.
- Sockets, name resolution, parsing of ICMP messages, the receive loop of the ping, speedtest-go, clocks: packets arrive parsed, with their sender and their round-trip time.
- Report messages and timestamps, logging, metrics export, command line, configuration loading and validation.
- Floating-point rounding: RTT seconds, jitters and loss ratios are reals.
