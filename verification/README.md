# Verification of the health check runtime

This project models the core of an nginx health check module in Dafny and proves properties
of the model. Worker processes of one nginx instance share a record per upstream peer; each
check round of a peer is claimed, run and committed by exactly one of them, although any of
them may pause or die between two instructions. Around that protocol the project covers the
arithmetic of delay statistics, the inheritance of state on reload, the UDP round, the
watchdog's scan, the status page's collection and writer, and the bounds of the `check`
directive.

## Layers

| file | contents |
|---|---|
| `Arith.dfy`, `Time.dfy` | arithmetic facts; saturating 64-bit time |
| `Delay.dfy` | overflow-safe delay statistics, as functions and as the record updated in place |
| `Health.dfy` | the rise/fall counter and the unbounded run lengths it stands for |
| `Protocol.dfy` | what each critical section decides, as functions of what it read |
| `World.dfy` | the protocol as a state machine over any number of processes, with a history of claims and commits |
| `Invariant.dfy` | what every step keeps |
| `Operations.dfy` | what each operation does to that machine, field by field, said without the functions that decide it |
| `Records.dfy`, `Lifecycle.dfy` | what the shared record and the registrations show over all runs: deadlines, delays, observations, heartbeats, exits |
| `Safety.dfy`, `Fencing.dfy`, `Timing.dfy` | theorems over all runs of that machine |
| `Slots.dfy`, `Machine.dfy` | the two-slot record and the machine of single memory accesses: lock words, word-by-word copies, the flip, unlocking, death anywhere, recovery of dead holders |
| `Refinement.dfy` | every run of the fine machine is a run of the protocol |
| `State.dfy`, `Schedule.dfy` | the shared records and the scheduler's operations as classes updated in place, proved equal to the protocol's steps |
| `Identity.dfy`, `Zone.dfy`, `Reload.dfy` | the chained index, zone initialization, and what a reload hands to the next run |
| `Udp.dfy` | the UDP round with arbitrary socket results |
| `Watch.dfy` | the scan cursor and the preferred successor |
| `Snapshot.dfy`, `Writer.dfy` | the status page |
| `Configuration.dfy` | `reuse`, `keepalive`, defaults and bounds |

A class method of `Schedule.dfy` and the protocol function it is equated with are two
different texts: the method follows the source statement by statement, the function is what
the theorems speak about. `Schedule.NextIsStep` ties that function to the state machine, and
`Operations.dfy` says a third time, as plain tables of fields, what it has to be.

## Assumptions

- One system-wide monotonic clock that never runs backwards; a reading may be stale by the
  time it is used, and a failing clock is an input of every operation.
- No process number is reused. Number 0 stands for a free lock word and for "no process";
  the source's invalid process number of an unowned record is that 0 here.
- Memory is sequentially consistent, and the try-lock and forced unlock of a lock word are
  compare-and-swap on its holder.
- Counters, times and identity numbers are 64 bits wide. Every such value has the type
  `Time.U64`, so each computation is also a proof that nothing wraps.
- Reading a lock word and finding its holder dead is one access: a dead process stays dead
  and its number is not reused, so the test may as well be made at the moment of the read.
- The shutdown flags of nginx are seen by a process as its stopping flag, and by a submit
  also while it holds the locks; a shutdown seen elsewhere only makes an operation decline
  that is followed by the stop step anyway.
- A scan for the preferred successor reads the registrations one after the other, so the
  state machine lets it see any mix of them; the theorems about recovery use the registry
  as it is.
- Peers are independent given the registry of workers, so the machine holds one peer record
  and all registrations.
- A check timer is armed with a delay or not armed; `started` 0 means that there was no
  previous round, as in the source.

## Where a property needs a condition

- A process named by the record has its check timer armed only while its registration is
  current: `Timing.SupersededOwnerSleeps` is a run in which a superseded process has none,
  `Timing.OwnerIsAwake` proves it over all runs under that condition, and
  `Timing.TimerStaysExactly` that the condition is exact.
- A regular round keeps its distance only from a recorded start, and the source records a
  start at time 0 as no start: `Timing.RoundAtZeroRepeats` is a run with two rounds at time
  0, `Timing.Cadence` proves the distance for every other one, and
  `Timing.BeginClaimsExactly` that the condition is exact. A takeover of a record that
  nobody claimed yet has no previous round of this run to keep a distance from.
- A worker that is not the preferred one leaves an overdue record alone until the preference
  time is over too: `Timing.VisitClaimsExactly` gives the exact condition,
  `Timing.StalledRecordIsRecovered` what it means for a stalled record.
- A sample can be refused by the delay statistics: `Delay.AcceptFailsIff` gives the exact
  condition and `Delay.RefusalHappens` an input. `Records.NoSampleRefused` shows that the
  delays a real clock measures never meet it. The clamp, the first zero test and the wrap
  test of the source are unreachable; the bodies of `Delay.DelayStats.Rescale` and
  `Delay.DelayStats.Update` refute them.
- The status writer has exactly the blocks its text needs if and only if none is empty
  (`Writer.Output.BlocksExact`). Every successful write keeps that; a failing one can break
  it, as `Writer.Output.FailureLeavesEmptyBlock` does.

## Model

| member | source | states |
|---|---|---|
| Safety.SequentialRefinement | runtime/ngx_healthcheck_schedule.c:310-374 | after any interleaving of any processes, pauses and deaths, the published health is the sequential counter over the committed results; rounds of commits strictly increase; each commit is by exactly the identity that claimed its round |
| Safety.PublishedStateIsDocumented | runtime/ngx_healthcheck_schedule.c:334-368 | from zero counters, the published state is at every moment the one the rise and fall thresholds prescribe for the unbounded sequence of committed verdicts |
| Safety.DelayAlwaysSound | runtime/ngx_healthcheck_schedule.c:343-358 | in every reachable state the published average and last delay lie between the published extremes, refused samples included |
| Safety.IdentityInvariant | runtime/ngx_healthcheck_schedule.c:543-560 | round, term and instance 0 and the initial phase coincide, terms never exceed rounds, a round determines its claimant, a term one worker instance, a worker instance one process |
| Safety.LocalRoundFollows | runtime/ngx_healthcheck_schedule.c:579-585 | a process's own round never runs ahead of the shared one, and equal rounds mean equal full identities |
| Fencing.FencingIsPermanent | runtime/ngx_healthcheck_schedule.c:237-260 | an identity that was taken over, superseded or marked exiting never regains authority and never commits again, however late its process resumes |
| Fencing.FencedRoundIsHarmless | runtime/ngx_healthcheck_schedule.c:237-260 | no operation of a fenced-off round changes the record or commits; its process can only start a new claim |
| Fencing.ChangesNeedAuthority | runtime/ngx_healthcheck_schedule.c:213-262 | a change of the record that is not a claim, and every commit, is made by the identity in authority, and a commit appends exactly that identity's result |
| Fencing.OneTakeoverPerObservation | runtime/ngx_healthcheck_schedule.c:511-520 | of several processes that observed the same stalled round at most one takes it over |
| Fencing.ResultSurvives | runtime/ngx_healthcheck_schedule.c:405-440 | a finished result is still held unchanged, or committed, or its identity was fenced off, after any steps but the shutdown of its own process |
| Fencing.ResultBlocksClaims | runtime/ngx_healthcheck_schedule.c:484-486 | a process that holds a result claims no other round |
| Fencing.SubmitCommits | runtime/ngx_healthcheck_schedule.c:320-330 | an uncontended submit in authority always commits: the phase test cannot refuse it |
| Fencing.RunLater | runtime/ngx_healthcheck_schedule.c:62-82 | over any run the histories only grow and no registration goes back or loses its exiting mark |
| Timing.Cadence | runtime/ngx_healthcheck_schedule.c:511-541 | over whole runs a regular round starts at least an interval after the previous recorded start, also across a reload, and a takeover of a claimed record at least timeout plus grace after it |
| Timing.OwnerIsAwake | runtime/ngx_healthcheck_schedule.c:600-641 | in every state of every run, every process whose current registration the record names owns the round and has its check timer armed |
| Timing.TimerStaysExactly | runtime/ngx_healthcheck_schedule.c:607-641 | when the check timer of a process named by the record fires, it stays armed if and only if the registration is still current |
| Timing.BeginClaimsExactly | runtime/ngx_healthcheck_schedule.c:525-541 | when the check timer of the owner of a committed round fires, the next round starts if and only if no start is recorded or the interval since it is over |
| Timing.OwnerContinues | runtime/ngx_healthcheck_schedule.c:607-641 | once a round is committed and due, the owner's timer handler claims the next one in the same term |
| Timing.VisitClaimsExactly | runtime/ngx_healthcheck_schedule.c:738-774 | in any state of any run, an undisturbed visit takes the peer over if and only if the own registration is current, the record is foreign, numbers are left, and the record is overdue by the grace, counted in plain numbers from its history, and by the preference time too unless the worker is the preferred one; otherwise it leaves the record alone |
| Timing.StalledRecordIsRecovered | runtime/ngx_healthcheck_schedule.c:764-774 | after any run, once deadline, grace and preference are over any live process with a current registration recovers the peer with one visit, and the preferred one does so from deadline and grace on, health kept |
| Timing.OneRescuer | runtime/ngx_healthcheck_schedule.c:664-697 | before the preference time is over, with any fresh worker in the registry, exactly one worker may take an overdue record over |
| Timing.RoundAtZeroRepeats | runtime/ngx_healthcheck_schedule.c:533-541 | a concrete run in which a round that started at time 0 is followed by another at once |
| Timing.SupersededOwnerSleeps | runtime/ngx_healthcheck_schedule.c:622-630 | a concrete run in which a superseded process named by the record has no timer |
| Invariant.StepKeeps | runtime/ngx_healthcheck_schedule.c:461-604 | every step of every process keeps the invariant of registrations, record, contexts, timers and history |
| Invariant.InvAtStart | runtime/ngx_healthcheck_zone.c:152-162 | the records zone initialization leaves satisfy the invariant |
| Invariant.RunKeeps | runtime/ngx_healthcheck_schedule.c:461-604 | so does every state of every run |
| Safety.OwnRoundRunning | runtime/ngx_healthcheck_schedule.c:319-325 | in every state of every run, a process whose unfinished or uncommitted round is in authority finds the shared phase preparing or in flight |
| Records.DelaysAreRecorded | runtime/ngx_healthcheck_schedule.c:343-364 | in every state of every run the published statistics are those of the delays of all committed successes in order, and the time is that of the last commit |
| Records.NoSampleRefused | runtime/ngx_healthcheck_schedule.c:343-358 | from statistics within the clock's range no commit of any run loses its sample, and the range is kept |
| Records.PublishedDelaysAreExact | ngx_healthcheck_common.c:21-86 | a peer that starts without statistics shows at every moment the least, greatest and last of all committed delays, and their floored mean while their sum fits 64 bits |
| Records.PublishedDeadline | runtime/ngx_healthcheck_schedule.c:443-454 | in every state of every run the deadline is start plus timeout for a round being prepared, the holder's own deadline for one in flight, and start plus interval or the late commit for a waiting record; a round's own deadline is start plus timeout until its TCP connection is prepared |
| Records.TakeoverWaits | runtime/ngx_healthcheck_schedule.c:511-520 | no takeover of any run starts before that deadline, or for an unclaimed record activation plus first wait, and the grace are over |
| Records.TakeoverExactly | runtime/ngx_healthcheck_schedule.c:460-562 | in any state of any run a takeover claims if and only if the record it observed is the published one in every field, the registration current, the process free and numbers left; otherwise it only forgets its observation |
| Records.FinishCommits | runtime/ngx_healthcheck_schedule.c:405-440 | in any state of any run, finishing the active round in authority with locks and clock commits exactly the given verdict, with the delay since the start for the first check on a TCP connection and none otherwise |
| Lifecycle.RegisteringRenews | runtime/ngx_healthcheck_schedule.c:62-84 | registering, first or again, shows the process under its number with the time of now, and makes it a candidate for every foreign record for exactly the grace |
| Lifecycle.SilentWorkerExpires | runtime/ngx_healthcheck_schedule.c:684-689 | a worker that registers in any state of any run and then neither renews nor exits counts as alive exactly until the grace is over, whatever else happens |
| Lifecycle.ExitIsFinal | runtime/ngx_healthcheck_schedule.c:199-208 | once a stopping process had its registration lock, no later claim or commit of any run is its registration's, and nobody takes it for alive |
| Lifecycle.StoppedIsSilent | runtime/ngx_healthcheck_schedule.c:162-197 | a stopped process has no timer, no round and no observation in any later state, and claims and commits nothing more |
| Operations.BeginDoes | runtime/ngx_healthcheck_schedule.c:606-641 | the check timer's handler claims exactly in a free, current process whose own shard is committed and due, and otherwise fires again after the rest of the interval, after 10 or 100 milliseconds, after an interval, or not at all, each in its exact case |
| Operations.SubmitDoes | runtime/ngx_healthcheck_schedule.c:309-380 | a submit commits exactly in authority, in a running phase, with a clock and without a shutdown; the record then waits until the next start or now, an overdue next round is started at once, and any other submit changes only whether the result is kept |
| Operations.AnnounceDoes | runtime/ngx_healthcheck_schedule.c:286-307 | a round in authority is announced once, with its own deadline and only out of preparation; anything else changes nothing |
| Operations.ObserveDoes | runtime/ngx_healthcheck_schedule.c:738-763 | a look drops a round the record no longer shows together with its timer, arms an unclaimed shard of the worker, and remembers exactly foreign records |
| Operations.StuckDoes | runtime/ngx_healthcheck_schedule.c:237-250 | a lock that cannot be had leaves everything shared alone, and exactly the operations that need it |
| Protocol.RefusalIgnoresRecord | runtime/ngx_healthcheck_schedule.c:237-243 | a registration that refuses makes the peer record irrelevant and publishes nothing |
| Refinement.MachineRefinesProtocol | runtime/ngx_healthcheck_state.c:88-150 | every schedule of single memory accesses, pauses, deaths and lock recoveries produces exactly the shared states of a run of the atomic protocol |
| Refinement.PublishedRecordAlwaysWhole | runtime/ngx_healthcheck_state.c:88-98 | at every memory access the live slot is one complete record, its health the sequential counter, and the bit the router reads is that record's state |
| Refinement.ReadersSeeWholeRecords | runtime/ngx_healthcheck_state.c:128-150 | a complete copy made under the lock is the record published at that moment |
| Refinement.ActKeeps | runtime/ngx_healthcheck_state.c:88-150 | each memory access keeps the machine's invariant and is invisible to the protocol or exactly one of its steps |
| Refinement.MutualExclusion | runtime/ngx_healthcheck_state.c:43-67 | at every memory access of every run, two live processes never hold the same lock, recovery of dead holders included |
| Refinement.HoldersAreNamed | runtime/ngx_healthcheck_state.c:43-67 | at every memory access of every run, the lock a live process works under names it |
| Refinement.DeadHolderIsRecovered | runtime/ngx_healthcheck_state.c:29-67 | a lock whose holder died is had within three accesses of a waiting process |
| Refinement.RecoverySparesTheLiving | runtime/ngx_healthcheck_state.c:29-41 | in no run does a forced unlock change a lock word that names a live process, however long it paused |
| Refinement.FlippedRecord | runtime/ngx_healthcheck_state.c:93-97 | the flip shows the complete new record and its down state |
| Refinement.FlippedRegistration | runtime/ngx_healthcheck_state.c:105-109 | the flip shows the complete new registration and no other changes |
| Refinement.DecisionIsEffect | runtime/ngx_healthcheck_schedule.c:236-260 | what a process decides from its copies is what the protocol decides from the shared state |
| Slots.FlipShows | runtime/ngx_healthcheck_state.c:93-97 | after the flip the other slot is live and the second bit is the given state |
| Slots.RecordRoundTrip | runtime/ngx_healthcheck_state.h:24-53 | a record is read back from its words unchanged |
| Slots.RegistrationRoundTrip | runtime/ngx_healthcheck_state.h:69-75 | so is a registration |
| State.TakenInTime | runtime/ngx_healthcheck_state.c:54-66 | a lock is taken only free and strictly before the limit, at the first moment it is free |
| State.TakenIfFree | runtime/ngx_healthcheck_state.c:54-66 | a lock that becomes free in time is taken, no later than that |
| State.SharedCell.CopyWords | runtime/ngx_healthcheck_state.c:94-95 | a copy that stops anywhere leaves the published record and the routed state untouched |
| State.SharedCell.Publish | runtime/ngx_healthcheck_state.c:88-98 | publishes exactly the given words and state and keeps the previous record whole |
| State.SharedCell.Lock | runtime/ngx_healthcheck_state.c:43-67 | succeeds exactly when the lock is free at some moment before the limit, and then is held |
| State.SharedCell.RecoverLock | runtime/ngx_healthcheck_state.c:29-41 | removes exactly a holder known dead |
| State.SharedCell.TryRead | runtime/ngx_healthcheck_state.c:112-126 | returns the published words, exactly when the lock is free or its holder dead |
| State.SharedCell.Read | runtime/ngx_healthcheck_state.c:128-138 | returns the published words, exactly when the lock is had in time |
| Time.AddTime | runtime/ngx_healthcheck_state.c:17-21 | addition saturates instead of wrapping |
| Time.MulTime | runtime/ngx_healthcheck_state.c:23-27 | so does multiplication, and the quotient test is exact |
| Time.ReachedDeadline | runtime/ngx_healthcheck_state.c:17-21 | a clock reading at or past a saturated deadline is at or past the true sum |
| Schedule.NextIsStep | runtime/ngx_healthcheck_schedule.c:36-604 | the step function the methods are proved against is the state machine's step |
| Schedule.FixIsStep | runtime/ngx_healthcheck_schedule.c:405-435 | fixing a result and offering it are two steps of the state machine |
| Schedule.Runtime.Register | runtime/ngx_healthcheck_schedule.c:61-84 | registering in place is the protocol's step; a superseded process stops |
| Schedule.Runtime.Exit | runtime/ngx_healthcheck_schedule.c:197-210 | marking the own registration is the protocol's step and releases the lock |
| Schedule.Runtime.OwnedLock | runtime/ngx_healthcheck_schedule.c:213-262 | both locks are held exactly when the full identity matches, none otherwise |
| Schedule.Runtime.Revalidate | runtime/ngx_healthcheck_schedule.c:273-284 | validation with its callers' reaction is the protocol's step |
| Schedule.Runtime.Waiting | runtime/ngx_healthcheck_schedule.c:286-307 | announcing a round in flight is the protocol's step |
| Schedule.Runtime.Renewed | runtime/ngx_healthcheck_schedule.c:63-80 | the first registration takes the next instance number, later ones keep theirs, each with the heartbeat of now; declined exactly when superseded, an error exactly when numbers run out |
| Schedule.Runtime.Score | runtime/ngx_healthcheck_schedule.c:334-368 | the field-by-field health update is the sequential counter; refused delays leave the statistics unchanged |
| Schedule.Runtime.Submit | runtime/ngx_healthcheck_schedule.c:309-380 | submitting is the protocol's step; a declined result leaves all state unchanged |
| Schedule.Runtime.Retry | runtime/ngx_healthcheck_schedule.c:732-737 | the watchdog's retry of a pending result is the protocol's step |
| Schedule.Runtime.Judge | runtime/ngx_healthcheck_schedule.c:417-431 | the outcome is a success exactly for a good result, with a delay exactly for the first check on a TCP connection with a readable clock, and it is the time since the start |
| Schedule.Runtime.Finish | runtime/ngx_healthcheck_schedule.c:405-440 | only the first result of an active round is fixed, as the verdict and the delay it means, and submitted at once |
| Schedule.Runtime.Claim | runtime/ngx_healthcheck_schedule.c:460-604 | a claim changes the record exactly as the protocol does and otherwise at most allocates a blank context |
| Schedule.Runtime.Begin | runtime/ngx_healthcheck_schedule.c:606-641 | the check timer's handler is the protocol's step, re-arming included |
| Schedule.Runtime.Takeover | runtime/ngx_healthcheck_schedule.c:771-772 | so is a takeover of an observed record |
| Schedule.Runtime.Observe | runtime/ngx_healthcheck_schedule.c:738-763 | reading a record and reacting to it is the protocol's step |
| Schedule.VisitIsRun | runtime/ngx_healthcheck_schedule.c:728-774 | a visit under one clock reading is a run of three steps of the state machine |
| Schedule.Runtime.Visit | runtime/ngx_healthcheck_schedule.c:728-774 | one peer's turn is retry, observation and, exactly when the gate is open, takeover, in this order; a record that could not be read is not taken over |
| Delay.AllSamplesBounded | ngx_healthcheck_common.c:21-86 | for every sequence of samples, minimum, maximum and last are those of the accepted ones and the average lies between, through any number of rescales |
| Delay.ExactWhileFitting | ngx_healthcheck_common.c:67-76 | until 64 bits are exhausted, total and average are the exact sum and floored mean |
| Delay.AcceptFailsIff | ngx_healthcheck_common.c:41-65 | a sample is refused exactly when the average of the history and the sample together exceed 64 bits |
| Delay.AcceptExactly | ngx_healthcheck_common.c:41-86 | an accepted sample joins the whole history when there is room; otherwise the history shrinks to its mean with half the weight, halved again exactly as often as the sample needs |
| Delay.RefusalHappens | ngx_healthcheck_common.c:41-65 | a concrete sequence of two samples whose second is refused |
| Delay.AcceptKeepsSound | ngx_healthcheck_common.c:41-86 | a rescale and one more sample keep the total between the extremes times the count |
| Delay.RescaleFits | ngx_healthcheck_common.c:45-58 | the first rescaled product never exceeds the old total, so the clamp is dead code |
| Delay.DelayStats.Rescale | ngx_healthcheck_common.c:41-65 | the halving loop finds the largest weight that leaves room, or fails exactly when there is none |
| Delay.DelayStats.Update | ngx_healthcheck_common.c:21-86 | the in-place update is the specified one, and fails exactly where it does |
| HealthCounter.CountersRefineRuns | runtime/ngx_healthcheck_schedule.c:335-366 | for result sequences of any length, past saturation, the bounded counters are the cycling image of the true run lengths and the state is the documented one |
| HealthCounter.RecordShape | runtime/ngx_healthcheck_schedule.c:335-366 | a counter reaches its threshold exactly when the true run does; at most one is non-zero; an up record is below fall and a down record below rise |
| HealthCounter.FlipsExactlyAtThreshold | runtime/ngx_healthcheck_schedule.c:339-366 | the state flips exactly when the opposing run first reaches its threshold |
| Identity.EqualIsSameKey | ngx_healthcheck_common.c:137-156 | the comparison by lengths and bytes is equality of the four parts of the identity |
| Identity.ComputeHashBytes | ngx_healthcheck_common.c:89-101 | the hash loop computes the recursive hash |
| Identity.EqualHashEqually | ngx_healthcheck_common.c:104-134 | equal identities fall into the same chain |
| Identity.Index.Create | ngx_healthcheck_common.c:159-210 | the index holds every old record of a recognised shared area once, newest first in its chain, and nothing of any other area |
| Identity.Index.Take | ngx_healthcheck_common.c:213-231 | takes the highest-numbered unused record of equal identity, none exactly when there is none, and unlinks nothing else |
| Identity.MatchingIsOneToOne | runtime/ngx_healthcheck_zone.c:122-142 | no old record is used twice and every match has equal identity |
| Identity.InheritsMinimum | runtime/ngx_healthcheck_zone.c:122-142 | a reload inherits, per identity, the smaller of the old and new multiplicities |
| Zone.InitZone | runtime/ngx_healthcheck_zone.c:122-163 | every new record is published whole with what its naive match hands over |
| Zone.InheritedIsInitial | runtime/ngx_healthcheck_zone.c:120-160 | whatever the old record, the new one is initial and its shard dealt in turn; last start and health survive in every counter, for UDP without the delays, and an unreadable record starts from the default |
| Reload.NewCycleStarts | runtime/ngx_healthcheck_zone.c:143-163 | the records of zone initialization are what a run of the fine machine may start from |
| Reload.ReloadContinues | runtime/ngx_healthcheck_zone.c:129-162 | for every peer and every readable or unreadable old record, across a reload and any later run, health is the inherited one with every new result counted and the first regular round keeps its distance from the inherited start |
| Reload.ReloadKeepsHealth | runtime/ngx_healthcheck_zone.c:129-150 | so a readable TCP peer goes on with its complete old health, and an unreadable or new one from its configured state |
| Udp.Round.Error | protocol/ngx_healthcheck_udp.c:4-33 | a failure exactly for a refusal in time after a try to send; success for lost clock, passed deadline and exhausted resources; otherwise the round goes on |
| Udp.Round.IoReady | protocol/ngx_healthcheck_probe.c:92-124 | socket work goes on exactly for the live, owned round in time; an expired one ends as a success |
| Udp.Round.Timeout | protocol/ngx_healthcheck_probe.c:126-163 | an expired live round ends as a success, a stopping or lost one is given up, an early one goes on; nothing else happens |
| Udp.Round.SendDatagram | protocol/ngx_healthcheck_udp.c:73-105 | up to eight interrupted tries, with exactly the specified events |
| Udp.Round.Write | protocol/ngx_healthcheck_udp.c:58-115 | the write event adds exactly the specified events and keeps the round safe |
| Udp.Round.Read | protocol/ngx_healthcheck_udp.c:117-194 | the stored error comes before any reply; the read event adds exactly the specified events |
| Udp.Round.Start | protocol/ngx_healthcheck_probe.c:165-272 | preparation adds exactly the specified events; every local failure is a success of the round |
| Udp.Round.Resume | protocol/ngx_healthcheck_probe.c:275-300 | the nudge prepares what is not prepared, ends what is late, and otherwise reads and, in a round that goes on, writes |
| Udp.SendsExactly | protocol/ngx_healthcheck_udp.c:73-115 | a write tries once more than it is interrupted in a live round; its settling try alone decides, both ways, whether the datagram goes out, whether the round fails, succeeds or is given up, and whether it turns to listening |
| Udp.WritesExactly | protocol/ngx_healthcheck_udp.c:58-72 | a write event sends exactly in a live round that is still sending, at most eight times; otherwise it gives the round up, ends it, or does nothing, exactly by its two looks |
| Udp.ReadsExactly | protocol/ngx_healthcheck_udp.c:117-194 | the settling query for the stored error and the settling reception, the first ones not interrupted in a live round, determine every event of a read; a stored refusal in time fails the round before anything is received |
| Udp.ReadFailsExactly | protocol/ngx_healthcheck_udp.c:135-187 | a read fails the round if and only if a send was tried and the stored error is a refusal in time, or does not end the round and the settling reception is refused in time |
| Udp.StartsExactly | protocol/ngx_healthcheck_probe.c:165-272 | the socket is prepared exactly in a live round that gets one; every local failure is a success of the round; a datagram can leave at once exactly when the connection is there at once |
| Udp.ResumesExactly | protocol/ngx_healthcheck_probe.c:275-300 | a nudge prepares exactly an unprepared round that gets a socket in time, ends or gives up a late one, and otherwise reads, and tries to send exactly while the round goes on and is still sending |
| Udp.SignalsExactly | protocol/ngx_healthcheck_probe.c:126-163 | an ended round ignores every signal, a dropped one is given up, and the deadline ends, gives up or spares a live one exactly by its look |
| Udp.GateExactly | protocol/ngx_healthcheck_probe.c:92-163 | without socket work a round is given up exactly when it is stopping or lost at a look, and succeeds exactly when both looks find it expired |
| Udp.Run | protocol/ngx_healthcheck_udp.c:58-194 | for every sequence of events and socket results the log of a round is the specified one, with at most one whole datagram and at most one verdict, failures confirmed |
| Udp.FailureMeansRefusal | protocol/ngx_healthcheck_udp.c:10-18 | a failed round saw a refusal strictly before its deadline after trying to send, and has no other verdict |
| Watch.Watchdog.Tick | runtime/ngx_healthcheck_schedule.c:726-779 | a pass visits the next peers in cyclic order, at most a batch, ending after the first late visit |
| Watch.VisitsBounds | runtime/ngx_healthcheck_schedule.c:728-778 | a pass makes at least one visit, ends with its first late one, and is a full batch when nothing is late |
| Watch.CyclicDistinct | runtime/ngx_healthcheck_schedule.c:728-730 | no peer is visited twice within a pass |
| Watch.EveryPeerIsVisited | runtime/ngx_healthcheck_schedule.c:728-730 | as many passes as peers, or one round of full batches, visit every peer |
| Watch.Watchdog.Scan | runtime/ngx_healthcheck_schedule.c:726-779 | any number of passes visit one unbroken cyclic sequence; as many as there are peers, or one round of full batches, miss none |
| Watch.Preferred | runtime/ngx_healthcheck_schedule.c:663-697 | a worker finds itself preferred exactly when its scan is in time and it is the best fresh candidate |
| Watch.NeverFresh | runtime/ngx_healthcheck_schedule.c:679-689 | a worker unread, never registered, exiting, ahead of the clock, or the owner itself is no candidate |
| Watch.Chooses | runtime/ngx_healthcheck_schedule.c:764-771 | the decision to take over is the gate on what the scan saw, nothing when it ran out of time |
| Watch.ExactlyOnePreferred | runtime/ngx_healthcheck_schedule.c:675-696 | given one view, there is a preferred worker exactly when any is fresh, and never two |
| Watch.BestExists | runtime/ngx_healthcheck_schedule.c:675-696 | there is a best candidate whenever any is fresh |
| Watch.BestIsUnique | runtime/ngx_healthcheck_schedule.c:690-696 | given one view there is one best candidate, ties going to the lowest number |
| Snapshot.Collection.Step | status/ngx_healthcheck_snapshot.c:21-62 | a resumed collection takes exactly the readings up to the first that gives nothing or the budget, one per peer in order; rows and totals are those of one pass; each return code has its exact cause |
| Snapshot.Request.Collect | status/ngx_healthcheck_request.c:53-68 | one batch takes at most 256 readings, in order, over both sources, all of them when it pauses for the budget, and completes exactly when both sources are full |
| Snapshot.RowsAreFilter | status/ngx_healthcheck_snapshot.c:48-59 | the rows are exactly the wanted peers, in order, each with its one observation |
| Snapshot.RowsAreWanted | status/ngx_healthcheck_snapshot.c:48 | a peer has a row, with its one observation, if and only if down peers are asked for and it is down, or else up ones and it is up, or else all |
| Snapshot.UpCountIsExact | status/ngx_healthcheck_snapshot.c:47 | the up count is the number of peers observed up |
| Snapshot.PrefixExactly | status/ngx_healthcheck_snapshot.c:34-46 | the readings are taken in order up to the first that gives nothing |
| Snapshot.UpRows | status/ngx_healthcheck_snapshot.c:47-50 | the up count is the number of rows an up-only request gets, over all peers |
| Writer.DecimalRoundTrip | ngx_healthcheck_status_writer.c:88-104 | decimal output parses back to the number and has no leading zero |
| Writer.DecimalFits | ngx_healthcheck_status_writer.c:92-100 | a number below a power of ten needs no more digits than its exponent |
| Writer.Digits | ngx_healthcheck_status_writer.c:88-104 | the digit loop stays inside the twenty-character buffer and leaves the number in it |
| Writer.Output.AddBlock | ngx_healthcheck_status_writer.c:19-52 | a new block is linked behind the others and the text unchanged |
| Writer.Output.Append | ngx_healthcheck_status_writer.c:55-85 | appends all data, succeeding exactly when the length stays representable and the blocks suffice; an error leaves a prefix |
| Writer.Output.AppendUint | ngx_healthcheck_status_writer.c:87-104 | appends the decimal text |
| Writer.Output.AppendMsec | ngx_healthcheck_status_writer.c:161-180 | appends the decimal text, and -1 for the value that stands for none |
| Writer.Output.Directive | ngx_healthcheck_status_writer.c:118-196 | the plain text before a directive and its own text are appended, or the whole format is known not to fit |
| Writer.Output.Printf | ngx_healthcheck_status_writer.c:107-203 | appends exactly the expansion of the format, succeeding exactly when every directive is known and the text fits; an error leaves a prefix |
| Writer.Output.BlocksExact | ngx_healthcheck_status_writer.c:62-82 | all blocks but the last are full, and they are exactly as many as the text needs if and only if none is empty |
| Writer.Output.FailureLeavesEmptyBlock | ngx_healthcheck_status_writer.c:62-74 | a failing write at the length limit links a block that stays empty |
| Writer.BlocksAreCeiling | ngx_healthcheck_status_writer.c:62-82 | the block count of packed pieces is the ceiling of length by size |
| Writer.CeilingIsLeast | ngx_healthcheck_status_writer.c:62-82 | that ceiling is the least number of blocks that holds the length |
| Writer.FormatMeans | ngx_healthcheck_status_writer.c:107-203 | a format built of plain text and any directives prints each part as it is meant, strings, numbers, milliseconds with -1 for none, and percent signs; an unknown directive behind it stops there with an error |
| Writer.EscapeRoundTrip | ngx_healthcheck_status_writer.c:134-138 | a text with doubled percent signs is printed as it was |
| Configuration.ParseHandshake | configuration/ngx_healthcheck_config.c:201-226 | off and on are told exactly, and a time is accepted exactly between one second and the timer's range, in milliseconds |
| Configuration.Field | configuration/ngx_healthcheck_config.c:271-294 | an optional field is omitted, or exactly a time of 1 to 32767 seconds, or a count of 1 to 127 |
| Configuration.Accept | configuration/ngx_healthcheck_config.c:254-299 | accepted exactly for one to four fields that are all valid, each in its own place |
| Configuration.ParseKeepalive | configuration/ngx_healthcheck_config.c:233-300 | the one-pass parser is acceptance of the colon-separated fields |
| Configuration.SplitJoins | configuration/ngx_healthcheck_config.c:254-262 | the fields joined by colons are the value, and none contains a colon |
| Configuration.SplitOfJoin | configuration/ngx_healthcheck_config.c:254-262 | splitting gives back any colon-free fields |
| Configuration.FinishKeepalive | configuration/ngx_healthcheck_config.c:375-423 | accepted exactly under the stated bounds; an omitted idle time is the greatest whole second that meets them |
| Configuration.FinishConf | configuration/ngx_healthcheck_config.c:303-372 | accepts exactly the acceptable arguments and then guarantees timeout below interval, the minimum of the enabled lifetimes above interval, and ordered keepalive times |
| Configuration.DefaultTimes | configuration/ngx_healthcheck_config.c:303-412 | an omitted timeout is nine tenths of the interval, at most five seconds; an omitted idle time is the interval in whole seconds rounded up, unless the kernel's limit or the lifetime is nearer |
| Configuration.Edges | configuration/ngx_healthcheck_config.c:309-418 | which settings at the very bounds are accepted and which just beyond them are not |
| Configuration.KeptAsLong | configuration/ngx_healthcheck_config.c:333-367 | an accepted directive keeps a connection as long as it says, the shorter of two, for ever when off, and by default two intervals but at least half a minute |

## Left out

- Real sockets, socket options, event registration and connection reuse: their results are arbitrary inputs of the UDP round; the TCP handlers are not modelled.
- nginx core (timer queue, pools, slab memory, request finalization): a timer is armed with a delay or not; the due time itself and its lazy re-arming are not modelled.
- The generation check of a context, which never changes within one process, and the activation mutex: activation is one atomic step.
- The time budget of a watchdog pass inside the protocol layer: whether a lock is had in time is an input there; `State.SharedCell.Lock` models the budget of one lock.
- The computation of the grace and preference times at start-up, and the choice of log levels and texts.
- Failing allocations outside the claim and the status writer: they end initialization or the request without touching kept state.
- `ngx_parse_time`, `ngx_atoi` and MurmurHash2: arbitrary total functions; the token loop of the directive and the port, rise and fall tokens are plain assignments.
- HTML, CSV, JSON and Prometheus templates, module glue, the TCP idle discard limit and the lookup of the latest shared zone: linear code that would only add easy members.
- Schedule.Runtime.Visit: states the composition of the three operations under one set of circumstances; what other processes do between them is covered by the state machine, where they are separate steps.
- Schedule.Runtime.OwnedLock: leaves out the comparison of the generation, which never changes within one process, and the choice between the pass's budget and a fresh one; both end in the modelled declined and contended returns.
- Schedule.Runtime.Observe: leaves out the nudge to a running round of the own process, which is `Udp.Round.Resume` and touches no shared state of its own.
- Schedule.Runtime.Judge: a clock reading before the start of its round, which the monotonic clock excludes, gives no sample instead of a wrapped difference.
- Udp.Round.Timeout: models the UDP branch; the TCP branch fixes a failure instead and is an arbitrary outcome of the state machine's step that fixes a result.
- Udp.Round.Start: leaves out kept TCP connections and the TCP keepalive option, which a UDP round never reaches.
- Snapshot.Collection.Step: leaves out the failing allocation of a row, which ends the request with an error after that record was counted.
- Identity.Index.Create: leaves out failing allocations and the bound on the number of records, which end zone initialization.
- Snapshot.Request.Collect: does not model the pause timers between batches and the waiting log.
