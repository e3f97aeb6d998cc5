# Starla probe: verified protocol and scheduling models

Starla is a RIPE Atlas probe. This project models the parts of it that are
protocols and schedules, and proves what they promise over every input, every
run and every interleaving:

- **Controller session** (`TelnetFilter`, `LineSplitter`, `Session`,
  `Connection`, `Chunks`, `TakeOver`): bytes from a socket pass through the
  Telnet filter (RFC 854, RFC 855), are cut into lines, and drive the session,
  which hands on whole crontabs; a newer session takes over from an older one.
- **Crontab lines** (`CommandLine`, `Getopt`, `Shell`, `CommandLoop`): the
  command text of a line, its words, evtdig's options, and the loop that turns
  each crontab into one scheduler command; `EndToEnd` composes it with the
  session, from bytes to scheduler commands.
- **Stub resolver** (`Ring`, `Looking`, `NameServers`, `Resolver`,
  `ResolverRuns`, `ResolverAlone`): the ring of name servers, the loop to the
  next one up look by look, one query by itself, and all queries, probes and
  readers interleaved, one lock-held section a step.
- **Slots** (`TaskSlots`, `PostSlots`): when measurements run and uploads go.
- **Results** (`ResultQueue`, `Pipeline`, `Oneoffs`, `UploadGate`,
  `HostTelemetry`): the bounded queue and its batches, one-offs, holds after a
  429, telemetry lines.
- **Saved state** (`Text`, `LastWins`, `SavedState`, `InitReply`,
  `Registration`, `RegistrationRuns`, `ConKeep`, `HostPins`, `KnownHosts`): the
  registration decision and the controller session kept as text, server
  replies, pinned host keys.
- **Control messages** (`ControlMessages`): Winsock's ancillary data.
- `Seqs` and `Runs` hold what the others share of sequences, and of machines
  run over them.

Objects the program updates in place are classes here, and each method is
proved against a function of its old state; what holds over runs is proved of
those functions. Clocks, random draws, answers from the network and whether a
send or a save succeeds are parameters. `dafny verify dfyconfig.toml` checks
everything.

## Where the code differs from what is said of it

- In a subnegotiation an escaped 255 followed by 240 ends it early, so the rest
  of the payload leaks into the data
  (crates/starla-controller/src/telnet.rs:993-997). `DecodeInvertsEncode` says
  exactly when decoding undoes encoding.
- A 429 does count as a failure towards the plain backoff, although the comment
  beside the count says it does not
  (crates/starla-results/src/lib.rs:726-731). `CommentHoldsWhen` says exactly
  after which failures the two agree.
- Before a line's start time the upload schedule's truncating division gives
  another first cycle than the scheduler's rule
  (crates/starla-results/src/post_schedule.rs:122-127). `TruncationAgrees` says
  exactly when they agree.
- A measurement taken up again after its end can run a cycle twice when half its
  spread is wider than its interval and the slack
  (crates/starla-scheduler/src/task.rs:75-95). `CycleRunsTwice` is such a line,
  and `IncreasingIffNarrow` the exact condition.
- The guard against a clock that went back also steps in on a clock that did
  not, when half an upload line's spread is wider than nine intervals: cycle 0
  is then posted after cycle 10 (crates/starla-results/src/post_schedule.rs:106-114).
  `GuardGoesBack` is that run, and `IncreasingIffWithinNine` the exact
  condition.
- A host key whose save fails is accepted all the same, and a restart may forget
  it (crates/starla-controller/src/ssh.rs:302-328). `UnsavedPinIsForgotten` is
  such a run; `FirstRestartKeeps` and `KeptIffSecured` say exactly which
  restarts keep a key.
- The loop to the next name server up looks at each under its own lock; when the
  last one up goes down after the test for all down, it does not end until one
  comes up (crates/starla-measurements/src/target.rs:708-719).
  `SpinsWhileAllDown` and `EndsWithinARound` say so.
- A queue of capacity 0 still takes a result
  (crates/starla-results/src/queue.rs:58-79). `CapacityHolds` is an
  if-and-only-if.

## Model

| member | source | states |
|---|---|---|
| TelnetFilters.TelnetFilter.Feed | crates/starla-controller/src/telnet.rs:959-1003 | one read through the filter is the byte-by-byte machine from the kept state: new state and bytes let through |
| TelnetFilters.RunAppend | crates/starla-controller/src/telnet.rs:959-1003 | two reads are one: the filter's output does not depend on where the stream is cut |
| TelnetFilters.EncodedRun | crates/starla-controller/src/telnet.rs:959-1003 | any list of data bytes, commands, options and subnegotiations ends in Normal, with the data and exactly what leaks from early-closed payloads |
| TelnetFilters.DecodeInvertsEncode | crates/starla-controller/src/telnet.rs:959-1003 | the filter gives back exactly the data if and only if no payload holds 255 then 240 with something after |
| TelnetFilters.EscapedSeEndsSubnegotiation | crates/starla-controller/src/telnet.rs:986-998 | a payload that does leak |
| LineSplitters.LineSplitter.Feed | crates/starla-controller/src/telnet.rs:495-518 | one read's lines and the pending rest are those of the splitter machine |
| LineSplitters.RunAppend | crates/starla-controller/src/telnet.rs:495-518 | lines do not depend on how the stream is cut |
| LineSplitters.RunIsBatch | crates/starla-controller/src/telnet.rs:488-523 | the lines are those of the text with CR LF, CR NUL and CR made LF, lines holding NUL left out, and what is pending is its unended rest |
| LineSplitters.PendingGrowth | crates/starla-controller/src/telnet.rs:495-523 | the pending line grows by no more than a read |
| Sessions.RunIsConversation | crates/starla-controller/src/telnet.rs:594-713 | the session over any lines is the batch reading: login, password tries each against what the session-ID cell holds then, then requests, each crontab the first 65534 CRONLINEs after its CRONTAB, handed on before the line that ends it, a crontab still open yielding nothing |
| Sessions.RunStaysSound | crates/starla-controller/src/telnet.rs:654-697 | in every run a crontab is open exactly in DoCrontab, and never holds more than 65534 lines |
| Sessions.CrontabsAreWhole | crates/starla-controller/src/telnet.rs:654-697 | every crontab that request lines hand on is one accepted CRONTAB line and the whole run of CRONLINEs after it |
| Sessions.SessionCrontabsAreWhole | crates/starla-controller/src/telnet.rs:594-713 | the same of a session's own commands, from its login on |
| Sessions.SessionSilentAfterOk | crates/starla-controller/src/telnet.rs:698-703 | after the one OK nothing is handed on, and every line is answered BAD_COMMAND |
| Sessions.ChannelCutsTheLog | crates/starla-controller/src/telnet.rs:772-787 | on a channel that may be absent or close, a session does what it would have done, up to the first command refused |
| Sessions.RunAppend | crates/starla-controller/src/telnet.rs:613-704 | a session is a run of its lines, however they are grouped |
| Connections.Connection.Forward | crates/starla-controller/src/telnet.rs:772-787 | what reaches the probe of one command, and whether the session goes on |
| Connections.Connection.TakeLine | crates/starla-controller/src/telnet.rs:613-704 | one line's replies, commands and new state |
| Connections.Connection.TakeRequestLine | crates/starla-controller/src/telnet.rs:673-697 | a request line ends the open crontab first, then is answered and taken |
| Connections.Connection.TakeLines | crates/starla-controller/src/telnet.rs:613-704 | the lines of one read, or those before a newer session is seen, until one ends the session |
| Connections.Connection.Serve | crates/starla-controller/src/telnet.rs:590-716 | a whole connection: reads, lines, replies, commands, and how it ends, a newer session seen before any line included |
| Chunks.ServedIsConversation | crates/starla-controller/src/telnet.rs:590-716 | however a stream with no over-long line is cut into reads, and after however many lines a newer session takes over, the connection's replies and commands are the batch reading of the lines before that |
| Chunks.ChunkInvariance | crates/starla-controller/src/telnet.rs:590-716 | two ways of cutting one stream give the same replies and commands, taken over after the same number of lines or never |
| Chunks.PendingBounded | crates/starla-controller/src/telnet.rs:592-594 | the pending line never exceeds the limit and one read, and the connection overflows exactly when it exceeds the limit and neither the session ended nor a newer one took over |
| TakeOvers.AtlasSessions.TakeOver | crates/starla-controller/src/telnet.rs:730-749 | dead entries go, the cell's sender is kept or made, bumped, and then subscribed to |
| TakeOvers.RetainKeepsListeners | crates/starla-controller/src/telnet.rs:737-740 | a live session's sender is never removed |
| TakeOvers.StepKeeps | crates/starla-controller/src/telnet.rs:594-622 | every line, wake-up, connection and end keeps: listeners registered, distinct versions seen, the newest the latest to authenticate |
| TakeOvers.AtMostOneNewest | crates/starla-controller/src/telnet.rs:718-760 | in every interleaving at most one live session of a cell sees no newer one |
| TakeOvers.ForwardedByLatest | crates/starla-controller/src/telnet.rs:614-620 | every command is forwarded by the session that authenticated last on its cell |
| TakeOvers.OlderIsSilent | crates/starla-controller/src/telnet.rs:614-620 | once a newer session has authenticated, an older one forwards nothing, its open crontab included |
| CommandLines.Tokenize | crates/starla-controller/src/telnet.rs:1342-1370 | the loop's words are those of the character machine |
| CommandLines.TokensInvertWrite | crates/starla-controller/src/telnet.rs:1342-1370 | words written bare or quoted, with any blanks between them, are read back |
| Getopts.LongOption | crates/starla-controller/src/telnet.rs:1788-1810 | a long option by exact name or unique prefix, its value after `=` or in the next word |
| Getopts.ShortOptions | crates/starla-controller/src/telnet.rs:1811-1829 | a bundle of letters, its last one's value attached or in the next word |
| Getopts.ParseArgs | crates/starla-controller/src/telnet.rs:1779-1835 | the loop over the arguments gives the recursive reading's options and operands, or the first bad argument |
| Getopts.GetoptInvertsWrite | crates/starla-controller/src/telnet.rs:1779-1835 | any list of options and operands, written in any of the ways allowed, is read back in order |
| Getopts.CommandLineInvertsWrite | crates/starla-controller/src/telnet.rs:1342-1370 | the same from the text of the command line |
| Getopts.EvtdigInvertsWrite | crates/starla-controller/src/telnet.rs:1628-1775 | evtdig's own tables allow it |
| Shells.CommandText | crates/starla-controller/src/telnet.rs:80-99 | the command text: comment, blanks and five header fields dropped |
| Shells.ShellInvertsHeader | crates/starla-controller/src/telnet.rs:80-99 | a command without `#` and without blanks at its ends comes back whatever the header fields, blanks and comment |
| CommandLoops.CommandLoop.Send | binaries/starla-probe/src/main.rs:492-498 | a command goes out, or the scheduler is gone and the loop ends |
| CommandLoops.CommandLoop.Act | binaries/starla-probe/src/main.rs:564-601 | a recurring measurement of a crontab line is gathered, any other goes out at once |
| CommandLoops.CommandLoop.Dispatch | binaries/starla-probe/src/main.rs:546-601 | a one-off is announced before what it holds is taken |
| CommandLoops.CommandLoop.NextLine | binaries/starla-probe/src/main.rs:488-491 | one line of the crontab, before anything else is received |
| CommandLoops.CommandLoop.EndCrontab | binaries/starla-probe/src/main.rs:491-498 | after its last line the crontab goes out as one command |
| CommandLoops.CommandLoop.Receive | binaries/starla-probe/src/main.rs:509-530 | a crontab's lines are queued, any other command is taken |
| CommandLoops.CommandLoop.Run | binaries/starla-probe/src/main.rs:485-601 | the loop's effects are those of the received commands one after the other, up to the first send that fails |
| CommandLoops.OneSyncPerCrontab | binaries/starla-probe/src/main.rs:485-530 | each crontab makes exactly one scheduler command, in order, with exactly its recurring lines in order |
| CommandLoops.SchedulerCrontabsAreWhole | binaries/starla-probe/src/main.rs:485-530 | every crontab that request lines have the scheduler given is a whole one the controller sent |
| EndToEnd.ScheduledCrontabsWereSent | binaries/starla-probe/src/main.rs:485-530 | from bytes in reads to scheduler commands, a newer session taking over at any line, through any channel and a scheduler that may be gone: every crontab the scheduler is given holds the recurring lines of a whole one in the stream |
| EndToEnd.GivenIsConversation | binaries/starla-probe/src/main.rs:485-601 | what the scheduler is given is what the conversation over the stream's lines, those before a newer session takes over, asks for, up to the first command refused on the way |
| Rings.RingIsLinked | crates/starla-measurements/src/target.rs:677-699 | the ring is what inserting each server right after the first makes |
| Rings.PickPasses | crates/starla-measurements/src/target.rs:703-720 | passing a server that is down brings the next one up nearer, and does not change the pick |
| Rings.PicksAreRoundRobin | crates/starla-measurements/src/target.rs:703-720 | with a fixed set of servers up, consecutive picks give each of them once, in ring order |
| Rings.PicksWithNoneUp | crates/starla-measurements/src/target.rs:703-720 | with none up, consecutive picks give every server once |
| Rings.TurnsAreFair | crates/starla-measurements/src/target.rs:703-720 | a round holds every server that is up, once |
| Looking.Look | crates/starla-measurements/src/target.rs:712-719 | the loop with servers going down and coming up between its looks: the first found up at its look |
| Looking.EndsWithinARound | crates/starla-measurements/src/target.rs:712-719 | while one server stays up, whatever the others do, it ends within a round |
| Looking.SpinsWhileAllDown | crates/starla-measurements/src/target.rs:708-719 | once all have gone down, and as long as they are, it does not end |
| Looking.SteadyIsPick | crates/starla-measurements/src/target.rs:712-719 | while none goes down or comes up it finds the ring's pick |
| NameServers.Base.Pick | crates/starla-measurements/src/target.rs:703-720 | the picked server and the new head are the ring's, the servers standing still meanwhile |
| NameServers.Base.PickUp | crates/starla-measurements/src/target.rs:712-719 | the loop to the next server up ends, at the ring's pick, the servers standing still meanwhile |
| NameServers.Base.ServerFailed | crates/starla-measurements/src/target.rs:758-771 | an up server goes down with a new generation, a down one stays as it is |
| NameServers.Base.ServerUp | crates/starla-measurements/src/target.rs:899-908 | only a down server changes |
| NameServers.Base.Count | crates/starla-measurements/src/target.rs:877-891 | a retransmission is counted, and set back when it is one too many |
| NameServers.Base.Transmit | crates/starla-measurements/src/target.rs:745-756 | a send that fails marks the server down |
| NameServers.Base.HandOn | crates/starla-measurements/src/target.rs:853-861 | a refusing server goes down and the query goes to the next, unless it is the same |
| NameServers.Base.Retransmit | crates/starla-measurements/src/target.rs:870-891 | the packet again, to the next server, and counted against it |
| NameServers.Base.Hear | crates/starla-measurements/src/target.rs:838-893 | one turn of the query, for each thing a wait can bring |
| NameServers.Base.Ask | crates/starla-measurements/src/target.rs:779-895 | the whole query: servers, head, packets and answer; it ends whatever is heard, with at most max(1, 2 * attempts) packets |
| NameServers.AskedIsBounded | crates/starla-measurements/src/target.rs:825-894 | although a reissue sets the count back, packets stay within what is left of two rounds |
| NameServers.AnswersAreHeard | crates/starla-measurements/src/target.rs:838-843 | an answer comes from some wait, never from nowhere |
| NameServers.SilenceTimesOut | crates/starla-measurements/src/target.rs:863-876 | silence uses every attempt and times out |
| NameServers.ProbeBackoff | crates/starla-measurements/src/target.rs:945-957 | the loop's wait is min(1 h, timeout * 3^k) |
| Resolvers.StepKeepsProbes | crates/starla-measurements/src/target.rs:758-771 | every step keeps one live probe of the present generation for each down server |
| Resolvers.DownServersAreProbed | crates/starla-measurements/src/target.rs:962-993 | in every interleaving a down server has exactly one probe of its present generation |
| ResolverRuns.ProbesBackOff | crates/starla-measurements/src/target.rs:962-993 | in every interleaving a probe that failed k times waits min(1 h, timeout * 3^k) |
| ResolverRuns.RunKeepsQueries | crates/starla-measurements/src/target.rs:798-895 | every run keeps IDs, counters, packets and probe links in order |
| ResolverRuns.QueriesAreBounded | crates/starla-measurements/src/target.rs:665-675 | IDs in flight are distinct, never 0xffff and exactly those of live queries; packets and timeout counts are bounded |
| ResolverRuns.StepsUseFuel | crates/starla-measurements/src/target.rs:825-894 | every step that changes a query uses up its measure: reissues left, then transmissions left |
| ResolverRuns.QueriesMove | crates/starla-measurements/src/target.rs:825-894 | no query is ever stuck |
| ResolverRuns.QueriesEnd | crates/starla-measurements/src/target.rs:825-894 | left to itself a query ends within its measure |
| ResolverAlone.TurnsAlone | crates/starla-measurements/src/target.rs:838-893 | the interleaved model's locked sections, with nothing between them, are one turn of the query by itself |
| TaskSlots.ScheduledTask.constructor | crates/starla-scheduler/src/task.rs:38-58 | a loaded task waits for the first slot after now |
| TaskSlots.ScheduledTask.DrawCycle | crates/starla-scheduler/src/task.rs:103-107 | the first cycle after now, and a fresh offset |
| TaskSlots.ScheduledTask.Next | crates/starla-scheduler/src/task.rs:87-95 | the next cycle, or the first after now when its slot has passed |
| TaskSlots.ScheduledTask.TakeEnd | crates/starla-scheduler/src/task.rs:75-86 | a new end, and a new cycle if the line had stopped too long |
| TaskSlots.ScheduledTask.Poll | crates/starla-scheduler/src/lib.rs:300-304 | what one poll runs, and what is next after it |
| TaskSlots.FirstCycleIsLeast | crates/starla-scheduler/src/task.rs:123-129 | the first cycle after now is the least from 0 on whose slot is after now |
| TaskSlots.NextCycleIsLater | crates/starla-scheduler/src/task.rs:87-95 | the next cycle is later, its slot not before now, and every cycle skipped has passed |
| TaskSlots.EndTimeKeepsCycle | crates/starla-scheduler/src/task.rs:75-86 | a new end never steps the pending cycle back while half the spread is within an interval and the slack |
| TaskSlots.PolledCyclesIncrease | crates/starla-scheduler/src/task.rs:87-107 | a line loaded at any time and polled at any times, however wide its spread: cycles run are strictly increasing, so missed slots are never replayed |
| TaskSlots.WideSpreadRunsTwice | crates/starla-scheduler/src/task.rs:75-95 | with any wider spread, whatever interval and start, a cycle runs twice on a clock that stands still |
| TaskSlots.CycleRunsTwice | crates/starla-scheduler/src/task.rs:75-95 | one line and its events: cycles 1 and 1 |
| TaskSlots.IncreasingIffNarrow | crates/starla-scheduler/src/task.rs:75-107 | for an interval, start and spread, all runs from a load, with any ends and new ends on a clock that does not go back, run strictly increasing cycles if and only if half the spread is within the interval and the slack |
| TaskSlots.CyclesIncrease | crates/starla-scheduler/src/task.rs:87-107 | from any valid state, whatever the clock does: cycles run are strictly increasing and the next run less its offset stays on the slots, for polls alone without any bound, with new ends under the bound above |
| TaskSlots.EveryCycleRunsOnce | crates/starla-scheduler/src/task.rs:61-63 | when half the spread and the longest gap between polls fit in an interval, every cycle from the first to the end runs exactly once |
| PostSlots.PostLine.SetLine | crates/starla-results/src/lib.rs:238-268 | a line is refused for its timing or its URL, which changes nothing, or carried over or begun afresh |
| PostSlots.Slots.constructor | crates/starla-results/src/post_schedule.rs:49-55 | a new line starts at the first cycle |
| PostSlots.Slots.Carry | crates/starla-results/src/post_schedule.rs:61-71 | a repeated line keeps its cycle, and its offset if the spread is the same |
| PostSlots.Slots.Advance | crates/starla-results/src/post_schedule.rs:98-104 | the next cycle, or the first after now when its slot has come |
| PostSlots.Slots.CheckClock | crates/starla-results/src/post_schedule.rs:109-114 | more than ten intervals ahead starts over |
| PostSlots.Slots.LineDeadline | crates/starla-results/src/lib.rs:518-530 | the guard, and then the deadline |
| PostSlots.Slots.TakeDueLine | crates/starla-results/src/lib.rs:533-542 | whether the line runs now, moved on if it does |
| PostSlots.DeadlineIsLeastDue | crates/starla-results/src/post_schedule.rs:83-93 | the deadline is the least time the line is due, it is due from then to its end, and without one never again |
| PostSlots.AdvanceWhenDue | crates/starla-results/src/post_schedule.rs:98-104 | advancing when due gives a larger cycle and a slot after now, skipping only slots that have come, from any cycle, the negative ones of a line loaded before its start too |
| PostSlots.GuardBoundsWait | crates/starla-results/src/post_schedule.rs:109-114 | a clock that went back never stalls a line by more than ten intervals and half its spread |
| PostSlots.TruncationAgrees | crates/starla-results/src/post_schedule.rs:122-127 | the two first-cycle rules agree exactly from the start on, or one to two intervals before it |
| PostSlots.RepeatedLineStays | crates/starla-results/src/post_schedule.rs:57-71 | a line sent again moves neither its cycle nor, with the same spread, its time |
| PostSlots.PostsIncrease | crates/starla-results/src/lib.rs:518-542 | while the clock does not go back and no offset is further back than nine intervals, the guard never steps in and the cycles posted are strictly increasing, the line sent again between passes with any end and spread |
| PostSlots.LoadedWithin | crates/starla-results/src/post_schedule.rs:49-55 | a line loaded at any time, before its start too, begins such a run |
| PostSlots.GuardGoesBack | crates/starla-results/src/post_schedule.rs:106-114 | with any wider spread, cycles 1 to 10 and then 0 are posted while the clock stands still |
| PostSlots.IncreasingIffWithinNine | crates/starla-results/src/post_schedule.rs:83-114 | for an interval, start and spread, all runs on a clock that does not go back, whatever the end and whenever loaded and sent again, post strictly increasing cycles if and only if half the spread is within nine intervals |
| ResultQueues.ResultQueue.EnqueueMeasured | crates/starla-results/src/queue.rs:58-80 | a result goes last, and a full queue drops its oldest |
| ResultQueues.ResultQueue.DrainBatch | crates/starla-results/src/queue.rs:83-86 | the first results, in order, and no other |
| ResultQueues.ResultQueue.DrainAll | crates/starla-results/src/queue.rs:89-91 | all results, in order |
| ResultQueues.ResultQueue.PushFront | crates/starla-results/src/queue.rs:94-136 | results go back in front in their order, and a full queue drops its newest |
| ResultQueues.ResultQueue.RequeueFailed | crates/starla-results/src/queue.rs:94-115 | the same, with an attempt more |
| ResultQueues.ResultQueue.RequeueRefused | crates/starla-results/src/queue.rs:118-136 | the same, with the attempts as they were |
| ResultQueues.ResultQueue.Retain | crates/starla-results/src/queue.rs:139-164 | exactly the results wanted stay, in order |
| ResultQueues.ResultQueue.CleanupExpired | crates/starla-results/src/queue.rs:139-153 | results too old go |
| ResultQueues.ResultQueue.CleanupFailed | crates/starla-results/src/queue.rs:156-164 | results tried too often go |
| ResultQueues.Uploads.Begin | crates/starla-results/src/lib.rs:360-385 | a batch is the whole queue less what was tried too often |
| ResultQueues.Uploads.End | crates/starla-results/src/lib.rs:386-427 | what each answer does to the batch and the queue |
| Pipelines.StepKeeps | crates/starla-results/src/lib.rs:311-337 | every submission, batch, answer and cleanup keeps the order, the account of every result and its attempts |
| Pipelines.DeferredKeeps | crates/starla-results/src/queue.rs:118-136 | a 429 raises no attempts |
| Pipelines.AcceptedInOrder | crates/starla-results/src/lib.rs:360-427 | accepted batches, one after the other, are in submission order without duplicates |
| Pipelines.NothingIsLost | crates/starla-results/src/lib.rs:311-427 | submitted = queued + in flight + accepted + dropped, each result in exactly one |
| Pipelines.AttemptsAreFailures | crates/starla-results/src/queue.rs:94-115 | a result's attempts are the failed batches it was in, at most max_attempts |
| Pipelines.CapacityHolds | crates/starla-results/src/queue.rs:58-80 | the queue stays within its capacity in every run if and only if that is at least 1 |
| Oneoffs.OneoffRouter.Expect | crates/starla-results/src/lib.rs:302-308 | one more ID is expected, the oldest given up beyond 256 |
| Oneoffs.OneoffRouter.Route | crates/starla-results/src/lib.rs:311-325 | a result claims the first expectation of its ID |
| Oneoffs.ExpectationsAreConserved | crates/starla-results/src/lib.rs:302-325 | every expectation of an ID is pending, claimed once or given up |
| Oneoffs.PendingIsBounded | crates/starla-results/src/lib.rs:302-308 | never more than 256 are pending |
| Oneoffs.OneoffIffExpected | crates/starla-results/src/lib.rs:302-325 | in every run a result is a one-off's exactly when its ID was expected more often than claimed and given up together |
| Oneoffs.OneoffWithRoom | crates/starla-results/src/lib.rs:302-325 | while there is room, exactly when it was expected more often than claimed |
| UploadGates.UploadGate.AfterPost | crates/starla-results/src/lib.rs:720-753 | counts, backoff and hold after each answer |
| UploadGates.UploadGate.AfterOneoffs | crates/starla-results/src/lib.rs:713-717 | with nothing queued nothing changes |
| UploadGates.UploadGate.Attempt | crates/starla-results/src/lib.rs:595-655 | a post of each kind, held back or let through and accounted for |
| UploadGates.HoldIs | crates/starla-results/src/lib.rs:777-784 | the hold is max(min(60 * 2^(n-1), 1800), min(Retry-After, 3600)) seconds, so within 60 and 3600 |
| UploadGates.PlainBackoffDoubles | crates/starla-results/src/lib.rs:720-753 | three plain failures in a row hold nothing back; after the n-th, n > 3, the hold is min(2^(n-4), 300) seconds |
| UploadGates.HoldNeverShrinks | crates/starla-results/src/lib.rs:702-753 | hold_until never goes back |
| UploadGates.CountIsRefusals | crates/starla-results/src/lib.rs:720-735 | the count is the 429s since the last success |
| UploadGates.HoldSpacing | crates/starla-results/src/lib.rs:595-655 | after a 429 no post of any kind goes before the hold is over |
| UploadGates.CommentHoldsWhen | crates/starla-results/src/lib.rs:726-731 | the plain backoff does what the comment says exactly after three plain failures or fewer than three failures |
| UploadGates.RefusalsTripTheBackoff | crates/starla-results/src/lib.rs:726-731 | failures after which it does not |
| HostTelemetries.HostTelemetry.CapPending | crates/starla-results/src/host_telemetry.rs:152-159 | the last 64 lines stay |
| HostTelemetries.HostTelemetry.Push | crates/starla-results/src/host_telemetry.rs:61-65 | a line goes last, within the cap |
| HostTelemetries.HostTelemetry.Drain | crates/starla-results/src/host_telemetry.rs:68-71 | all lines are taken |
| HostTelemetries.HostTelemetry.Restore | crates/starla-results/src/host_telemetry.rs:80-88 | lines go back in front, within the cap |
| HostTelemetries.PendingIsLatest | crates/starla-results/src/uploader.rs:239-273 | with no upload in flight, what is pending is exactly the last 64 lines since the last accepted upload drained |
| HostTelemetries.NextUploadCarries | crates/starla-results/src/uploader.rs:239-273 | and the next upload carries them |
| InitReplies.ParseInitResponse | crates/starla-controller/src/ssh.rs:623-744 | the reply a text means, or an error |
| InitReplies.ReadAssignment | crates/starla-controller/src/ssh.rs:645-681 | host and port are those of the last CONTROLLER line with four words, the timer that of the last REREGISTER line, the probe ID the last PROBE_ID line with a number |
| InitReplies.ReadReady | crates/starla-controller/src/ssh.rs:684-711 | port and session ID are those of the last REMOTE_PORT and SESSION_ID lines |
| InitReplies.ReadTimeout | crates/starla-controller/src/ssh.rs:721-733 | the first TIMEOUT line, or a minute |
| InitReplies.RepliesAreKeepable | crates/starla-controller/src/ssh.rs:623-744 | whatever the text, the values of a reply fit in a file of fields |
| SavedState.FieldsOfWritten | crates/starla-controller/src/registration.rs:122-167 | fields with one-line trimmed values are read back as written |
| Registrations.ClampWait | crates/starla-controller/src/registration.rs:46-48 | a wait is kept within 100 s and 28 days |
| Registrations.RegState.NextStep | crates/starla-controller/src/registration.rs:54-70 | the decision of the present state |
| Registrations.RegState.Assign | crates/starla-controller/src/registration.rs:73-78 | an assignment clears the wait and the forced registration |
| Registrations.RegState.TellToWait | crates/starla-controller/src/registration.rs:88-91 | a wait takes over from a forced registration |
| Registrations.RegState.Refused | crates/starla-controller/src/registration.rs:94-100 | a refusal drops all but its reason |
| Registrations.RegState.Render | crates/starla-controller/src/registration.rs:149-167 | the file's text |
| Registrations.Parse | crates/starla-controller/src/registration.rs:122-147 | the state any text gives |
| Registrations.ReloadKeepsStorable | crates/starla-controller/src/registration.rs:102-167 | save and load give the state back, rereg_secs apart, exactly when its strings are trimmed, on one line and the host not empty |
| RegistrationRuns.RestartsAreInvisible | crates/starla-controller/src/registration.rs:54-167 | saves and loads anywhere in a run change no later decision |
| RegistrationRuns.NeverWaitAndForced | crates/starla-controller/src/registration.rs:73-100 | a wait and a forced registration are never both set |
| RegistrationRuns.NoneWhileWaiting | binaries/starla-probe/src/main.rs:1027-1068 | while a wait lasts no registration server is asked, whatever happens |
| RegistrationRuns.WaitsAreKept | binaries/starla-probe/src/main.rs:1027-1170 | after a WAIT or a refusal by a registration server the next request to one comes no sooner than the wait, at least 100 s |
| RegistrationRuns.FileKeepsWaits | binaries/starla-probe/src/main.rs:1027-1170 | the same with the state going through its file at every pass and restart |
| RegistrationRuns.RefusalRegistersAtOnce | binaries/starla-probe/src/main.rs:1328-1345 | a controller's refusal makes the next decision a registration |
| ConKeeps.SessionIsLast | crates/starla-controller/src/registration.rs:191-221 | over any run of sessions, waits, clears, saves and loads, the session to reuse is the one assigned last unless it was cleared or the wait asked for since is not over |
| ConKeeps.NoneBeforeWait | crates/starla-controller/src/registration.rs:191-217 | after a wait no session is reused before its time unless a session was assigned or another wait asked for since |
| ConKeeps.ReloadsAreInvisible | crates/starla-controller/src/registration.rs:191-269 | saves and loads anywhere in a run change neither the session to reuse nor the pending wait |
| ConKeeps.ConKeep.SetReady | crates/starla-controller/src/registration.rs:208-212 | a session, and no wait |
| ConKeeps.ConKeep.SetWait | crates/starla-controller/src/registration.rs:215-217 | a wait, and the session as it was |
| ConKeeps.ConKeep.Clear | crates/starla-controller/src/registration.rs:219-221 | nothing is kept |
| ConKeeps.ConKeep.Render | crates/starla-controller/src/registration.rs:257-269 | the file's text |
| ConKeeps.Parse | crates/starla-controller/src/registration.rs:242-255 | the session any text gives |
| ConKeeps.ReloadKeepsSession | crates/starla-controller/src/registration.rs:223-269 | save and load give the session back exactly when its ID is trimmed and on one line |
| KnownHosts.KnownHosts.Load | crates/starla-controller/src/ssh.rs:233-258 | the hosts any file gives |
| KnownHosts.ReadLines | crates/starla-controller/src/ssh.rs:236-251 | comments, blank and short lines say nothing; a name has the key of its last line, and no other name is known |
| KnownHosts.KnownHosts.Verify | crates/starla-controller/src/ssh.rs:264-328 | a known name's key is compared, a new name's is kept and saved |
| KnownHosts.KnownHosts.Save | crates/starla-controller/src/ssh.rs:306-324 | every host is written once, in some order |
| KnownHosts.LoadOfSave | crates/starla-controller/src/ssh.rs:233-324 | loading what was saved gives the same hosts, whatever the order |
| KnownHosts.StartsInStep | crates/starla-controller/src/ssh.rs:233-258 | whatever a file holds, saving what was loaded from it would keep it |
| KnownHosts.FirstRestartKeeps | crates/starla-controller/src/ssh.rs:302-328 | whichever saves fail, the first restart after a key is kept leaves it if and only if the file already held its name or some new name was saved in between |
| KnownHosts.KeptIffSecured | crates/starla-controller/src/ssh.rs:302-328 | over any number of restarts a key is kept, its name not presented again, if and only if before each one the file held its name or some new name had been saved |
| KnownHosts.KeysStayPinned | crates/starla-controller/src/ssh.rs:264-328 | over any run from any file, restarts and failing saves included: once a key is accepted for a name, the next one presented for it is accepted if and only if it has the same blob or a restart in between found no key of that name in the file; and while no restart does, exactly the keys with that blob are |
| KnownHosts.SavedKeysStayPinned | crates/starla-controller/src/ssh.rs:264-328 | when every save succeeds, exactly the keys with the accepted blob are accepted for the name ever after |
| KnownHosts.UnsavedPinIsForgotten | crates/starla-controller/src/ssh.rs:315-323 | a run that does forget: the save of a first key fails, the program restarts, and another key is accepted for the name |
| ControlMessages.Write | crates/starla-network/src/wsacmsg.rs:43-51 | a message's bytes: length, level, kind, data, padding |
| ControlMessages.RecvMeta | crates/starla-network/src/wsacmsg.rs:59-90 | over any bytes the walk stays in bounds and ends, and gives the last hop limit and destination of the messages it sees |
| ControlMessages.WalksAgree | crates/starla-network/src/wsacmsg.rs:59-90 | a buffer has one walk |
| ControlMessages.CutKeepsWhole | crates/starla-network/src/wsacmsg.rs:43-90 | a list of messages cut at any byte is walked up to the last one whose unpadded bytes are all there |
| ControlMessages.TruncatedMeta | crates/starla-network/src/wsacmsg.rs:59-90 | so the answer is the last-wins one over exactly those messages |
| ControlMessages.SeenIsThere | crates/starla-network/src/wsacmsg.rs:59-90 | for any bytes, every message seen is in the buffer where the layout puts it |

## Left out

- Session lines are bytes taken as characters 0 to 255: replacing malformed UTF-8 (`from_utf8_lossy`) is not modelled.
- `parse_command` is a parameter of the session: what a command line becomes is not modelled, only which lines are handed to it and what is done with its result.
- Prompts and replies are written as literal strings; the reader of them is not modelled, and neither is a failed write, which the program ignores.
- A session's locked and awaited sections are one step a line; the order of two sessions within one line is not modelled.
- A connection is told how many lines it takes before it sees a newer session; that sessions tell each other is in `TakeOvers`, with a line as one step. A newer session seen while it waits for a read ends it as the end of its input would.
- Cancellation and shutdown, logging, metrics, pausing, SSH, HTTP, sockets and DNS packet formats.
- NameServers.Base.Ask: a wait is one thing heard; when its deadline falls, and which datagrams are dropped within it, are not modelled. A name that cannot be put in a packet ends a query that has its ID; one that is no ASCII name ends it before, and is not modelled.
- NameServers.Base.Pick: the servers stand still while one is picked, here and in `Resolvers`; what may happen between two looks is in `Looking`.
- NameServers.Base.PickUp: the same.
- Resolvers.DownServersAreProbed: a probe is live until its own step ends it; the runtime dropping all tasks when the resolver is dropped is not modelled.
- Saturating and wrapping integer arithmetic at the ends of i64 in slots and counters: values are unbounded, and the registration clock must leave room for the longest wait.
- TaskSlots.EveryCycleRunsOnce: polls are the scheduler's ticks with a longest gap; a run that is still going does not delay its line.
- Pipelines.NothingIsLost: results carry a serial number of their own so that two equal results can be told apart; the program has none.
- The one-off queue is drained, posted and put back as the main one (`upload_oneoffs`), so the queue's model is its model too; that an empty batch is not posted there is as if it were accepted.
- UploadGates.UploadGate.Attempt: ticks are given; that the loop's timers fire in order is not modelled.
- RegistrationRuns.WaitsAreKept: saves are taken to succeed and the clock not to go back; the loop's own pauses, after a failed connection or a controller's refusal, are not modelled.
- KnownHosts.KeysStayPinned: names without blanks or a leading `#`, and keys whose type and blob are single words, as SSH has them.
- ControlMessages.Write: 64-bit words, lowest byte first, as on the platform the file is for.
- The individual options of measurements, the measurement engines, the tray, packaging and configuration are not modelled.
