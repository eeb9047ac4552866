# cmdDaemon: a verified model of the restart supervisor

cmdDaemon starts the commands of a configuration file, restarts each one when it exits, spaces the restarts
exponentially, gives a command up when its restart limit is spent, and replaces all commands on SIGHUP. This
project models that supervisor in Dafny and proves what it guarantees over whole runs, for any number of commands
and any interleaving of its goroutines.

## How the model is built

- `Limiter.dfy`: the restart limiter, with 64-bit duration arithmetic, as a value and as a class.
- `Supervisor.dfy`: the reference. The life of one command that has the daemon to itself, as a log of events and a
  small automaton that replays it. It knows no channel, no goroutine and no other command.
- `Machine.dfy`: the daemon as a step machine. State: the clock, where `main` is, every command ever made, one context,
  channel and consumer per generation, every goroutine with the point it has reached, the restart counters.

  | step | what it is in the source |
  |---|---|
  | `Enter` | a goroutine evaluates `d.exitedCmdCh` and calls `startAndWait` (daemon/daemon.go:133, 148) |
  | `LogFails` | the log directory or file cannot be opened (daemon/daemonCmd.go:71-87) |
  | `Starts`, `StartFails` | `Start` returns (daemon/daemonCmd.go:98-110) |
  | `WaitReturns` | `Wait` returns, cleanly or not (daemon/daemonCmd.go:112-117) |
  | `CheckCtx` | the select on the command's own context (daemon/daemonCmd.go:102-107, 119-124) |
  | `Send` | the send, a separate step: it blocks on a full channel and panics on a closed one |
  | `Arm`, `Receive`, `Return` | the loop of `Run` enters its select, takes a command, or returns (daemon/daemon.go:103-115) |
  | `SetTimer` | a back-off goroutine reads `d.ctx` and `next()` and waits (daemon/daemon.go:115-120) |
  | `Abandon`, `Fire` | its select takes the context, or the timer even if both are ready (daemon/daemon.go:117-138) |
  | `ResetOne` | the ticker resets one limiter (daemon/daemon.go:153-157) |
  | `Cancel` | the SIGHUP branch cancels the context (main.go:327) |
  | `Close` | `d.DCmds` is emptied and the channel closed (daemon/daemon.go:161-163) |
  | `Drain` | one message is taken out of the closed channel (daemon/daemon.go:164-167) |
  | `NewChannel`, `NewContext` | `d.exitedCmdCh`, then `d.ctx`, are replaced (daemon/daemon.go:169-170) |
  | `Install` | the new commands are appended, and `Run` starts (daemon/daemon.go:171-174, main.go:367) |
  | `Tick` | time passes |

- `Invariant.dfy`, `Tokens.dfy`, `Lifetimes.dfy`, `Realizing.dfy`: the invariant of every run, and the refinement in
  both directions: the projection of a run onto a command is a legal life of the reference, and every legal life is
  such a projection.
- `Draining.dfy`, `Settling.dfy`: what is left after the cancellation, and how it comes to rest.
- `Histories.dfy`, `Channels.dfy`: what a run alone tells about a command line, an error and a channel.
- `LateStarts.dfy`: which commands can still be started after the cancellation.
- `Reloading.dfy`: when a reload is safe, and what it installs. `Capacity.dfy`, `Jamming.dfy`: the bounded channel.
- `Weaving.dfy`, `Resetting.dfy`: code of several statements with other goroutines acting after each of them.
- `Daemon.dfy`: the classes `DaemonCmd` and `Daemon`. Each method is a piece of Go code between two points where
  another goroutine may act and is proved to make exactly one step of the machine; `Play` performs any run, and
  `Reload` and `ResetLimiter` are the whole functions with arbitrary runs of the others between their statements.
- `Main.dfy`: the signal loop. `Discovery.dfy`: the service discovery view.
- `Sorting.dfy`, `Hashing.dfy`, `Exec.dfy`, `Identity.dfy`: the hash that names a command, and what restarts do to it.
- `Config.dfy`: configuration entries and the defaults filled into their annotations.

The field `hist` of the machine (and of `Daemon`, where it is ghost) records where each command's token is and what
happened to the command. No step reads it: with any other history the same steps can be taken, and they lead to the
same state but for the history (`Invariant.HistoryIsNotRead`).

## Assumptions

- The clock never goes back, and its readings are positive; 0 stands for Go's zero time.
- Field reads and writes are atomic, the unlocked read of `next()` at daemon/daemon.go:120 included. A select reads
  `d.ctx` and `d.exitedCmdCh` in one step. A fired timer, `update` and `Inc` are one step; so are the loop of `Reload`
  that appends the commands and the start of `Run`. `Run` is called once per generation.
- Outcomes of `Start`, `Wait`, opening the log file and timing are arbitrary. A limiter may be reset at any time.
- Errors are reduced to their kind (log, start, wait); the texts are not modelled.
- `exec.Command` keeps a name that contains a separator; a lookup of a plain name fails and leaves the name, or ends
  in a path with a separator.
- A float64 power outside the range of int64 converts to the least int64, as Go does on amd64.

## Where the code falls short of what it promises

- A reload is meant to be safe after `cancel()`, but nothing waits for the old goroutines. A reload after the
  cancellation can be followed by a send on the closed channel or by a nil command received from it, and the daemon
  panics (`ReloadAfterCancelCanCrash`). It cannot happen exactly when the reload begins with no goroutine past its
  context check and with every consumer returned (`ReloadCrashesIffNotQuiescent`). A consumer between two turns of its
  loop is enough for a panic: it may reach its select while the channel is closed and not yet replaced. So is a sender
  left over from an earlier reload.
- With at most 20 commands every run that is left to go on until it can go no further comes to such a moment, unless a
  goroutine with an already closed channel in hand crashes it (`MaximalRunsQuiesce`, `SmallGenerationsQuiesce`). With
  more than 20 it may never come: senders can be stuck behind a full channel that nobody reads (`QuiescenceIffFits`).
- "No start after the cancellation" is false (`LateStartHappens`). It is true exactly of the commands that have a live
  or just exited process, or are out of supervision, at the cancellation (`CancelStopsIff`); so the processes that
  `main` kills are not started again (`KilledStaysDown`). In every later state the answer depends on where the
  command's token is and on whether a consumer is left (`StartsAgainIff`). There is at most one such start per command.
- A plain command name gives way to the path it is found at after restarts (`CommandLineIsStableIff`), and for every
  such command line there is a path with which the hash changes too (`HashIsStableIff`); so the hash does not stay the
  key under which the configured command is found.
- The test in `Limiter.add` compares the last restart with the next one, not with the clock, so it never spaces
  anything; the spacing comes from the wait before it. With a limit of 34 or more the delay overflows after 34
  restarts, and the limiter refuses every change (`RangeRuleHoldsIffLimitAtMost33`).
- A configuration without commands is rejected, but only after it has replaced the global one (`Process.InitConf`).
- `Reload` does not apply the log directory again, so exactly the commands of the first generation write a log
  (`LogsIffFirst`).

## Model

| member | source | states |
|---|---|---|
| Limiting.DelayIsProduct | daemon/limiter.go:64 | the delay, defined by doubling, is the 64-bit product of 2^count (as converted from float64) and the interval, overflow included |
| Limiting.DelayExact | daemon/limiter.go:60-65 | within the bound, the 64-bit delay is exactly 2^count intervals and positive, so nothing overflows |
| Limiting.SecondFits | daemon/limiter.go:23-24 | with the one-second interval the bound is met exactly by limits up to 33 |
| Limiting.AddAcceptsIff | daemon/limiter.go:33-46 | for every limiter, overflowing or not: a change is accepted exactly when the limiter is unused or its delay is positive, and the count stays in range |
| Limiting.AddAcceptsExactlyInRange | daemon/limiter.go:33-46 | within the bound the interval test never rejects; acceptance is the range test alone |
| Limiting.RangeRuleHoldsIffLimitAtMost33 | daemon/limiter.go:36-42 | the range rule holds after every sequence of operations if and only if the limit is at most 33 |
| Limiting.CountStaysInRange | daemon/limiter.go:29-57 | over every sequence of Inc, Dec and Reset, 0 <= count <= limit, and count is the accepted increments minus the accepted decrements since the last reset |
| Limiting.Limiter.Next | daemon/limiter.go:60-65 | the object computes the specified next start time |
| Limiting.Limiter.AddN | daemon/limiter.go:33-46 | the object accepts and changes exactly as the specification the laws above are about |
| Limiting.Limiter.ResetCount | daemon/limiter.go:52-57 | count and last time are cleared, limit and interval stay |
| Supervisor.Accounting | daemon/limiter.go:33-57 | in every legal life the limiter's count equals the number of restarts granted since the last reset |
| Supervisor.StartsAreGranted | daemon/daemon.go:124-133 | every start attempt but the first was paid for by one granted restart |
| Supervisor.RestartBudget | daemon/limiter.go:37-42 | r resets allow at most limit (r + 1) restarts and one more start attempt |
| Supervisor.SpacingInvariant | daemon/daemon.go:120 | consecutive grants since a reset are at least 2^i intervals apart, and the pending wake time continues the series |
| Supervisor.ExponentialSpacing | daemon/daemon.go:115-133 | the n-th restart since a reset comes no earlier than the first plus (2^n - 2) intervals |
| Supervisor.GivesUpLate | daemon/daemon.go:136-138 | giving up happens only with the whole budget spent, no earlier than the first restart plus (2^(limit+1) - 2) intervals |
| Supervisor.AtMostOneLateStart | daemon/daemonCmd.go:98-124 | after the cancellation a command is started at most once more and has at most five more events |
| Supervisor.LateStartIff | daemon/daemon.go:116-133 | a cancelled command can be started once more if and only if it is about to be started, or on its way to or in the back-off with a limit of at least one |
| Supervisor.WhyItEnded | daemon/daemon.go:117-138 | a command is given up, without log, or stopped exactly when its log holds the refusal, the log failure or the stop; a stop needs the cancellation |
| Supervisor.EndIsFinal | daemon/daemon.go:136-138 | each of these ends is final under every further event, limiter resets included |
| Invariant.StepKeeps | daemon/daemon.go:103-175 | every step of every goroutine and every statement of a reload keeps the invariant: tokens, channels, command fields and reference agree |
| Invariant.RunKeeps | daemon/daemon.go:46-143 | the invariant holds in every state of every run |
| Tokens.TokenUniqueness | daemon/daemon.go:109-150 | in every reachable state a command is held by at most one goroutine or one channel slot, and has at most one live process |
| Tokens.GenerationIsolation | daemon/daemon.go:160-175 | a channel never holds more than 20 commands, holds only commands of its own generation, and nothing once closed and drained |
| Tokens.StatusIsTruthful | daemon/daemonCmd.go:110-117 | Status is Running exactly while a process lives; Err is nil from launching until the process ends |
| Tokens.ErrorTellsTheEnd | daemon/daemonCmd.go:73-86 | a given-up command has no error and one that lost its log file keeps that error, in every later state |
| Tokens.RestartCountersAgree | daemon/daemon.go:124-132 | each restart counter equals the restarts granted to all commands of all generations with its label values |
| Tokens.CountersAreShared | daemon/daemon.go:124-132 | two commands share a restart counter if and only if their name, port, hostname, ip and app annotations agree |
| Tokens.RestartIsCounted | daemon/daemon.go:124-132 | a granted restart raises by one the counter of exactly the commands with the same five annotations, a refusal none |
| Lifetimes.LifeIsLegal | daemon/daemon.go:103-150 | the life of every command is legal, and limiter, status, error and context agree with it |
| Lifetimes.StepRecords | daemon/daemonCmd.go:67-125 | a step adds to each life exactly the event that it is for that command, as told from step and state without the history |
| Lifetimes.LifeIsTheProjection | daemon/daemon.go:103-150 | in every reachable state the life of a command is the projection of the run onto it |
| Lifetimes.ProjectionIsLegal | daemon/daemon.go:103-150 | erasing everything but one command from any run leaves a legal life of the one-command supervisor |
| Lifetimes.OthersDoNotInterfere | daemon/daemon.go:103-143 | a step that does not concern a command changes nothing about it |
| Lifetimes.ChannelIsInvisible | daemon/daemon.go:103-115 | sending, receiving, the steps of a consumer and the replacement of the channel leave no trace in any command or life |
| Lifetimes.OneEventPerStep | daemon/daemonCmd.go:67-125 | every other step that concerns a command is exactly one event, the one told by the step, stamped with the clock |
| Lifetimes.NoCommandIsLost | daemon/daemon.go:124-138 | while its context lives a command is unsupervised if and only if it was refused a restart or lost its log file |
| Lifetimes.EndIsAbsorbing | daemon/daemon.go:136-138 | an unsupervised command stays so and is never started again, through all later resets and reloads |
| Lifetimes.DaemonRestartBudget | daemon/limiter.go:33-57 | in the daemon, r resets allow at most 5 (r + 1) restarts, and the count is the restarts since the last reset |
| Lifetimes.DaemonSpacing | daemon/daemon.go:115-133 | in the daemon, the n-th restart since a reset comes at least 2^n - 2 seconds after the first |
| Lifetimes.WakesAfter2ToTheN | daemon/daemon.go:115-120 | a timer set after n restarts since a reset rings exactly 2^n seconds after the last of them |
| Lifetimes.FirstTimerRingsAtOnce | daemon/limiter.go:60-65 | with no restart since a reset the timer rings at once |
| Lifetimes.GivesUpAfter62Seconds | daemon/daemon.go:136-138 | the daemon gives a command up only after five restarts, at least 62 seconds after the first |
| Lifetimes.AtMostOneStartAfterCancel | daemon/daemonCmd.go:98-124 | once its context is cancelled a command is started at most once more, in any run |
| Histories.RestartRebuilds | daemon/daemonCmd.go:56-63 | a timer that wins, granted or refused, makes the last path the name in front of the same arguments, looks a plain name up anew, and clears the error |
| Histories.CommandLineIsRebuilt | daemon/daemon.go:120-123 | in every reachable state the command line is the configured one rebuilt once for each timer that won, with the lookups of the run in order |
| Histories.ErrorIsTheLastOutcome | daemon/daemonCmd.go:67-125 | in every reachable state Err is the outcome of the last attempt: log, start or wait failure, nil after a clean exit or a won timer |
| Channels.ChannelIsFifo | daemon/daemon.go:103-115 | over every run the commands sent to a channel are those taken from it, in the same order, followed by those still in it |
| Channels.LatestIsRead | daemon/daemon.go:104-148 | outside a reload launching, timers and consumers use the last channel and the last context, also for commands of earlier generations |
| Channels.RenewingReadsBoth | daemon/daemon.go:169-170 | between the two assignments of a reload they use the new channel and the old context |
| Realizing.LivesAreExactlyTheLegalOnes | daemon/daemon.go:103-150 | a command of the first generation lives exactly the legal lives: every one happens in some run, and no other does |
| Realizing.ReloadedLivesAreExactlyTheLegalOnes | daemon/daemon.go:160-175 | the same for every command that a reload installs, after any run; it has no log file to lose |
| Realizing.LateStartHappens | daemon/daemon.go:116-133 | the one start after the cancellation does happen in some run |
| LateStarts.StartsAgainIff | daemon/daemon.go:103-143 | in every reachable state under a cancelled context: some run starts the command again if and only if its goroutine is before Start or in the back-off, or it is in or about to enter the current channel and a consumer is left to take it |
| LateStarts.KilledStaysDown | main.go:327-360 | a command whose process lives or has just ended when its context is cancelled is never started again, through all later reloads |
| LateStarts.CancelStopsIff | main.go:327 | at the cancellation a command in force can be started once more if and only if it is supervised and has no live or just exited process |
| Draining.TokenStepDescends | daemon/daemonCmd.go:98-124 | in a cancelled generation every step of a command's token lowers its rank, the timer winning the select included |
| Draining.DrainIsLinear | daemon/daemon.go:115-134 | from the cancellation on every run has at most eight steps per command of the generation |
| Reloading.ReloadCrashesIffNotQuiescent | daemon/daemon.go:160-175 | in every reachable state: once a reload begins, and until the next one, some run sends on a closed channel or takes nil from it if and only if it began with a sender past its check or a consumer not returned |
| Reloading.CrashIffDanger | daemon/daemon.go:104-109 | outside a reload, some run crashes before the next one if and only if a sender or a consumer has a closed channel in hand |
| Reloading.QuietReloadsNeverCrash | main.go:327-367 | over any number of reloads that begin quiescent, whatever the others do between their statements, the daemon never touches a closed channel |
| Reloading.ReloadAfterCancelCanCrash | main.go:327-367 | from every start there is a run in which a reload after the cancellation panics |
| Reloading.SendersOnlyShrink | daemon/daemonCmd.go:119-124 | from the cancellation to the end of the reload no goroutine newly gets past its context check |
| Reloading.LastReloadIsInForce | daemon/daemon.go:160-175 | after any run that is outside a reload the generation in force is exactly the entries of the last one, in order |
| Reloading.ReloadInstalls | daemon/daemon.go:169-174 | a reload leaves old commands alone, ends with an empty open channel under a live context, and installs the entries in order |
| Reloading.ReloadStartsAfresh | daemon/daemon.go:171-174 | each new command is exited, has no error, no log directory and a fresh limiter, and is about to be started |
| Reloading.LogsIffFirst | daemon/daemon.go:171-174 | in every reachable state exactly the commands of the first generation have a log directory |
| Capacity.NeverFullForSender | daemon/daemon.go:37 | with at most 20 commands a sender always finds room, because tokens are unique |
| Capacity.SenderNeverBlocks | daemon/daemonCmd.go:119-124 | with at most 20 commands, in every reachable state a sender can send |
| Capacity.NeverStuck | daemon/daemon.go:103-141 | while its context lives a supervised command always has a next step: its own, its process's, its timer's or its consumer's |
| Settling.TokenCanStep | daemon/daemonCmd.go:98-124 | after the cancellation a token that is neither queued nor behind a full channel can always step, or crash on a closed channel |
| Settling.BusyStepsAreBounded | daemon/daemon.go:103-141 | after the cancellation every run has at most 16 steps per command and two per consumer, besides time and resets, and one more if it crashes |
| Settling.MaximalRunsQuiesce | main.go:327-367 | every run of a cancelled generation of at most 20 commands that can go no further has crashed or come to a state in which the reload is safe; it has not crashed if nobody had a closed channel in hand |
| Settling.RestLeavesNoGoroutine | daemon/daemonCmd.go:98-124 | at rest, with at most 20 commands, no goroutine works for any command: the only tokens left are in the current channel |
| Settling.QuiescenceStays | daemon/daemonCmd.go:119-124 | a cancelled daemon that is ready for its reload stays ready until the reload begins |
| Settling.SmallGenerationsQuiesce | main.go:327-367 | a cancelled generation of at most 20 commands can come to a state in which the reload is safe if and only if no goroutine is about to send on a channel closed earlier |
| Settling.QuietDaemonsQuiesce | main.go:303-369 | so a daemon whose reloads began quiescent can always be brought to its next safe reload |
| Jamming.BlockedForever | daemon/daemonCmd.go:119-124 | a sender behind a full channel whose consumers have returned stays there until a reload begins |
| Jamming.QuiescenceIffFits | daemon/daemon.go:37 | a generation just started, whatever older ones left behind as long as nobody has a closed channel in hand, can once cancelled always come to a safe reload if and only if it has at most 20 commands |
| Jamming.FirstQuiescesIffFits | main.go:149-172 | that holds for the first generation |
| Jamming.ReloadedQuiescesIffFits | daemon/daemon.go:160-175 | that holds for the generation of every reload, after any number of reloads that began quiescent |
| Daemons.DaemonCmd.constructor | daemon/daemonCmd.go:46-53 | a new command is exited, without error or log directory, with a limiter of its own |
| Daemons.DaemonCmd.TryRestart | daemon/daemon.go:122-124 | the last path becomes the name before the same arguments, a plain name is looked up, the error is cleared and the limiter asked; together the restart effect of the machine |
| Daemons.DaemonCmd.CmdHash | daemon/daemonCmd.go:130-132 | the hash of the command line in force |
| Daemons.Daemon.constructor | daemon/daemon.go:34-43 | the first generation of objects is an initial state of the machine |
| Daemons.Daemon.WithCmdLogDir | daemon/daemon.go:231-240 | every command gets the log directory and nothing else changes in it |
| Daemons.Daemon.Enter | daemon/daemon.go:146-150 | the goroutine takes the channel in force now; refines the machine's step |
| Daemons.Daemon.OpenLogFails | daemon/daemonCmd.go:71-87 | a log failure ends the attempt without a send; refines the machine's step |
| Daemons.Daemon.Start | daemon/daemonCmd.go:98-110 | both outcomes of Start refine the machine's steps |
| Daemons.Daemon.WaitReturns | daemon/daemonCmd.go:112-117 | the exit, clean or not, refines the machine's step |
| Daemons.Daemon.CheckContext | daemon/daemonCmd.go:118-124 | stops, or goes on to the send, by the command's own context; refines the machine's step |
| Daemons.Daemon.Send | daemon/daemonCmd.go:123 | enqueues or panics; refines the machine's step |
| Daemons.Daemon.Receive | daemon/daemon.go:109-115 | spawns the back-off goroutine of the channel's head, or panics on nil; refines the machine's step |
| Daemons.Daemon.SetTimer | daemon/daemon.go:116-120 | the wake time is the limiter's next; refines the machine's step |
| Daemons.Daemon.Fire | daemon/daemon.go:120-139 | restart and count, or give up; refines the machine's step |
| Daemons.Daemon.ResetLimiter | daemon/daemon.go:153-157 | every command in force at the call is reset at least once more, with any runs of the other goroutines, reloads included, between the resets; with none, exactly their limiters are as new |
| Resetting.EveryOneIsReset | daemon/daemon.go:153-157 | whatever happens in between, each of the commands has at least one more reset in its life |
| Resetting.ResetAloneClears | daemon/daemon.go:153-157 | when nothing happens in between, count and last time of exactly these commands are cleared and nothing else changes |
| Daemons.Daemon.CloseChannel | daemon/daemon.go:161-163 | emptying the list and closing refine the machine's step |
| Daemons.Daemon.DropOne | daemon/daemon.go:164-167 | a message taken out is dropped with its command; refines the machine's step |
| Daemons.Daemon.RenewChannel | daemon/daemon.go:169 | the new channel under the old context; refines the machine's step |
| Daemons.Daemon.RenewContext | daemon/daemon.go:170 | the new context; refines the machine's step |
| Daemons.Daemon.Install | daemon/daemon.go:171-174 | new objects for exactly the entries, in order, and the start of Run refine the machine's step |
| Daemons.Daemon.Reload | daemon/daemon.go:160-175 | the whole function, with any runs of the other goroutines between its statements, ends where the machine does; the drain loop ends with the channel empty |
| Daemons.Daemon.Play | daemon/daemon.go:46-175 | the objects can perform every run of the machine and end in the same state |
| Daemons.Daemon.GetDCmdByCmd | daemon/daemon.go:208-216 | returns the first command with the hash, and nil exactly when there is none |
| Daemons.LookupSucceeds | daemon/daemon.go:208-216 | in every valid daemon the configured command line of a command named by a path has that command's hash |
| Daemons.Daemon.GetRunningCmdLen | daemon/daemon.go:198-206 | the number of positions whose command is running |
| Daemons.Daemon.GetExitedCmdLen | daemon/daemon.go:188-196 | the number of positions whose command is exited |
| Daemons.HowManyCounts | daemon/daemon.go:188-206 | each of the two counts is the number of positions with that status |
| Daemons.RunningAreAlive | daemon/daemon.go:198-206 | in every valid daemon the running count is the number of commands in force with a live process |
| Daemons.RunningPlusExited | daemon/daemon.go:188-206 | the two counts always sum to the number of commands |
| MainLoop.Process.InitConf | main.go:414-426 | succeeds exactly on a non-empty parsed file; an empty one is refused after it has replaced the global configuration |
| MainLoop.Process.LoadCmds | main.go:305-325 | succeeds exactly on a parsed file with a command, and then gives one well-formed command per entry, in order, with its name, its arguments and filled annotations |
| MainLoop.Process.Hangup | main.go:303-369 | all or nothing: a rejected file changes nothing in the daemon, an accepted one is cancellation, other goroutines, and a reload interleaved with them, with one command per entry |
| MainLoop.HangupRunsTheFile | main.go:303-369 | a parsed file with a command is put in force: command i has exactly the name and arguments of entry i and keeps its annotations, also after restarts |
| MainLoop.BadFilesChangeNothing | main.go:305-325 | an unreadable, malformed or empty file changes nothing in the daemon |
| MainLoop.ReloadServes | daemon/daemon.go:160-175 | however the other goroutines act between its statements, a reload that runs through puts its entries in force |
| MainLoop.Process.Serve | main.go:290-380 | the loop brings the daemon to the specified outcome of the whole signal sequence; SIGTERM and the end of the web server leave it and cancel |
| MainLoop.LeavingCancels | main.go:290-380 | SIGTERM and the end of the web server cancel the context in force, and no later signal is handled |
| MainLoop.HangupIsARun | main.go:303-369 | an accepted file makes exactly the run of cancellation, other goroutines, and the statements of the reload with the others in between |
| MainLoop.OutcomeIsARun | main.go:290-380 | whatever signals arrive, the loop makes a run of the machine, so everything proved of runs holds of it |
| MainLoop.LastAcceptedIsInForce | main.go:303-369 | over any signal sequence the generation in force is the last accepted configuration |
| Discovery.TargetsAreTheListed | daemon/httpsd.go:22-41 | the response is, in order, one group for each running command with ip, port and metrics path, and nothing else |
| Discovery.TargetsAreTheResponse | daemon/httpsd.go:22-41 | the same in terms of the annotation maps: which keys must be there, what target and labels contain |
| Discovery.HttpSD | daemon/httpsd.go:18-48 | the response has, in order, one group for each running command with an address: the target ip:port, and the five labels with their values |
| Discovery.ListedIffAlive | daemon/httpsd.go:22-41 | in every state of the daemon the response lists exactly those commands in force that have a live process and non-empty metricsPath, ip and port |
| Discovery.ListedAreInForce | daemon/httpsd.go:23 | the commands looked at are exactly those of the generation in force, and none inside a reload |
| Sorting.SortPermutes | internal/tool/tools.go:104 | sorting permutes and puts in byte order |
| Sorting.SortIgnoresOrder | internal/tool/tools.go:104 | two lists sort to the same list if and only if they are permutations of each other |
| Sorting.LessIsByteOrder | internal/tool/tools.go:104 | one string is before another if and only if it is a proper prefix or smaller at the first byte that differs |
| Sorting.SortOrders | internal/tool/tools.go:104 | sorting keeps every element and leaves none after a larger one in that order |
| Sorting.SortStrings | internal/tool/tools.go:102-104 | the in-place sort permutes the array into ascending byte order |
| Hashing.RoundIsBijective | internal/tool/tools.go:106-109 | for a fixed byte the FNV-1a round is a bijection on the 64-bit states, with the stated inverse |
| Hashing.RoundTellsBytes | internal/tool/tools.go:106-109 | for a fixed state the round is injective in the byte |
| Hashing.FnvOfConcat | internal/tool/tools.go:107-109 | hashing in pieces is hashing the concatenation |
| Hashing.HexIsInjective | internal/tool/tools.go:111 | the printed hash determines the number |
| Hashing.HexReadsBack | internal/tool/tools.go:111 | the printed hash consists of lower-case digits that read back in base 16 as the number, without leading zeros |
| Hashing.XorBits | internal/tool/tools.go:106-109 | the exclusive or of the round, bit by bit |
| Hashing.PublishedValues | internal/tool/tools.go:106-109 | the published 64-bit FNV-1a values of the empty string and of "a" |
| Hashing.SplitUndoesJoin | internal/tool/tools.go:109 | on tokens without spaces splitting undoes joining |
| Hashing.HashIgnoresArgumentOrder | internal/tool/tools.go:90-112 | permuting the arguments changes neither key nor hash |
| Hashing.KeyDeterminesCommand | internal/tool/tools.go:100-109 | on tokens without spaces two keys are equal if and only if name and argument multiset are |
| Hashing.OneByteChangesHash | internal/tool/tools.go:90-112 | keys of equal length that differ in exactly one byte always have different hash strings |
| Hashing.HashOfMany | internal/tool/tools.go:100-111 | name, space and the sorted arguments joined by spaces are hashed one after the other |
| Hashing.Hasher.Write | internal/tool/tools.go:106-109 | streaming a string advances the state by the hash function of the whole string |
| Hashing.HashCmd | internal/tool/tools.go:90-112 | both branches hash the name and the arguments, sorted ascending and joined by spaces; nil and empty commands hash to the empty string |
| Identity.CommandLineChangesAtMostOnce | daemon/daemonCmd.go:56-63 | over any number of restarts the command line and its hash change at most once |
| Identity.CommandLineIsStableIff | daemon/daemonCmd.go:56-63 | the command line survives all restarts if and only if the configured name contains a separator or is empty |
| Identity.HashIsStableIff | daemon/daemonCmd.go:130-132 | the hash of a configured command line survives all restarts, whatever path its name was found at, if and only if the name contains a separator or is empty |
| Identity.ConfiguredCommandIsFound | daemon/daemon.go:208-216 | in every reachable state a command configured by a path has its configured command line, and a first match for it exists in the generation in force |
| Config.VisitorsCommute | config/config.go:70-72 | the three visitors commute pairwise under a fixed host |
| Config.DefaultingIsIdempotent | config/config.go:93-153 | filling the defaults twice is filling them once |
| Config.DefaultsRespectTheUser | config/config.go:93-153 | no non-empty annotation changes, only the three keys are touched; a missing host name or address becomes that of the host, if it has one, and a missing name the base of the command |
| Exec.BaseIsTheLastElement | config/config.go:139-153 | the default name is the last element of the command path, "." for an empty one, "/" for separators only |
| Config.CommandLineAsConfigured | config/config.go:75 | a built command has exactly the configured name and arguments; a name with a separator is its path |
| Config.GeneratingTwiceIsGeneratingOnce | config/config.go:62-79 | generating again from the filled configuration changes neither it nor the commands |
| Config.WithHostName | config/config.go:93-111 | the in-place loop fills the host name of every entry, or nothing when the host has none |
| Config.WithIP | config/config.go:113-137 | the in-place loop fills the address of every entry, or nothing when a lookup fails |
| Config.WithName | config/config.go:139-153 | the in-place loop fills the base name of every entry's command |
| Config.GenerateCmds | config/config.go:62-79 | the configuration is filled in place; command i has exactly the name and arguments of entry i, and annotations are index-aligned with it |

## Left out

- HTTP routes, gin, go-kit endpoints, JSON encoding, Prometheus registration and swagger: plumbing without state; only
  the restart counters are kept.
- register/ (Consul client, services, templates): network I/O.
- config/coordinator.go: not used by `main`, and its `Reload` locks a mutex it already holds.
- Processes, signals, log files and forking: outcomes are arbitrary. The kills of the SIGHUP and SIGTERM branches are
  part of the schedule that runs between cancellation and reload.
- YAML parsing: a file is unreadable, malformed or a list of entries. Time zones affect printing only.
- Shell helpers (`killcmd`, `GitPull`, `PidAddr`, `IpFromHostname`): text scraping; a host lookup is a parameter.
- The status printer of `Run`: it reads and logs.
- Locks and data races: reads and writes are atomic steps.
- Interleavings inside the loop of `Reload` that appends commands: the commands and the start of `Run` are one step.
- Aliasing of annotation maps between `Conf` and `DaemonCmd`: maps are values, so the model does not show a later
  default written through a shared map. `main` fills each configuration once, before it hands the maps over.
- Daemons.Daemon.Reload: for a context that has been cancelled, as `main` does before every call. Without that, commands
  of the old generation would go on to send on the closed channel.
- MainLoop.Process.Serve: the signals, and what the goroutines do between them, are given as a sequence.
