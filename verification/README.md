# A verified model of frkrup

`frkrup` brings a traffic-mirroring stack up and down, on one machine (Docker
Compose and two gateway processes) or on Kubernetes. This project models the
two parts of it that carry control logic and proves what they promise.

**Shutdown.** `CleanupLocal` starts four goroutines over one configuration, a
`WaitGroup`, a channel of capacity four and a 15 s context; below it a gateway is
killed by escalation (SIGTERM, 3 s, three rounds of SIGKILL). `main` and
`setupLocal` acquire Docker and two gateways and release them on error paths, in
a deferred function and in a signal handler that runs a second `CleanupLocal`
concurrently.

| file | content |
|---|---|
| `KillEscalation.dfy` | one kill: a state machine and what holds on all its traces |
| `KillCommand.dfy` | the kill in its imperative form, methods whose traces that machine accepts |
| `CleanupProtocol.dfy` | one `CleanupLocal`: caller, four goroutines, WaitGroup, channel; rely/guarantee on the shared world |
| `CleanupConfluence.dfy` | all schedules of one call end alike; calling again |
| `CleanupTermination.dfy` | a rank that every step decreases; no deadlock |
| `CleanupTiming.dfy` | the six seconds of a gateway goroutine against the fifteen of the wait |
| `ShutdownSystem.dfy` | `setupLocal`/`main`, the signal handler and the two calls as one transition system |
| `ShutdownTheorems.dfy` | what holds on every run of that system |
| `Completion.dfy` | either call can be run to its end from any moment before its timeout |
| `MainExit.dfy` | main can always end the process by a completed cleanup; what one signal at the final wait sets going |
| `ErrorPaths.dfy` | what each way out of `setupLocal` has released when main's cleanup begins |
| `EarlySignal.dfy` | exactly when the exit through the signal handler leaves no gateway behind |
| `LateReports.dfy` | exactly when a cleanup that gave up waiting can still crash the process |
| `LocalSetup.dfy` | `setupLocal` in its imperative form, as it runs when no signal interferes |

A transition is one access to shared data. The scheduler's choice and every answer
of the environment (signals delivered or not, `Wait` returning early, probes,
`docker compose down`, clock ticks, process deaths) are part of the action, so a
run is any sequence of actions and a statement about all sequences covers every
interleaving and every failure.

**Configuration and deployment.** `GoStrings`, `DatabaseUrls`, `FrkrupConfig`,
`Passwords`, `HelmValues` follow the configuration from defaults, validation and
flags to database URLs and the Helm values tree; `Polling` and `Infrastructure`
hold the bounded waits; `RootSearch` the upward search for `.gitmodules`; `Scripts`,
`Deployment`, `DeploymentTheorems` and `DeploymentPlan` the Kubernetes deployment, whose imperative
methods are shown to perform exactly a fixed plan up to its first fatal failure.

Below, a gateway is *killed* once `killProcessWithTimeout` has returned on it, with
either verdict. `LiveMeansKillFailed` and `PromptExitIsClean` say what a gateway
that is still alive after that has been through.

## What the proofs found in the code

- `LateReports.CrashPossibleExactly`: once a cleanup has closed its results channel
  the process can still panic on it if and only if one of its goroutines owes a
  report at that moment, and is scheduled to send it between the close and the exit of
  the process. On the done branch nobody owes one. After the timeout the Docker
  goroutine may: its own timeout (30 s) is longer than the wait (15 s), and
  `DockerReportCanCrash` is a run with instantaneous signals in which a slow
  `docker compose down` that succeeds ends in the panic.
- `EarlySignal.HandlerExitCleanExactly`: the exit through the signal handler leaves no
  gateway behind on every run if and only if, when the handler's cleanup begins,
  `setupLocal` is verifying the gateways or past that, or its context is already
  cancelled before it starts one. From every earlier point `UnsettledLeaks` builds a
  run that ends the process beside a gateway nobody has killed.
- `KillEscalation.VerdictExact`: a kill reports the truth unless its last event is the
  expiry of its context, after which it reports failure even for a process that is
  gone. With instantaneous signals (`VerdictsRightExactly`) this is possible if and
  only if the deadline is at most six seconds away when the kill begins.
- `DatabaseUrls.MaskHidesPassword`: the password is masked if and only if no field of
  the URL holds an '@' and the user holds no ':'; one '@' in a password and it is
  printed in clear.
- `DatabaseUrls.DefaultURLForAnyName`: the `/frkrdb` replacement hits the authority
  instead of the database name when the authority begins with `frkrdb`, and only the
  beginning of a longer name. `DefaultNameIsNotRedirected`: for the tool's own default
  database name, `frkr`, it changes nothing and the database check gives up.
- `DatabaseUrls.SchemeRoundTrip`: the two scheme rewrites undo each other exactly when
  the URL does not already carry the other scheme.
- `HelmValues.AuthPresentExactly`: naming a provider drops `global.auth`, because the
  whole `global` section is replaced.
- `Infrastructure.OnlyThreePingsCount`: all pings of the database check share one
  context of five seconds, so of the ten retries only the first three can succeed.
- `HelmValues.AudienceWithoutAuth`: with a provider named beside a real issuer and
  client the gateways are told to check an audience while no authentication is configured.
- `Infrastructure.CheckDatabase`: the check passes without any answer from the database
  for a URL with fewer than two slashes; `BuiltUrlsAreLongEnough` shows that no URL
  built by the tool is one.
- `Polling.VerifyGatewaysWithRetries`: with no retries allowed it passes without a check.

## Model

| member | source | states |
|---|---|---|
| KillEscalation.StepKeepsInv | cmd/frkrup/cleanup.go:158-262 | every transition of the escalation keeps its invariant: gone means dead, at most one SIGKILL a round, at most three rounds, true only after a probe found the process gone |
| KillEscalation.RunKeepsInv | cmd/frkrup/cleanup.go:158-262 | over every trace the counters of the machine are the SIGKILLs sent, and its flags say whether a probe found the process gone and whether the context expired |
| KillEscalation.NoKillAfterGone | cmd/frkrup/cleanup.go:198-251 | no SIGKILL follows a probe that found the process gone |
| KillEscalation.KillSoundness | cmd/frkrup/cleanup.go:158-262 | true means the process is gone at return; false means SIGKILL was attempted in all three rounds and the last probe saw it alive, or the context expired in the pause after an attempt; at most three SIGKILLs, none after a probe found the process gone |
| KillEscalation.StandsByHistory | cmd/frkrup/cleanup.go:158-235 | after every trace the machine stands where an independent reading of the last events, the number of attempts and the clock says |
| KillEscalation.StepEnabledExactly | cmd/frkrup/cleanup.go:158-262 | which answers are possible where: every one the operating system, the timers or the context can give |
| KillEscalation.LiveRoundIsAttempted | cmd/frkrup/cleanup.go:199-209 | a round whose first probe finds the process alive goes on with an attempt at SIGKILL |
| KillEscalation.KillFollowsLiveProbe | cmd/frkrup/cleanup.go:199-209 | every attempt at SIGKILL directly follows a probe that found the process alive |
| KillEscalation.GraceIsHonoured | cmd/frkrup/cleanup.go:166-194 | a delivered SIGTERM gets its three seconds before the first SIGKILL unless Wait returns or the context expires |
| KillEscalation.PauseBetweenKills | cmd/frkrup/cleanup.go:211-224 | delivered SIGKILLs are at least a second apart |
| KillEscalation.VerdictExact | cmd/frkrup/cleanup.go:158-235 | a call returns true if and only if the process is gone at its last event and that event is not the context's expiry |
| KillEscalation.FalseDespiteGone | cmd/frkrup/cleanup.go:207-224 | for every deadline at most six seconds away, a prompt call that returns false although the process is gone |
| KillEscalation.VerdictsRightExactly | cmd/frkrup/cleanup.go:14-19 | with instantaneous signals every verdict is right if and only if the deadline is more than six seconds away or there is none |
| KillEscalation.StepKeepsFinish | cmd/frkrup/cleanup.go:14-19 | no step moves the latest possible end of a kill |
| KillEscalation.KillWithinSixSeconds | cmd/frkrup/cleanup.go:172-225 | with instantaneous signals a kill returns within 3 s + 3 * 1 s, and never sees a later deadline expire |
| KillCommand.Command.IsProcessRunning | cmd/frkrup/cleanup.go:254-262 | the answer is whether the process lives, and the machine moves as its probe |
| KillCommand.Command.AwaitExit | cmd/frkrup/cleanup.go:172-194 | the select on Wait, the grace timer and the context, and where each leads |
| KillCommand.Command.AwaitRetry | cmd/frkrup/cleanup.go:212-224 | the select on the retry timer and the context, and where each leads |
| KillCommand.Command.SendKill | cmd/frkrup/cleanup.go:239-250 | what is recorded is what the operating system answered: no process found, or a SIGKILL delivered or not |
| KillCommand.Command.AttemptKill | cmd/frkrup/cleanup.go:238-251 | the attempt is recorded; true exactly if it was delivered or the process is gone |
| KillCommand.Command.AwaitDeath | cmd/frkrup/cleanup.go:211-224 | the wait after an attempt: false on expiry, true if the process is gone then, otherwise the next round |
| KillCommand.Command.KillWithRetries | cmd/frkrup/cleanup.go:198-235 | the loop leaves a trace the machine accepts and returns the machine's verdict |
| KillCommand.KillProcessWithTimeout | cmd/frkrup/cleanup.go:158-195 | nil and unstarted commands count as stopped; for any other, killed before or not, SIGTERM comes first, every signal has the outcome the operating system answered, the verdict is exact up to the context's expiry, and false follows three attempts or that expiry |
| CleanupProtocol.StepKeepsInv | cmd/frkrup/cleanup.go:66-155 | the WaitGroup counts the unfinished goroutines, the channel holds what was sent and not printed, each goroutine sends at most once, a panic is a late send after the timeout |
| CleanupProtocol.DockerStepGuarantee | cmd/frkrup/cleanup.go:33-63 | every step of CleanupDocker keeps the shared invariant; done with true means down, with false means tried or not found |
| CleanupProtocol.WorkerGuarantee | cmd/frkrup/cleanup.go:80-133 | every goroutine step keeps the shared invariant and empties a slot only after its kill returned |
| CleanupProtocol.StepGuarantee | cmd/frkrup/cleanup.go:66-155 | every step of one call stays within the rely of all other threads and keeps the call's own facts |
| CleanupProtocol.DoneMeansAchieved | cmd/frkrup/cleanup.go:66-155 | a call that left by the done branch, or had nothing to do, has killed every gateway stored when it began and tried to stop a Docker that was up, whatever ran beside it |
| CleanupProtocol.SendNeverBlocks | cmd/frkrup/cleanup.go:77-105 | at most four sends are made into capacity four: a report is never blocked, and panics exactly when the channel is closed |
| CleanupProtocol.AllDonePrintsEverything | cmd/frkrup/cleanup.go:97-154 | on the done branch every message is printed once, in order: the ports', Docker's, and a gateway's exactly if its goroutine was given a command; and every message is true |
| CleanupProtocol.StepKeepsConfigInv | cmd/frkrup/cleanup.go:80-85 | a gateway goroutine past its kill leaves its slot nil, and a call only ever releases resources |
| CleanupProtocol.StepKeepsHistory | cmd/frkrup/cleanup.go:66-155 | no step of a call starts or stores anything, or moves the clock |
| CleanupConfluence.DoneConfiguration | cmd/frkrup/cleanup.go:66-155 | every schedule ending by the done branch leaves both slots nil and StartedDocker equal to its old value and "down did not succeed" |
| CleanupConfluence.Confluence | cmd/frkrup/cleanup.go:66-155 | two schedules with the same answer from "docker compose down" end in the same configuration |
| CleanupConfluence.PrintsOneForEachCommand | cmd/frkrup/cleanup.go:76-154 | every schedule ending by the done branch prints exactly two messages plus one for each command the configuration held at the call |
| CleanupConfluence.PrintsTheTruth | cmd/frkrup/cleanup.go:97-154 | on the done branch Docker is reported stopped exactly if StartedDocker is false at the end, a gateway reported stopped is dead, and one reported otherwise has outlived a kill |
| CleanupConfluence.NothingToDoIsNoOp | cmd/frkrup/cleanup.go:67-69 | with nothing to clean up a call starts no goroutine and changes nothing, on any schedule |
| CleanupConfluence.SecondCallIsNoOp | cmd/frkrup/cleanup.go:66-116 | a second call changes nothing if Docker was not started or came down; otherwise it begins a new cleanup |
| CleanupTermination.StepDecreasesRank | cmd/frkrup/cleanup.go:66-235 | every step of a call decreases a rank |
| CleanupTermination.BoundedSteps | cmd/frkrup/cleanup.go:66-235 | on any schedule one call takes at most 173 steps of its own |
| CleanupTermination.WorkerCanStep | cmd/frkrup/cleanup.go:88-132 | an unfinished goroutine can always step, at the latest when its timer runs out |
| CleanupTermination.NoDeadlock | cmd/frkrup/cleanup.go:136-155 | until it has returned or panicked some step of a call is possible |
| CleanupTermination.DoneIsPossible | cmd/frkrup/cleanup.go:66-155 | from every world with something to clean up some schedule leaves by the done branch |
| CleanupTiming.SelectFindsGatewaysFinished | cmd/frkrup/cleanup.go:143-149 | either branch of the select finds both gateway goroutines finished |
| CleanupTiming.StepKeepsTimedInv | cmd/frkrup/cleanup.go:66-235 | every step keeps the time bounds of the gateway goroutines |
| CleanupTiming.GatewaysDoNotOutliveTheWait | cmd/frkrup/cleanup.go:14-20 | a gateway goroutine is finished six seconds after the context was created and before the channel is closed |
| ShutdownSystem.UnwindGuarantee | cmd/frkrup/main.go:246-292 | each deferred or error-path step empties a slot only when that is safe, including between the nil check and the kill |
| ShutdownSystem.ProgramGuarantee | cmd/frkrup/main.go:118-267 | each step of setupLocal keeps the resource invariant |
| ShutdownSystem.StepKeepsSysInv | cmd/frkrup/main.go:73-293 | every step of main, handler, either cleanup or the environment keeps the system invariant |
| ShutdownSystem.ReachableInv | cmd/frkrup/main.go:73-293 | the invariant holds in every reachable state |
| ShutdownTheorems.SlotEmptiedOnlyAfterKill | cmd/frkrup/main.go:246-267 | in every run a slot goes from a command to nil only after killProcessWithTimeout on it has returned |
| ShutdownTheorems.NilSlotMeansKilled | cmd/frkrup/cleanup.go:80-85 | a stored command whose slot is nil has been killed; a confirmed kill left no process |
| ShutdownTheorems.ExitIsClean | cmd/frkrup/main.go:73-85 | whichever side ends the process after a completed cleanup, on all that was stored when that cleanup began a kill has returned, with either verdict, and Docker was asked to go down or not found |
| ShutdownTheorems.LiveMeansKillFailed | cmd/frkrup/cleanup.go:198-235 | such a gateway is still alive only if a kill on it returned false, cut short by its context or after three attempts at SIGKILL |
| ShutdownTheorems.MainExitDropsNothing | cmd/frkrup/main.go:73-113 | when main ends the process after a completed cleanup, a kill has returned, with either verdict, on every gateway started and both slots are nil |
| ShutdownTheorems.SignalAtFinalWait | cmd/frkrup/main.go:246-292 | a signal at the final wait: in every interleaving of defers and handler the exit after a completed cleanup finds that a kill has returned, with either verdict, on both gateways, and Docker asked to go down or not found |
| MainExit.FinalSignalEndsMain | cmd/frkrup/main.go:194-292 | after a signal at the final wait main itself can end the process, its defers run and its CleanupLocal completed |
| MainExit.DefersRunBesideTheHandler | cmd/frkrup/main.go:80-84 | after that signal the deferred kill and the handler's CleanupLocal can be in progress at once |
| MainExit.MainCanAlwaysExit | cmd/frkrup/main.go:107-293 | from every state of every run in which main's cleanup has not timed out, some continuation ends with main's exit after a completed cleanup |
| ErrorPaths.EachWayOutReleases | cmd/frkrup/main.go:118-292 | when main's CleanupLocal begins: after the final wait the streaming gateway is killed and its slot nil; after a failed verification both; after a failed start of the streaming gateway the ingest one; after a service error Docker was stopped, asked to, or not found |
| ErrorPaths.TimedOutWaitStopsTwice | cmd/frkrup/infrastructure.go:109-136 | after a wait for the services that timed out Docker is stopped twice if need be: the second attempt can still succeed where the first did not |
| Completion.CompleteCall | cmd/frkrup/cleanup.go:66-155 | either call can be completed from any moment before its timeout, all else standing still |
| EarlySignal.HandlerExitCleanExactly | cmd/frkrup/main.go:80-84 | every exit through the handler's completed cleanup has a kill returned on every gateway started, if and only if setupLocal was verifying the gateways or past that, or unable to start one, when the handler's cleanup began |
| EarlySignal.SettledIsClean | cmd/frkrup/main.go:80-84 | in those cases Docker, if started, was asked to go down or not found as well |
| EarlySignal.UnsettledLeaks | cmd/frkrup/main.go:208-225 | in all others a run that ends the process beside a gateway that was stored and never killed |
| EarlySignal.EarlySignalLeaksGateway | cmd/frkrup/main.go:183-214 | a signal during the start of the mock OIDC provider: such a run, the gateway being alive |
| ShutdownTheorems.FailingRunDropsNothing | cmd/frkrup/main.go:107-267 | without a signal, whatever step fails: at an exit after a completed cleanup a kill has returned, with either verdict, on every gateway started, slots are nil, and StartedDocker is still set exactly if Docker was brought up and no "down" succeeded |
| ShutdownTheorems.ChannelProtocol | cmd/frkrup/cleanup.go:76-154 | on every run of the system, for both calls: at most four sends, none blocked; on the done branch two messages plus one for each goroutine given a command, all printed |
| ShutdownTheorems.MessagesAreTrue | cmd/frkrup/cleanup.go:97-154 | on every run, for both calls, every message sent or printed is true |
| ShutdownTheorems.PanicMeansTimeout | cmd/frkrup/cleanup.go:143-154 | a send on the closed channel happens only after the timeout branch, by an unfinished goroutine |
| LateReports.CrashPossibleExactly | cmd/frkrup/cleanup.go:143-154 | once a call has closed its channel, some continuation of the run panics on it if and only if one of its goroutines owes a report |
| LateReports.DoneBranchCannotCrash | cmd/frkrup/cleanup.go:143-154 | after the done branch no continuation does |
| LateReports.DockerReportCanCrash | cmd/frkrup/cleanup.go:44-61 | a prompt run, the gateway goroutines finished, in which "docker compose down" succeeds after more than fifteen seconds and the report on it panics |
| ShutdownTheorems.GatewayWorkersWithinSixSeconds | cmd/frkrup/cleanup.go:14-20 | on every prompt run of the system no gateway goroutine outlives six seconds, sees its context expire or sends after the close |
| ShutdownTheorems.PromptExitIsClean | cmd/frkrup/cleanup.go:136-155 | on every prompt run the exit is clean for the gateways whichever branch the cleanup took, the timeout included; one still alive has survived three attempts at SIGKILL |
| LocalSetup.KillProcess | cmd/frkrup/cleanup.go:289-293 | the whole escalation has run on the command, if it was started |
| LocalSetup.LocalSession.StopDockerIfStarted | cmd/frkrup/main.go:125-128 | StartedDocker is cleared exactly if "down" was possible and succeeded |
| LocalSetup.LocalSession.SetupServices | cmd/frkrup/main.go:121-190 | passes exactly if every service check passes; what each outcome leaves of StartedDocker |
| LocalSetup.LocalSession.SetupGateways | cmd/frkrup/main.go:192-292 | each outcome exactly in its case; whatever fails, each gateway started is killed and both fields are nil; on return only the ingest command is left |
| LocalSetup.LocalSession.RunDeferred | cmd/frkrup/main.go:246-251 | the streaming command, if any, is killed and its field nil |
| LocalSetup.LocalSession.SetupLocal | cmd/frkrup/main.go:118-293 | success exactly if services and gateways pass; a failure leaves no unkilled gateway and no command; StartedDocker exactly |
| Infrastructure.InfrastructureManager.CleanupDocker | cmd/frkrup/cleanup.go:33-63 | StartedDocker is cleared exactly if the directory was found and "down" succeeded; true exactly if nothing is left |
| Infrastructure.DockerStepsAreCleanupDocker | cmd/frkrup/cleanup.go:33-63 | the step machine of the concurrent model, run without interruption, is that method |
| Infrastructure.InfrastructureManager.EnsureRunning | cmd/frkrup/infrastructure.go:31-137 | passes exactly if the services are ready at once or within sixty polls of a running Compose; StartedDocker set exactly if this call brought Compose up and a timed-out wait did not take it down |
| Infrastructure.CheckDockerComposeHealth | cmd/frkrup/infrastructure.go:141-183 | healthy exactly if each of the two containers has a line that reports it up |
| Infrastructure.CheckDatabase | cmd/frkrup/infrastructure.go:253-338 | each outcome exactly in its case, the shared context of five seconds included; a pass without an answer exactly for short URLs |
| Infrastructure.OnlyThreePingsCount | cmd/frkrup/infrastructure.go:261-330 | no ping after the third can be answered |
| Infrastructure.BuiltUrlsAreLongEnough | cmd/frkrup/infrastructure.go:277-287 | a built URL is never short |
| Infrastructure.ShortUrlPassesUnanswered | cmd/frkrup/infrastructure.go:277-287 | some other URL is |
| DatabaseUrls.MaskIsIdempotent | cmd/frkrup/database.go:112-125 | masking twice is masking once, on every string |
| DatabaseUrls.MaskHidesPassword | cmd/frkrup/database.go:112-125 | the masked URL is the URL with *** as password, if and only if no field holds '@' and the user no ':' |
| DatabaseUrls.AtSignDisablesMasking | cmd/frkrup/database.go:112-125 | an '@' in any field leaves the URL unmasked |
| DatabaseUrls.ColonInUserCutsUser | cmd/frkrup/database.go:116-122 | a ':' in the user makes the mask swallow part of the user |
| DatabaseUrls.NoPasswordUnchanged | cmd/frkrup/database.go:112-125 | a URL without a password is not changed |
| DatabaseUrls.SchemeRoundTrip | cmd/frkrup/database.go:53-59 | to the migration scheme and back through getDB is the identity exactly if the URL did not name CockroachDB |
| DatabaseUrls.SchemeRoundTripBack | cmd/frkrcfg/main.go:50-55 | the other way round, exactly if it did not name PostgreSQL |
| DatabaseUrls.MigrateScheme | cmd/frkrup/database.go:53-59 | the driver is told of CockroachDB exactly if the URL named it, or named PostgreSQL and the server has no advisory locks; nothing but the scheme changes |
| DatabaseUrls.ConnectionScheme | cmd/frkrcfg/main.go:50-55 | the client is told of PostgreSQL where either was named; nothing but the scheme changes |
| DatabaseUrls.UrlForms | cmd/frkrup/frkrup_config.go:223-234 | the three forms of a built URL |
| DatabaseUrls.ServerURLIsSchemeAndAuthority | cmd/frkrup/infrastructure.go:277-287 | for any database name: stripping a built URL leaves the scheme and the authority, exactly if the name (or the authority) begins with frkrdb, and is given up otherwise |
| DatabaseUrls.ServerURLIsCleanPrefix | cmd/frkrup/infrastructure.go:277-287 | whatever the URL, stripping leaves a beginning of it without a query |
| DatabaseUrls.DefaultURLForAnyName | cmd/frkrup/database.go:69-72 | what the replacement does to a URL with any database name: it hits the authority, else the beginning of the name, else nothing |
| DatabaseUrls.DefaultURLChangesOnlyTheName | cmd/frkrup/database.go:69-72 | it yields the default database on the same server exactly for two names, the authority not beginning with frkrdb |
| DatabaseUrls.DerivedUrlsShareServer | cmd/frkrup/infrastructure.go:277-287 | whatever the database is called, both derived URLs address the server of the original, or there is no stripped one |
| DatabaseUrls.DefaultNameIsNotRedirected | cmd/frkrup/frkrup_config.go:172 | with the default name no URL is derived |
| GoStrings.Index | cmd/frkrup/infrastructure.go:278-285 | the first occurrence, none exactly if there is none |
| GoStrings.ReplaceFirstAt | cmd/frkrup/database.go:56-71 | a replacement limited to one touches the first occurrence only |
| GoStrings.SplitSpec | cmd/frkrup/database.go:113-118 | splitting cuts at every separator, leaves none and is undone by joining |
| Config.FrkrupConfig.ApplyDefaults | cmd/frkrup/frkrup_config.go:131-220 | the configuration becomes its defaulted value, field by field and whole |
| Config.FrkrupConfig.FindMigrations | cmd/frkrup/frkrup_config.go:197-219 | the module's migrations, or the first candidate that resolves and exists |
| Config.FrkrupConfig.ApplyFlags | cmd/frkrup/main.go:54-71 | exactly the given flags override |
| Config.FrkrupConfig.DetermineClusterName | cmd/frkrup/kubernetes.go:119-137 | succeeds exactly if there is a context and it is the configured one or none was configured, which it then becomes |
| Config.DefaultsIdempotent | cmd/frkrup/frkrup_config.go:131-220 | applying the defaults again changes nothing; K8s is set exactly for target "k8s" |
| Config.DefaultsKeepGivenValues | cmd/frkrup/frkrup_config.go:131-220 | given values win, required values are never left empty |
| Config.DefaultsSpelledOut | cmd/frkrup/frkrup_config.go:131-220 | every default by value |
| Config.TargetExactly | cmd/frkrup/frkrup_config.go:131-150 | the target for each given target and k8s flag |
| Config.FirstExistingIsFirst | cmd/frkrup/frkrup_config.go:204-218 | the first candidate that resolves and exists is taken |
| Config.FlagsWin | cmd/frkrup/main.go:54-71 | a given flag wins, one not given changes nothing |
| Config.OverridesKeepValid | cmd/frkrup/main.go:54-71 | a loaded configuration stays valid under every combination of flags, either flip of the target included |
| Config.ValidExactly | cmd/frkrup/frkrup_config.go:102-128 | when a configuration is valid |
| Config.FirstErrorReported | cmd/frkrup/frkrup_config.go:102-128 | which error is reported |
| Config.EffectiveHostsTogether | cmd/frkrup/frkrup_config.go:251-265 | for a valid configuration the two effective hosts are both empty or both set, and are the shared host or the pair |
| Config.HostsAndScheme | cmd/frkrup/frkrup_config.go:242-265 | a gateway's own host wins over the shared one; https exactly with a TLS secret |
| Config.DecimalRoundTrip | cmd/frkrup/frkrup_config.go:283 | a port's numeral reads back as the port |
| Config.HealthURLsCoincide | cmd/frkrup/frkrup_config.go:272-317 | the two health URLs are equal exactly behind an ingress host, or with one host and coinciding ports (plus 1000 locally) |
| Config.HealthURLForms | cmd/frkrup/frkrup_config.go:272-317 | the health URLs behind an ingress host and away from it |
| Passwords.HexRoundTrip | cmd/frkrup/helm.go:304-310 | the text decodes to the bytes and has two characters for each |
| Passwords.PasswordShape | cmd/frkrup/helm.go:304-310 | length 2 * (n / 2), non-empty from n = 2, different bytes give different text |
| HelmValues.AuthConfig | cmd/frkrup/helm.go:190-216 | issuer, client and secret as configured; a real issuer wins over the mock |
| HelmValues.IngressConfig | cmd/frkrup/helm.go:232-259 | hosts and TLS exactly as configured |
| HelmValues.InfrastructureConfig | cmd/frkrup/helm.go:129-188 | credentials, provisioning and the mock provider as configured |
| HelmValues.AddProvider | cmd/frkrup/helm.go:262-266 | a named provider replaces the global section and nothing else |
| HelmValues.AddCertManager | cmd/frkrup/helm.go:268-276 | cert-manager values exactly if it is to be installed, nothing else changed |
| HelmValues.GenerateValues | cmd/frkrup/helm.go:112-290 | the tree agrees with the configuration section by section; a password is generated exactly if Postgres is provisioned without one; when it fails |
| HelmValues.IngressRoutingIsConsistent | cmd/frkrup/helm.go:232-259 | for a valid configuration never a shared host beside per-service hosts, both of these or none, the same hosts as the health URLs, https only with TLS enabled |
| HelmValues.AuthPresentExactly | cmd/frkrup/helm.go:190-230 | authentication is present exactly with an issuer or the mock, and no provider |
| HelmValues.IssuerInTree | cmd/frkrup/helm.go:190-230 | the issuer in the tree: the real one, else the mock's address |
| HelmValues.RegistryEndsInSlash | cmd/frkrup/helm.go:130-137 | the registry in the tree is empty or ends in a slash, one added where the given one has none |
| HelmValues.AudienceWithoutAuth | cmd/frkrup/helm.go:190-266 | an audience is checked without authentication exactly if a provider is named beside a real issuer with a client; otherwise the audience is the client of global.auth |
| HelmValues.PasswordIsStable | cmd/frkrup/helm.go:112-127 | a second generation keeps the first password, whatever randomness it gets; given passwords are never replaced |
| HelmValues.PasswordDrawnExactly | cmd/frkrup/helm.go:114-127 | a password is drawn exactly if Postgres is provisioned without one; it is the text of the drawn bytes, 16 characters |
| HelmValues.CredentialsAgree | cmd/frkrup/helm.go:112-167 | two generations in a row, with any randomness: both trees hold the same credentials in infrastructure.db and dataPlane.db, with a password where Postgres is provisioned |
| Polling.RetryKubectlWait | cmd/frkrup/kubernetes.go:339-352 | at most D/3 + 2 commands, over by D + 3 s + one command, success exactly if the last command succeeded; exact when commands take no time |
| Polling.HealthRule | cmd/frkrup/gateway.go:154-199 | healthy is status 200, and "healthy" where the body says anything |
| Polling.VerifyGatewaysWithRetries | cmd/frkrup/gateway.go:202-216 | passes exactly if one of the first maxRetries attempts finds both gateways healthy, at the first such one |
| RootSearch.NearestRootIsNearest | cmd/frkrup/frkrup_paths.go:40-52 | the walk yields the nearest self-or-ancestor with .gitmodules, and fails exactly if there is none |
| RootSearch.FindGatewayRepoPath | cmd/frkrup/frkrup_paths.go:33-88 | the submodule of that root, and each error exactly in its case |
| RootSearch.FindInfraRepoPath | cmd/frkrup/frkrup_paths.go:109-161 | the same for the infrastructure repositories |
| RootSearch.Repositories | cmd/frkrup/frkrup_paths.go:54-63 | the repository of each type |
| RootSearch.SearchesAgree | cmd/frkrup/frkrup_paths.go:40-128 | from one directory both searches see the same root |
| RootSearch.SameRootFromBelow | cmd/frkrup/frkrup_paths.go:40-52 | starting below unmarked directories finds the same root |
| Scripts.CutConcat | cmd/frkrup/kubernetes.go:25-100 | a script in two parts: the second runs exactly if the first passed |
| Scripts.RunIsPrefix | cmd/frkrup/kubernetes.go:25-100 | a run is a prefix of its plan, complete exactly if no fatal step failed, and nothing follows a failure |
| Deployment.ToRestart | cmd/frkrup/helm.go:92-99 | each deployment marked changed, once |
| Deployment.KubernetesManager.CheckPrerequisites | cmd/frkrup/kubernetes.go:102-117 | the tools and the cluster, in order, up to the first that is missing |
| Deployment.KubernetesManager.DetermineClusterName | cmd/frkrup/kubernetes.go:119-137 | passes exactly on a matching context; changes only the cluster name |
| Deployment.KubernetesManager.BuildAndLoadImages | cmd/frkrup/kubernetes.go:139-180 | performs its script; reports exactly the images found, with whether they changed |
| Deployment.KubernetesManager.BuildAndLoadImage | cmd/frkrup/kubernetes.go:182-214 | build, then load; changed exactly if the image id differs |
| Deployment.KubernetesManager.PullAndLoadImages | cmd/frkrup/kubernetes.go:219-242 | performs its script up to the first failure |
| Deployment.KubernetesManager.PushImages | cmd/frkrup/kubernetes.go:245-295 | performs its script; on success all three are marked changed |
| Deployment.KubernetesManager.InstallGatewayAPICRDs | cmd/frkrup/kubernetes.go:409-437 | only a failed apply is fatal |
| Deployment.KubernetesManager.InstallEnvoyGateway | cmd/frkrup/kubernetes.go:445-470 | installs unless installed |
| Deployment.KubernetesManager.InstallCertManagerChart | cmd/frkrup/kubernetes.go:477-516 | installs unless installed, adopting old CRDs first |
| Deployment.KubernetesManager.GenerateValuesFile | cmd/frkrup/helm.go:112-290 | draws the password it needs, writes values that agree with the configuration |
| Deployment.KubernetesManager.InstallHelmChart | cmd/frkrup/helm.go:17-109 | performs its script; the password is set exactly if the chart was found, one was needed and no stale disk was found; the changed deployments are restarted |
| Deployment.KubernetesManager.WaitForReadiness | cmd/frkrup/kubernetes.go:299-332 | operator and migrations are required, the data plane is not |
| Deployment.KubernetesManager.Setup | cmd/frkrup/kubernetes.go:25-100 | the steps made are the plan up to the first fatal failure; success exactly if there is none; then the cluster is known and the values agree with the final configuration |
| DeploymentTheorems.PlanInOrder | cmd/frkrup/kubernetes.go:25-100 | every plan goes through its steps in one strict order, only the restarts among themselves being free |
| DeploymentTheorems.RunInOrder | cmd/frkrup/kubernetes.go:25-100 | every run, failing or not, keeps that order and does nothing after a fatal failure |
| DeploymentTheorems.EarlierPhaseDone | cmd/frkrup/kubernetes.go:25-100 | before a step of a later phase every planned step of an earlier one was made and passed |
| DeploymentTheorems.CRDsComeFirst | cmd/frkrup/kubernetes.go:54-59 | the CRDs are applied before Envoy, cert-manager and the chart |
| DeploymentTheorems.EnvoyComesBeforeTheChart | cmd/frkrup/kubernetes.go:61-67 | behind an ingress Envoy is installed before cert-manager and the chart |
| DeploymentTheorems.CertManagerComesBeforeTheChart | cmd/frkrup/kubernetes.go:69-76 | cert-manager is installed before the chart |
| DeploymentTheorems.FinishMeansReady | cmd/frkrup/kubernetes.go:84-99 | ports are forwarded or success announced only after the upgrade, the operator and the migrations |
| DeploymentTheorems.RestartsExactlyTheChanged | cmd/frkrup/helm.go:92-106 | a deployment is restarted exactly if the chart was upgraded and its image changed |
| DeploymentPlan.RestartsSpelledOut | cmd/frkrup/kubernetes.go:45-56 | restarted, after a successful upgrade, are: of loaded images those found whose id changed, of pushed images all, otherwise none |
| DeploymentPlan.PlanIsExactly | cmd/frkrup/kubernetes.go:25-100 | which steps belong to a deployment, by the configuration and the answers alone |
| DeploymentPlan.RunIsExactly | cmd/frkrup/kubernetes.go:25-100 | a step is made if and only if it belongs to the deployment and nothing fatal before it has failed |
| DeploymentPlan.IgnoredFailures | cmd/frkrup/kubernetes.go:321-329 | exactly which failures are ignored |
| DeploymentTheorems.NoRestartTwice | cmd/frkrup/helm.go:92-106 | no deployment is restarted twice |
| DeploymentTheorems.PasswordOnlyWithoutStaleDisk | cmd/frkrup/helm.go:25-44 | a password is drawn only if one is needed and no old Postgres disk was found |
| DeploymentTheorems.StaleDiskStopsTheDeployment | cmd/frkrup/helm.go:25-44 | an old disk and no password: the chart is never upgraded and the configuration keeps its database section |
| DeploymentTheorems.PullPassesExactly | cmd/frkrup/kubernetes.go:219-242 | the infrastructure images are loaded exactly if each can be pulled and loaded |
| DeploymentTheorems.PullStopsAtFirstFailure | cmd/frkrup/kubernetes.go:219-242 | on failure exactly a prefix of the list has been handled |
| DeploymentTheorems.MissingRepository | cmd/frkrup/kubernetes.go:143-264 | a missing repository is passed over when loading and fatal when pushing |

## Left out

- Calls into the operating system, kubectl, helm, docker, git, lsof, SQL, Kafka and HTTP: each is an answer chosen freely by the environment; what the tools themselves do is not modelled.
- Real time: clock ticks are actions of the environment. The timing theorems assume that signals, probes, sends and spawns take no time; nothing is assumed about the port and Docker goroutines.
- killPortProcesses: the processes it kills are deaths of the environment; the list returned by lsof is not modelled.
- The window between starting a gateway and storing its command: starting and storing are separate steps, and the theorems that speak of stored commands say so. A gateway may only be started on a context that is not yet cancelled; the cancelling goroutine runs some time after the signal.
- Containers of a failed `docker compose up`, and a signal between a successful one and setting StartedDocker: the two are one step.
- The cancellation of the gateways' own context: a process that dies of it dies by an action of the environment.
- The mock OIDC container: it is started but tracked by no cleanup.
- PID reuse, zombie processes, and the quality of randomness; the random bytes are a parameter.
- FrkrupConfig: the class has one field per group of related struct fields, each updated in place; the command slots and StartedDocker are part of the shutdown model instead.
- CleanupLocal: its goroutines, and `setupLocal` beside the signal handler, are transitions over values rather than methods over a heap, because interleavings are quantified over; the kill escalation, CleanupDocker and setupLocal without a signal also have their imperative form.
- HelmValues.GenerateValues: nested maps are values that are reassigned, so aliasing between maps is not modelled; the tree is not written out as YAML.
- Errors of os.Stat other than a missing file, symbolic links, relative working directories and Windows paths.
- RetryKubectlWait inside WaitForReadiness: a readiness step's answer stands for the whole retry loop, which Polling models.
- Deployment.KubernetesManager.InstallCertManagerChart: the relabelling of the six CRDs is one non-fatal step.
- The warning about existing Redpanda data, progress output, prompts and log streaming.
- Where migrations are searched: the module lookup belongs to frkr-common and is not part of this model; the fallback candidates are a parameter.
- StartMockOIDC, the broker check, stream creation, pkg/db and the user, client, tenant and stream commands of frkrcfg.
- DatabaseUrls.DefaultURLForAnyName: database names and authorities with a '/' are not covered, nor are authorities with a '?' where a URL is stripped.
- Strings are sequences of characters; Go's are bytes. The separators and literals involved are ASCII.
