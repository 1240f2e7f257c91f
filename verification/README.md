# Dockhand: a verified model of the server's core

Dockhand is a Go server that runs operations on Docker hosts. This project models the parts of it whose
correctness is not visible from one function body, and proves what they promise. The outside world — SSH, the
Docker daemon, Postgres, HTTP — appears as a small state (containers and names, rows, files, connections) on which
a call either has its effect or is refused and has none.

Code that changes state step by step is a class or a method with loops, and its contract equates the new state
with a function of the old one; everything else is proved about those functions, first of all what they compute,
stated without them. Where goroutines share state,
every region under a lock is one step, and the claims are about every interleaving of such steps.

| file | what it models |
|---|---|
| Jobs.dfy | the job recorder: steps, bounded log, throttled writes of a job's row |
| ConnManager.dfy | the connection manager: one shared dial per host, cached connections, eviction |
| Events.dfy | the registry of Docker event streams |
| Recreate.dfy | replacing a container: ordered daemon calls, roll back, networks, configuration |
| Interpolate.dfy, EnvFile.dfy | Compose interpolation; the `.env` writer against the `.env` reader |
| Shell.dfy, DryRun.dfy, Sorting.dfy | POSIX quoting, `sudo sh -c`, the shown `docker run` line |
| Lines.dfy | the two streaming line splitters |
| Settings.dfy | the settings cache against its rows, and deepMerge |
| RegistryAuth.dfy | the registry's login cache against the token table |
| Alerts.dfy | alert rows, notifications, evaluation of samples, offline bookkeeping |
| Manifest.dfy | the manifest of deployed files and what a deploy prunes |
| Limiter.dfy | the fixed-window sign-in limiter |
| Ports.dfy | free names, free ports, port conflicts and their fixes |
| Impact.dfy | blast-radius reports |
| JobHistory.dfy, ConnRules.dfy, AlertRules.dfy, PortRules.dfy, ImpactRules.dfy, ManifestRules.dfy | what those do, in terms of their inputs alone |
| InterpolateRules.dfy, EnvFileRules.dfy, LineRules.dfy, DryRunRules.dfy, SettingsPatch.dfy | the same for texts, lines and settings |
| ImageUpdate.dfy | what an update to another image leaves of the user's settings |
| Strings.dfy, Wrappers.dfy | Go's string helpers; Option |

Where a promise is false of the code as it stands, the code is kept and the exact condition is proved:

- A job that ends without an error while nothing is left to write never gets its final state into its row
  (`Jobs.RowEqualsMemory`, `Jobs.CleanSuccessIsNotWritten`).
- A dial that its caller asked for after missing a success drops a live connection without closing it
  (`ConnManager.NothingIsLost`, `ConnManager.MissedSuccessLeaks`).
- Recreating from an unchanged image loses the command or the health check in the cases that
  `Recreate.CommandLost` and `Recreate.HealthLost` name (`Recreate.SameImageSameEffect`); updating to another image
  loses the settings that repeat a value of the old one (`ImageUpdate.UpdateIsAsFresh`).
- Settings: cutting slashes or a scheme can uncover white space that the next patch trims in the cache only
  (`Settings.PatchKeepsStep`, `Settings.PlainPatchSettles`, `Settings.SlashUncoversSpace`).
- A key "export" in front of a blank is taken for the prefix of a `.env` line (`EnvFileRules.EntryRule`).
- A bare value in backticks does not survive the `.env` file (`EnvFile.ValueRoundTrip`); NUL characters do not
  survive interpolation (`Interpolate.InterpolateExact`).
- A token that is being checked while it is revoked is accepted from the cache afterwards
  (`RegistryAuth.RevokedStaysOut`, `RegistryAuth.UnderwayGetsIn`).
- Two callers that raise one alert at the same time notify twice (`Alerts.NoticesInTwoSteps`,
  `Alerts.TwoCallersNotifyTwice`).
- A recorded file name with outer white space makes the next deploy remove another file
  (`Manifest.OnlyThoseNamesGo`, `Manifest.OuterSpaceHitsAnotherFile`), and a repository file named `.dockhand-files`
  takes the place of the manifest before it is read (`Manifest.OnlyRecordedFilesGo`,
  `Manifest.ArchivedManifestMisleads`).
- A host that goes offline, is tested online by hand after a restart and then answers keeps its offline alert, without
  a notice of its recovery (`Alerts.RecoveryIsMissed`, `Alerts.OfflineAlertIsForgotten`). Of polls side by side, one
  that raises the alert after another has succeeded has the same effect, and so has a restart between the record and
  the evaluation of a success (`Alerts.RemembersOverRuns`, `Alerts.LateRaiseIsForgotten`, `Alerts.RestartIsForgotten`).
- A text that is one container's id and another's name gives a report on both (`Impact.ContainerWithinStack`,
  `Impact.AmbiguousContainer`).
- A login whose user name or password holds a NUL shares its cache key with another one
  (`RegistryAuth.KeysTellLoginsApart`, `RegistryAuth.SharedKeyGetsIn`).
- Sign-ins of one key that overlap can fill its bucket above the maximum, which happens exactly when a failure is
  recorded that would no longer be let in (`Limiter.StaleOnesOverfill`, `Limiter.OnlyStaleOnesExceed`,
  `Limiter.SeparateStepsExceed`).
- A line of one megabyte ends what the line scanner hands on (`Lines.WhatIsHandedOn`).

The comment on dropping the cached logins when a token is revoked (`server/internal/registry/registry.go:460`)
promises that the token stops working at once; the code keeps that promise exactly under the condition above. The
comment at `server/internal/monitor/events.go:67` speaks of a stream removing only its own registration, which the
code does not compare, but which holds because a replaced stream has always been cancelled first
(`Events.FinishTouchesOnlyItself`).

The rules of other programs that the results rest on are written out in the model: the shell's word splitting and
quoting (POSIX.1-2017, Shell Command Language, sections 2.2.1 to 2.2.3, 2.3 and 2.6.7) in `Shell.Lex`, how Docker
completes a configuration from its image in `Recreate.Applied`, which names and calls a Docker daemon accepts in
`Recreate.Daemon`, and what a `bufio.Scanner` with a buffer limit does in `Lines.ExecStream`.

## Model

| member | source | states |
|---|---|---|
| Jobs.Job.constructor | server/internal/jobs/jobs.go:100-121 | a new job is active with its planned steps pending, in order, an empty log and its host in the result |
| Jobs.Job.FinishCurrent | server/internal/jobs/jobs.go:237-243 | ends the running step, if there is one, with its duration |
| Jobs.Job.FindPlanned | server/internal/jobs/jobs.go:216-222 | finds the first pending step with the label |
| Jobs.Job.Step | server/internal/jobs/jobs.go:212-233 | ends the running step and runs the planned step of that label, or a new one |
| Jobs.Job.Sub | server/internal/jobs/jobs.go:246-252 | sets the running step's text; without one nothing changes, not even dirty |
| Jobs.Job.Complete | server/internal/jobs/jobs.go:257-264 | ends the running step as done, with a text if one is given |
| Jobs.Job.Skip | server/internal/jobs/jobs.go:269-285 | ends the running step and marks the planned step, or a new one, skipped |
| Jobs.Job.Fail | server/internal/jobs/jobs.go:290-297 | ends the running step as failed; the job goes on |
| Jobs.Job.Append | server/internal/jobs/jobs.go:314-322 | appends a line, cutting the front of a full log behind a marker |
| Jobs.Job.Log | server/internal/jobs/jobs.go:302-307 | appends every line of a text whose trailing line ends are cut |
| Jobs.Job.Set | server/internal/jobs/jobs.go:325-330 | stores a result value and marks the job dirty; no flush follows |
| Jobs.Job.SetStack | server/internal/jobs/jobs.go:333-337 | links the job to a stack |
| Jobs.Job.SkipRest | server/internal/jobs/jobs.go:166-170 | turns every pending step into a skipped one and touches no other |
| Jobs.Job.End | server/internal/jobs/jobs.go:149-186 | the final state of a job, with its error as a log line, as the failed step's text and as its status |
| Jobs.Job.FlushEnter | server/internal/jobs/jobs.go:364-389 | takes a snapshot to write, or gives up and arms at most one timer |
| Jobs.Job.FlushExit | server/internal/jobs/jobs.go:398-404 | ends the write and flushes again only for a finished, dirty job |
| Jobs.Job.TimerFired | server/internal/jobs/jobs.go:373-378 | the timer takes its mark back before it flushes |
| Jobs.LogIsTail | server/internal/jobs/jobs.go:314-322 | however lines are added, the log is everything logged or the marker and the last 4501 to 4999 lines, never more than 5000 entries |
| Jobs.OpKeepsSound | server/internal/jobs/jobs.go:212-299 | each operation keeps at most one running step, the current one, adds steps only at the end, keeps labels, and never changes a step that is over |
| Jobs.EndKeepsSound | server/internal/jobs/jobs.go:149-186 | after the end no step is pending or running, and each step's last status is that of its status before |
| Jobs.StepKeeps | server/internal/jobs/jobs.go:363-405 | every step of every thread keeps the invariant, and the row's version never goes back |
| Jobs.RunsKeep | server/internal/jobs/jobs.go:135-405 | over every interleaving the invariant holds, terminal statuses and finished steps never change, and written snapshots only move forward |
| Jobs.OneWriteAtATime | server/internal/jobs/jobs.go:363-405 | in every reachable state at most one write is in flight and one timer armed, the steps are sound, and the log is the tail of its history |
| Jobs.RowEqualsMemory | server/internal/jobs/jobs.go:149-187 | once everything has drained and the last write did not fail, the row equals memory if and only if the job failed or was dirty when it ended |
| Jobs.CleanSuccessIsNotWritten | server/internal/jobs/jobs.go:172-187 | a job with nothing left to write that ends without an error keeps an active row for ever |
| JobHistory.EndIsRecorded | server/internal/jobs/jobs.go:149-187 | in every run that holds the end of a job: it is failed if and only if its work returned an error, which is its last log line and, in its first 200 characters, the text of a running step that had none; every step is over as it should be; and the row says the same whenever it holds what memory does |
| JobHistory.CallRecords | server/internal/jobs/jobs.go:212-299 | a call ends the running step with its duration or changes its text, opens or skips the first planned step of its label or a new one, and leaves all others alone |
| JobHistory.RunningSince | server/internal/jobs/jobs.go:212-233 | over any run the running step was started by the last Step |
| JobHistory.ResultIsLastSet | server/internal/jobs/jobs.go:325-337 | over any run each key of the result has the value last set, and the job the stack last linked |
| JobHistory.LoggedLinesAreTheText | server/internal/jobs/jobs.go:302-307 | the lines of a logged text, joined again, are the text without the line ends behind it |
| JobHistory.WritesAreApart | server/internal/jobs/jobs.go:363-389 | after any run a flush writes if and only if there is something to write, no write is under way and, unless forced, the last one took its snapshot at least 300 milliseconds ago; one that holds back leaves a timer armed |
| JobHistory.CallsAreFollowed | server/internal/jobs/jobs.go:212-405 | which calls and events are followed by a flush, forced or not, and when the row keeps its stack |
| ConnManager.Manager.GetFirst | server/internal/hosts/conn.go:331-355 | returns the cached connection, or joins the dial in flight, or starts one |
| ConnManager.Manager.GetAgain | server/internal/hosts/conn.go:340-355 | after an eviction looks at the dials alone |
| ConnManager.Manager.Finish | server/internal/hosts/conn.go:359-363 | forgets the dial and caches its connection over whatever is cached |
| ConnManager.Manager.Close | server/internal/hosts/conn.go:88-101 | closes a connection once |
| ConnManager.Manager.Forget | server/internal/hosts/conn.go:398-402 | takes a host's connection out of the cache and returns it for closing |
| ConnManager.Manager.ForgetIdle | server/internal/hosts/conn.go:409-421 | takes out exactly the connections unused for more than ten minutes, in whatever order the cache is walked |
| ConnManager.Manager.ForgetAll | server/internal/hosts/conn.go:428-432 | takes out every connection |
| ConnManager.CompleteKeeps | server/internal/hosts/conn.go:359-363 | a finished dial keeps the invariant, and drops an unclosed connection if and only if it succeeds while its host has one cached, which needs a caller that missed a success |
| ConnManager.InvStep | server/internal/hosts/conn.go:331-436 | every lock region of every caller keeps the invariant |
| ConnManager.OneDialPerHost | server/internal/hosts/conn.go:341-355 | in every interleaving at most one dial per host is in flight |
| ConnManager.WaiterGetsItsDial | server/internal/hosts/conn.go:341-372 | a waiter gives up or gets exactly the answer of the dial it joined, for its own host |
| ConnManager.GoneForGood | server/internal/hosts/conn.go:398-436 | an evicted connection is closed or about to be, and never cached again |
| ConnManager.LeavingIsClosing | server/internal/hosts/conn.go:359-363 | a connection leaves the cache to be closed, or is dialled over by a caller that missed a success |
| ConnManager.NothingIsLost | server/internal/hosts/conn.go:331-373 | after any run every connection dialled is cached, closed or about to be closed if and only if no dial of the run succeeded while its host had a connection cached |
| ConnManager.LostForGood | server/internal/hosts/conn.go:359-436 | a connection that was dialled over is never cached or closed again, whatever happens |
| ConnManager.OverwritesNeedASlip | server/internal/hosts/conn.go:339-363 | such a dial needs a caller that missed a success between its eviction and its second look |
| ConnManager.MissedSuccessLeaks | server/internal/hosts/conn.go:339-363 | from any state with such a caller and neither dial nor connection of its host, a run of four events leaves a connection that stays uncached and unclosed in every continuation |
| ConnManager.EvictionIsReached | server/internal/hosts/conn.go:333-340 | such a state is reached |
| ConnRules.GetTells | server/internal/hosts/conn.go:331-355 | a call of Get asks the cached connection, or waits for the dial in flight to its host, or for a new one if there is none |
| ConnRules.DialTells | server/internal/hosts/conn.go:356-366 | a dial answers with a new, open, cached connection to its host or with the refusal, and a refusal changes nothing else |
| ConnRules.EvictionTells | server/internal/hosts/conn.go:396-436 | Invalidate takes out just its host, CloseAll every host, to be closed |
| ConnRules.IdleIsUnused | server/internal/hosts/conn.go:406-425 | after any run CloseIdle takes out exactly the connections whose last use, by Get or by work, is more than ten minutes ago |
| ConnRules.CachedIsReturned | server/internal/hosts/conn.go:331-340 | a call that returns from the cache returns the connection cached when it was made |
| Events.Supervisor.SyncEventStreams | server/internal/monitor/events.go:39-75 | exactly the wanted hosts are registered afterwards, kept ones with their old stream |
| Events.Supervisor.SyncListed | server/internal/monitor/events.go:39-49 | the wanted hosts are those that are online or degraded; without a list nothing happens |
| Events.Supervisor.StopEvents | server/internal/monitor/events.go:77-84 | cancels and forgets the host's stream |
| Events.Supervisor.FinishStream | server/internal/monitor/events.go:65-72 | an uncancelled stream that ends cancels and forgets the registered one |
| Events.OneStreamPerHost | server/internal/monitor/events.go:39-84 | at any point of any run a host has at most one uncancelled stream, the registered one |
| Events.FinishTouchesOnlyItself | server/internal/monitor/events.go:65-72 | a stream that ends never cancels or unregisters another one |
| Events.SyncIsExact | server/internal/monitor/events.go:44-64 | after a sync exactly the wanted hosts have an uncancelled stream |
| Events.CancelledForGood | server/internal/monitor/events.go:21-84 | a cancelled stream stays cancelled |
| Recreate.Recreate | server/internal/dockerops/containers.go:405-553 | every call but the last succeeds; if that last one is the removal of the old container, nothing is taken back, the new container is exactly as wanted and the old one is gone or, when the removal was refused, set aside; if another call is refused, exactly its compensating calls follow, and when these succeed the daemon is as before; at every moment the old container exists or the new one is finished; others are never touched |
| Recreate.SetAside | server/internal/dockerops/containers.go:495-510 | renames the old container and stops it if it runs, up to the first refusal; only a refused stop takes the rename back |
| Recreate.Rollback | server/internal/dockerops/containers.go:511-523 | removes the new container if there is one, renames the old one back and starts it if it ran: these calls, whichever are refused, and the state as before when none is |
| Recreate.MakeNew | server/internal/dockerops/containers.go:524-543 | creates, connects and starts the new container up to the first refusal, and says which container a roll back has to remove |
| Recreate.Swap | server/internal/dockerops/containers.go:511-553 | from the old container set aside: the new one made and the old one asked to go, or everything taken back |
| Recreate.ConnectAll | server/internal/dockerops/containers.go:528-532 | joins the remaining networks one by one |
| Recreate.SplitNetworks | server/internal/dockerops/containers.go:468-492 | for any order of the map, the first network and the others are all of them once, and none is first only for a shared mode or no network at all |
| Recreate.SameNetworks | server/internal/dockerops/containers.go:468-492 | the new container is in the old one's networks if and only if a network was named or Docker's own choice is among them |
| Recreate.Describe | server/internal/dockerops/containers.go:408-467 | the new configuration and restart policy; what they are is stated by WantedIsAsAsked |
| Recreate.WantedIsAsAsked | server/internal/dockerops/containers.go:394-491 | the new container has the asked environment, image and restart policy or the old ones, 5 retries exactly for on-failure, the old host name unless it was the short id, the old networks without that alias; without Pull every other field is the old one, with it what the old image did not give; and it runs exactly when the old one did, a new image was named or a pull was asked. Recreate promises this of the container it made |
| Recreate.BackupIsNew | server/internal/dockerops/containers.go:494-495 | the name of the container set aside is not its own and differs from second to second |
| Recreate.Strip | server/internal/dockerops/containers.go:419-453 | what is left of a configuration once the image's own values are dropped |
| Recreate.SameImageSameEffect | server/internal/dockerops/containers.go:419-453 | from an unchanged image the effective configuration is unchanged if and only if it is not one of the two lost cases |
| Recreate.EnvComesBack | server/internal/dockerops/containers.go:424-424 | dropping the image's variables and completing from the image gives the same variables |
| ImageUpdate.UpdateIsAsFresh | server/internal/dockerops/containers.go:419-453 | updated to another image, a container is what the user's own settings give with that image if and only if none of them repeats a value of the old image that the new one lacks; the condition is written out field by field |
| ImageUpdate.NothingRepeated | server/internal/dockerops/containers.go:419-453 | so it is whenever the user repeats nothing of the old image |
| Recreate.Subtract | server/internal/dockerops/containers.go:566-578 | the elements not removed, in order |
| Recreate.EqualStrings | server/internal/dockerops/containers.go:580-590 | decides equality |
| Recreate.FilterAliases | server/internal/dockerops/containers.go:555-564 | drops exactly the alias that is the container's short id |
| Interpolate.InterpolateIsScan | server/internal/deploycheck/parse.go:129-165 | on every text and environment the three passes are one left-to-right scan, up to NUL characters |
| Interpolate.InterpolateExact | server/internal/deploycheck/parse.go:133-165 | they are the scan if and only if its result has no NUL |
| Interpolate.InterpolateScansOnce | server/internal/deploycheck/parse.go:133-165 | on NUL-free inputs they are the scan, so substituted values are never scanned again |
| Interpolate.ScanNoDollar | server/internal/deploycheck/parse.go:129-165 | a text without a dollar sign is left alone |
| Interpolate.ScanDoubled | server/internal/deploycheck/parse.go:129-165 | doubling every dollar sign protects a text |
| InterpolateRules.OperatorRules | server/internal/deploycheck/parse.go:133-165 | `:-` and `-` put their text in place of an empty or missing, or only of a missing variable, `:+` and `+` in place of one that has a value, or is set; `:?` and `?` give the plain value; interpolation goes on behind the brace |
| InterpolateRules.NameRules | server/internal/deploycheck/parse.go:129-141 | a name, in braces or as long as name characters follow, is its value, "" if it is not set |
| InterpolateRules.CharRules | server/internal/deploycheck/parse.go:132-135 | a doubled dollar is a dollar, every other character is itself |
| InterpolateRules.DollarRule | server/internal/deploycheck/parse.go:129-135 | a dollar that starts neither a doubled one nor a reference stays; with the other rules this fixes the result for every text |
| EnvFile.WriteEnv | server/internal/gitdeploy/deploy.go:405-414 | the file is one line per variable |
| EnvFile.ParseEnvValue | server/internal/github/parse.go:80-128 | the value and the inline comment of a line's right-hand side |
| EnvFile.ParseEnvExample | server/internal/github/parse.go:26-72 | the variables of a file; a repeated key keeps its first place and its last value |
| EnvFile.QuotedComesBack | server/internal/gitdeploy/deploy.go:417-422 | a quoted value is read back with its dollar signs doubled, whatever it holds |
| EnvFile.BareComesBack | server/internal/github/parse.go:80-128 | a bare value is read back as itself unless it opens with a backtick |
| EnvFile.ValueRoundTrip | server/internal/gitdeploy/deploy.go:417-422 | written, read and interpolated a value comes back if and only if it has no NUL and is not a bare value opening with a backtick that is closed or has white space at an end |
| EnvFile.FileComesBack | server/internal/github/parse.go:26-72 | reading a written file gives exactly its variables, in order |
| EnvFile.FileValueRoundTrip | server/internal/gitdeploy/deploy.go:405-422 | the exact condition for a value read from its line of a file |
| EnvFile.FileRoundTrip | server/internal/gitdeploy/deploy.go:405-422 | a whole file of surviving values comes back through reader and interpolation |
| EnvFileRules.WrittenLine | server/internal/gitdeploy/deploy.go:405-422 | what is written of one variable, quoted exactly when it holds one of eight characters |
| EnvFileRules.BareRules | server/internal/github/parse.go:118-127 | a bare value without an inline comment is itself; one that starts behind a blank or tab is cut off, hashes and outer white space included |
| EnvFileRules.HashRule | server/internal/github/parse.go:118-120 | a text that opens with a hash is all comment |
| EnvFileRules.QuotedRules | server/internal/github/parse.go:84-117 | in single quotes or backticks every character is itself up to the closing one, with the comment behind it; without a closing one the text is taken as it stands |
| EnvFileRules.DoubleQuotedRules | server/internal/github/parse.go:84-117 | between double quotes a backslash makes n a line end, t a tab and any other character itself |
| EnvFileRules.LineRules | server/internal/github/parse.go:32-44 | which lines are blank and which are comments, with which text |
| EnvFileRules.EntryRule | server/internal/github/parse.go:45-53 | a line with a key, white space around the two sides and perhaps "export " in front is that entry, except for a key "export" with a blank behind it |
| EnvFileRules.FileRule | server/internal/github/parse.go:26-72 | whatever a file holds, each key with an entry stands in the place of its first and says what its last does: its value, and the comments of the lines directly above and behind it |
| Shell.QuotedIsLiteral | server/internal/util/util.go:19-21 | wherever it stands, a quoted text adds exactly itself to the current word |
| Shell.QuotedIsOneWord | server/internal/util/util.go:19-21 | each of the two quotings of any text is the one word of that text |
| Shell.ArgumentListReadsBack | server/internal/dockerops/dryrun.go:104-122 | a rendered argument list is read back as that list |
| Shell.RenderingIsInjective | server/internal/dockerops/dryrun.go:104-122 | two argument lists with one rendering are the same list |
| Shell.SudoPassesCommand | server/internal/machines/collect.go:452-457 | sudo's shell gets the command as one word, unchanged |
| Shell.SudoDeliversPackages | server/internal/machines/machines.go:382-388 | package names pass both shells verbatim |
| Shell.ComposeFileArgs | server/internal/dockerops/containers.go:710-718 | one -f per non-blank file of the label, in order |
| Shell.FileArgsReadBack | server/internal/dockerops/containers.go:710-718 | behind any command the arguments are read back as those files |
| Shell.FileNamesLaw | server/internal/dockerops/containers.go:709-718 | the files are the parts of the label between commas, trimmed, without the blank ones |
| Sorting.SortKeys | server/internal/dockerops/dryrun.go:55-66 | the keys of a map in order, each once, however the map is walked |
| Sorting.SortedOnlyOneWay | server/internal/dockerops/dryrun.go:55-66 | there is only one such order |
| DryRun.DockerRunCommand | server/internal/dockerops/dryrun.go:42-109 | a shell reads the shown line as exactly the argument list of the spec |
| DryRun.OrderDoesNotMatter | server/internal/dockerops/dryrun.go:55-103 | the list does not depend on the order in which maps are walked |
| DryRunRules.LineRunsTheSpec | server/internal/dockerops/dryrun.go:42-109 | the line runs the spec's image, detached, with exactly its name, restart policy, network, published and exposed ports, volumes, environment and labels behind their flags |
| DryRunRules.OrdersAre | server/internal/dockerops/dryrun.go:55-103 | ports come by number and protocol, labels by name, each once |
| Lines.ScanLinesCR | server/internal/hosts/conn.go:161-176 | a token is never found without consuming bytes, nor more of them than there are |
| Lines.TakeToken | server/internal/hosts/conn.go:161-176 | taking a token loses and adds nothing but blank lines, whatever arrives later |
| Lines.ExecStream | server/internal/hosts/conn.go:132-158 | however the stream is cut into writes, the non-blank lines handed on are those of the whole stream up to the first over-long line |
| Lines.WhatIsHandedOn | server/internal/dockerops/containers.go:733-736 | those are all non-blank lines, or the ones in front of the first line of a megabyte |
| Lines.SegsAppend | server/internal/registry/registry.go:913-926 | only the unfinished last line can still change when more is written |
| Lines.LineWriter.Write | server/internal/registry/registry.go:913-926 | emits the trimmed non-empty lines completed so far and keeps the rest |
| Lines.LineWriter.Flush | server/internal/registry/registry.go:928-933 | emits the rest and starts afresh |
| Lines.WriteAll | server/internal/registry/registry.go:908-933 | whatever the pieces, the lines emitted are those of their concatenation |
| LineRules.ScanRule | server/internal/hosts/conn.go:161-176 | a token ends at the first feed or return, a return with a feed counting as one; the rest is a token at the end of the stream only |
| LineRules.OutputIsItsLines | server/internal/hosts/conn.go:132-176 | lines with feeds and returns in any mixture, however cut, are handed on without the blank ones |
| LineRules.LogIsItsLines | server/internal/registry/registry.go:908-933 | the log writer emits the lines between feeds, trimmed, without those of which nothing is left |
| LineRules.KeepLaws | server/internal/dockerops/containers.go:733-736 | blank lines are dropped one by one |
| LineRules.EmitLaws | server/internal/registry/registry.go:913-933 | lines are trimmed and dropped one by one |
| Settings.MergeAbsorbs | server/internal/settings/settings.go:343-358 | merging gives the patch back if and only if it covers the base |
| Settings.MergeIdempotent | server/internal/settings/settings.go:343-358 | merging a value into itself changes nothing |
| Settings.MergeAssociates | server/internal/settings/settings.go:343-358 | the grouping of three merges does not matter if and only if no plain value in the middle hides keys that the last lacks |
| Settings.SettingsReadBack | server/internal/settings/settings.go:327-340 | fromMap undoes toMap |
| Settings.SavedIsReloaded | server/internal/settings/settings.go:134-165 | a saved section, merged over the defaults and decoded, is that section normalized |
| Settings.FreshStoreInSync | server/internal/settings/settings.go:129-165 | a store without rows starts in step with Load if and only if its defaults are normalized |
| Settings.EmptyPatchSettles | server/internal/settings/settings.go:186-218 | a patch that names nothing is accepted if and only if every section is, and still trims and normalizes them all |
| Settings.PatchKeepsStep | server/internal/settings/settings.go:186-218 | after a saved patch Load reads back the cache if and only if every section not named was already trimmed and normalized |
| Settings.FailedSaveKeepsStep | server/internal/settings/settings.go:210-217 | after a save failed half-way, if and only if the sections saved before it are unchanged |
| Settings.UpdateKeepsStep | server/internal/settings/settings.go:221-231 | after an update, if and only if it changed no other section and left its own normalized |
| Settings.SyncOverRuns | server/internal/settings/settings.go:134-218 | over any run of saved patches, Load reads back the cache throughout if and only if each patch met only settled sections besides its own |
| Settings.SettledIff | server/internal/settings/settings.go:286-303 | when a section is settled, by its URL, domain, address and time zone |
| Settings.SettledAgain | server/internal/settings/settings.go:286-325 | what a patch makes of a section is settled if and only if cutting slashes or a scheme uncovered no white space, and a default URL taken for an empty one stays as it is |
| Settings.PlainPatchSettles | server/internal/settings/settings.go:186-218 | from a settled cache an accepted patch leaves a settled cache if and only if the URL and the address it names are such that cutting uncovers no white space, and a default URL taken for an empty one stays as it is |
| Settings.SettledRunsStayInSync | server/internal/settings/settings.go:134-218 | Load reads back the cache throughout every run from a settled start whose patches name only such values |
| Settings.SlashUncoversSpace | server/internal/settings/settings.go:301-301 | the public URL "x /", followed by a patch of another section, leaves row and cache different |
| Settings.SlashRunExists | server/internal/settings/settings.go:186-218 | both patches are accepted from every cache whose sections are |
| Settings.Store.Load | server/internal/settings/settings.go:134-165 | the rows in any order over the defaults, or the old cache |
| Settings.Store.ApplyPatch | server/internal/settings/settings.go:186-218 | the cache changes only when every row was written; which rows were, when one fails |
| Settings.Store.Update | server/internal/settings/settings.go:221-231 | writes one row and the cache, or neither |
| SettingsPatch.PatchIs | server/internal/settings/settings.go:181-218 | a patch is accepted if and only if it names known sections with values of the right types and every section is valid; each section then holds the named values and otherwise its own, trimmed and completed from the defaults, and github's secret is never changed |
| SettingsPatch.SectionMerges | server/internal/settings/settings.go:327-358 | merged and decoded, a section has the values an object names and its own otherwise, for every field by its name |
| SettingsPatch.ValidIs | server/internal/settings/settings.go:259-304 | what validate demands of each section |
| SettingsPatch.StoredIs | server/internal/settings/settings.go:284-325 | what validate and normalize leave of a section |
| SettingsPatch.LoadIs | server/internal/settings/settings.go:134-165 | loading succeeds if and only if every row that is an object has values of the right types, and gives the defaults with the rows' values on top |
| RegistryAuth.Service.LookUp | server/internal/registry/registry.go:513-524 | answers from the cache while an entry has not run out |
| RegistryAuth.Service.Insert | server/internal/registry/registry.go:539-549 | stores an entry, emptying an overfull cache first |
| RegistryAuth.Service.DropAll | server/internal/registry/registry.go:456-463 | empties the cache |
| RegistryAuth.CacheHitsWereChecked | server/internal/registry/registry.go:513-549 | in every interleaving a login from the cache rests on a check with that token and scope, stamped less than five minutes before, of that very login unless its user name or password holds a NUL |
| RegistryAuth.TokenWasThere | server/internal/registry/registry.go:525-535 | a check of a token was made while that token existed unrevoked, with its id and scope |
| RegistryAuth.CacheIsBounded | server/internal/registry/registry.go:536-549 | at most 501 answers are cached, and a password's answer is to push |
| RegistryAuth.KeysTellLoginsApart | server/internal/registry/registry.go:513-515 | a login shares its cache key with another if and only if its user name or password holds a NUL |
| RegistryAuth.SharedKeyGetsIn | server/internal/registry/registry.go:513-549 | whenever two logins share a key, a run lets the one in on the check of the other alone |
| RegistryAuth.RevokedStaysOut | server/internal/registry/registry.go:451-463 | a revoked token is never let in again, if no request with it was between check and insert when the revocation returned |
| RegistryAuth.UnderwayGetsIn | server/internal/registry/registry.go:513-549 | and if one was, some run lets the token in afterwards |
| Alerts.Engine.Raise | server/internal/alerts/alerts.go:60-93 | opens an alert and notifies, or refreshes an open one |
| Alerts.Engine.Event | server/internal/alerts/alerts.go:96-114 | records a closed alert and notifies |
| Alerts.Engine.Resolve | server/internal/alerts/alerts.go:117-124 | closes an open alert and says whether it was open |
| Alerts.Engine.ResolvePrefix | server/internal/alerts/alerts.go:127-136 | closes exactly the open alerts of a prefix that are not kept |
| Alerts.Engine.Evaluate | server/internal/monitor/monitor.go:449-490 | one evaluation as a function of the alerts before |
| Alerts.EvaluateOpens | server/internal/monitor/monitor.go:449-490 | which alerts are open afterwards, for every key: of the unhealthy ones exactly the host's unhealthy containers |
| AlertRules.EvaluationRows | server/internal/monitor/monitor.go:449-490 | the row of every key after an evaluation, with thresholds and severities |
| AlertRules.EvaluationNotices | server/internal/monitor/monitor.go:449-490 | exactly which notifications an evaluation sends, in order |
| Alerts.OtherHostsUntouched | server/internal/monitor/monitor.go:449-490 | another host's alerts stay as they are |
| Alerts.LevelFollowsSamples | server/internal/monitor/monitor.go:456-473 | over any run the disk or memory alert is open if and only if the latest decisive sample was at or above the threshold |
| Alerts.OneNoticePerOpening | server/internal/alerts/alerts.go:60-93 | with Raise in one step, notifications per key are its openings |
| Alerts.EvaluationIsStatements | server/internal/monitor/monitor.go:449-490 | an evaluation is a sequence of such statements |
| Alerts.NoticesInTwoSteps | server/internal/alerts/alerts.go:60-93 | with lookup and write apart, notifications are the openings plus the writes that found the alert open |
| Alerts.TwoCallersNotifyTwice | server/internal/alerts/alerts.go:60-93 | which happens |
| Alerts.WatchStep | server/internal/monitor/monitor.go:159-301 | whichever polls of a host, host tests and restarts interleave, each step keeps recoveries and offline notices in balance, and an evaluation leaves the offline alert open if and only if it was open and neither flag nor record had said offline |
| Alerts.DownAndUpAlternate | server/internal/monitor/monitor.go:159-301 | so over every interleaved run offline and recovered notices alternate, and the open alert is their difference |
| Alerts.PollIsItsSteps | server/internal/monitor/monitor.go:159-301 | an undisturbed poll is its steps, whatever its outcome |
| Alerts.RecoveryIsMissed | server/internal/api/hosts.go:165-183 | polls one after the other: a success leaves the offline alert open if and only if it was open, and since the last offline failure the host was tested and the server restarted without a failed poll between the restart and the test |
| Alerts.OfflineAlertIsForgotten | server/internal/monitor/monitor.go:249-250 | offline, restart, host test, success: the alert stays open |
| Alerts.SuccessCloses | server/internal/monitor/monitor.go:159-301 | polls one after the other: without host tests every success closes the alert, across any restarts |
| Alerts.SuccessLeavesOpen | server/internal/monitor/monitor.go:159-301 | a success that no other poll disturbs leaves the alert open if and only if it was open and flag and row were cleared |
| Alerts.RemembersOverRuns | server/internal/monitor/monitor.go:159-301 | polls side by side: an open alert stays remembered, by flag, row or a success on its way, if and only if no restart, host test, record or late alert meets the guard that forgets it |
| Alerts.PromptRunsRemember | server/internal/monitor/monitor.go:159-301 | so it is when the server does not restart and no host answers while an offline alert is on its way, with any host tests |
| Alerts.LateRaiseIsForgotten | server/internal/monitor/monitor.go:176-186 | whenever an offline alert is on its way, a success before and one after it leave it open |
| Alerts.RaiseIsOnItsWay | server/internal/monitor/monitor.go:176-186 | which one failed poll brings about |
| Alerts.RestartIsForgotten | server/internal/monitor/monitor.go:249-282 | a restart while the alert is open and the row online, and the next success leaves it open |
| AlertRules.OfflineWhenUsedUp | server/internal/hosts/store.go:270-279 | the record says offline if and only if a failure since the last answer used up the retries |
| AlertRules.NoticeAtLastRetry | server/internal/monitor/monitor.go:166-186 | of a monitored host that stops answering, exactly the failure that uses up the retries opens the alert and sends the one notice |
| AlertRules.UnmonitoredIsSilent | server/internal/monitor/monitor.go:181-186 | a host that is not monitored never has an offline alert |
| Manifest.ArchiveFiles | server/internal/gitdeploy/deploy.go:601-621 | the files of tar's listing, none when the listing has no single top folder |
| Manifest.ListingReadsBack | server/internal/gitdeploy/deploy.go:601-621 | a listing of files below one folder is read as exactly those files |
| Manifest.ListedHas | server/internal/gitdeploy/deploy.go:601-621 | no file on a line of its own is missing from an accepted listing, whatever the other lines are |
| Manifest.ListedAreRelative | server/internal/gitdeploy/deploy.go:612-618 | whatever tar printed, an accepted name is relative, on one line and without dots that climb |
| Manifest.ListedArePrunable | server/internal/gitdeploy/deploy.go:601-640 | every accepted name but the two special ones can be removed later |
| ManifestRules.ListingIs | server/internal/gitdeploy/deploy.go:601-621 | a listing below one folder is read as its files, in order, with or without tar's "x ", past directories, absolute and climbing paths |
| ManifestRules.TwoTops | server/internal/gitdeploy/deploy.go:610-614 | two lines below different folders: nothing is listed |
| ManifestRules.PrunableIs | server/internal/gitdeploy/deploy.go:635-637 | which recorded names may go |
| Manifest.RemovedAre | server/internal/gitdeploy/deploy.go:630-640 | what a deploy removes: exactly the recorded names, trimmed, that are prunable and not in the new archive |
| Manifest.Folder.GoneNames | server/internal/gitdeploy/deploy.go:629-640 | the loop computes these names in order |
| Manifest.RmCommandReadsBack | server/internal/gitdeploy/deploy.go:647-651 | the shell reads the command as removing exactly the files of the batch in the folder |
| Manifest.Folder.PruneDeleted | server/internal/gitdeploy/deploy.go:623-665 | the folder afterwards and the commands asked, whichever are refused: removal is tried exactly for 1 to 2000 names, and the manifest is written in any case |
| Manifest.Folder.RemoveInBatches | server/internal/gitdeploy/deploy.go:641-655 | consecutive batches of 200 cover the whole list unless a command is refused, and nothing is asked after a refusal |
| ManifestRules.BatchesAre | server/internal/gitdeploy/deploy.go:641-655 | 1 to 2000 names go in the least number of batches of 200; after a refused one the batches before it are gone |
| Manifest.OnlyRecordedFilesGo | server/internal/gitdeploy/deploy.go:593-665 | after any run of deploys and writes to the folder: a deploy removes only recorded names if nobody else wrote the manifest and the archive brings none along; in general, if and, when no command fails, only if every removable name in the manifest read was recorded |
| Manifest.NeverRemoved | server/internal/gitdeploy/deploy.go:630-640 | whatever the manifest says, .env, the manifest, absolute and climbing names, listed names and files of the new archive with a line of their own in the listing stay, and everything stays when the manifest cannot be read |
| Manifest.OnlyThoseNamesGo | server/internal/gitdeploy/deploy.go:623-655 | with a manifest of its own, a deploy removes only what was recorded by that very name if and, when no command fails, only if no recorded name is trimmed to the name of another file that could go |
| Manifest.NothingStaleSurvives | server/internal/gitdeploy/deploy.go:593-665 | and if no command fails and at most 2000 names are gone, a recorded name missing from the new archive goes if and only if the manifest read has it, which it does under the same condition |
| Manifest.ArchivedManifestMisleads | server/internal/gitdeploy/deploy.go:316-329 | an archive with a file .dockhand-files removes a file that no deploy recorded |
| Manifest.OuterSpaceHitsAnotherFile | server/internal/gitdeploy/deploy.go:630-640 | a recorded name with outer white space removes another file |
| Limiter.Limiter.Allowed | server/internal/auth/auth.go:371-379 | allowed without a bucket, with an expired one or below the maximum |
| Limiter.Limiter.Fail | server/internal/auth/auth.go:382-398 | counts in a fresh or running bucket and sweeps above 10000 keys |
| Limiter.Limiter.Reset | server/internal/auth/auth.go:401-405 | forgets the key |
| Limiter.SuccessForgets | server/internal/api/auth.go:83-91 | a success forgets its own key and no other |
| Limiter.SweepIsInvisible | server/internal/auth/auth.go:391-397 | after any run every key gets the answer it would get without sweeping |
| Limiter.AtMostTwoWindowsLessOne | server/internal/api/auth.go:72-91 | while sign-ins of a key do not overlap, no stretch of one window without a success of it sees more than 2 max - 1 recorded failures, whatever other keys do |
| Limiter.OnlyStaleOnesExceed | server/internal/api/auth.go:72-91 | in every interleaving of asking, recording and successes of other keys: no more than 2 max - 1 plus the failures recorded when the key would no longer be let in |
| Limiter.AloneIsFresh | server/internal/auth/auth.go:371-405 | there are none of the latter while sign-ins of the key do not overlap |
| Limiter.StaleOnesOverfill | server/internal/auth/auth.go:382-398 | over any run a bucket is filled above max if and only if such a failure is recorded |
| Limiter.BoundsAreTight | server/internal/auth/auth.go:371-398 | both bounds are met for every maximum and window, the second with any number of overlapping sign-ins |
| Limiter.SeparateStepsExceed | server/internal/api/auth.go:72-85 | two sign-ins that ask before either is recorded exceed 2 max - 1, for every maximum |
| Ports.NextFreeName | server/internal/deploycheck/parse.go:40-47 | the least free number from 2, found within one try more than there are taken names |
| Ports.NameConflict | server/internal/deploycheck/check.go:354-384 | a valid name that is taken is an issue, which stops the deployment of an image only; the fix is the least free number behind it |
| Ports.NextFreePort | server/internal/deploycheck/parse.go:50-57 | the least free port above, 0 if there is none |
| Ports.RequestedPorts | server/internal/deploycheck/check.go:324-342 | the first entry of every port and protocol, in order |
| Ports.DedupKeys | server/internal/deploycheck/check.go:324-342 | every one that was asked for is there once |
| Ports.DedupKeepsFirst | server/internal/deploycheck/check.go:324-342 | and it is the first |
| Ports.FindOwners | server/internal/deploycheck/check.go:387-402 | who publishes what, apart from the redeployed stack or container; a port of several is owned by the first |
| Ports.ConflictIssues | server/internal/deploycheck/check.go:385-431 | one issue per conflict, in the order of the entries, naming the owner, with the next port free after earlier fixes |
| PortRules.IssuesTell | server/internal/deploycheck/check.go:387-424 | a requested entry has an issue if and only if a container that stays publishes it or something else listens on it; the first such container is named |
| PortRules.FixesTell | server/internal/deploycheck/check.go:409-431 | the fix is the least usable port above, none for a range and otherwise only if none is usable |
| Ports.FixesAreFree | server/internal/deploycheck/check.go:409-431 | a fix is above the original, unrequested, unowned, not listening, unlike every other fix, and the least such |
| Ports.CheckingAgain | server/internal/deploycheck/check.go:409-431 | with the fixes applied no fixed entry conflicts, and entries stay distinct |
| Ports.SecondCheck | server/internal/deploycheck/check.go:385-431 | so a second check has no issue for a fixed entry |
| Impact.Build | server/internal/impact/impact.go:98-179 | the report on containers that stop, as a function of them |
| ImpactRules.BuiltTells | server/internal/impact/impact.go:32-179 | what stands in a report: each running container and its severity, ports, stacks with their numbers, each monitor that would notice, the worst severity and how many come back |
| ImpactRules.HostAndStackTell | server/internal/impact/impact.go:220-254 | which containers the reports on a host and on a stack are about; neither names dependents |
| ImpactRules.ContainerTells | server/internal/impact/impact.go:257-299 | which containers the report on a text is about, and exactly which depend on them |
| Impact.Dependents | server/internal/impact/impact.go:282-299 | live containers of a touched stack that do not stop themselves |
| Impact.ReportHost | server/internal/impact/impact.go:220-233 | the host's report |
| Impact.ReportStack | server/internal/impact/impact.go:236-254 | the stack's report |
| Impact.ReportContainer | server/internal/impact/impact.go:257-278 | the container's report, none if it is not found |
| Impact.BuiltMonotone | server/internal/impact/impact.go:98-179 | more containers stopping means more stops, ports, stacks and monitors and no less severity |
| Impact.StackWithinHost | server/internal/impact/impact.go:220-254 | a stack's report is contained in its host's |
| Impact.ContainerWithinStack | server/internal/impact/impact.go:236-278 | a container's report is contained in a stack's if and only if every live container that the text means is in that stack; the "only if" rests on distinct container names |
| Impact.AmbiguousContainer | server/internal/impact/impact.go:257-278 | when one container's id is the name of another in a different stack, the report is in neither stack's |
| Impact.StopsAndDepends | server/internal/impact/impact.go:257-299 | stops and depends are disjoint and together the live containers of the touched stacks |
| Impact.ContainerSplitsItsStack | server/internal/impact/impact.go:257-299 | stops and depends of the report on a text that means one container split the live containers of its stack |
| Impact.StackCountsAre | server/internal/impact/impact.go:110-130 | each stack is listed with the number of its containers that stop |

## Left out

- Strings are sequences of characters: bytes that are no valid UTF-8 and the bounds of machine integers are not
  modelled.
- Jobs: Snapshot, Get, List, Running, Wait, the finish hooks and the deadline texts; goroutines that a job's work
  leaves behind and that record after it has returned; the printed form of durations.
- Jobs.CleanSuccessIsNotWritten: speaks of the row alone; the source answers from memory while the job is active.
- ConnManager: SSH and Docker dialling, pinning of host keys and the sweep of helper containers; whether a
  connection still answers is open.
- ConnManager.WaiterGetsItsDial: a caller whose context ends is modelled as giving up at any time.
- Recreate: the pull itself, whose outcome is an input; containers that remove themselves when stopped, a daemon on
  which somebody else works at the same time, and the effect of the stripping on the maps that the inspection result
  shares.
- Recreate.SameImageSameEffect: each variable is taken to be set once by the user and once by the image.
- Recreate.SplitNetworks: network names are taken to be non-empty, as Docker requires.
- EnvFile.ParseEnvExample: the flag that tells placeholders from values is not modelled.
- Settings: JSON keys are matched exactly, while Go's decoder also accepts other cases; numbers are exact; the
  window check and the list of time zones are parameters; Get, GetRaw and PutRaw.
- RegistryAuth: hashing of passwords and keys, the touch of last-used times, and the registry protocol itself.
- Alerts: failing database statements, texts of notices and preferences; the percentages are numbers given; an
  evaluation within the bookkeeping of polls is one step.
- Alerts.RecoveryIsMissed: polls one after the other; Alerts.RemembersOverRuns is about those side by side.
- Alerts.SuccessCloses: likewise; Alerts.SuccessLeavesOpen and Alerts.PromptRunsRemember are about those side by side.
- Manifest: the copying of the archive and extractions that fail half-way; paths are compared as text, without links or
  case folding; a file counts as listed when it has a line of its own.
- Manifest.Folder.RemoveInBatches: a refused command is taken to remove nothing, while `rm` may remove part of a batch.
- Limiter: addresses of clients; the clock does not run backwards.
- Ports: parsing of port lists and of ss output, the check of paths; whether docker accepts a name is an input.
- Impact: parsing of monitor targets, the sorting and the words of a report, and the backups and jobs it mentions.
- DryRun: what docker does with the published ports of the line.
- Not modelled at all: the uptime checks, the terminal and WebSocket code, the user interface, and the other
  services, which hold no protocol of their own.
