# Verified model of AndroidLibBoxLite's supervisors, wire formats and update rules

The repository adds to sing-box what an Android box needs around the core: plugin
processes that are supervised, reloaded and cleaned up; URL tests with options that
travel as unknown protobuf fields; a helper process that hands Android's DNS servers
to the core; and a script that follows the upstream tags. This project models those
parts in Dafny and proves what their code and comments promise.

`dafny verify dfyconfig.toml` verifies everything. Each module is one file:

- `GuardMachine`, `PluginGuard`: one supervised plugin. The `run` goroutine, stop
  requests, the group-kill timer, `waitStopped` and the process itself are steps of one
  machine that may interleave in any order. `PluginGuard.Guard` is the object whose
  fields those steps update in place; each of its methods is proved to be one step.
- `PluginHost`: the pool, with its guard map, protect server and the files of the
  plugins in one shared directory. `PluginHosts`: which pool belongs to which command
  server, with reloads, closes and failure callbacks interleaving. `PluginShutdown`: the
  stops and waits of a pool carried out on its guards, while everything else goes on.
- `PluginOptions`, `Paths`: validation of the envelope, `${file:Name}` references and
  the path rules behind them. `PluginOutput`: output chunks turned into log lines.
- `UrlTestGroups`: the search of the group graph. `ProtoWire`, `UrlTestOptions`: the
  wire format of the options (Protocol Buffers Encoding guide, "Base 128 Varints",
  "Message Structure", "Groups" and "Last One Wins").
- `DnsPublish`, `DnsPipeline`, `DnsFrames`, `DnsSnapshot`, `DnsDelivery`: from Android's
  networks to the resolver's server list, across two processes.
- `HelperFile`: installing the helper's dex file; every system call leaves a state a
  crash could leave.
- `UpstreamTags`: tags ordered as section 11 of Semantic Versioning 2.0.0 orders
  versions. `Ancestry`: the walk up `/proc`. `Prelude`: shared datatypes and facts.

Times are nanoseconds and integers are unbounded; where the source has a width it is
written out (64-bit varints, timeouts cut off at the largest int32, flags modulo 256).
Clocks, process exits, `select` choices, failing calls and random names are arbitrary:
they are events or parameters, and the theorems hold for all of them.

Two things the source sets out to do hold only under a condition, which is stated exactly.

- `native/pluginpool/host.go:31` says the rest of a line longer than 4096 bytes is
  dropped. The code drops it only when it comes in the same write. `ChunksDoNotMatter`
  proves that every split of a stream into writes gives the same log if and only if
  each of its lines has at most 4096 bytes, or 4097 of which the last is a CR and the
  one before it is not.
- `waitStopped` (`native/pluginpool/host.go:388-402`) may give up 1.5 seconds after
  the group kill was due, and then cancels it. `KillIsLostWhenLate` proves that a stop leaves
  a running process that is neither killed nor about to be if and only if the timer is
  that late; `LateTimerLosesTheKill` is such a run.

## Model

| member | source | states |
|---|---|---|
| `GuardMachine.StepKeepsInv` | native/pluginpool/host.go:278-402 | every step of `run`, a stop, the timer, the waiter, the clock or the process keeps which process is held, which signals a stopping guard has sent, and what has been delivered |
| `GuardMachine.RunKeepsInv` | native/pluginpool/host.go:278-402 | so the invariant holds in every reachable state of every interleaving |
| `GuardMachine.StartsAfterStop` | native/pluginpool/host.go:325-377 | after a stop that found an attached process no process starts any more; after any other stop at most one does |
| `GuardMachine.LiveProcessIsCovered` | native/pluginpool/host.go:325-402 | each live process of a stopping guard was sent SIGKILL, or SIGTERM with the group kill armed or fired, or `run` has still to pass the Kill in `attach`; or it was sent SIGTERM and `waitStopped` cancelled a group kill that was at least 1.5 seconds late |
| `GuardMachine.CancelOnlyAfterExit` | native/pluginpool/host.go:388-402 | `waitStopped` cancels the group kill only when `run` has returned and no process lives, or when the kill is at least 1.5 seconds late |
| `GuardMachine.KillIsLostWhenLate` | native/pluginpool/host.go:388-402 | the end of `waitStopped` leaves a running process that is neither killed nor about to be exactly when the group kill is still armed and at least 1.5 seconds late |
| `GuardMachine.OnlyTheWaitLosesTheKill` | native/pluginpool/host.go:278-402 | no other step, in any interleaving, leaves such a process |
| `GuardMachine.LateTimerLosesTheKill` | native/pluginpool/host.go:388-402 | a run in which the stop ends and the process lives on with SIGTERM only |
| `GuardMachine.WaitedMeans` | native/pluginpool/host.go:388-402 | when `waitStopped` goes on to remove the files, `run` has returned and every process is gone, or patience has run out and the process is killed, about to be, or had a late group kill |
| `GuardMachine.DeliveredOnce` | native/pluginpool/host.go:283-308 | over a whole life one start result, `done` closed exactly when `run` returns, at most one fatal report, and never both a start error and a fatal report; `FailureIsReported` says when there is one |
| `GuardMachine.FailureIsReported` | native/pluginpool/host.go:287-308 | a guard that ends without a stop has reported why: a start error, or exactly one fatal failure |
| `GuardMachine.StartErrorIsFinal` | native/pluginpool/host.go:287-296 | a start that fails, the first or a later one, is the last: no process starts after it |
| `GuardMachine.NoFatalAfterStop` | native/pluginpool/host.go:359-363 | once a stop was requested no failure is reported, unless its report was already on the way |
| `GuardMachine.NoSignalBeforeStop` | native/pluginpool/host.go:325-386 | no process is signalled before a stop |
| `GuardMachine.GraceIsGiven` | native/pluginpool/host.go:365-386 | a process that a stop finds is sent SIGTERM at once, and SIGKILL no sooner than a second later |
| `GuardMachine.PatienceIsFixed` | native/pluginpool/host.go:388-395 | a wait may give up once `run` has returned or two and a half seconds have passed since it began, and no sooner |
| `GuardMachine.JudgedByHistory` | native/pluginpool/host.go:298-321 | told by the past events alone: a first run of less than a second fails, and any other end leads to a wait of 1, 2, 4, 8, 16 and then 30 seconds, counted anew after a run of thirty seconds |
| `GuardMachine.RestartWaits` | native/pluginpool/host.go:314-320 | the restart comes no sooner than that wait is over |
| `GuardMachine.StopIsBounded` | native/pluginpool/host.go:278-402 | once stopping, at most 43 steps remain besides clock ticks and repeated requests |
| `GuardMachine.StopWaitsOnlyForTheKilled` | native/pluginpool/host.go:278-402 | a stopping guard with no step left waits for a live process that was sent SIGKILL, or whose group kill is not yet due, or was cancelled late |
| `GuardMachine.StepKeepsPaced` | native/pluginpool/host.go:284-321 | every step keeps the credit that pays for restarts, for each of the delays 1, 2, 4, 8, 16 and 30 seconds |
| `GuardMachine.RunKeepsPaced` | native/pluginpool/host.go:284-321 | so every reachable state is paid for, whatever the lengths of the runs |
| `GuardMachine.RestartsAreBounded` | native/pluginpool/host.go:19-25 | N restarts within T seconds of the first start satisfy 45 N <= 4 T + 116 |
| `GuardMachine.BoundIsTight` | native/pluginpool/host.go:284-321 | some run of the machine restarts four times in sixteen seconds, where the bound is an equality |
| `PluginGuard.Guard.Perform` | native/pluginpool/host.go:278-402 | each event done by the object is the machine's step, so the theorems about runs are about the object |
| `PluginGuard.Guard.Play` | native/pluginpool/host.go:278-402 | from the start and under any schedule the object goes through a run of the machine: its restarts are bounded, it delivers one start result, an end without a stop has been reported as a start error or as one fatal failure, nothing is signalled before a stop, after a stop at most one process starts and none when one was attached, and what still runs is covered |
| `PluginHost.Host.Apply` | native/pluginpool/host.go:64-96 | succeeds exactly when the server can listen and every missing plugin can start; then a plugin runs exactly for each one of the envelope, every file of it is on disk with its own content and nothing else is, live guards that are still wanted are the same objects, removed ones were all signalled and then waited for before the first start, and an unchanged protect path keeps its server; on failure exactly the guards kept and started are signalled and then waited for, and no guard, server or file is left |
| `PluginHost.Host.Reconcile` | native/pluginpool/host.go:79-95 | what an open pool does under its lock, for success and failure |
| `PluginHost.SucceedsMeans` | native/pluginpool/host.go:88-114 | success in terms of the envelope: the path is empty, unchanged or can be listened on, the directory can be made, and each plugin runs, repeats an earlier one, or has all its files written, all its references known and its command started |
| `PluginHost.FilesHaveTheirContent` | native/pluginpool/host.go:233-243 | each file of an accepted plugin is written under its own name in the working directory with its own content |
| `PluginHost.ConservedIsOnDisk` | native/pluginpool/host.go:233-243 | so the files of the running plugins are on disk, each with its content, and nothing else is |
| `PluginHost.WantedIsEnvelope` | native/pluginpool/host.go:71-78 | the wanted keys are those of the plugins of the envelope, in its working directory |
| `PluginHost.Host.StartMissing` | native/pluginpool/host.go:98-114 | starts the wanted plugins that do not run, a repeated one once, and succeeds exactly when the directory can be made and each of them can start |
| `PluginHost.Host.StartEach` | native/pluginpool/host.go:102-113 | the loop puts exactly the missing keys into the map, up to the first that cannot start |
| `PluginHost.Host.StartRest` | native/pluginpool/host.go:88-91 | the server comes first, and plugins are started only when it can listen |
| `PluginHost.Host.StopOthers` | native/pluginpool/host.go:79-87 | exactly the guards that are not kept are taken out, all signalled, and then waited for |
| `PluginHost.Host.StartGuard` | native/pluginpool/host.go:104-111 | a plugin whose paths nobody else uses joins the map with its files, or leaves map and files as they were |
| `PluginHost.Host.UpdateServer` | native/pluginpool/host.go:143-169 | succeeds exactly when the path is unchanged, empty or can be listened on; an unchanged path keeps the listener and takes over the verify flag |
| `PluginHost.Host.Close` | native/pluginpool/host.go:117-126 | signals every guard, then waits for each, once, and leaves no guard, server or file; a second call does nothing |
| `PluginHost.Host.StopAll` | native/pluginpool/host.go:128-139 | signals every guard in the map before it waits for the first, and leaves no guard, server or file |
| `PluginHost.Host.TakeGuards` | native/pluginpool/host.go:79-86 | takes out exactly the guards that are not kept, each once, in whatever order |
| `PluginHost.Host.Serve` | native/pluginpool/host.go:64-139 | after any sequence of applies and closes the disk holds each file of each guard in the map, with its own content, and nothing else; a closed pool stays empty |
| `PluginHost.Host.Start` | native/pluginpool/host.go:209-231 | succeeds exactly when the files can be written, every reference is known and the command starts; then the files of the plugin are added and what it executes is its command and environment filled in; a failure says which of the three failed and leaves the directory as it was |
| `PluginHost.Host.WriteFiles` | native/pluginpool/host.go:233-243 | a failed write is tracked, so removing the tracked paths also removes a partial file |
| `PluginHost.Host.RemoveFiles` | native/pluginpool/host.go:404-408 | removes the planned paths and nothing else |
| `PluginHost.Host.StopGuards` | native/pluginpool/host.go:411-418 | signals every guard before it waits for the first, and removes the files of exactly these guards |
| `PluginHost.WantedAreDisjoint` | native/pluginpool/options.go:74-94 | in an envelope that validation accepts no two plugins share a file path |
| `PluginHost.AllWantedAreDisjoint` | native/pluginpool/options.go:74-94 | so different wanted plugins never share a path, repeated ones counting once |
| `PluginHost.DropConserves` | native/pluginpool/host.go:401-408 | one guard's cleanup never removes another guard's file |
| `PluginHost.AddConserves` | native/pluginpool/host.go:233-243 | a plugin with paths of its own overwrites no file of a running one |
| `PluginHost.CleanedUp` | native/pluginpool/host.go:218-228 | after a failed start the directory holds exactly what it held before |
| `PluginHost.ReconciledByStarts` | native/pluginpool/host.go:64-96 | the guards kept and the guards started together are the wanted set |
| `PluginHost.RestIsStopped` | native/pluginpool/host.go:92-94 | what a failed apply stops are the guards it kept and those it started |
| `PluginHost.ExpandCommand` | native/pluginpool/host.go:244-251 | succeeds exactly when every reference of the command names a file of the plugin, and gives the filled-in command |
| `PluginHost.ExpandEnvironment` | native/pluginpool/host.go:252-260 | succeeds exactly when every reference in a variable names a file, and gives the inherited environment overridden by the filled-in variables, in whatever order they are taken |
| `PluginShutdown.Close` | native/pluginpool/host.go:117-139 | when a pool has been closed, whatever went on meanwhile, each of its guards is stopping and waited for, and a process that still runs was sent SIGKILL, or the group kill or the Kill in `attach` is under way, or it was sent SIGTERM and the group kill was late |
| `PluginShutdown.CarryOut` | native/pluginpool/host.go:411-418 | carrying out stops and waits in their order, with any other steps of any guard between them, leaves each guard asked to stop and waited for |
| `PluginShutdown.WaitedIsSettled` | native/pluginpool/host.go:388-402 | no group kill is still to fire for a guard that has been waited for |
| `PluginHosts.StepKeepsInv` | patches/experimental_libbox/command_server_plugins.go:30-80 | each locked section and pool call keeps: mapped pools are open and have one owner, and each other pool is closed or about to be |
| `PluginHosts.RunKeepsInv` | patches/experimental_libbox/command_server_plugins.go:30-80 | so this holds in every interleaving of any number of calls |
| `PluginHosts.RegisteredIsOpen` | patches/experimental_libbox/command_server_plugins.go:48-69 | in every interleaving a pool in the map is open and belongs to one server |
| `PluginHosts.RemovedNeverReturns` | patches/experimental_libbox/command_server_plugins.go:48-69 | a pool that left the map never returns to it |
| `PluginHosts.StopNeedsCurrent` | patches/experimental_libbox/command_server_plugins.go:71-80 | in every run the service was stopped for a pool only after a failure check of it that found it in the map |
| `PluginHosts.StaleFailureIsIgnored` | patches/experimental_libbox/command_server_plugins.go:71-80 | once a pool has left the map the service is never stopped for it again, unless a check had found it current before |
| `PluginHosts.CurrentFailureStops` | patches/experimental_libbox/command_server_plugins.go:71-80 | a failure check that finds the pool current leads to a stop of the service |
| `PluginHosts.FailedReloadGivesUp` | patches/experimental_libbox/command_server_plugins.go:35-43 | when the plugins or the service of a reload cannot start, its call goes on to take the pool out of the map: in every later state it is about to, or the pool is out for good |
| `PluginHosts.TakenIsClosed` | patches/experimental_libbox/command_server_plugins.go:60-69 | a call that has taken a pool out of the map does nothing else before it closes it |
| `PluginHosts.TakingHasAReason` | patches/experimental_libbox/command_server_plugins.go:30-69 | in every run only a close, a reload without plugins or a failed reload comes to take a pool out of the map |
| `PluginHosts.OnlyTakeRemoves` | patches/experimental_libbox/command_server_plugins.go:60-69 | and no other step does |
| `PluginHosts.ReturnsWhenDone` | patches/experimental_libbox/command_server_plugins.go:30-46 | a reload returns only when the service runs, or when its pool is gone |
| `PluginHosts.PoolChangesByItsCalls` | patches/experimental_libbox/command_server_plugins.go:30-69 | a pool runs what its last successful Apply gave it until a failed one or a close |
| `PluginHosts.QuietGuardsAreOwned` | patches/experimental_libbox/command_server_plugins.go:30-69 | when no call is running, every guard belongs to an open pool in the map |
| `PluginHosts.ClosedStaysEmpty` | native/pluginpool/host.go:64-69 | an apply that lost the race against the close leaves the closed pool empty |
| `PluginHosts.Registry.Perform` | patches/experimental_libbox/command_server_plugins.go:30-80 | each locked section, pool call and service call done by the object is the machine's step, so the theorems about runs are about the object |
| `PluginHosts.Registry.Play` | patches/experimental_libbox/command_server_plugins.go:30-80 | from the start and under any schedule of calls: mapped pools are open with one owner, the pool of a reload that failed is out of the map once the call has returned, the service was stopped only for pools a check found current, and when no call is running every guard belongs to a mapped pool |
| `PluginOptions.Validate` | native/pluginpool/options.go:67-97 | accepts exactly the envelopes with absolute paths, absolute commands and file names that are valid and stand at one place of the envelope only; names the unnamed plugins by their index and changes nothing else; an error names a plugin that breaks the rule it states |
| `PluginOptions.ListedOnce` | native/pluginpool/options.go:74-94 | the names met are without repeat exactly when no two files of the envelope have one name |
| `PluginOptions.AcceptedIsSound` | native/pluginpool/options.go:67-97 | what validation accepts, said of the texts of the envelope |
| `PluginOptions.ValidatePlugin` | native/pluginpool/options.go:77-95 | accepts only a plugin whose command is absolute and whose file names are valid and new, and adds these names to those taken; otherwise names a rule it breaks |
| `PluginOptions.DuplicateIsListed` | native/pluginpool/options.go:86-93 | a name already met really occurs twice in the whole envelope |
| `PluginOptions.FaultyIsNotAccepted` | native/pluginpool/options.go:67-97 | every reported fault does break what the pool needs |
| `PluginOptions.Expand` | native/pluginpool/options.go:108-129 | the loop and its no-token shortcut both fill the references of the value's one reading, left to right, and report the first fault |
| `PluginOptions.ReadInvertsRender` | native/pluginpool/options.go:108-129 | reading a rendered list of literals and references gives that list back |
| `PluginOptions.RenderInvertsRead` | native/pluginpool/options.go:108-129 | every value is the rendering of the well-formed list it reads as |
| `PluginOptions.ExpandRendered` | native/pluginpool/options.go:108-129 | expanding a rendered list succeeds exactly when it is closed and every name is known, and substituted paths are not read again |
| `PluginOptions.FilledWhenKnown` | native/pluginpool/options.go:119-125 | filling fails exactly for an unclosed reference or an unknown name |
| `PluginOptions.TokenAfterLiteral` | native/pluginpool/options.go:114 | the first token found after token-free text is the one written there |
| `PluginOptions.TokenFreeMeans` | native/pluginpool/options.go:109-111 | a value is returned as it is exactly when no token stands anywhere in it |
| `PluginOptions.ExpandsFromLeft` | native/pluginpool/options.go:113-128 | the first reference is replaced by its path, the text before it stays and the rest is expanded by itself; an unclosed or unknown reference is the error |
| `Paths.JoinIsInside` | native/pluginpool/options.go:99-104 | an accepted file name stays directly inside the working directory |
| `Paths.JoinIsInjective` | native/pluginpool/options.go:74-75 | two accepted names with the same path are the same name, so distinct names cannot collide |
| `Paths.ValidIsOneEntry` | native/pluginpool/options.go:99-104 | the accepted names are exactly those without a backslash that stand for one entry of the working directory |
| `Paths.JoinOfClean` | native/pluginpool/options.go:126 | in a clean directory the joined path is the directory, a slash and the name |
| `Paths.DotsVanish` | native/pluginpool/options.go:126 | empty parts and dots change nothing, and two dots take back the part before |
| `PluginOutput.LineWriter.Write` | native/pluginpool/host.go:428-446 | a write takes all its bytes and leaves the buffer and the log of the recursive specification |
| `PluginOutput.LineWriter.Emit` | native/pluginpool/host.go:454-463 | logs the held bytes without one trailing CR, cut at 4096, unless they are empty, and clears the buffer |
| `PluginOutput.EntryOfLine` | native/pluginpool/host.go:454-463 | a line loses one CR at its end, is cut at 4096 bytes, and adds nothing if it is empty |
| `PluginOutput.LineWriter.Flush` | native/pluginpool/host.go:448-452 | the same for what is left at the end |
| `PluginOutput.LineWriter.WriteAll` | native/pluginpool/host.go:420-463 | any split of a stream whose lines fit, then a flush, logs exactly its lines without one trailing CR each and without empties; for all streams the entries have 1 to 4096 bytes |
| `PluginOutput.ChunksDoNotMatter` | native/pluginpool/host.go:428-463 | all splits of a stream into writes give the same log if and only if every line has at most 4096 bytes, or one CR more that follows no other CR; then the log is the newline-split lines without trailing CR and empties |
| `PluginOutput.WriteInLines` | native/pluginpool/host.go:428-446 | for all inputs a write logs each line it finishes, once, and holds the unfinished one until it has 4096 bytes |
| `PluginOutput.CatchUp` | native/pluginpool/host.go:432-444 | a write takes the writer from where one part of a fitting stream leaves it to where the longer part does, a full line having been logged early |
| `PluginOutput.FittingStreamIsLogged` | native/pluginpool/host.go:428-463 | whatever the chunks, each line of a fitting stream is logged once |
| `PluginOutput.LongLineInTwoWrites` | native/pluginpool/host.go:441-444 | anywhere in a stream, two writes that meet after 4096 bytes of a longer line log its rest as a further entry |
| `PluginOutput.LongLineInOneWrite` | native/pluginpool/host.go:455-458 | in one write every line of any stream is logged once, and what exceeds the limit is dropped |
| `PluginOutput.SomeSplitDiffers` | native/pluginpool/host.go:428-463 | for a stream with a line that does not fit there is a split whose log differs from that of one write |
| `PluginOutput.WriteKeepsBounds` | native/pluginpool/host.go:442-444 | for all inputs fewer than 4096 bytes are held between writes and every entry has 1 to 4096 bytes |
| `PluginOutput.WritesAreBounded` | native/pluginpool/host.go:428-446 | and so after any writes |
| `UrlTestGroups.GroupContains` | patches/daemon/url_test_options.go:159-181 | ends on every cyclic graph; true only with a chain to the tag, and false only when all that was visited is explored without it, although all branches share the visited map |
| `UrlTestGroups.Search` | patches/daemon/url_test_options.go:152 | true exactly when the tag is reachable through loaded nested groups |
| `UrlTestGroups.UpdateGroups` | patches/daemon/url_test_options.go:143-157 | re-checks, once each and in listing order, exactly the urltest groups that transitively contain the tag |
| `UrlTestGroups.AffectedOfSum` | patches/daemon/url_test_options.go:143-157 | the checks follow the listing order |
| `UrlTestGroups.AffectedOfOne` | patches/daemon/url_test_options.go:147-155 | one place of the list leads to a check exactly when it is a urltest group that contains the tag |
| `UrlTestGroups.NoChainOut` | patches/daemon/url_test_options.go:159-181 | no chain leaves a fully explored visited set for the tag |
| `UrlTestGroups.ContainsUnfolds` | patches/daemon/url_test_options.go:140-142 | containment is membership, or containment in a loaded nested member |
| `UrlTestGroups.ContainsIsLeast` | patches/daemon/url_test_options.go:140-142 | and nothing more: any set closed under both holds every contained tag |
| `ProtoWire.VarintRoundTrip` | patches/daemon/url_test_options.go:219 | every 64-bit value is read back from its varint, whatever bytes follow |
| `ProtoWire.VarintIsShortest` | patches/daemon/url_test_options.go:252 | what is read fits 64 bits, and no shorter varint reads back to it than the appended one |
| `ProtoWire.GroupIgnoresRest` | patches/daemon/url_test_options.go:271 | reading a group, with its nested fields, looks no further than its end tag |
| `ProtoWire.ValueIgnoresRest` | patches/daemon/url_test_options.go:271 | so does the value of any other field, whatever its wire type |
| `ProtoWire.WrittenValueIsTaken` | patches/daemon/url_test_options.go:271 | the value of a written field of any wire type, groups with nested fields included, is taken exactly, whatever follows |
| `ProtoWire.StrayTypesAreMalformed` | patches/daemon/url_test_options.go:271 | an end tag of no open group and the unused wire types are malformed |
| `ProtoWire.DeepGroupsAreMalformed` | patches/daemon/url_test_options.go:271 | groups nested deeper than allowed are malformed |
| `ProtoWire.TagIgnoresRest` | patches/daemon/url_test_options.go:235 | and a tag |
| `ProtoWire.SplitAppend` | patches/daemon/url_test_options.go:234-277 | for any item reader that ignores the rest, the items of a++b are those of a followed by those of b, or the whole is malformed with b |
| `UrlTestOptions.AppendOptions` | patches/daemon/url_test_options.go:211-224 | writes the link unless empty, the timeout if positive, and the flags, as fields in this order |
| `UrlTestOptions.TagBytes` | patches/daemon/url_test_options.go:188-198 | the bytes of the three tags |
| `UrlTestOptions.ReadField` | patches/daemon/url_test_options.go:235-276 | one turn of the loop takes the next field, or finds it malformed, exactly as the field grammar does, which the written fields pin down |
| `UrlTestOptions.OptionsFromRequest` | patches/daemon/url_test_options.go:230-279 | the last field of each number wins; loaded exactly when one of the three occurs; a malformed field anywhere gives the defaults and not loaded |
| `UrlTestOptions.WireRoundTrip` | patches/daemon/url_test_options.go:211-279 | for every link, int32 timeout and uint8 flags, reading what was written is loaded and gives the link, max(timeout, 0) and the flags |
| `UrlTestOptions.ReadingIsAFold` | patches/daemon/url_test_options.go:230-279 | decoding a++b merges the two decodings, later fields winning, and is malformed when b is |
| `UrlTestOptions.ForeignFieldsAreIgnored` | patches/daemon/url_test_options.go:226-229 | well-formed foreign fields at a field boundary change nothing; a malformed rest spoils the whole payload |
| `UrlTestOptions.ReadWithForeign` | patches/daemon/url_test_options.go:270-276 | written fields of other numbers, of whatever wire types and nested groups, at any field boundary, change nothing |
| `UrlTestOptions.ReadLast` | patches/daemon/url_test_options.go:234-278 | whatever well-formed fields come before, the last link, timeout and flags are read; the timeout saturates at the largest int32 and the flags are taken modulo 256 |
| `UrlTestOptions.ReadWrongType` | patches/daemon/url_test_options.go:242-262 | an own number with another wire type spoils the whole payload |
| `UrlTestOptions.TruncatedIsMalformed` | patches/daemon/url_test_options.go:273-275 | a foreign field cut short is malformed |
| `UrlTestOptions.DeepNestingIsMalformed` | patches/daemon/url_test_options.go:271 | so is a foreign field of 10002 nested groups |
| `UrlTestOptions.FieldsAppend` | patches/daemon/url_test_options.go:234-277 | the fields of a++b are the fields of a followed by those of b |
| `UrlTestOptions.FieldIgnoresRest` | patches/daemon/url_test_options.go:235-276 | a complete field is read the same whatever bytes follow it |
| `UrlTestOptions.MeaningAppend` | patches/daemon/url_test_options.go:241-272 | what a list of fields says is merged from what its parts say |
| `DnsPublish.SystemDnsHelper.Publish` | native/systemdns/java/SystemDnsHelper.java:156-205 | keeps of the lost networks the current ones; the selected list, when it is another than the last, becomes the snapshot and the next generation and wakes the serve loop, and the same list changes neither |
| `DnsPublish.SystemDnsHelper.OnAvailable` | native/systemdns/java/SystemDnsHelper.java:114 | a network that is back is no longer lost, and the list is selected again |
| `DnsPublish.SystemDnsHelper.OnLost` | native/systemdns/java/SystemDnsHelper.java:121 | a lost network stays out while the platform still lists it |
| `DnsPublish.SystemDnsHelper.CollectEligible` | native/systemdns/java/SystemDnsHelper.java:164-176 | the eligible networks in listing order |
| `DnsPublish.SystemDnsHelper.AnyValidated` | native/systemdns/java/SystemDnsHelper.java:178-182 | true exactly when an eligible network is validated |
| `DnsPublish.SystemDnsHelper.SelectServers` | native/systemdns/java/SystemDnsHelper.java:177-196 | the two loops and their breaks give the first 32 distinct usable servers of the chosen networks in handle order |
| `DnsPublish.SystemDnsHelper.AddNetwork` | native/systemdns/java/SystemDnsHelper.java:184-195 | one turn of the outer loop adds the servers of a network exactly when it is a chosen one |
| `DnsPublish.SystemDnsHelper.AddServers` | native/systemdns/java/SystemDnsHelper.java:188-194 | one network adds its usable servers in order until 32 are reached |
| `DnsPublish.SortSorts` | native/systemdns/java/SystemDnsHelper.java:177 | sorting by handle orders the networks and keeps each of them |
| `DnsPublish.AskedIsExact` | native/systemdns/java/SystemDnsHelper.java:178-187 | the networks asked are exactly the active one if eligible, else the validated ones if any, else all eligible ones, in handle order |
| `DnsPublish.PublishedIsExact` | native/systemdns/java/SystemDnsHelper.java:183-196 | no duplicates, at most 32; each server is offered by a chosen network that is not lost, and unless the list is full every such server is in it |
| `DnsPublish.AskedIsPreferred` | native/systemdns/java/SystemDnsHelper.java:164-187 | the networks asked are, in handle order, exactly the listed ones that are not lost, have internet, are no VPN and have servers, and of these the active one, else the validated ones if any, else all |
| `DnsPublish.PublishedIsOffered` | native/systemdns/java/SystemDnsHelper.java:164-196 | each published text is that of a usable address of such a network, and unless the list is full all of them are published |
| `DnsPublish.AllTextsInOrder` | native/systemdns/java/SystemDnsHelper.java:183-195 | the texts come network by network and address by address |
| `DnsPublish.SelectedIsBeginning` | native/systemdns/java/SystemDnsHelper.java:188-195 | the published list is the beginning of the distinct ones of them |
| `DnsPublish.PublishedIsFrame` | native/systemdns/java/SystemDnsHelper.java:197-198 | whatever the networks, with interface names of at most 15 characters, the published line fits the reader's 8192 bytes |
| `DnsFrames.EncodedIsFrame` | native/systemdns/protocol.go:12 | a list of at most 32 server texts is one newline-ended frame within the limit |
| `DnsFrames.FramesAreRecovered` | native/systemdns/client_android.go:123-130 | splitting at newlines gives back the frames written, and a partial one waits |
| `DnsFrames.FittingLineIsRead` | native/systemdns/client_android.go:121-130 | a line of fewer than 8192 bytes with its newline is one frame, and without it is waited for |
| `DnsFrames.LongLineIsRefused` | native/systemdns/client_android.go:121-130 | a longer line ends the reading |
| `DnsFrames.FrameDeterminesList` | native/systemdns/java/SystemDnsHelper.java:200 | two lists with the same bytes are the same list, so comparing bytes compares lists |
| `DnsFrames.StreamDeterminesLists` | native/systemdns/client_android.go:123-130 | the bytes of the whole stream tell every published list, in order |
| `DnsPipeline.StepKeepsInv` | native/systemdns/java/SystemDnsHelper.java:199-224 | publisher, serve loop, channel and reader keep the order of generations and the agreement between what is sent, on its way and in use |
| `DnsPipeline.RunKeepsInv` | native/systemdns/java/SystemDnsHelper.java:139-224 | so they agree in every interleaving, also after the helper dies or the core stops |
| `DnsPipeline.ServeIsSound` | native/systemdns/java/SystemDnsHelper.java:139-224 | the serve thread never writes a null snapshot and is never parked with something left to send |
| `DnsPipeline.AppliedInOrder` | native/systemdns/client_android.go:131-161 | applied lists are decoded published ones, with growing generations, and no two in a row are equal |
| `DnsPipeline.CaughtUp` | native/systemdns/client_android.go:138-161 | when all generations are sent and the channel is drained, the resolver uses what decoding makes of the latest published list |
| `DnsPipeline.ClearedForGood` | native/systemdns/client_android.go:142-155 | once a read failure turns out not to be a stop, nothing is applied any more and the one step left empties the list for good |
| `DnsPipeline.FailureEndsReading` | native/systemdns/client_android.go:141-155 | after any read failure nothing is applied any more, and when the reader has ended a server is still in use only after a stop |
| `DnsPipeline.StopKeepsTheList` | native/systemdns/client_android.go:142-147 | when a read failure is found to be a stop, the list in use stays and is never cleared |
| `DnsPipeline.QuietRunAdvances` | native/systemdns/java/SystemDnsHelper.java:213-224 | while nothing new is published, each write, read or check with something to send leaves exactly one step less to go, and no other step changes how many there are |
| `DnsPipeline.SomethingToDo` | native/systemdns/java/SystemDnsHelper.java:213-224 | as long as steps are to go, helper and reader live and the first publication is done, one of them is possible |
| `DnsPipeline.LastListArrives` | native/systemdns/client_android.go:138-161 | after as many of these steps as were to go when the publisher fell silent, the resolver uses what it published last |
| `DnsPipeline.SnapshotIsLastPublished` | native/systemdns/java/SystemDnsHelper.java:199-205 | the snapshot is always the list published last |
| `DnsPipeline.GenerationsAreChanges` | native/systemdns/java/SystemDnsHelper.java:199-205 | in every run no two published lists in a row are equal: each generation is a change |
| `DnsPipeline.SameListIsNotSent` | native/systemdns/java/SystemDnsHelper.java:200 | publishing the list in the snapshot again changes neither generation nor history nor the serve loop |
| `DnsPipeline.OtherListIsSent` | native/systemdns/java/SystemDnsHelper.java:200-204 | publishing another one makes it the next generation and leaves no thread parked |
| `DnsPipeline.SnapshotMonitor.Replace` | native/systemdns/java/SystemDnsHelper.java:199-205 | a changed list becomes the next generation and wakes a parked serve loop; an unchanged one does nothing |
| `DnsPipeline.SnapshotMonitor.Check` | native/systemdns/java/SystemDnsHelper.java:216-220 | parks when nothing is new, else takes snapshot and generation together |
| `DnsPipeline.SnapshotReader.Take` | native/systemdns/client_android.go:157-160 | applies a decoded list unless it repeats the one in use |
| `DnsPipeline.SnapshotReader.ReadUntilFailure` | native/systemdns/client_android.go:131-161 | until the failure the frames without repeats are applied in order; then the last list stays after a stop and is cleared otherwise |
| `DnsSnapshot.DecodeSnapshot` | native/systemdns/protocol.go:14-42 | accepts exactly version 1 with a list of at most 32 servers that parse, have port 53 and are not reserved, and nothing after it; gives their printed forms, each once, in order |
| `DnsSnapshot.DecodedIsFixed` | native/systemdns/protocol.go:24-41 | an accepted list has no duplicates, at most 32 servers, and decodes again to itself |
| `DnsDelivery.SelectedIsDelivered` | native/systemdns/protocol.go:14-42 | whatever the networks, the list `publish` selects is accepted and decodes to exactly the selected endpoints in their order |
| `DnsDelivery.TextsTellEndpoints` | native/systemdns/java/SystemDnsHelper.java:190-192 | different published texts are different endpoints |
| `DnsDelivery.ReadSnapshots` | native/systemdns/client_android.go:123-130 | the reading closure splits a stream and decodes each frame, up to the first failure or partial frame |
| `DnsDelivery.PublishedAreDelivered` | native/systemdns/client_android.go:123-161 | every list published for any sequence of network states is read back, whole and in order, with exactly the selected endpoints |
| `DnsDelivery.SelectionIsInUse` | native/systemdns/client_android.go:138-161 | in every interleaving, when no step is to go, the resolver uses exactly the endpoints selected for the network state that was published last |
| `DnsDelivery.SelectionArrives` | native/systemdns/client_android.go:138-161 | and it comes to that after as many steps as were to go after the last publication |
| `HelperFile.FileSystem.EnsureHelper` | native/systemdns/helper.go:34-70 | succeeds exactly when the helper can be kept, or is seen to be missing or different and every call of the replacement succeeds; then the path holds payload, owner and mode, and no other name is new; after a failure no name is new if removing works; a helper that is kept is not replaced; in every state a crash may leave, the path holds its earlier file or the whole payload at mode 0400, and no other file or symlink target has changed |
| `HelperFile.SafeMeans` | native/systemdns/helper.go:32-70 | what a crash may leave: the path never loses its file, holds the earlier one or a new one with the whole payload at mode 0400, and no other file has changed, but for the mode of a matching helper |
| `HelperFile.KeptWhenOwn` | native/systemdns/helper.go:72-102 | a helper is kept exactly when it is seen to be the caller's own payload, and otherwise replaced unless it is no file or link |
| `HelperFile.SweptMeans` | native/systemdns/helper.go:20-30 | what is swept: regular files named `.system-dns-helper-*.dex` that last changed more than a minute ago |
| `HelperFile.FileSystem.HelperMatches` | native/systemdns/helper.go:72-102 | a match exactly for the caller's own regular file with the payload, whose mode is right or can be set and then is; no match exactly for a missing file, a symlink, or a regular file seen to differ in owner, length or content; an error otherwise, with nothing changed |
| `HelperFile.FileSystem.RemoveStaleTemporaries` | native/systemdns/helper.go:22-30 | removes exactly the old regular files whose name is a temporary's |
| `HelperFile.FileSystem.Replace` | native/systemdns/helper.go:47-69 | succeeds exactly when creating, filling and renaming do, and puts the synced payload in place; the stale temporaries are gone either way, and the call's own one is too, unless removing it fails |
| `HelperFile.FileSystem.PutInPlace` | native/systemdns/helper.go:52-69 | succeeds exactly when write, chmod, sync, close and rename do; the temporary's name is gone afterwards, and after a failure too if removing it works; every state on the way is safe |
| `HelperFile.FileSystem.FillTemporary` | native/systemdns/helper.go:54-65 | after any byte written, and after each call, a crash leaves the helper path safe |
| `HelperFile.FileSystem.CreateTemp` | native/systemdns/helper.go:48 | a new empty file of mode 0600 under a name that was free and is not the helper's |
| `HelperFile.FileSystem.Write` | native/systemdns/helper.go:54 | a write that stops after any number of bytes leaves a prefix of the payload in the new file alone |
| `HelperFile.FileSystem.Rename` | native/systemdns/helper.go:66 | the helper path names the file and the temporary's name is gone, in one step |
| `HelperFile.RenameIsSafe` | native/systemdns/helper.go:66 | renaming the finished file into place is safe in one step |
| `HelperFile.OwnFileIsSafe` | native/systemdns/helper.go:48-65 | what is done to the new file before the rename cannot be seen at the helper path |
| `UpstreamTags.Version` | scripts/check_upstream.py:17-30 | gives the key of exactly the accepted tags, and the error otherwise |
| `UpstreamTags.ReadIdentifiers` | scripts/check_upstream.py:21-29 | refuses exactly the previews with a numeric identifier that has a leading zero |
| `UpstreamTags.KeyFrom` | scripts/check_upstream.py:21-30 | the key of accepted parts, and the error for a numeric identifier with a leading zero |
| `UpstreamTags.ApartSpells` | scripts/check_upstream.py:14 | the parts the pattern captures spell the tag |
| `UpstreamTags.SpelledIsApart` | scripts/check_upstream.py:14 | every spelling of well-formed parts is matched and captured as these parts |
| `UpstreamTags.AcceptedTags` | scripts/check_upstream.py:14-30 | the accepted tags are exactly a v, three numerals, a preview of canonical identifiers if any, and the suffix |
| `UpstreamTags.KeyOrder` | scripts/check_upstream.py:30 | the tuple order of keys is strict and total |
| `UpstreamTags.PreviewOrder` | scripts/check_upstream.py:22-30 | the order of identifier tuples is precedence at the first difference of the previews, and equal tuples mean equal previews |
| `UpstreamTags.KeysRealisePrecedence` | scripts/check_upstream.py:17-30 | one key is smaller exactly when section 11 of Semantic Versioning 2.0.0 puts its version first, and equal keys mean equal tags |
| `UpstreamTags.SectionExample` | scripts/check_upstream.py:21-30 | the previews that section 11 of Semantic Versioning 2.0.0 gives as its example are in that order |
| `UpstreamTags.VersionIsInjective` | scripts/check_upstream.py:17-30 | two accepted tags with one key are one tag |
| `UpstreamTags.SelectLatest` | scripts/check_upstream.py:33-42 | an accepted tag that no accepted tag exceeds, or the error exactly when there is none |
| `UpstreamTags.LatestIsUnique` | scripts/check_upstream.py:33-42 | the order of the tags, repeats and invalid tags between them do not change the result |
| `UpstreamTags.CheckOnce` | scripts/check_upstream.py:58-64 | the pin moves to the latest tag exactly when that one is newer and unpublished, and else stays |
| `UpstreamTags.PlanMeans` | scripts/check_upstream.py:58-64 | a plan is refused exactly for a newer published tag; it updates exactly for a newer one, and builds the latest tag exactly when that is unpublished and newer than the pin or the pin itself |
| `UpstreamTags.UnpublishedIsLatest` | scripts/check_upstream.py:58-64 | so an unpublished check that still sees the pinned tag leaves the pin at the latest one |
| `UpstreamTags.Follow` | scripts/check_upstream.py:58-64 | over every run of checks the pinned version never decreases |
| `Ancestry.Descends` | native/pluginpool/protect.go:160-175 | true exactly when there is a line of at most 32 processes from the peer to the ancestor, each but the last above init and the child of the next |
| `Ancestry.ParentOfAnyComm` | native/pluginpool/protect.go:177-192 | the parent is found whatever the command name holds, parentheses and spaces included |
| `Ancestry.AfterLastParenthesis` | native/pluginpool/protect.go:183-187 | the fields are read after the last parenthesis |

## Left out

- GuardMachine.StopWaitsOnlyForTheKilled: that a killed process exits is up to the kernel and is not proved.
- GuardMachine.LiveProcessIsCovered: what a group signal does to descendants of the plugin, and which process a reused PID names after reaping, is not modelled.
- PluginHost.Host.Apply: the key of a plugin stands for its JSON text, which is taken to be injective; concurrency inside one pool is its mutex, so a call is atomic; a guard's own life is in `GuardMachine`, and appears here as being exited or not, and `PluginShutdown` joins the two; Go's JSON text tells an absent list from an empty one, so an envelope that only changes that restarts the plugin in the code and keeps it here.
- PluginHost.Host.RemoveFiles: removing a file the pool has written is taken to succeed, and nobody else writes in the directory.
- PluginHost.ExpandEnvironment: the inherited environment is a map, so a variable it holds twice is left out.
- PluginHosts.QuietGuardsAreOwned: an apply or a close of a pool is one step here; `PluginHost` has its inside.
- PluginHosts.Registry.Play: a server without a handler, which is never stopped, is left out.
- PluginShutdown.Close: the guards' clocks are not tied together, so nothing is said of how long closing takes.
- PluginOutput.LineWriter.Emit: the constant prefix of an entry is left out.
- UrlTestGroups.UpdateGroups: the nil outbound manager returns at once and is left out.
- ProtoWire.VarintRoundTrip: `protowire` is not part of this repository; its reading and appending are modelled from the published format.
- DnsSnapshot.DecodeSnapshot: JSON decoding starts from the decoded record, and address parsing and printing are parameters.
- DnsDelivery.SelectedIsDelivered: assumes that netip reads the address Java printed, names it by that text, and refuses no address that Java calls usable; that Java prints colons and scopes for IPv6 only; and that decoding the JSON of a frame gives back its list.
- DnsFrames.FrameDeterminesList: texts are sequences of Unicode characters, so the unpaired surrogates a Java string may hold are left out.
- DnsPipeline.CaughtUp: the socket carries whole frames in order; the bytes of frames are in `DnsFrames`.
- HelperFile.FileSystem.EnsureHelper: what a power loss takes back is only the `synced` flag of a file; making the directory and other processes installing at the same time are left out.
- UpstreamTags.Version: texts are ASCII; the pattern's digits and `isdigit` accept more in other scripts.
- Ancestry.ParentOfAnyComm: a field with a sign or beyond the machine's integers is left out, and white space is ASCII.
- The protect socket itself: descriptors over a Unix socket and peer credentials; and the set of direct children, which PID reuse may empty early.
- Measuring in `url_test_options.go` (HTTP, QUIC, TLS), gRPC, gomobile and upstream sing-box calls: network clients over libraries outside the repository.
- Android's connectivity service, reflection and death links: network states are inputs.
- Shutting the core down after a channel failure, and the ten-second guard of the first frame.
- GitHub requests, `go mod edit` and the workflow outputs of `check_upstream.py`.
- Reality fingerprint tables, build and staging scripts, the launcher, environment setup, HTTP/3 stubs and the stubs for other systems: lookups and plumbing.
