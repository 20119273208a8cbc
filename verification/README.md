# winchaos: a verified model

winchaos is a chaos-engineering agent for Windows. An HTTP handler creates, destroys and lists
experiments; cpu and mem experiments run in `os.exe` child processes, script experiments run inside
the agent, and all of them share one SQLite table. This project models the stateful cores of the
agent in Dafny and proves what holds of them over every input and every interleaving.
`dafny verify dfyconfig.toml` checks all of it.

## The parts

- `ExperimentTable.dfy`, `ExperimentQuery.dfy`, `UidGeneration.dfy`: the experiment table. The
  id-ordered rows refine a map from uid to row; the query text and its positional arguments are
  built clause by clause and read back by a small clause interpreter; uids are drawn until one is free.
- `Lifecycle.dfy`: the experiment protocol as a state machine. A state holds the table, process
  instances (with pids that are reused after death), script runs, destroy requests with a program
  counter, and a history map from uid to whoever was launched under it. A run is a list of actions,
  each enabled where it is taken. `LifecycleInvariant.dfy` has the inductive invariant,
  `LifecycleTheorems.dfy` the statements about whole runs, `LifecycleWitnesses.dfy` two runs with
  surprising outcomes. `Agent.dfy` has the sequential bodies of `DestroyExperiment`, `execScript` and
  `MemRun`, and `AgentRuns.dfy` the proofs that they are runs of the machine and what they leave behind.
- `BurnLaunch.dfy`: parameter normalisation and the command line handed to `os.exe`.
- `MemBurn.dfy`, `MemBurnTheorems.dfy`: the memory fill loop, its segmented buffer, its safety and convergence.
- `CpuQuota.dfy`, `QuotaChannel.dfy`: the clamped accumulator of a cpu worker, and the channel that feeds all workers.
- `AppFile.dfy`: the key=value files. `Transport.dfy`: the sign and verify interceptors.
- `BladeHandler.dfy`: the `running` cache and the status poller. `LimitedList.dfy`: the bounded heartbeat list.
- `Decimal.dfy`, `Strings.dfy`, `Sequences.dfy`, `Names.dfy`, `Options.dfy`: number text, the string and
  sequence functions used, the shared status and type words, and result types.

## What is assumed

- Generated uids are fresh: a uid is launched once. (`generateUid` only checks the table, and a
  child inserts its row later, so two requests that drew the same uid would break this.)
- Live processes have different pids; a dead process's pid may be used again. The agent itself lives.
- Each SQL statement is one atomic step. A successful kill stops every later step of its target.
  `os.FindProcess` finds the live holder of a pid if there is one; otherwise it fails or opens a dead former holder.
- A cpu or mem child may write Success any number of times while it is alive, may die at any time,
  and a mem child may write before its insert because its timer is armed first.
- Commands and install callbacks change the `running` cache one at a time. The code does not guarantee it:
  `deleteCallback` (web/handler/chaosblade.go:341-349) does not take the mutex that commands hold.
- The status query inside a revoke is made while the mutex is held, so it belongs to the command's step.
- Signatures are never empty, and signing and JSON encoding are deterministic.

## Where the code differs from its intent

- `web/cmdexec/destroy.go:24-26` calls `err.Error()` on a nil error for an unknown uid. The model
  follows the code: such a request ends in `NilErrorPanic` and never gets the not-found reply.
- `web/category/cpu_main.go:49-56` and `web/category/mem_main.go:58-63` hand `context.Background()` to the
  burner, so the Success writes on `ctx.Done()` are unreachable there. The machine keeps these writes
  enabled, so its safety results also cover the intended code.
- A destroyed script that is still running overwrites Destroyed when it finishes
  (`ScriptOverwriteWitness`); `DestroyedPersistsIff` says exactly when Destroyed lasts.
- Destroying a finished burn whose pid has been reused kills the new holder of the pid
  (`ReusedPidWitness`, `OutsiderKilledWitness`); `KillHitsOwnerIff` says exactly when the right process is hit.
- A limit that is neither a count nor an offset and a count makes the scan fail at its first step; the rows loop does not
  look at that error, so the caller sees an empty list and no error.
- `burn` recomputes its sleep time into a new variable (`web/category/cpu_main.go:135-138`), so a worker
  sleeps by its first quota for ever; `CpuQuota.Burn` says exactly when that is the sleep intended.
- A script whose main file is neither .bat nor .ps1 fails, but its row stays Created; so does the row of a mem
  burn whose timer writes before the insert (`ScriptAloneOutcome`, `MemAloneOutcome`).
- A request to destroy a Destroyed script row is not always a no-op: `RewriteOfDestroyedIff` says when.
- A create result or a status field that is no string makes a type assertion panic. The model follows: the
  command changes nothing, or the poller crashes.
- `RecordMapToFile` followed by `ReadAppInfoFromFile` loses trailing white space of whichever value the
  map iteration writes last; `RoundTripIff` gives the exact condition.

## Model

| member | source | states |
|---|---|---|
| `ExperimentTable.InsertRefines` | data/experiment.go:140-161 | inserting keeps ids ascending and uids unique, adds exactly one binding to the map, and changes nothing when the uid is taken |
| `ExperimentTable.UpdateRefines` | data/experiment.go:163-177 | an update by uid touches that binding only, and nothing for an unknown uid |
| `ExperimentTable.UpdatedColumns` | data/experiment.go:163-177 | column by column: status, error and update time of the uid's row are set, its other seven columns and every other row are as before |
| `ExperimentTable.UpdateThenRead` | data/experiment.go:163-198 | a query after the update reads the new status, error and time with the rest of the old model, or still nothing |
| `ExperimentTable.MatchingRefines` | data/experiment.go:179-198 | a query by uid over the rows yields the map's binding, or no row |
| `ExperimentTable.InsertThenRead` | data/experiment.go:140-273 | a freshly inserted model reads back field for field under the next id |
| `ExperimentTable.ExperimentStore.constructor` | data/experiment.go:67-78 | a new table is empty and its first id is 1 |
| `ExperimentTable.ExperimentStore.InsertExperimentModel` | data/experiment.go:140-161 | fails exactly on a taken uid, leaving the table as it was; otherwise the map gains the model's row |
| `ExperimentTable.ExperimentStore.UpdateExperimentModelByUid` | data/experiment.go:163-177 | three columns of the uid's row are set and its other seven kept; no row is added, removed or otherwise changed |
| `ExperimentTable.ExperimentStore.QueryExperimentModelByUid` | data/experiment.go:179-198 | the model of the uid's row, or none when there is no row |
| `ExperimentTable.ExperimentModelsFrom` | data/experiment.go:250-273 | one model a scanned row, in scan order, with every column in its own field |
| `ExperimentQuery.SqlPlaceholders` | data/experiment.go:200-236 | the question marks in the text are as many as the clauses take arguments |
| `ExperimentQuery.BuiltQueryMeans` | data/experiment.go:200-248 | for every status, limit and order the argument count matches, read back by position the statement yields exactly the wanted rows cut to the window, and the scan fails if and only if the database cannot read one of the limit's numbers |
| `ExperimentQuery.UnreadableLimitIsSilent` | data/experiment.go:224-273 | a one-part limit that is no number yields no row and a failed scan, whichever rows were selected |
| `ExperimentQuery.StatementText` | data/experiment.go:200-234 | the text of the statement for every status, limit and order |
| `ExperimentQuery.BuildQuery` | data/experiment.go:200-236 | the clause-by-clause construction produces the statement and arguments whose meaning BuiltQueryMeans proves |
| `ExperimentQuery.QueryExperimentModels` | data/experiment.go:200-248 | never an error, not even when the scan failed; the models are those of the rows asked for, in order |
| `ExperimentQuery.SelectedRows` | data/experiment.go:215-223 | the wanted rows are exactly those of the status, ascending by id, and desc is the reverse of asc |
| `ExperimentQuery.PagesCover` | data/experiment.go:224-236 | successive pages of one size join to the whole selection, no row lost or repeated, exactly when they reach past its end |
| `ExperimentQuery.CountLimitTakes` | data/experiment.go:224-236 | a limit that is one number keeps the first so many selected rows |
| `ExperimentQuery.WindowRows` | data/experiment.go:224-236 | row by row, a window starts at its offset, or at 0 for a negative one, and is as long as its count, or all that is left for a negative one |
| `ExperimentQuery.LimitParts` | data/experiment.go:225-233 | offset and count are the first two comma-separated parts, whatever follows them; a limit without a comma is a count from 0 |
| `ExperimentQuery.SortByIdSorts` | data/experiment.go:219-223 | ordering by id yields the same rows, ascending |
| `UidGeneration.FreshIff` | web/cmdexec/script.go:169-182 | a uid is returned if and only if some round drew it and its query did not see it, after rounds that drew uids their queries saw, whatever others insert in between |
| `UidGeneration.FailedIff` | web/cmdexec/script.go:169-182 | an error comes back if and only if a draw fails after such rounds |
| `UidGeneration.StillDrawingIff` | web/cmdexec/script.go:169-182 | it goes on if and only if every round so far drew a uid its query saw |
| `UidGeneration.GenerateUidEnds` | web/cmdexec/cpu.go:85-98 | with pairwise different draws it ends within one draw more than the table finally has rows, and in a uid if no draw fails |
| `LifecycleInvariant.QueryLearns` | web/cmdexec/destroy.go:17-66 | after its query a destroy request that goes on has a row, its kind of owner, and the pid that owner really has |
| `LifecycleInvariant.InvStep` | web/cmdexec/destroy.go:17-85 | every step of every actor keeps the invariant that ties table, processes, scripts and requests together |
| `LifecycleInvariant.RowsStep` | web/cmdexec/script.go:101-146 | every step keeps each row in agreement with whoever inserted it, and a Destroyed burn row with a dead process |
| `LifecycleInvariant.DestroysStep` | web/cmdexec/destroy.go:28-68 | under any step of any actor a destroy request past its kill still has the burner dead |
| `LifecycleInvariant.ReachableInv` | web/category/mem_main.go:18-65 | the invariant holds in every reachable state |
| `LifecycleTheorems.ReachableTable` | data/experiment.go:67-78 | in every reachable state: one row a uid, ascending ids, inserted columns as the owner inserted them, a burn never in Error and Destroyed only when dead, a script's Success or Error only after its return |
| `LifecycleTheorems.ReachableNumbered` | data/experiment.go:67-78 | in every reachable state the ids are 1, 2, 3 and so on in insertion order |
| `LifecycleTheorems.RunKeepsInsertedColumns` | data/experiment.go:163-177 | no run removes a row or changes id, command, type, sub-command, flag or create time |
| `LifecycleTheorems.StatusStep` | web/cmdexec/script.go:129-146 | a row changes only by its own script, its own process, or a destroy request for it |
| `LifecycleTheorems.VerdictStep` | web/cmdexec/script.go:129-146 | one step ends a row's Destroyed if and only if it is the Success or Error of the row's own script |
| `LifecycleTheorems.StaysDestroyedIff` | web/cmdexec/script.go:112-146 | along any one run from a Destroyed row, every state shows Destroyed if and only if the run holds no Success or Error of the row's script |
| `LifecycleTheorems.DestroyedPersistsIff` | web/cmdexec/script.go:112-146 | Destroyed stays in every continuation exactly when no script status write is still to come |
| `LifecycleTheorems.PendingScriptOverwrites` | web/cmdexec/script.go:146 | while the write is pending some continuation does overwrite Destroyed |
| `LifecycleTheorems.KilledBurnerIsSilent` | web/cmdexec/destroy.go:72-85 | after ExperimentDestroy succeeded, the process that inserted the row takes no further step in any run |
| `LifecycleTheorems.BurnDestroyIsFinal` | web/cmdexec/destroy.go:57-68 | the Destroyed written on a cpu or mem row shows in every later state, pid reuse included |
| `LifecycleTheorems.DoneReplyIsTrue` | web/cmdexec/destroy.go:67-68 | a success reply for a burn means its row says Destroyed and its process is dead |
| `LifecycleTheorems.DestroyingDestroyedWritesNothing` | web/cmdexec/destroy.go:28-30 | in any interleaving, a request asked of a Destroyed row writes the table only after the row's script has given its verdict, and never when none is pending |
| `LifecycleTheorems.RewriteOfDestroyedIff` | web/cmdexec/destroy.go:28-67 | such a request can come to write the row if and only if the row's script is still running |
| `LifecycleTheorems.KillHitsOwnerIff` | web/cmdexec/destroy.go:78-83 | a live process found by a destroy is the named one exactly when that one is still alive |
| `LifecycleWitnesses.ScriptOverwriteWitness` | web/cmdexec/script.go:146 | a reachable run in which Success overwrites a destroy that was answered with success |
| `LifecycleWitnesses.ReusedPidWitness` | web/cmdexec/destroy.go:78-83 | a reachable run in which destroying one experiment kills another that nobody named |
| `LifecycleWitnesses.OutsiderKilledWitness` | web/cmdexec/destroy.go:78-83 | a reachable run in which it kills a process that is no experiment at all |
| `Agent.Host.ExperimentDestroy` | web/cmdexec/destroy.go:72-85 | errors exactly on a pid that is no number or a failed kill; a process not found is success |
| `Agent.Host.DestroyExperiment` | web/cmdexec/destroy.go:17-69 | the uninterrupted call's reply with its code, table, processes, and the directory it asks to remove |
| `AgentRuns.DestroyAloneIsRun` | web/cmdexec/destroy.go:17-69 | that outcome is a run of the machine ending with the same answer |
| `AgentRuns.DestroyAloneOutcome` | web/cmdexec/destroy.go:17-85 | each reply if and only if: panic for an unknown uid, already destroyed for a Destroyed row, code 605 for a burn whose flag is no JSON, success when the pid text, the kill of what it finds, or the clean-up goes through; only success changes anything, and then exactly that row and the one process found |
| `Agent.ExtIs` | web/cmdexec/script.go:264 | the extension is the suffix from the last dot on, empty exactly without a dot |
| `Agent.ListDir` | web/cmdexec/script.go:256-272 | the first file named main with its extension, or two empty strings |
| `Agent.FirstMainIs` | web/cmdexec/script.go:261-270 | that file is the first named main, alone or with one extension, and there is none if no name is like that |
| `Agent.PrepareScript` | web/cmdexec/script.go:47-96 | the loop-free steps before the insert compute the preparation and the file to run |
| `Agent.PreparedIff` | web/cmdexec/script.go:47-96 | what a call that gets a uid has found, and which error ends any other: the unpacking's, the missing main file, then generateUid's |
| `Agent.Host.ExecScript` | web/cmdexec/script.go:47-151 | the uninterrupted call's table, its uid or error text, and the process it starts |
| `Agent.StartedProcess` | web/cmdexec/script.go:80-123 | cmd.exe runs main.bat and powershell.exe main.ps1, whichever the directory lists first, or recover.bat and recover.ps1 in recovery, with the arguments joined by commas or as given |
| `Agent.JoinSplits` | web/cmdexec/script.go:91 | splitting the joined arguments at commas gives comma-free arguments back |
| `Agent.OtherKindFails` | web/cmdexec/script.go:80-127 | of any other kind the error names the main file, or in recovery the archive |
| `AgentRuns.ScriptAloneIsRun` | web/cmdexec/script.go:93-151 | once it has a uid, that outcome is a run of the machine |
| `AgentRuns.ScriptAloneOutcome` | web/cmdexec/script.go:47-151 | a uid is returned exactly for a .bat or .ps1 whose command succeeds; a row is added exactly when a uid was generated, and shows, column by column, the directory, the arguments, and Success, or Error with the returned text, or Created for any other file type although the call fails |
| `Agent.BurnChild.CpuRun` | web/category/cpu_main.go:18-58 | the child's table: its row inserted with its own pid, and Success and exit once a worker finds its context done |
| `Agent.BurnChild.MemRun` | web/category/mem_main.go:18-120 | for each order of timer and insert: the table, whether the child lives, and the buffer its fill loop holds |
| `AgentRuns.CpuAloneIsRun` | web/category/cpu_main.go:18-58 | that cpu child is a run of the machine from its spawn on |
| `AgentRuns.CpuAloneOutcome` | web/category/cpu_main.go:31-44 | its row column by column, with its own percentage and pid |
| `AgentRuns.MemAloneIsRun` | web/category/mem_main.go:18-57 | in each of these orders that outcome is a run of the machine |
| `AgentRuns.MemAloneOutcome` | web/category/mem_main.go:30-57 | the row column by column; it shows Success exactly when the timer writes after the insert, and a write before it is lost and leaves Created |
| `BurnLaunch.CpuResolver` | web/cmdexec/cpu.go:26-83 | spawns exactly for a full load of 0 to 100 percent with a uid; each word of the command line, and what the child reads back: a count within the machine's, the percentage or 100 for 0, the timeout or 60 for 0 |
| `BurnLaunch.MemResolver` | web/cmdexec/mem.go:25-84 | spawns exactly for a load of 0 to 100 percent with a uid; what the child reads back: the mode or ram, the percentage or 100 for 0, the timeout or 60 for 0 |
| `BurnLaunch.ResolveSafely` | web/cmdexec/mem.go:25-84 | for every total up to the bound and every free memory, the child that an accepted request starts never fills to more than 1 MB below the requested share |
| `Decimal.ParseOfFormat` | transport/interceptor.go:120-131 | every 64-bit integer is read back from its decimal text |
| `Decimal.NatValueConcat` | transport/interceptor.go:120-131 | digits have decimal place value |
| `Decimal.ParseAcceptsOnly` | transport/interceptor.go:120-131 | a plus sign makes no difference, and a text with anything but an optional sign and digits, or without digits, is refused |
| `MemBurn.Tick` | web/category/mem_main.go:93-117 | one ticker branch, in place, is the tick function |
| `MemBurn.Starts` | web/category/mem_main.go:76-120 | the fill loop over any readings produces the buffer of the tick-by-tick specification, with rate 100 when none is given |
| `MemBurnTheorems.TickShape` | web/category/mem_main.go:108-116 | keys stay 1..count, finished segments stay, blocks grow by 8 a MB, a segment moves only if its room is short and a quarter more capacity is short of the expectation, a new one starts exactly when room is short and a quarter more would not be, none is abandoned empty |
| `MemBurnTheorems.BurnHoldsFills` | web/category/mem_main.go:108-123 | the bytes held are exactly the MB filled, for any trace |
| `MemBurnTheorems.BurnFreezes` | web/category/mem_main.go:109-116 | over any further readings, segments below the current one never change |
| `MemBurnTheorems.FailedReadingAppendsNothing` | web/category/mem_main.go:94-107 | a tick whose reading fails leaves the buffer of any run as it is |
| `MemBurnTheorems.FillBounds` | web/category/mem_main.go:98-107 | no tick appends more than what is expected or than the rate: the whole rate above it, a tenth rounded down below, nothing if nothing is wanted |
| `MemBurnTheorems.QuotTruncates` | web/category/mem_main.go:130-136 | the divisions drop the fraction, on either side of zero |
| `MemBurnTheorems.ReserveIsShareIff` | web/category/mem_main.go:130-136 | the nested divisions give the exact share rounded down to a MB if and only if the product fits 64 bits |
| `MemBurnTheorems.TotalBoundIff` | web/category/mem_main.go:132 | the product fits 64 bits for every percentage from 1 to 100 if and only if the total is at most 93165374109644200 bytes |
| `MemBurnTheorems.ExpectIsFreeAboveReserve` | web/category/mem_main.go:136 | the expectation is the free memory above the reserve rounded down to a MB |
| `MemBurnTheorems.FillLeavesReserve` | web/category/mem_main.go:94-136 | no fill takes free memory below the reserve, for any reading |
| `MemBurnTheorems.FillLeavesShare` | web/category/mem_main.go:94-136 | in bytes: at least the requested share of the total less 1 MB stays free |
| `MemBurnTheorems.SlowPhase` | web/category/mem_main.go:103-106 | in the tenth phase the amounts settled after n ticks are exactly those up to Reach(n) |
| `MemBurnTheorems.SettledIff` | web/category/mem_main.go:98-107 | the exact settling time for every e: (e - 1)/100 fast ticks, then as many as Reach needs for the rest |
| `MemBurnTheorems.DrainConverges` | web/category/mem_main.go:98-107 | from e MB the expectation settles within e/100 + 27 ticks, at 9 or the smaller rest of the 100 MB steps |
| `MemBurnTheorems.BurnerSettles` | web/category/mem_main.go:93-117 | in a closed loop of readings nothing is appended from that tick on, and less than 10 MB above the reserve is free |
| `MemBurnTheorems.BufferSettles` | web/category/mem_main.go:93-117 | and the buffer stays as it is |
| `MemBurnTheorems.BoundIsTight` | web/category/mem_main.go:98-107 | no constant below 27 does: from 99 MB, 26 ticks leave more than 9 MB |
| `CpuQuota.QuotaWithinPeriod` | web/category/cpu_main.go:111-116 | usage and target within 0..100 give an offset within one period |
| `CpuQuota.QuotaTracksGap` | web/category/cpu_main.go:111-116 | the offset is the gap of target over usage as a share of the period, rounded toward zero |
| `CpuQuota.AccumulateIsPeak` | web/category/cpu_main.go:118-138 | closed form: q is the maximum of q0 + S_n and all S_n - S_k |
| `CpuQuota.AccumulateMonotone` | web/category/cpu_main.go:130-134 | q is monotone in the start and in every offset |
| `CpuQuota.WorkerBounded` | web/category/cpu_main.go:111-134 | with measured usage within 0..100, n receives keep q in 0..(n+1) periods |
| `CpuQuota.OffsetsOfReceives` | web/category/cpu_main.go:125-134 | rounds that receive bring exactly the offsets received, in order, and the worker goes on |
| `CpuQuota.FastSpinIsSilent` | web/category/cpu_main.go:143-151 | a fast spin anywhere changes neither the offsets taken nor the ending |
| `CpuQuota.EndCutsOff` | web/category/cpu_main.go:139-151 | the first slow spin or done context cuts the offsets off there and decides the ending |
| `CpuQuota.Burn` | web/category/cpu_main.go:118-153 | over the rounds up to the first slow spin or done context, q is the start, or with a receive the largest of start plus gain and of the gains after each receive; the ending is that round's; the sleep stays the first one and is the rest of the period if and only if q is where it started, or neither leaves a rest |
| `QuotaChannel.ChannelConserves` | web/category/cpu_main.go:79-89 | receipts followed by the buffer are exactly what was sent, in order; the buffer never exceeds cpuCount |
| `QuotaChannel.QuotaConserved` | web/category/cpu_main.go:84-89 | quota of cpuCount copies a finished round plus the part of the current one equals quota received over all workers plus quota buffered |
| `QuotaChannel.WorkersHoldPeaks` | web/category/cpu_main.go:125-134 | in every interleaving each worker, stopped or not, holds the closed form of its own receipts |
| `QuotaChannel.WaitsExactly` | web/category/cpu_main.go:79-89 | in every reachable state the producer waits exactly while a round is unfinished and the buffer full, and a running worker exactly while it is empty |
| `QuotaChannel.StoppedTakesNothing` | web/category/cpu_main.go:139-151 | a worker that ends takes nothing more from the channel in any continuation |
| `AppFile.WriteLines` | pkg/tools/auth.go:120-130 | the loop writes the lines in iteration order, or the longest beginning that there is room for, and fails exactly if that is not all |
| `AppFile.KeyFile.RecordMapToFile` | pkg/tools/auth.go:104-132 | the file afterwards: what was written, over the old content unless truncated; unchanged if empty or unopened; an error exactly if it does not open or a write fails |
| `AppFile.KeyFile.ReadAppInfoFromFile` | pkg/tools/auth.go:135-158 | the loop returns what the content parses to, or an error without a file |
| `AppFile.KeyFile.RecordSecretKeyToFile` | pkg/tools/auth.go:76-93 | both keys become current exactly if neither is empty, the file opens and every write works; a failed write leaves the old keys current over a truncated file |
| `AppFile.KeyText` | pkg/tools/auth.go:82-90 | what a full write leaves in the key file, in either iteration order: the AK and the SK line and nothing else |
| `AppFile.ParsedOfPrinted` | pkg/tools/auth.go:96-158 | one-line values come back exactly, except that the last written loses trailing white space |
| `AppFile.ParsedWithoutNewline` | pkg/tools/auth.go:140-156 | no value read from any content spans a line break |
| `AppFile.LastLineWins` | pkg/tools/auth.go:144-156 | for any lines, the last one that starts with a key and the delimiter gives its value, and without one the value is empty |
| `AppFile.LeadingSpaceIgnored` | pkg/tools/auth.go:140 | white space and empty lines before the first line make no difference |
| `AppFile.RoundTripInOrderIff` | pkg/tools/auth.go:96-158 | for one iteration order, the exact condition of the round trip |
| `AppFile.RoundTripIff` | pkg/tools/auth.go:96-158 | in every order the round trip is exact if and only if both values are one line and end visibly |
| `AppFile.RecordThenRead` | pkg/tools/auth.go:96-158 | the same of the two methods called in sequence on one file, whatever it held before |
| `Transport.AuthInvoker` | transport/interceptor.go:90-108 | fails without a full key pair and changes nothing; otherwise adds access key and signature, of the signed-data header or else of the encoded parameters |
| `Transport.TimestampInvoker` | transport/interceptor.go:128-133 | adds the decimal time as a parameter |
| `Transport.Invoke` | transport/interceptor.go:50-60 | the recursion over the chain changes the request as the chain's specification says and stops at the first refusal |
| `Transport.ChainLetsOutIff` | transport/interceptor.go:50-60 | a chain of any shape lets a request out if and only if it has no auth or both keys are stored, with the time and the access key of whatever it has |
| `Transport.ChainAcceptsIff` | transport/interceptor.go:36-47 | a chain of any shape accepts exactly what each of its interceptors accepts |
| `Transport.BuiltChainAdds` | transport/interceptor.go:90-133 | the built chain adds the time, and under both keys the access key and a signature that covers the time |
| `Transport.BuildInterceptor` | transport/transport.go:78-96 | timestamp runs before auth |
| `Transport.PrepareRequest` | transport/transport.go:99-111 | the request id is added after the chain, and only if the chain passed; without interceptors it is all that changes |
| `Transport.SendRequest` | transport/transport.go:98-133 | what reaches the channel, under which request id, and that the result is the answer to just that; without interceptors the request goes out whatever keys are stored and is never refused |
| `Transport.SentIsAccepted` | transport/transport.go:98-133 | a request that reaches the channel through the built chain is accepted by a receiver with the same keys, and carries its request id |
| `Transport.InvokeThenHandle` | transport/interceptor.go:36-133 | the built chain lets a request out exactly with both keys stored, and accepts what it let out, with or without the request id |
| `Transport.ParametersAreSigned` | transport/interceptor.go:76-106 | without a signed-data header the timestamped parameters are what the signature covers |
| `BladeHandler.IsAsyncCreate` | web/handler/chaosblade.go:450-466 | true exactly for a create with an async flag among its words |
| `BladeHandler.QueryPreparationStatus` | web/handler/chaosblade.go:359-385 | an error exactly without a field map, a panic exactly on a wanted field that is no string, and the record's fields otherwise |
| `BladeHandler.TimingCheckStatus` | web/handler/chaosblade.go:288-332 | stops at the first tick that times out, panics, or sees a status other than Created; the status, and the error text for Error only |
| `BladeHandler.LastSeenIs` | web/handler/chaosblade.go:295-320 | the status left at the deadline is that of the latest record seen, or Unknown without one |
| `BladeHandler.ChaosbladeHandler.HandleCacheAndSafePoint` | web/handler/chaosblade.go:202-248 | cache, history and started install, uninstall and async checkers after one command, and when it panics |
| `BladeHandler.ChaosbladeHandler.FinishInstallCheck` | web/handler/chaosblade.go:250-264 | a finished poll ends its checker, records the callback, and reports the polled status and error text if there is an address |
| `BladeHandler.ChaosbladeHandler.DeleteCallback` | web/handler/chaosblade.go:341-349 | the entry goes exactly for a status that is Error in any letter case |
| `BladeHandler.RunningIsStanding` | web/handler/chaosblade.go:202-264 | over every interleaving the cache holds exactly the uids created and not since removed, each with its latest command line |
| `BladeHandler.OnlyInstallsRollBack` | web/handler/chaosblade.go:214-217 | an entry leaves the cache only by a destroy, a revoke, or the callback of an earlier JVM install |
| `LimitedList.NewLimitedSortList` | pkg/tools/limitedlist.go:17-25 | an empty list exactly for a positive capacity |
| `LimitedList.LimitedList.Put` | pkg/tools/limitedlist.go:27-35 | after any sequence of puts the list holds exactly the last ones up to its capacity, in order |
| `LimitedList.LimitedList.Foreach` | pkg/tools/limitedlist.go:37-54 | visits the retained values from the oldest on, for a handler whose errors may depend on what it was given before |
| `LimitedList.LimitedList.ForeachReverse` | pkg/tools/limitedlist.go:56-73 | visits the retained values from the newest back, for such a handler |
| `LimitedList.BreakingVisitsPrefix` | pkg/tools/limitedlist.go:44-53 | when breaking, the visit is a prefix up to and including the first error |
| `LimitedList.ReverseMirrorsForward` | pkg/tools/limitedlist.go:56-73 | without breaking, the reverse visit mirrors the forward visit |
| `Strings.TrimSpaceParts` | pkg/tools/auth.go:140 | trimming cuts all white space on both sides and nothing else |
| `Strings.SplitN2Parts` | pkg/tools/auth.go:146 | one piece without the delimiter, else what is left and right of the first |
| `Strings.FieldsAfterWord` | web/handler/chaosblade.go:158 | white space ends a word, and what follows is split on its own |
| `Strings.FieldsAfterSpace` | web/handler/chaosblade.go:158 | leading white space does not matter |
| `Strings.EqualFoldIff` | web/handler/chaosblade.go:318-342 | equal up to the case of letters, character by character |

## Left out

- BurnLaunch.CpuResolver: the number out of range that Atoi clamps is not modelled; the resolver only prints 64-bit values, which never are.
- MemBurn.Starts: the endless ticker loop is followed over every finite prefix of readings; the capacity growth rule of append is any over-allocation, and the float product 1.25 * cap is taken exactly, as it is below 2^51.
- CpuQuota.Quota: the float product is taken over the reals and truncated toward zero.
- Transport.SendRequest: the JSON encoder and decoder and the server are functions; `SentIsAccepted` needs a decoder that undoes the encoder.
- Agent.BurnChild.MemRun: a child whose timer has not gone off yet, or that dies of something else; the machine has both.
- AppFile.KeyFile.RecordMapToFile: a write that puts down its whole text and still reports an error.
- BladeHandler.ChaosbladeHandler.FinishInstallCheck: the panic of a poller ends the whole agent, which is not followed further.
- LimitedList.LimitedList.Foreach: handlers that change anything but their own verdicts.
- LimitedList.LimitedList.Put: the doubly linked list is a sequence field, so node links are not modelled; the mutex makes each call atomic.
- The flag column holds the value its JSON text stands for, with the fields that a destroy reads; the JSON encoder and parser are not modelled.
- SQLite itself, its text-to-integer reading (a parameter of the query results), and database errors other than a duplicate uid and a wrong argument count.
- DeleteExperimentModelByUid, which nothing calls.
- UpperFirst on bytes outside ASCII letters.
- HTTP serving and client, downloading, unpacking, logging, flag parsing, and the registration, ping, uninstall and update handlers.
- CPU slope ramping, whose only call has climb time 0; real CPU and memory measurement.
- A script's time limit: the check runs after the command has ended and has no effect on the table.
- What the asynchronous and uninstall checkers report once started; it does not touch the cache.
- Progress, such as every experiment reaching Success: the code does not guarantee it.
