# CALDP logging, exit handling and output packaging in Dafny

This project models three core modules of CALDP, the HST calibration pipeline
driver, and proves properties of them:

- `caldp/log.py`: the `CaldpLogger` that counts infos, warnings, errors and
  debugs, gates emission on a verbosity level, formats messages through
  filters, and tracks a pending end of line on stdout. The pure behaviour is
  the datatype `CaldpLog.LogState` with one member function per logger
  operation. The class `CaldpLog.CaldpLogger` keeps the same fields, and each
  of its methods is proved to move its state exactly as that function does.
- `caldp/sysexit.py`: `exit_on_exception` (exception-to-exit-code mapping and
  error simulation through `CALDP_SIMULATE_ERROR`), `_report_exception`'s
  effect on the logger, `exit_receiver`, `retry` (a loop, modelled as a
  method) and `exponential_backoff`. An outcome of a `with` block is a value
  (`Completed`, `SystemExit(code)`, `MemoryError`, `OtherException`).
- `caldp/file_ops.py`: `get_output_dir`, `find_files`, `make_tar`, the path
  split and request of `upload_tar`, `ProgressPercentage.__call__` and
  `tar_outputs`. The filesystem is a map from absolute paths to entries. An
  archive entry is its member list. The class `FileOps.Workspace` holds the
  filesystem and the working directory, and its methods are proved against
  specification functions (`MakeTarSpec`, `UploadSpec`, `TarOutputsSpec`).

Environment values, the directory listing that `glob` sees, the random jitter
of `exponential_backoff`, the traceback lines and the output path that
`process.get_output_path` computes are parameters. The text that `write`
sends to stdout is accumulated in the `stdout` field. The records the
`logging` library would receive are kept as a sequence of severity and text.

Supporting modules: `Wrappers` (Option, Result) and `Strings` (Python's
`str.split` and `str.join` with their round trip, `startswith`, `endswith`,
string repetition, integer formatting).

## Model

| member | source | states |
|---|---|---|
| CaldpLog.ApplyFilters | caldp/log.py:122-123 | the text passed through the filters, the last registered applied last (its order is stated by FiltersApplyInRegistrationOrder) |
| CaldpLog.FiltersApplyInRegistrationOrder | caldp/log.py:118-124 | the first registered filter is applied first, then the rest in order |
| CaldpLog.FiltersKeepNewline | caldp/log.py:122-123 | filters that each keep a trailing newline keep it when chained |
| CaldpLog.LevelOf | caldp/log.py:182-186 | True becomes 50, False becomes 0, and an integer level is itself |
| CaldpLog.DividerArgs | caldp/log.py:343-347 | with no name the one argument is the char repeated n times; with a name there are three arguments, the name between two equal runs of the char |
| CaldpLog.DividerWidth | caldp/log.py:338-347 | with no name the text is the char repeated n times; with a name it is n2 chars, the name and n2 chars, at most n and at least n - 1 wide for a one-character fill; a name too long gives just the name padded by spaces |
| CaldpLog.FatalExceptionBanner | caldp/log.py:343-345 | the "Fatal Exception" divider is 29 dashes, the name and 29 dashes, 75 characters |
| CaldpLog.LogState.Format | caldp/log.py:118-124 | with no filters the output is the arguments joined by sep, plus end |
| CaldpLog.LogState.Write | caldp/log.py:163-171 | only the pending-end-of-line flag and stdout change, and stdout is only appended to |
| CaldpLog.LogState.FlushEol | caldp/log.py:126-129 | only the flag and stdout change, and nothing changes when no end of line is pending |
| CaldpLog.LogState.Emit | caldp/log.py:130-149 | one record of the given severity is appended; counters, verbosity and filters are unchanged |
| CaldpLog.LogState.Info | caldp/log.py:132-135 | infos grows by one, no other counter or setting changes, and one record is added iff verbose_level > -1 |
| CaldpLog.LogState.Warn | caldp/log.py:137-140 | warnings grows by one, no other counter or setting changes, and one record is added iff verbose_level > -2 |
| CaldpLog.LogState.Error | caldp/log.py:142-145 | errors grows by one, no other counter or setting changes, and one record is added iff verbose_level > -3 |
| CaldpLog.LogState.Debug | caldp/log.py:147-149 | debugs grows by one, no other counter or setting changes, and one record is always added |
| CaldpLog.LogState.Log | caldp/log.py:132-149 | one call adds one to the counters in all, and keeps verbosity and filters |
| CaldpLog.LogState.ShouldOutput | caldp/log.py:151-153 | holds iff verbose_level >= verbosity |
| CaldpLog.LogState.Verbose | caldp/log.py:155-157 | below its verbosity nothing changes; otherwise one debug is counted |
| CaldpLog.LogState.VerboseWarning | caldp/log.py:159-161 | below its verbosity nothing changes; otherwise one warning is counted |
| CaldpLog.LogState.Status | caldp/log.py:173-174 | the triple (errors, warnings, infos); what it counts is stated by StatusCountsCallsSinceReset |
| CaldpLog.LogState.Reset | caldp/log.py:176-177 | the four counters are zero and nothing else changes |
| CaldpLog.LogState.SetVerbose | caldp/log.py:179-187 | only the verbosity changes: to the mapped level when in range, not at all otherwise |
| CaldpLog.LogState.IncrementErrors | caldp/log.py:252-254 | errors grows by N and nothing else changes |
| CaldpLog.LogState.Divider | caldp/log.py:338-347 | one logging call: the counters grow by one in all, infos by default |
| CaldpLog.LogState.FatalError | caldp/log.py:224-225 | one error is counted and, unless errors are squelched, one error record is added |
| CaldpLog.CallCounts | caldp/log.py:132-149 | each of info/warn/error/debug adds one to its own counter whatever the verbosity and leaves the others unchanged |
| CaldpLog.EmissionThresholds | caldp/log.py:132-149 | info emits iff verbose_level > -1, warn iff > -2, error iff > -3; debug always emits |
| CaldpLog.RunCounts | caldp/log.py:132-149 | any sequence of calls moves each counter by the number of calls of its severity, and adds one record per call that passes its threshold |
| CaldpLog.StatusCountsCallsSinceReset | caldp/log.py:173-177 | after reset, status() is (errors, warnings, infos) called since, in any interleaving |
| CaldpLog.DoctestStatus | caldp/log.py:7-25 | after reset, one warning, two errors and one info give status (2, 1, 1) |
| CaldpLog.ResetZeroesCounters | caldp/log.py:176-177 | reset zeroes all four counters, debugs included, and leaves records and verbosity alone |
| CaldpLog.VerboseGating | caldp/log.py:151-161 | should_output holds iff verbose_level >= verbosity; a suppressed verbose or verbose_warning changes nothing, an allowed one is debug or warn |
| CaldpLog.SetVerboseThenGet | caldp/log.py:179-190 | an in-range level (-3..100, or a boolean) is installed as mapped; an out-of-range one fails and changes nothing; counters and records are untouched |
| CaldpLog.DoctestVerbosity | caldp/log.py:34-52 | at level 0 verbose is silent; after set_verbose() a verbose message at 50 is emitted, one at 60 is not; after set_verbose(60) it is |
| CaldpLog.EolFlushClearsPending | caldp/log.py:126-130 | eformat's flush writes the filtered newline only when an end of line is pending, and leaves the flag clear when the filters keep newlines |
| CaldpLog.IncrementErrorsOnlyCounts | caldp/log.py:252-254 | increment_errors(N) adds N to errors and changes nothing else |
| CaldpLog.CaldpLogger.constructor | caldp/log.py:96-101 | counters zero, no pending end of line, verbosity from CALDP_VERBOSITY or 0 when it is unset |
| CaldpLog.CaldpLogger.Format | caldp/log.py:118-124 | the loop over the filters returns the arguments joined by sep, plus end, passed through every filter in registration order |
| CaldpLog.CaldpLogger.EFormat | caldp/log.py:126-130 | flushes a pending end of line, then formats with end "" |
| CaldpLog.CaldpLogger.Write | caldp/log.py:163-171 | appends the formatted text to stdout and sets eol_pending iff it does not end in a newline |
| CaldpLog.CaldpLogger.Emit | caldp/log.py:132-149 | flushes a pending end of line and records the message with its severity |
| CaldpLog.CaldpLogger.Info | caldp/log.py:132-135 | counts an info and emits it iff verbose_level > -1 |
| CaldpLog.CaldpLogger.Warn | caldp/log.py:137-140 | counts a warning and emits it iff verbose_level > -2 |
| CaldpLog.CaldpLogger.Error | caldp/log.py:142-145 | counts an error and emits it iff verbose_level > -3 |
| CaldpLog.CaldpLogger.Debug | caldp/log.py:147-149 | counts a debug and always emits it |
| CaldpLog.CaldpLogger.Log | caldp/log.py:132-149 | dispatches one call to info, warn, error or debug by its severity |
| CaldpLog.CaldpLogger.ShouldOutput | caldp/log.py:151-153 | agrees with should_output of the logger's state |
| CaldpLog.CaldpLogger.Verbose | caldp/log.py:155-157 | debug only when should_output holds |
| CaldpLog.CaldpLogger.VerboseWarning | caldp/log.py:159-161 | warn only when should_output holds |
| CaldpLog.CaldpLogger.Status | caldp/log.py:173-174 | returns (errors, warnings, infos) of the logger's state |
| CaldpLog.CaldpLogger.Reset | caldp/log.py:176-177 | the state after reset() |
| CaldpLog.CaldpLogger.SetVerbose | caldp/log.py:179-187 | installs the mapped level and returns the previous one; out of range it fails and changes nothing |
| CaldpLog.CaldpLogger.GetVerbose | caldp/log.py:189-190 | returns the installed verbosity level |
| CaldpLog.CaldpLogger.IncrementErrors | caldp/log.py:252-254 | the state after increment_errors(N) |
| CaldpLog.CaldpLogger.Divider | caldp/log.py:338-347 | logs the divider text through the chosen severity |
| CaldpLog.CaldpLogger.FatalError | caldp/log.py:224-226 | logs "(FATAL)" and the arguments as one error, then exits with -1 |
| SysExit.ReportTraceback | caldp/sysexit.py:177-179 | the traceback loop logs errors only: no other counter and no setting changes |
| SysExit.ReportException | caldp/sysexit.py:170-180 | one info (the divider) and no warning or debug is logged, the settings are kept, and a record is added unless infos are squelched |
| SysExit.ReportTracebackCounts | caldp/sysexit.py:177-179 | each traceback line other than "NoneType: None" adds one error, and no other counter moves |
| SysExit.ReportExceptionCounts | caldp/sysexit.py:170-180 | _report_exception adds one info (the divider), one error for non-empty args, and one error per reported traceback line |
| SysExit.EnterBlock | caldp/sysexit.py:111-122 | an unparsable CALDP_SIMULATE_ERROR is the only way to fail before the try; a simulation raises MemoryError or another exception; only the container simulation logs before the block |
| SysExit.LeaveBlock | caldp/sysexit.py:123-135 | leaving exit_on_exception either completes normally or raises SystemExit |
| SysExit.ExitOnException | caldp/sysexit.py:111-135 | with a parsable CALDP_SIMULATE_ERROR the handler ends normally only when its block ran and completed, and otherwise raises SystemExit; an unparsable one raises ValueError before the try, so the block does not run and nothing is logged |
| SysExit.Mapped | caldp/sysexit.py:123-135 | only completion passes; everything else becomes a SystemExit, another exception SystemExit(exit_code) |
| SysExit.ExceptionMapping | caldp/sysexit.py:123-135 | without a matching simulation the block runs; completion passes through; SystemExit keeps its code; MemoryError becomes 32; any other exception becomes exit_code; every exception is reported |
| SysExit.BlockRunsIff | caldp/sysexit.py:111-123 | the block runs iff no memory error is simulated and the simulated code is not the handler's own, the container code aside |
| SysExit.SimulatedCodeExits | caldp/sysexit.py:121-135 | a simulated code equal to exit_code skips the block and exits with exit_code |
| SysExit.SimulatedMemoryErrorExits | caldp/sysexit.py:113-131 | a simulated CALDP_MEMORY_ERROR skips the block and exits with 32 for any exit_code |
| SysExit.UnsetSimulationMatchesSuccessCode | caldp/sysexit.py:111-122 | with the variable unset, a handler whose code is SUCCESS (0) never runs its block |
| SysExit.Nest | caldp/sysexit.py:111-135 | nested handlers with a parsable simulation end normally or with SystemExit, and end normally only when the block ran and completed |
| SysExit.NestOfOne | caldp/sysexit.py:111-135 | one level of nesting is exit_on_exception itself |
| SysExit.InnerCodeWins | caldp/sysexit.py:125-127 | in nested handlers without simulation, the innermost handler's mapping decides the exit status |
| SysExit.ExitStatus | caldp/sysexit.py:239-248 | a SystemExit gives its code; of the other outcomes, exactly completion gives 0 |
| SysExit.ExitReceiver | caldp/sysexit.py:239-248 | the block runs iff the memory limit could be read |
| SysExit.ExitReceiverCodes | caldp/sysexit.py:239-248 | completion exits 0, SystemExit(c) exits c, MemoryError 32, any other exception 1, and an unreadable memory limit 1 |
| SysExit.Stage1ErrorExitsWith23 | caldp/sysexit.py:221-248 | a RuntimeError under exit_on_exception(STAGE1_ERROR) inside exit_receiver exits with 23; the memory limit is logged before the handler reports |
| SysExit.MalformedSimulationExitsWith1 | caldp/sysexit.py:111 | a CALDP_SIMULATE_ERROR that int() rejects skips the block unreported, and exit_receiver then exits with 1 |
| SysExit.ExponentialBackoff | caldp/sysexit.py:274-286 | the sleep is at least min_sleep, at most max_sleep when min_sleep <= max_sleep, and exactly jitter * backoff^iteration inside that range |
| SysExit.RetrySleepAsWritten | caldp/sysexit.py:158 | the sleep after a failure is bounded by exponential_backoff's defaults, 1 to 64 seconds, whatever retry's own bounds |
| SysExit.RetryAsWrittenExceedsMaxSleep | caldp/sysexit.py:138-158 | as written, retry with max_sleep 5 sleeps 8 seconds after its third failure |
| SysExit.RetrySleep | caldp/sysexit.py:138-158 | the sleep after a failure lies between retry's min_sleep and max_sleep |
| SysExit.Retry | caldp/sysexit.py:148-165 | calls func at most max_retries times; returns the first returned value; after each failure sleeps exponential_backoff(tried) with its default bounds; after max_retries failures raises the last exception; with max_retries <= 0 fails unbound |
| FileOps.PathJoinInjective | caldp/file_ops.py:40 | two relative paths joined to the same directory give the same path only when they are equal |
| FileOps.BasenameOfName | caldp/file_ops.py:50 | the basename of a path without '/' is the path itself |
| FileOps.GetOutputDir | caldp/file_ops.py:12-18 | a "file" URI always gives a directory, with no ':' in it; the only error is the unbound output_dir of a URI with neither prefix |
| FileOps.FileUriDirectory | caldp/file_ops.py:14-15 | a "file" URI gives the text after its last ':', which holds no ':', or the whole URI when it has none |
| FileOps.OutputDirCases | caldp/file_ops.py:12-18 | "file" is checked before "s3"; "s3" gives outputs under the working directory; any other URI is an error |
| FileOps.Glob | caldp/file_ops.py:22-27 | a listed path is returned iff it matches the pattern |
| FileOps.GlobKeepsOrder | caldp/file_ops.py:25-27 | glob returns matches in listing order: globbing a listing is globbing any prefix, then the rest |
| FileOps.FindFiles | caldp/file_ops.py:21-28 | returns only paths of the directory listing |
| FileOps.FindFilesMembership | caldp/file_ops.py:21-28 | a listed path is returned iff it matches `*.fits`, `*.tra` or `previews/*` under the job directory |
| FileOps.GroupOfMatch | caldp/file_ops.py:22-24 | the three patterns are disjoint, so a match decides its group, and every match lies under ipppssoot/ |
| FileOps.FindFilesGroups | caldp/file_ops.py:21-28 | every result is under ipppssoot/, and the fits, tra and previews groups come in that order |
| FileOps.FoundFilesAvoidArchive | caldp/file_ops.py:21-28 | find_files returns relative paths and never the archive or its copy in the job directory |
| FileOps.Members | caldp/file_ops.py:36-38 | the archive's members are exactly the listed names, in order, each with what was at its path |
| FileOps.FirstMissing | caldp/file_ops.py:37-38 | the index of the first listed file that does not exist, which aborts the archive |
| FileOps.CopyDest | caldp/file_ops.py:41 | shutil.copy writes onto ipppssoot unless it is a directory, and exactly to ipppssoot/basename(tar) when it is |
| FileOps.MakeTarSpec | caldp/file_ops.py:31-43 | a missing-file error names a listed file, and a success returns os.path.join(ipppssoot, tar) |
| FileOps.MakeTarOkIff | caldp/file_ops.py:34-42 | make_tar succeeds iff no directory is in the archive's place, every listed file exists and no directory is where shutil.copy writes |
| FileOps.MakeTarCopyOntoDirectoryFails | caldp/file_ops.py:39-42 | a directory at ipppssoot/ipppssoot.tar.gz makes make_tar fail after "Tar successful" is logged, leaving the top-level archive |
| FileOps.MakeTarSuccessState | caldp/file_ops.py:31-43 | after success the old top-level archive is gone, the new one is in the job directory, and two infos were logged |
| FileOps.MakeTarPlacesArchive | caldp/file_ops.py:31-43 | after make_tar the archive is at ipppssoot/ipppssoot.tar.gz, which it returns, with the listed files as members; the top-level copy is gone; two infos were logged |
| FileOps.MakeTarIsIdempotent | caldp/file_ops.py:32-38 | a second make_tar with the same list leaves the same archive and filesystem: it replaces, not appends |
| FileOps.ExtractRestoresFiles | caldp/file_ops.py:36-38 | unpacking the members of the listed files puts each file back as it was |
| FileOps.MakeTarRoundTrip | caldp/file_ops.py:31-43 | unpacking the archive make_tar placed in the job directory gives back every listed file |
| FileOps.Bucket | caldp/file_ops.py:48-49 | the bucket holds no '/' |
| FileOps.ObjectName | caldp/file_ops.py:50 | the object name ends in "/" and the archive's basename |
| FileOps.BucketPrefixSplit | caldp/file_ops.py:48-49 | the bucket is the first '/'-segment after "s3://" and holds no '/'; bucket + "/" + prefix gives that text back; without '/' the prefix is empty |
| FileOps.UploadSpec | caldp/file_ops.py:46-54 | a path not starting with "s3" uploads nothing and is no error; one info is logged and no error is counted |
| FileOps.UploadOnlyToS3 | caldp/file_ops.py:46-54 | an upload is requested iff the output path starts with "s3" and the archive is a file, to the split bucket and prefix + "/" + basename; the log line is written in every case |
| FileOps.ChDirSpec | caldp/file_ops.py:91 | os.chdir succeeds iff the target is a directory, which becomes the working directory |
| FileOps.TarOutputsSpec | caldp/file_ops.py:87-98 | a normal return restores the working directory; an upload is made only for an "s3" path; an unbound output_dir stops before any change |
| FileOps.TarOutputsWorkingDirectory | caldp/file_ops.py:87-98 | on normal return the working directory is restored; the directory is changed iff the chdir succeeded and a later step raised, and then it is the output directory; (tar, file_list) is returned iff the URI starts with "file" |
| FileOps.ProgressExample | caldp/file_ops.py:57-67 | a ProgressPercentage for a 25-byte file called back with 10, 10 and 5 bytes has seen all 25 |
| FileOps.Workspace.ChDir | caldp/file_ops.py:91 | changes to an existing directory, and otherwise fails leaving the working directory alone |
| FileOps.Workspace.AddMembers | caldp/file_ops.py:36-38 | the loop adds the listed files' members up to the first missing file and returns that file's index |
| FileOps.Workspace.MakeTar | caldp/file_ops.py:31-43 | the filesystem, result and log afterwards are those of make_tar's specification, including the failing copy onto a directory |
| FileOps.Workspace.UploadTar | caldp/file_ops.py:46-54 | the request and log are those of upload_tar's specification; the filesystem is unchanged |
| FileOps.Workspace.TarOutputs | caldp/file_ops.py:87-98 | result, upload, filesystem, working directory and log are those of tar_outputs' specification |
| FileOps.ProgressPercentage.constructor | caldp/file_ops.py:58-62 | nothing seen so far |
| FileOps.ProgressPercentage.Call | caldp/file_ops.py:64-67 | the bytes seen so far stay equal to the sum of all increments received |

## Left out

- The `logging` handler and formatter plumbing, `set_test_mode`, `set_log_time`, `PP`, `Deferred`, `srepr` and `standard_status`: they configure or call a library that is not part of this model. Emission is an abstract sequence of records.
- Keyword arguments other than `sep` and `end`, and the `str()` of non-string arguments: every argument is already a string.
- CaldpLog.CaldpLogger.constructor: the branch for a malformed `CALDP_VERBOSITY` is left out, because it calls the module-level `warning` before that name is bound; the parsed value, or 0 when unset, is what is modelled.
- CaldpLog.CaldpLogger.SetVerbose: a failed assertion is modelled as the state left unchanged and no previous level, rather than an AssertionError.
- `exit_codes.explain` and the "MemoryError" line `exit_on_exception` prints to stderr: text on the console with nothing to state. The `exit_codes` module is not part of this model, so SUBPROCESS_MEMORY_ERROR and CONTAINER_MEMORY_ERROR are parameters.
- The 1 GiB allocation of the container memory simulation, `get_linux_memory_limit` and `set_process_memory_limit`: operating-system effects. The memory limit is an optional parameter of `ExitReceiver`.
- Exceptions derived from BaseException but not from Exception (KeyboardInterrupt and the like), and whatever the block itself logs.
- SysExit.Retry: the `log.warning` issued after each failure (one more warning counted per failed attempt) is left out, because the loop is modelled without a logger; the `exceptions` filter is left out too, and every failure is taken to be one of the caught exceptions.
- CaldpLog.CaldpLogger.FatalError: `fatal_error` logs through the module-level `error`, that is THE_LOGGER; the model logs on the instance itself, which is the same object for the one logger the program builds.
- `random.uniform` and `time.sleep`: the jitter is a parameter and the sleeps are returned, not taken; reals stand for floats, without rounding.
- FileOps.ProgressPercentage.Call: the floating-point percentage and the line written to stdout are left out, and so is the lock; calls are sequential.
- boto3: the client is foreign, so `UploadTar` returns the request it would make instead of sending it.
- gzip encoding and byte copying: an archive is its member list, and a directory added to it is one member, not its recursive contents.
- FileOps.MakeTarSpec: tarfile's rule that skips the archive itself when it is listed is left out; such a member is reported missing.
- Parent directories: writing a path whose parent directory does not exist succeeds in the model.
- `os.path.abspath` normalisation: paths are joined as `posixpath.join` does, without collapsing `.` or `..`.
- Glob: only one path component with a suffix, not hidden, is matched. Sorting and other pattern syntax are left out; the listing order is an input.
- `process.get_output_path` is not part of this model; its result is the `outputPath` parameter.

## Findings

| source | as written | input that shows it | evidently intended | confidence | as-written member | corrected member |
|---|---|---|---|---|---|---|
| caldp/sysexit.py:158 | retry calls `exponential_backoff(tried)` with that function's defaults (1, 64, 2), ignoring its own min_sleep, max_sleep and backoff | max_sleep = 5, three failures, jitter 1.0: the sleep is 8 seconds | retry passes min_sleep, max_sleep and backoff on, so each sleep stays within its own bounds | not executed | SysExit.RetrySleepAsWritten | SysExit.RetrySleep |
