# osutils process and filesystem helpers in Dafny

This project models the Go package `osutils` (file `osutils.go`). The package wraps the OS process and filesystem APIs in helpers that refuse relative paths. Its one piece of real bookkeeping is the pipeline executor `executePiped`, which:

- validates a list of N ≥ 2 commands;
- builds one process record (`exec.Cmd`) per stage;
- chains the stages with N − 1 in-memory pipes;
- starts the stages in order;
- returns a wait handle, which waits for the stages and closes the pipe ends on a fixed schedule.

The host OS is modelled as an oracle:

- A pipeline call (start a stage, wait for a stage, close a pipe end) is an `Oracle.Event`.
- `failures: map<Event, Error>` gives the error of every call that fails. A call absent from the map succeeds.
- `Oracle.Run` makes a list of calls one after the other and stops at the first failure. This is the `if err := f(); err != nil { return err }` chain the source uses everywhere.
- The filesystem helpers get their OS answers (stat, open, create, mkdir, rename, the walk, and so on) from a `FileSystem.Host` value.

Modules:

- `Wrappers`: `Option` and `Result`.
- `Errors`: the package's sentinel errors, plus `OsErr(code)` for errors that the OS reports.
- `Paths`: `IsAbsolutePath`, which is `filepath.IsAbs` on a Unix host (the path starts with `/`).
- `Oracle`: streams, pipe ends, OS calls, and `Run`, with its lemmas.
- `Process`: the caller's `Cmd` and `PipeCmd`, the process record `Stage`, `execCmd`, `execPipeCmd` and `execute`.
- `Pipeline`: `executePiped`.
  - The class `PipedExecution` holds the `execCmds`, `readers` and `writers` arrays. They are filled in place, as in the source.
  - `Launch` is the body of `executePiped`. `Wait` is the closure it returns.
  - Every OS call is appended to `trace`.
  - The wiring and the wait schedule are specified by functions (`IsChain`, `WaitSchedule`), and lemmas prove what the source promises about them.
- `FileSystem`: `stat`, the existence checks, `open`, the absolute-path guards of the mutating helpers, and `listRegularFiles` as a filter over the walk's callback invocations.

Two behaviours of the code worth knowing:

- **When the first read end is closed.** With three or more stages, `readers[0]` is closed in loop turn 1, right after stage 1 is waited for, so before the last stage is waited for (`FirstReaderClosedEarly`). With two stages it is the handle's last call, at line 206 (`TwoStageSchedule`).
- **When `listRegularFiles` fails.** It fails on any error the walk hands to the callback, including an `lstat` error on a single entry (`RegularFiles`).

## Model

| member | source | states |
|---|---|---|
| Oracle.RunShape | osutils.go:184-210 | A return-on-error chain makes a prefix of its calls. It fails exactly when some call fails, and then with the error of the last call it made, which is a failing call. Otherwise it made every call. |
| Oracle.RunMadeSucceeded | osutils.go:184-210 | Every call a chain made before its last one succeeded. |
| Oracle.RunStopsAt | osutils.go:184-210 | If `e` is the first failing call, the chain ends with `e` and returns `e`'s error unchanged. |
| Oracle.RunThrough | osutils.go:189-210 | A block of calls inside a longer chain: if the block fails, the whole chain ends there with the block's error; otherwise everything so far succeeded. |
| Oracle.RunCompletes | osutils.go:184-210 | When no call fails, every call is made and the result is nil. |
| Paths.IsAbsolutePath | osutils.go:365-367 | A path is absolute exactly when it has `/` as a prefix (filepath.IsAbs on Unix). The empty path is relative, and appending to an absolute path keeps it absolute. |
| Process.ArgsError | osutils.go:117-125 | The command guards in their order. A nil `Args` gives ErrNil, then an empty `Args` gives ErrEmpty, then a set but relative `AbsoluteDir` gives ErrNotAbsolutePath. Each error holds exactly under its condition, and nil holds exactly when all three pass. |
| Process.ExecCmd | osutils.go:380-393 | Both branches give program `Args[0]` and argv `Args`, with the command's directory, environment and its three streams. |
| Process.ExecPipeCmd | osutils.go:395-405 | Both branches give program `Args[0]` and argv `Args`, with the stage's directory and environment, and no stream attached. |
| Process.Execute | osutils.go:116-134 | A rejected command starts nothing and returns the guard's error. Otherwise exactly one start is made; a failed start returns its error and no handle; otherwise the handle is the built process record. |
| Process.ExecuteWait | osutils.go:133 | The handle of `execute` makes one wait and returns its error unchanged. |
| Pipeline.FirstStageErrorIsFirst | osutils.go:147-157 | The stage loop returns the error of the first rejected stage in index order. It passes exactly when no stage is rejected. |
| Pipeline.ValidationOrder | osutils.go:137-157 | A nil list gives ErrNil, zero stages give ErrEmpty, one stage gives ErrNotMultipleCommands. With two or more stages, the result is the first rejected stage's error, or nil exactly when every stage passes. |
| Pipeline.ValidationAccepts | osutils.go:137-157 | A list that passes validation has at least two stages, each with a non-empty argument vector. |
| Pipeline.Validate | osutils.go:137-157 | The guard loop, check by check, returns the error that ValidationError specifies. |
| Pipeline.ChainStreams | osutils.go:171-183 | In a chain, stage i reads the pipeline's Stdin (i = 0) or pipe i − 1's read end. It writes pipe i's write end, or the pipeline's Stdout for the last stage. Every stage writes the pipeline's Stderr. |
| Pipeline.ChainEndsAttachedOnce | osutils.go:166-183 | Each pipe end is attached to exactly one stage: write end j to stage j, read end j to stage j + 1. No other pipe is attached. |
| Pipeline.StageWaitCount | osutils.go:191-201 | Loop turn i makes each of its calls once: the wait for stage i, the close of read end i − 1 (for i ≥ 1) and the close of write end i. |
| Pipeline.StepsCount | osutils.go:190-202 | When nothing fails, the first k loop turns wait for stages 0 .. k−1, close write ends 0 .. k−1 and read ends 0 .. k−2, each exactly once, and make no other call. |
| Pipeline.StepsWaitInOrder | osutils.go:190-202 | The loop waits for the stages in index order. |
| Pipeline.StepsCloseAfterWaits | osutils.go:190-202 | In the loop, every pipe end is closed only after the stage that used it was waited for. |
| Pipeline.ScheduleCount | osutils.go:189-210 | When nothing fails, the handle waits for each of the N stages once, closes each end of each of the N − 1 pipes exactly once, and makes no other call. |
| Pipeline.ScheduleInOrder | osutils.go:189-210 | When nothing fails, stages are waited in index order. Write end j is closed only after stage j was waited for, and read end j only after stage j + 1. |
| Pipeline.FirstReaderClosedEarly | osutils.go:190-209 | With N ≥ 3 stages, the read end of pipe 0 is the fourth call of the schedule (loop turn 1, after the wait for stage 1), and the wait for the last stage comes later, after the whole loop. |
| Pipeline.TwoStageSchedule | osutils.go:189-210 | With two stages the handle waits for stage 0, closes write end 0, waits for stage 1 and closes read end 0 as its last call. |
| Pipeline.WaitStopsAtFirstFailure | osutils.go:189-210 | On the error path, the waits made are a prefix of the in-order waits. If a wait for stage i failed, stages after i were not waited for. |
| Pipeline.WaitErrorLeavesLastReaderOpen | osutils.go:189-210 | On any error path, the read end of the last pipe is never closed successfully. |
| Pipeline.WaitStageInSchedule | osutils.go:190-202 | A failing turn of the loop ends the whole handle with that turn's error; a succeeding turn leaves every call so far successful. |
| Pipeline.WaitLastInSchedule | osutils.go:203-209 | After a loop that fully succeeded, the handle's outcome is that of its last wait and last close. |
| Pipeline.StartOrder | osutils.go:184-188 | Stages are started in increasing index order. The first failing start ends the launch with its error, and no later stage is started. With no failure, all N are started. |
| Pipeline.PipedExecution.StartAll | osutils.go:184-188 | The start loop records exactly the starts of the chain over `Starts(n)` and returns its error. |
| Pipeline.PipedExecution.Launch | osutils.go:136-211 | A rejected list returns the validation error with no OS call and no handle. An accepted list gets N process records for its N commands, wired as a chain with pipe ends in `readers`/`writers`. Its stages are started in order, and the handle is ready exactly when no start failed. |
| Pipeline.PipedExecution.LaunchAccepted | osutils.go:158-211 | After validation: assemble, then start in order; the arrays satisfy Assembled, and the handle is ready exactly when no start failed. |
| Pipeline.PipedExecution.WaitStage | osutils.go:191-201 | One loop turn makes the calls of `StageWait(i)`, stopping at and returning the first failure. |
| Pipeline.PipedExecution.WaitLast | osutils.go:203-209 | Waits for the last stage, then closes the last read end, stopping at the first failure. |
| Pipeline.PipedExecution.Wait | osutils.go:189-210 | The handle makes exactly the calls of `WaitSchedule(N)` up to the first failure, and returns that failure's error, or nil. |
| Pipeline.Link | osutils.go:173-175 | One wiring turn: stage i gets the write end and the pipeline's Stderr, stage i + 1 gets the read end, and nothing else changes. |
| Pipeline.Record | osutils.go:176-180 | `readers[j]` and `writers[j]` are set to the new pipe's ends, and no other slot changes. |
| Pipeline.LinkAll | osutils.go:168-181 | After the loop, `readers[j]`/`writers[j]` hold the ends of pipe j for every j < N − 1. Stage 0 reads the pipeline's Stdin. Stage k < N − 1 writes pipe k and the pipeline's Stderr, and stage k ≥ 1 reads pipe k − 1. Commands are unchanged. |
| Pipeline.Wire | osutils.go:166-183 | The wiring yields a chain (IsChain), and every stage still runs its command. |
| Pipeline.Assemble | osutils.go:158-183 | Fresh arrays: N process records, one per command in order, and N − 1 pipes wired into a chain. |
| Pipeline.BuildStages | osutils.go:158-165 | `execCmds[i]` is the process record of the i-th command. |
| FileSystem.Stat | osutils.go:369-378 | A missing entry gives neither info nor error; any other stat error is returned unchanged; never both an entry and an error. |
| FileSystem.IsFileExists | osutils.go:291-297 | A relative path is refused. Found exactly for an existing entry, in which case there is no error. `(false, nil)` exactly when the entry is absent. A stat error is returned with false. |
| FileSystem.IsRegularFileExists | osutils.go:257-272 | A relative path is refused. `(true, nil)` exactly for a regular file, `(false, nil)` exactly for an absent entry, and ErrNotRegularFile exactly for an entry of another kind. A stat error is propagated. |
| FileSystem.IsDirExists | osutils.go:274-289 | The same classification as IsRegularFileExists, for directories, with ErrNotDir. |
| FileSystem.ChecksAgree | osutils.go:257-297 | The specific checks only find what isFileExists finds, and never both find the same path. An entry found without error is either found or refused with its kind's sentinel. Absence and errors are reported identically by all three. |
| FileSystem.Open | osutils.go:236-248 | A relative path is refused and a stat error propagated. ErrFileDoesNotExist holds exactly for an absent entry. Only an existing entry reaches os.Open. |
| FileSystem.Create | osutils.go:250-255 | ErrNotAbsolutePath exactly for a relative path; otherwise os.Create's outcome. |
| FileSystem.Mkdir | osutils.go:299-304 | ErrNotAbsolutePath exactly for a relative path; otherwise os.Mkdir's outcome. |
| FileSystem.MkdirAll | osutils.go:306-311 | ErrNotAbsolutePath exactly for a relative path; otherwise os.MkdirAll's outcome. |
| FileSystem.RemoveAll | osutils.go:313-318 | ErrNotAbsolutePath exactly for a relative path; otherwise os.RemoveAll's outcome. |
| FileSystem.Rename | osutils.go:320-328 | ErrNotAbsolutePath exactly when either path is relative; otherwise os.Rename's outcome. |
| FileSystem.CleanPath | osutils.go:361-363 | Succeeds exactly when EvalSymlinks of the cleaned path succeeds, with its result; otherwise that call's OS error. |
| FileSystem.NewTempSubDir | osutils.go:350-359 | ErrNotAbsolutePath exactly for a relative base. A failed mkdir (mode 0755) of the joined path returns its error. Otherwise the result is the cleaned, symlink-resolved new path. |
| FileSystem.RelativeNeverReachesHost | osutils.go:213-328 | For a relative path, every guarded helper returns ErrNotAbsolutePath, whatever the host would answer. |
| FileSystem.RegularFiles | osutils.go:218-232 | The walk callback fails exactly when some invocation carries an error. On success it lists exactly the paths of regular entries. |
| FileSystem.RegularFilesFirstError | osutils.go:218-232 | The first erroneous invocation aborts the walk, and its error is returned whatever follows. |
| FileSystem.RegularFilesAppend | osutils.go:218-232 | Paths are listed in walk order: the listing of two consecutive stretches is the concatenation of their listings. |
| FileSystem.RegularFilesSingle | osutils.go:224-226 | An entry is listed exactly when it is a regular file. |
| FileSystem.ListRegularFiles | osutils.go:213-234 | ErrNotAbsolutePath exactly for a relative root. Otherwise it succeeds exactly when the walk carries no error, and it lists exactly the regular entries the walk visits. |

## Left out

- Process spawning, exit statuses, environment and working-directory semantics: `Start` and `Wait` are oracle outcomes keyed by the stage.
- Data flowing through the pipes, blocking, and any concurrency or deadlock reasoning: only the order of the OS calls is modelled.
- `io.PipeReader.Close` and `io.PipeWriter.Close` never fail in Go. The oracle still lets a close fail, so the model covers every error branch the source writes out.
- The error branch after `execPipeCmd` (osutils.go:161-163) is dead because `execPipeCmd` never fails. The same holds for the one after `execCmd` in `execute` (osutils.go:127-129). Neither branch is modelled.
- A nil `*PipeCmd` inside the list, or a nil list pointer, makes the Go code panic. The model's lists cannot hold nil stages.
- Pipeline.PipedExecution.Wait: requires that the handle has not been used before. A second call in Go waits on stage 0 again, and `exec.Cmd.Wait` answers that with its own "already called" error. That answer is foreign behaviour and is not modelled.
- Filesystem effects of os.Open, os.Create, os.Mkdir, os.MkdirAll, os.RemoveAll and os.Rename: each is a `Host` outcome, and the file handle is a plain number.
- `filepath.Clean` and `filepath.EvalSymlinks` (cleanPath) are `Host` functions. `filepath.Join` is modelled as Clean of `base + "/" + name`.
- `filepath.Walk`'s traversal: the walk is given as the sequence of callback invocations the host makes for the root. Its lexical order, its use of lstat (so a symlink is never listed as a regular file) and the error from reading a directory's entries, which the walk passes to the callback for that directory, are all part of that sequence.
- `exec.Command` resolves a program name without a slash through `LookPath`. The model keeps the name as given (`Stage.name`); a failed lookup surfaces as a failed start, which the oracle covers.
- `uuid.NewUUID` is a parameter of NewTempSubDir.
- `getwd` and `newTempDir` query the OS and then clean the path. They are not modelled.
- `filepath.IsAbs` is modelled for Unix hosts only: a path is absolute when it starts with `/`.
- The exported wrappers at osutils.go:50-112 only forward to the private functions and are not modelled separately.
