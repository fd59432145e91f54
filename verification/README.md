# Zed REPL runtimes, REPL panel and vim dot-repeat, modelled in Dafny

This project models three parts of the Zed editor and proves properties of them.

- **Kernel runtimes** (`crates/repl/src/runtimes.rs`, module `Runtimes` in `runtimes.dfy`):
  - Jupyter kernelspec discovery over the `kernels` directory of each data directory.
  - Validation of a kernelspec's `argv` and its substitution of `{connection_file}` into the launch command.
  - The connection record and connection file of a launched kernel, and the `Kernel` state enum with its status dot.
  - How requests are routed to the control and shell channels, and the one-request-one-reply discipline of each channel worker.
- **REPL panel** (`crates/repl/src/runtime_panel.rs`, module `RuntimePanel` in `runtime_panel.dfy`):
  - Which text runs: the selection, or the cursor's line when the selection is empty.
  - When the text may run: one language, and not markdown.
  - Which kernelspec runs it: the first one for the language.
  - The panel's own state: enabled flag, width, dock position and sessions per editor.
- **Vim dot-repeat and macros** (`crates/vim/src/normal/repeat.rs`, module `VimRepeat` in `repeat.dfy`):
  - The `Replayer` queue: a cursor into which each new batch is spliced.
  - The batch that `.` queues, which rewrites a counted insert.
  - The batch that `@r` queues, which is the recording repeated `count` times.
  - The recording state machine driven by observed actions and insertions.

`wrappers.dfy` holds the shared `Option` and `Result` types.

How the model is shaped:

- Code that works by mutation is modelled that way:
  - `KernelCell`, `RuntimePanel`, `Replayer` and `Vim` are classes whose methods update fields.
  - The loops of the source are methods with loop invariants. `BuildCommand`, `Route`, `ReadKernelsDir`, `SelectionRange`, `RepeatActions` and `BuildRepeatBatch` are each proved equal to a specification function. `RunWorker` states its properties directly in its postconditions.
- External inputs are parameters:
  - the filesystem is a value `Fs` of directory listings, directories and file contents;
  - JSON parsing is a function `parse`;
  - the probed ports, the random key, and the outcomes of the write, the spawn and the socket connections are a value `LaunchIo`;
  - what a socket returns is a sequence of `Exchange`s;
  - the editor's buffer is a character sequence, and the language at an offset is a function.

Two points where the model follows the code rather than a looser reading of it:

- The argv check accepts a `{connection_file}` anywhere in `argv`, including `argv[0]`. Only `argv[1..]` is substituted, though. So a kernelspec whose only placeholder is the program passes validation, and no argument names the connection file. `Runtimes.CommandPassesConnectionPath` states exactly when the path reaches the kernel.
- Nothing in `repeat.rs` sets `ReplayerState.running` to true. `replay` therefore always schedules `next`. `VimRepeat.Replayer.Replay` returns `scheduled == !running`, which is the code as written.

## Model

| member | source | states |
|---|---|---|
| Runtimes.BuildCommand | crates/repl/src/runtimes.rs:32-58 | The loop over `argv[1..]` yields exactly the specified command or refusal. The command has `argv[0]` as its program, every later argument with `{connection_file}` replaced by the connection path, and the kernelspec's env only when it has one. |
| Runtimes.CommandValidation | crates/repl/src/runtimes.rs:33-41 | Empty argv is refused with "Empty argv", a one-element argv with "Invalid argv", and an argv without the placeholder with "Missing 'connection_file'". In that order, each naming the kernelspec. A command is produced if and only if argv has at least two elements and contains the placeholder. |
| Runtimes.CommandShape | crates/repl/src/runtimes.rs:43-57 | A valid command runs `argv[0]` with `\|argv\| - 1` arguments, argument i being `argv[i+1]` substituted. Its env is empty without a spec env and exactly the spec env otherwise. |
| Runtimes.CommandPassesConnectionPath | crates/repl/src/runtimes.rs:38-51 | The connection path is among the arguments if and only if a placeholder (or the path itself) occurs in `argv[1..]`. |
| Runtimes.CommandLeavesNoPlaceholder | crates/repl/src/runtimes.rs:45-51 | No `{connection_file}` token survives substitution, unless the path is that token. |
| Runtimes.BuildConnectionInfo | crates/repl/src/runtimes.rs:155-166 | The record has transport "tcp", ip "127.0.0.1" and scheme "hmac-sha256". Its stdin, control, hb, shell and iopub ports are the five probed ports in that order. It carries the given key and kernel name "zed-" + spec name. |
| Runtimes.ConnectionPortsDistinct | crates/repl/src/runtimes.rs:158-162 | Five distinct probed ports give five distinct channel ports. |
| Runtimes.DecimalRoundTrip | crates/repl/src/runtimes.rs:168 | The decimal rendering of the entity id in the file name parses back to the id. |
| Runtimes.ConnectionFileNameInjective | crates/repl/src/runtimes.rs:168 | Two entities with the same connection file name are the same entity: kernels never share a file. |
| Runtimes.Dot | crates/repl/src/runtimes.rs:85-96 | The colour is Success iff running and idle; Modified iff running and busy, starting or shutting down; Error iff the launch errored; Disabled iff shut down. |
| Runtimes.UpdatesTouchOnlyTheirField | crates/repl/src/runtimes.rs:98-114 | Both updates keep the variant. On a running kernel they change only their own field (execution state, or kernel info set to Some). Every other variant is left unchanged. |
| Runtimes.UpdatesIdempotent | crates/repl/src/runtimes.rs:98-114 | Repeating an update changes nothing, a later update overrides an earlier one, and the two updates commute. |
| Runtimes.DotAfterStatus | crates/repl/src/runtimes.rs:85-105 | After a status update, a running kernel's dot is Success when idle and Modified when busy. Other variants keep their dot. |
| Runtimes.KernelCell.SetExecutionState | crates/repl/src/runtimes.rs:98-105 | The kernel is updated in place. Only a running kernel's execution state changes. |
| Runtimes.KernelCell.SetKernelInfo | crates/repl/src/runtimes.rs:107-114 | The kernel is updated in place. Only a running kernel's kernel info changes, to Some(info). |
| Runtimes.Launch | crates/repl/src/runtimes.rs:145-266 | The connection file is written before the command is built, and each step's failure ends the launch. Once the ports are probed and the write succeeds, the files present are the old ones plus the connection file, whether the launch then succeeds or fails (argv refused, spawn or sockets failing). Before that, the files are unchanged. |
| Runtimes.LaunchSuccess | crates/repl/src/runtimes.rs:151-264 | A launch succeeds iff every step succeeds. It then yields the built record, the command for the file's path, that path, and a Busy state with no kernel info, which shows a Modified dot. |
| Runtimes.Drop | crates/repl/src/runtimes.rs:269-275 | Dropping a kernel removes its connection file, keeps every other file, and adds nothing. |
| Runtimes.LaunchLeaksFileOnRefusedArgv | crates/repl/src/runtimes.rs:168-173 | As written, a launch whose argv is refused fails but leaves the new connection file on disk. |
| Runtimes.LaunchReleasingFile | crates/repl/src/runtimes.rs:168-183 | The launch with cleanup has the same result. On failure it leaves no file it did not find, and on success it adds exactly the connection file. |
| Runtimes.LaunchThenDropRestoresFiles | crates/repl/src/runtimes.rs:269-275 | With cleanup, a failed launch leaves the files as they were, and a successful launch followed by drop does too. |
| Runtimes.Route | crates/repl/src/runtimes.rs:211-227 | The routing loop puts exactly the debug, interrupt and shutdown requests on the control queue and all others on the shell queue, each in submission order. |
| Runtimes.FilterConcat | crates/repl/src/runtimes.rs:211-227 | Routing two batches one after the other gives, on each queue, the first batch's messages followed by the second's. |
| Runtimes.FilterMembers | crates/repl/src/runtimes.rs:213-223 | A message is on a queue iff it was submitted and belongs to that queue. |
| Runtimes.RoutePartitions | crates/repl/src/runtimes.rs:213-223 | The two queues together hold the submitted requests as a multiset. No request is lost or duplicated. |
| Runtimes.RouteClassifies | crates/repl/src/runtimes.rs:214-222 | The control queue holds only control requests and the shell queue only the rest, both directions. |
| Runtimes.RunWorker | crates/repl/src/runtimes.rs:229-249 | The worker reads exactly once per request sent. The forwarded replies are the successful reads, in order. It ends Ok iff every request got a reply, and then it has sent the whole queue. Otherwise it stops right after the request whose read failed (or found the socket exhausted). |
| Runtimes.ReadKernelspecAt | crates/repl/src/runtimes.rs:277-303 | A spec is read iff the directory has a name, is a directory, and its kernel.json exists and parses. The spec is then named after the directory, with that path and the parsed contents. |
| Runtimes.ReadKernelsDir | crates/repl/src/runtimes.rs:306-324 | An unlistable directory is an error. Otherwise the scan keeps the valid specs in listing order, skipping errored entries, non-directories and bad specs. |
| Runtimes.ValidKernelspecsConcat | crates/repl/src/runtimes.rs:310-321 | Scanning a listing in two parts gives the two parts' specs in order. |
| Runtimes.ValidKernelspecsMembers | crates/repl/src/runtimes.rs:310-321 | A spec is found iff some readable directory entry reads as that spec. |
| Runtimes.ValidKernelspecsSound | crates/repl/src/runtimes.rs:306-324 | Every discovered spec comes from a listed directory named like the spec, whose kernel.json parses to the spec's contents. |
| Runtimes.RuntimeSpecifications | crates/repl/src/runtimes.rs:326-344 | Discovery over the data directories never fails: unlistable `kernels` directories are dropped. |
| Runtimes.RuntimeSpecificationsConcat | crates/repl/src/runtimes.rs:329-343 | Discovery over two lists of data directories is their discoveries concatenated, in order. |
| Runtimes.ListedKernelsDirContributesItsSpecs | crates/repl/src/runtimes.rs:330-341 | A data directory whose `kernels` directory can be listed adds exactly that directory's valid specs, in listing order, after those of the earlier data directories. |
| Runtimes.RuntimeSpecificationsMembers | crates/repl/src/runtimes.rs:326-344 | A spec is discovered iff some data directory's `kernels` directory can be listed and its scan yields the spec. |
| Runtimes.MissingKernelsDirAddsNothing | crates/repl/src/runtimes.rs:336-341 | A data directory without a listable `kernels` directory adds no spec. |
| RuntimePanel.SelectionRange | crates/repl/src/runtime_panel.rs:106-150 | The two scanning loops compute the specified range: a non-empty selection as it is, an empty one widened to the cursor's line. |
| RuntimePanel.SelectedRange | crates/repl/src/runtime_panel.rs:111-147 | The range lies within the buffer. A non-empty selection is kept. For an empty one the range is the cursor's whole line: it contains the cursor and no newline, and starts after a newline (or at 0) and stops at a newline (or the end). |
| RuntimePanel.LineStartIsLineStart | crates/repl/src/runtime_panel.rs:114-127 | The backward scan stops at offset 0 or just after a newline, and crosses no newline. |
| RuntimePanel.LineEndIsLineEnd | crates/repl/src/runtime_panel.rs:129-141 | The forward scan stops at the buffer's end or at a newline, and crosses no newline. |
| RuntimePanel.LineIsUnique | crates/repl/src/runtime_panel.rs:111-144 | There is only one line range through a cursor, so the widened range is that line. |
| RuntimePanel.SnippetAt | crates/repl/src/runtime_panel.rs:152-177 | A snippet exists iff the languages at the range's two ends are the same language, present, and not fenced as "markdown". The snippet is then the range's text, that language's name and the range. |
| RuntimePanel.FindKernelspec | crates/repl/src/runtime_panel.rs:191-198 | The result is None iff no kernelspec has exactly the language. Otherwise it is the first such kernelspec in list order. |
| RuntimePanel.SetPosition | crates/repl/src/runtime_panel.rs:273-286 | Setting a dock position stores the setting that `position` maps back to that dock. Enabled and default width are kept. |
| RuntimePanel.PositionMappingsInverse | crates/repl/src/runtime_panel.rs:261-286 | Setting the position that is read back changes nothing. |
| RuntimePanel.RuntimePanel.constructor | crates/repl/src/runtime_panel.rs:69-79 | A new panel has the settings' enabled flag, no width, no sessions and no kernelspecs. |
| RuntimePanel.RuntimePanel.SetEnabled | crates/repl/src/runtime_panel.rs:90-95 | Stores the flag. Notifies once if it changed and not otherwise. Nothing else changes. |
| RuntimePanel.RuntimePanel.SetKernelSpecifications | crates/repl/src/runtime_panel.rs:184-187 | The discovered list replaces the panel's kernelspecs, and the panel is notified. |
| RuntimePanel.RuntimePanel.Size | crates/repl/src/runtime_panel.rs:288-292 | The size is the stored width when there is one, and otherwise the settings' default width. |
| RuntimePanel.RuntimePanel.SetSize | crates/repl/src/runtime_panel.rs:294-296 | The width becomes the argument, so `Size` returns it, or the default when it is None. Nothing else changes. |
| RuntimePanel.RuntimePanel.Run | crates/repl/src/runtime_panel.rs:200-234 | Disabled or without a snippet: Ok, and nothing changes. No kernelspec for the language: the error "No kernel found for language: …", and nothing changes. Otherwise the editor's existing session, or a new one with that kernelspec created with one notification, gets the snippet's text and range appended to its executions. |
| RuntimePanel.SessionReused | crates/repl/src/runtime_panel.rs:221-231 | Executing keeps a session's editor and kernelspec and appends exactly one execution. |
| VimRepeat.ShouldReplay | crates/vim/src/normal/repeat.rs:15-21 | An action is skipped iff it is ShowCharacterPalette. |
| VimRepeat.RepeatableInsert | crates/vim/src/normal/repeat.rs:23-44 | The four inserts map to InsertBefore, the two line inserts to InsertLineBelow, and ToggleReplace to itself. Everything else, including any insertion, maps to None. |
| VimRepeat.RepeatableInsertStable | crates/vim/src/normal/repeat.rs:23-44 | The rewritten insert is itself repeatable and rewrites to itself. |
| VimRepeat.RepeatedAppend | crates/vim/src/normal/repeat.rs:158-162 | Appending one more copy of a recording gives one more repetition. |
| VimRepeat.RepeatedLength | crates/vim/src/normal/repeat.rs:158-162 | `count` repetitions of a recording have length `count * \|recording\|`. |
| VimRepeat.RepeatedAt | crates/vim/src/normal/repeat.rs:158-162 | Element j of copy k of the repetition is element j of the recording. |
| VimRepeat.RepeatActions | crates/vim/src/normal/repeat.rs:158-162 | The `while count > 0` loop yields the recording repeated `count` times, of length `count * \|recording\|`. |
| VimRepeat.Splice | crates/vim/src/normal/repeat.rs:93-96 | After splicing at `ix`, the queue keeps its prefix before `ix`, then holds the batch, then the old rest. |
| VimRepeat.BuildRepeatBatch | crates/vim/src/normal/repeat.rs:277-302 | The pop, the overwrite of `actions[0]` and the append loop build exactly the specified dot-repeat batch. |
| VimRepeat.DotRepeatBatchEndsWithEndRepeat | crates/vim/src/normal/repeat.rs:302 | Every batch that `repeat` queues ends with EndRepeat. |
| VimRepeat.DotRepeatPlainRecording | crates/vim/src/normal/repeat.rs:277-302 | A recording that does not start with a repeatable insert is queued as recorded, plus EndRepeat, whatever the count. |
| VimRepeat.DotRepeatOnceReplaysRecording | crates/vim/src/normal/repeat.rs:277-302 | An insert recorded with its closing NormalBefore and repeated once from normal mode is replayed exactly as recorded, then EndRepeat. |
| VimRepeat.DotRepeatBatchLength | crates/vim/src/normal/repeat.rs:284-298 | From normal mode the batch holds `count` copies of the insert, and from insert mode `max(count - 1, 1)`, plus NormalBefore and EndRepeat. |
| VimRepeat.Replayer.constructor | crates/vim/src/normal/repeat.rs:84-91 | A new replayer has an empty queue, cursor 0, is not running, and is bound to its editor. |
| VimRepeat.Replayer.Replay | crates/vim/src/normal/repeat.rs:93-102 | The queue becomes `old[..ix] + batch + old[ix..]`, with the cursor and the running flag unchanged. `next` is scheduled iff not running. |
| VimRepeat.Replayer.Stop | crates/vim/src/normal/repeat.rs:104-106 | The queue is emptied. |
| VimRepeat.Replayer.Next | crates/vim/src/normal/repeat.rs:108-133 | The cursor moves by exactly one and the queue is unchanged. The step is the item at the old cursor (dispatch, skip or insertion replay), or Finished past the end. |
| VimRepeat.AppendToRecording | crates/vim/src/normal/repeat.rs:212-216 | The register's recording gains the item at its end, starting empty when absent. Other registers are unchanged. |
| VimRepeat.DotRecorded | crates/vim/src/normal/repeat.rs:316-325 | While dot-recording, the item is appended, and a pending stop clears both flags. When not recording, nothing changes. No other field changes. |
| VimRepeat.DotRecordingStopsAfterOneItem | crates/vim/src/normal/repeat.rs:321-324 | With the stop flag set, exactly one more item is recorded and the next is not. |
| VimRepeat.RegisterRecorded | crates/vim/src/normal/repeat.rs:360-369 | While a register is being recorded, the item is appended to it. Otherwise nothing changes. |
| VimRepeat.RepeatCount | crates/vim/src/normal/repeat.rs:187-208 | Over a recorded selection the count is cleared. Otherwise the count just typed replaces the recorded one, when there is one. |
| VimRepeat.Vim.Enqueue | crates/vim/src/normal/repeat.rs:166-169 | A batch goes into a fresh replayer for the editor when there is none. Otherwise it is spliced into the current one at its cursor. |
| VimRepeat.Vim.EndRepeat | crates/vim/src/normal/repeat.rs:47-52 | Dot-replaying is switched off and the mode returns to Normal. |
| VimRepeat.Vim.ToggleRecord | crates/vim/src/normal/repeat.rs:55-63 | While recording, the register is cleared and becomes the last recorded register. Otherwise the RecordRegister operator is pushed. |
| VimRepeat.Vim.ReplayRegister | crates/vim/src/normal/repeat.rs:136-171 | The count (default 1) is taken and the operators cleared. '@' resolves to the last replayed register, and nothing happens if that is unset. A missing recording or editor does nothing. Otherwise the recording repeated `count` times is queued, and the resolved register becomes the last replayed. |
| VimRepeat.Vim.ReplayLastRecording | crates/vim/src/normal/repeat.rs:65-70 | Nothing happens without a last recorded register. Otherwise it behaves as replaying that register. |
| VimRepeat.Vim.PrepareRepeat | crates/vim/src/normal/repeat.rs:187-218 | The count is taken and kept per `RepeatCount`, and the mode switches to the recorded selection's. Repeat goes into the register being recorded only while no replayer is active. |
| VimRepeat.Vim.Repeat | crates/vim/src/normal/repeat.rs:173-312 | Without a recording or an editor, nothing changes. Otherwise the dot-repeat batch for the count in effect is queued and dot-replaying is on. |
| VimRepeat.Vim.ObserveAction | crates/vim/src/normal/repeat.rs:314-336 | The action is dot-recorded, and goes to the register only while no replayer is active. |
| VimRepeat.Vim.ObserveInsertion | crates/vim/src/normal/repeat.rs:338-371 | A flagged insertion is dropped and the flag reset. Otherwise the insertion is dot-recorded and goes to the register whether or not a replay runs. |
| VimRepeat.Vim.Advance | crates/vim/src/normal/repeat.rs:108-117 | One step of the replayer in the state. The replayer is removed when it has run past its queue, and otherwise its cursor moves by one. |

## Left out

- Port probing (`peek_ports`) binds TCP listeners. It is an input: the five ports, or the bind error.
- The random key (a v4 UUID) is an input.
- Spawning the process, `kill_on_drop`, and creating the ZeroMQ sockets are inputs (their failures in `LaunchIo`).
- The background tasks, the iopub relay and the `SelectAll` merge of the reply streams are not modelled. How the channels interleave depends on the scheduler. Routing and each worker are modelled sequentially.
- JSON serialisation of the connection record and `atomic_write` are not modelled. Writing is modelled as adding the path to the set of files.
- `Drop` closes the request channel. Only the file removal is modelled.
- Runtimes.RunWorker: the model does not include a failure to forward a reply to the reply channel, or a failed send being retried. Only read failures end a worker; failed sends are ignored, as in the source.
- Runtimes.RunWorker: the sequence of exchanges stands for everything the socket will ever answer. When it runs out, that stands for a read that fails, and the worker ends with an error. A read that never returns, which leaves the source's worker waiting forever, is not represented.
- Runtimes.Route: a failure to enqueue on the control or shell channel (a closed receiver) is not modelled.
- `KernelSpecification` is defined in `crates/repl/src/kernels.rs`, which is not part of this model. The runtime specification of `runtimes.rs` stands for it, since the panel only reads its `kernelspec.language`.
- The panel's rendering, focus handling, icon and `position_is_valid` (always true) are not modelled. Neither are `load`'s asynchronous setup and the workspace-level `run` action. That action returns early when the settings disable the REPL, calls `RuntimePanel::run` only when there is an active editor and a panel, and discards its error.
- RuntimePanel.RuntimePanel.Run: `Session::new` (starting the kernel) and `Session::execute` are not part of this model. Executing is modelled as appending the code and range to the session's executions. Anchors are plain offsets.
- RuntimePanel.SelectionRange: the buffer is one character sequence. Multi-buffer excerpts and the `'\0'` fallback of `chars_at` (never reached inside the buffer's bounds) are not modelled.
- `switch_mode` is modelled only as setting the `mode` field. The `visual_motion` calls that re-create a recorded selection are not modelled.
- Dispatching an action, deferring `next` and `observe_action`, and `replay_insert_event` are not modelled. `Replayer.Next` reports the step it takes, and the caller performs it.
- VimRepeat.Vim.Repeat: counts are at least 1. `take_count` is not part of this model, and a zero count, which would make `count -= 1` underflow, is not represented.
- The Neovim-backed tests of `repeat.rs` assert whole-editor results and are not modelled.

## Findings

| source | as written | input that shows it | evidently intended | confidence | as-written member | corrected member |
|---|---|---|---|---|---|---|
| crates/repl/src/runtimes.rs:168-183 | The connection file is written before the argv is validated and before the process is spawned and the sockets connected. Each of those errors returns through `?` without removing the file, and `Drop` runs only for a constructed kernel. | A kernelspec whose `argv` is `["python"]`, with free ports and a writable runtime directory: the launch fails with "Invalid argv" and `kernel-zed-<id>.json` stays on disk. | A failed launch leaves no connection file behind. The file lives exactly as long as the kernel. | not executed | Runtimes.LaunchLeaksFileOnRefusedArgv | Runtimes.LaunchThenDropRestoresFiles |
