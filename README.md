# openscreener media-mosaic core, modelled in Dafny

The server takes video from many TCP connections and writes each connection's bytes into a named pipe (a FIFO) of its own. It then runs one `ffmpeg` process that tiles every live pipe into a single 800x800 mosaic. This project models the three sequential state holders at the centre of that pipeline and proves what they promise.

- **`FFMpegger`** (`transcoder.dfy`, with `heartbeat_table.dfy` and `mosaic_layout.dfy`) is the transcoder supervisor.
  - It keeps an insertion-ordered table from conduit path to the second it was last heard from. It prunes entries 20 seconds old or older and entries whose file has vanished.
  - It restarts the compositor when the data went stale, the ordered key list changed, or the process died, and only when at least one source is left.
  - It builds the compositor's argument list from the table: one input per conduit and a pad/scale/overlay filter graph laid out on a square grid.
- **`UnixPipeWriter`** (`pipe_writer.dfy`) is the conduit writer.
  - Per cycle it handles up to 1000 queued messages.
  - For each data frame it announces the conduit path downstream, makes sure a named pipe is open for that path, and writes the bytes.
  - A new-connection notice from another source empties its pending input.
- **`FanPipe`** (`fan_pipe.dfy`) is the per-key fan-out stage.
  - It routes each inbound message to the handler of its key, creating the handler on first use. A nil or empty key raises.
  - Each cycle it moves at most one inbound message and collects at most one outbound message per handler, in handler creation order.

`messages.dfy` holds the message record the three share; nil is `None`. Where Ruby raises, the model returns a `Failure`.

The clock, the set of files on disk, whether the compositor process is alive, and the bytes the compositor wrote since the last cycle are all parameters. Process spawning and termination are recorded as `ProcEvent`s. Pipe opens, closes and writes, and each message pushed downstream, are recorded in order as `Effect`s. Handles and pids are fresh numbers.

The operations follow the code, except in the three places listed under Findings, where the code evidently does not do what it was written for. There the operations follow the intended behaviour, and a separate member models the code as written:

- `MosaicLayout.FfmpegArgs` builds the filter graph with the offsets the code computes (`Placement.AsWritten`). The intended grid is `Placement.Intended`, for which `MosaicLayout.CellOrigin` and `MosaicLayout.CellsDisjoint` hold.
- `PipeWriting.EnsureFifo`, and with it `PipeWriting.UnixPipeWriter.EnsureFifoExists`, closes a vanished conduit's handle, drops it and opens a fresh one. The code as written keeps the closed handle; that is `PipeWriting.EnsureFifoAsWritten`, shown by `PipeWriting.AsWrittenWritesClosedHandle`.
- `Transcoder.FFMpegger.HandleData` and `Transcoder.FFMpegger.Cycle` record the heartbeat of an announcement that carries no `:data`. The code as written raises on it; that is `Transcoder.HandleDataAsWritten`, shown by `Transcoder.AnnouncementAsWrittenRaises`.

Other details follow the code:

- A restart is triggered by a change in the *ordered* key list.
- Scaled inputs are placed at their cell's corner, with no centring.
- `FanPipe.cycle_in_messages` moves one message per call, not a batch.
- The conduit writer uses the blocking write (`push_to_fifo_block`), not a write with a timeout.
- `Math.sqrt(n).ceil` is replaced by the least `c` with `c*c >= n`. The two agree for every table size the argument builder accepts (at most 158).

## Model

| member | source | states |
|---|---|---|
| HeartbeatTable.SetBeatSpec | ffmpegger.rb:151-154 | `heartbeat p` records `now` for `p` and leaves every other path's time as it was. An existing key keeps its position; a new key is appended. Keys stay distinct. |
| HeartbeatTable.SetBeatExisting | ffmpegger.rb:153 | Assigning to an existing key replaces that entry in place. |
| HeartbeatTable.SetBeatNew | ffmpegger.rb:153 | Assigning to a new key appends it at the end. |
| HeartbeatTable.PruneKeeps | ffmpegger.rb:126-131 | The two selects of `clean_heartbeats` keep exactly the entries younger than 20 s whose path exists. They keep the table's order (a subsequence) and keep keys distinct. |
| HeartbeatTable.PruneIdempotent | ffmpegger.rb:126-131 | For a fixed clock and disk, pruning twice equals pruning once. |
| HeartbeatTable.PruneKeepsLive | ffmpegger.rb:129-130 | A table of fresh entries with existing paths is left as it is. |
| HeartbeatTable.PruneDropsOld | ffmpegger.rb:129 | A table whose every entry is 20 s old or older prunes to nothing. |
| HeartbeatTable.PrunedNotStale | ffmpegger.rb:174-182 | Right after pruning, `stopped_getting_data?` is false: pruning keeps ages below 20, and staleness needs an age above 20. |
| MosaicLayout.CellsPerSide | ffmpegger.rb:85 | `cells_per_side` is a `c` with `c*c >= n` and `(c-1)*(c-1) < n`. |
| MosaicLayout.CellsPerSideLeast | ffmpegger.rb:85 | No smaller side holds `n` cells. |
| MosaicLayout.CellSizeFits | ffmpegger.rb:86 | `cell_size = 800 / c`: a row of `c` cells fits the canvas, and one pixel wider would not. |
| MosaicLayout.CellSizePositive | ffmpegger.rb:84-86 | For 1..158 inputs there are at most 13 cells per side, each at least 61 pixels wide. |
| MosaicLayout.CellOrigin | ffmpegger.rb:108-111 | The intended placement (column `i mod c`, row `i div c`) puts every cell wholly on the canvas. |
| MosaicLayout.CellsDisjoint | ffmpegger.rb:108-111 | Under that placement, two different inputs never share a cell. |
| MosaicLayout.AsWrittenMisplaces | ffmpegger.rb:108-111 | As written, the y offset of input `i > 0` is `cell*i`, not `cell*(i div c)`, so every input after the first is misplaced. |
| MosaicLayout.AsWrittenLeavesCanvas | ffmpegger.rb:108-111 | With 3 inputs, the third is overlaid at (0, 800), off the canvas, and the graph the code builds carries that overlay; the intended cell is (0, 400). |
| MosaicLayout.AsWrittenTwoInputs | ffmpegger.rb:108-111 | With 2 inputs, the graph the code builds overlays the second input at (400, 400), below the first row; the intended cell is (400, 0). |
| MosaicLayout.OverlayChain | ffmpegger.rb:104-113 | For either placement there is one overlay per input. Overlay `k` draws on `a` (k = 0) or the previous overlay's output, adds scaled input `k` (label `chr(98+k)`) at `Origin(p, n, k)`, and outputs `chr(98+k)`. As written that origin is (`cell*(k mod c)`, `cell*(k mod (k*c))`); intended it is the grid cell (`cell*(k mod c)`, `cell*(k div c)`). |
| MosaicLayout.GraphEndsUnlabelled | ffmpegger.rb:115-116 | For either placement, `_arg[0..-5]` drops exactly the last overlay's output label `[x];`, and the graph is closed by a quote. |
| MosaicLayout.FfmpegArgs | ffmpegger.rb:74-124 | The argument list has `n + 6` elements: `-i path` per table key in order, then `-filter_complex`, the graph with the overlay offsets the code computes (`OverlayChain` with `AsWritten`), `-shortest`, `-f h264`, `-` and the stderr redirect. An empty table raises (800/0); more than 158 keys raise (`chr` above 255). |
| MosaicLayout.JoinArgs | ffmpegger.rb:70-72 | `arg_string` joins the inputs, the graph argument and the trailing arguments with single spaces. |
| MosaicLayout.CommandLineShape | ffmpegger.rb:66-72 | `ffmpeg_command` is the executable, a space and that joined argument string. |
| Transcoder.AnnouncementAsWrittenRaises | ffmpegger.rb:21-24 | The writer's path-only announcement makes `handle_data` raise as written. The model records its heartbeat and leaves other entries alone. |
| Transcoder.FFMpegger.constructor | ffmpegger.rb:8-11 | Starts with an empty table and key list, and no subprocess. |
| Transcoder.FFMpegger.Heartbeat | ffmpegger.rb:151-154 | The table becomes `SetBeat(old, p, now)`, with the key order and lookups stated. |
| Transcoder.FFMpegger.HandleData | ffmpegger.rb:21-24 | Handling an announcement is heartbeating its path. |
| Transcoder.FFMpegger.PushNewFfmpegData | ffmpegger.rb:28-45 | Forwards one `{data}` message iff there is a subprocess and it wrote something. |
| Transcoder.FFMpegger.CleanHeartbeats | ffmpegger.rb:126-131 | The table becomes its pruned self, which is idempotent and not stale. |
| Transcoder.FFMpegger.StoppedGettingData | ffmpegger.rb:174-182 | The early-return loop answers true iff some entry is more than 20 s old. |
| Transcoder.FFMpegger.AddedNewConnection | ffmpegger.rb:184-189 | True iff the remembered key list differs from the table's ordered keys. Afterwards the remembered list equals them, so a second check is false. |
| Transcoder.FFMpegger.NeedsRestart | ffmpegger.rb:156-161 | Stale data means restart, with the key list not consulted or updated. Otherwise: restart iff the key list changed or the process is dead. |
| Transcoder.FFMpegger.StopFfmpeg | ffmpegger.rb:137-149 | Terminates the subprocess only when there is one and it is alive. |
| Transcoder.FFMpegger.StartFfmpeg | ffmpegger.rb:54-64 | Spawns nothing without sources. Otherwise spawns a fresh pid with `FfmpegArgs` of the ordered keys, or fails as `ffmpeg_args` raises. |
| Transcoder.FFMpegger.RestartFfmpeg | ffmpegger.rb:47-52 | Stop, prune, start, with the process log and table stated for each outcome. |
| Transcoder.FFMpegger.RestartIfNeeded | ffmpegger.rb:18 | On a pruned, non-stale table: restarts iff the key list changed, no process was started, or it died, and some source is left. A restart spawns the next pid with the table's arguments; a failed restart keeps the old process reference and logs only the stop; no restart changes nothing, and the pid counter moves only when a process is spawned. |
| Transcoder.FFMpegger.Cycle | ffmpegger.rb:13-19 | Takes at most one announcement, forwards output, prunes, and leaves the table not stale with the key list remembered. It restarts iff the key list changed or the process is dead, and the pruned table is non-empty. A restart over more than 158 sources fails as `chr` raises, after the old process is stopped. A message without `:pipe_path` fails without spawning, leaving the process log and pid counter unchanged. |
| PipeWriting.TrimSlashesSpec | unix_pipe_writer.rb:110-112 | Trimming the working directory keeps a prefix that does not end in '/' and removes only trailing slashes. |
| PipeWriting.PathShape | unix_pipe_writer.rb:110-112 | `path(id)` is `<cwd>/data/<id>` for an id not starting with '/', following `File.join`'s slash rules. |
| PipeWriting.PathInjective | unix_pipe_writer.rb:110-112 | Such ids get the same conduit only if they are equal. |
| PipeWriting.LeadingSlashCollides | unix_pipe_writer.rb:110-112 | The ids `/x` and `x` share a conduit. |
| PipeWriting.EnsureFifoSpec | unix_pipe_writer.rb:95-103 | Afterwards `p` is on disk with an open handle of its own. An existing path with a handle keeps it. A vanished path's handle is closed and replaced by a fresh one. Other entries and both queues are unchanged. |
| PipeWriting.AsWrittenWritesClosedHandle | unix_pipe_writer.rb:97-102 | As written, a vanished conduit keeps its just-closed handle, and the frame is written to it. The intended step writes through a fresh handle. |
| PipeWriting.HandleDataFrame | unix_pipe_writer.rb:36-53 | A data frame adds exactly one announcement of its path to the output queue and leaves the input queue alone. Its trace records that announcement first and ends with the write of its bytes to the path's handle, and it adds no other write. |
| PipeWriting.HandledValid | unix_pipe_writer.rb:19-34 | Handling any message keeps every table handle open, opened for its own path, and unshared. |
| PipeWriting.CycleValid | unix_pipe_writer.rb:11-17 | A cycle keeps that invariant. |
| PipeWriting.CycleDrainsFrames | unix_pipe_writer.rb:11-17 | At most 1000 queued data frames are all handled in one cycle: the input queue ends empty and each frame's conduit is announced, in queue order. |
| PipeWriting.CycleWritesFrames | unix_pipe_writer.rb:11-53 | In that cycle the bytes written are exactly the frames' payloads, in queue order. |
| PipeWriting.CycleBounded | unix_pipe_writer.rb:11-17 | A cycle removes at most 1000 messages, or empties the queue. Without a foreign new-connection notice, it removes exactly `min(1000, |queue|)`. |
| PipeWriting.ForeignNoticeClears | unix_pipe_writer.rb:23-29 | A `:new_conn` notice whose source is not its target empties the queue and ends the cycle, changing nothing else. |
| PipeWriting.OtherMessagesIgnored | unix_pipe_writer.rb:19-34 | A self-sent or unknown notice, and any message with neither field pair, changes nothing; the data branch takes precedence. |
| PipeWriting.UnixPipeWriter.constructor | unix_pipe_writer.rb:7-9 | Empty handle table and queues. |
| PipeWriting.UnixPipeWriter.EnsureFifoExists | unix_pipe_writer.rb:95-108 | The new state is `EnsureFifo` of the old one. |
| PipeWriting.UnixPipeWriter.PushToFifo | unix_pipe_writer.rb:74-79 | Records one write of the bytes to the path's handle. |
| PipeWriting.UnixPipeWriter.PushDetails | unix_pipe_writer.rb:43-46 | Appends `{pipe_path: path(id)}` to the output queue and records the push in the trace. |
| PipeWriting.UnixPipeWriter.PushToPipe | unix_pipe_writer.rb:48-53 | Ensures the conduit, then writes to it. |
| PipeWriting.UnixPipeWriter.HandleData | unix_pipe_writer.rb:36-41 | The new state is `FrameHandled` of the old one. By `HandleDataFrame`, the announcement is pushed before the conduit is ensured and the bytes are written. |
| PipeWriting.UnixPipeWriter.ClearQueue | unix_pipe_writer.rb:114-118 | Empties the input queue only. |
| PipeWriting.UnixPipeWriter.HandleMessage | unix_pipe_writer.rb:19-34 | Performs `Handled` on the state. |
| PipeWriting.UnixPipeWriter.Cycle | unix_pipe_writer.rb:11-17 | The loop's final state is `CycleFrom(old state, 1000)`, and the handle invariant is kept. |
| Routing.RegisterSpec | pipeline_overrides.rb:13-31 | A known key leaves the registry unchanged. A new key gets exactly one new handler: the next id, empty queues, placed last. Other handlers are unchanged, and registering twice is registering once. |
| Routing.RoutedQueues | pipeline_overrides.rb:33-36 | `push_to_thread` appends the message to its handler's input queue only. |
| Routing.DispatchSpec | pipeline_overrides.rb:43-48 | Routing messages with valid keys succeeds, keeps the registry well formed, and keeps existing handlers' ids. |
| Routing.DispatchKeys | pipeline_overrides.rb:13-31 | Afterwards there is a handler for exactly the keys known before and the keys seen. |
| Routing.DispatchQueues | pipeline_overrides.rb:33-48 | Each handler's input queue gains exactly the messages of its key, in arrival order. |
| Routing.DispatchCount | pipeline_overrides.rb:13-31 | Messages carrying N distinct valid keys leave exactly N handlers. |
| Routing.Heads | pipeline_overrides.rb:50-57 | `cycle_out_messages` collects at most one message per handler. |
| Routing.CollectConserves | pipeline_overrides.rb:50-57 | Collecting output neither loses nor duplicates messages: pending before = collected + pending after. |
| Routing.Collect | pipeline_overrides.rb:50-57 | The loop over handlers in creation order yields the oldest output of each and dequeues it. |
| Routing.FanPipe.constructor | pipeline_overrides.rb:6-11 | Empty registry and queues. |
| Routing.FanPipe.HandlerForMessage | pipeline_overrides.rb:13-31 | A nil or empty key fails with the registry unchanged; otherwise the registry becomes `Register(old, key)`. |
| Routing.FanPipe.PushToThread | pipeline_overrides.rb:33-36 | Bad key: fails, unchanged. Otherwise the message joins its handler's input queue. |
| Routing.FanPipe.CycleIn | pipeline_overrides.rb:43-48 | An empty queue gives false and no change. Otherwise exactly one message is popped and routed, or lost with a failure. |
| Routing.FanPipe.CycleOut | pipeline_overrides.rb:50-57 | The output queue gains the handlers' oldest outputs in creation order, and each of those is dequeued. |
| Routing.FanPipe.Cycle | pipeline_overrides.rb:38-41 | `cycle_in_messages` then `cycle_out_messages`. A bad key raises before any output is collected. |

## Left out

- All `$log` calls. The one log line whose arguments raise (ffmpegger.rb:22) is modelled only by `Transcoder.HandleDataAsWritten`; the operations record the heartbeat instead (see Findings).
- Subprocess I/O:
  - `IO.popen`, the `read_nonblock` loop, `Process.kill`, `Process.wait` and `Process.getpgid` are operating-system calls.
  - They are modelled as a process log, a liveness flag `alive`, and the bytes read this cycle, `chunk`.
  - The executable path `@@ffmpeg_command` is only a string parameter of `CommandLine`.
- `Math.sqrt(...).ceil` is floating point; it is replaced by the least integer root.
- `Time.now` and `File.exists?` are parameters (`now`, `fs`, `disk`).
- External changes to the disk between cycles are modelled by the caller setting `disk`.
- FIFO I/O is not modelled:
  - `Fifo.new`'s system calls, and blocking in `write` until a reader attaches.
  - The unused write variants `push_to_fifo_nonblock` and `push_to_fifo_drop_stale_queue`.
  - Closing a handle whose `close` raises; in the model `close` always returns normally.
- Threads are not modelled:
  - the thread and `sleep` loop that `FanPipe` starts for each new handler;
  - the handlers' own processing, which shows only as the contents of their output queues.
- Handlers are values. A factory returning one shared handler object for several keys, or returning nil, is not modelled.
- `Messenger`, `IQueue`, `Pipeline` and `Server` are not part of this model. Their queues are sequences with pop-from-front and push-to-back.
- application.rb is not part of this model; its classes are earlier drafts of the core files.
- Transcoder.FFMpegger.Cycle: for a message without `:pipe_path`, it states only that the cycle fails and spawns nothing. Ruby stores a nil key and raises at `File.exists?(nil)` after forwarding output; the state it leaves behind is not stated.

## Findings

| source | as written | input that shows it | evidently intended | confidence | as-written member | corrected member |
|---|---|---|---|---|---|---|
| ffmpegger.rb:108-111 | The y offset is `cell_size * (i % (i * cells_per_side))`, which is `cell_size * i` for `i > 0`. | 3 inputs: `c = 2`, cell 400; input 2 lands at y = 800, off the 800-pixel canvas, in the graph passed to `ffmpeg`. | y = `cell_size * (i div c)`, so input 2 lands at (0, 400). | not executed; high | MosaicLayout.AsWrittenLeavesCanvas | MosaicLayout.CellsDisjoint |
| unix_pipe_writer.rb:97-102 | The `rescue` modifier ending line 99 takes line 100 as its value. A vanished path's entry is deleted only if `close` raises, so the closed handle stays in the table and `||=` reuses it. | `@pipes = {p => h}`, with `p` deleted from disk: `h` is closed, then written to (IOError). | Close, delete and create a fresh FIFO. | not executed; medium (depends on Ruby continuing a modifier `rescue` onto the next line) | PipeWriting.AsWrittenWritesClosedHandle | PipeWriting.EnsureFifoSpec |
| ffmpegger.rb:21-24 | The log line interpolates `data.length`, which is evaluated before `debug` is called, whatever the level. | The writer's announcement `{pipe_path: p}` (unix_pipe_writer.rb:45) has no `:data`: NoMethodError. | Record the heartbeat for `p`. | not executed; medium (the stages between the writer and the supervisor are not part of this model) | Transcoder.AnnouncementAsWrittenRaises | Transcoder.AnnouncementAsWrittenRaises |
