# hyouga-uci: the UCI command loop, modelled in Dafny

The engine talks UCI (the Universal Chess Interface) on standard input and
output. `UciService::new` starts a reader task. The task takes one input line
at a time and parses it into a UCI message. It then routes the message: it
updates the engine settings, sends a work item to the work queue, or hands a
batch of replies to the writer. A `quit` ends the loop. The writer
(`UciWriter`) keeps a single print queue. A drain task writes that queue out,
first in, first out.

The model has six modules:

- `Wrappers` (wrappers.dfy): `Option`.
- `Settings` (settings.dfy, src/lib.rs): the `ENGINE_NAME` and `ENGINE_AUTHOR` constants, the `EngineSettings` record, its default, and `HashMap::insert` on the options map.
- `Messages` (messages.dfy): the parsed UCI messages as a closed datatype. Each input line carries its message and the parser's direction tag. A read error is its own input value. End of input is the end of the sequence.
- `Writer` (writer.dfy): the `UciWriter` class. `queue` is the print channel and `printed` is what the drain task has written. `QueueOne`, `QueueMany` and `Drain` change them in place.
- `UciLoop` (uci_loop.dfy): the loop body (`Step`), the loop (`Consume`) and the whole reader task (`Run`), as functions on a `ServiceState`. It also holds reference definitions (`Reply`, `Replies`, `LastDebug`, `LastOption`) and the lemmas that connect them to the loop.
- `Service` (uci_service.dfy): the `UciService` class. Its fields are `debug`, `options`, `workQueue`, `running` and the `writer`. Its `Step` and `Run` methods change those fields in place, and their contracts prove them equal to `UciLoop.Step` and `UciLoop.Run`.

A ghost `log` of events records the order of the reader task's effects:
a message sent to the writer, a work item enqueued, and the resume after
awaiting a one-shot channel. The log is what makes the `isready` ordering
statable: work item first, then the await, then `readyok`. `Recorded` says the
log agrees with both queues. The n-th one-shot channel the loop opens is
named `Handler(n)`.

Two facts about the code shape the `isready` and `uci` steps:

- The loop discards the await's result (`let _ = rx.await`, src/uci.rs:90) and then queues `readyok` (src/uci.rs:91). So `readyok` is sent whether the one-shot sender fired or was dropped.
- The handshake reply is three messages: `id name`, `id author`, `uciok` (src/uci.rs:74-78).

## Model

| member | source | states |
|---|---|---|
| `Settings.Default` | src/lib.rs:12-19 | The default settings have debugging off and an empty options map, so no option has a value. |
| `Settings.InsertOption` | src/uci.rs:101 | Inserting an option makes the name map to the new value and replaces any older value. Every other option and the debug flag are untouched. The map grows by one entry exactly when the name is new. |
| `Settings.InsertTwice` | src/lib.rs:9 | Setting the same option twice is the same as setting it once to the second value. The map size is what the first insert left. |
| `Writer.UciWriter.constructor` | src/uci.rs:46-56 | A new writer starts with an empty print queue and nothing printed. |
| `Writer.UciWriter.QueueOne` | src/uci.rs:34-37 | The message is appended at the back of the print queue. Nothing already printed changes. |
| `Writer.UciWriter.QueueMany` | src/uci.rs:38-43 | The batch is appended at the back of the print queue, in its own order. |
| `Writer.UciWriter.Drain` | src/uci.rs:50-54 | The drain task prints the queue front to back (FIFO) until it is empty. What has been submitted in total is unchanged. |
| `UciLoop.Step` | src/uci.rs:69-116 | The loop body. It skips engine-to-GUI lines; `uci` queues the three-message handshake; `debug` sets the flag; `isready` enqueues a work item with the next handler, awaits it and queues `readyok`; `setoption` with a value inserts it; `quit` stops the loop; every other message is consumed. Its contract states that the loop keeps running unless the line is `quit` from the GUI. |
| `UciLoop.Consume` | src/uci.rs:68-117 | The `while let Ok(Some(..))` loop: it routes lines in turn until `quit`, a read error or the end of input. Its contract states that a loop that has stopped never restarts. |
| `UciLoop.Run` | src/uci.rs:66-118 | The spawned reader task: `Consume`, after which the loop has ended. |
| `UciLoop.ConsumeOnlyAppends` | src/uci.rs:68-117 | The loop only appends. What the writer was given, what went to the work queue and what was logged stay at the front, unchanged. |
| `UciLoop.EngineToGuiSkipped` | src/uci.rs:70-72 | A message tagged engine-to-GUI leaves the state exactly as it was: no output, no work, no settings change, and the loop keeps running. |
| `UciLoop.HandshakeStep` | src/uci.rs:74-78 | `uci` appends exactly `id name Hyōga`, `id author MythicalEngineer`, `uciok`, in that order, whatever the prior state. Settings, work queue and running flag are unchanged. |
| `UciLoop.DebugStep` | src/uci.rs:79-83 | `debug b` sets the flag to `b`. Everything else, including the options and both queues, stays. |
| `UciLoop.SetOptionStep` | src/uci.rs:98-104 | `setoption name n value v` makes `n` map to `v`, keeps every other option and the debug flag, and grows the map only when `n` is new. No other field changes. |
| `UciLoop.SetOptionWithoutValue` | src/uci.rs:98-104 | `setoption` without a value changes nothing. |
| `UciLoop.IsReadyStep` | src/uci.rs:84-92 | `isready` appends one `isready` work item that carries a present handler, numbered after all earlier ones. The log gains the enqueue, then the await on that handler, then one `readyok`, and the output gains exactly `readyok`. Settings and running flag stay. |
| `UciLoop.QuitStep` | src/uci.rs:108 | `quit` ends the loop and changes nothing else. |
| `UciLoop.IgnoredMessages` | src/uci.rs:93-114 | `position`, `ucinewgame`, `stop`, `ponderhit`, `go`, unparseable lines and every other message leave the state unchanged. |
| `UciLoop.StepReply` | src/uci.rs:73-116 | One step adds to the output exactly the reply batch that the reference `Reply` gives for the line. The loop keeps running unless the line is `quit`. |
| `UciLoop.StepInvariant` | src/uci.rs:84-92 | A step keeps two facts. Every `readyok` directly follows the await on a handler, which directly follows the enqueue of the `isready` item carrying that handler. The n-th work item carries the n-th handler. |
| `UciLoop.StepRecorded` | src/uci.rs:84-116 | A step keeps the log in agreement with the output and the work queue. |
| `UciLoop.StoppedIgnoresInput` | src/uci.rs:68 | Once the loop has stopped, no further input changes the state. |
| `UciLoop.ConsumeAppend` | src/uci.rs:68-117 | Reading input in two stretches gives the same state as reading it in one. |
| `UciLoop.StopEndsRun` | src/uci.rs:68-108 | After `quit` or a read error, whatever input follows is never routed. The run ends in the same state, and the loop has stopped. |
| `UciLoop.SettledKeepsRunning` | src/uci.rs:68-117 | Input without `quit` or a read error, including unparseable lines, leaves the loop running. |
| `UciLoop.DebugLastWins` | src/uci.rs:79-83 | Over input that does not stop the loop, the debug flag ends up as the last value a `debug` line sent, or stays as it was if there was none. Option lines in between do not matter. |
| `UciLoop.OptionLastWriteWins` | src/uci.rs:98-104 | Over input that does not stop the loop, each option ends up with the last value a `setoption` line gave it (last write wins), or stays as it was. |
| `UciLoop.OutputIsReplies` | src/uci.rs:73-116 | Over input that does not stop the loop, the writer receives exactly the reply batches of the lines, each batch whole, in arrival order, after what it already had. |
| `UciLoop.ConsumeInvariant` | src/uci.rs:66-118 | The loop keeps the readiness-ordering and handler-numbering invariant and the log's agreement with the queues, over any input. |
| `UciLoop.RunFromStart` | src/uci.rs:60-118 | Every run from a fresh service keeps the invariant and the log's agreement. No two work items share a handler. |
| `Service.UciService.constructor` | src/uci.rs:60-64 | The service starts with a fresh, empty writer, an empty work queue, the given settings and a running loop. The invariant holds. |
| `Service.UciService.Step` | src/uci.rs:69-116 | The loop body changes its fields exactly as `UciLoop.Step` says, keeps the invariant, and never touches what the writer has printed. |
| `Service.UciService.SendReadyCheck` | src/uci.rs:84-90 | The `isready` hand-off appends one work item with the next handler. It logs the enqueue and then the await. |
| `Service.UciService.Respond` | src/uci.rs:116 | The reply batch is handed to the writer whole and in order, and logged as sent. |
| `Service.UciService.Run` | src/uci.rs:66-118 | The reader task's loop changes the fields exactly as `UciLoop.Run` says: it stops at `quit`, at a read error or at the end of input. The invariant is kept. |

## Left out

- The tokio runtime, `tokio::spawn`, reading lines from standard input and the `println!` formatting of the drain task (including its extra blank line): these are I/O plumbing. Input is a sequence of already-read lines. The drain task's writes are the `printed` sequence.
- Interleaving between the drain task and the reader task: `Drain` is a separate method that catches up on the queue. `Step` and `Run` leave `printed` alone.
- `RwLock`, `blocking_write` and `Arc` sharing: the settings are plain fields updated in place. As written, `blocking_write` is called from inside the spawned asynchronous reader task (src/uci.rs:39 through the call at :116, and directly at :80 and :100), and tokio documents that call as panicking in an asynchronous context. The model describes the routing the code intends and leaves that panic out: it does not capture the loss of the reader task at the first `uci`, `debug` or `setoption` with a value.
- The `vampirc_uci` parser and its `direction()`: this is a foreign crate. Each input line carries its parsed message and its direction tag. The payloads of `position` and `go`, the parse error kept with `Unknown`, and the other variants (folded into `Other`) are abstracted.
- The real semantics of the one-shot channel: the await is modelled as having returned, and its outcome is discarded. Nothing is said about liveness or an await that never resumes. Nothing in the repository reads `work_queue`: src/main.rs:16-18 keeps the service and spins, so in this program the sender half stays alive in the queue, is never fired or dropped, and the await at src/uci.rs:90 never returns. The model describes what happens once a consumer answers.
- Failures of `UnboundedSender::send` (a closed channel): the source ignores them with `let _`. The model treats every send as delivered.
- src/main.rs: startup wiring and a busy loop. There is no logic in it to model.
