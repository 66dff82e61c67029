/** The reader loop of `UciService::new` (src/uci.rs) as a function on an
    abstract service state, and what it guarantees. The class in
    uci_service.dfy runs the same loop on mutable fields and is proved equal
    to these functions. */
module UciLoop {
  import opened Wrappers
  import opened Settings
  import opened Messages

  /** The sending half of the one-shot channel created for a work item; the
      n-th channel the loop opens is `Handler(n)`. */
  datatype Handler = Handler(channel: nat)

  /** `IncomingMessage`: a message handed to the game logic, with the
      channel on which it may signal completion. */
  datatype WorkItem = WorkItem(message: UciMessage, handler: Option<Handler>)

  /** One effect of the reader task, as the other tasks can observe it:
      a message sent to the writer, a work item sent to the work queue, or
      the reader resuming after awaiting a handler's channel. */
  datatype Event = ToWriter(message: UciMessage) | Enqueued(item: WorkItem) | Awaited(handler: Handler)

  /** The state the loop reads and writes: the shared settings, everything
      handed to the writer, everything sent to the work queue, the ordered
      log of those effects, and whether the loop is still reading input. */
  datatype ServiceState = ServiceState(
    settings: EngineSettings,
    out: seq<UciMessage>,
    work: seq<WorkItem>,
    log: seq<Event>,
    running: bool)

  /** The log entries for handing a batch to `queue_message_many`: one send
      per message, in the batch's order. */
  function SentAll(batch: seq<UciMessage>): (events: seq<Event>)
  {
    seq(|batch|, i requires 0 <= i < |batch| => ToWriter(batch[i]))
  }

  /** The handshake reply: identification by name, by author, then `uciok`. */
  const Handshake: seq<UciMessage> := [IdName(ENGINE_NAME), IdAuthor(ENGINE_AUTHOR), UciOk]

  /** One pass of the loop body for a parsed line. Wrong-direction messages
      are skipped; `uci` queues the handshake reply; `debug` sets the flag;
      `isready` enqueues a work item with a fresh handler, awaits it (the
      outcome is discarded) and queues `readyok`; `setoption` with a value
      inserts it; `quit` leaves the loop; everything else is consumed. */
  function Step(s: ServiceState, message: UciMessage, direction: Direction): (t: ServiceState)
    ensures t.running == (s.running && (direction == EngineToGui || !message.Quit?))
  {
    if direction == EngineToGui then s
    else match message
      case Uci => s.(out := s.out + Handshake, log := s.log + SentAll(Handshake))
      case Debug(on) => s.(settings := s.settings.(debug := on))
      case IsReady =>
        var h := Handler(|s.work|);
        var item := WorkItem(IsReady, Some(h));
        s.(work := s.work + [item], out := s.out + [ReadyOk],
           log := s.log + [Enqueued(item), Awaited(h)] + SentAll([ReadyOk]))
      case SetOption(name, value) =>
        if value.Some? then s.(settings := InsertOption(s.settings, name, value.value)) else s
      case Quit => s.(running := false)
      case _ => s
  }

  /** The loop over the input read so far: it stops at `quit` or at a read
      error and otherwise routes each line in turn. */
  function Consume(s: ServiceState, input: seq<Input>): (t: ServiceState)
    ensures t.running ==> s.running
    decreases |input|
  {
    if !s.running || input == [] then s
    else match input[0]
      case ReadError => s.(running := false)
      case Line(message, direction) => Consume(Step(s, message, direction), input[1..])
  }

  /** The whole reader task: the loop, after which the task has ended
      (by `quit`, a read error, or the end of the input). */
  function Run(s: ServiceState, input: seq<Input>): (t: ServiceState)
    ensures !t.running
  {
    Consume(s, input).(running := false)
  }

  // ---------------------------------------------------------------------
  // Reference definitions

  /** The reply batch a line calls for, independently of how it is queued. */
  function Reply(message: UciMessage, direction: Direction): (batch: seq<UciMessage>)
  {
    match (message, direction)
    case (Uci, GuiToEngine) => [Id(Some("Hyōga"), None), Id(None, Some("MythicalEngineer")), UciOk]
    case (IsReady, GuiToEngine) => [ReadyOk]
    case _ => []
  }

  /** A line after which the loop reads nothing more. */
  predicate Stops(x: Input)
  {
    x.ReadError? || x == Line(Quit, GuiToEngine)
  }

  /** Input in which nothing stops the loop. */
  predicate Settled(input: seq<Input>)
  {
    forall i :: 0 <= i < |input| ==> !Stops(input[i])
  }

  /** The replies to a stretch of input, batch after batch in arrival order. */
  function Replies(input: seq<Input>): (out: seq<UciMessage>)
    decreases |input|
  {
    if input == [] then []
    else
      (match input[0] case Line(m, d) => Reply(m, d) case ReadError => []) + Replies(input[1..])
  }

  /** The debug flag after a stretch of input: the last value a `debug`
      line carried, or `current` if there was none. */
  function LastDebug(input: seq<Input>, current: bool): (on: bool)
    decreases |input|
  {
    if input == [] then current
    else
      var next := match input[0] case Line(Debug(on), GuiToEngine) => on case _ => current;
      LastDebug(input[1..], next)
  }

  /** The value of option `name` after a stretch of input: the last value a
      `setoption name ... value ...` line gave it, or `current` if none did. */
  function LastOption(input: seq<Input>, name: string, current: Option<string>): (value: Option<string>)
    decreases |input|
  {
    if input == [] then current
    else
      var next := match input[0]
        case Line(SetOption(n, Some(v)), GuiToEngine) => if n == name then Some(v) else current
        case _ => current;
      LastOption(input[1..], name, next)
  }

  /** The messages sent to the writer, read off the log. */
  function Outbound(log: seq<Event>): (out: seq<UciMessage>)
    decreases |log|
  {
    if log == [] then []
    else (if log[0].ToWriter? then [log[0].message] else []) + Outbound(log[1..])
  }

  /** The work items sent to the work queue, read off the log. */
  function Work(log: seq<Event>): (work: seq<WorkItem>)
    decreases |log|
  {
    if log == [] then []
    else (if log[0].Enqueued? then [log[0].item] else []) + Work(log[1..])
  }

  /** Every `readyok` in the log directly follows the await on a handler,
      which directly follows the enqueueing of the `isready` item carrying
      that handler. */
  ghost predicate AwaitsBeforeReady(log: seq<Event>)
  {
    forall j :: 0 <= j < |log| && log[j] == ToWriter(ReadyOk) ==>
      2 <= j && log[j - 1].Awaited? && log[j - 2] == Enqueued(WorkItem(IsReady, Some(log[j - 1].handler)))
  }

  /** The n-th work item is an `isready` carrying the n-th handler. */
  ghost predicate WorkNumbered(work: seq<WorkItem>)
  {
    forall i :: 0 <= i < |work| ==> work[i] == WorkItem(IsReady, Some(Handler(i)))
  }

  /** The invariant the loop keeps. */
  ghost predicate Invariant(s: ServiceState)
  {
    AwaitsBeforeReady(s.log) && WorkNumbered(s.work)
  }

  /** The log agrees with both queues. */
  ghost predicate Recorded(s: ServiceState)
  {
    Outbound(s.log) == s.out && Work(s.log) == s.work
  }

  // ---------------------------------------------------------------------
  // The log

  lemma {:induction false} OutboundAppend(a: seq<Event>, b: seq<Event>)
    ensures Outbound(a + b) == Outbound(a) + Outbound(b)
    decreases |a|
  {
    if a == [] {
      assert a + b == b;
    } else {
      assert (a + b)[0] == a[0];
      assert (a + b)[1..] == a[1..] + b;
      OutboundAppend(a[1..], b);
    }
  }

  lemma {:induction false} WorkAppend(a: seq<Event>, b: seq<Event>)
    ensures Work(a + b) == Work(a) + Work(b)
    decreases |a|
  {
    if a == [] {
      assert a + b == b;
    } else {
      assert (a + b)[0] == a[0];
      assert (a + b)[1..] == a[1..] + b;
      WorkAppend(a[1..], b);
    }
  }

  /** Appending a log to a log appends what each records. */
  lemma LogAppend(a: seq<Event>, b: seq<Event>)
    ensures Outbound(a + b) == Outbound(a) + Outbound(b)
    ensures Work(a + b) == Work(a) + Work(b)
  {
    OutboundAppend(a, b);
    WorkAppend(a, b);
  }

  /** Logging a batch records exactly that batch as sent, and no work. */
  lemma {:induction false} SentAllRecords(batch: seq<UciMessage>)
    ensures Outbound(SentAll(batch)) == batch
    ensures Work(SentAll(batch)) == []
    decreases |batch|
  {
    if batch != [] {
      assert SentAll(batch)[1..] == SentAll(batch[1..]);
      SentAllRecords(batch[1..]);
    }
  }

  /** The handshake keeps the log in agreement with the queues. */
  lemma HandshakeRecorded(s: ServiceState)
    requires Recorded(s)
    ensures Recorded(Step(s, Uci, GuiToEngine))
  {
    LogAppend(s.log, SentAll(Handshake));
    SentAllRecords(Handshake);
  }

  /** What the three events of a readiness check record. */
  lemma ReadyCheckEvents(h: Handler)
    ensures Outbound([Enqueued(WorkItem(IsReady, Some(h))), Awaited(h), ToWriter(ReadyOk)]) == [ReadyOk]
    ensures Work([Enqueued(WorkItem(IsReady, Some(h))), Awaited(h), ToWriter(ReadyOk)]) == [WorkItem(IsReady, Some(h))]
  {
    var last := [ToWriter(ReadyOk)];
    assert last[1..] == [];
    assert Outbound(last) == [ReadyOk] && Work(last) == [];
    var tail := [Awaited(h)] + last;
    assert tail[1..] == last;
    assert Outbound(tail) == [ReadyOk] && Work(tail) == [];
    var events := [Enqueued(WorkItem(IsReady, Some(h)))] + tail;
    assert events[1..] == tail;
    assert events == [Enqueued(WorkItem(IsReady, Some(h))), Awaited(h), ToWriter(ReadyOk)];
  }

  /** The readiness check keeps the log in agreement with the queues. */
  lemma IsReadyRecorded(s: ServiceState)
    requires Recorded(s)
    ensures Recorded(Step(s, IsReady, GuiToEngine))
  {
    var h := Handler(|s.work|);
    IsReadyStep(s);
    ReadyCheckEvents(h);
    LogAppend(s.log, [Enqueued(WorkItem(IsReady, Some(h))), Awaited(h), ToWriter(ReadyOk)]);
  }

  /** A step keeps the log in agreement with the queues. */
  lemma StepRecorded(s: ServiceState, message: UciMessage, direction: Direction)
    requires Recorded(s)
    ensures Recorded(Step(s, message, direction))
  {
    if direction == GuiToEngine && message == Uci {
      HandshakeRecorded(s);
    } else if direction == GuiToEngine && message == IsReady {
      IsReadyRecorded(s);
    } else {
      assert Step(s, message, direction).log == s.log;
    }
  }

  // ---------------------------------------------------------------------
  // One step

  /** Messages flowing the wrong way are skipped: nothing is queued, the
      settings stay, and the loop keeps reading. */
  lemma EngineToGuiSkipped(s: ServiceState, message: UciMessage)
    ensures Step(s, message, EngineToGui) == s
  {
  }

  /** `uci` queues exactly the three identification messages, in order,
      whatever the prior state, and changes nothing else. */
  lemma HandshakeStep(s: ServiceState)
    ensures Step(s, Uci, GuiToEngine).out
         == s.out + [Id(Some("Hyōga"), None), Id(None, Some("MythicalEngineer")), UciOk]
    ensures Step(s, Uci, GuiToEngine).settings == s.settings
    ensures Step(s, Uci, GuiToEngine).work == s.work
    ensures Step(s, Uci, GuiToEngine).running == s.running
  {
  }

  /** `debug on|off` sets the flag and nothing else. */
  lemma DebugStep(s: ServiceState, on: bool)
    ensures Step(s, Debug(on), GuiToEngine) == s.(settings := s.settings.(debug := on))
  {
  }

  /** `setoption` with a value stores it under its name (replacing an older
      value), leaves every other option and the debug flag alone, grows the
      map only for a new name, and queues nothing. */
  lemma SetOptionStep(s: ServiceState, name: string, value: string)
    ensures GetOption(Step(s, SetOption(name, Some(value)), GuiToEngine).settings, name) == Some(value)
    ensures forall other :: other != name ==>
      GetOption(Step(s, SetOption(name, Some(value)), GuiToEngine).settings, other) == GetOption(s.settings, other)
    ensures Step(s, SetOption(name, Some(value)), GuiToEngine).settings.debug == s.settings.debug
    ensures |Step(s, SetOption(name, Some(value)), GuiToEngine).settings.options|
         == if name in s.settings.options then |s.settings.options| else |s.settings.options| + 1
    ensures Step(s, SetOption(name, Some(value)), GuiToEngine).(settings := s.settings) == s
  {
  }

  /** `setoption` without a value changes nothing. */
  lemma SetOptionWithoutValue(s: ServiceState, name: string)
    ensures Step(s, SetOption(name, None), GuiToEngine) == s
  {
  }

  /** `isready` enqueues one `isready` work item with a present, fresh
      handler, resumes after awaiting that handler, and only then queues a
      single `readyok`; the settings and the running flag stay. */
  lemma IsReadyStep(s: ServiceState)
    ensures Step(s, IsReady, GuiToEngine).work == s.work + [WorkItem(IsReady, Some(Handler(|s.work|)))]
    ensures Step(s, IsReady, GuiToEngine).out == s.out + [ReadyOk]
    ensures Step(s, IsReady, GuiToEngine).log
         == s.log + [Enqueued(WorkItem(IsReady, Some(Handler(|s.work|)))),
                     Awaited(Handler(|s.work|)), ToWriter(ReadyOk)]
    ensures Step(s, IsReady, GuiToEngine).settings == s.settings
    ensures Step(s, IsReady, GuiToEngine).running == s.running
  {
    assert SentAll([ReadyOk]) == [ToWriter(ReadyOk)];
  }

  /** `quit` ends the loop and changes nothing else. */
  lemma QuitStep(s: ServiceState)
    ensures Step(s, Quit, GuiToEngine) == s.(running := false)
  {
  }

  /** Whether the loop acts on a message beyond consuming it. */
  predicate Routed(message: UciMessage)
  {
    message.Uci? || message.Debug? || message.IsReady? || message.SetOption? || message.Quit?
  }

  /** `position`, `ucinewgame`, `stop`, `ponderhit`, `go`, unparseable lines
      and every other message are consumed without any effect. */
  lemma IgnoredMessages(s: ServiceState, message: UciMessage, direction: Direction)
    requires !Routed(message)
    ensures Step(s, message, direction) == s
  {
  }

  /** What one step hands the writer, and whether the loop goes on. */
  lemma StepReply(s: ServiceState, message: UciMessage, direction: Direction)
    ensures Step(s, message, direction).out == s.out + Reply(message, direction)
    ensures Step(s, message, direction).running
         == (s.running && !(message == Quit && direction == GuiToEngine))
  {
  }

  /** Appending events that hold no `readyok` keeps every earlier
      `readyok` behind its await. */
  lemma AppendWithoutReady(log: seq<Event>, tail: seq<Event>)
    requires AwaitsBeforeReady(log)
    requires forall k :: 0 <= k < |tail| ==> tail[k] != ToWriter(ReadyOk)
    ensures AwaitsBeforeReady(log + tail)
  {
    var t := log + tail;
    forall j | 0 <= j < |t| && t[j] == ToWriter(ReadyOk)
      ensures 2 <= j && t[j - 1].Awaited? && t[j - 2] == Enqueued(WorkItem(IsReady, Some(t[j - 1].handler)))
    {
      if j < |log| {
        assert t[j] == log[j] && t[j - 1] == log[j - 1] && t[j - 2] == log[j - 2];
      }
    }
  }

  /** The readiness check keeps every `readyok` behind its await. */
  lemma IsReadyAwaits(s: ServiceState)
    requires AwaitsBeforeReady(s.log)
    ensures AwaitsBeforeReady(Step(s, IsReady, GuiToEngine).log)
  {
    var h := Handler(|s.work|);
    var pending := [Enqueued(WorkItem(IsReady, Some(h))), Awaited(h)];
    IsReadyStep(s);
    var u := s.log + pending;
    var t := Step(s, IsReady, GuiToEngine).log;
    assert t == u + [ToWriter(ReadyOk)];
    AppendWithoutReady(s.log, pending);
    forall j | 0 <= j < |t| && t[j] == ToWriter(ReadyOk)
      ensures 2 <= j && t[j - 1].Awaited? && t[j - 2] == Enqueued(WorkItem(IsReady, Some(t[j - 1].handler)))
    {
      if j < |u| {
        assert t[j] == u[j] && t[j - 1] == u[j - 1] && t[j - 2] == u[j - 2];
      }
    }
  }

  /** The handshake keeps every `readyok` behind its await. */
  lemma HandshakeAwaits(s: ServiceState)
    requires AwaitsBeforeReady(s.log)
    ensures AwaitsBeforeReady(Step(s, Uci, GuiToEngine).log)
  {
    AppendWithoutReady(s.log, SentAll(Handshake));
  }

  /** A step keeps the invariant: readiness replies stay behind their
      awaits, and a new work item takes the next handler. */
  lemma StepInvariant(s: ServiceState, message: UciMessage, direction: Direction)
    requires Invariant(s)
    ensures Invariant(Step(s, message, direction))
  {
    if direction == GuiToEngine && message == Uci {
      HandshakeAwaits(s);
    } else if direction == GuiToEngine && message == IsReady {
      IsReadyAwaits(s);
    } else {
      assert Step(s, message, direction).log == s.log;
    }
  }

  // ---------------------------------------------------------------------
  // The loop

  /** Once the loop has stopped, no further input has any effect. */
  lemma StoppedIgnoresInput(s: ServiceState, input: seq<Input>)
    requires !s.running
    ensures Consume(s, input) == s
  {
  }

  /** Reading input in two stretches is reading it in one. */
  lemma {:induction false} ConsumeAppend(s: ServiceState, a: seq<Input>, b: seq<Input>)
    ensures Consume(s, a + b) == Consume(Consume(s, a), b)
    decreases |a|
  {
    if !s.running {
    } else if a == [] {
      assert a + b == b;
    } else {
      assert (a + b)[0] == a[0];
      assert (a + b)[1..] == a[1..] + b;
      match a[0]
      case ReadError =>
      case Line(message, direction) =>
        ConsumeAppend(Step(s, message, direction), a[1..], b);
    }
  }

  /** After `quit` or a read error, the lines that follow are never routed:
      the run ends in the same state whatever comes after. */
  lemma StopEndsRun(s: ServiceState, before: seq<Input>, stop: Input, after: seq<Input>)
    requires Stops(stop)
    ensures Run(s, before + [stop] + after) == Run(s, before + [stop])
    ensures !Consume(s, before + [stop]).running
  {
    ConsumeAppend(s, before, [stop]);
    ConsumeAppend(s, before + [stop], after);
    var t := Consume(s, before);
    if t.running {
      match stop
      case ReadError =>
      case Line(message, direction) =>
        assert Step(t, message, direction).running == false;
    }
  }

  lemma SettledTail(input: seq<Input>)
    requires input != [] && Settled(input)
    ensures !Stops(input[0]) && Settled(input[1..])
  {
    forall i | 0 <= i < |input[1..]| ensures !Stops(input[1..][i]) {
      assert input[1..][i] == input[i + 1];
    }
  }

  /** Input in which nothing stops the loop leaves it running: unparseable
      or ignored lines never halt it. */
  lemma {:induction false} SettledKeepsRunning(s: ServiceState, input: seq<Input>)
    requires s.running && Settled(input)
    ensures Consume(s, input).running
    decreases |input|
  {
    if input != [] {
      SettledTail(input);
      var message, direction := input[0].message, input[0].direction;
      StepReply(s, message, direction);
      SettledKeepsRunning(Step(s, message, direction), input[1..]);
    }
  }

  /** After any stretch of input that does not stop the loop, the debug flag
      holds the last value sent, whatever option lines came in between. */
  lemma {:induction false} DebugLastWins(s: ServiceState, input: seq<Input>)
    requires s.running && Settled(input)
    ensures Consume(s, input).settings.debug == LastDebug(input, s.settings.debug)
    decreases |input|
  {
    if input != [] {
      SettledTail(input);
      var message, direction := input[0].message, input[0].direction;
      var t := Step(s, message, direction);
      StepReply(s, message, direction);
      assert t.settings.debug == match input[0] case Line(Debug(on), GuiToEngine) => on case _ => s.settings.debug;
      DebugLastWins(t, input[1..]);
    }
  }

  /** After any stretch of input that does not stop the loop, each option
      holds the last value set for it (last write wins). */
  lemma {:induction false} OptionLastWriteWins(s: ServiceState, input: seq<Input>, name: string)
    requires s.running && Settled(input)
    ensures GetOption(Consume(s, input).settings, name) == LastOption(input, name, GetOption(s.settings, name))
    decreases |input|
  {
    if input != [] {
      SettledTail(input);
      var message, direction := input[0].message, input[0].direction;
      var t := Step(s, message, direction);
      StepReply(s, message, direction);
      assert GetOption(t.settings, name) == match input[0]
        case Line(SetOption(n, Some(v)), GuiToEngine) => if n == name then Some(v) else GetOption(s.settings, name)
        case _ => GetOption(s.settings, name);
      OptionLastWriteWins(t, input[1..], name);
    }
  }

  /** Over any stretch of input that does not stop the loop, the writer
      receives exactly the replies the lines call for, each batch whole and
      in arrival order, after what it had before. */
  lemma {:induction false} OutputIsReplies(s: ServiceState, input: seq<Input>)
    requires s.running && Settled(input)
    ensures Consume(s, input).out == s.out + Replies(input)
    decreases |input|
  {
    if input != [] {
      SettledTail(input);
      var message, direction := input[0].message, input[0].direction;
      var t := Step(s, message, direction);
      StepReply(s, message, direction);
      assert Replies(input) == Reply(message, direction) + Replies(input[1..]);
      OutputIsReplies(t, input[1..]);
    }
  }

  /** The loop only appends: what was handed to the writer, sent to the work
      queue or logged stays as it was, at the front. */
  lemma {:induction false} ConsumeOnlyAppends(s: ServiceState, input: seq<Input>)
    ensures s.out <= Consume(s, input).out
    ensures s.work <= Consume(s, input).work
    ensures s.log <= Consume(s, input).log
    decreases |input|
  {
    if s.running && input != [] {
      match input[0]
      case ReadError =>
      case Line(message, direction) =>
        ConsumeOnlyAppends(Step(s, message, direction), input[1..]);
    }
  }

  /** The loop keeps its invariant and its log over any input. */
  lemma {:induction false} ConsumeInvariant(s: ServiceState, input: seq<Input>)
    requires Invariant(s) && Recorded(s)
    ensures Invariant(Consume(s, input)) && Recorded(Consume(s, input))
    decreases |input|
  {
    if s.running && input != [] {
      match input[0]
      case ReadError =>
      case Line(message, direction) =>
        StepInvariant(s, message, direction);
        StepRecorded(s, message, direction);
        ConsumeInvariant(Step(s, message, direction), input[1..]);
    }
  }

  /** Every run from a fresh service keeps the invariant and its log, so
      each `readyok` follows the await for its own `isready` item and no two
      work items share a handler. */
  lemma RunFromStart(settings: EngineSettings, input: seq<Input>)
    ensures Invariant(Run(ServiceState(settings, [], [], [], true), input))
    ensures Recorded(Run(ServiceState(settings, [], [], [], true), input))
    ensures forall i, j :: 0 <= i < j < |Run(ServiceState(settings, [], [], [], true), input).work| ==>
      Run(ServiceState(settings, [], [], [], true), input).work[i].handler
        != Run(ServiceState(settings, [], [], [], true), input).work[j].handler
  {
    ConsumeInvariant(ServiceState(settings, [], [], [], true), input);
  }
}
