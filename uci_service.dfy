/** `UciService` (src/uci.rs): the reader task's state as mutable fields and
    its loop as methods, each proved equal to the functions of UciLoop. */
module Service {
  import opened Wrappers
  import opened Settings
  import opened Messages
  import opened Writer
  import opened UciLoop

  class UciService {
    /** The shared settings, written in place by `debug` and `setoption`. */
    var debug: bool
    var options: map<string, string>
    /** The work queue's contents, oldest first. */
    var workQueue: seq<WorkItem>
    /** Whether the reader loop is still reading input. */
    var running: bool
    /** The writer that owns the print queue. */
    const writer: UciWriter
    /** The reader task's effects so far, in the order they happened. */
    ghost var log: seq<Event>

    /** The abstract state the loop functions describe; what the writer has
        been given is what it has printed followed by what it still holds. */
    ghost function State(): (s: ServiceState)
      reads this, writer
    {
      ServiceState(EngineSettings(debug, options), writer.Sent(), workQueue, log, running)
    }

    /** The loop's invariant on the fields. */
    ghost predicate Valid()
      reads this, writer
    {
      Invariant(State()) && Recorded(State())
    }

    /** `UciService::new` up to the spawn of the reader task: a fresh writer
        with an empty print queue, an empty work queue, the given settings. */
    constructor (settings: EngineSettings)
      ensures Valid() && fresh(writer)
      ensures State() == ServiceState(settings, [], [], [], true)
      ensures writer.queue == [] && writer.printed == []
    {
      debug := settings.debug;
      options := settings.options;
      workQueue := [];
      running := true;
      log := [];
      writer := new UciWriter();
    }

    /** One pass of the loop body for a parsed line. */
    method Step(message: UciMessage, direction: Direction)
      requires Valid() && running
      modifies this, writer
      ensures Valid()
      ensures State() == UciLoop.Step(old(State()), message, direction)
      ensures writer.printed == old(writer.printed)
    {
      ghost var s0 := State();
      StepInvariant(s0, message, direction);
      StepRecorded(s0, message, direction);
      if direction == EngineToGui {
        return;
      }
      match message {
        case Uci =>
          Respond(Handshake);
          assert State() == UciLoop.Step(s0, message, direction);
        case Debug(on) =>
          debug := on;
          assert State() == UciLoop.Step(s0, message, direction);
        case IsReady =>
          SendReadyCheck();
          Respond([ReadyOk]);
          assert State() == UciLoop.Step(s0, message, direction);
        case SetOption(name, value) =>
          if value.Some? {
            options := options[name := value.value];
          }
          assert State() == UciLoop.Step(s0, message, direction);
        case Quit =>
          running := false;
        case _ =>
      }
    }

    /** The `isready` hand-off: a work item carrying the sending half of a
        fresh one-shot channel goes to the work queue, then the loop awaits
        the receiving half; fired or dropped, the outcome is discarded. */
    method SendReadyCheck()
      modifies this`workQueue, this`log
      ensures workQueue == old(workQueue) + [WorkItem(IsReady, Some(Handler(|old(workQueue)|)))]
      ensures log == old(log)
                  + [Enqueued(WorkItem(IsReady, Some(Handler(|old(workQueue)|)))),
                     Awaited(Handler(|old(workQueue)|))]
    {
      var tx := Handler(|workQueue|);
      workQueue := workQueue + [WorkItem(IsReady, Some(tx))];
      log := log + [Enqueued(WorkItem(IsReady, Some(tx)))];
      log := log + [Awaited(tx)];
    }

    /** `queue_message_many(responses)` at the end of the loop body: the
        batch goes to the writer whole and in order, and into the log. */
    method Respond(responses: seq<UciMessage>)
      modifies this`log, writer
      ensures writer.Sent() == old(writer.Sent()) + responses
      ensures writer.printed == old(writer.printed)
      ensures log == old(log) + SentAll(responses)
    {
      writer.QueueMany(responses);
      log := log + SentAll(responses);
    }

    /** The reader task: route lines until `quit`, a read error or the end
        of the input, then stop. */
    method Run(input: seq<Input>)
      requires Valid()
      modifies this, writer
      ensures Valid()
      ensures State() == UciLoop.Run(old(State()), input)
      ensures writer.printed == old(writer.printed)
    {
      var i := 0;
      while running && i < |input|
        invariant 0 <= i <= |input|
        invariant Valid()
        invariant Consume(State(), input[i..]) == Consume(old(State()), input)
        invariant writer.printed == old(writer.printed)
      {
        match input[i] {
          case ReadError =>
            running := false;
          case Line(message, direction) =>
            Step(message, direction);
        }
        i := i + 1;
      }
      running := false;
    }
  }
}
