/** The writer side of the service (`UciWriter` in src/uci.rs): an unbounded
    print queue that callers append to and a drain task that writes it out. */
module Writer {
  import opened Messages

  class UciWriter {
    /** Messages sent into the print channel and not yet written. */
    var queue: seq<UciMessage>
    /** Messages the drain task has already written to standard output, in order. */
    var printed: seq<UciMessage>

    /** Everything ever submitted, in submission order. */
    ghost function Sent(): (s: seq<UciMessage>)
      reads this
    {
      printed + queue
    }

    /** `UciWriter::default()`: a fresh, empty channel. */
    constructor ()
      ensures queue == [] && printed == []
    {
      queue := [];
      printed := [];
    }

    /** `queue_message_one`: the message goes to the back of the queue. */
    method QueueOne(message: UciMessage)
      modifies this
      ensures queue == old(queue) + [message]
      ensures printed == old(printed)
      ensures Sent() == old(Sent()) + [message]
    {
      queue := queue + [message];
    }

    /** `queue_message_many`: the batch goes to the back of the queue, one
        message after another, in its own order. */
    method QueueMany(batch: seq<UciMessage>)
      modifies this
      ensures queue == old(queue) + batch
      ensures printed == old(printed)
      ensures Sent() == old(Sent()) + batch
    {
      for i := 0 to |batch|
        invariant queue == old(queue) + batch[..i]
        invariant printed == old(printed)
      {
        queue := queue + [batch[i]];
      }
    }

    /** The drain task catching up: it takes messages from the front of the
        queue and writes each one, until the queue is empty. */
    method Drain()
      modifies this
      ensures queue == []
      ensures printed == old(printed) + old(queue)
      ensures Sent() == old(Sent())
    {
      while queue != []
        invariant printed + queue == old(printed) + old(queue)
        decreases |queue|
      {
        printed := printed + [queue[0]];
        queue := queue[1..];
      }
    }
  }
}
