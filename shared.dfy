/**
 * The state the control surface and the orchestrator share: the bot registry
 * (`Arc<Mutex<Vec<BotEntry>>>`), the run-state cell
 * (`Arc<Mutex<OrchestratorState>>`) and the `mpsc` channels that carry
 * commands and log lines. Locking is not modelled: each object is a plain
 * heap cell that one method at a time updates.
 */
module Shared {
  import opened Wrappers
  import opened Types

  /** The shared list of bot entries. */
  class Registry {
    var entries: seq<BotEntry>

    constructor(es: seq<BotEntry>)
      ensures entries == es
    {
      entries := es;
    }
  }

  /** The shared run-state cell. */
  class StateCell {
    var state: RunState

    constructor(s: RunState)
      ensures state == s
    {
      state := s;
    }
  }

  /** An unbounded FIFO channel; `pending` holds what was sent and not yet received. */
  class Channel<T> {
    var pending: seq<T>

    constructor()
      ensures pending == []
    {
      pending := [];
    }

    /** `send`: the message joins the back of the queue. */
    method Send(m: T)
      modifies this
      ensures pending == old(pending) + [m]
    {
      pending := pending + [m];
    }

    /** `try_recv`: the front message, or nothing when the queue is empty. */
    method TryRecv() returns (m: Option<T>)
      modifies this
      ensures old(pending) == [] ==> m == None && pending == []
      ensures old(pending) != [] ==> m == Some(old(pending)[0]) && pending == old(pending)[1..]
    {
      if pending == [] {
        m := None;
      } else {
        m := Some(pending[0]);
        pending := pending[1..];
      }
    }
  }
}
