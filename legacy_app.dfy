/**
 * The earlier control surface's state (crates/finger-tui/src/app.rs): the
 * selected entry, the log panel's visibility and lines, and the actions the
 * keys trigger. Unlike the current surface it never changes the registry:
 * toggling only asks the orchestrator to do it.
 */
module LegacyApp {
  import opened Wrappers
  import opened Types
  import opened Shared

  /** The fields of `App` that its methods change. */
  datatype AppView = AppView(selected: nat, logVisible: bool, logMessages: seq<string>, shouldQuit: bool)

  class App {
    const state: Registry
    var selected: nat
    var logVisible: bool
    var logMessages: seq<string>
    const logRx: Channel<string>
    const cmdTx: Channel<Command>
    var shouldQuit: bool

    function View(): AppView
      reads this
    {
      AppView(selected, logVisible, logMessages, shouldQuit)
    }

    /** `new`: the first entry selected, the log shown and empty. */
    constructor(st: Registry, rx: Channel<string>, tx: Channel<Command>)
      ensures state == st && logRx == rx && cmdTx == tx
      ensures View() == AppView(0, true, [], false)
    {
      state := st;
      logRx := rx;
      cmdTx := tx;
      selected := 0;
      logVisible := true;
      logMessages := [];
      shouldQuit := false;
    }

    /** `drain_logs`: every pending line moves, in arrival order, to the end of the log. */
    method DrainLogs()
      modifies this, logRx
      ensures View() == old(View()).(logMessages := old(logMessages) + old(logRx.pending))
      ensures logRx.pending == []
    {
      while true
        invariant logMessages + logRx.pending == old(logMessages) + old(logRx.pending)
        invariant View() == old(View()).(logMessages := logMessages)
        decreases |logRx.pending|
      {
        ghost var before := logRx.pending;
        var msg := logRx.TryRecv();
        if msg.None? {
          break;
        }
        assert before == [msg.value] + logRx.pending;
        assert (logMessages + [msg.value]) + logRx.pending == logMessages + before;
        logMessages := logMessages + [msg.value];
      }
      assert logMessages + [] == logMessages;
    }

    /** `move_up`: the previous entry, never below the first. */
    method MoveUp()
      modifies this
      ensures View() == old(View()).(selected := if old(selected) > 0 then old(selected) - 1 else 0)
    {
      if selected > 0 {
        selected := selected - 1;
      }
    }

    /** `move_down`: the next entry, never past the last. */
    method MoveDown()
      modifies this
      ensures View() == old(View()).(selected := if old(selected) + 1 < |state.entries| then old(selected) + 1 else old(selected))
      ensures old(selected) + 1 <= |state.entries| ==> selected + 1 <= |state.entries|
    {
      var len := |state.entries|;
      if selected + 1 < len {
        selected := selected + 1;
      }
    }

    /** `toggle_selected`: only sends `Toggle` for the selected entry. */
    method ToggleSelected()
      modifies cmdTx
      ensures cmdTx.pending == old(cmdTx.pending) + [Toggle(selected)]
    {
      cmdTx.Send(Toggle(selected));
    }

    /** `toggle_log`: shows or hides the log panel. */
    method ToggleLog()
      modifies this
      ensures View() == old(View()).(logVisible := !old(logVisible))
    {
      logVisible := !logVisible;
    }

    /** `quit`: sends `Quit` and marks the surface for exit. */
    method Quit()
      modifies this, cmdTx
      ensures View() == old(View()).(shouldQuit := true)
      ensures cmdTx.pending == old(cmdTx.pending) + [Command.Quit]
    {
      cmdTx.Send(Command.Quit);
      shouldQuit := true;
    }
  }
}
