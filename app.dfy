/**
 * The control surface's state (crates/tui/src/app.rs): which bot entry is
 * selected, the log panel's visibility, lines and scroll offset, and the
 * actions the keys trigger — each one a change of these fields, of the shared
 * bot registry or run-state cell, or a command sent to the orchestrator.
 */
module App {
  import opened Wrappers
  import opened Types
  import opened Shared

  /** The largest `usize`. */
  const UsizeMax: nat := 0xFFFF_FFFF_FFFF_FFFF

  /** `usize::saturating_add` */
  function SatAdd(a: nat, b: nat): nat {
    if a + b <= UsizeMax then a + b else UsizeMax
  }

  /** `usize::saturating_sub` */
  function SatSub(a: nat, b: nat): nat {
    if a >= b then a - b else 0
  }

  /** Scrolling back `n` lines and forward `n` lines returns to the same offset, short of saturation. */
  lemma {:induction false} ScrollRoundTrip(s: nat, n: nat)
    requires s + n <= UsizeMax
    ensures SatSub(SatAdd(s, n), n) == s
    ensures SatAdd(SatSub(s, n), n) >= s
  {
  }

  /** The names of the enabled entries, in entry order: what `toggle_selected` saves. */
  function EnabledNames(entries: seq<BotEntry>): (names: seq<string>)
    ensures |names| <= |entries|
  {
    if entries == [] then []
    else
      var e := entries[|entries| - 1];
      EnabledNames(entries[..|entries| - 1]) + (if e.enabled then [e.name] else [])
  }

  /** A name is saved exactly when some enabled entry has it. */
  lemma {:induction false} EnabledNamesMembers(entries: seq<BotEntry>, name: string)
    ensures name in EnabledNames(entries) <==> exists i :: 0 <= i < |entries| && entries[i].enabled && entries[i].name == name
  {
    if entries != [] {
      var init := entries[..|entries| - 1];
      EnabledNamesMembers(init, name);
      if name in EnabledNames(init) {
        var i :| 0 <= i < |init| && init[i].enabled && init[i].name == name;
        assert entries[i] == init[i];
      }
      if exists i :: 0 <= i < |entries| && entries[i].enabled && entries[i].name == name {
        var i :| 0 <= i < |entries| && entries[i].enabled && entries[i].name == name;
        if i < |init| {
          assert init[i] == entries[i];
        }
      }
    }
  }

  /** The entries with the `enabled` flag of entry `i` flipped, when there is such an entry. */
  function Flipped(entries: seq<BotEntry>, i: nat): (es: seq<BotEntry>)
    ensures |es| == |entries|
    ensures forall k :: 0 <= k < |es| && k != i ==> es[k] == entries[k]
    ensures i < |entries| ==> es[i] == entries[i].(enabled := !entries[i].enabled)
  {
    if i < |entries| then entries[i := entries[i].(enabled := !entries[i].enabled)] else entries
  }

  /** Flipping the same entry twice restores the entries. */
  lemma {:induction false} FlippedTwice(entries: seq<BotEntry>, i: nat)
    ensures Flipped(Flipped(entries, i), i) == entries
  {
    var twice := Flipped(Flipped(entries, i), i);
    assert forall k :: 0 <= k < |entries| ==> twice[k] == entries[k];
  }

  /** What `start_stop` moves the run state to; nothing while a stop is in progress. */
  function StartStopNext(s: RunState): (next: Option<RunState>)
    ensures next.None? <==> s == Stopping
    ensures next.Some? ==> next.value != s && (next.value == Running <==> s == Stopped)
  {
    match s
    case Running => Some(Stopping)
    case Stopped => Some(Running)
    case Stopping => None
  }

  /** The fields of `App` that its methods change. */
  datatype AppView = AppView(
    selected: nat,
    logVisible: bool,
    logMessages: seq<string>,
    logScroll: nat,
    savedEnabled: Option<seq<string>>,
    shouldQuit: bool)

  class App {
    const state: Registry
    const orchState: StateCell
    var selected: nat
    var logVisible: bool
    var logMessages: seq<string>
    /** Offset of the log panel from the newest line (0 = newest). */
    var logScroll: nat
    const logRx: Channel<string>
    const cmdTx: Channel<Command>
    const settingsPath: Path
    /** The enabled bot names last saved to the settings file by this surface, if any. */
    var savedEnabled: Option<seq<string>>
    var shouldQuit: bool

    function View(): AppView
      reads this
    {
      AppView(selected, logVisible, logMessages, logScroll, savedEnabled, shouldQuit)
    }

    /** `new`: the first entry selected, the log shown, empty and at its newest line. */
    constructor(st: Registry, orch: StateCell, rx: Channel<string>, tx: Channel<Command>, path: Path)
      ensures state == st && orchState == orch && logRx == rx && cmdTx == tx && settingsPath == path
      ensures View() == AppView(0, true, [], 0, None, false)
    {
      state := st;
      orchState := orch;
      logRx := rx;
      cmdTx := tx;
      settingsPath := path;
      selected := 0;
      logVisible := true;
      logMessages := [];
      logScroll := 0;
      savedEnabled := None;
      shouldQuit := false;
    }

    /** `drain_logs`: every pending line moves, in arrival order, to the end of the log. */
    method DrainLogs()
      modifies this, logRx
      ensures View() == old(View()).(logMessages := old(logMessages) + old(logRx.pending))
      ensures logRx.pending == []
    {
      var newMsgs := false;
      while true
        invariant logMessages + logRx.pending == old(logMessages) + old(logRx.pending)
        invariant View() == old(View()).(logMessages := logMessages)
        decreases |logRx.pending|
      {
        ghost var before := logRx.pending;
        var msg := logRx.TryRecv();
        if msg.None? {
          break;
        }
        assert before == [msg.value] + logRx.pending;
        assert (logMessages + [msg.value]) + logRx.pending == logMessages + before;
        logMessages := logMessages + [msg.value];
        newMsgs := true;
      }
      assert logMessages + [] == logMessages;
    }

    /** `scroll_log_up`: further back, saturating at the largest `usize`. */
    method ScrollLogUp(n: nat)
      modifies this
      ensures View() == old(View()).(logScroll := SatAdd(old(logScroll), n))
    {
      logScroll := SatAdd(logScroll, n);
    }

    /** `scroll_log_down`: towards the newest line, stopping there. */
    method ScrollLogDown(n: nat)
      modifies this
      ensures View() == old(View()).(logScroll := SatSub(old(logScroll), n))
    {
      logScroll := SatSub(logScroll, n);
    }

    /** `move_up`: the previous entry, never below the first. */
    method MoveUp()
      modifies this
      ensures View() == old(View()).(selected := if old(selected) > 0 then old(selected) - 1 else 0)
      ensures old(selected) < |state.entries| ==> selected < |state.entries|
    {
      if selected > 0 {
        selected := selected - 1;
      }
    }

    /** `move_down`: the next entry, never past the last. */
    method MoveDown()
      modifies this
      ensures View() == old(View()).(selected := if old(selected) + 1 < |state.entries| then old(selected) + 1 else old(selected))
      ensures old(selected) < |state.entries| ==> selected < |state.entries|
      ensures state.entries != [] && selected >= |state.entries| ==> selected == old(selected)
    {
      var len := |state.entries|;
      if selected + 1 < len {
        selected := selected + 1;
      }
    }

    /**
     * `toggle_selected`: flips the selected entry's `enabled` flag when there
     * is such an entry, saves the enabled names, and always sends `Toggle`.
     */
    method ToggleSelected()
      modifies this, state, cmdTx
      ensures state.entries == Flipped(old(state.entries), selected)
      ensures View() == old(View()).(savedEnabled := Some(EnabledNames(state.entries)))
      ensures cmdTx.pending == old(cmdTx.pending) + [Toggle(selected)]
    {
      var entries := state.entries;
      if selected < |entries| {
        entries := entries[selected := entries[selected].(enabled := !entries[selected].enabled)];
      }
      state.entries := entries;
      savedEnabled := Some(EnabledNames(entries));
      cmdTx.Send(Toggle(selected));
    }

    /**
     * `start_stop`: a running orchestrator is asked to stop, a stopped one to
     * start, each with one `StartStop`; while stopping, nothing happens.
     */
    method StartStop()
      modifies orchState, cmdTx
      ensures orchState.state == StartStopNext(old(orchState.state)).UnwrapOr(old(orchState.state))
      ensures cmdTx.pending == old(cmdTx.pending) + (if old(orchState.state) == Stopping then [] else [Command.StartStop])
    {
      match orchState.state {
        case Running => orchState.state := Stopping;
        case Stopped => orchState.state := Running;
        case Stopping => return;
      }
      cmdTx.Send(Command.StartStop);
    }

    /** `restart_selected`: sends `Restart` for the selected entry and changes nothing else. */
    method RestartSelected()
      modifies cmdTx
      ensures cmdTx.pending == old(cmdTx.pending) + [Restart(selected)]
    {
      cmdTx.Send(Restart(selected));
    }

    /** `toggle_log`: shows or hides the log panel. */
    method ToggleLog()
      modifies this
      ensures View() == old(View()).(logVisible := !old(logVisible))
    {
      logVisible := !logVisible;
    }

    /** `quit`: sends `Quit` and marks the surface for exit. */
    method Quit()
      modifies this, cmdTx
      ensures View() == old(View()).(shouldQuit := true)
      ensures cmdTx.pending == old(cmdTx.pending) + [Command.Quit]
    {
      cmdTx.Send(Command.Quit);
      shouldQuit := true;
    }
  }
}
