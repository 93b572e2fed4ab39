/**
 * What the orchestrator promises (crates/core/src/orchestrator.rs), stated
 * over the functions of OrchestratorSpec, which the class in orchestrator.dfy
 * is proved to follow.
 */
module OrchestratorProps {
  import opened Wrappers
  import opened Types
  import opened Reconcile
  import opened OrchestratorSpec
  import App
  import Stub

  // ---------------------------------------------------------------------------
  // Quit and teardown

  /**
   * Draining stops at the first `Quit`: the loop is told to exit, every agent
   * and cooldown is gone, the state is `Stopped`, and every command queued
   * after that `Quit` is left unprocessed. Without a `Quit` the queue is emptied.
   */
  lemma {:induction false} DrainQuit(o: Orch, q: seq<Command>, live: string -> seq<Window>, spawn: nat -> bool)
    ensures Drain(o, q, live, spawn).keepGoing <==> Quit !in q
    ensures Quit in q ==>
      var d := Drain(o, q, live, spawn);
      && d.after.bots == map[] && d.after.cooldowns == map[] && d.after.state == Stopped
      && AfterFirstQuit(q, d.unprocessed)
    ensures Quit !in q ==> Drain(o, q, live, spawn).unprocessed == []
    decreases |q|
  {
    if q != [] {
      if q[0] == Quit {
        assert q[..0] == [];
      } else {
        var next := ApplyCommand(o, q[0], live, spawn);
        DrainStep(o, q, live, spawn);
        DrainQuit(next, q[1..], live, spawn);
        QuitShift(q, Drain(next, q[1..], live, spawn).unprocessed);
      }
    }
  }

  /** The state a command other than `Quit` leaves. */
  function ApplyCommand(o: Orch, c: Command, live: string -> seq<Window>, spawn: nat -> bool): Orch {
    match c
    case Toggle(idx) => ApplyToggle(o, idx, live, spawn)
    case StartStop => ApplyStartStop(o, spawn)
    case Restart(idx) => ApplyRestart(o, idx, spawn)
    case Quit => o
  }

  lemma {:induction false} DrainStep(o: Orch, q: seq<Command>, live: string -> seq<Window>, spawn: nat -> bool)
    requires q != [] && q[0] != Quit
    ensures Drain(o, q, live, spawn) == Drain(ApplyCommand(o, q[0], live, spawn), q[1..], live, spawn)
  {
  }

  /** `u` is what follows the first `Quit` of `q`. */
  predicate AfterFirstQuit(q: seq<Command>, u: seq<Command>) {
    exists i :: 0 <= i < |q| && q[i] == Quit && Quit !in q[..i] && u == q[i + 1..]
  }

  lemma {:induction false} QuitShift(q: seq<Command>, u: seq<Command>)
    requires q != [] && q[0] != Quit
    requires Quit in q[1..] ==> AfterFirstQuit(q[1..], u)
    ensures Quit in q <==> Quit in q[1..]
    ensures Quit in q ==> AfterFirstQuit(q, u)
  {
    assert q == [q[0]] + q[1..];
    if Quit in q[1..] {
      var i :| 0 <= i < |q[1..]| && q[1..][i] == Quit && Quit !in q[1..][..i] && u == q[1..][i + 1..];
      assert q[..i + 1] == [q[0]] + q[1..][..i];
      assert q[i + 1 + 1..] == q[1..][i + 1..];
    }
  }

  /**
   * A pass stops the loop only through a `Quit` pressed during it, and then
   * leaves no agent, no cooldown and the state `Stopped`.
   */
  lemma {:induction false} PassStops(o: Orch, ids: seq<string>, arrivals: seq<seq<Action>>, now: nat,
                    live: string -> seq<Window>, spawn: nat -> bool, run: (Agent, nat) -> TickResult)
    ensures (forall k :: 0 <= k < |arrivals| ==> PressQuit !in arrivals[k]) ==>
      Pass(o, ids, arrivals, now, live, spawn, run).keepGoing
    ensures var r := Pass(o, ids, arrivals, now, live, spawn, run);
      !r.keepGoing ==> r.after.bots == map[] && r.after.cooldowns == map[] && r.after.state == Stopped
    decreases |ids|
  {
    if ids != [] {
      var acts := if arrivals == [] then [] else arrivals[0];
      var rest := if arrivals == [] then [] else arrivals[1..];
      var acted := ActAll(o, [], acts);
      DrainQuit(acted.0, acted.1, live, spawn);
      var s := PassStep(acted.0, acted.1, ids[0], now, live, spawn, run);
      if s.1 == Continued {
        PassStops(s.0, ids[1..], rest, now, live, spawn, run);
        if forall k :: 0 <= k < |arrivals| ==> PressQuit !in arrivals[k] {
          assert forall k :: 0 <= k < |rest| ==> rest[k] == arrivals[k + 1];
        }
      }
    }
  }

  /**
   * With no action during it, a pass from a `Running` state is the plain
   * dispatch of the ready ids in order.
   */
  lemma {:induction false} PassQuiet(o: Orch, ids: seq<string>, arrivals: seq<seq<Action>>, now: nat,
                    live: string -> seq<Window>, spawn: nat -> bool, run: (Agent, nat) -> TickResult)
    requires o.state == Running
    requires forall k :: 0 <= k < |arrivals| ==> arrivals[k] == []
    ensures Pass(o, ids, arrivals, now, live, spawn, run) == Iterated(DispatchAll(o, ids, now, run), true, [])
    decreases |ids|
  {
    if ids != [] {
      var rest := if arrivals == [] then [] else arrivals[1..];
      var s := PassStep(o, [], ids[0], now, live, spawn, run);
      assert forall k :: 0 <= k < |rest| ==> rest[k] == arrivals[k + 1];
      PassQuiet(s.0, ids[1..], rest, now, live, spawn, run);
    }
  }

  /** Actions other than `start_stop` leave the run state alone; a `start_stop` from `Running` leaves `Stopping`. */
  lemma {:induction false} ActAllState(o: Orch, q: seq<Command>, acts: seq<Action>)
    ensures PressStartStop !in acts ==> ActAll(o, q, acts).0.state == o.state
    ensures o.state == Running && PressStartStop in acts ==> ActAll(o, q, acts).0.state == Stopping
    ensures o.state == Stopping ==> ActAll(o, q, acts).0.state == Stopping
    decreases |acts|
  {
    if acts != [] {
      var init := acts[..|acts| - 1];
      assert acts == init + [acts[|acts| - 1]];
      ActAllState(o, q, init);
      var mid := ActAll(o, q, init).0;
      if o.state == Running && PressStartStop in acts && PressStartStop !in init {
        assert acts[|acts| - 1] == PressStartStop;
      }
    }
  }

  /**
   * A stop pressed while an agent ticks ends the pass with nothing more
   * dispatched: the stop was written as `Stopping` before `StartStop` was
   * sent, so the drain leaves the state `Stopping` and the pass breaks. The
   * next iteration then tears everything down.
   */
  lemma {:induction false} StopPressedEndsPass(o: Orch, ids: seq<string>, arrivals: seq<seq<Action>>,
                    more: seq<seq<Action>>, now: nat,
                    live: string -> seq<Window>, spawn: nat -> bool, run: (Agent, nat) -> TickResult)
    requires o.state == Running && ids != [] && arrivals != []
    requires PressStartStop in arrivals[0] && PressQuit !in arrivals[0]
    ensures var acted := ActAll(o, [], arrivals[0]);
      var r := Pass(o, ids, arrivals, now, live, spawn, run);
      && r == Iterated(Drain(acted.0, acted.1, live, spawn).after, true, [])
      && r.after.state == Stopping
      && Iterate(r.after, [], more, now, live, spawn, run) == Iterated(StopAll(r.after), true, [])
  {
    var acted := ActAll(o, [], arrivals[0]);
    ActAllState(o, [], arrivals[0]);
    DrainQuit(acted.0, acted.1, live, spawn);
    DrainKeepsState(acted.0, acted.1, live, spawn);
  }

  /** Commands other than `Quit` never change the run state. */
  lemma {:induction false} DrainKeepsState(o: Orch, q: seq<Command>, live: string -> seq<Window>, spawn: nat -> bool)
    requires Quit !in q
    ensures Drain(o, q, live, spawn).after.state == o.state
    decreases |q|
  {
    if q != [] {
      assert Quit !in q[1..] by {
        assert forall k :: 0 <= k < |q[1..]| ==> q[1..][k] == q[k + 1];
      }
      DrainKeepsState(ApplyCommand(o, q[0], live, spawn), q[1..], live, spawn);
      DrainStep(o, q, live, spawn);
    }
  }

  /**
   * An entry the user disables while an agent ticks loses its agents at the
   * next step: the flag was written before `Toggle` was sent, so the drain
   * sees the entry disabled and stops its instances.
   */
  lemma {:induction false} DisablePressedStops(o: Orch, idx: nat, ids: seq<string>, arrivals: seq<seq<Action>>, now: nat,
                    live: string -> seq<Window>, spawn: nat -> bool, run: (Agent, nat) -> TickResult)
    requires ids != [] && arrivals != [] && arrivals[0] == [ToggleEntry(idx)]
    requires idx < |o.entries| && o.entries[idx].enabled
    ensures var flipped := o.(entries := App.Flipped(o.entries, idx));
      var p := ReconcileAll(flipped, live);
      var d := Drain(flipped, [Toggle(idx)], live, spawn).after;
      && ActAll(o, [], arrivals[0]) == (flipped, [Toggle(idx)])
      && !p.entries[idx].enabled
      && d.bots == p.bots - InstanceIds(p.entries[idx].instances)
      && d.cooldowns == p.cooldowns - InstanceIds(p.entries[idx].instances)
  {
    var flipped := o.(entries := App.Flipped(o.entries, idx));
    assert [ToggleEntry(idx)][..0] == [];
    assert ActAll(o, [], []) == (o, []);
    assert ([] + [Toggle(idx)]) == [Toggle(idx)];
    ToggleDisabled(flipped, idx, live, spawn);
    DrainStep(flipped, [Toggle(idx)], live, spawn);
    assert [Toggle(idx)][1..] == [];
  }

  /**
   * One loop iteration returns false when a `Quit` was queued before it, and
   * keeps going when no `Quit` is queued before it or pressed during it;
   * after it returns false, or after a drain that leaves the state
   * `Stopping`, every agent and cooldown is gone and the state is `Stopped`.
   */
  lemma {:induction false} IterateStops(o: Orch, q: seq<Command>, arrivals: seq<seq<Action>>, now: nat,
                     live: string -> seq<Window>, spawn: nat -> bool, run: (Agent, nat) -> TickResult)
    ensures Quit in q ==> !Iterate(o, q, arrivals, now, live, spawn, run).keepGoing
    ensures Quit !in q && (forall k :: 0 <= k < |arrivals| ==> PressQuit !in arrivals[k]) ==>
      Iterate(o, q, arrivals, now, live, spawn, run).keepGoing
    ensures var r := Iterate(o, q, arrivals, now, live, spawn, run);
      !r.keepGoing || Drain(o, q, live, spawn).after.state == Stopping ==>
      r.after.bots == map[] && r.after.cooldowns == map[] && r.after.state == Stopped
  {
    DrainQuit(o, q, live, spawn);
    var p := Drain(o, q, live, spawn).after;
    PassStops(p, Ready(p.entries, p, now), arrivals, now, live, spawn, run);
  }

  /** A pass dispatches nothing unless the state is `Running` after the drain. */
  lemma {:induction false} IterateIdle(o: Orch, q: seq<Command>, arrivals: seq<seq<Action>>, now: nat,
                    live: string -> seq<Window>, spawn: nat -> bool, run: (Agent, nat) -> TickResult)
    requires Quit !in q
    ensures var d := Drain(o, q, live, spawn);
      d.after.state == Stopped ==> Iterate(o, q, arrivals, now, live, spawn, run) == Iterated(d.after, true, [])
  {
    DrainQuit(o, q, live, spawn);
  }

  // ---------------------------------------------------------------------------
  // The reconcile of `Toggle`

  /**
   * After the reconcile each entry's instances cover exactly the live windows of
   * its pattern, and an agent or cooldown is removed exactly when its id belonged
   * to an instance whose window vanished.
   */
  lemma {:induction false} ReconcileAllEffect(o: Orch, live: string -> seq<Window>, id: string)
    ensures var r := ReconcileAll(o, live);
      forall j :: 0 <= j < |o.entries| ==>
        InstanceWindowIds(r.entries[j].instances) == WindowIds(live(o.entries[j].windowPattern))
    ensures var r := ReconcileAll(o, live);
      var dead := exists j :: 0 <= j < |o.entries| && id in DeadIds(o.entries[j].instances, live(o.entries[j].windowPattern));
      && (id in o.bots ==> (id in r.bots <==> !dead) && (id in r.bots ==> r.bots[id] == o.bots[id]))
      && (id in o.cooldowns ==> (id in r.cooldowns <==> !dead) && (id in r.cooldowns ==> r.cooldowns[id] == o.cooldowns[id]))
  {
    forall j | 0 <= j < |o.entries|
      ensures InstanceWindowIds(ReconcileAll(o, live).entries[j].instances) == WindowIds(live(o.entries[j].windowPattern))
    {
      ReconcileEntryCovers(o.entries[j], live(o.entries[j].windowPattern));
    }
    DeadIdsAllMembers(o.entries, live, id);
  }

  /** A second reconcile against the same windows changes nothing at all. */
  lemma {:induction false} ReconcileAllIdempotent(o: Orch, live: string -> seq<Window>)
    ensures ReconcileAll(ReconcileAll(o, live), live) == ReconcileAll(o, live)
  {
    var r := ReconcileAll(o, live);
    ReconcileEntriesIdempotent(o.entries, live);
    ReconcileAllSettled(r, live);
  }

  /** A state whose entries are settled and have nothing dead is a reconcile's fixed point. */
  lemma {:induction false} ReconcileAllSettled(r: Orch, live: string -> seq<Window>)
    requires ReconcileEntries(r.entries, live) == r.entries && DeadIdsAll(r.entries, live) == {}
    ensures ReconcileAll(r, live) == r
  {
    assert r.bots - {} == r.bots;
    assert r.cooldowns - {} == r.cooldowns;
  }

  // ---------------------------------------------------------------------------
  // The three cases of `Toggle`

  /**
   * `Toggle(idx)` of an enabled entry while running keeps every existing agent
   * (same creation), resets those of the entry's instances, creates agents only
   * for the entry's instances, and leaves the cooldowns as the reconcile left them.
   */
  lemma {:induction false} ToggleEnabledRunning(o: Orch, idx: nat, live: string -> seq<Window>, spawn: nat -> bool)
    requires idx < |o.entries| && o.entries[idx].enabled && o.state == Running
    ensures var p := ReconcileAll(o, live);
      var ids := InstanceIds(p.entries[idx].instances);
      var r := ApplyToggle(o, idx, live, spawn);
      && r.cooldowns == p.cooldowns
      && (forall k :: k in p.bots ==> k in r.bots && r.bots[k].serial == p.bots[k].serial)
      && (forall k :: k in p.bots && k in ids ==> r.bots[k].resets > p.bots[k].resets)
      && (forall k :: k in r.bots && k !in p.bots ==> k in ids && r.bots[k].serial >= p.attempts)
      && (forall k :: k in r.bots && k !in ids ==> k in p.bots && r.bots[k] == p.bots[k])
      && ((forall n :: spawn(n)) ==> ids <= r.bots.Keys)
  {
  }

  /**
   * `Toggle(idx)` of a disabled entry removes the agents and cooldowns of all
   * its instances, whatever the run state.
   */
  lemma {:induction false} ToggleDisabled(o: Orch, idx: nat, live: string -> seq<Window>, spawn: nat -> bool)
    requires idx < |o.entries| && !o.entries[idx].enabled
    ensures var p := ReconcileAll(o, live);
      var r := ApplyToggle(o, idx, live, spawn);
      && r.bots == p.bots - InstanceIds(p.entries[idx].instances)
      && r.cooldowns == p.cooldowns - InstanceIds(p.entries[idx].instances)
      && r.entries == p.entries
  {
  }

  /** Out of range, or enabled but not running: only the reconcile happens. */
  lemma {:induction false} ToggleOnlyReconciles(o: Orch, idx: nat, live: string -> seq<Window>, spawn: nat -> bool)
    requires idx >= |o.entries| || (o.entries[idx].enabled && o.state != Running)
    ensures ApplyToggle(o, idx, live, spawn) == ReconcileAll(o, live)
  {
  }

  // ---------------------------------------------------------------------------
  // StartStop and Restart

  /**
   * `StartStop` acts only when the state already reads `Running`; it then keeps
   * every agent and adds agents only for instances of enabled entries.
   */
  lemma {:induction false} StartStopEffect(o: Orch, spawn: nat -> bool)
    ensures o.state != Running ==> ApplyStartStop(o, spawn) == o
    ensures var r := ApplyStartStop(o, spawn);
      && r.cooldowns == o.cooldowns && r.entries == o.entries
      && (forall k :: k in o.bots ==> k in r.bots && r.bots[k] == o.bots[k])
      && (forall k :: k in r.bots && k !in o.bots ==> k in EnabledIds(o.entries))
    ensures o.state == Running && (forall n :: spawn(n)) ==> EnabledIds(o.entries) <= ApplyStartStop(o, spawn).bots.Keys
  {
  }

  /**
   * `Restart(idx)` does nothing unless running with a valid index of an enabled
   * entry; then every instance of the entry loses its cooldown and any agent it
   * has afterwards is a new one.
   */
  lemma {:induction false} RestartEffect(o: Orch, idx: nat, spawn: nat -> bool)
    ensures o.state != Running || idx >= |o.entries| || !o.entries[idx].enabled ==> ApplyRestart(o, idx, spawn) == o
    ensures o.state == Running && idx < |o.entries| && o.entries[idx].enabled ==>
      var ids := InstanceIds(o.entries[idx].instances);
      var r := ApplyRestart(o, idx, spawn);
      && r.cooldowns == o.cooldowns - ids
      && (forall k :: k in ids && k in r.bots ==> o.attempts <= r.bots[k].serial)
      && (forall k :: k !in ids ==> (k in r.bots <==> k in o.bots))
      && (forall k :: k !in ids && k in o.bots ==> r.bots[k] == o.bots[k])
  {
  }

  // ---------------------------------------------------------------------------
  // The pass

  lemma {:induction false} ReadyInMembers(insts: seq<Instance>, o: Orch, now: nat, id: string)
    ensures id in ReadyIn(insts, o, now) <==> id in InstanceIds(insts) && Eligible(id, o, now)
  {
    if insts != [] {
      var init := insts[..|insts| - 1];
      ReadyInMembers(init, o, now, id);
      assert insts == init + [insts[|insts| - 1]];
      assert InstanceIds(insts) == InstanceIds(init) + {insts[|insts| - 1].id};
    }
  }

  /**
   * The ready snapshot holds exactly the ids of instances of enabled entries
   * that have an agent and whose cooldown is absent or has expired.
   */
  lemma {:induction false} ReadyMembers(es: seq<BotEntry>, o: Orch, now: nat, id: string)
    ensures id in Ready(es, o, now) <==>
      (id in EnabledIds(es) && id in o.bots && (id !in o.cooldowns || o.cooldowns[id] <= now))
  {
    if es != [] {
      var init := es[..|es| - 1];
      var last := es[|es| - 1];
      ReadyMembers(init, o, now, id);
      ReadyInMembers(last.instances, o, now, id);
      EnabledIdsSnoc(init, last);
      assert es == init + [last];
    }
  }

  /**
   * A dispatch deactivates the agent again, sets its cooldown to `now` plus the
   * requested delay (5000 when `tick` gave none or failed), leaves the other
   * cooldowns alone and writes status and error into the first instance with
   * the id: the status is cleared when `tick` or `get_status` fails, the error
   * is set exactly when `tick` fails.
   */
  lemma {:induction false} DispatchEffect(o: Orch, id: string, now: nat, run: (Agent, nat) -> TickResult)
    requires id in o.bots
    ensures var res := run(o.bots[id].(active := true), now);
      var r := Dispatch(o, id, now, run);
      && r.bots == o.bots[id := o.bots[id].(active := false)]
      && id in r.cooldowns
      && (res.tick.Ok? && res.tick.value.Some? ==> r.cooldowns[id] == now + res.tick.value.value)
      && (res.tick.Err? || res.tick == Ok(None) ==> r.cooldowns[id] == now + 5000)
      && (forall k :: k != id ==> (k in r.cooldowns <==> k in o.cooldowns))
      && (forall k :: k != id && k in o.cooldowns ==> r.cooldowns[k] == o.cooldowns[k])
    ensures var res := run(o.bots[id].(active := true), now);
      var r := Dispatch(o, id, now, run);
      Locate(o.entries, id).Some? ==>
        var j, k := Locate(o.entries, id).value.0, Locate(o.entries, id).value.1;
        && r.entries[j].instances[k].status == (if res.tick.Ok? && res.status.Ok? then res.status.value else "")
        && r.entries[j].instances[k].error == (if res.tick.Err? then Some(res.tick.error) else None)
  {
  }

  /**
   * A step of the dispatch loop: a queued `Quit` ends the loop with everything
   * stopped; a state that is no longer `Running` ends the pass with nothing
   * dispatched; an id whose agent is gone is skipped.
   */
  lemma {:induction false} PassStepCases(o: Orch, q: seq<Command>, id: string, now: nat,
                      live: string -> seq<Window>, spawn: nat -> bool, run: (Agent, nat) -> TickResult)
    ensures var d := Drain(o, q, live, spawn);
      var r := PassStep(o, q, id, now, live, spawn, run);
      && (Quit in q <==> r.1 == Quitted)
      && (Quit in q ==> r.0.bots == map[] && r.0.cooldowns == map[] && r.0.state == Stopped)
      && (Quit !in q && d.after.state != Running ==> r == (d.after, Aborted, []))
      && (Quit !in q && d.after.state == Running && id !in d.after.bots ==> r == (d.after, Continued, []))
  {
    DrainQuit(o, q, live, spawn);
  }

  // ---------------------------------------------------------------------------
  // A scenario on the stub platform

  /**
   * A `Toggle(0)` of an enabled "wow" bot while running, on the stub platform,
   * with agent creation always succeeding: the entry gets one instance per stub
   * window, each with an agent of its own, and neither has a cooldown yet.
   */
  lemma {:induction false} StubToggleScenario(script: Path)
    ensures var e := BotEntry("farm", "wow", "", true, [], None, script);
      var o := Orch([e], map[], map[], Running, 0);
      var r := ApplyToggle(o, 0, Stub.GetInstances, _ => true);
      && |r.entries[0].instances| == 2
      && r.entries[0].instances[0] == NewInstance("farm", 10001, Stub.WowTitle)
      && r.entries[0].instances[1] == NewInstance("farm", 10002, Stub.WowTitle)
      && r.bots.Keys == {InstanceId("farm", 10001), InstanceId("farm", 10002)}
      && r.cooldowns == map[]
  {
    var e := BotEntry("farm", "wow", "", true, [], None, script);
    var i1 := NewInstance("farm", 10001, Stub.WowTitle);
    var i2 := NewInstance("farm", 10002, Stub.WowTitle);
    var o := Orch([e], map[], map[], Running, 0);
    var p := Orch([e.(instances := [i1, i2])], map[], map[], Running, 0);
    assert ReconcileAll(o, Stub.GetInstances) == p by {
      StubFarmEntry(e);
    }
    StartBothFresh(p, p.entries[0], i1, i2, _ => true);
  }

  /** With no agents and every spawn succeeding, an entry's two instances both get an agent. */
  lemma {:induction false} StartBothFresh(p: Orch, e: BotEntry, i1: Instance, i2: Instance, spawn: nat -> bool)
    requires p.bots == map[] && forall n :: spawn(n)
    ensures var r := ResetOrStart(p, e, [i1, i2], spawn);
      r.bots.Keys == {i1.id, i2.id} && r.cooldowns == p.cooldowns && r.entries == p.entries
  {
    assert InstanceIds([i1, i2]) == {i1.id, i2.id} by {
      assert i1 in [i1, i2] && i2 in [i1, i2];
    }
  }

  /** The stub's two Warcraft windows become two new instances of an empty entry. */
  lemma {:induction false} StubFarmEntry(e: BotEntry)
    requires e.name == "farm" && e.windowPattern == "wow" && e.instances == []
    ensures ReconcileEntry(e, Stub.GetInstances("wow")).instances
      == [NewInstance("farm", 10001, Stub.WowTitle), NewInstance("farm", 10002, Stub.WowTitle)]
  {
    var ws := Stub.GetInstances("wow");
    assert ws == [Window(10001, Stub.WowTitle), Window(10002, Stub.WowTitle)] by {
      assert Text.ToLower("wow") == "wow";
      assert Text.IsPrefix("wow", "wow");
    }
    var i1 := NewInstance("farm", 10001, Stub.WowTitle);
    var i2 := NewInstance("farm", 10002, Stub.WowTitle);
    assert ws[..1] == [ws[0]];
    assert AddMissing("farm", [], ws[..1]) == [i1];
    assert ws[..2] == ws;
    InstanceIdDistinct("farm", 10001, 10002);
    assert AddMissing("farm", [], ws) == [i1, i2];
  }
}
