/**
 * The orchestrator loop of crates/core/src/orchestrator.rs as a class: it owns
 * the agent map and the cooldown map and updates, through references, the
 * shared registry, the run-state cell and the command channel. Every method is
 * proved to leave the state as the functions of OrchestratorSpec prescribe.
 *
 * The outcome of creating an agent (`spawn`, by creation attempt) and `tick`
 * (`run`) are fixed oracles. The platform's window lists (`live`) are passed
 * to each call that reconciles, so they may differ from one iteration to the
 * next.
 */
module Orchestrator {
  import opened Wrappers
  import opened Types
  import opened Reconcile
  import opened OrchestratorSpec
  import opened Shared
  import App

  class Orchestrator {
    const registry: Registry
    const cell: StateCell
    const rx: Channel<Command>
    const spawn: nat -> bool
    const run: (Agent, nat) -> TickResult

    var bots: map<string, Agent>
    var cooldowns: map<string, nat>
    /** Creation attempts so far; the index `spawn` is consulted at. */
    var attempts: nat

    /** The whole state, as OrchestratorSpec sees it. */
    function Abs(): Orch
      reads this, registry, cell
    {
      Orch(registry.entries, bots, cooldowns, cell.state, attempts)
    }

    /** `orchestrate` starts with no agents and no cooldowns. */
    constructor(registry: Registry, cell: StateCell, rx: Channel<Command>,
                spawn: nat -> bool, run: (Agent, nat) -> TickResult)
      ensures this.registry == registry && this.cell == cell && this.rx == rx
      ensures this.spawn == spawn && this.run == run
      ensures bots == map[] && cooldowns == map[] && attempts == 0
      ensures AgentsWF(Abs())
    {
      this.registry := registry;
      this.cell := cell;
      this.rx := rx;
      this.spawn := spawn;
      this.run := run;
      bots := map[];
      cooldowns := map[];
      attempts := 0;
    }

    /** `LuaBot::new(&entry.script_path, platform.create_window(..))`, inserted on success. */
    method CreateAgent(e: BotEntry, inst: Instance)
      modifies this
      ensures Abs() == Spawn(old(Abs()), e, inst, spawn)
    {
      if spawn(attempts) {
        bots := bots[inst.id := NewAgent(e, inst, attempts)];
      }
      attempts := attempts + 1;
    }

    /** `bots.get(id).reset()`. */
    method ResetAgent(id: string)
      requires id in bots
      modifies this
      ensures Abs() == Reset(old(Abs()), id)
    {
      bots := bots[id := bots[id].(resets := bots[id].resets + 1)];
    }

    /** Stop and remove the agent of an instance, and erase its cooldown. */
    method ForgetInstance(id: string)
      modifies this
      ensures Abs() == Forget(old(Abs()), id)
    {
      bots := bots - {id};
      cooldowns := cooldowns - {id};
    }

    /** `entry.instances.retain(..)`: keep the live instances, forget the agents and cooldowns of the others. */
    method RetainAlive(insts: seq<Instance>, ws: seq<Window>) returns (kept: seq<Instance>)
      modifies this
      ensures kept == Survivors(insts, ws)
      ensures bots == old(bots) - DeadIds(insts, ws)
      ensures cooldowns == old(cooldowns) - DeadIds(insts, ws)
      ensures attempts == old(attempts)
    {
      kept := [];
      var i := 0;
      while i < |insts|
        invariant 0 <= i <= |insts|
        invariant kept == Survivors(insts[..i], ws)
        invariant bots == old(bots) - DeadIds(insts[..i], ws)
        invariant cooldowns == old(cooldowns) - DeadIds(insts[..i], ws)
        invariant attempts == old(attempts)
      {
        var inst := insts[i];
        RetainStep(insts, i, ws);
        if inst.windowId in WindowIds(ws) {
          kept := kept + [inst];
        } else {
          MapMinusTwice(old(bots), DeadIds(insts[..i], ws), inst.id);
          MapMinusTwice(old(cooldowns), DeadIds(insts[..i], ws), inst.id);
          bots := bots - {inst.id};
          cooldowns := cooldowns - {inst.id};
        }
        i := i + 1;
      }
      assert insts[..i] == insts;
    }

    /** The retain-and-push step of `Toggle` for the entry at `j`. */
    method ReconcileEntryAt(j: nat, live: string -> seq<Window>)
      requires j < |registry.entries|
      modifies this, registry
      ensures registry.entries == old(registry.entries)[j := ReconcileEntry(old(registry.entries)[j], live(old(registry.entries)[j].windowPattern))]
      ensures bots == old(bots) - DeadIds(old(registry.entries)[j].instances, live(old(registry.entries)[j].windowPattern))
      ensures cooldowns == old(cooldowns) - DeadIds(old(registry.entries)[j].instances, live(old(registry.entries)[j].windowPattern))
      ensures attempts == old(attempts)
    {
      var e := registry.entries[j];
      var ws := live(e.windowPattern);
      var kept := RetainAlive(e.instances, ws);
      var insts := PushMissing(e.name, kept, ws);
      registry.entries := registry.entries[j := e.(instances := insts)];
    }

    /** The reconcile of every entry that opens `Toggle`. */
    method ReconcileAllEntries(live: string -> seq<Window>)
      modifies this, registry
      ensures Abs() == ReconcileAll(old(Abs()), live)
    {
      ghost var es0 := registry.entries;
      var j := 0;
      while j < |registry.entries|
        invariant |registry.entries| == |es0|
        invariant 0 <= j <= |es0|
        invariant registry.entries == ReconcileEntries(es0[..j], live) + es0[j..]
        invariant bots == old(bots) - DeadIdsAll(es0[..j], live)
        invariant cooldowns == old(cooldowns) - DeadIdsAll(es0[..j], live)
        invariant attempts == old(attempts) && cell.state == old(cell.state)
      {
        ReconcileStep(es0, j, live);
        ghost var dead := DeadIds(es0[j].instances, live(es0[j].windowPattern));
        ghost var b, c := bots, cooldowns;
        ReconcileEntryAt(j, live);
        assert bots == b - dead && cooldowns == c - dead;
        MapMinusBoth(old(bots), DeadIdsAll(es0[..j], live), dead);
        MapMinusBoth(old(cooldowns), DeadIdsAll(es0[..j], live), dead);
        j := j + 1;
      }
      assert es0[..j] == es0;
    }

    /** Reset the agent of `inst` when it exists, create it otherwise. */
    method ResetOrStartOne(e: BotEntry, inst: Instance)
      modifies this
      ensures Abs() == if inst.id in old(bots) then Reset(old(Abs()), inst.id) else Spawn(old(Abs()), e, inst, spawn)
    {
      if inst.id in bots {
        ResetAgent(inst.id);
      } else {
        CreateAgent(e, inst);
      }
    }

    /** Reset the existing agents of `insts`, create the missing ones. */
    method ResetOrStartAll(e: BotEntry, insts: seq<Instance>)
      modifies this
      ensures Abs() == ResetOrStart(old(Abs()), e, insts, spawn)
    {
      ghost var o0 := Abs();
      var i := 0;
      while i < |insts|
        invariant 0 <= i <= |insts|
        invariant Abs() == ResetOrStart(o0, e, insts[..i], spawn)
      {
        ghost var p := Abs();
        ResetOrStartOne(e, insts[i]);
        ResetOrStartPrefix(o0, e, insts, i, spawn, p, Abs());
        i := i + 1;
      }
      assert insts[..i] == insts;
    }

    /** Create the agents `insts` lack. */
    method StartMissingAll(e: BotEntry, insts: seq<Instance>)
      modifies this
      ensures Abs() == StartMissing(old(Abs()), e, insts, spawn)
    {
      var i := 0;
      while i < |insts|
        invariant 0 <= i <= |insts|
        invariant Abs() == StartMissing(old(Abs()), e, insts[..i], spawn)
      {
        assert insts[..i + 1][..i] == insts[..i];
        if insts[i].id !in bots {
          CreateAgent(e, insts[i]);
        }
        i := i + 1;
      }
      assert insts[..i] == insts;
    }

    /** Remove the agents and cooldowns of `insts`. */
    method StopAllOf(insts: seq<Instance>)
      modifies this
      ensures Abs() == StopInstances(old(Abs()), insts)
    {
      var i := 0;
      while i < |insts|
        invariant 0 <= i <= |insts|
        invariant Abs() == StopInstances(old(Abs()), insts[..i])
      {
        assert insts[..i + 1][..i] == insts[..i];
        ForgetInstance(insts[i].id);
        i := i + 1;
      }
      assert insts[..i] == insts;
    }

    /** Replace the agent of every instance of `insts`. */
    method RestartAll(e: BotEntry, insts: seq<Instance>)
      modifies this
      ensures Abs() == RestartInstances(old(Abs()), e, insts, spawn)
    {
      var i := 0;
      while i < |insts|
        invariant 0 <= i <= |insts|
        invariant Abs() == RestartInstances(old(Abs()), e, insts[..i], spawn)
      {
        assert insts[..i + 1][..i] == insts[..i];
        ForgetInstance(insts[i].id);
        CreateAgent(e, insts[i]);
        i := i + 1;
      }
      assert insts[..i] == insts;
    }

    /** `Command::Toggle(idx)`. */
    method HandleToggle(idx: nat, live: string -> seq<Window>)
      modifies this, registry
      ensures Abs() == ApplyToggle(old(Abs()), idx, live, spawn)
    {
      ReconcileAllEntries(live);
      if idx < |registry.entries| {
        var e := registry.entries[idx];
        var isRunning := cell.state == Running;
        if e.enabled && isRunning {
          ResetOrStartAll(e, e.instances);
        } else if !e.enabled {
          StopAllOf(e.instances);
        }
      }
    }

    /** `Command::StartStop`: only the `Running` case does something here. */
    method HandleStartStop()
      modifies this
      ensures Abs() == ApplyStartStop(old(Abs()), spawn)
    {
      if cell.state == Running {
        var es := registry.entries;
        var j := 0;
        while j < |es|
          invariant 0 <= j <= |es|
          invariant Abs() == StartEnabled(old(Abs()), es[..j], spawn)
        {
          StartEnabledPrefix(old(Abs()), es, j, spawn);
          if es[j].enabled {
            StartMissingAll(es[j], es[j].instances);
          }
          j := j + 1;
        }
        assert es[..j] == es;
      }
    }

    /** `Command::Restart(idx)`. */
    method HandleRestart(idx: nat)
      modifies this
      ensures Abs() == ApplyRestart(old(Abs()), idx, spawn)
    {
      if cell.state != Running {
        return;
      }
      if idx >= |registry.entries| {
        return;
      }
      var e := registry.entries[idx];
      if !e.enabled {
        return;
      }
      RestartAll(e, e.instances);
    }

    /** `Command::Quit` and the `Stopping` teardown: drop every agent and cooldown, state `Stopped`. */
    method StopEverything()
      modifies this, cell
      ensures Abs() == StopAll(old(Abs()))
    {
      bots := map[];
      cooldowns := map[];
      cell.state := Stopped;
    }

    /** `process_commands`: drain the queue; false once `Quit` was processed. */
    method ProcessCommands(live: string -> seq<Window>) returns (keepGoing: bool)
      modifies this, registry, cell, rx
      ensures Drained(Abs(), keepGoing, rx.pending) == Drain(old(Abs()), old(rx.pending), live, spawn)
    {
      while true
        invariant Drain(Abs(), rx.pending, live, spawn) == Drain(old(Abs()), old(rx.pending), live, spawn)
        decreases |rx.pending|
      {
        var cmd := rx.TryRecv();
        if cmd.None? {
          return true;
        }
        match cmd.value
        case Quit =>
          StopEverything();
          return false;
        case Toggle(idx) =>
          HandleToggle(idx, live);
        case StartStop =>
          HandleStartStop();
        case Restart(idx) =>
          HandleRestart(idx);
      }
    }

    /** The `ready` snapshot of one pass. */
    method Snapshot(now: nat) returns (ready: seq<string>)
      ensures ready == Ready(registry.entries, Abs(), now)
    {
      var es := registry.entries;
      ready := [];
      var j := 0;
      while j < |es|
        invariant 0 <= j <= |es|
        invariant ready == Ready(es[..j], Abs(), now)
      {
        assert es[..j + 1][..j] == es[..j];
        if es[j].enabled {
          var insts := es[j].instances;
          var part: seq<string> := [];
          var k := 0;
          while k < |insts|
            invariant 0 <= k <= |insts|
            invariant part == ReadyIn(insts[..k], Abs(), now)
          {
            assert insts[..k + 1][..k] == insts[..k];
            var id := insts[k].id;
            if id in bots && (id !in cooldowns || now >= cooldowns[id]) {
              part := part + [id];
            }
            k := k + 1;
          }
          assert insts[..k] == insts;
          ready := ready + part;
        }
        j := j + 1;
      }
      assert es[..j] == es;
    }

    /** The status write-back: the first instance with the id, in registry order. */
    method WriteStatus(id: string, status: string, err: Option<string>)
      modifies registry
      ensures registry.entries == WriteBack(old(registry.entries), id, status, err)
    {
      var es := registry.entries;
      var j := 0;
      while j < |es|
        invariant 0 <= j <= |es|
        invariant forall j', k' :: 0 <= j' < j && 0 <= k' < |es[j'].instances| ==> es[j'].instances[k'].id != id
        invariant registry.entries == es
      {
        var insts := es[j].instances;
        var k := 0;
        while k < |insts|
          invariant 0 <= k <= |insts|
          invariant forall k' :: 0 <= k' < k ==> insts[k'].id != id
        {
          if insts[k].id == id {
            LocateFirst(es, id, j, k);
            var inst := insts[k].(status := status, error := err);
            registry.entries := es[j := es[j].(instances := insts[k := inst])];
            return;
          }
          k := k + 1;
        }
        j := j + 1;
      }
      LocateNone(es, id);
    }

    /** What a tick leaves behind: the cooldown to wait, the status to show and the error to record. */
    static method TickOutcome(res: TickResult) returns (cd: nat, status: Option<string>, err: Option<string>)
      ensures cd == CooldownOf(res.tick) && status == StatusOf(res) && err == ErrorOf(res)
    {
      match res.tick {
        case Ok(ms) =>
          cd := ms.UnwrapOr(DefaultCooldown);
          status := res.status.ToOption();
          err := None;
        case Err(e) =>
          cd := DefaultCooldown;
          status := None;
          err := Some(e);
      }
    }

    /** One dispatch of an agent. */
    method DispatchOne(id: string, now: nat)
      requires id in bots
      modifies this, registry
      ensures Abs() == Dispatch(old(Abs()), id, now, run)
    {
      ghost var o := Abs();
      var agent := bots[id].(active := true);
      bots := bots[id := agent];
      var res := run(agent, now);
      var cd, status, err := TickOutcome(res);
      bots := bots[id := agent.(active := false)];
      cooldowns := cooldowns[id := now + cd];
      assert bots == o.bots[id := o.bots[id].(active := false)];
      WriteStatus(id, status.UnwrapOr(""), err);
      DispatchParts(o, id, now, run, Abs());
    }

    /** One step of the dispatch loop: re-drain, abort when not running, skip a removed agent, dispatch. */
    method DispatchStep(id: string, now: nat, live: string -> seq<Window>) returns (outcome: StepOutcome)
      modifies this, registry, cell, rx
      ensures (Abs(), outcome, rx.pending) == PassStep(old(Abs()), old(rx.pending), id, now, live, spawn, run)
    {
      var keepGoing := ProcessCommands(live);
      if !keepGoing {
        return Quitted;
      }
      if cell.state != Running {
        return Aborted;
      }
      if id !in bots {
        return Continued;
      }
      DispatchOne(id, now);
      outcome := Continued;
    }

    /**
     * One iteration of the `orchestrate` loop; false when the loop returns.
     * Before step k of the pass the control surface's actions `arrivals[k]`
     * happen: the writes and sends it makes while the previous agent ticks.
     */
    method Iterate(now: nat, arrivals: seq<seq<Action>>, live: string -> seq<Window>) returns (keepGoing: bool)
      modifies this, registry, cell, rx
      ensures Iterated(Abs(), keepGoing, rx.pending)
           == OrchestratorSpec.Iterate(old(Abs()), old(rx.pending), arrivals, now, live, spawn, run)
    {
      keepGoing := ProcessCommands(live);
      if !keepGoing {
        return;
      }
      if cell.state == Stopping {
        StopEverything();
        return;
      }
      if cell.state != Running {
        return;
      }
      var ready := Snapshot(now);
      keepGoing := RunPass(ready, arrivals, now, live);
    }

    /** The dispatch loop over the `ready` snapshot, with the actions `arrivals[k]` before step k. */
    method RunPass(ready: seq<string>, arrivals: seq<seq<Action>>, now: nat, live: string -> seq<Window>)
      returns (keepGoing: bool)
      requires rx.pending == []
      modifies this, registry, cell, rx
      ensures Iterated(Abs(), keepGoing, rx.pending) == Pass(old(Abs()), ready, arrivals, now, live, spawn, run)
    {
      ghost var goal := Pass(Abs(), ready, arrivals, now, live, spawn, run);
      assert ready[0..] == ready;
      var i := 0;
      while i < |ready|
        invariant 0 <= i <= |ready|
        invariant rx.pending == []
        invariant Pass(Abs(), ready[i..], Later(arrivals, i), now, live, spawn, run) == goal
      {
        PassUnfold(Abs(), ready, arrivals, i, now, live, spawn, run);
        PerformAll(if i < |arrivals| then arrivals[i] else []);
        var outcome := DispatchStep(ready[i], now, live);
        if outcome == Quitted {
          return false;
        }
        if outcome == Aborted {
          return true;
        }
        i := i + 1;
      }
      keepGoing := true;
    }

    /**
     * One action of the control surface, made on the shared objects: the
     * write under the lock, then the send.
     */
    method Perform(a: Action)
      modifies registry, cell, rx
      ensures (Abs(), rx.pending) == Act(old(Abs()), old(rx.pending), a)
    {
      match a
      case ToggleEntry(i) =>
        registry.entries := App.Flipped(registry.entries, i);
        rx.Send(Toggle(i));
      case PressStartStop =>
        var next := App.StartStopNext(cell.state);
        if next.Some? {
          cell.state := next.value;
          rx.Send(StartStop);
        }
      case RestartEntry(i) =>
        rx.Send(Restart(i));
      case PressQuit =>
        rx.Send(Quit);
    }

    /** The actions `acts`, in order. */
    method PerformAll(acts: seq<Action>)
      modifies registry, cell, rx
      ensures (Abs(), rx.pending) == ActAll(old(Abs()), old(rx.pending), acts)
    {
      var k := 0;
      while k < |acts|
        invariant 0 <= k <= |acts|
        invariant (Abs(), rx.pending) == ActAll(old(Abs()), old(rx.pending), acts[..k])
      {
        assert acts[..k + 1][..k] == acts[..k];
        Perform(acts[k]);
        k := k + 1;
      }
      assert acts[..k] == acts;
    }
  }

  /** The arrivals from step `i` on. */
  function Later(arrivals: seq<seq<Action>>, i: nat): (r: seq<seq<Action>>)
    ensures |r| == if i < |arrivals| then |arrivals| - i else 0
    ensures forall k :: 0 <= k < |r| ==> r[k] == arrivals[i + k]
  {
    if i < |arrivals| then arrivals[i..] else []
  }

  /** Step `i` of a pass, taken from the arrivals left at that step. */
  lemma {:induction false} PassUnfold(o: Orch, ids: seq<string>, arrivals: seq<seq<Action>>, i: nat, now: nat,
                     live: string -> seq<Window>, spawn: nat -> bool, run: (Agent, nat) -> TickResult)
    requires i < |ids|
    ensures var acted := ActAll(o, [], if i < |arrivals| then arrivals[i] else []);
      var s := PassStep(acted.0, acted.1, ids[i], now, live, spawn, run);
      Pass(o, ids[i..], Later(arrivals, i), now, live, spawn, run)
      == if s.1 == Quitted then Iterated(s.0, false, s.2)
         else if s.1 == Aborted then Iterated(s.0, true, [])
         else Pass(s.0, ids[i + 1..], Later(arrivals, i + 1), now, live, spawn, run)
  {
    assert ids[i..][1..] == ids[i + 1..];
    var l := Later(arrivals, i);
    if l != [] {
      assert l[1..] == Later(arrivals, i + 1);
    }
  }

  /** The push loop of `Toggle`: append an instance for every live window not yet represented. */
  method PushMissing(name: string, kept: seq<Instance>, ws: seq<Window>) returns (insts: seq<Instance>)
    ensures insts == AddMissing(name, kept, ws)
  {
    insts := kept;
    var k := 0;
    while k < |ws|
      invariant 0 <= k <= |ws|
      invariant insts == AddMissing(name, kept, ws[..k])
    {
      assert ws[..k + 1][..k] == ws[..k];
      if ws[k].id !in InstanceWindowIds(insts) {
        insts := insts + [NewInstance(name, ws[k].id, ws[k].title)];
      }
      k := k + 1;
    }
    assert ws[..k] == ws;
  }

  /** The retain loop's effect grows by one instance per step. */
  lemma {:induction false} RetainStep(insts: seq<Instance>, i: nat, ws: seq<Window>)
    requires i < |insts|
    ensures Survivors(insts[..i + 1], ws)
         == Survivors(insts[..i], ws) + (if Alive(insts[i], ws) then [insts[i]] else [])
    ensures DeadIds(insts[..i + 1], ws)
         == DeadIds(insts[..i], ws) + (if Alive(insts[i], ws) then {} else {insts[i].id})
  {
    assert insts[..i + 1][..i] == insts[..i];
  }

  lemma {:induction false} MapMinusTwice<K, V>(m: map<K, V>, a: set<K>, k: K)
    ensures m - a - {k} == m - (a + {k})
  {
  }

  lemma {:induction false} MapMinusBoth<K, V>(m: map<K, V>, a: set<K>, b: set<K>)
    ensures m - a - b == m - (a + b)
  {
  }

  /** Reconciling entry `j` extends the reconciled prefix by one. */
  lemma {:induction false} ReconcileStep(es0: seq<BotEntry>, j: nat, live: string -> seq<Window>)
    requires j < |es0|
    ensures (ReconcileEntries(es0[..j], live) + es0[j..])[j := ReconcileEntry(es0[j], live(es0[j].windowPattern))]
         == ReconcileEntries(es0[..j + 1], live) + es0[j + 1..]
    ensures DeadIdsAll(es0[..j + 1], live) == DeadIdsAll(es0[..j], live) + DeadIds(es0[j].instances, live(es0[j].windowPattern))
    ensures (ReconcileEntries(es0[..j], live) + es0[j..])[j] == es0[j]
  {
    assert es0[..j + 1][..j] == es0[..j];
    var pre := ReconcileEntries(es0[..j], live);
    assert |pre| == j;
    assert (pre + es0[j..])[j] == es0[j];
  }

  /** A position with the id and none before it is what `Locate` finds. */
  lemma {:induction false} LocateFirst(es: seq<BotEntry>, id: string, j: nat, k: nat)
    requires j < |es| && k < |es[j].instances| && es[j].instances[k].id == id
    requires NoneBefore(es, id, j, k)
    ensures Locate(es, id) == Some((j, k))
  {
    var r := Locate(es, id);
    if r.None? {
      assert false;
    } else if r.value.0 < j || (r.value.0 == j && r.value.1 < k) {
      assert false;
    } else if r.value.0 > j || (r.value.0 == j && r.value.1 > k) {
      assert false;
    }
  }

  lemma {:induction false} LocateNone(es: seq<BotEntry>, id: string)
    requires forall j, k :: 0 <= j < |es| && 0 <= k < |es[j].instances| ==> es[j].instances[k].id != id
    ensures Locate(es, id) == None
  {
  }
}
