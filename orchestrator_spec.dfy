/**
 * The orchestrator's behaviour as functions on its whole state
 * (crates/core/src/orchestrator.rs): the bot registry, the agent map keyed by
 * instance id, the cooldown map and the run-state cell. The class in
 * orchestrator.dfy is proved to change its fields exactly as these functions
 * say; the lemmas here state what the functions promise.
 *
 * Agents (the Lua runtime) are abstract. Creating one may fail: the oracle
 * `spawn` decides, from the number of creation attempts so far. `tick` is the
 * oracle `run`, which sees the agent (active) and the clock.
 */
module OrchestratorSpec {
  import opened Wrappers
  import opened Types
  import opened Reconcile
  import App

  /**
   * A running agent: the instance it serves, the window handle it was given,
   * the script it runs, the creation attempt that made it (`serial`), how often
   * it was reset, and the `set_active` flag.
   */
  datatype Agent = Agent(
    instanceId: string,
    windowId: WindowId,
    pattern: string,
    script: Path,
    serial: nat,
    resets: nat,
    active: bool)

  /** What `tick` and the `get_status` that follows it return. */
  datatype TickResult = TickResult(tick: Result<Option<nat>, string>, status: Result<string, string>)

  /** The orchestrator's state: registry, agents, cooldown deadlines, run state. */
  datatype Orch = Orch(
    entries: seq<BotEntry>,
    bots: map<string, Agent>,
    cooldowns: map<string, nat>,
    state: RunState,
    attempts: nat)

  /** Outcome of draining the command queue. */
  datatype Drained = Drained(after: Orch, keepGoing: bool, unprocessed: seq<Command>)

  /** Outcome of one iteration of the main loop. */
  datatype Iterated = Iterated(after: Orch, keepGoing: bool, unprocessed: seq<Command>)

  /** The cooldown applied when `tick` gives no value or fails, in milliseconds. */
  const DefaultCooldown: nat := 5000

  /**
   * Every agent sits under its own instance id, is inactive between dispatches,
   * was made by an earlier creation attempt, and no two ids share an agent.
   */
  predicate AgentsWF(o: Orch) {
    && (forall k :: k in o.bots ==> o.bots[k].instanceId == k && o.bots[k].serial < o.attempts && !o.bots[k].active)
    && (forall k1, k2 :: k1 in o.bots && k2 in o.bots && k1 != k2 ==> o.bots[k1].serial != o.bots[k2].serial)
  }

  /** Ids of all instances of all entries. */
  function AllIds(es: seq<BotEntry>): set<string> {
    set j, k | 0 <= j < |es| && 0 <= k < |es[j].instances| :: es[j].instances[k].id
  }

  /** Ids of the instances of the enabled entries. */
  function EnabledIds(es: seq<BotEntry>): set<string> {
    set j, k | 0 <= j < |es| && es[j].enabled && 0 <= k < |es[j].instances| :: es[j].instances[k].id
  }

  // ---------------------------------------------------------------------------
  // Agent creation and removal

  function NewAgent(e: BotEntry, inst: Instance, serial: nat): Agent {
    Agent(inst.id, inst.windowId, e.windowPattern, e.scriptPath, serial, 0, false)
  }

  /** `LuaBot::new(...)`, inserted under the instance id on success. */
  function Spawn(o: Orch, e: BotEntry, inst: Instance, spawn: nat -> bool): (r: Orch)
    ensures r.entries == o.entries && r.cooldowns == o.cooldowns && r.state == o.state
    ensures r.attempts == o.attempts + 1
    ensures forall k :: k != inst.id ==> (k in r.bots <==> k in o.bots)
    ensures forall k :: k != inst.id && k in o.bots ==> r.bots[k] == o.bots[k]
    ensures inst.id in r.bots <==> spawn(o.attempts) || inst.id in o.bots
    ensures inst.id in r.bots && spawn(o.attempts) ==> r.bots[inst.id] == NewAgent(e, inst, o.attempts)
    ensures inst.id in r.bots && !spawn(o.attempts) ==> r.bots[inst.id] == o.bots[inst.id]
    ensures AgentsWF(o) ==> AgentsWF(r)
  {
    var r := o.(attempts := o.attempts + 1);
    if spawn(o.attempts) then r.(bots := o.bots[inst.id := NewAgent(e, inst, o.attempts)]) else r
  }

  /** `bots.remove(id)` (stopping the agent) and `cooldowns.remove(id)`. */
  function Forget(o: Orch, id: string): (r: Orch)
    ensures AgentsWF(o) ==> AgentsWF(r)
  {
    o.(bots := o.bots - {id}, cooldowns := o.cooldowns - {id})
  }

  /** `bots.get(id).reset()`. */
  function Reset(o: Orch, id: string): (r: Orch)
    requires id in o.bots
    ensures r.entries == o.entries && r.cooldowns == o.cooldowns && r.state == o.state && r.attempts == o.attempts
    ensures r.bots.Keys == o.bots.Keys
    ensures forall k :: k in o.bots && k != id ==> r.bots[k] == o.bots[k]
    ensures r.bots[id].serial == o.bots[id].serial && r.bots[id].resets == o.bots[id].resets + 1
    ensures AgentsWF(o) ==> AgentsWF(r)
  {
    o.(bots := o.bots[id := o.bots[id].(resets := o.bots[id].resets + 1)])
  }

  /**
   * The loop of a `Toggle` of an enabled entry while running: existing agents
   * are reset, missing ones are created.
   */
  function ResetOrStart(o: Orch, e: BotEntry, insts: seq<Instance>, spawn: nat -> bool): (r: Orch)
    ensures r.entries == o.entries && r.cooldowns == o.cooldowns && r.state == o.state
    ensures r.attempts >= o.attempts
    ensures forall k :: k in o.bots ==> k in r.bots && r.bots[k].serial == o.bots[k].serial
    ensures forall k :: k in o.bots && k in InstanceIds(insts) ==> r.bots[k].resets > o.bots[k].resets
    ensures forall k :: k in r.bots && k !in InstanceIds(insts) ==> k in o.bots && r.bots[k] == o.bots[k]
    ensures forall k :: k in r.bots && k !in o.bots ==> o.attempts <= r.bots[k].serial
    ensures (forall n :: spawn(n)) ==> InstanceIds(insts) <= r.bots.Keys
    ensures AgentsWF(o) ==> AgentsWF(r)
  {
    if insts == [] then o
    else
      var last := insts[|insts| - 1];
      assert InstanceIds(insts) == InstanceIds(insts[..|insts| - 1]) + {last.id} by {
        assert insts == insts[..|insts| - 1] + [last];
      }
      var p := ResetOrStart(o, e, insts[..|insts| - 1], spawn);
      if last.id in p.bots then Reset(p, last.id) else Spawn(p, e, last, spawn)
  }

  /** One more instance: its agent is reset when it exists, created otherwise. */
  lemma {:induction false} ResetOrStartPrefix(o: Orch, e: BotEntry, insts: seq<Instance>, i: nat, spawn: nat -> bool, p: Orch, q: Orch)
    requires i < |insts| && p == ResetOrStart(o, e, insts[..i], spawn)
    requires q == if insts[i].id in p.bots then Reset(p, insts[i].id) else Spawn(p, e, insts[i], spawn)
    ensures q == ResetOrStart(o, e, insts[..i + 1], spawn)
  {
    assert insts[..i + 1][..i] == insts[..i];
  }

  /** The loop of `StartStop` for one enabled entry: create the missing agents only. */
  function StartMissing(o: Orch, e: BotEntry, insts: seq<Instance>, spawn: nat -> bool): (r: Orch)
    ensures r.entries == o.entries && r.cooldowns == o.cooldowns && r.state == o.state
    ensures r.attempts >= o.attempts
    ensures forall k :: k in o.bots ==> k in r.bots && r.bots[k] == o.bots[k]
    ensures forall k :: k in r.bots && k !in o.bots ==> k in InstanceIds(insts) && o.attempts <= r.bots[k].serial
    ensures (forall n :: spawn(n)) ==> InstanceIds(insts) <= r.bots.Keys
    ensures AgentsWF(o) ==> AgentsWF(r)
  {
    if insts == [] then o
    else
      var last := insts[|insts| - 1];
      assert InstanceIds(insts) == InstanceIds(insts[..|insts| - 1]) + {last.id} by {
        assert insts == insts[..|insts| - 1] + [last];
      }
      var p := StartMissing(o, e, insts[..|insts| - 1], spawn);
      if last.id in p.bots then p else Spawn(p, e, last, spawn)
  }

  /** The loop of a `Toggle` of a disabled entry: remove each instance's agent and cooldown. */
  function StopInstances(o: Orch, insts: seq<Instance>): (r: Orch)
    ensures r.entries == o.entries && r.state == o.state && r.attempts == o.attempts
    ensures r.bots == o.bots - InstanceIds(insts)
    ensures r.cooldowns == o.cooldowns - InstanceIds(insts)
    ensures AgentsWF(o) ==> AgentsWF(r)
  {
    if insts == [] then o
    else
      var last := insts[|insts| - 1];
      assert InstanceIds(insts) == InstanceIds(insts[..|insts| - 1]) + {last.id} by {
        assert insts == insts[..|insts| - 1] + [last];
      }
      Forget(StopInstances(o, insts[..|insts| - 1]), last.id)
  }

  /** The loop of `Restart`: every instance's agent is replaced and its cooldown erased. */
  function RestartInstances(o: Orch, e: BotEntry, insts: seq<Instance>, spawn: nat -> bool): (r: Orch)
    ensures r.entries == o.entries && r.state == o.state && r.attempts == o.attempts + |insts|
    ensures r.cooldowns == o.cooldowns - InstanceIds(insts)
    ensures forall k :: k !in InstanceIds(insts) ==> (k in r.bots <==> k in o.bots)
    ensures forall k :: k !in InstanceIds(insts) && k in o.bots ==> r.bots[k] == o.bots[k]
    ensures forall k :: k in InstanceIds(insts) && k in r.bots ==> o.attempts <= r.bots[k].serial
    ensures (forall n :: spawn(n)) ==> InstanceIds(insts) <= r.bots.Keys
    ensures AgentsWF(o) ==> AgentsWF(r)
  {
    if insts == [] then o
    else
      var last := insts[|insts| - 1];
      assert InstanceIds(insts) == InstanceIds(insts[..|insts| - 1]) + {last.id} by {
        assert insts == insts[..|insts| - 1] + [last];
      }
      Spawn(Forget(RestartInstances(o, e, insts[..|insts| - 1], spawn), last.id), e, last, spawn)
  }

  /** The `StartStop` loop over the registry: missing agents of enabled entries are created. */
  function StartEnabled(o: Orch, es: seq<BotEntry>, spawn: nat -> bool): (r: Orch)
    ensures r.entries == o.entries && r.cooldowns == o.cooldowns && r.state == o.state
    ensures r.attempts >= o.attempts
    ensures forall k :: k in o.bots ==> k in r.bots && r.bots[k] == o.bots[k]
    ensures forall k :: k in r.bots && k !in o.bots ==> k in EnabledIds(es) && o.attempts <= r.bots[k].serial
    ensures (forall n :: spawn(n)) ==> EnabledIds(es) <= r.bots.Keys
    ensures AgentsWF(o) ==> AgentsWF(r)
  {
    if es == [] then o
    else
      var init := es[..|es| - 1];
      var last := es[|es| - 1];
      assert EnabledIds(es) == EnabledIds(init) + (if last.enabled then InstanceIds(last.instances) else {}) by {
        EnabledIdsSnoc(init, last);
        assert es == init + [last];
      }
      var p := StartEnabled(o, init, spawn);
      if last.enabled then StartMissing(p, last, last.instances, spawn) else p
  }

  /** One more entry: its missing agents are created when it is enabled. */
  lemma {:induction false} StartEnabledPrefix(o: Orch, es: seq<BotEntry>, j: nat, spawn: nat -> bool)
    requires j < |es|
    ensures var p := StartEnabled(o, es[..j], spawn);
      StartEnabled(o, es[..j + 1], spawn) == if es[j].enabled then StartMissing(p, es[j], es[j].instances, spawn) else p
  {
    assert es[..j + 1][..j] == es[..j];
  }

  lemma {:induction false} EnabledIdsSnoc(es: seq<BotEntry>, e: BotEntry)
    ensures EnabledIds(es + [e]) == EnabledIds(es) + (if e.enabled then InstanceIds(e.instances) else {})
  {
    var s := es + [e];
    forall id | id in EnabledIds(s)
      ensures id in EnabledIds(es) + (if e.enabled then InstanceIds(e.instances) else {})
    {
      var j, k :| 0 <= j < |s| && s[j].enabled && 0 <= k < |s[j].instances| && s[j].instances[k].id == id;
      if j < |es| {
        assert es[j] == s[j];
      } else {
        assert s[j].instances[k] in e.instances;
      }
    }
    forall id | id in EnabledIds(es) + (if e.enabled then InstanceIds(e.instances) else {})
      ensures id in EnabledIds(s)
    {
      if id in EnabledIds(es) {
        var j, k :| 0 <= j < |es| && es[j].enabled && 0 <= k < |es[j].instances| && es[j].instances[k].id == id;
        assert s[j] == es[j];
      } else {
        var i :| i in e.instances && i.id == id;
        var k :| 0 <= k < |e.instances| && e.instances[k] == i;
        assert s[|es|] == e;
      }
    }
  }

  // ---------------------------------------------------------------------------
  // Commands

  /** The reconcile that opens every `Toggle`: all entries, and the maps of dead instances. */
  function ReconcileAll(o: Orch, live: string -> seq<Window>): (r: Orch)
    ensures r.state == o.state && r.attempts == o.attempts
    ensures r.entries == ReconcileEntries(o.entries, live)
    ensures r.bots.Keys <= o.bots.Keys && r.cooldowns.Keys <= o.cooldowns.Keys
    ensures AgentsWF(o) ==> AgentsWF(r)
  {
    var dead := DeadIdsAll(o.entries, live);
    o.(entries := ReconcileEntries(o.entries, live), bots := o.bots - dead, cooldowns := o.cooldowns - dead)
  }

  function ApplyToggle(o: Orch, idx: nat, live: string -> seq<Window>, spawn: nat -> bool): (r: Orch)
    ensures r.state == o.state && r.entries == ReconcileEntries(o.entries, live)
    ensures AgentsWF(o) ==> AgentsWF(r)
  {
    var p := ReconcileAll(o, live);
    if idx >= |p.entries| then p
    else
      var e := p.entries[idx];
      if e.enabled && p.state == Running then ResetOrStart(p, e, e.instances, spawn)
      else if !e.enabled then StopInstances(p, e.instances)
      else p
  }

  function ApplyStartStop(o: Orch, spawn: nat -> bool): (r: Orch)
    ensures r.state == o.state && r.entries == o.entries
    ensures AgentsWF(o) ==> AgentsWF(r)
  {
    if o.state == Running then StartEnabled(o, o.entries, spawn) else o
  }

  function ApplyRestart(o: Orch, idx: nat, spawn: nat -> bool): (r: Orch)
    ensures r.state == o.state && r.entries == o.entries
    ensures AgentsWF(o) ==> AgentsWF(r)
  {
    if o.state != Running || idx >= |o.entries| || !o.entries[idx].enabled then o
    else RestartInstances(o, o.entries[idx], o.entries[idx].instances, spawn)
  }

  /** Every agent stopped, every cooldown cleared, state `Stopped` (`Quit` and the `Stopping` teardown). */
  function StopAll(o: Orch): (r: Orch)
    ensures r.bots == map[] && r.cooldowns == map[] && r.state == Stopped
    ensures r.entries == o.entries && AgentsWF(r)
  {
    o.(bots := map[], cooldowns := map[], state := Stopped)
  }

  /** `process_commands`: commands run in order until the queue is empty or a `Quit` is met. */
  function Drain(o: Orch, q: seq<Command>, live: string -> seq<Window>, spawn: nat -> bool): (d: Drained)
    ensures d.keepGoing ==> d.unprocessed == []
    ensures !d.keepGoing ==> d.after.bots == map[] && d.after.cooldowns == map[] && d.after.state == Stopped
    ensures AgentsWF(o) ==> AgentsWF(d.after)
    decreases |q|
  {
    if q == [] then Drained(o, true, [])
    else
      match q[0]
      case Quit => Drained(StopAll(o), false, q[1..])
      case Toggle(idx) => Drain(ApplyToggle(o, idx, live, spawn), q[1..], live, spawn)
      case StartStop => Drain(ApplyStartStop(o, spawn), q[1..], live, spawn)
      case Restart(idx) => Drain(ApplyRestart(o, idx, spawn), q[1..], live, spawn)
  }

  // ---------------------------------------------------------------------------
  // One scheduling pass

  predicate Eligible(id: string, o: Orch, now: nat) {
    id in o.bots && (id !in o.cooldowns || o.cooldowns[id] <= now)
  }

  /** Eligible ids among some instances, in order. */
  function ReadyIn(insts: seq<Instance>, o: Orch, now: nat): seq<string>
  {
    if insts == [] then []
    else
      var last := insts[|insts| - 1];
      ReadyIn(insts[..|insts| - 1], o, now) + (if Eligible(last.id, o, now) then [last.id] else [])
  }

  /** The `ready` snapshot: eligible ids of enabled entries' instances, in entry then instance order. */
  function Ready(es: seq<BotEntry>, o: Orch, now: nat): seq<string>
  {
    if es == [] then []
    else
      var last := es[|es| - 1];
      Ready(es[..|es| - 1], o, now) + (if last.enabled then ReadyIn(last.instances, o, now) else [])
  }

  /** Position (entry, instance) of the first instance with the id, in registry order. */
  function LocateIn(insts: seq<Instance>, id: string): (r: Option<nat>)
    ensures r.Some? ==> r.value < |insts| && insts[r.value].id == id
    ensures r.Some? ==> forall k :: 0 <= k < r.value ==> insts[k].id != id
    ensures r.None? ==> forall k :: 0 <= k < |insts| ==> insts[k].id != id
  {
    if insts == [] then None
    else if insts[0].id == id then Some(0)
    else
      match LocateIn(insts[1..], id)
      case None => None
      case Some(k) => Some(k + 1)
  }

  /** No instance before position (j, k) carries the id. */
  predicate NoneBefore(es: seq<BotEntry>, id: string, j: nat, k: nat)
    requires j < |es|
  {
    && (forall j', k' :: 0 <= j' < j && 0 <= k' < |es[j'].instances| ==> es[j'].instances[k'].id != id)
    && (forall k' :: 0 <= k' < k && k' < |es[j].instances| ==> es[j].instances[k'].id != id)
  }

  function Locate(es: seq<BotEntry>, id: string): (r: Option<(nat, nat)>)
    ensures r.Some? ==> r.value.0 < |es| && r.value.1 < |es[r.value.0].instances|
    ensures r.Some? ==> es[r.value.0].instances[r.value.1].id == id && NoneBefore(es, id, r.value.0, r.value.1)
    ensures r.None? ==> forall j, k :: 0 <= j < |es| && 0 <= k < |es[j].instances| ==> es[j].instances[k].id != id
  {
    if es == [] then None
    else
      match LocateIn(es[0].instances, id)
      case Some(k) => Some((0, k))
      case None =>
        match Locate(es[1..], id)
        case None => None
        case Some(p) =>
          assert forall j' :: 1 <= j' <= p.0 ==> es[j'] == es[1..][j' - 1];
          Some((p.0 + 1, p.1))
  }

  /** `inst.status = status; inst.error = err` on the first instance with the id, if any. */
  function WriteBack(es: seq<BotEntry>, id: string, status: string, err: Option<string>): (r: seq<BotEntry>)
    ensures |r| == |es|
    ensures forall j :: 0 <= j < |es| ==>
      |r[j].instances| == |es[j].instances| && r[j] == es[j].(instances := r[j].instances)
    ensures forall j, k :: 0 <= j < |es| && 0 <= k < |es[j].instances| && Locate(es, id) != Some((j, k)) ==>
      r[j].instances[k] == es[j].instances[k]
    ensures Locate(es, id).Some? ==>
      var j, k := Locate(es, id).value.0, Locate(es, id).value.1;
      r[j].instances[k] == es[j].instances[k].(status := status, error := err)
  {
    match Locate(es, id)
    case None => es
    case Some((j, k)) =>
      var inst := es[j].instances[k];
      es[j := es[j].(instances := es[j].instances[k := inst.(status := status, error := err)])]
  }

  /** The cooldown a tick result asks for. */
  function CooldownOf(t: Result<Option<nat>, string>): nat {
    match t
    case Ok(Some(ms)) => ms
    case _ => DefaultCooldown
  }

  /** The status written back: `get_status()` after a successful tick, else nothing. */
  function StatusOf(res: TickResult): Option<string> {
    if res.tick.Ok? then res.status.ToOption() else None
  }

  function ErrorOf(res: TickResult): Option<string> {
    if res.tick.Err? then Some(res.tick.error) else None
  }

  /** One dispatch: activate, tick, deactivate, schedule, write back. */
  function Dispatch(o: Orch, id: string, now: nat, run: (Agent, nat) -> TickResult): (r: Orch)
    requires id in o.bots
    ensures r.state == o.state && r.attempts == o.attempts && r.bots.Keys == o.bots.Keys
    ensures AgentsWF(o) ==> AgentsWF(r)
  {
    var a := o.bots[id].(active := true);
    var res := run(a, now);
    o.(bots := o.bots[id := a.(active := false)],
       cooldowns := o.cooldowns[id := now + CooldownOf(res.tick)],
       entries := WriteBack(o.entries, id, StatusOf(res).UnwrapOr(""), ErrorOf(res)))
  }

  /** A state whose parts are those one dispatch leaves is that dispatch's result. */
  lemma {:induction false} DispatchParts(o: Orch, id: string, now: nat, run: (Agent, nat) -> TickResult, p: Orch)
    requires id in o.bots
    requires var res := run(o.bots[id].(active := true), now);
      && p.bots == o.bots[id := o.bots[id].(active := false)]
      && p.cooldowns == o.cooldowns[id := now + CooldownOf(res.tick)]
      && p.entries == WriteBack(o.entries, id, StatusOf(res).UnwrapOr(""), ErrorOf(res))
      && p.state == o.state && p.attempts == o.attempts
    ensures p == Dispatch(o, id, now, run)
  {
  }

  /**
   * The ready ids dispatched in order, with no command arriving meanwhile; an
   * id whose agent is gone is skipped.
   */
  function DispatchAll(o: Orch, ids: seq<string>, now: nat, run: (Agent, nat) -> TickResult): (r: Orch)
    ensures r.state == o.state && r.attempts == o.attempts && r.bots.Keys == o.bots.Keys
    ensures AgentsWF(o) ==> AgentsWF(r)
    decreases |ids|
  {
    if ids == [] then o
    else
      var id := ids[0];
      var p := if id in o.bots then Dispatch(o, id, now, run) else o;
      DispatchAll(p, ids[1..], now, run)
  }

  /** Outcome of one step of the dispatch loop. */
  datatype StepOutcome = Quitted | Aborted | Continued

  /**
   * One step of the dispatch loop for `id`: drain the queue (stop on `Quit`),
   * leave the pass when the state is no longer `Running`, skip an id whose
   * agent is gone, else dispatch it.
   */
  function PassStep(o: Orch, q: seq<Command>, id: string, now: nat,
                    live: string -> seq<Window>, spawn: nat -> bool, run: (Agent, nat) -> TickResult): (r: (Orch, StepOutcome, seq<Command>))
    ensures AgentsWF(o) ==> AgentsWF(r.0)
  {
    var d := Drain(o, q, live, spawn);
    if !d.keepGoing then (d.after, Quitted, d.unprocessed)
    else if d.after.state != Running then (d.after, Aborted, [])
    else if id !in d.after.bots then (d.after, Continued, [])
    else (Dispatch(d.after, id, now, run), Continued, [])
  }

  /**
   * What the control surface can do while an agent ticks. Each action first
   * writes the shared state, as crates/tui/src/app.rs does under its lock,
   * and then queues its command.
   */
  datatype Action =
    | ToggleEntry(index: nat)  // `toggle_selected`
    | PressStartStop           // `start_stop`
    | RestartEntry(index: nat) // `restart_selected`
    | PressQuit                // `quit`

  /** The effect of one action on the shared state and the command queue. */
  function Act(o: Orch, q: seq<Command>, a: Action): (r: (Orch, seq<Command>))
    ensures r.0.bots == o.bots && r.0.cooldowns == o.cooldowns && r.0.attempts == o.attempts
    ensures |q| <= |r.1| <= |q| + 1 && r.1[..|q|] == q
    ensures Quit in r.1 <==> Quit in q || a == PressQuit
    ensures !a.PressStartStop? ==> r.0.state == o.state
  {
    match a
    case ToggleEntry(i) => (o.(entries := App.Flipped(o.entries, i)), q + [Toggle(i)])
    case PressStartStop =>
      (match App.StartStopNext(o.state)
       case None => (o, q)
       case Some(next) => (o.(state := next), q + [StartStop]))
    case RestartEntry(i) => (o, q + [Restart(i)])
    case PressQuit => (o, q + [Quit])
  }

  /** Several actions in order. */
  function ActAll(o: Orch, q: seq<Command>, acts: seq<Action>): (r: (Orch, seq<Command>))
    ensures r.0.bots == o.bots && r.0.cooldowns == o.cooldowns && r.0.attempts == o.attempts
    ensures |q| <= |r.1| && r.1[..|q|] == q
    ensures Quit in r.1 <==> Quit in q || PressQuit in acts
    decreases |acts|
  {
    if acts == [] then (o, q)
    else
      var before := ActAll(o, q, acts[..|acts| - 1]);
      Act(before.0, before.1, acts[|acts| - 1])
  }

  /**
   * The dispatch loop of one pass over `ids`. Before step k the actions
   * `arrivals[k]` have happened: the control surface's writes and commands
   * while the previous agent ticked (none once `arrivals` runs out). A `Quit`
   * ends the loop and `orchestrate`; a state other than `Running` ends the
   * pass.
   */
  function Pass(o: Orch, ids: seq<string>, arrivals: seq<seq<Action>>, now: nat,
                live: string -> seq<Window>, spawn: nat -> bool, run: (Agent, nat) -> TickResult): (r: Iterated)
    ensures AgentsWF(o) ==> AgentsWF(r.after)
    ensures r.keepGoing ==> r.unprocessed == []
    decreases |ids|
  {
    if ids == [] then Iterated(o, true, [])
    else
      var acted := ActAll(o, [], if arrivals == [] then [] else arrivals[0]);
      var s := PassStep(acted.0, acted.1, ids[0], now, live, spawn, run);
      if s.1 == Quitted then Iterated(s.0, false, s.2)
      else if s.1 == Aborted then Iterated(s.0, true, [])
      else Pass(s.0, ids[1..], if arrivals == [] then [] else arrivals[1..], now, live, spawn, run)
  }

  /**
   * One iteration of the `orchestrate` loop with the clock at `now`: drain the
   * queue `q`, tear down a stop in progress, and otherwise run one pass over
   * the ready snapshot, with the control surface's `arrivals` between its
   * steps.
   */
  function Iterate(o: Orch, q: seq<Command>, arrivals: seq<seq<Action>>, now: nat,
                   live: string -> seq<Window>, spawn: nat -> bool, run: (Agent, nat) -> TickResult): (r: Iterated)
    ensures AgentsWF(o) ==> AgentsWF(r.after)
  {
    var d := Drain(o, q, live, spawn);
    if !d.keepGoing then Iterated(d.after, false, d.unprocessed)
    else if d.after.state == Stopping then Iterated(StopAll(d.after), true, [])
    else if d.after.state != Running then Iterated(d.after, true, [])
    else
      var p := d.after;
      Pass(p, Ready(p.entries, p, now), arrivals, now, live, spawn, run)
  }
}
