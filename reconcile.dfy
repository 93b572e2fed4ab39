/**
 * Reconciliation of an entry's instances with the platform's live window list,
 * as the `Toggle` command performs it for every entry
 * (crates/core/src/orchestrator.rs:109-124): instances of vanished windows are
 * dropped (their agents stopped and cooldowns erased), survivors keep their
 * fields and order, and each live window not yet represented is appended once.
 *
 * The functions recurse on the last element so that the loops of the
 * orchestrator class can be proved against them prefix by prefix.
 */
module Reconcile {
  import opened Wrappers
  import opened Types

  /** Window ids of a live window list. */
  function WindowIds(ws: seq<Window>): set<WindowId> {
    set w | w in ws :: w.id
  }

  /** Window ids already represented by instances. */
  function InstanceWindowIds(insts: seq<Instance>): set<WindowId> {
    set i | i in insts :: i.windowId
  }

  /** Instance ids of a list of instances. */
  function InstanceIds(insts: seq<Instance>): set<string> {
    set i | i in insts :: i.id
  }

  /** No two instances are bound to the same window. */
  predicate DistinctWindows(insts: seq<Instance>) {
    forall k, m :: 0 <= k < m < |insts| ==> insts[k].windowId != insts[m].windowId
  }

  predicate Alive(i: Instance, ws: seq<Window>) {
    i.windowId in WindowIds(ws)
  }

  /** `instances.retain(alive)`: the instances whose window is still live, in order. */
  function Survivors(insts: seq<Instance>, ws: seq<Window>): (r: seq<Instance>)
    ensures forall i :: i in r <==> i in insts && Alive(i, ws)
    ensures |r| <= |insts|
  {
    if insts == [] then []
    else
      var init := Survivors(insts[..|insts| - 1], ws);
      var last := insts[|insts| - 1];
      assert insts == insts[..|insts| - 1] + [last];
      if Alive(last, ws) then init + [last] else init
  }

  /** Ids whose agent the retain closure stops and whose cooldown it erases. */
  function DeadIds(insts: seq<Instance>, ws: seq<Window>): (r: set<string>)
    ensures forall id :: id in r <==> exists i :: i in insts && !Alive(i, ws) && i.id == id
  {
    if insts == [] then {}
    else
      var last := insts[|insts| - 1];
      assert insts == insts[..|insts| - 1] + [last];
      DeadIds(insts[..|insts| - 1], ws) + (if Alive(last, ws) then {} else {last.id})
  }

  /** The push loop: each live window not yet represented becomes a new instance. */
  function AddMissing(name: string, insts: seq<Instance>, ws: seq<Window>): seq<Instance>
  {
    if ws == [] then insts
    else
      var prev := AddMissing(name, insts, ws[..|ws| - 1]);
      var w := ws[|ws| - 1];
      if w.id in InstanceWindowIds(prev) then prev else prev + [NewInstance(name, w.id, w.title)]
  }

  /** One entry's reconcile step. */
  function ReconcileEntry(e: BotEntry, ws: seq<Window>): BotEntry {
    e.(instances := AddMissing(e.name, Survivors(e.instances, ws), ws))
  }

  /** Every entry reconciled against the windows its own pattern matches. */
  function ReconcileEntries(es: seq<BotEntry>, live: string -> seq<Window>): (r: seq<BotEntry>)
    ensures |r| == |es|
    ensures forall j :: 0 <= j < |es| ==> r[j] == ReconcileEntry(es[j], live(es[j].windowPattern))
  {
    if es == [] then []
    else
      var last := es[|es| - 1];
      ReconcileEntries(es[..|es| - 1], live) + [ReconcileEntry(last, live(last.windowPattern))]
  }

  /** All ids the reconcile of every entry removes from the agent and cooldown maps. */
  function DeadIdsAll(es: seq<BotEntry>, live: string -> seq<Window>): set<string>
  {
    if es == [] then {}
    else
      var last := es[|es| - 1];
      DeadIdsAll(es[..|es| - 1], live) + DeadIds(last.instances, live(last.windowPattern))
  }

  /** An id is removed exactly when some entry held it for a window that vanished. */
  lemma {:induction false} DeadIdsAllMembers(es: seq<BotEntry>, live: string -> seq<Window>, id: string)
    ensures id in DeadIdsAll(es, live) <==>
      exists j :: 0 <= j < |es| && id in DeadIds(es[j].instances, live(es[j].windowPattern))
  {
    if es != [] {
      var init := es[..|es| - 1];
      var n := |es| - 1;
      DeadIdsAllMembers(init, live, id);
      if id in DeadIdsAll(es, live) {
        if id in DeadIds(es[n].instances, live(es[n].windowPattern)) {
        } else {
          var j :| 0 <= j < |init| && id in DeadIds(init[j].instances, live(init[j].windowPattern));
          assert init[j] == es[j];
        }
      }
      if exists j :: 0 <= j < |es| && id in DeadIds(es[j].instances, live(es[j].windowPattern)) {
        var j :| 0 <= j < |es| && id in DeadIds(es[j].instances, live(es[j].windowPattern));
        if j < n {
          assert init[j] == es[j];
        }
      }
    }
  }

  // ---------------------------------------------------------------------------
  // What the push loop adds

  /** The existing instances stay in front, unchanged and in order. */
  lemma {:induction false} AddMissingPrefix(name: string, insts: seq<Instance>, ws: seq<Window>)
    ensures var r := AddMissing(name, insts, ws);
      |insts| <= |r| && r[..|insts|] == insts
  {
    if ws != [] {
      AddMissingPrefix(name, insts, ws[..|ws| - 1]);
    }
  }

  /**
   * Afterwards every live window is represented, every appended instance is a
   * fresh one (empty status, no error) for a live window that had none, and the
   * appended instances are for pairwise distinct windows.
   */
  lemma {:induction false} AddMissingAdded(name: string, insts: seq<Instance>, ws: seq<Window>)
    ensures var r := AddMissing(name, insts, ws);
      && WindowIds(ws) <= InstanceWindowIds(r)
      && InstanceWindowIds(r) == InstanceWindowIds(insts) + WindowIds(ws)
      && AppendedFresh(name, insts, ws, r)
      && DistinctFrom(r, |insts|)
  {
    AddMissingIds(name, insts, ws);
    AddMissingFresh(name, insts, ws);
    AddMissingAppendedDistinct(name, insts, ws);
  }

  /** Every instance of `r` past those of `insts` is a fresh one for a window of `ws` that `insts` did not hold. */
  predicate AppendedFresh(name: string, insts: seq<Instance>, ws: seq<Window>, r: seq<Instance>) {
    forall k :: |insts| <= k < |r| ==> FreshFor(name, insts, ws, r[k])
  }

  /** `i` is a new instance for a window of `ws` that `insts` did not hold. */
  predicate FreshFor(name: string, insts: seq<Instance>, ws: seq<Window>, i: Instance) {
    exists w :: w in ws && i == NewInstance(name, w.id, w.title) && w.id !in InstanceWindowIds(insts)
  }

  /** The represented windows afterwards: those before and every live one. */
  lemma {:induction false} AddMissingIds(name: string, insts: seq<Instance>, ws: seq<Window>)
    ensures InstanceWindowIds(AddMissing(name, insts, ws)) == InstanceWindowIds(insts) + WindowIds(ws)
  {
    if ws != [] {
      var init, w := ws[..|ws| - 1], ws[|ws| - 1];
      AddMissingIds(name, insts, init);
      WindowIdsSnoc(init, w);
      assert ws == init + [w];
      var prev := AddMissing(name, insts, init);
      if w.id !in InstanceWindowIds(prev) {
        InstanceWindowIdsSnoc(prev, NewInstance(name, w.id, w.title));
      }
    }
  }

  lemma {:induction false} WindowIdsSnoc(ws: seq<Window>, w: Window)
    ensures WindowIds(ws + [w]) == WindowIds(ws) + {w.id}
  {
    assert forall v :: v in ws + [w] <==> v in ws || v == w;
  }

  lemma {:induction false} InstanceWindowIdsSnoc(insts: seq<Instance>, i: Instance)
    ensures InstanceWindowIds(insts + [i]) == InstanceWindowIds(insts) + {i.windowId}
  {
    assert forall v :: v in insts + [i] <==> v in insts || v == i;
  }

  /** Every appended instance is a fresh one for a live window the instances before did not hold. */
  lemma {:induction false} AddMissingFresh(name: string, insts: seq<Instance>, ws: seq<Window>)
    ensures AppendedFresh(name, insts, ws, AddMissing(name, insts, ws))
  {
    if ws != [] {
      var init, w := ws[..|ws| - 1], ws[|ws| - 1];
      AddMissingFresh(name, insts, init);
      AddMissingPrefix(name, insts, init);
      AddMissingIds(name, insts, init);
      assert ws == init + [w];
      AppendedFreshSnoc(name, insts, ws, init, w, AddMissing(name, insts, init), AddMissing(name, insts, ws));
    }
  }

  /** One more window keeps the appended instances fresh, whether or not it adds one. */
  lemma {:induction false} AppendedFreshSnoc(name: string, insts: seq<Instance>, ws: seq<Window>, init: seq<Window>, w: Window,
                                           prev: seq<Instance>, r: seq<Instance>)
    requires ws == init + [w]
    requires |insts| <= |prev| && AppendedFresh(name, insts, init, prev)
    requires r == prev || (r == prev + [NewInstance(name, w.id, w.title)] && w.id !in InstanceWindowIds(insts))
    ensures AppendedFresh(name, insts, ws, r)
  {
    forall k | |insts| <= k < |r|
      ensures FreshFor(name, insts, ws, r[k])
    {
      if k < |prev| {
        assert FreshFor(name, insts, init, prev[k]);
        var v :| v in init && prev[k] == NewInstance(name, v.id, v.title) && v.id !in InstanceWindowIds(insts);
        assert v in ws && r[k] == prev[k];
      } else {
        assert r == prev + [NewInstance(name, w.id, w.title)];
        assert w in ws && r[k] == NewInstance(name, w.id, w.title) && w.id !in InstanceWindowIds(insts);
      }
    }
  }

  /** The appended instances are for pairwise distinct windows. */
  lemma {:induction false} AddMissingAppendedDistinct(name: string, insts: seq<Instance>, ws: seq<Window>)
    ensures DistinctFrom(AddMissing(name, insts, ws), |insts|)
  {
    if ws != [] {
      var init, w := ws[..|ws| - 1], ws[|ws| - 1];
      AddMissingAppendedDistinct(name, insts, init);
      var prev := AddMissing(name, insts, init);
      if w.id !in InstanceWindowIds(prev) {
        var r := prev + [NewInstance(name, w.id, w.title)];
        assert r == AddMissing(name, insts, ws);
        forall k, m | |insts| <= k < m < |r|
          ensures r[k].windowId != r[m].windowId
        {
          if m == |r| - 1 {
            assert r[k] == prev[k];
            assert r[k].windowId in InstanceWindowIds(prev);
            assert r[m].windowId == w.id;
          } else {
            assert r[k] == prev[k] && r[m] == prev[m];
            assert prev[k].windowId != prev[m].windowId;
          }
        }
      }
    }
  }

  /** When every live window is already represented, nothing is appended. */
  lemma {:induction false} AddMissingNothing(name: string, insts: seq<Instance>, ws: seq<Window>)
    requires WindowIds(ws) <= InstanceWindowIds(insts)
    ensures AddMissing(name, insts, ws) == insts
  {
    if ws != [] {
      var init := ws[..|ws| - 1];
      assert ws == init + [ws[|ws| - 1]];
      assert WindowIds(init) <= WindowIds(ws);
      AddMissingNothing(name, insts, init);
    }
  }

  /** The instances from index `from` on are bound to pairwise distinct windows. */
  predicate DistinctFrom(insts: seq<Instance>, from: nat) {
    forall k, m :: from <= k < m < |insts| ==> insts[k].windowId != insts[m].windowId
  }

  /** Instances distinct by window stay distinct by window. */
  lemma {:induction false} AddMissingDistinct(name: string, insts: seq<Instance>, ws: seq<Window>)
    requires DistinctWindows(insts)
    ensures DistinctWindows(AddMissing(name, insts, ws))
  {
    var r := AddMissing(name, insts, ws);
    AddMissingPrefix(name, insts, ws);
    AddMissingAdded(name, insts, ws);
    forall k, m | 0 <= k < m < |r|
      ensures r[k].windowId != r[m].windowId
    {
      if k < |insts| && |insts| <= m {
        assert FreshFor(name, insts, ws, r[m]);
        var w :| w in ws && r[m] == NewInstance(name, w.id, w.title) && w.id !in InstanceWindowIds(insts);
        assert r[k] == insts[k];
      } else if m < |insts| {
        assert r[k] == insts[k] && r[m] == insts[m];
      }
    }
  }

  // ---------------------------------------------------------------------------
  // Survivors

  /** When every instance is alive, retain keeps the list as it is. */
  lemma {:induction false} SurvivorsAllAlive(insts: seq<Instance>, ws: seq<Window>)
    requires forall i :: i in insts ==> Alive(i, ws)
    ensures Survivors(insts, ws) == insts
  {
    if insts != [] {
      var init := insts[..|insts| - 1];
      assert insts == init + [insts[|insts| - 1]];
      SurvivorsAllAlive(init, ws);
    }
  }

  /** Instances distinct by window remain so after the retain. */
  lemma {:induction false} SurvivorsDistinct(insts: seq<Instance>, ws: seq<Window>)
    requires DistinctWindows(insts)
    ensures DistinctWindows(Survivors(insts, ws))
  {
    if insts != [] {
      var init := insts[..|insts| - 1];
      var last := insts[|insts| - 1];
      SurvivorsDistinct(init, ws);
      var r := Survivors(insts, ws);
      var ri := Survivors(init, ws);
      if Alive(last, ws) {
        assert r == ri + [last];
        forall k, m | 0 <= k < m < |r|
          ensures r[k].windowId != r[m].windowId
        {
          if m == |r| - 1 {
            assert r[m] == last;
            assert r[k] == ri[k];
            assert r[k] in init;
            var q :| 0 <= q < |init| && init[q] == r[k];
            assert insts[q] == r[k];
          } else {
            assert r[k] == ri[k] && r[m] == ri[m];
          }
        }
      } else {
        assert r == ri;
      }
    }
  }

  // ---------------------------------------------------------------------------
  // One entry

  /**
   * After a reconcile the entry's instances cover exactly the live windows;
   * the surviving instances come first, unchanged; the rest are fresh.
   */
  lemma {:induction false} ReconcileEntryCovers(e: BotEntry, ws: seq<Window>)
    ensures var r := ReconcileEntry(e, ws);
      var kept := Survivors(e.instances, ws);
      && r.name == e.name && r.enabled == e.enabled && r.windowPattern == e.windowPattern
      && InstanceWindowIds(r.instances) == WindowIds(ws)
      && |kept| <= |r.instances| && r.instances[..|kept|] == kept
      && (forall k :: |kept| <= k < |r.instances| ==>
            r.instances[k].status == "" && r.instances[k].error == None
            && r.instances[k].id == InstanceId(e.name, r.instances[k].windowId))
  {
    var kept := Survivors(e.instances, ws);
    AddMissingPrefix(e.name, kept, ws);
    AddMissingAdded(e.name, kept, ws);
    assert InstanceWindowIds(kept) <= WindowIds(ws);
  }

  /** Reconciling twice against the same window list changes nothing more. */
  lemma {:induction false} ReconcileEntryIdempotent(e: BotEntry, ws: seq<Window>)
    ensures ReconcileEntry(ReconcileEntry(e, ws), ws) == ReconcileEntry(e, ws)
    ensures DeadIds(ReconcileEntry(e, ws).instances, ws) == {}
  {
    var r := ReconcileEntry(e, ws);
    ReconcileEntryCovers(e, ws);
    assert forall i :: i in r.instances ==> Alive(i, ws);
    SurvivorsAllAlive(r.instances, ws);
    AddMissingNothing(e.name, r.instances, ws);
  }

  /** No two instances of an entry share a window afterwards, if none did before. */
  lemma {:induction false} ReconcileEntryDistinct(e: BotEntry, ws: seq<Window>)
    requires DistinctWindows(e.instances)
    ensures DistinctWindows(ReconcileEntry(e, ws).instances)
  {
    var kept := Survivors(e.instances, ws);
    SurvivorsDistinct(e.instances, ws);
    AddMissingDistinct(e.name, kept, ws);
  }

  // ---------------------------------------------------------------------------
  // All entries

  /** Reconciling all entries twice is reconciling them once, and removes nothing the second time. */
  lemma {:induction false} ReconcileEntriesIdempotent(es: seq<BotEntry>, live: string -> seq<Window>)
    ensures ReconcileEntries(ReconcileEntries(es, live), live) == ReconcileEntries(es, live)
    ensures DeadIdsAll(ReconcileEntries(es, live), live) == {}
  {
    var r := ReconcileEntries(es, live);
    forall j | 0 <= j < |es|
      ensures ReconcileEntry(r[j], live(r[j].windowPattern)) == r[j]
      ensures DeadIds(r[j].instances, live(r[j].windowPattern)) == {}
    {
      ReconcileEntryIdempotent(es[j], live(es[j].windowPattern));
    }
    assert ReconcileEntries(r, live) == r;
    forall id
      ensures id !in DeadIdsAll(r, live)
    {
      DeadIdsAllMembers(r, live, id);
    }
  }
}
