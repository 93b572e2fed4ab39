/**
 * Bot discovery (crates/core/src/orchestrator.rs:11-82): the recursive search
 * for `main.lua` scripts, the bot name derived from a script's directory,
 * loading the registry with metadata from an oracle, and the initial instance
 * scan. The file system is an in-memory tree; `read_dir` failing is a
 * directory marked unreadable.
 */
module Discovery {
  import opened Wrappers
  import opened Text
  import opened Types
  import opened Reconcile
  import opened Shared

  /** A file-system node. The order of `children` is the order `read_dir` yields. */
  datatype FsNode =
    | Dir(name: string, readable: bool, children: seq<FsNode>)
    | File(name: string)

  const MainLua: string := "main.lua"

  /** Directories the search never enters: hidden ones and `node_modules`. */
  predicate Skipped(name: string) {
    (|name| > 0 && name[0] == '.') || name == "node_modules"
  }

  /** `path.join("main.lua").is_file()` */
  predicate HasMainLua(children: seq<FsNode>) {
    exists i :: 0 <= i < |children| && children[i] == File(MainLua)
  }

  /** The scripts found among the entries of a listed directory at `path`, in listing order. */
  function ScanEntries(cs: seq<FsNode>, path: Path): seq<Path>
    decreases cs
  {
    if cs == [] then []
    else ScanEntries(cs[..|cs| - 1], path) + EntryScripts(cs[|cs| - 1], path)
  }

  /** What one entry contributes: its own script, or the scripts below it. */
  function EntryScripts(c: FsNode, path: Path): seq<Path>
    decreases c
  {
    match c
    case File(_) => []
    case Dir(name, readable, children) =>
      if Skipped(name) then []
      else if HasMainLua(children) then [path + [name, MainLua]]
      else if readable then ScanEntries(children, path + [name])
      else []
  }

  /** `find_bot_dirs(dir)`: nothing when the directory cannot be listed. */
  function BotScripts(dir: FsNode, path: Path): seq<Path>
  {
    if dir.Dir? && dir.readable then ScanEntries(dir.children, path) else []
  }

  /** `find_bot_dirs`, recursing while it pushes onto the result vector. */
  method FindBotDirs(dir: FsNode, path: Path) returns (results: seq<Path>)
    ensures results == BotScripts(dir, path)
    decreases dir, 1
  {
    results := [];
    if !dir.Dir? || !dir.readable {
      return;
    }
    var cs := dir.children;
    var i := 0;
    while i < |cs|
      invariant 0 <= i <= |cs|
      invariant results == ScanEntries(cs[..i], path)
    {
      assert cs[..i + 1][..i] == cs[..i];
      var c := cs[i];
      if c.Dir? && !Skipped(c.name) {
        if HasMainLua(c.children) {
          results := results + [path + [c.name, MainLua]];
        } else {
          var sub := FindBotDirs(c, path + [c.name]);
          results := results + sub;
        }
      }
      i := i + 1;
    }
    assert cs[..i] == cs;
  }

  /** A script path as discovery produces it: below the root, through visible directories, ending in `main.lua`. */
  predicate ScriptUnder(p: Path, root: Path) {
    && |p| >= |root| + 2
    && p[..|root|] == root
    && p[|p| - 1] == MainLua
    && forall i :: |root| <= i < |p| - 1 ==> !Skipped(p[i])
  }

  lemma {:induction false} ScanEntriesShape(cs: seq<FsNode>, path: Path)
    ensures forall p :: p in ScanEntries(cs, path) ==> ScriptUnder(p, path)
    decreases cs
  {
    if cs != [] {
      ScanEntriesShape(cs[..|cs| - 1], path);
      EntryScriptsShape(cs[|cs| - 1], path);
    }
  }

  lemma {:induction false} EntryScriptsShape(c: FsNode, path: Path)
    ensures forall p :: p in EntryScripts(c, path) ==> ScriptUnder(p, path)
    decreases c
  {
    if c.Dir? && !Skipped(c.name) && !HasMainLua(c.children) && c.readable {
      var sub := path + [c.name];
      ScanEntriesShape(c.children, sub);
      forall p | p in EntryScripts(c, path)
        ensures ScriptUnder(p, path)
      {
        assert ScriptUnder(p, sub);
        assert p[..|path|] == sub[..|path|];
        assert p[|path|] == c.name;
      }
    }
  }

  /**
   * Every path `find_bot_dirs` returns lies below the searched directory, passes
   * only through directories that are neither hidden nor `node_modules`, and
   * names a `main.lua`.
   */
  lemma {:induction false} BotScriptsShape(dir: FsNode, path: Path)
    ensures forall p :: p in BotScripts(dir, path) ==> ScriptUnder(p, path)
  {
    if dir.Dir? && dir.readable {
      ScanEntriesShape(dir.children, path);
    }
  }

  /** A directory holding `main.lua` is reported and not searched further. */
  lemma {:induction false} ScriptDirStops(name: string, readable: bool, children: seq<FsNode>, path: Path)
    requires !Skipped(name) && HasMainLua(children)
    ensures EntryScripts(Dir(name, readable, children), path) == [path + [name, MainLua]]
  {
  }

  // ---------------------------------------------------------------------------
  // Bot names

  /**
   * `derive_bot_name`: the script's directory relative to the root (the
   * directory itself when it is not below the root), components joined with
   * '/', every '\' turned into '/'.
   */
  function DeriveBotName(path: Path, root: Path): (name: string)
    ensures '\\' !in name
  {
    var botDir := if |path| > 0 then path[..|path| - 1] else path;
    var rel := if |root| <= |botDir| && botDir[..|root|] == root then botDir[|root|..] else botDir;
    ReplaceChar(Join(rel, '/'), '\\', '/')
  }

  /** A script found below the root is named after its directory path relative to the root. */
  lemma {:induction false} DeriveBotNameOfScript(root: Path, rel: seq<string>)
    requires |rel| >= 1
    requires forall k :: 0 <= k < |rel| ==> '\\' !in rel[k]
    ensures DeriveBotName(root + rel + [MainLua], root) == Join(rel, '/')
  {
    var path := root + rel + [MainLua];
    assert path[..|path| - 1] == root + rel;
    assert (root + rel)[..|root|] == root;
    assert (root + rel)[|root|..] == rel;
    JoinNoChar(rel, '/', '\\');
  }

  lemma {:induction false} JoinNoChar(parts: seq<string>, sep: char, c: char)
    requires c != sep
    requires forall k :: 0 <= k < |parts| ==> c !in parts[k]
    ensures c !in Join(parts, sep)
  {
    if |parts| > 1 {
      JoinNoChar(parts[1..], sep, c);
    }
  }

  /** A bot directory directly under the root is named by its own directory name. */
  lemma {:induction false} DeriveBotNameTopLevel(root: Path, dirName: string)
    requires '\\' !in dirName
    ensures DeriveBotName(root + [dirName, MainLua], root) == dirName
  {
    assert root + [dirName, MainLua] == root + [dirName] + [MainLua];
    DeriveBotNameOfScript(root, [dirName]);
  }

  // ---------------------------------------------------------------------------
  // Loading and scanning

  /** What `LuaBot::load_meta` returns for a script: `(window_pattern, description)` or an error. */
  type MetaOracle = Path -> Result<(string, string), string>

  /** The entry `load_bots` builds for a script whose metadata loaded. */
  function LoadedEntry(path: Path, root: Path, pattern: string, description: string): BotEntry {
    BotEntry(DeriveBotName(path, root), pattern, description, false, [], None, path)
  }

  /** The registry `load_bots` builds: one entry per script whose metadata loads, in discovery order. */
  function Loaded(files: seq<Path>, root: Path, meta: MetaOracle): (es: seq<BotEntry>)
    ensures |es| <= |files|
    ensures forall j :: 0 <= j < |es| ==>
      && es[j].scriptPath in files && meta(es[j].scriptPath).Ok?
      && es[j] == LoadedEntry(es[j].scriptPath, root, meta(es[j].scriptPath).value.0, meta(es[j].scriptPath).value.1)
  {
    if files == [] then []
    else
      var init := files[..|files| - 1];
      var p := files[|files| - 1];
      var prev := Loaded(init, root, meta);
      assert forall j :: 0 <= j < |prev| ==> prev[j].scriptPath in files;
      match meta(p)
      case Ok(m) => prev + [LoadedEntry(p, root, m.0, m.1)]
      case Err(_) => prev
  }

  /** A script whose metadata loads is never dropped. */
  lemma {:induction false} LoadedKeepsLoadable(files: seq<Path>, root: Path, meta: MetaOracle, p: Path)
    requires p in files && meta(p).Ok?
    ensures exists j :: 0 <= j < |Loaded(files, root, meta)| && Loaded(files, root, meta)[j].scriptPath == p
  {
    var init := files[..|files| - 1];
    var last := files[|files| - 1];
    var prev := Loaded(init, root, meta);
    if p == last {
      var j := |prev|;
      assert Loaded(files, root, meta)[j].scriptPath == p;
    } else {
      assert files == init + [last];
      LoadedKeepsLoadable(init, root, meta, p);
      var j :| 0 <= j < |prev| && prev[j].scriptPath == p;
      assert Loaded(files, root, meta)[j] == prev[j];
    }
  }

  /** `load_bots`: discover the scripts, then keep those whose metadata loads. */
  method LoadBots(rootDir: FsNode, root: Path, meta: MetaOracle) returns (entries: seq<BotEntry>)
    ensures entries == Loaded(BotScripts(rootDir, root), root, meta)
  {
    var files := FindBotDirs(rootDir, root);
    entries := [];
    var i := 0;
    while i < |files|
      invariant 0 <= i <= |files|
      invariant entries == Loaded(files[..i], root, meta)
    {
      assert files[..i + 1][..i] == files[..i];
      var path := files[i];
      match meta(path) {
        case Ok(m) =>
          entries := entries + [BotEntry(DeriveBotName(path, root), m.0, m.1, false, [], None, path)];
        case Err(_) =>
      }
      i := i + 1;
    }
    assert files[..i] == files;
  }

  /** The instances a scan gives: one fresh instance per live window, in the platform's order. */
  function FreshInstances(name: string, ws: seq<Window>): (insts: seq<Instance>)
    ensures |insts| == |ws|
    ensures forall k :: 0 <= k < |ws| ==> insts[k] == NewInstance(name, ws[k].id, ws[k].title)
  {
    if ws == [] then [] else FreshInstances(name, ws[..|ws| - 1]) + [NewInstance(name, ws[|ws| - 1].id, ws[|ws| - 1].title)]
  }

  /** `scan_instances`: every entry's instances replaced by fresh ones for its live windows. */
  method ScanInstances(registry: Registry, live: string -> seq<Window>)
    modifies registry
    ensures |registry.entries| == |old(registry.entries)|
    ensures forall j :: 0 <= j < |registry.entries| ==>
      registry.entries[j] == old(registry.entries)[j].(instances :=
        FreshInstances(old(registry.entries)[j].name, live(old(registry.entries)[j].windowPattern)))
  {
    var j := 0;
    while j < |registry.entries|
      invariant 0 <= j <= |registry.entries| == |old(registry.entries)|
      invariant forall j' :: 0 <= j' < j ==>
        registry.entries[j'] == old(registry.entries)[j'].(instances :=
          FreshInstances(old(registry.entries)[j'].name, live(old(registry.entries)[j'].windowPattern)))
      invariant forall j' :: j <= j' < |registry.entries| ==> registry.entries[j'] == old(registry.entries)[j']
    {
      var e := registry.entries[j];
      var insts := PushFresh(e.name, live(e.windowPattern));
      registry.entries := registry.entries[j := e.(instances := insts)];
      j := j + 1;
    }
  }

  /** The inner loop of `scan_instances`: one pushed instance per window, in order. */
  method PushFresh(name: string, ws: seq<Window>) returns (insts: seq<Instance>)
    ensures insts == FreshInstances(name, ws)
  {
    insts := [];
    var k := 0;
    while k < |ws|
      invariant 0 <= k <= |ws|
      invariant insts == FreshInstances(name, ws[..k])
    {
      assert ws[..k + 1][..k] == ws[..k];
      insts := insts + [NewInstance(name, ws[k].id, ws[k].title)];
      k := k + 1;
    }
    assert ws[..k] == ws;
  }

  /**
   * A scan agrees with the reconcile of `Toggle`: on a platform whose window ids
   * are distinct, reconciling freshly scanned instances changes nothing.
   */
  lemma {:induction false} ScanThenReconcile(e: BotEntry, ws: seq<Window>)
    requires forall a, b :: 0 <= a < b < |ws| ==> ws[a].id != ws[b].id
    ensures var s := e.(instances := FreshInstances(e.name, ws));
      ReconcileEntry(s, ws) == s && DistinctWindows(s.instances)
  {
    var insts := FreshInstances(e.name, ws);
    assert forall i :: i in insts ==> Alive(i, ws);
    SurvivorsAllAlive(insts, ws);
    assert WindowIds(ws) <= InstanceWindowIds(insts) by {
      forall w | w in ws
        ensures w.id in InstanceWindowIds(insts)
      {
        var k :| 0 <= k < |ws| && ws[k] == w;
        assert insts[k] in insts;
      }
    }
    AddMissingNothing(e.name, insts, ws);
  }
}
