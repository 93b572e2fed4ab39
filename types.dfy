/**
 * The records shared by the orchestrator, the platform layer and the control
 * surface (crates/core/src/types.rs), with the command and run-state types the
 * orchestrator and the control surface exchange.
 */
module Types {
  import opened Wrappers
  import opened Text

  /** A window identifier (CGWindowID on macOS, HWND on Windows), a `u64` in the source. */
  type WindowId = nat

  /** A file-system path, as its components. */
  type Path = seq<string>

  /** Screen-coordinate bounding box of a window (all fields `i32` in the source). */
  datatype Region = Region(l: int, t: int, r: int, b: int, w: int, h: int, cx: int, cy: int)

  /** Sub-region for a partial capture, relative to the window origin. */
  datatype CaptureRect = CaptureRect(l: int, t: int, w: int, h: int)

  /** A raw screenshot: BGRA bytes, row-major, each row `bytesPerRow` bytes long. */
  datatype Capture = Capture(data: seq<bv8>, width: nat, height: nat, bytesPerRow: nat)

  /** One bot instance bound to one window. */
  datatype Instance = Instance(
    id: string,
    windowId: WindowId,
    windowTitle: string,
    status: string,
    error: Option<string>)

  /** One discovered bot script with its enablement and its live instances. */
  datatype BotEntry = BotEntry(
    name: string,
    windowPattern: string,
    description: string,
    enabled: bool,
    instances: seq<Instance>,
    error: Option<string>,
    scriptPath: Path)

  /** A window reported by the platform: its id and its title. */
  datatype Window = Window(id: WindowId, title: string)

  /** Commands from the control surface to the orchestrator. */
  datatype Command = Toggle(index: nat) | StartStop | Restart(index: nat) | Quit

  /** The global run state shared by the control surface and the orchestrator. */
  datatype RunState = Stopped | Running | Stopping

  /** The instance id `format!("{}-{}", bot_name, window_id)`. */
  function InstanceId(botName: string, windowId: WindowId): string {
    botName + "-" + Decimal(windowId)
  }

  /** `Instance::new`: a fresh instance of a window, with no status and no error. */
  function NewInstance(botName: string, windowId: WindowId, windowTitle: string): (i: Instance)
    ensures i.id == InstanceId(botName, windowId)
    ensures i.windowId == windowId && i.windowTitle == windowTitle
    ensures i.status == "" && i.error == None
  {
    Instance(InstanceId(botName, windowId), windowId, windowTitle, "", None)
  }

  /**
   * The id determines both the bot name and the window id: decimal digits
   * hold no '-', so the last '-' of an id separates the two. Hence one bot
   * never gives two windows the same id, and two bots never share an id.
   */
  lemma {:induction false} InstanceIdInjective(n1: string, w1: WindowId, n2: string, w2: WindowId)
    requires InstanceId(n1, w1) == InstanceId(n2, w2)
    ensures n1 == n2 && w1 == w2
  {
    var s := InstanceId(n1, w1);
    var d1, d2 := Decimal(w1), Decimal(w2);
    assert s == n1 + "-" + d1 && s == n2 + "-" + d2;
    LastDash(n1, d1);
    LastDash(n2, d2);
    assert |d1| == |d2|;
    assert d1 == s[|s| - |d1|..] == d2;
    assert n1 == s[..|s| - |d1| - 1] == n2;
    DecimalInjective(w1, w2);
  }

  /** In `name + "-" + digits`, no '-' follows the one before the digits. */
  lemma {:induction false} LastDash(name: string, digits: string)
    requires AllDigits(digits)
    ensures var s := name + "-" + digits;
      s[|s| - |digits| - 1] == '-' &&
      forall p :: |s| - |digits| <= p < |s| ==> s[p] != '-'
  {
  }

  /** Equal arguments give equal ids; for one bot, distinct windows give distinct ids. */
  lemma {:induction false} InstanceIdDistinct(name: string, w1: WindowId, w2: WindowId)
    ensures InstanceId(name, w1) == InstanceId(name, w2) <==> w1 == w2
  {
    if InstanceId(name, w1) == InstanceId(name, w2) {
      InstanceIdInjective(name, w1, name, w2);
    }
  }
}
