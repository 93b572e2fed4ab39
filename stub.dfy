/**
 * The deterministic test platform (crates/core/src/platform/stub.rs): a fixed
 * window list chosen by keywords of the pattern, and windows with a fixed
 * 1920x1080 region that never capture anything.
 */
module Stub {
  import opened Wrappers
  import opened Text
  import opened Types

  /** "僵尸" (zombie) */
  const ZombieHan: string := "\U{50F5}\U{5C38}"
  /** "向僵尸开炮", the title of the zombie game window */
  const ZombieTitle: string := "\U{5411}\U{50F5}\U{5C38}\U{5F00}\U{70AE}"
  const WowTitle: string := "World of Warcraft"

  predicate IsWowPattern(pattern: string) {
    var pat := ToLower(pattern);
    Contains(pat, "warcraft") || Contains(pat, "wow")
  }

  predicate IsZombiePattern(pattern: string) {
    var pat := ToLower(pattern);
    Contains(pat, ZombieHan) || Contains(pat, "zombie")
  }

  /**
   * `StubPlatform::get_instances`: the keyword test runs on the lower-cased
   * pattern, the Warcraft test first; the fallback title uses the pattern as given.
   */
  function GetInstances(pattern: string): (ws: seq<Window>)
    ensures |ws| >= 1
    ensures forall i, j :: 0 <= i < j < |ws| ==> ws[i].id != ws[j].id
    ensures IsWowPattern(pattern) ==>
      ws == [Window(10001, WowTitle), Window(10002, WowTitle)]
    ensures !IsWowPattern(pattern) && IsZombiePattern(pattern) ==>
      ws == [Window(20001, ZombieTitle)]
    ensures !IsWowPattern(pattern) && !IsZombiePattern(pattern) ==>
      ws == [Window(30001, "Window<" + pattern + ">")]
  {
    if IsWowPattern(pattern) then
      [Window(10001, WowTitle), Window(10002, WowTitle)]
    else if IsZombiePattern(pattern) then
      [Window(20001, ZombieTitle)]
    else
      [Window(30001, "Window<" + pattern + ">")]
  }

  /** The Warcraft keywords win over the zombie keywords, whatever the case. */
  lemma {:induction false} WowBeforeZombie()
    ensures GetInstances("WoW zombie") == [Window(10001, WowTitle), Window(10002, WowTitle)]
  {
    var pat := ToLower("WoW zombie");
    assert pat == "wow zombie";
    assert IsPrefix("wow", pat);
  }

  /** A window of the stub platform. */
  datatype StubWindow = StubWindow(windowId: WindowId, title: string, region: Region) {
    /** `id()` */
    function Id(): WindowId { windowId }
    /** `title()` */
    function Title(): string { title }
    /** `region()`: always known. */
    function GetRegion(): (r: Option<Region>)
      ensures r == Some(region)
    {
      Some(region)
    }
    /** `capture()`: the stub never has pixels. */
    function Capture(rect: Option<CaptureRect>): (c: Option<Types.Capture>)
      ensures c.None?
    {
      None
    }
  }

  /** A region whose right/bottom edges and centre agree with its origin and size. */
  predicate Consistent(g: Region) {
    g.r == g.l + g.w && g.b == g.t + g.h && g.cx == g.l + g.w / 2 && g.cy == g.t + g.h / 2
  }

  /** `StubPlatform::create_window`: always a window, titled "Stub-<id>", full HD. */
  function CreateWindow(pattern: string, windowId: WindowId): (w: StubWindow)
    ensures w.Id() == windowId
    ensures w.Title() == "Stub-" + Decimal(windowId)
    ensures w.GetRegion().Some? && Consistent(w.region)
    ensures w.region.l == 0 && w.region.t == 0 && w.region.w == 1920 && w.region.h == 1080
  {
    StubWindow(windowId, "Stub-" + Decimal(windowId), Region(0, 0, 1920, 1080, 1920, 1080, 960, 540))
  }
}
