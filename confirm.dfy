/**
 * The yes/no confirmation dialog of the terminal UI (crates/tui/src/confirm.rs):
 * its Yes/No selection and the rectangle it is drawn in, centred inside the
 * screen area. Drawing is not modelled.
 */
module Confirm {

  const TwoTo16: nat := 0x1_0000

  /** `u16` */
  type U16 = n: nat | n < 0x1_0000

  /** A screen rectangle: column, row, width and height, all `u16`. */
  datatype Rect = Rect(x: U16, y: U16, width: U16, height: U16)

  function Min(a: nat, b: nat): nat {
    if a <= b then a else b
  }

  /** `u16::saturating_sub` */
  function SatSub(a: nat, b: nat): nat {
    if a >= b then a - b else 0
  }

  /** `a + b` on `u16`, wrapping as a release build does. */
  function AddU16(a: U16, b: U16): (r: U16)
    ensures a + b < TwoTo16 ==> r == a + b
  {
    (a + b) % TwoTo16
  }

  /** An area that lies on the `u16` screen: its right and bottom edges do not overflow. */
  predicate OnScreen(r: Rect) {
    r.x + r.width < TwoTo16 && r.y + r.height < TwoTo16
  }

  /** `centered_rect`: a `width` by `height` rectangle centred in `area`, clipped to it. */
  function CenteredRect(width: U16, height: U16, area: Rect): Rect {
    var x := AddU16(area.x, SatSub(area.width, width) / 2);
    var y := AddU16(area.y, SatSub(area.height, height) / 2);
    Rect(x, y, Min(width, area.width), Min(height, area.height))
  }

  /**
   * On the screen, the centred rectangle has the requested size clipped to
   * the area, lies inside the area, and its left (top) margin is at most its
   * right (bottom) margin, which exceeds it by at most one.
   */
  lemma {:induction false} CenteredRectInside(width: U16, height: U16, area: Rect)
    requires OnScreen(area)
    ensures var r := CenteredRect(width, height, area);
      && r.width == Min(width, area.width) && r.height == Min(height, area.height)
      && area.x <= r.x && r.x + r.width <= area.x + area.width
      && area.y <= r.y && r.y + r.height <= area.y + area.height
      && r.x - area.x <= (area.x + area.width) - (r.x + r.width) <= r.x - area.x + 1
      && r.y - area.y <= (area.y + area.height) - (r.y + r.height) <= r.y - area.y + 1
  {
  }

  /** Off the screen's edge the column wraps: the rectangle can start left of its area. */
  lemma {:induction false} CenteredRectWraps()
    ensures CenteredRect(0, 0, Rect(0xFFFF, 0, 2, 0)).x == 0
  {
  }

  /** The dialog: its message and whether Yes (true) or No (false) is selected. */
  class ConfirmDialog {
    var message: string
    var selected: bool

    /** `new`: No is selected. */
    constructor(msg: string)
      ensures message == msg && !selected
    {
      message := msg;
      selected := false;
    }

    /** `toggle`: switches between Yes and No, so two toggles restore the selection. */
    method Toggle()
      modifies this
      ensures selected == !old(selected) && message == old(message)
    {
      selected := !selected;
    }
  }
}
