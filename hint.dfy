/**
 * The visual hint decoder (crates/finger-core/src/hint.rs): a strip of pixels
 * that encodes 7-bit values is recognised by a marker (a run of 0x00 then a
 * run of 0x7F), its data pixels are grouped into runs of equal value, and the
 * runs are scaled by the marker width into text.
 *
 * The scan is a left fold of one FSM step over the sampled values of a row;
 * `TryDecodeRow` and `DecodeHintV2` are the loops of the source, proved equal
 * to that fold.
 */
module Hint {
  import opened Wrappers
  import opened Types

  // ---------------------------------------------------------------------------
  // Pixels

  /** The 7-bit value of a BGRA pixel: G bits 6..4, then R bits 6..5, then B bits 6..5. */
  function NibbleOf(b: bv8, g: bv8, r: bv8): (v: bv8)
    ensures v <= 0x7F
  {
    var rBits := (r >> 5) & 0x03;
    var gBits := (g >> 4) & 0x07;
    var bBits := (b >> 5) & 0x03;
    (gBits << 4) | (rBits << 2) | bBits
  }

  /** Byte offset of pixel (x, y). */
  function PixelIndex(c: Capture, x: nat, y: nat): nat {
    y * c.bytesPerRow + x * 4
  }

  /** `get_nibble`: the value of the pixel at (x, y). */
  function GetNibble(c: Capture, x: nat, y: nat): (v: nat)
    requires PixelIndex(c, x, y) + 2 < |c.data|
    ensures v <= 0x7F
  {
    var idx := PixelIndex(c, x, y);
    NibbleOf(c.data[idx], c.data[idx + 1], c.data[idx + 2]) as nat
  }

  /** A black pixel reads as 0, whatever its alpha. */
  lemma {:induction false} NibbleOfBlack()
    ensures NibbleOf(0, 0, 0) == 0
  {
  }

  /** Only bits 6..5 of blue and red and bits 6..4 of green are read. */
  lemma {:induction false} NibbleIgnoresLowBits(b: bv8, g: bv8, r: bv8)
    ensures NibbleOf(b, g, r) == NibbleOf(b & 0x60, g & 0x70, r & 0x60)
  {
  }

  /** Bytes an encoder would write for a value (blue, green, red): the inverse of `NibbleOf`. */
  function PixelFor(v: bv8): (bgr: (bv8, bv8, bv8))
  {
    ((v & 0x03) << 5, (v >> 4) << 4, ((v >> 2) & 0x03) << 5)
  }

  /** Every 7-bit value survives encoding into a pixel and reading it back. */
  lemma {:induction false} NibbleRoundTrip(v: bv8)
    requires v <= 0x7F
    ensures NibbleOf(PixelFor(v).0, PixelFor(v).1, PixelFor(v).2) == v
  {
  }

  // ---------------------------------------------------------------------------
  // The scanner

  datatype State = Start | M0 | M1 | Decode | End1 | Done

  /** A run of equal data values (`DecodedChar`). */
  datatype Run = Run(c: nat, n: nat)

  /** The scanner's variables: state, marker width and the runs so far. */
  datatype Fsm = Fsm(state: State, markerWidth: nat, runs: seq<Run>)

  const Initial: Fsm := Fsm(Start, 0, [])

  /** One step of the FSM on a value. `Done` ends the scan, so it absorbs everything. */
  function Step(f: Fsm, v: nat): Fsm {
    match f.state
    case Start => if v == 0x00 then Fsm(M0, 1, f.runs) else f
    case M0 =>
      if v == 0x00 then f.(markerWidth := f.markerWidth + 1)
      else if v == 0x7F then Fsm(M1, f.markerWidth + 1, f.runs)
      else f.(state := Start)
    case M1 =>
      if v == 0x7F then f.(markerWidth := f.markerWidth + 1)
      else Fsm(Decode, f.markerWidth, f.runs + [Run(v, 1)])
    case Decode =>
      if v == 0x7F then f.(state := End1)
      else if f.runs == [] then f
      else
        var last := f.runs[|f.runs| - 1];
        if last.c == v then f.(runs := f.runs[|f.runs| - 1 := Run(v, last.n + 1)])
        else f.(runs := f.runs + [Run(v, 1)])
    case End1 => if v == 0x00 then f.(state := Done) else f
    case Done => f
  }

  /** The FSM run over a sequence of values. */
  function Fold(f: Fsm, vs: seq<nat>): Fsm {
    if vs == [] then f else Step(Fold(f, vs[..|vs| - 1]), vs[|vs| - 1])
  }

  lemma {:induction false} FoldAppend(f: Fsm, a: seq<nat>, b: seq<nat>)
    ensures Fold(f, a + b) == Fold(Fold(f, a), b)
  {
    if b != [] {
      var ab := a + b;
      assert ab[..|ab| - 1] == a + b[..|b| - 1];
      assert ab[|ab| - 1] == b[|b| - 1];
      FoldAppend(f, a, b[..|b| - 1]);
      calc {
        Fold(f, ab);
        Step(Fold(f, a + b[..|b| - 1]), b[|b| - 1]);
        Step(Fold(Fold(f, a), b[..|b| - 1]), b[|b| - 1]);
        Fold(Fold(f, a), b);
      }
    } else {
      assert a + b == a;
    }
  }

  lemma {:induction false} FoldSnoc(f: Fsm, vs: seq<nat>, v: nat)
    ensures Fold(f, vs + [v]) == Step(Fold(f, vs), v)
  {
    assert (vs + [v])[..|vs|] == vs;
  }

  lemma {:induction false} DoneAbsorbs(f: Fsm, vs: seq<nat>)
    requires f.state == Done
    ensures Fold(f, vs) == f
  {
    if vs != [] {
      DoneAbsorbs(f, vs[..|vs| - 1]);
    }
  }

  // ---------------------------------------------------------------------------
  // Normalisation

  /** `((n * 2.0) / marker_width).round()`, in integers: round half up of 2n/mw. */
  function CharCount(n: nat, mw: nat): nat
    requires mw > 0
  {
    (4 * n + mw) / (2 * mw)
  }

  /** The count is 2n/mw rounded to the nearest integer, halves rounding up. */
  lemma {:induction false} CharCountRounds(n: nat, mw: nat)
    requires mw > 0
    ensures var k := CharCount(n, mw); 2 * mw * k <= 4 * n + mw < 2 * mw * (k + 1)
  {
    DivBounds(4 * n + mw, 2 * mw);
  }

  lemma {:induction false} DivBounds(a: nat, b: nat)
    requires b > 0
    ensures b * (a / b) <= a < b * (a / b + 1)
  {
  }

  /** `ch.is_ascii_graphic() || ch == ' '` */
  predicate Printable(c: nat) {
    0x20 <= c <= 0x7E
  }

  function Repeat(c: char, k: nat): (s: string)
    ensures |s| == k && forall i :: 0 <= i < k ==> s[i] == c
  {
    if k == 0 then [] else Repeat(c, k - 1) + [c]
  }

  function Max1(k: nat): nat {
    if k < 1 then 1 else k
  }

  /** The text of the runs: each printable run repeated by its scaled width, at least once. */
  function Normalise(runs: seq<Run>, mw: nat): (s: string)
    requires mw > 0
    ensures forall i :: 0 <= i < |s| ==> Printable(s[i] as nat)
  {
    if runs == [] then []
    else
      var d := runs[|runs| - 1];
      Normalise(runs[..|runs| - 1], mw)
        + (if Printable(d.c) then Repeat(d.c as char, Max1(CharCount(d.n, mw))) else [])
  }

  /** The outcome of a finished scan. */
  function Finish(f: Fsm): Option<string> {
    if f.state != Done || f.runs == [] || f.markerWidth == 0 then None
    else
      var s := Normalise(f.runs, f.markerWidth);
      if s == [] then None else Some(s)
  }

  /** Decoding a row of sampled values. */
  function DecodeValues(vs: seq<nat>): (r: Option<string>)
    ensures r.Some? ==> r.value != [] && forall i :: 0 <= i < |r.value| ==> Printable(r.value[i] as nat)
    ensures r.Some? ==> Fold(Initial, vs).state == Done
  {
    Finish(Fold(Initial, vs))
  }

  // ---------------------------------------------------------------------------
  // Sampling a row

  function Min(a: nat, b: nat): nat {
    if a < b then a else b
  }

  /** How many pixels of a row are sampled: `x < min(width, 200)` and `4x + 3 < bytes_per_row`. */
  function SampleCount(c: Capture): nat {
    Min(Min(c.width, 200), c.bytesPerRow / 4)
  }

  lemma {:induction false} SampleCountMeans(c: Capture, x: nat)
    ensures x < SampleCount(c) <==> x < Min(c.width, 200) && x * 4 + 3 < c.bytesPerRow
  {
  }

  /** The capture holds every row it claims to. */
  predicate WellFormedCapture(c: Capture) {
    |c.data| >= c.height * c.bytesPerRow
  }

  /** Every sampled pixel of a row below `height` lies inside the buffer. */
  lemma {:induction false} SampleInBounds(c: Capture, y: nat, x: nat)
    requires WellFormedCapture(c) && y < c.height && x < SampleCount(c)
    ensures PixelIndex(c, x, y) + 3 < |c.data|
  {
    SampleCountMeans(c, x);
    MulMono(y + 1, c.height, c.bytesPerRow);
    assert (y + 1) * c.bytesPerRow == y * c.bytesPerRow + c.bytesPerRow;
  }

  lemma {:induction false} MulMono(a: nat, b: nat, m: nat)
    requires a <= b
    ensures a * m <= b * m
  {
  }

  /** The first `k` sampled values of row `y`, left to right. */
  function Samples(c: Capture, y: nat, k: nat): (vs: seq<nat>)
    requires WellFormedCapture(c) && y < c.height && k <= SampleCount(c)
    ensures |vs| == k
  {
    if k == 0 then []
    else
      SampleInBounds(c, y, k - 1);
      Samples(c, y, k - 1) + [GetNibble(c, k - 1, y)]
  }

  /** The sampled values of row `y`. */
  function RowValues(c: Capture, y: nat): (vs: seq<nat>)
    requires WellFormedCapture(c) && y < c.height
    ensures |vs| == SampleCount(c)
  {
    Samples(c, y, SampleCount(c))
  }

  /** Sample `x` of a row is the value of pixel (x, y). */
  lemma {:induction false} SamplesAt(c: Capture, y: nat, k: nat, x: nat)
    requires WellFormedCapture(c) && y < c.height && k <= SampleCount(c) && x < k
    ensures PixelIndex(c, x, y) + 3 < |c.data|
    ensures Samples(c, y, k)[x] == GetNibble(c, x, y)
  {
    SampleInBounds(c, y, x);
    if x < k - 1 {
      SamplesAt(c, y, k - 1, x);
    }
  }

  lemma {:induction false} SamplesPrefix(c: Capture, y: nat, k: nat, x: nat)
    requires WellFormedCapture(c) && y < c.height && x <= k <= SampleCount(c)
    ensures Samples(c, y, k)[..x] == Samples(c, y, x)
  {
    if x < k {
      SamplesPrefix(c, y, k - 1, x);
      assert Samples(c, y, k)[..k - 1] == Samples(c, y, k - 1);
    }
  }

  /** `try_decode_row`: scan the row, then turn the runs into text. */
  method TryDecodeRow(c: Capture, y: nat) returns (r: Option<string>)
    requires WellFormedCapture(c) && y < c.height
    ensures r == DecodeValues(RowValues(c, y))
  {
    var f := ScanRow(c, y);
    if f.state != Done || f.runs == [] || f.markerWidth == 0 {
      return None;
    }
    var text := NormaliseRuns(f.runs, f.markerWidth);
    if text == [] {
      r := None;
    } else {
      r := Some(text);
    }
  }

  /** The scanning loop of `try_decode_row`: one FSM step per sampled pixel, stopping at `Done`. */
  method ScanRow(c: Capture, y: nat) returns (f: Fsm)
    requires WellFormedCapture(c) && y < c.height
    ensures f == Fold(Initial, RowValues(c, y))
  {
    var state := Start;
    var markerWidth: nat := 0;
    var decoded: seq<Run> := [];
    var maxX := Min(c.width, 200);
    var x: nat := 0;
    while x < maxX
      invariant x <= SampleCount(c)
      invariant Fsm(state, markerWidth, decoded) == Fold(Initial, Samples(c, y, x))
      invariant state != Done
    {
      SampleCountMeans(c, x);
      if x * 4 + 3 >= c.bytesPerRow {
        break;
      }
      SampleInBounds(c, y, x);
      var v := GetNibble(c, x, y);
      FoldSnoc(Initial, Samples(c, y, x), v);
      assert Samples(c, y, x + 1) == Samples(c, y, x) + [v];
      state, markerWidth, decoded := ScanStep(state, markerWidth, decoded, v);
      x := x + 1;
      if state == Done {
        break;
      }
    }
    SampleCountMeans(c, x);
    f := Fsm(state, markerWidth, decoded);
    ScanEnds(c, y, x, f);
  }

  /** One step of the scanning loop on its three variables: the body of the `match` in `try_decode_row`. */
  method ScanStep(state: State, markerWidth: nat, decoded: seq<Run>, v: nat)
    returns (state': State, markerWidth': nat, decoded': seq<Run>)
    ensures Fsm(state', markerWidth', decoded') == Step(Fsm(state, markerWidth, decoded), v)
  {
    state', markerWidth', decoded' := state, markerWidth, decoded;
    match state {
      case Start =>
        if v == 0x00 {
          state' := M0;
          markerWidth' := 1;
        }
      case M0 =>
        if v == 0x00 {
          markerWidth' := markerWidth' + 1;
        } else if v == 0x7F {
          state' := M1;
          markerWidth' := markerWidth' + 1;
        } else {
          state' := Start;
        }
      case M1 =>
        if v == 0x7F {
          markerWidth' := markerWidth' + 1;
        } else {
          state' := Decode;
          decoded' := decoded' + [Run(v, 1)];
        }
      case Decode =>
        if v == 0x7F {
          state' := End1;
        } else if decoded != [] {
          var last := decoded[|decoded| - 1];
          if last.c == v {
            decoded' := decoded[|decoded| - 1 := Run(v, last.n + 1)];
          } else {
            decoded' := decoded' + [Run(v, 1)];
          }
        }
      case End1 =>
        if v == 0x00 {
          state' := Done;
        }
      case Done =>
    }
  }

  /** Either the row ran out of samples, or the scan is done and ignores the rest. */
  lemma {:induction false} ScanEnds(c: Capture, y: nat, x: nat, f: Fsm)
    requires WellFormedCapture(c) && y < c.height && x <= SampleCount(c)
    requires f == Fold(Initial, Samples(c, y, x))
    requires f.state == Done || x == SampleCount(c)
    ensures f == Fold(Initial, RowValues(c, y))
  {
    var vs := RowValues(c, y);
    SamplesPrefix(c, y, SampleCount(c), x);
    if f.state == Done {
      FoldAppend(Initial, vs[..x], vs[x..]);
      DoneAbsorbs(f, vs[x..]);
      assert vs[..x] + vs[x..] == vs;
    }
  }

  /** The normalisation loop of `try_decode_row`. */
  method NormaliseRuns(runs: seq<Run>, markerWidth: nat) returns (text: string)
    requires markerWidth > 0
    ensures text == Normalise(runs, markerWidth)
  {
    text := [];
    var i := 0;
    while i < |runs|
      invariant 0 <= i <= |runs|
      invariant text == Normalise(runs[..i], markerWidth)
    {
      assert runs[..i + 1][..i] == runs[..i];
      var d := runs[i];
      var count := CharCount(d.n, markerWidth);
      if Printable(d.c) {
        var ch := d.c as char;
        var k := 0;
        var reps := Max1(count);
        while k < reps
          invariant 0 <= k <= reps
          invariant text == Normalise(runs[..i], markerWidth) + Repeat(ch, k)
        {
          text := text + [ch];
          k := k + 1;
        }
      }
      i := i + 1;
    }
    assert runs[..i] == runs;
  }

  // ---------------------------------------------------------------------------
  // Searching rows

  /** The first row among 0, 3, 6, … below `min(height, 60)`, from `y` on, that decodes. */
  function FirstRow(c: Capture, y: nat): Option<string>
    requires WellFormedCapture(c)
    decreases Min(c.height, 60) - y
  {
    if y >= Min(c.height, 60) then None
    else
      var here := DecodeValues(RowValues(c, y));
      if here.Some? then here else FirstRow(c, y + 3)
  }

  /** A result comes from some searched row; no result means every searched row failed. */
  lemma {:induction false} FirstRowFound(c: Capture, y: nat)
    requires WellFormedCapture(c) && y % 3 == 0
    ensures var r := FirstRow(c, y);
      (r.Some? ==> exists y' :: y <= y' < Min(c.height, 60) && y' % 3 == 0 && DecodeValues(RowValues(c, y')) == r)
      && (r.None? ==> forall y' :: y <= y' < Min(c.height, 60) && y' % 3 == 0 ==> DecodeValues(RowValues(c, y')).None?)
    decreases Min(c.height, 60) - y
  {
    if y < Min(c.height, 60) && DecodeValues(RowValues(c, y)).None? {
      FirstRowFound(c, y + 3);
      var r := FirstRow(c, y);
      if r.None? {
        forall y' | y <= y' < Min(c.height, 60) && y' % 3 == 0
          ensures DecodeValues(RowValues(c, y')).None?
        {
          if y' != y {
            assert y + 3 <= y';
          }
        }
      }
    }
  }

  /** `decode_hint_v2`: rows 0, 3, 6, … below `min(height, 60)`; the first that decodes wins. */
  method DecodeHintV2(c: Capture) returns (r: Option<string>)
    requires WellFormedCapture(c)
    ensures r == FirstRow(c, 0)
  {
    var limit := Min(c.height, 60);
    var y: nat := 0;
    while y < limit
      invariant FirstRow(c, 0) == FirstRow(c, y)
      decreases limit - y
    {
      var s := TryDecodeRow(c, y);
      FirstRowAt(c, y, s);
      if s.Some? {
        return s;
      }
      y := y + 3;
    }
    FirstRowPast(c, y);
    r := None;
  }

  lemma {:induction false} FirstRowPast(c: Capture, y: nat)
    requires WellFormedCapture(c) && y >= Min(c.height, 60)
    ensures FirstRow(c, y) == None
  {
  }

  lemma {:induction false} FirstRowAt(c: Capture, y: nat, s: Option<string>)
    requires WellFormedCapture(c) && y < Min(c.height, 60) && s == DecodeValues(RowValues(c, y))
    ensures s.Some? ==> FirstRow(c, y) == s
    ensures s.None? ==> FirstRow(c, y) == FirstRow(c, y + 3)
  {
  }

  /** Rows before the one that decodes all fail: the result is the first decodable row's. */
  lemma {:induction false} FirstRowIsFirst(c: Capture, y: nat, y1: nat)
    requires WellFormedCapture(c) && y % 3 == 0 && y1 % 3 == 0 && y <= y1 < Min(c.height, 60)
    requires DecodeValues(RowValues(c, y1)).Some?
    requires forall y' :: y <= y' < y1 && y' % 3 == 0 ==> DecodeValues(RowValues(c, y')).None?
    ensures FirstRow(c, y) == DecodeValues(RowValues(c, y1))
    decreases y1 - y
  {
    if y < y1 {
      FirstRowIsFirst(c, y + 3, y1);
    }
  }

  // ---------------------------------------------------------------------------
  // What the scanner recognises

  function Fill(v: nat, k: nat): (s: seq<nat>)
    ensures |s| == k && forall i :: 0 <= i < k ==> s[i] == v
  {
    if k == 0 then [] else Fill(v, k - 1) + [v]
  }

  /** In `M0`, zeros widen the marker. */
  lemma {:induction false} FoldZeros(mw: nat, k: nat)
    ensures Fold(Fsm(M0, mw, []), Fill(0, k)) == Fsm(M0, mw + k, [])
  {
    if k > 0 {
      assert Fill(0, k)[..k - 1] == Fill(0, k - 1);
      FoldZeros(mw, k - 1);
    }
  }

  /** From `M0`, a run of 0x7F widens the marker and enters `M1`. */
  lemma {:induction false} FoldMarks(mw: nat, k: nat)
    requires k >= 1
    ensures Fold(Fsm(M0, mw, []), Fill(0x7F, k)) == Fsm(M1, mw + k, [])
  {
    assert Fill(0x7F, k)[..k - 1] == Fill(0x7F, k - 1);
    if k > 1 {
      FoldMarks(mw, k - 1);
    }
  }

  /** Expanding runs back into the values they group. */
  function Expand(runs: seq<Run>): seq<nat> {
    if runs == [] then [] else Expand(runs[..|runs| - 1]) + Fill(runs[|runs| - 1].c, runs[|runs| - 1].n)
  }

  /** Runs are maximal: every run is non-empty and neighbours differ. */
  predicate Grouped(runs: seq<Run>) {
    && (forall i :: 0 <= i < |runs| ==> runs[i].n >= 1)
    && (forall i :: 0 <= i < |runs| - 1 ==> runs[i].c != runs[i + 1].c)
  }

  /**
   * From `M1`, data values without 0x7F are grouped into maximal runs whose
   * expansion is exactly the data: run-length encoding that loses nothing.
   */
  /** `f` is decoding, with marker width `mw`, and its maximal runs spell `data`. */
  predicate DecodedData(f: Fsm, mw: nat, data: seq<nat>)
    requires |data| >= 1
  {
    f.state == Decode && f.markerWidth == mw && Grouped(f.runs) && f.runs != []
    && Expand(f.runs) == data && f.runs[|f.runs| - 1].c == data[|data| - 1]
  }

  lemma {:induction false} FoldData(mw: nat, data: seq<nat>)
    requires |data| >= 1 && 0x7F !in data
    ensures DecodedData(Fold(Fsm(M1, mw, []), data), mw, data)
  {
    var init := data[..|data| - 1];
    var v := data[|data| - 1];
    assert data == init + [v];
    if |data| == 1 {
      assert data == [v];
      FoldFirstData(mw, v);
    } else {
      assert 0x7F !in init;
      FoldData(mw, init);
      var f := Fold(Fsm(M1, mw, []), init);
      assert Fold(Fsm(M1, mw, []), data) == Step(f, v);
      DecodeStep(f, v);
      assert Expand(f.runs) + [v] == data;
    }
  }

  lemma {:induction false} FoldFirstData(mw: nat, v: nat)
    requires v != 0x7F
    ensures DecodedData(Fold(Fsm(M1, mw, []), [v]), mw, [v])
  {
    assert Fold(Fsm(M1, mw, []), [v]) == Step(Fsm(M1, mw, []), v);
    assert Expand([Run(v, 1)]) == Expand([]) + Fill(v, 1);
  }

  /** One more data value extends the last run or starts a new one, keeping the runs maximal. */
  lemma {:induction false} DecodeStep(f: Fsm, v: nat)
    requires f.state == Decode && Grouped(f.runs) && f.runs != [] && v != 0x7F
    ensures DecodedData(Step(f, v), f.markerWidth, Expand(f.runs) + [v])
  {
    var last := f.runs[|f.runs| - 1];
    if last.c == v {
      ExtendLastRun(f.runs, v);
    } else {
      AppendRun(f.runs, v);
    }
  }

  /** Lengthening the last run by one keeps the runs maximal and adds one value to the expansion. */
  lemma {:induction false} ExtendLastRun(runs: seq<Run>, v: nat)
    requires Grouped(runs) && runs != [] && runs[|runs| - 1].c == v
    ensures var last := runs[|runs| - 1];
      var grown := runs[|runs| - 1 := Run(v, last.n + 1)];
      Grouped(grown) && Expand(grown) == Expand(runs) + [v]
  {
    var last := runs[|runs| - 1];
    var pre := runs[..|runs| - 1];
    var grown := runs[|runs| - 1 := Run(v, last.n + 1)];
    assert runs == pre + [last];
    assert grown == pre + [Run(v, last.n + 1)];
    ExpandSnoc(pre, last);
    ExpandSnoc(pre, Run(v, last.n + 1));
    FillSnoc(v, last.n);
  }

  /** A new run of one value different from the last keeps the runs maximal. */
  lemma {:induction false} AppendRun(runs: seq<Run>, v: nat)
    requires Grouped(runs) && runs != [] && runs[|runs| - 1].c != v
    ensures Grouped(runs + [Run(v, 1)]) && Expand(runs + [Run(v, 1)]) == Expand(runs) + [v]
  {
    ExpandSnoc(runs, Run(v, 1));
    FillSnoc(v, 0);
  }

  lemma {:induction false} FillSnoc(v: nat, n: nat)
    ensures Fill(v, n + 1) == Fill(v, n) + [v]
  {
  }

  lemma {:induction false} ExpandSnoc(runs: seq<Run>, r: Run)
    ensures Expand(runs + [r]) == Expand(runs) + Fill(r.c, r.n)
  {
    assert (runs + [r])[..|runs|] == runs;
  }

  /** In `Decode`, a run of 0x7F ends the data; in `End1`, more 0x7F is absorbed. */
  lemma {:induction false} FoldTrailer(f: Fsm, k: nat)
    requires f.state == Decode && k >= 1
    ensures Fold(f, Fill(0x7F, k)) == f.(state := End1)
  {
    assert Fill(0x7F, k)[..k - 1] == Fill(0x7F, k - 1);
    if k > 1 {
      FoldTrailer(f, k - 1);
    }
  }

  /** In `End1`, anything but 0x00 is absorbed. */
  lemma {:induction false} End1Waits(f: Fsm, ws: seq<nat>)
    requires f.state == End1 && 0 !in ws
    ensures Fold(f, ws) == f
  {
    if ws != [] {
      End1Waits(f, ws[..|ws| - 1]);
    }
  }

  /** In `Decode`, one 0x7F ends the data, and whatever follows short of 0x00 leaves the scan in `End1`. */
  lemma {:induction false} TrailerThenNoise(f: Fsm, ws: seq<nat>)
    requires f.state == Decode && 0 !in ws
    ensures Fold(f, [0x7F] + ws) == f.(state := End1)
  {
    FoldAppend(f, [0x7F], ws);
    assert Fold(f, [0x7F]) == f.(state := End1);
    End1Waits(f.(state := End1), ws);
  }

  /** Before the first 0x00, the scan stays where it started. */
  lemma {:induction false} JunkKeepsStart(w: nat, runs: seq<Run>, vs: seq<nat>)
    requires 0 !in vs
    ensures Fold(Fsm(Start, w, runs), vs) == Fsm(Start, w, runs)
  {
    if vs != [] {
      JunkKeepsStart(w, runs, vs[..|vs| - 1]);
    }
  }

  /** A row's values before its first 0x00 are ignored: the scan is that of the rest. */
  lemma {:induction false} JunkPrefix(junk: seq<nat>, vs: seq<nat>)
    requires 0 !in junk
    ensures Fold(Initial, junk + vs) == Fold(Initial, vs)
    ensures DecodeValues(junk + vs) == DecodeValues(vs)
  {
    FoldAppend(Initial, junk, vs);
    JunkKeepsStart(0, [], junk);
  }

  /** From `Start`, the marker width left by a broken marker is forgotten at the next 0x00. */
  lemma {:induction false} StartResyncs(w: nat, vs: seq<nat>)
    ensures 0 in vs ==> Fold(Fsm(Start, w, []), vs) == Fold(Initial, vs)
    ensures 0 !in vs ==> Fold(Fsm(Start, w, []), vs) == Fsm(Start, w, [])
  {
    if vs != [] {
      var init, x := vs[..|vs| - 1], vs[|vs| - 1];
      assert vs == init + [x];
      StartResyncs(w, init);
      if 0 !in init {
        JunkKeepsStart(0, [], init);
      }
    }
  }

  /**
   * A marker broken by a value that is neither 0x00 nor 0x7F sends the scan
   * back to `Start`: the row decodes as what follows the break does.
   */
  lemma {:induction false} MarkerBroken(z: nat, v: nat, rest: seq<nat>)
    requires z >= 1 && v != 0 && v != 0x7F
    ensures Fold(Initial, Fill(0, z) + [v]) == Fsm(Start, z, [])
    ensures DecodeValues(Fill(0, z) + [v] + rest) == DecodeValues(rest)
  {
    LeadingZeros(z);
    FoldSnoc(Initial, Fill(0, z), v);
    FoldAppend(Initial, Fill(0, z) + [v], rest);
    StartResyncs(z, rest);
    if 0 !in rest {
      JunkKeepsStart(0, [], rest);
    }
  }

  /** Leading zeros open the marker: `M0` with one unit of width per zero. */
  lemma {:induction false} LeadingZeros(z: nat)
    requires z >= 1
    ensures Fold(Initial, Fill(0, z)) == Fsm(M0, z, [])
  {
    var zs := Fill(0, z);
    assert zs == [0] + Fill(0, z - 1) by {
      assert forall i :: 0 <= i < z ==> zs[i] == ([0] + Fill(0, z - 1))[i];
    }
    FoldAppend(Initial, [0], Fill(0, z - 1));
    assert Fold(Initial, [0]) == Fsm(M0, 1, []);
    FoldZeros(1, z - 1);
  }

  /** After the marker `0x00×z, 0x7F×m`, the data is grouped with marker width z + m. */
  lemma {:induction false} MarkerThenData(z: nat, m: nat, data: seq<nat>)
    requires z >= 1 && m >= 1
    ensures Fold(Initial, Fill(0, z) + Fill(0x7F, m) + data) == Fold(Fsm(M1, z + m, []), data)
  {
    var p := Fill(0, z) + Fill(0x7F, m);
    assert Fold(Initial, p) == Fsm(M1, z + m, []) by {
      FoldAppend(Initial, Fill(0, z), Fill(0x7F, m));
      LeadingZeros(z);
      FoldMarks(z, m);
    }
    FoldAppend(Initial, p, data);
  }

  /**
   * A strip `0x00×z, 0x7F×m, data, 0x7F×t, 0x00` (then anything) decodes with a
   * marker width of z + m: both marker runs count. Its runs are the
   * run-length grouping of `data`.
   */
  lemma {:induction false} Strip(z: nat, m: nat, data: seq<nat>, t: nat, rest: seq<nat>)
    requires z >= 1 && m >= 1 && t >= 1 && |data| >= 1 && 0x7F !in data
    ensures var f := Fold(Initial, Fill(0, z) + Fill(0x7F, m) + data + Fill(0x7F, t) + [0] + rest);
      f.state == Done && f.markerWidth == z + m && Grouped(f.runs) && Expand(f.runs) == data
  {
    var p3 := Fill(0, z) + Fill(0x7F, m) + data;
    var f3 := Fold(Fsm(M1, z + m, []), data);
    assert Fold(Initial, p3) == f3 by {
      MarkerThenData(z, m, data);
    }
    FoldData(z + m, data);
    var p4 := p3 + Fill(0x7F, t);
    assert Fold(Initial, p4) == f3.(state := End1) by {
      FoldAppend(Initial, p3, Fill(0x7F, t));
      FoldTrailer(f3, t);
    }
    var p5 := p4 + [0];
    var f5 := f3.(state := Done);
    assert Fold(Initial, p5) == f5 by {
      FoldAppend(Initial, p4, [0]);
      assert Fold(f3.(state := End1), [0]) == f5;
    }
    assert Fold(Initial, p5 + rest) == f5 by {
      FoldAppend(Initial, p5, rest);
      DoneAbsorbs(f5, rest);
    }
  }

  /** Without the closing 0x00 the scan never finishes, so the row gives nothing. */
  lemma {:induction false} StripUnclosed(z: nat, m: nat, data: seq<nat>, t: nat)
    requires z >= 1 && m >= 1 && t >= 1 && |data| >= 1 && 0x7F !in data
    ensures DecodeValues(Fill(0, z) + Fill(0x7F, m) + data + Fill(0x7F, t)).None?
  {
    var tail := data + Fill(0x7F, t);
    DataThenTrailer(z + m, data, t);
    MarkerThenData(z, m, tail);
    assert Fill(0, z) + Fill(0x7F, m) + data + Fill(0x7F, t) == Fill(0, z) + Fill(0x7F, m) + tail;
    UnfinishedDecodesNothing(Fill(0, z) + Fill(0x7F, m) + tail);
  }

  /** Data and then the trailer leave the scan waiting for the closing 0x00. */
  lemma {:induction false} DataThenTrailer(mw: nat, data: seq<nat>, t: nat)
    requires |data| >= 1 && 0x7F !in data && t >= 1
    ensures Fold(Fsm(M1, mw, []), data + Fill(0x7F, t)).state == End1
  {
    var f := Fold(Fsm(M1, mw, []), data);
    FoldData(mw, data);
    FoldAppend(Fsm(M1, mw, []), data, Fill(0x7F, t));
    FoldTrailer(f, t);
  }

  /** A scan that has not reached `Done` gives nothing. */
  lemma {:induction false} UnfinishedDecodesNothing(vs: seq<nat>)
    requires Fold(Initial, vs).state != Done
    ensures DecodeValues(vs).None?
  {
  }

  /** A row of nothing but zeros never decodes. */
  lemma {:induction false} ZeroRow(k: nat)
    ensures DecodeValues(Fill(0, k)).None?
  {
    if k > 0 {
      LeadingZeros(k);
    }
  }

  /**
   * The strip `0x00×5, 0x7F×5, v×10, 0x7F×5, 0x00×5` has marker width 10, so its
   * ten data pixels give round(20/10) = 2 copies of a printable `v`.
   */
  lemma {:induction false} StripExample(v: nat)
    requires Printable(v)
    ensures DecodeValues(Fill(0, 5) + Fill(0x7F, 5) + Fill(v, 10) + Fill(0x7F, 5) + Fill(0, 5)) == Some([v as char, v as char])
  {
    var fives := Fill(0, 5);
    assert fives == [0] + Fill(0, 4) by {
      assert forall i :: 0 <= i < 5 ==> fives[i] == ([0] + Fill(0, 4))[i];
    }
    var pre := Fill(0, 5) + Fill(0x7F, 5) + Fill(v, 10) + Fill(0x7F, 5);
    assert pre + fives == pre + [0] + Fill(0, 4);
    StripOneValue(5, 5, v, 10, 5, Fill(0, 4));
    assert CharCount(10, 10) == 2;
    assert Repeat(v as char, 2) == [v as char, v as char];
  }

  /**
   * A strip whose data is one value repeated d times decodes to that value
   * repeated round(2d / (z + m)) times (at least once), when it is printable,
   * and to nothing otherwise.
   */
  lemma {:induction false} StripOneValue(z: nat, m: nat, v: nat, d: nat, t: nat, rest: seq<nat>)
    requires z >= 1 && m >= 1 && t >= 1 && d >= 1 && v != 0x7F
    ensures DecodeValues(Fill(0, z) + Fill(0x7F, m) + Fill(v, d) + Fill(0x7F, t) + [0] + rest) == OneRunText(z + m, v, d)
  {
    OneValueScan(z, m, v, d, t, rest);
    DecodeOneRun(Fill(0, z) + Fill(0x7F, m) + Fill(v, d) + Fill(0x7F, t) + [0] + rest, z + m, v, d);
  }

  lemma {:induction false} DecodeOneRun(vs: seq<nat>, mw: nat, v: nat, d: nat)
    requires mw >= 1 && Fold(Initial, vs) == Fsm(Done, mw, [Run(v, d)])
    ensures DecodeValues(vs) == OneRunText(mw, v, d)
  {
    FinishOneRun(mw, v, d);
  }

  /** What a single run (v, d) reads as under marker width `mw`. */
  function OneRunText(mw: nat, v: nat, d: nat): Option<string>
    requires mw >= 1
  {
    if Printable(v) then Some(Repeat(v as char, Max1(CharCount(d, mw)))) else None
  }

  /** The scan of such a strip ends `Done` with the single run (v, d). */
  lemma {:induction false} OneValueScan(z: nat, m: nat, v: nat, d: nat, t: nat, rest: seq<nat>)
    requires z >= 1 && m >= 1 && t >= 1 && d >= 1 && v != 0x7F
    ensures Fold(Initial, Fill(0, z) + Fill(0x7F, m) + Fill(v, d) + Fill(0x7F, t) + [0] + rest)
      == Fsm(Done, z + m, [Run(v, d)])
  {
    var data := Fill(v, d);
    assert 0x7F !in data;
    Strip(z, m, data, t, rest);
    GroupedSingle(Fold(Initial, Fill(0, z) + Fill(0x7F, m) + data + Fill(0x7F, t) + [0] + rest).runs, v, d);
  }

  lemma {:induction false} FinishOneRun(mw: nat, v: nat, d: nat)
    requires mw >= 1
    ensures Finish(Fsm(Done, mw, [Run(v, d)])) == OneRunText(mw, v, d)
  {
    var text := Normalise([Run(v, d)], mw);
    assert [Run(v, d)][..0] == [];
    assert text == Normalise([], mw) + (if Printable(v) then Repeat(v as char, Max1(CharCount(d, mw))) else []);
    if Printable(v) {
      assert text == Repeat(v as char, Max1(CharCount(d, mw)));
      assert |text| >= 1;
      assert Finish(Fsm(Done, mw, [Run(v, d)])) == Some(text);
    } else {
      assert text == [];
    }
  }

  /** The expansion of non-empty runs ends with the last run's value. */
  lemma {:induction false} ExpandLast(runs: seq<Run>)
    requires runs != [] && runs[|runs| - 1].n >= 1
    ensures |Expand(runs)| >= 1 && Expand(runs)[|Expand(runs)| - 1] == runs[|runs| - 1].c
  {
    var d := runs[|runs| - 1];
    assert Expand(runs) == Expand(runs[..|runs| - 1]) + Fill(d.c, d.n);
  }

  /** Grouped runs of two or more expand to a sequence that is not constant. */
  lemma {:induction false} GroupedVaries(runs: seq<Run>)
    requires Grouped(runs) && |runs| >= 2
    ensures var e := Expand(runs); var i := |Expand(runs[..|runs| - 1])| - 1;
      0 <= i < |e| - 1 && e[i] != e[|e| - 1]
  {
    var pre := runs[..|runs| - 1];
    var last := runs[|runs| - 1];
    assert Expand(runs) == Expand(pre) + Fill(last.c, last.n);
    assert pre[|pre| - 1] == runs[|runs| - 2];
    ExpandLast(pre);
    ExpandLast(runs);
  }

  /** Grouped runs that expand to one repeated value are a single run. */
  lemma {:induction false} GroupedSingle(runs: seq<Run>, v: nat, k: nat)
    requires Grouped(runs) && runs != [] && Expand(runs) == Fill(v, k) && k >= 1
    ensures runs == [Run(v, k)]
  {
    var pre := runs[..|runs| - 1];
    var last := runs[|runs| - 1];
    assert Expand(runs) == Expand(pre) + Fill(last.c, last.n);
    if |runs| >= 2 {
      GroupedVaries(runs);
      assert false;
    }
    assert Fill(v, k)[k - 1] == v;
    assert runs == [last];
  }
}
