/**
 * The arithmetic and text rules of the terminal UI (crates/tui/src/ui.rs):
 * reading a structured log record back into coloured spans, choosing which
 * log lines fit the log panel, centring the run-state banner, and the status
 * text of an instance row. Widgets, layout and drawing are not modelled; a
 * rendered line is the sequence of its spans.
 */
module Ui {
  import opened Wrappers
  import opened Text
  import opened Types
  import Logger

  /** The terminal colours the rules below choose between. */
  datatype Color = Black | Red | Green | Yellow | Cyan | White | DarkGray | LightBlue

  /** A piece of text with an optional foreground colour, bold or not. */
  datatype Span = Span(text: string, fg: Option<Color>, bold: bool)

  type Line = seq<Span>

  /** `usize::saturating_sub` */
  function SatSub(a: nat, b: nat): (d: nat)
    ensures a >= b ==> d + b == a
    ensures a < b ==> d == 0
  {
    if a >= b then a - b else 0
  }

  function Min(a: nat, b: nat): nat {
    if a <= b then a else b
  }

  function Max(a: nat, b: nat): nat {
    if a >= b then a else b
  }

  // ---------------------------------------------------------------------------
  // Log records

  /** The fields of a structured log record, the colour index already parsed. */
  datatype LogRecord = LogRecord(level: string, prefix: string, color: nat, ts: string, msg: string)

  /**
   * The colour of a record's prefix and message: index 1 (the logger's gray)
   * is dark gray, 2 (its blue) is light blue, anything else white.
   */
  function PrefixColor(idx: nat): (c: Color)
    ensures c == DarkGray <==> idx == Logger.ColorGray
    ensures c == LightBlue <==> idx == Logger.ColorBlue
    ensures c == White <==> idx != Logger.ColorGray && idx != Logger.ColorBlue
  {
    if idx == 1 then DarkGray else if idx == 2 then LightBlue else White
  }

  /** The fields of a raw line, or nothing when it has fewer than five; a bad colour index reads as 0. */
  function Fields(raw: string): (r: Option<LogRecord>)
    ensures r.Some? ==> r.value.color < 256
  {
    var parts := SplitN(raw, 5, Logger.FieldSep);
    if |parts| < 5 then None
    else Some(LogRecord(parts[0], parts[1], ParseU8(parts[2]).UnwrapOr(0), parts[3], parts[4]))
  }

  /** The level tag: shown, coloured, for errors and warnings only. */
  function LevelTag(level: string): (tag: Line)
    ensures |tag| <= 1
    ensures |tag| == 1 <==> level == "ERROR" || level == "WARN"
  {
    if level == "ERROR" then [Span("error ", Some(Red), false)]
    else if level == "WARN" then [Span("warn ", Some(Yellow), false)]
    else []
  }

  /** The bold prefix and a space, in the record's colour, when there is a prefix. */
  function PrefixSpans(prefix: string, c: Color): (spans: Line)
    ensures prefix == "" <==> spans == []
  {
    if prefix == "" then [] else [Span(prefix, Some(c), true), Span(" ", Some(c), false)]
  }

  /** The spans of a structured record. */
  function Render(rec: LogRecord): (line: Line)
    ensures |line| == 3 + |LevelTag(rec.level)| + |PrefixSpans(rec.prefix, PrefixColor(rec.color))|
    ensures line[0] == Span(rec.ts, Some(DarkGray), false) && line[1] == Span(" ", None, false)
    ensures line[|line| - 1] == Span(rec.msg, Some(PrefixColor(rec.color)), false)
  {
    var c := PrefixColor(rec.color);
    [Span(rec.ts, Some(DarkGray), false), Span(" ", None, false)]
      + LevelTag(rec.level) + PrefixSpans(rec.prefix, c) + [Span(rec.msg, Some(c), false)]
  }

  /** `parse_log_line`: a structured record as spans; any other line as one plain span. */
  function ParseLogLine(raw: string): Line {
    match Fields(raw)
    case None => [Span(raw, None, false)]
    case Some(rec) => Render(rec)
  }

  /** The text a line shows. */
  function LineText(line: Line): string {
    if line == [] then "" else LineText(line[..|line| - 1]) + line[|line| - 1].text
  }

  /** How many times a character occurs. */
  function Occurrences(s: string, c: char): nat {
    multiset(s)[c]
  }

  /** A line is structured exactly when it holds at least four separators. */
  lemma {:induction false} FieldsFallback(raw: string)
    ensures Fields(raw).None? <==> Occurrences(raw, Logger.FieldSep) < 4
  {
    var parts := SplitN(raw, 5, Logger.FieldSep);
    assert Fields(raw).None? <==> |parts| < 5;
    assert Occurrences(raw, Logger.FieldSep) == Occurrences(Join(parts, Logger.FieldSep), Logger.FieldSep) by {
      JoinSplitN(raw, 5, Logger.FieldSep);
    }
    if |parts| < 5 {
      SplitNPieces(raw, 5, Logger.FieldSep);
      assert forall k :: 0 <= k < |parts| ==> Logger.FieldSep !in parts[k];
      JoinOccurrences(parts, Logger.FieldSep);
    } else {
      JoinOccurrencesAtLeast(parts, Logger.FieldSep);
    }
  }

  /** Joining separator-free pieces puts exactly one separator between neighbours. */
  lemma {:induction false} JoinOccurrences(parts: seq<string>, sep: char)
    requires |parts| >= 1 && forall k :: 0 <= k < |parts| ==> sep !in parts[k]
    ensures Occurrences(Join(parts, sep), sep) == |parts| - 1
  {
    if |parts| > 1 {
      JoinOccurrences(parts[1..], sep);
      assert multiset(parts[0])[sep] == 0;
      assert Join(parts, sep) == parts[0] + [sep] + Join(parts[1..], sep);
      assert multiset(parts[0] + [sep] + Join(parts[1..], sep))
        == multiset(parts[0]) + multiset([sep]) + multiset(Join(parts[1..], sep));
    } else {
      assert multiset(parts[0])[sep] == 0;
    }
  }

  /** Joining pieces puts at least one separator between neighbours. */
  lemma {:induction false} JoinOccurrencesAtLeast(parts: seq<string>, sep: char)
    requires |parts| >= 1
    ensures Occurrences(Join(parts, sep), sep) >= |parts| - 1
  {
    if |parts| > 1 {
      JoinOccurrencesAtLeast(parts[1..], sep);
      assert Join(parts, sep) == parts[0] + [sep] + Join(parts[1..], sep);
      assert multiset(parts[0] + [sep] + Join(parts[1..], sep))
        == multiset(parts[0]) + multiset([sep]) + multiset(Join(parts[1..], sep));
    }
  }

  /**
   * The UI reads back what the logger formats: the five fields come back
   * unchanged, the message even when it holds separators, provided level,
   * prefix and timestamp hold none.
   */
  lemma {:induction false} ParseFormatted(level: string, prefix: string, color: Logger.U8, ts: string, msg: string)
    requires Logger.FieldSep !in level && Logger.FieldSep !in prefix && Logger.FieldSep !in ts
    ensures Fields(Logger.TuiLine(level, prefix, color, ts, msg)) == Some(LogRecord(level, prefix, color, ts, msg))
    ensures ParseLogLine(Logger.TuiLine(level, prefix, color, ts, msg)) == Render(LogRecord(level, prefix, color, ts, msg))
  {
    Logger.TuiLineSplits(level, prefix, color, ts, msg);
    ParseU8Decimal(color);
  }

  /** The text of a structured record: timestamp, space, level tag, prefix and space, message. */
  lemma {:induction false} RenderText(rec: LogRecord)
    ensures LineText(Render(rec)) == rec.ts + " " + LineText(LevelTag(rec.level))
      + (if rec.prefix == "" then "" else rec.prefix + " ") + rec.msg
  {
    var c := PrefixColor(rec.color);
    var head := [Span(rec.ts, Some(DarkGray), false), Span(" ", None, false)];
    var tag := LevelTag(rec.level);
    var pre := PrefixSpans(rec.prefix, c);
    var last := [Span(rec.msg, Some(c), false)];
    LineTextAppend(head, tag);
    LineTextAppend(head + tag, pre);
    LineTextAppend(head + tag + pre, last);
    assert LineText(head) == rec.ts + " " by {
      assert head[..1] == [head[0]];
      assert LineText([head[0]]) == rec.ts by {
        assert [head[0]][..0] == [];
      }
    }
    assert LineText(last) == rec.msg by {
      assert last[..0] == [];
    }
    if rec.prefix != "" {
      assert LineText(pre) == rec.prefix + " " by {
        assert pre[..1] == [pre[0]];
        assert [pre[0]][..0] == [];
      }
    }
  }

  lemma {:induction false} LineTextAppend(a: Line, b: Line)
    ensures LineText(a + b) == LineText(a) + LineText(b)
  {
    if b == [] {
      assert a + b == a;
    } else {
      assert (a + b)[..|a + b| - 1] == a + b[..|b| - 1];
      LineTextAppend(a, b[..|b| - 1]);
    }
  }

  // ---------------------------------------------------------------------------
  // The log panel

  /**
   * Which log lines the panel shows, `[start, end)`: a panel of `height` rows
   * has `height - 2` text rows inside its border; the scroll offset counts
   * from the newest line and is capped so the panel stays full.
   */
  function LogWindow(height: nat, total: nat, scroll: nat): (w: (nat, nat))
    ensures w.0 <= w.1 <= total
    ensures w.1 - w.0 == Min(SatSub(height, 2), total)
    ensures w.1 == total - Min(scroll, SatSub(total, SatSub(height, 2)))
  {
    var visible := SatSub(height, 2);
    var maxScroll := SatSub(total, visible);
    var s := Min(scroll, maxScroll);
    (SatSub(total, visible + s), SatSub(total, s))
  }

  /** Scrolling back never moves the window forward. */
  lemma {:induction false} LogWindowMonotone(height: nat, total: nat, s1: nat, s2: nat)
    requires s1 <= s2
    ensures LogWindow(height, total, s2).0 <= LogWindow(height, total, s1).0
    ensures LogWindow(height, total, s2).1 <= LogWindow(height, total, s1).1
  {
  }

  /** At offset 0 the newest line is shown; scrolled all the way back, the oldest. */
  lemma {:induction false} LogWindowEnds(height: nat, total: nat, scroll: nat)
    ensures scroll == 0 ==> LogWindow(height, total, scroll).1 == total
    ensures scroll >= SatSub(total, SatSub(height, 2)) ==> LogWindow(height, total, scroll).0 == 0
  {
  }

  /** The parsed lines the panel shows, oldest first. */
  function VisibleLogs(messages: seq<string>, height: nat, scroll: nat): (lines: seq<Line>)
    ensures |lines| == Min(SatSub(height, 2), |messages|)
    ensures var w := LogWindow(height, |messages|, scroll);
      |lines| == w.1 - w.0 && forall k :: 0 <= k < |lines| ==> lines[k] == ParseLogLine(messages[w.0 + k])
  {
    var w := LogWindow(height, |messages|, scroll);
    MapLines(ParseLogLine, messages[w.0..w.1])
  }

  /** Each message turned into a line by `f`, in order. */
  function MapLines(f: string -> Line, messages: seq<string>): (lines: seq<Line>)
    ensures |lines| == |messages|
    ensures forall k :: 0 <= k < |lines| ==> lines[k] == f(messages[k])
  {
    if messages == [] then []
    else MapLines(f, messages[..|messages| - 1]) + [f(messages[|messages| - 1])]
  }

  // ---------------------------------------------------------------------------
  // The banner

  /** The banner text and colour for each run state. */
  function BannerLabel(s: RunState): string {
    match s
    case Running => "RUNNING (Press S to stop)"
    case Stopping => "STOPPING..."
    case Stopped => "STOPPED (Press S to start)"
  }

  function BannerColor(s: RunState): Color {
    match s
    case Running => Green
    case Stopping => Yellow
    case Stopped => Red
  }

  /** The padding either side of a label of `len` bytes in a bar `width` columns wide. */
  function BannerPad(width: nat, len: nat): (pad: (nat, nat))
    ensures pad.0 + len + pad.1 == Max(width, len)
    ensures pad.0 <= pad.1 <= pad.0 + 1
  {
    var total := SatSub(width, len);
    var left := total / 2;
    (left, total - left)
  }

  function Spaces(n: nat): (s: string)
    ensures |s| == n && forall i :: 0 <= i < n ==> s[i] == ' '
  {
    seq(n, i => ' ')
  }

  /** The centred banner: the label with the padding either side (the labels are ASCII, one byte per character). */
  function CenteredBanner(width: nat, caption: string): (text: string)
    ensures |text| == Max(width, |caption|)
    ensures var left := BannerPad(width, |caption|).0;
      text[left..left + |caption|] == caption
      && (forall i :: 0 <= i < left ==> text[i] == ' ')
      && (forall i :: left + |caption| <= i < |text| ==> text[i] == ' ')
  {
    var pad := BannerPad(width, |caption|);
    Spaces(pad.0) + caption + Spaces(pad.1)
  }

  // ---------------------------------------------------------------------------
  // Instance rows

  /** The status text of an instance row: the error if any, else the status if any, else nothing. */
  function StatusText(inst: Instance): (t: string)
    ensures t == "" <==> inst.error.None? && inst.status == ""
    ensures inst.error.Some? ==> IsPrefix(" err: ", t) && t[6..] == inst.error.value
    ensures inst.error.None? && inst.status != "" ==> IsPrefix(" ", t) && t[1..] == inst.status
  {
    match inst.error
    case Some(e) => " err: " + e
    case None => if inst.status != "" then " " + inst.status else ""
  }

  /** Errors show red, everything else cyan. */
  function StatusColor(inst: Instance): (c: Color)
    ensures c == Red <==> inst.error.Some?
  {
    if inst.error.Some? then Red else Cyan
  }
}
