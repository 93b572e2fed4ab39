/**
 * The process-wide logger (crates/core/src/logger.rs): a one-time `init`, an
 * optional channel to the terminal UI, a table of prefix colours, and the two
 * line formats every log call writes — plain text for the log file and a
 * `\x1f`-separated record for the UI.
 *
 * The global `OnceLock<Mutex<Logger>>` is an object of class `Logger`; the
 * log file is the sequence of lines written to it since `init`; the clock is
 * the timestamp parameter `ts`.
 */
module Logger {
  import opened Wrappers
  import opened Text
  import opened Shared

  /** `u8` */
  type U8 = c: nat | c < 256

  /** Colour indices the UI maps to colours. */
  const ColorGray: U8 := 1
  const ColorBlue: U8 := 2

  /** The field separator of UI records, the ASCII unit separator. */
  const FieldSep: char := '\U{1F}'

  /**
   * The file line: `[ts] [level] msg`, with `[prefix] ` before the message
   * when the prefix is not empty.
   */
  function FileLine(ts: string, level: string, prefix: string, msg: string): (line: string)
    ensures var head := "[" + ts + "] [" + level + "] ";
      && IsPrefix(head, line)
      && |line| >= |msg| && line[|line| - |msg|..] == msg
      && |line| == |head| + (if prefix == "" then 0 else |prefix| + 3) + |msg|
      && (prefix != "" ==> line[|head|..|line| - |msg|] == "[" + prefix + "] ")
  {
    if prefix == "" then "[" + ts + "] [" + level + "] " + msg
    else "[" + ts + "] [" + level + "] [" + prefix + "] " + msg
  }

  /** The five fields of a UI record, in order. */
  function TuiFields(level: string, prefix: string, color: U8, ts: string, msg: string): seq<string> {
    [level, prefix, Decimal(color), ts, msg]
  }

  /** The UI record: the five fields joined by the unit separator. */
  function TuiLine(level: string, prefix: string, color: U8, ts: string, msg: string): string {
    Join(TuiFields(level, prefix, color, ts, msg), FieldSep)
  }

  /**
   * Splitting a UI record into at most five fields gives back the fields,
   * provided level, prefix and timestamp hold no separator; the message may.
   */
  lemma {:induction false} TuiLineSplits(level: string, prefix: string, color: U8, ts: string, msg: string)
    requires FieldSep !in level && FieldSep !in prefix && FieldSep !in ts
    ensures SplitN(TuiLine(level, prefix, color, ts, msg), 5, FieldSep) == TuiFields(level, prefix, color, ts, msg)
  {
    DigitsHoldNoSeparator(Decimal(color));
    SplitNJoin(TuiFields(level, prefix, color, ts, msg), FieldSep);
  }

  lemma {:induction false} DigitsHoldNoSeparator(s: string)
    requires AllDigits(s)
    ensures FieldSep !in s
  {
    forall i | 0 <= i < |s|
      ensures s[i] != FieldSep
    {
      assert IsDigit(s[i]);
    }
  }

  /** The global logger, once `init` has run. */
  class Logger {
    /** Whether `init` has run (the `OnceLock` is set). */
    var initialised: bool
    /** The lines written to the log file since `init` truncated it. */
    var fileLines: seq<string>
    /** The sender to the UI, once wired. */
    var tuiTx: Option<Channel<string>>
    /** Prefix to colour index. */
    var prefixes: map<string, U8>

    /** The state before `init`: the `OnceLock` is empty. */
    constructor()
      ensures !initialised && fileLines == [] && tuiTx == None && prefixes == map[]
    {
      initialised := false;
      fileLines := [];
      tuiTx := None;
      prefixes := map[];
    }

    /** `init`: the first call sets up an empty file, no UI sender and no prefixes; later calls do nothing. */
    method Init()
      modifies this
      ensures old(initialised) ==> unchanged(this)
      ensures !old(initialised) ==> initialised && fileLines == [] && tuiTx == None && prefixes == map[]
    {
      if !initialised {
        initialised := true;
        fileLines := [];
        tuiTx := None;
        prefixes := map[];
      }
    }

    /** `set_tui_sender`: wires the UI channel, once the logger exists. */
    method SetTuiSender(tx: Channel<string>)
      modifies this
      ensures initialised == old(initialised) && fileLines == old(fileLines) && prefixes == old(prefixes)
      ensures tuiTx == if initialised then Some(tx) else old(tuiTx)
    {
      if initialised {
        tuiTx := Some(tx);
      }
    }

    /** `register_prefix`: sets (or overwrites) the colour of a prefix, once the logger exists. */
    method RegisterPrefix(prefix: string, color: U8)
      modifies this
      ensures initialised == old(initialised) && fileLines == old(fileLines) && tuiTx == old(tuiTx)
      ensures prefixes == if initialised then old(prefixes)[prefix := color] else old(prefixes)
    {
      if initialised {
        prefixes := prefixes[prefix := color];
      }
    }

    /** The colour the `_p` calls use: the registered one, else 0. */
    function PrefixColor(prefix: string): (color: U8)
      reads this
      ensures initialised && prefix in prefixes ==> color == prefixes[prefix]
      ensures !(initialised && prefix in prefixes) ==> color == 0
    {
      if initialised && prefix in prefixes then prefixes[prefix] else 0
    }

    /**
     * `write_log`: once the logger exists, one file line, and one UI record
     * when the UI channel is wired; before `init`, nothing.
     */
    method WriteLog(level: string, prefix: string, color: U8, ts: string, msg: string)
      modifies this, if tuiTx.Some? then {tuiTx.value} else {}
      ensures initialised == old(initialised) && tuiTx == old(tuiTx) && prefixes == old(prefixes)
      ensures fileLines == if initialised then old(fileLines) + [FileLine(ts, level, prefix, msg)] else old(fileLines)
      ensures tuiTx.Some? ==>
        tuiTx.value.pending == (if initialised then old(tuiTx.value.pending) + [TuiLine(level, prefix, color, ts, msg)]
          else old(tuiTx.value.pending))
    {
      var fileLine := FileLine(ts, level, prefix, msg);
      var tuiLine := TuiLine(level, prefix, color, ts, msg);
      if initialised {
        fileLines := fileLines + [fileLine];
        if tuiTx.Some? {
          tuiTx.value.Send(tuiLine);
        }
      }
    }

    /** `info`, `warn`, `error`: no prefix, colour 0. */
    method Info(ts: string, msg: string)
      modifies this, if tuiTx.Some? then {tuiTx.value} else {}
      ensures initialised == old(initialised) && tuiTx == old(tuiTx) && prefixes == old(prefixes)
      ensures fileLines == if initialised then old(fileLines) + [FileLine(ts, "INFO", "", msg)] else old(fileLines)
      ensures tuiTx.Some? ==>
        tuiTx.value.pending == (if initialised then old(tuiTx.value.pending) + [TuiLine("INFO", "", 0, ts, msg)]
          else old(tuiTx.value.pending))
    {
      WriteLog("INFO", "", 0, ts, msg);
    }

    method Warn(ts: string, msg: string)
      modifies this, if tuiTx.Some? then {tuiTx.value} else {}
      ensures initialised == old(initialised) && tuiTx == old(tuiTx) && prefixes == old(prefixes)
      ensures fileLines == if initialised then old(fileLines) + [FileLine(ts, "WARN", "", msg)] else old(fileLines)
      ensures tuiTx.Some? ==>
        tuiTx.value.pending == (if initialised then old(tuiTx.value.pending) + [TuiLine("WARN", "", 0, ts, msg)]
          else old(tuiTx.value.pending))
    {
      WriteLog("WARN", "", 0, ts, msg);
    }

    method Error(ts: string, msg: string)
      modifies this, if tuiTx.Some? then {tuiTx.value} else {}
      ensures initialised == old(initialised) && tuiTx == old(tuiTx) && prefixes == old(prefixes)
      ensures fileLines == if initialised then old(fileLines) + [FileLine(ts, "ERROR", "", msg)] else old(fileLines)
      ensures tuiTx.Some? ==>
        tuiTx.value.pending == (if initialised then old(tuiTx.value.pending) + [TuiLine("ERROR", "", 0, ts, msg)]
          else old(tuiTx.value.pending))
    {
      WriteLog("ERROR", "", 0, ts, msg);
    }

    /** `info_p`, `warn_p`, `error_p`: the prefix with its registered colour. */
    method InfoP(prefix: string, ts: string, msg: string)
      modifies this, if tuiTx.Some? then {tuiTx.value} else {}
      ensures initialised == old(initialised) && tuiTx == old(tuiTx) && prefixes == old(prefixes)
      ensures fileLines == if initialised then old(fileLines) + [FileLine(ts, "INFO", prefix, msg)] else old(fileLines)
      ensures tuiTx.Some? ==>
        tuiTx.value.pending == (if initialised then old(tuiTx.value.pending) + [TuiLine("INFO", prefix, old(PrefixColor(prefix)), ts, msg)]
          else old(tuiTx.value.pending))
    {
      var color := PrefixColor(prefix);
      WriteLog("INFO", prefix, color, ts, msg);
    }

    method WarnP(prefix: string, ts: string, msg: string)
      modifies this, if tuiTx.Some? then {tuiTx.value} else {}
      ensures initialised == old(initialised) && tuiTx == old(tuiTx) && prefixes == old(prefixes)
      ensures fileLines == if initialised then old(fileLines) + [FileLine(ts, "WARN", prefix, msg)] else old(fileLines)
      ensures tuiTx.Some? ==>
        tuiTx.value.pending == (if initialised then old(tuiTx.value.pending) + [TuiLine("WARN", prefix, old(PrefixColor(prefix)), ts, msg)]
          else old(tuiTx.value.pending))
    {
      var color := PrefixColor(prefix);
      WriteLog("WARN", prefix, color, ts, msg);
    }

    method ErrorP(prefix: string, ts: string, msg: string)
      modifies this, if tuiTx.Some? then {tuiTx.value} else {}
      ensures initialised == old(initialised) && tuiTx == old(tuiTx) && prefixes == old(prefixes)
      ensures fileLines == if initialised then old(fileLines) + [FileLine(ts, "ERROR", prefix, msg)] else old(fileLines)
      ensures tuiTx.Some? ==>
        tuiTx.value.pending == (if initialised then old(tuiTx.value.pending) + [TuiLine("ERROR", prefix, old(PrefixColor(prefix)), ts, msg)]
          else old(tuiTx.value.pending))
    {
      var color := PrefixColor(prefix);
      WriteLog("ERROR", prefix, color, ts, msg);
    }
  }
}
