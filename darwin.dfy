/**
 * The macOS platform layer (crates/finger-core/src/platform/darwin.rs) without
 * its foreign calls: the window server's answer to a window-list query is a
 * parameter (`None` when the query fails), the compiled window-title pattern is
 * a matcher parameter (`None` when the pattern does not compile), and every
 * `osascript` invocation is recorded in the window's `launched` log instead of
 * being run.
 */
module Darwin {
  import opened Wrappers
  import opened Text
  import opened Types

  // ---------------------------------------------------------------------------
  // Fixed-width integers

  const TwoTo32: int := 0x1_0000_0000
  const TwoTo64: int := 0x1_0000_0000_0000_0000

  /** `v as i32`: the low 32 bits, read as two's complement. */
  function AsI32(v: int): (r: int)
    ensures -0x8000_0000 <= r < 0x8000_0000
    ensures (v - r) % TwoTo32 == 0
    ensures -0x8000_0000 <= v < 0x8000_0000 ==> r == v
  {
    var low := v % TwoTo32;
    if low < 0x8000_0000 then low else low - TwoTo32
  }

  /** `v as u32` and `v as u64`: the low bits, unsigned. */
  function AsU32(v: int): (r: nat)
    ensures r < TwoTo32 && (v - r) % TwoTo32 == 0
    ensures 0 <= v < TwoTo32 ==> r == v
  {
    v % TwoTo32
  }

  function AsU64(v: int): (r: nat)
    ensures r < TwoTo64 && (v - r) % TwoTo64 == 0
    ensures 0 <= v < TwoTo64 ==> r == v
  {
    v % TwoTo64
  }

  /** `a + b` on `i32`, wrapping as a release build does. */
  function AddI32(a: int, b: int): int {
    AsI32(a + b)
  }

  /** `v / 2` on `i32`: the quotient is truncated toward zero. */
  function Half(v: int): (q: int)
    ensures v >= 0 ==> 0 <= 2 * q <= v <= 2 * q + 1
    ensures v < 0 ==> 2 * q - 1 <= v <= 2 * q <= 0
  {
    if v >= 0 then v / 2 else -((-v) / 2)
  }

  /** The signed decimal text of an integer, as `format!("{}", v)` writes it. */
  function SignedDecimal(v: int): string {
    if v < 0 then "-" + Decimal(-v) else Decimal(v)
  }

  // ---------------------------------------------------------------------------
  // The window server's answer

  /** `kCGWindowBounds`: each number may be missing. */
  datatype Bounds = Bounds(x: Option<int>, y: Option<int>, width: Option<int>, height: Option<int>)

  /** One window-info dictionary; numbers are `i64` as `CFNumber::to_i64` gives them. */
  datatype WindowInfo = WindowInfo(
    name: Option<string>,
    owner: Option<string>,
    number: Option<int>,
    layer: Option<int>,
    ownerPid: Option<int>,
    bounds: Option<Bounds>)

  /** A compiled case-insensitive pattern: does it match somewhere in the text? */
  type Matcher = string -> bool

  function Name(w: WindowInfo): string {
    w.name.UnwrapOr("")
  }

  function Owner(w: WindowInfo): string {
    w.owner.UnwrapOr("")
  }

  /** The title of a window: its name, or its owner's name when it has none. */
  function TitleOf(w: WindowInfo): (t: string)
    ensures t == Name(w) || t == Owner(w)
    ensures t == "" <==> Name(w) == "" && Owner(w) == ""
  {
    if Name(w) != "" then Name(w) else Owner(w)
  }

  // ---------------------------------------------------------------------------
  // get_instances

  /** Whether `get_instances` reports a window. */
  predicate Reported(w: WindowInfo, re: Matcher) {
    var title := TitleOf(w);
    && title != ""
    && (re(title) || (Name(w) != "" && re(Name(w))) || (Owner(w) != "" && re(Owner(w))))
    && w.layer == Some(0)
    && w.number.Some?
  }

  /** A reported window: its number as a `WindowId` (`u64`) and its title. */
  function WindowFor(w: WindowInfo): Window
    requires w.number.Some?
  {
    Window(AsU64(w.number.value), TitleOf(w))
  }

  /** The reported windows, in list order. */
  function Selected(ws: seq<WindowInfo>, re: Matcher): (r: seq<Window>)
    ensures |r| <= |ws|
  {
    if ws == [] then []
    else
      var w := ws[|ws| - 1];
      Selected(ws[..|ws| - 1], re) + (if Reported(w, re) then [WindowFor(w)] else [])
  }

  /** `get_instances`: nothing when the pattern does not compile or the list query fails. */
  function Instances(re: Option<Matcher>, list: Option<seq<WindowInfo>>): seq<Window> {
    if re.None? || list.None? then [] else Selected(list.value, re.value)
  }

  /** The window loop of `get_instances`. */
  method GetInstances(re: Option<Matcher>, list: Option<seq<WindowInfo>>) returns (windows: seq<Window>)
    ensures windows == Instances(re, list)
  {
    windows := [];
    if re.None? || list.None? {
      return;
    }
    var matcher := re.value;
    var ws := list.value;
    var i := 0;
    while i < |ws|
      invariant 0 <= i <= |ws|
      invariant windows == Selected(ws[..i], matcher)
    {
      assert ws[..i + 1][..i] == ws[..i];
      var w := ws[i];
      var name := w.name.UnwrapOr("");
      var owner := w.owner.UnwrapOr("");
      var title := if name != "" then name else owner;
      var isMatch := title != ""
        && (matcher(title) || (name != "" && matcher(name)) || (owner != "" && matcher(owner)));
      if isMatch && w.layer == Some(0) && w.number.Some? {
        windows := windows + [Window(AsU64(w.number.value), title)];
      }
      i := i + 1;
    }
    assert ws[..i] == ws;
  }

  /**
   * Matching the title adds nothing to matching name and owner separately: a
   * window is reported exactly when it sits on layer 0, has a number, and its
   * non-empty name or non-empty owner matches.
   */
  lemma {:induction false} ReportedMeans(w: WindowInfo, re: Matcher)
    ensures Reported(w, re) <==>
      (w.layer == Some(0) && w.number.Some? && ((Name(w) != "" && re(Name(w))) || (Owner(w) != "" && re(Owner(w)))))
  {
  }

  /** Whether a window is the one some reported entry of the list yields. */
  predicate FromReported(ws: seq<WindowInfo>, re: Matcher, x: Window) {
    exists i :: 0 <= i < |ws| && Reported(ws[i], re) && x == WindowFor(ws[i])
  }

  /** Every selected window comes from a reported entry of the list. */
  lemma {:induction false} SelectedSound(ws: seq<WindowInfo>, re: Matcher)
    ensures forall k :: 0 <= k < |Selected(ws, re)| ==> FromReported(ws, re, Selected(ws, re)[k])
  {
    if ws != [] {
      var init := ws[..|ws| - 1];
      SelectedSound(init, re);
      var r := Selected(ws, re);
      var ri := Selected(init, re);
      assert r == ri + (if Reported(ws[|ws| - 1], re) then [WindowFor(ws[|ws| - 1])] else []);
      forall k | 0 <= k < |r|
        ensures FromReported(ws, re, r[k])
      {
        if k < |ri| {
          assert r[k] == ri[k];
          assert FromReported(init, re, ri[k]);
          var i :| 0 <= i < |init| && Reported(init[i], re) && ri[k] == WindowFor(init[i]);
          assert ws[i] == init[i];
        } else {
          var i := |ws| - 1;
          assert Reported(ws[i], re) && r[k] == WindowFor(ws[i]);
        }
      }
    }
  }

  /** Every reported entry of the list is selected. */
  lemma {:induction false} SelectedComplete(ws: seq<WindowInfo>, re: Matcher)
    ensures forall i :: 0 <= i < |ws| && Reported(ws[i], re) ==> WindowFor(ws[i]) in Selected(ws, re)
  {
    if ws != [] {
      var init := ws[..|ws| - 1];
      var w := ws[|ws| - 1];
      SelectedComplete(init, re);
      var r := Selected(ws, re);
      var ri := Selected(init, re);
      assert r == ri + (if Reported(w, re) then [WindowFor(w)] else []);
      forall i | 0 <= i < |ws| && Reported(ws[i], re)
        ensures WindowFor(ws[i]) in r
      {
        if i < |init| {
          assert ws[i] == init[i];
          assert WindowFor(init[i]) in ri;
        } else {
          assert r[|r| - 1] == WindowFor(w);
        }
      }
    }
  }

  // ---------------------------------------------------------------------------
  // Regions

  /** The region of a window whose bounds are (x, y, w, h), in the source's `i32` arithmetic. */
  function RegionOf(x: int, y: int, w: int, h: int): Region {
    var l := AsI32(x);
    var t := AsI32(y);
    var ww := AsI32(w);
    var hh := AsI32(h);
    Region(l, t, AddI32(l, ww), AddI32(t, hh), ww, hh, AddI32(l, Half(ww)), AddI32(t, Half(hh)))
  }

  /** Missing bound numbers count as 0. */
  function BoundsRegion(b: Bounds): Region {
    RegionOf(b.x.UnwrapOr(0), b.y.UnwrapOr(0), b.width.UnwrapOr(0), b.height.UnwrapOr(0))
  }

  predicate InI32(v: int) {
    -0x8000_0000 <= v < 0x8000_0000
  }

  /**
   * Without overflow, the region spans the bounds exactly: right and bottom edges
   * are origin plus size, and the centre lies between the edges, at the origin
   * plus half the size rounded down.
   */
  lemma {:induction false} RegionGeometry(x: int, y: int, w: int, h: int)
    requires InI32(x) && InI32(y) && InI32(w) && InI32(h) && 0 <= w && 0 <= h && InI32(x + w) && InI32(y + h)
    ensures var g := RegionOf(x, y, w, h);
      && g.l == x && g.t == y && g.w == w && g.h == h
      && g.r == x + w && g.b == y + h
      && g.l <= g.cx <= g.r && g.t <= g.cy <= g.b
      && 2 * (g.cx - g.l) <= g.w <= 2 * (g.cx - g.l) + 1
      && 2 * (g.cy - g.t) <= g.h <= 2 * (g.cy - g.t) + 1
  {
  }

  /** A negative size halves toward zero, so the centre of a width of -3 is one left of the origin, not two. */
  lemma {:induction false} RegionNegativeWidth()
    ensures RegionOf(0, 0, -3, 0).cx == -1
  {
  }

  /** Sizes that overflow `i32` wrap around. */
  lemma {:induction false} RegionWraps()
    ensures RegionOf(0x7FFF_FFFF, 0, 1, 0).r == -0x8000_0000
  {
    assert AsI32(0x7FFF_FFFF) == 0x7FFF_FFFF;
    assert AsI32(1) == 1;
    assert 0x8000_0000 % TwoTo32 == 0x8000_0000;
    assert AsI32(0x8000_0000) == -0x8000_0000;
  }

  // ---------------------------------------------------------------------------
  // Key specs

  /** `applescript_key_code` */
  function KeyCode(key: string): (code: Option<nat>)
    ensures code.Some? ==> code.value < 0x1_0000 && |key| >= 2
  {
    if key == "enter" || key == "return" then Some(36)
    else if key == "escape" || key == "esc" then Some(53)
    else if key == "delete" || key == "backspace" then Some(51)
    else if key == "tab" then Some(48)
    else if key == "space" then Some(49)
    else if key == "up" then Some(126)
    else if key == "down" then Some(125)
    else if key == "left" then Some(123)
    else if key == "right" then Some(124)
    else None
  }

  /** The first name the table gives for a key code. */
  function KeyName(code: nat): Option<string> {
    if code == 36 then Some("enter")
    else if code == 53 then Some("escape")
    else if code == 51 then Some("delete")
    else if code == 48 then Some("tab")
    else if code == 49 then Some("space")
    else if code == 126 then Some("up")
    else if code == 125 then Some("down")
    else if code == 123 then Some("left")
    else if code == 124 then Some("right")
    else None
  }

  /**
   * The table is a function of the key's meaning: every code it gives has a
   * name that maps back to it, and names that share a code are synonyms of
   * that name.
   */
  lemma {:induction false} KeyCodeNames(key: string)
    ensures KeyCode(key).Some? ==> KeyName(KeyCode(key).value).Some? && KeyCode(KeyName(KeyCode(key).value).value) == KeyCode(key)
    ensures KeyCode(key).Some? && key !in {"return", "esc", "backspace"} ==> KeyName(KeyCode(key).value) == Some(key)
  {
  }

  /** Synonyms share a code; the table is case-sensitive. */
  lemma {:induction false} KeyCodeSynonyms()
    ensures KeyCode("enter") == KeyCode("return") == Some(36)
    ensures KeyCode("escape") == KeyCode("esc") == Some(53)
    ensures KeyCode("delete") == KeyCode("backspace") == Some(51)
    ensures KeyCode("Enter") == None
  {
  }

  /** The AppleScript modifier a key-spec part names, if any. */
  function ModifierName(part: string): (m: Option<string>)
    ensures m.Some? ==> m.value in ModifierNames
  {
    var p := ToLower(part);
    if p == "cmd" || p == "command" then Some("command down")
    else if p == "shift" then Some("shift down")
    else if p == "ctrl" || p == "control" then Some("control down")
    else if p == "alt" || p == "option" then Some("option down")
    else None
  }

  const ModifierNames: set<string> := {"command down", "shift down", "control down", "option down"}

  /** The modifiers named by the parts, in order; unknown parts are skipped. */
  function Modifiers(parts: seq<string>): (mods: seq<string>)
    ensures |mods| <= |parts|
    ensures forall k :: 0 <= k < |mods| ==> mods[k] in ModifierNames
  {
    if parts == [] then []
    else
      var m := ModifierName(parts[|parts| - 1]);
      Modifiers(parts[..|parts| - 1]) + (if m.Some? then [m.value] else [])
  }

  lemma {:induction false} LowerIdempotent(s: string)
    ensures ToLower(ToLower(s)) == ToLower(s)
  {
  }

  function LowerAll(parts: seq<string>): (r: seq<string>)
    ensures |r| == |parts| && forall k :: 0 <= k < |parts| ==> r[k] == ToLower(parts[k])
  {
    seq(|parts|, k requires 0 <= k < |parts| => ToLower(parts[k]))
  }

  /** Modifier names are case-insensitive. */
  lemma {:induction false} ModifiersIgnoreCase(parts: seq<string>)
    ensures Modifiers(LowerAll(parts)) == Modifiers(parts)
  {
    if parts != [] {
      var n := |parts|;
      assert LowerAll(parts)[..n - 1] == LowerAll(parts[..n - 1]);
      ModifiersIgnoreCase(parts[..n - 1]);
      LowerIdempotent(parts[n - 1]);
    }
  }

  /** `parts.join(sep)` with a string separator. */
  function JoinWith(parts: seq<string>, sep: string): string {
    if parts == [] then ""
    else if |parts| == 1 then parts[0]
    else JoinWith(parts[..|parts| - 1], sep) + sep + parts[|parts| - 1]
  }

  /** `s.replace('"', "\\\"")` */
  function EscapeQuotes(s: string): (r: string)
    ensures '"' !in s ==> r == s
    ensures |r| >= |s|
    ensures forall i :: 0 <= i < |r| && r[i] == '"' ==> 0 < i && r[i - 1] == '\\'
  {
    if s == [] then []
    else EscapeQuotes(s[..|s| - 1]) + (if s[|s| - 1] == '"' then "\\\"" else [s[|s| - 1]])
  }

  /** The `key_part` of the script for a lowercased main key, if it names a key. */
  function KeyPart(lower: string): Option<string> {
    match KeyCode(lower)
    case Some(code) => Some("key code " + Decimal(code))
    case None =>
      if Utf8Len(lower) == 1 then Some("keystroke \"" + EscapeQuotes(lower) + "\"") else None
  }

  /** The modifier clause: empty, or ` using {m1, m2, …}`. */
  function ModifierClause(mods: seq<string>): string {
    if mods == [] then "" else " using {" + JoinWith(mods, ", ") + "}"
  }

  /** A one-byte uppercase main key adds `shift down` unless it is already there. */
  function WithShift(mods: seq<string>, main: string): (r: seq<string>)
    ensures r == mods || r == mods + ["shift down"]
  {
    if Utf8Len(main) == 1 && 'A' <= main[0] <= 'Z' && "shift down" !in mods then mods + ["shift down"] else mods
  }

  /** The command after the main key and the collected modifiers are known. */
  function MainKeyCommand(mods: seq<string>, main: string): Option<string> {
    var allMods := WithShift(mods, main);
    match KeyPart(ToLower(main))
    case None => None
    case Some(part) => Some(part + ModifierClause(allMods))
  }

  /** What `tap` asks System Events to do for a key spec such as `cmd+shift+a`, if anything. */
  function KeyCommand(key: string): Option<string> {
    var parts := Split(key, '+');
    MainKeyCommand(Modifiers(parts[..|parts| - 1]), parts[|parts| - 1])
  }

  /** The script `tap` runs for a process id and a command. */
  const TapHead: string := "tell application \"System Events\" to tell process id "

  function TapScript(pid: int, command: string): string {
    TapHead + SignedDecimal(pid) + " to " + command
  }

  /** The command-building part of `tap`, with its loop over the modifier parts. */
  method BuildKeyCommand(key: string) returns (command: Option<string>)
    ensures command == KeyCommand(key)
  {
    var parts := Split(key, '+');
    var mainKey := parts[|parts| - 1];
    var modifiers: seq<string> := [];
    var i := 0;
    while i < |parts| - 1
      invariant 0 <= i <= |parts| - 1
      invariant modifiers == Modifiers(parts[..i])
    {
      assert parts[..i + 1][..i] == parts[..i];
      var m := ModifierName(parts[i]);
      if m.Some? {
        modifiers := modifiers + [m.value];
      }
      i := i + 1;
    }
    assert parts[..i] == parts[..|parts| - 1];
    command := FinishKeyCommand(modifiers, mainKey);
  }

  /** The rest of `tap`'s command building: shift for an uppercase letter, the key part, the modifier clause. */
  method FinishKeyCommand(mods: seq<string>, mainKey: string) returns (command: Option<string>)
    ensures command == MainKeyCommand(mods, mainKey)
  {
    var modifiers := mods;
    var mainKeyLower: string;
    if Utf8Len(mainKey) == 1 {
      Utf8LenOne(mainKey);
      var ch := mainKey[0];
      if 'A' <= ch <= 'Z' && "shift down" !in modifiers {
        modifiers := modifiers + ["shift down"];
      }
      mainKeyLower := [LowerChar(ch)];
    } else {
      mainKeyLower := ToLower(mainKey);
    }
    assert mainKeyLower == ToLower(mainKey);
    var keyPart: string;
    var code := KeyCode(mainKeyLower);
    if code.Some? {
      keyPart := "key code " + Decimal(code.value);
    } else if Utf8Len(mainKeyLower) == 1 {
      keyPart := "keystroke \"" + EscapeQuotes(mainKeyLower) + "\"";
    } else {
      return None;
    }
    var modifierStr := if modifiers == [] then "" else " using {" + JoinWith(modifiers, ", ") + "}";
    command := Some(keyPart + modifierStr);
  }

  /** A key spec without `+` is a main key with no modifiers. */
  lemma {:induction false} KeyAlone(key: string)
    requires '+' !in key
    ensures KeyCommand(key) == MainKeyCommand([], key)
  {
    assert Split(key, '+') == [key];
    assert [key][..0] == [];
  }

  /** A key spec `m+key` is a main key with the modifiers `m` names. */
  lemma {:induction false} KeyWithOne(m: string, key: string)
    requires '+' !in m && '+' !in key
    ensures KeyCommand(m + "+" + key) == MainKeyCommand(Modifiers([m]), key)
  {
    SplitPieces([m, key], m + "+" + key);
    assert [m, key][..1] == [m];
  }

  /**
   * A letter key is a keystroke of its lowercase form; an uppercase letter
   * holds shift, once, whatever modifiers were named.
   */
  lemma {:induction false} LetterCommand(mods: seq<string>, c: char)
    requires 'a' <= c <= 'z' || 'A' <= c <= 'Z'
    ensures MainKeyCommand(mods, [c]) == Some("keystroke \"" + [LowerChar(c)] + "\"" + ModifierClause(WithShift(mods, [c])))
    ensures WithShift(mods, [c]) == if 'A' <= c <= 'Z' && "shift down" !in mods then mods + ["shift down"] else mods
  {
    assert Utf8Len([c]) == 1 by {
      assert [c][1..] == [];
    }
    var lower := ToLower([c]);
    assert lower == [LowerChar(c)];
    assert Utf8Len(lower) == 1 by {
      assert lower[1..] == [];
    }
    assert KeyCode(lower) == None;
    assert EscapeQuotes(lower) == lower;
  }

  /** A lone lowercase letter is its own keystroke. */
  lemma {:induction false} KeyLowercase()
    ensures KeyCommand("a") == Some("keystroke \"a\"")
  {
    KeyAlone("a");
    LetterCommand([], 'a');
    assert ModifierClause([]) == "";
    assert "keystroke \"" + "a" + "\"" + "" == "keystroke \"a\"";
  }

  lemma {:induction false} ShiftClause()
    ensures ModifierClause(["shift down"]) == " using {shift down}"
  {
    assert JoinWith(["shift down"], ", ") == "shift down";
    assert " using {" + "shift down" + "}" == " using {shift down}";
  }

  /**
   * Naming shift next to an uppercase letter changes nothing: shift is held
   * once either way.
   */
  lemma {:induction false} ShiftedUppercase(m: string, c: char)
    requires '+' !in m && ModifierName(m) == Some("shift down")
    requires 'A' <= c <= 'Z'
    ensures KeyCommand(m + "+" + [c]) == KeyCommand([c])
    ensures KeyCommand([c]) == Some("keystroke \"" + [LowerChar(c)] + "\"" + " using {shift down}")
  {
    KeyWithOne(m, [c]);
    OneModifier(m, "shift down");
    KeyAlone([c]);
    LetterCommand(["shift down"], c);
    LetterCommand([], c);
    ShiftClause();
  }

  /** `A` and `shift+A` both type a shifted `a`. */
  lemma {:induction false} KeyUppercase()
    ensures KeyCommand("A") == KeyCommand("shift+A") == Some("keystroke \"a\"" + " using {shift down}")
  {
    ShiftNamed();
    ShiftedUppercase("shift", 'A');
    UppercaseSpelling();
  }

  lemma {:induction false} ShiftNamed()
    ensures '+' !in "shift" && ModifierName("shift") == Some("shift down")
  {
    assert ToLower("shift") == "shift";
  }

  lemma {:induction false} UppercaseSpelling()
    ensures "shift" + "+" + ['A'] == "shift+A"
    ensures "keystroke \"" + [LowerChar('A')] + "\"" == "keystroke \"a\""
  {
  }

  /** The parts of a key spec that name one modifier. */
  lemma {:induction false} OneModifier(part: string, m: string)
    requires ModifierName(part) == Some(m)
    ensures Modifiers([part]) == [m]
  {
    assert [part][..0] == [];
  }

  /** A main key the table names becomes its key code, whatever its case; shift is not added. */
  lemma {:induction false} NamedKey(mods: seq<string>, key: string)
    requires KeyCode(ToLower(key)).Some?
    ensures MainKeyCommand(mods, key) == Some("key code " + Decimal(KeyCode(ToLower(key)).value) + ModifierClause(mods))
  {
    Utf8LenOne(key);
    assert |key| >= 2;
  }

  /** One modifier and a named key: `cmd+enter` holds command down while pressing key code 36. */
  lemma {:induction false} ModifiedNamedKey(m: string, name: string, key: string)
    requires '+' !in m && '+' !in key && ModifierName(m) == Some(name)
    requires KeyCode(ToLower(key)).Some?
    ensures KeyCommand(m + "+" + key) == Some("key code " + Decimal(KeyCode(ToLower(key)).value) + (" using {" + name + "}"))
  {
    KeyWithOne(m, key);
    OneModifier(m, name);
    NamedKey([name], key);
    assert JoinWith([name], ", ") == name;
  }

  /** The modifiers of consecutive parts are the modifiers of each, in order. */
  lemma {:induction false} ModifiersAppend(a: seq<string>, b: seq<string>)
    ensures Modifiers(a + b) == Modifiers(a) + Modifiers(b)
  {
    if b == [] {
      assert a + b == a;
    } else {
      var n := |b|;
      assert (a + b)[..|a + b| - 1] == a + b[..n - 1];
      assert (a + b)[|a + b| - 1] == b[n - 1];
      ModifiersAppend(a, b[..n - 1]);
    }
  }

  /**
   * A key spec gives no command exactly when its main key, lowercased, is
   * neither in the table nor one character; so a multi-character name the
   * table does not know, such as `f1`, gives none.
   */
  lemma {:induction false} KeyUnknown(key: string)
    ensures var parts := Split(key, '+');
      var lower := ToLower(parts[|parts| - 1]);
      KeyCommand(key).None? <==> KeyCode(lower).None? && Utf8Len(lower) != 1
    ensures KeyCommand("f1") == None
  {
    var parts := Split(key, '+');
    KeyPartCases(ToLower(parts[|parts| - 1]));
    assert Split("f1", '+') == ["f1"];
    assert ToLower("f1") == "f1";
    KeyPartCases("f1");
  }

  /**
   * `key_part` is absent exactly when the key is neither in the table nor one
   * character; a table key gives its code, a one-character key a keystroke.
   */
  lemma {:induction false} KeyPartCases(lower: string)
    ensures KeyPart(lower).None? <==> KeyCode(lower).None? && Utf8Len(lower) != 1
    ensures KeyCode(lower).Some? ==> KeyPart(lower) == Some("key code " + Decimal(KeyCode(lower).value))
    ensures KeyCode(lower).None? && Utf8Len(lower) == 1 ==>
      KeyPart(lower) == Some("keystroke \"" + EscapeQuotes(lower) + "\"")
  {
  }

  /**
   * A one-character key outside the table is typed through a literal that
   * reads back as that character, a backslash excepted (see
   * `BackslashBreaksLiteral`).
   */
  lemma {:induction false} KeystrokeReadsBack(lower: string)
    requires KeyCode(lower).None? && Utf8Len(lower) == 1 && lower != "\\"
    ensures KeyPart(lower) == Some("keystroke \"" + EscapeQuotes(lower) + "\"")
    ensures ReadLiteral(EscapeQuotes(lower) + "\"") == Some(lower)
  {
    Utf8LenOne(lower);
    assert lower == [lower[0]];
    EscapeQuotesReadsBack(lower);
  }

  lemma {:induction false} SplitPieces(parts: seq<string>, key: string)
    requires |parts| >= 1 && forall k :: 0 <= k < |parts| ==> '+' !in parts[k]
    requires Join(parts, '+') == key
    ensures Split(key, '+') == parts
  {
    SplitJoin(parts, '+');
  }

  /** A key spec without modifiers or uppercase letters gives a command without a modifier clause. */
  lemma {:induction false} PlainKey(key: string)
    requires '+' !in key && forall i :: 0 <= i < |key| ==> !('A' <= key[i] <= 'Z')
    ensures KeyCommand(key).Some? ==> KeyCommand(key) == KeyPart(ToLower(key))
  {
    assert Split(key, '+') == [key];
    assert [key][..0] == [];
    assert WithShift([], key) == [];
    match KeyPart(ToLower(key))
    case None =>
    case Some(part) => assert part + "" == part;
  }

  // ---------------------------------------------------------------------------
  // The window

  /** The part of a window's state that `do_update` refreshes. */
  datatype WinState = WinState(title: string, pid: Option<int>, region: Option<Region>)

  /** The first entry of the list with the given window number. */
  function FindWindow(ws: seq<WindowInfo>, wid: nat): (r: Option<WindowInfo>)
    ensures r.Some? ==> r.value in ws && r.value.number == Some(wid)
    ensures r.None? ==> forall i :: 0 <= i < |ws| ==> ws[i].number != Some(wid)
  {
    if ws == [] then None
    else if ws[0].number == Some(wid) then Some(ws[0])
    else FindWindow(ws[1..], wid)
  }

  /** `do_update` on the window server's answer `list`. */
  function Updated(s: WinState, wid: nat, list: Option<seq<WindowInfo>>): (r: WinState)
    ensures list.None? ==> r == s.(region := None)
    ensures list.Some? && FindWindow(list.value, wid).None? ==> r == s.(region := None)
  {
    match list
    case None => s.(region := None)
    case Some(ws) =>
      match FindWindow(ws, wid)
      case None => s.(region := None)
      case Some(w) =>
        var pid := if w.ownerPid.Some? then Some(AsI32(w.ownerPid.value)) else None;
        var region := if w.bounds.Some? then Some(BoundsRegion(w.bounds.value)) else s.region;
        WinState(TitleOf(w), pid, region)
  }

  /** The effect of `tap(key)`: the state after a possible refresh, and the scripts run. */
  function TapEffect(s: WinState, wid: nat, key: string, list: Option<seq<WindowInfo>>): (WinState, seq<string>) {
    var s1 := if s.pid.None? then Updated(s, wid, list) else s;
    if s1.pid.None? then (s1, [])
    else
      match KeyCommand(key)
      case None => (s1, [])
      case Some(cmd) => (s1, [TapScript(s1.pid.value, cmd)])
  }

  /** The effect of `type_text(text)`: one tap per character, in order. */
  function TypeEffect(s: WinState, wid: nat, text: string, list: Option<seq<WindowInfo>>): (WinState, seq<string>) {
    if text == [] then (s, [])
    else
      var before := TypeEffect(s, wid, text[..|text| - 1], list);
      var after := TapEffect(before.0, wid, [text[|text| - 1]], list);
      (after.0, before.1 + after.1)
  }

  const ActivateHead: string := "tell application \"System Events\" to set frontmost of first process whose unix id is "

  /** The script `activate` runs for a process id. */
  function ActivateScript(pid: int): string {
    ActivateHead + SignedDecimal(pid) + " to true"
  }

  /** `DarwinWindow`: one macOS window, refreshed from the window server on demand. */
  class DarwinWindow {
    /** The title pattern the window was created for; nothing reads it. */
    const pattern: string
    /** `CGWindowID`, a `u32`. */
    const windowId: nat
    var title: string
    var pid: Option<int>
    var region: Option<Region>
    /** The `osascript` scripts run on this window's behalf, oldest first. */
    var launched: seq<string>

    function Abs(): WinState
      reads this
    {
      WinState(title, pid, region)
    }

    /** `create_window`: the pattern is kept, the id is truncated to a `CGWindowID`, then the window is refreshed. */
    constructor(pattern: string, id: WindowId, list: Option<seq<WindowInfo>>)
      ensures this.pattern == pattern && windowId == AsU32(id)
      ensures Abs() == Updated(WinState("", None, None), windowId, list)
      ensures launched == []
    {
      this.pattern := pattern;
      windowId := AsU32(id);
      title := "";
      pid := None;
      region := None;
      launched := [];
      new;
      DoUpdate(list);
    }

    /** `id()` */
    function Id(): WindowId
      reads this
    {
      windowId
    }

    /** `do_update`: refresh title, pid and region from the first matching entry of the list. */
    method DoUpdate(list: Option<seq<WindowInfo>>)
      modifies this
      ensures Abs() == Updated(old(Abs()), windowId, list)
      ensures launched == old(launched)
    {
      if list.None? {
        region := None;
        return;
      }
      var ws := list.value;
      var i := 0;
      while i < |ws|
        invariant 0 <= i <= |ws|
        invariant FindWindow(ws[i..], windowId) == FindWindow(ws, windowId)
        invariant Abs() == old(Abs()) && launched == old(launched)
      {
        assert ws[i..][1..] == ws[i + 1..];
        var w := ws[i];
        if w.number != Some(windowId) {
          i := i + 1;
          continue;
        }
        var name := w.name.UnwrapOr("");
        var owner := w.owner.UnwrapOr("");
        title := if name != "" then name else owner;
        pid := if w.ownerPid.Some? then Some(AsI32(w.ownerPid.value)) else None;
        if w.bounds.Some? {
          var b := w.bounds.value;
          var x := AsI32(b.x.UnwrapOr(0));
          var y := AsI32(b.y.UnwrapOr(0));
          var width := AsI32(b.width.UnwrapOr(0));
          var height := AsI32(b.height.UnwrapOr(0));
          region := Some(Region(x, y, AddI32(x, width), AddI32(y, height), width, height,
            AddI32(x, Half(width)), AddI32(y, Half(height))));
        }
        return;
      }
      region := None;
    }

    /** `update()` */
    method Update(list: Option<seq<WindowInfo>>)
      modifies this
      ensures Abs() == Updated(old(Abs()), windowId, list)
      ensures launched == old(launched)
    {
      DoUpdate(list);
    }

    /** `activate`: refresh when the pid is unknown, then bring the owning process to the front. */
    method Activate(list: Option<seq<WindowInfo>>)
      modifies this
      ensures Abs() == if old(pid).None? then Updated(old(Abs()), windowId, list) else old(Abs())
      ensures launched == old(launched) + (if pid.Some? then [ActivateScript(pid.value)] else [])
    {
      if pid.None? {
        DoUpdate(list);
      }
      if pid.Some? {
        launched := launched + [ActivateScript(pid.value)];
      }
    }

    /** `tap(key)`: refresh when the pid is unknown, then run the key's script, if the key names one. */
    method Tap(key: string, list: Option<seq<WindowInfo>>)
      modifies this
      ensures (Abs(), launched) == (TapEffect(old(Abs()), windowId, key, list).0,
        old(launched) + TapEffect(old(Abs()), windowId, key, list).1)
    {
      assert old(launched) + [] == old(launched);
      if pid.None? {
        DoUpdate(list);
        if pid.None? {
          return;
        }
      }
      var p := pid.value;
      var command := BuildKeyCommand(key);
      if command.None? {
        return;
      }
      launched := launched + [TapScript(p, command.value)];
    }

    /** `type_text(text)`: one `tap` per character. */
    method TypeText(text: string, list: Option<seq<WindowInfo>>)
      modifies this
      ensures (Abs(), launched) == (TypeEffect(old(Abs()), windowId, text, list).0,
        old(launched) + TypeEffect(old(Abs()), windowId, text, list).1)
    {
      ghost var s0 := Abs();
      ghost var l0 := launched;
      var i := 0;
      assert text[..0] == [] && launched + [] == launched;
      while i < |text|
        invariant 0 <= i <= |text|
        invariant Abs() == TypeEffect(s0, windowId, text[..i], list).0
        invariant launched == l0 + TypeEffect(s0, windowId, text[..i], list).1
      {
        ghost var before := TypeEffect(s0, windowId, text[..i], list);
        ghost var tap := TapEffect(before.0, windowId, [text[i]], list);
        TypeEffectPrefix(s0, windowId, text, i, list);
        Tap([text[i]], list);
        assert launched == l0 + (before.1 + tap.1);
        i := i + 1;
      }
      assert text[..i] == text;
    }
  }

  /** One more character is one more tap. */
  lemma {:induction false} TypeEffectPrefix(s: WinState, wid: nat, text: string, i: nat, list: Option<seq<WindowInfo>>)
    requires i < |text|
    ensures var before := TypeEffect(s, wid, text[..i], list);
      var tap := TapEffect(before.0, wid, [text[i]], list);
      TypeEffect(s, wid, text[..i + 1], list) == (tap.0, before.1 + tap.1)
  {
    assert text[..i + 1][..i] == text[..i];
    assert text[..i + 1][i] == text[i];
  }

  /** The scripts that tapping each character of `text` in turn runs for the process `pid`. */
  function Keystrokes(pid: int, text: string): (r: seq<string>)
    ensures |r| <= |text|
    ensures (forall i :: 0 <= i < |text| ==> KeyCommand([text[i]]).Some?) ==> |r| == |text|
  {
    if text == [] then []
    else
      var c := text[|text| - 1];
      assert forall i :: 0 <= i < |text| - 1 ==> text[..|text| - 1][i] == text[i];
      Keystrokes(pid, text[..|text| - 1])
        + (match KeyCommand([c]) case Some(cmd) => [TapScript(pid, cmd)] case None => [])
  }

  /**
   * Once the pid is known, typing never refreshes the window and runs one
   * script per character that names a key, in order.
   */
  lemma {:induction false} TypeKeepsState(s: WinState, wid: nat, text: string, list: Option<seq<WindowInfo>>)
    requires s.pid.Some?
    ensures TypeEffect(s, wid, text, list) == (s, Keystrokes(s.pid.value, text))
  {
    if text != [] {
      TypeKeepsState(s, wid, text[..|text| - 1], list);
    }
  }

  // ---------------------------------------------------------------------------
  // Findings

  /** `type_text` taps `+` as the key spec "+", which splits into two empty parts and names no key. */
  lemma {:induction false} PlusNotTypeable()
    ensures KeyCommand("+") == None
    ensures forall s: WinState, wid: nat, list :: s.pid.Some? ==> TypeEffect(s, wid, "+", list).1 == []
  {
    assert Split("+", '+') == ["", ""];
    forall s: WinState, wid: nat, list | s.pid.Some?
      ensures TypeEffect(s, wid, "+", list).1 == []
    {
      assert "+"[..0] == [];
    }
  }

  /** The command `type_text` evidently means for one character: that character, with no modifier parsing. */
  function CharCommand(c: char): Option<string> {
    MainKeyCommand([], [c])
  }

  /** Every printable ASCII character types, and all but `+` type as the key spec does. */
  lemma {:induction false} CharCommandTypesAll(c: char)
    requires ' ' <= c <= '~'
    ensures CharCommand(c).Some?
    ensures c != '+' ==> CharCommand(c) == KeyCommand([c])
  {
    assert Utf8Len([c]) == 1;
    assert ToLower([c]) == [LowerChar(c)];
    assert Utf8Len([LowerChar(c)]) == 1;
    if c != '+' {
      assert Split([c], '+') == [[c]];
    }
  }

  /**
   * Reading an AppleScript string literal: `t` is what follows the opening
   * quote; a backslash takes the next character literally, and an unescaped
   * quote must close the literal at the very end.
   */
  function ReadLiteral(t: string): Option<string>
    decreases |t|
  {
    if t == [] then None
    else if t[0] == '"' then (if |t| == 1 then Some("") else None)
    else if t[0] == '\\' then
      (if |t| < 2 then None
       else match ReadLiteral(t[2..]) case None => None case Some(rest) => Some([t[1]] + rest))
    else match ReadLiteral(t[1..]) case None => None case Some(rest) => Some([t[0]] + rest)
  }

  /** The keystroke for a backslash as written: `keystroke "\"` leaves the literal open. */
  lemma {:induction false} BackslashBreaksLiteral()
    ensures KeyPart("\\") == Some("keystroke \"\\\"")
    ensures ReadLiteral(EscapeQuotes("\\") + "\"") == None
  {
    assert '"' !in "\\";
    assert "keystroke \"" + "\\" + "\"" == "keystroke \"\\\"";
    assert EscapeQuotes("\\") == "\\";
    assert Utf8Len("\\") == 1;
    assert KeyCode("\\") == None;
    var t := "\\" + "\"";
    assert t[0] == '\\' && |t| == 2;
    assert t[2..] == [];
  }

  /** Escaping backslashes as well as quotes. */
  function EscapeLiteral(s: string): string {
    if s == [] then []
    else
      var c := s[|s| - 1];
      EscapeLiteral(s[..|s| - 1]) + Esc(c)
  }

  /** Any text escaped with `EscapeLiteral` reads back unchanged. */
  lemma {:induction false} EscapeLiteralRoundTrip(s: string)
    ensures ReadLiteral(EscapeLiteral(s) + "\"") == Some(s)
    decreases |s|
  {
    if s != [] {
      EscapeSplitFront(s);
      var c := s[0];
      EscapeLiteralRoundTrip(s[1..]);
      var t := EscapeLiteral(s) + "\"";
      assert t == Esc(c) + (EscapeLiteral(s[1..]) + "\"");
      if c == '"' || c == '\\' {
        assert t[0] == '\\' && t[1] == c;
        assert t[2..] == EscapeLiteral(s[1..]) + "\"";
      } else {
        assert t[0] == c;
        assert t[1..] == EscapeLiteral(s[1..]) + "\"";
      }
      assert s == [c] + s[1..];
    }
  }

  /**
   * Escaping works character by character: a quote becomes `\"`, any other
   * character stays, and the escape of a concatenation is the concatenation
   * of the escapes.
   */
  lemma {:induction false} EscapeQuotesConcat(a: string, b: string)
    ensures EscapeQuotes(a + b) == EscapeQuotes(a) + EscapeQuotes(b)
    ensures |b| == 1 ==> EscapeQuotes(b) == if b[0] == '"' then "\\\"" else b
    decreases |b|
  {
    if b == [] {
      assert a + b == a;
    } else {
      var init := b[..|b| - 1];
      assert (a + b)[..|a + b| - 1] == a + init;
      assert (a + b)[|a + b| - 1] == b[|b| - 1];
      EscapeQuotesConcat(a, init);
    }
  }

  /** Without backslashes, quote escaping is the full escape, so the literal reads back. */
  lemma {:induction false} EscapeQuotesReadsBack(s: string)
    requires '\\' !in s
    ensures EscapeQuotes(s) == EscapeLiteral(s)
    ensures ReadLiteral(EscapeQuotes(s) + "\"") == Some(s)
    decreases |s|
  {
    if s != [] {
      EscapeQuotesReadsBack(s[..|s| - 1]);
    }
    EscapeLiteralRoundTrip(s);
  }

  /** The escape of one character. */
  function Esc(c: char): string {
    if c == '"' then "\\\"" else if c == '\\' then "\\\\" else [c]
  }

  lemma {:induction false} EscapeSnoc(s: string)
    requires s != []
    ensures EscapeLiteral(s) == EscapeLiteral(s[..|s| - 1]) + Esc(s[|s| - 1])
  {
  }

  lemma {:induction false} EscapeSplitFront(s: string)
    requires s != []
    ensures EscapeLiteral(s) == Esc(s[0]) + EscapeLiteral(s[1..])
    decreases |s|
  {
    if |s| > 1 {
      var init := s[..|s| - 1];
      EscapeSplitFront(init);
      EscapeSnoc(s);
      EscapeSnoc(s[1..]);
      assert init[1..] == s[1..][..|s[1..]| - 1];
      assert init[0] == s[0];
    } else {
      assert s[1..] == [];
      assert s[..0] == [];
    }
  }
}
