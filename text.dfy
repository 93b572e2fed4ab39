/**
 * String helpers shared by the model: Rust's decimal formatting of unsigned
 * integers and `str::parse::<u8>`, `str::split` / `str::splitn` on one
 * character, `str::contains`, ASCII lower-casing, character replacement and
 * UTF-8 byte length (`str::len`).
 */
module Text {
  import opened Wrappers

  predicate IsDigit(c: char) {
    '0' <= c <= '9'
  }

  predicate AllDigits(s: string) {
    forall i :: 0 <= i < |s| ==> IsDigit(s[i])
  }

  function Digit(d: nat): (c: char)
    requires d < 10
    ensures IsDigit(c) && c as int - '0' as int == d
  {
    ('0' as int + d) as char
  }

  /** Value of a string of decimal digits, most significant first. */
  function DigitsValue(s: string): nat
    requires AllDigits(s)
  {
    if s == [] then 0 else 10 * DigitsValue(s[..|s| - 1]) + (s[|s| - 1] as int - '0' as int)
  }

  /** `format!("{}", n)` for an unsigned integer: decimal, no sign, no leading zero. */
  function Decimal(n: nat): (s: string)
    ensures 1 <= |s| && AllDigits(s)
    ensures s[0] == '0' ==> n == 0
    decreases n
  {
    if n < 10 then [Digit(n)] else Decimal(n / 10) + [Digit(n % 10)]
  }

  lemma {:induction false} DecimalRoundTrip(n: nat)
    ensures DigitsValue(Decimal(n)) == n
    decreases n
  {
    if n >= 10 {
      var s := Decimal(n);
      assert s[..|s| - 1] == Decimal(n / 10);
      DecimalRoundTrip(n / 10);
    }
  }

  /** Distinct numbers print differently. */
  lemma {:induction false} DecimalInjective(a: nat, b: nat)
    ensures Decimal(a) == Decimal(b) ==> a == b
  {
    DecimalRoundTrip(a);
    DecimalRoundTrip(b);
  }

  /**
   * `s.parse::<u8>()`: an optional leading '+', then at least one decimal
   * digit, with a value below 256; anything else is an error (None).
   */
  function ParseU8(s: string): (r: Option<nat>)
    ensures r.Some? ==> r.value < 256
    ensures r.Some? ==> exists k :: 0 <= k <= 1 && k <= |s| && AllDigits(s[k..]) && s[k..] != []
  {
    var k := if |s| > 0 && s[0] == '+' then 1 else 0;
    var digits := s[k..];
    if digits != [] && AllDigits(digits) && DigitsValue(digits) < 256 then Some(DigitsValue(digits)) else None
  }

  /** The number the logger prints is the number the log view parses back. */
  lemma {:induction false} ParseU8Decimal(c: nat)
    requires c < 256
    ensures ParseU8(Decimal(c)) == Some(c)
  {
    DecimalRoundTrip(c);
  }

  /** Position of the first `c` in `s`, if any. */
  function IndexOf(s: string, c: char): (r: Option<nat>)
    ensures r.Some? ==> r.value < |s| && s[r.value] == c
    ensures r.Some? ==> forall j :: 0 <= j < r.value ==> s[j] != c
    ensures r.None? ==> forall j :: 0 <= j < |s| ==> s[j] != c
  {
    if s == [] then None
    else if s[0] == c then Some(0)
    else
      match IndexOf(s[1..], c)
      case None => None
      case Some(i) => Some(i + 1)
  }

  lemma {:induction false} IndexOfJoined(a: string, c: char, b: string)
    requires c !in a
    ensures IndexOf(a + [c] + b, c) == Some(|a|)
  {
    var s := a + [c] + b;
    assert s[|a|] == c;
    var r := IndexOf(s, c);
    if r.None? {
      assert false;
    } else if r.value < |a| {
      assert false;
    } else if r.value > |a| {
      assert false;
    }
  }

  /** `s.split(sep)`: always at least one piece, no piece holds `sep`. */
  function Split(s: string, sep: char): (parts: seq<string>)
    ensures |parts| >= 1
    ensures forall k :: 0 <= k < |parts| ==> sep !in parts[k]
    decreases |s|
  {
    match IndexOf(s, sep)
    case None => [s]
    case Some(i) => [s[..i]] + Split(s[i + 1..], sep)
  }

  /** `parts.join(sep)`. */
  function Join(parts: seq<string>, sep: char): string
  {
    if |parts| == 0 then []
    else if |parts| == 1 then parts[0]
    else parts[0] + [sep] + Join(parts[1..], sep)
  }

  /** Joining the pieces of a split restores the string. */
  lemma {:induction false} JoinSplit(s: string, sep: char)
    ensures Join(Split(s, sep), sep) == s
    decreases |s|
  {
    var r := IndexOf(s, sep);
    if r.Some? {
      var i := r.value;
      var rest := Split(s[i + 1..], sep);
      JoinSplit(s[i + 1..], sep);
      var parts := [s[..i]] + rest;
      assert Split(s, sep) == parts;
      assert parts[0] == s[..i] && parts[1..] == rest;
      assert Join(parts, sep) == s[..i] + [sep] + Join(rest, sep);
      assert s == s[..i] + [sep] + s[i + 1..];
    }
  }

  /** Splitting a join of separator-free pieces gives the pieces back. */
  lemma {:induction false} SplitJoin(parts: seq<string>, sep: char)
    requires |parts| >= 1
    requires forall k :: 0 <= k < |parts| ==> sep !in parts[k]
    ensures Split(Join(parts, sep), sep) == parts
  {
    if |parts| > 1 {
      var rest := Join(parts[1..], sep);
      IndexOfJoined(parts[0], sep, rest);
      var s := parts[0] + [sep] + rest;
      assert s[..|parts[0]|] == parts[0];
      assert s[|parts[0]| + 1..] == rest;
      SplitJoin(parts[1..], sep);
      assert parts == [parts[0]] + parts[1..];
    }
  }

  /**
   * `s.splitn(n, sep)`: at most `n` pieces; every piece but the last is
   * free of `sep`, the last keeps the rest of the string verbatim.
   */
  function SplitN(s: string, n: nat, sep: char): (parts: seq<string>)
    requires n >= 1
    ensures 1 <= |parts| <= n
    decreases n
  {
    if n == 1 then [s]
    else
      match IndexOf(s, sep)
      case None => [s]
      case Some(i) => [s[..i]] + SplitN(s[i + 1..], n - 1, sep)
  }

  /** Every piece but the last is free of `sep`, and so is the last when there are fewer than `n`. */
  lemma {:induction false} SplitNPieces(s: string, n: nat, sep: char)
    requires n >= 1
    ensures var parts := SplitN(s, n, sep);
      && (forall k :: 0 <= k < |parts| - 1 ==> sep !in parts[k])
      && (|parts| < n ==> sep !in parts[|parts| - 1])
    decreases n
  {
    if n > 1 && IndexOf(s, sep).Some? {
      var i := IndexOf(s, sep).value;
      var rest := SplitN(s[i + 1..], n - 1, sep);
      SplitNPieces(s[i + 1..], n - 1, sep);
      assert SplitN(s, n, sep) == [s[..i]] + rest;
      assert sep !in s[..i];
    }
  }

  lemma {:induction false} JoinSplitN(s: string, n: nat, sep: char)
    requires n >= 1
    ensures Join(SplitN(s, n, sep), sep) == s
    decreases n, 1
  {
    var r := IndexOf(s, sep);
    if n == 1 || r.None? {
      JoinSplitNWhole(s, n, sep);
    } else {
      JoinSplitNAt(s, n, sep, r.value);
    }
  }

  /** With one piece allowed, or no separator, the split is the whole string. */
  lemma {:induction false} JoinSplitNWhole(s: string, n: nat, sep: char)
    requires n == 1 || (n >= 1 && IndexOf(s, sep).None?)
    ensures Join(SplitN(s, n, sep), sep) == s
  {
    assert SplitN(s, n, sep) == [s];
  }

  /** The step of `JoinSplitN` at the first separator, index `i`. */
  lemma {:induction false} JoinSplitNAt(s: string, n: nat, sep: char, i: nat)
    requires n >= 2 && IndexOf(s, sep) == Some(i)
    ensures Join(SplitN(s, n, sep), sep) == s
    decreases n, 0
  {
    SplitNAt(s, n, sep, i);
    JoinSplitN(s[i + 1..], n - 1, sep);
    JoinAround(s[..i], SplitN(s[i + 1..], n - 1, sep), s[i + 1..], sep);
    SplitAround(s, i);
  }

  /** At the first separator, `splitn` cuts off the piece before it and splits the rest into one piece fewer. */
  lemma {:induction false} SplitNAt(s: string, n: nat, sep: char, i: nat)
    requires n >= 2 && IndexOf(s, sep) == Some(i)
    ensures SplitN(s, n, sep) == [s[..i]] + SplitN(s[i + 1..], n - 1, sep)
  {
  }

  /** A string is the part before index `i`, its character there, and the part after. */
  lemma {:induction false} SplitAround(s: string, i: nat)
    requires i < |s|
    ensures s[..i] + [s[i]] + s[i + 1..] == s
  {
  }

  lemma {:induction false} JoinAround(head: string, rest: seq<string>, tail: string, sep: char)
    requires |rest| >= 1 && Join(rest, sep) == tail
    ensures Join([head] + rest, sep) == head + [sep] + tail
  {
    JoinCons(head, rest, sep);
  }

  lemma {:induction false} JoinCons(p: string, rest: seq<string>, sep: char)
    requires |rest| >= 1
    ensures Join([p] + rest, sep) == p + [sep] + Join(rest, sep)
  {
    assert ([p] + rest)[1..] == rest;
  }

  /**
   * Splitting a join into as many pieces as were joined gives the pieces back,
   * provided all but the last piece are separator-free; the last may hold it.
   */
  lemma {:induction false} SplitNJoin(parts: seq<string>, sep: char)
    requires |parts| >= 1
    requires forall k :: 0 <= k < |parts| - 1 ==> sep !in parts[k]
    ensures SplitN(Join(parts, sep), |parts|, sep) == parts
  {
    if |parts| > 1 {
      SplitNJoin(parts[1..], sep);
      SplitNJoinStep(parts, sep);
    }
  }

  /** The step of `SplitNJoin`: a separator-free first piece splits off at the first separator. */
  lemma {:induction false} SplitNJoinStep(parts: seq<string>, sep: char)
    requires |parts| > 1 && sep !in parts[0]
    requires SplitN(Join(parts[1..], sep), |parts| - 1, sep) == parts[1..]
    ensures SplitN(Join(parts, sep), |parts|, sep) == parts
  {
    var head, tail := parts[0], Join(parts[1..], sep);
    JoinFirst(parts, sep);
    IndexOfJoined(head, sep, tail);
    SplitNAt(head + [sep] + tail, |parts|, sep, |head|);
    Around(head, sep, tail);
    assert parts == [head] + parts[1..];
  }

  lemma {:induction false} JoinFirst(parts: seq<string>, sep: char)
    requires |parts| > 1
    ensures Join(parts, sep) == parts[0] + [sep] + Join(parts[1..], sep)
  {
  }

  /** The two sides of a separator placed between `a` and `b`. */
  lemma {:induction false} Around(a: string, c: char, b: string)
    ensures (a + [c] + b)[..|a|] == a && (a + [c] + b)[|a| + 1..] == b
  {
  }

  predicate IsPrefix(p: string, s: string) {
    |p| <= |s| && s[..|p|] == p
  }

  /** `s.contains(needle)`: `needle` occurs in `s` at some offset. */
  predicate Contains(s: string, needle: string)
    decreases |s|
  {
    IsPrefix(needle, s) || (|s| > 0 && Contains(s[1..], needle))
  }

  function LowerChar(c: char): char {
    if 'A' <= c <= 'Z' then (c as int + 32) as char else c
  }

  /** `to_lowercase`, for the ASCII letters (other characters are kept). */
  function ToLower(s: string): (r: string)
    ensures |r| == |s|
    ensures forall i :: 0 <= i < |s| ==> r[i] == LowerChar(s[i])
  {
    seq(|s|, i requires 0 <= i < |s| => LowerChar(s[i]))
  }

  /** `s.replace(from, to)` for single characters. */
  function ReplaceChar(s: string, from: char, to: char): (r: string)
    ensures |r| == |s|
    ensures forall i :: 0 <= i < |s| ==> r[i] == (if s[i] == from then to else s[i])
  {
    seq(|s|, i requires 0 <= i < |s| => if s[i] == from then to else s[i])
  }

  /** Bytes taken by one character in UTF-8. */
  function Utf8Width(c: char): nat {
    if c as int < 0x80 then 1
    else if c as int < 0x800 then 2
    else if c as int < 0x10000 then 3
    else 4
  }

  /** `str::len`: the UTF-8 byte length. */
  function Utf8Len(s: string): nat {
    if s == [] then 0 else Utf8Width(s[0]) + Utf8Len(s[1..])
  }

  /** A Rust string of byte length one is exactly one ASCII character. */
  lemma {:induction false} Utf8LenOne(s: string)
    ensures Utf8Len(s) == 1 <==> |s| == 1 && s[0] as int < 0x80
  {
    if |s| >= 2 {
      assert Utf8Len(s) >= Utf8Width(s[0]) + Utf8Width(s[1]);
    }
  }
}
