/** The pieces of Rust's `str` API that the modelled code relies on:
    `trim`, `lines`, `split_once`, `rsplit_once`, `starts_with`, unsigned
    integer parsing (`str::parse::<uN>`) and decimal printing (`to_string`). */
module Strings {
  import opened Wrappers

  predicate IsAsciiDigit(c: char) {
    '0' <= c <= '9'
  }

  predicate AllDigits(s: string) {
    forall i :: 0 <= i < |s| ==> IsAsciiDigit(s[i])
  }

  function DigitValue(c: char): (d: nat)
    requires IsAsciiDigit(c)
    ensures d < 10
  {
    c as int - '0' as int
  }

  function DigitChar(d: nat): (c: char)
    requires d < 10
    ensures IsAsciiDigit(c) && DigitValue(c) == d
  {
    ('0' as int + d) as char
  }

  /** The value of a run of decimal digits, accumulated left to right as
      `value * 10 + digit`. */
  function DecimalValue(s: string): nat
    requires AllDigits(s)
  {
    if |s| == 0 then 0 else DecimalValue(s[..|s| - 1]) * 10 + DigitValue(s[|s| - 1])
  }

  /** `u64::to_string` (without a width limit): the shortest decimal
      representation of `n`. */
  function DecimalString(n: nat): (r: string)
    ensures |r| >= 1 && AllDigits(r)
    ensures DecimalValue(r) == n
    ensures r[0] == '0' ==> n == 0 && r == "0"
  {
    if n < 10 then [DigitChar(n)]
    else
      var prefix := DecimalString(n / 10);
      var r := prefix + [DigitChar(n % 10)];
      assert r[..|r| - 1] == prefix;
      r
  }

  /** The text after an optional leading `+`. */
  function UnsignedDigits(s: string): (d: string)
    ensures |s| > 0 && s[0] == '+' ==> s == "+" + d
    ensures !(|s| > 0 && s[0] == '+') ==> d == s
  {
    if |s| > 0 && s[0] == '+' then s[1..] else s
  }

  /** `str::parse` for an unsigned integer type whose largest value is
      `max`: an optional `+`, then one or more ASCII digits, and a value
      that fits. It fails on empty input (or a lone `+`), on any character
      that is not a digit other than the leading `+`, and on a value above
      `max`; otherwise it yields the decimal value of the digits. */
  function ParseUnsigned(s: string, max: nat): (r: Option<nat>)
    ensures |s| == 0 || s == "+" ==> r.None?
    ensures (exists i :: 0 <= i < |s| && !IsAsciiDigit(s[i]) && (i > 0 || s[i] != '+')) ==> r.None?
    ensures r.Some? ==> AllDigits(UnsignedDigits(s)) && r.value == DecimalValue(UnsignedDigits(s)) && r.value <= max
    ensures |UnsignedDigits(s)| > 0 && AllDigits(UnsignedDigits(s)) && DecimalValue(UnsignedDigits(s)) <= max ==> r.Some?
  {
    var digits := UnsignedDigits(s);
    if |digits| == 0 || !AllDigits(digits) then None
    else if DecimalValue(digits) <= max then Some(DecimalValue(digits))
    else None
  }

  lemma {:induction false} DecimalValueDetermines(a: string, b: string)
    requires AllDigits(a) && AllDigits(b) && |a| == |b|
    requires DecimalValue(a) == DecimalValue(b)
    ensures a == b
  {
    if |a| > 0 {
      var n := |a|;
      DecimalValueDetermines(a[..n - 1], b[..n - 1]);
      assert a == a[..n - 1] + [a[n - 1]] && b == b[..n - 1] + [b[n - 1]];
    }
  }

  /** Parsing what `to_string` printed gives the number back. */
  lemma DecimalRoundTrip(n: nat, max: nat)
    requires n <= max
    ensures ParseUnsigned(DecimalString(n), max) == Some(n)
  {
  }

  /** `char::is_whitespace`: the Unicode White_Space property. */
  predicate IsWhitespace(c: char) {
    ('\t' <= c <= '\r') || c == ' ' || c == '\U{0085}' || c == '\U{00A0}'
    || c == '\U{1680}' || ('\U{2000}' <= c <= '\U{200A}') || c == '\U{2028}'
    || c == '\U{2029}' || c == '\U{202F}' || c == '\U{205F}' || c == '\U{3000}'
  }

  /** `str::trim_start`. */
  function TrimStart(s: string): string
  {
    if |s| > 0 && IsWhitespace(s[0]) then TrimStart(s[1..]) else s
  }

  /** `str::trim_end`. */
  function TrimEnd(s: string): string
  {
    if |s| > 0 && IsWhitespace(s[|s| - 1]) then TrimEnd(s[..|s| - 1]) else s
  }

  /** `str::trim`: leading and trailing whitespace removed. */
  function Trim(s: string): string {
    TrimEnd(TrimStart(s))
  }

  /** `trim_start` leaves a suffix of the text: it removes whitespace
      only, and all of it. */
  lemma {:induction false} TrimStartRemovesWhitespace(s: string)
    ensures |TrimStart(s)| <= |s| && TrimStart(s) == s[|s| - |TrimStart(s)|..]
    ensures forall i :: 0 <= i < |s| - |TrimStart(s)| ==> IsWhitespace(s[i])
    ensures |TrimStart(s)| > 0 ==> !IsWhitespace(TrimStart(s)[0])
  {
    if |s| > 0 && IsWhitespace(s[0]) {
      TrimStartRemovesWhitespace(s[1..]);
      assert forall i :: 1 <= i < |s| ==> s[i] == s[1..][i - 1];
    }
  }

  /** `trim_end` leaves a prefix of the text: it removes whitespace only,
      and all of it. */
  lemma {:induction false} TrimEndRemovesWhitespace(s: string)
    ensures |TrimEnd(s)| <= |s| && TrimEnd(s) == s[..|TrimEnd(s)|]
    ensures forall i :: |TrimEnd(s)| <= i < |s| ==> IsWhitespace(s[i])
    ensures |TrimEnd(s)| > 0 ==> !IsWhitespace(TrimEnd(s)[|TrimEnd(s)| - 1])
  {
    if |s| > 0 && IsWhitespace(s[|s| - 1]) {
      TrimEndRemovesWhitespace(s[..|s| - 1]);
    }
  }

  /** A trimmed text neither starts nor ends with whitespace. */
  lemma TrimmedEnds(s: string)
    ensures |Trim(s)| == 0 || (!IsWhitespace(Trim(s)[0]) && !IsWhitespace(Trim(s)[|Trim(s)| - 1]))
  {
    TrimStartRemovesWhitespace(s);
    TrimEndRemovesWhitespace(TrimStart(s));
  }

  /** A text that neither starts nor ends with whitespace is its own trim. */
  lemma TrimUnchanged(s: string)
    requires |s| > 0 && !IsWhitespace(s[0]) && !IsWhitespace(s[|s| - 1])
    ensures Trim(s) == s
  {
  }

  /** Trimming twice is trimming once. */
  lemma TrimIdempotent(s: string)
    ensures Trim(Trim(s)) == Trim(s)
  {
    TrimmedEnds(s);
    if |Trim(s)| > 0 {
      TrimUnchanged(Trim(s));
    }
  }

  predicate StartsWith(s: string, prefix: string) {
    |prefix| <= |s| && s[..|prefix|] == prefix
  }

  /** Index of the first occurrence of `c` in `s`. */
  function FindFirst(s: string, c: char): (r: Option<nat>)
    ensures r.Some? ==> r.value < |s| && s[r.value] == c
    ensures r.Some? ==> forall i :: 0 <= i < r.value ==> s[i] != c
    ensures r.None? ==> forall i :: 0 <= i < |s| ==> s[i] != c
  {
    if |s| == 0 then None
    else if s[0] == c then Some(0)
    else match FindFirst(s[1..], c)
      case None => None
      case Some(i) => Some(i + 1)
  }

  /** Index of the last occurrence of `c` in `s`. */
  function FindLast(s: string, c: char): (r: Option<nat>)
    ensures r.Some? ==> r.value < |s| && s[r.value] == c
    ensures r.Some? ==> forall i :: r.value < i < |s| ==> s[i] != c
    ensures r.None? ==> forall i :: 0 <= i < |s| ==> s[i] != c
  {
    if |s| == 0 then None
    else if s[|s| - 1] == c then Some(|s| - 1)
    else FindLast(s[..|s| - 1], c)
  }

  /** `str::split_once`: the text before and after the first `c`. */
  function SplitOnce(s: string, c: char): (r: Option<(string, string)>)
    ensures r.None? <==> c !in s
    ensures r.Some? ==> s == r.value.0 + [c] + r.value.1 && c !in r.value.0
  {
    match FindFirst(s, c)
    case None => None
    case Some(i) => Some((s[..i], s[i + 1..]))
  }

  /** `str::rsplit_once`: the text before and after the last `c`. */
  function RSplitOnce(s: string, c: char): (r: Option<(string, string)>)
    ensures r.None? <==> c !in s
    ensures r.Some? ==> s == r.value.0 + [c] + r.value.1 && c !in r.value.1
  {
    match FindLast(s, c)
    case None => None
    case Some(i) => Some((s[..i], s[i + 1..]))
  }

  /** `split_once` finds the separator placed after a text without one. */
  lemma SplitOnceAt(a: string, b: string, c: char)
    requires c !in a
    ensures SplitOnce(a + [c] + b, c) == Some((a, b))
  {
    var s := a + [c] + b;
    assert s[|a|] == c;
    assert s[..|a|] == a && s[|a| + 1..] == b;
  }

  /** `rsplit_once` finds the separator placed before a text without one. */
  lemma RSplitOnceAt(a: string, b: string, c: char)
    requires c !in b
    ensures RSplitOnce(a + [c] + b, c) == Some((a, b))
  {
    var s := a + [c] + b;
    assert s[|a|] == c;
    assert s[..|a|] == a && s[|a| + 1..] == b;
  }

  function StripCarriageReturn(line: string): string {
    if |line| > 0 && line[|line| - 1] == '\r' then line[..|line| - 1] else line
  }

  /** `str::lines`: split at `\n`, drop a `\r` right before it, and yield no
      empty line after a final `\n`. */
  function Lines(s: string): (r: seq<string>)
    ensures forall i :: 0 <= i < |r| ==> '\n' !in r[i]
    decreases |s|
  {
    if |s| == 0 then []
    else match FindFirst(s, '\n')
      case None => [s]
      case Some(i) => [StripCarriageReturn(s[..i])] + Lines(s[i + 1..])
  }

  /** Lines each followed by a newline, as a text file holds them. */
  function Terminated(lines: seq<string>): string {
    if |lines| == 0 then [] else lines[0] + "\n" + Terminated(lines[1..])
  }

  /** `lines` gives back the lines a newline-terminated text was made of,
      as long as none holds a newline or ends in a carriage return. */
  lemma {:induction false} LinesOfTerminated(lines: seq<string>)
    requires forall i :: 0 <= i < |lines| ==> '\n' !in lines[i]
    requires forall i :: 0 <= i < |lines| ==> |lines[i]| == 0 || lines[i][|lines[i]| - 1] != '\r'
    ensures Lines(Terminated(lines)) == lines
  {
    if |lines| > 0 {
      var line, rest := lines[0], Terminated(lines[1..]);
      var s := line + "\n" + rest;
      assert s == line + ['\n'] + rest;
      SplitOnceAt(line, rest, '\n');
      assert s[..|line|] == line && s[|line| + 1..] == rest;
      LinesOfTerminated(lines[1..]);
    }
  }

  /** `str::split`: the pieces between occurrences of `sep`, built here
      from the last piece backwards. */
  function Split(s: string, sep: char): (r: seq<string>)
    ensures |r| >= 1
    decreases |s|
  {
    match FindLast(s, sep)
    case None => [s]
    case Some(i) => Split(s[..i], sep) + [s[i + 1..]]
  }

  /** No piece holds the separator. */
  lemma {:induction false} SplitPiecesLackSeparator(s: string, sep: char)
    ensures forall i :: 0 <= i < |Split(s, sep)| ==> sep !in Split(s, sep)[i]
    decreases |s|
  {
    match FindLast(s, sep)
    case None =>
    case Some(i) =>
      SplitPiecesLackSeparator(s[..i], sep);
  }

  /** A text without the separator is one piece. */
  lemma SplitWithoutSeparator(s: string, sep: char)
    requires sep !in s
    ensures Split(s, sep) == [s]
  {
  }

  /** A separator followed by a text without one ends the split with that
      text as its last piece. */
  lemma SplitAfterLast(a: string, b: string, sep: char)
    requires sep !in b
    ensures Split(a + [sep] + b, sep) == Split(a, sep) + [b]
  {
    var s := a + [sep] + b;
    assert s[|a|] == sep;
    assert forall k :: |a| < k < |s| ==> s[k] == b[k - |a| - 1];
    assert FindLast(s, sep) == Some(|a|);
    assert s[..|a|] == a && s[|a| + 1..] == b;
  }

  /** `[String]::join`. */
  function Join(parts: seq<string>, sep: string): string {
    if |parts| == 0 then []
    else if |parts| == 1 then parts[0]
    else Join(parts[..|parts| - 1], sep) + sep + parts[|parts| - 1]
  }

  /** Splitting a joined list at a separator no part holds gives the parts
      back. */
  lemma {:induction false} SplitJoin(parts: seq<string>, sep: char)
    requires |parts| >= 1
    requires forall i :: 0 <= i < |parts| ==> sep !in parts[i]
    ensures Split(Join(parts, [sep]), sep) == parts
  {
    if |parts| == 1 {
      SplitWithoutSeparator(parts[0], sep);
    } else {
      var init := parts[..|parts| - 1];
      SplitJoin(init, sep);
      SplitAfterLast(Join(init, [sep]), parts[|parts| - 1], sep);
      assert init + [parts[|parts| - 1]] == parts;
    }
  }

  /** A separator in front of the join adds an empty first piece. */
  lemma {:induction false} SplitRootedJoin(parts: seq<string>, sep: char)
    requires |parts| >= 1
    requires forall i :: 0 <= i < |parts| ==> sep !in parts[i]
    ensures Split([sep] + Join(parts, [sep]), sep) == [[]] + parts
  {
    var last := parts[|parts| - 1];
    if |parts| == 1 {
      SplitAfterLast([], last, sep);
      assert [] + [sep] + last == [sep] + Join(parts, [sep]);
      SplitWithoutSeparator([], sep);
    } else {
      var init := parts[..|parts| - 1];
      SplitRootedJoin(init, sep);
      SplitAfterLast([sep] + Join(init, [sep]), last, sep);
      assert [sep] + Join(parts, [sep]) == [sep] + Join(init, [sep]) + [sep] + last;
      assert [[]] + init + [last] == [[]] + parts;
    }
  }
}
