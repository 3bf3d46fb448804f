/** Text and path helpers (src/utils.rs): digit grouping, hidden names,
    home-directory expansion, natural comparison, escaping of control
    characters, truncation and padding. Paths are `/`-separated text. */
module Utils {
  import opened Wrappers
  import opened Strings
  import opened Natural

  // ---------------------------------------------------------------------
  // Paths

  /** A piece between separators that `Path::components` reports: empty
      pieces (repeated or trailing `/`) and `.` pieces vanish. */
  predicate IsKeptPiece(piece: string) {
    piece != "" && piece != "."
  }

  function KeepPieces(pieces: seq<string>): (r: seq<string>)
    ensures forall i :: 0 <= i < |r| ==> IsKeptPiece(r[i])
  {
    if |pieces| == 0 then []
    else
      var last := pieces[|pieces| - 1];
      KeepPieces(pieces[..|pieces| - 1]) + (if IsKeptPiece(last) then [last] else [])
  }

  /** The names along a path, root and `.` left out. */
  function Components(path: string): seq<string> {
    KeepPieces(Split(path, '/'))
  }

  /** A name a directory listing can yield. */
  predicate IsPlainName(name: string) {
    name != "" && name != "." && name != ".." && '/' !in name
  }

  /** `Path::file_name`: the last component, unless there is none or it
      is `..`. */
  function FileName(path: string): (r: Option<string>)
    ensures r.Some? ==> IsPlainName(r.value)
  {
    var cs := Components(path);
    if |cs| == 0 || cs[|cs| - 1] == ".." then None
    else
      assert '/' !in cs[|cs| - 1] by { ComponentsHaveNoSeparator(path); }
      Some(cs[|cs| - 1])
  }

  lemma {:induction false} KeepPiecesNoSeparator(pieces: seq<string>)
    requires forall i :: 0 <= i < |pieces| ==> '/' !in pieces[i]
    ensures forall i :: 0 <= i < |KeepPieces(pieces)| ==> '/' !in KeepPieces(pieces)[i]
    decreases |pieces|
  {
    if |pieces| > 0 {
      KeepPiecesNoSeparator(pieces[..|pieces| - 1]);
    }
  }

  lemma ComponentsHaveNoSeparator(path: string)
    ensures forall i :: 0 <= i < |Components(path)| ==> '/' !in Components(path)[i]
  {
    SplitPiecesLackSeparator(path, '/');
    KeepPiecesNoSeparator(Split(path, '/'));
  }

  /** `Path::join` of a relative or absolute name onto a base path. */
  function PathJoin(base: string, name: string): string {
    if |name| > 0 && name[0] == '/' then name
    else if |base| > 0 && base[|base| - 1] != '/' then base + "/" + name
    else base + name
  }

  lemma ComponentsOfPlainName(name: string)
    requires IsPlainName(name)
    ensures Split(name, '/') == [name] && Components(name) == [name]
  {
    SplitWithoutSeparator(name, '/');
    assert KeepPieces([name]) == KeepPieces([name][..0]) + [name];
  }

  lemma ComponentsAfterSeparator(dir: string, name: string)
    requires IsPlainName(name)
    ensures Components(dir + ['/'] + name) == Components(dir) + [name]
  {
    var ps := Split(dir, '/') + [name];
    calc {
      Components(dir + ['/'] + name);
      KeepPieces(Split(dir + ['/'] + name, '/'));
      { SplitAfterLast(dir, name, '/'); }
      KeepPieces(ps);
      { assert ps[..|ps| - 1] == Split(dir, '/'); }
      KeepPieces(Split(dir, '/')) + [name];
    }
  }

  /** The file name of `base` joined with a plain name is that name. */
  lemma FileNameOfJoin(base: string, name: string)
    requires IsPlainName(name)
    ensures FileName(PathJoin(base, name)) == Some(name)
  {
    if |base| == 0 {
      assert PathJoin(base, name) == name;
      ComponentsOfPlainName(name);
    } else if base[|base| - 1] == '/' {
      var dir := base[..|base| - 1];
      assert PathJoin(base, name) == dir + ['/'] + name;
      ComponentsAfterSeparator(dir, name);
    } else {
      assert PathJoin(base, name) == base + ['/'] + name;
      ComponentsAfterSeparator(base, name);
    }
  }

  /** `is_hidden_file`: the file name starts with a dot. */
  predicate IsHiddenFile(path: string) {
    match FileName(path)
    case Some(name) => name[0] == '.'
    case None => false
  }

  /** An entry found in a directory is hidden exactly when its own name
      starts with a dot, whatever the directory. */
  lemma HiddenIffNameStartsWithDot(dir: string, name: string)
    requires IsPlainName(name)
    ensures IsHiddenFile(PathJoin(dir, name)) <==> name[0] == '.'
  {
    FileNameOfJoin(dir, name);
  }

  /** The module's tests: ".hidden" is hidden ... */
  lemma HiddenNameExample()
    ensures IsHiddenFile("." + "hidden")
  {
    HiddenIffNameStartsWithDot("", "." + "hidden");
  }

  /** ... and "visible" is not. */
  lemma VisibleNameExample()
    ensures !IsHiddenFile("v" + "isible")
  {
    HiddenIffNameStartsWithDot("", "v" + "isible");
  }

  /** The same names below "/path/to". */
  lemma HiddenInDirectoryExample()
    ensures IsHiddenFile(PathJoin("/path/to", ".hidden"))
  {
    HiddenIffNameStartsWithDot("/path/to", ".hidden");
  }

  lemma VisibleInDirectoryExample()
    ensures !IsHiddenFile(PathJoin("/path/to", "visible"))
  {
    HiddenIffNameStartsWithDot("/path/to", "visible");
  }

  /** `path_file_name`: the file name, or empty text when there is none. */
  function PathFileName(path: string): (r: string)
    ensures FileName(path).Some? ==> r == FileName(path).value
    ensures FileName(path).None? ==> r == ""
  {
    FileName(path).GetOr("")
  }

  /** `expand_user_path` with the value of `HOME` passed in: `~` alone is
      the home directory, `~/rest` is `rest` below it, and every other path
      (including `~user`) is returned as it is. */
  function ExpandUserPath(path: string, home: Option<string>): (r: string)
    ensures home.None? ==> r == path
    ensures home.Some? && path == "~" ==> r == home.value
    ensures home.Some? && StartsWith(path, "~/") ==> r == PathJoin(home.value, path[2..])
    ensures !(path == "~" || StartsWith(path, "~/")) ==> r == path
  {
    if |path| > 0 && path[0] == '~' && home.Some? then
      if path == "~" then home.value
      else if StartsWith(path, "~/") then PathJoin(home.value, path[2..])
      else path
    else path
  }

  /** A plain name under `~/` lands directly in the home directory. */
  lemma ExpandedNameInHome(name: string, home: string)
    requires IsPlainName(name)
    ensures FileName(ExpandUserPath("~/" + name, Some(home))) == Some(name)
  {
    assert StartsWith("~/" + name, "~/");
    assert ("~/" + name)[2..] == name;
    FileNameOfJoin(home, name);
  }

  // ---------------------------------------------------------------------
  // Digit grouping

  /** `digits` with `sep` in front of every group of three counted from
      the right, except at the very front. */
  function Grouped(digits: string, sep: string): string
    decreases |digits|
  {
    if |digits| <= 3 then digits
    else Grouped(digits[..|digits| - 3], sep) + sep + digits[|digits| - 3..]
  }

  /** What the formatting loop has built after the first `i` digits: each
      digit is preceded by `sep` when it is not the first and the number
      of digits from it to the end is a multiple of three. */
  function LoopOutput(digits: string, i: nat, sep: string): string
    requires i <= |digits|
  {
    if i == 0 then []
    else
      LoopOutput(digits, i - 1, sep)
      + (if i - 1 > 0 && (|digits| - (i - 1)) % 3 == 0 then sep else [])
      + [digits[i - 1]]
  }

  lemma {:induction false} LoopOutputShort(digits: string, i: nat, sep: string)
    requires i <= |digits| <= 3
    ensures LoopOutput(digits, i, sep) == digits[..i]
  {
    if i > 0 {
      LoopOutputShort(digits, i - 1, sep);
      assert digits[..i] == digits[..i - 1] + [digits[i - 1]];
    }
  }

  lemma {:induction false} LoopOutputPrefix(digits: string, m: nat, i: nat, sep: string)
    requires i <= m <= |digits| && (|digits| - m) % 3 == 0
    ensures LoopOutput(digits, i, sep) == LoopOutput(digits[..m], i, sep)
  {
    if i > 0 {
      LoopOutputPrefix(digits, m, i - 1, sep);
      assert (|digits| - (i - 1)) % 3 == (m - (i - 1)) % 3;
    }
  }

  lemma {:induction false} LoopOutputIsGrouped(digits: string, sep: string)
    ensures LoopOutput(digits, |digits|, sep) == Grouped(digits, sep)
    decreases |digits|
  {
    var n := |digits|;
    if n <= 3 {
      LoopOutputShort(digits, n, sep);
      assert digits[..n] == digits;
    } else {
      var front := digits[..n - 3];
      LoopOutputPrefix(digits, n - 3, n - 3, sep);
      LoopOutputIsGrouped(front, sep);
      assert |front| == n - 3;
      calc {
        LoopOutput(digits, n, sep);
        LoopOutput(digits, n - 1, sep) + [digits[n - 1]];
        LoopOutput(digits, n - 2, sep) + [digits[n - 2]] + [digits[n - 1]];
        LoopOutput(digits, n - 3, sep) + sep + [digits[n - 3]] + [digits[n - 2]] + [digits[n - 1]];
        Grouped(front, sep) + sep + [digits[n - 3]] + [digits[n - 2]] + [digits[n - 1]];
        { assert digits[n - 3..] == [digits[n - 3]] + [digits[n - 2]] + [digits[n - 1]]; }
        Grouped(front, sep) + sep + digits[n - 3..];
      }
    }
  }

  /** `format_number_with_separator`. */
  method FormatNumberWithSeparator(num: nat, sep: string) returns (r: string)
    ensures r == Grouped(DecimalString(num), sep)
  {
    var chars := DecimalString(num);
    r := [];
    for i := 0 to |chars|
      invariant r == LoopOutput(chars, i, sep)
    {
      if i > 0 && (|chars| - i) % 3 == 0 {
        r := r + sep;
      }
      r := r + [chars[i]];
    }
    LoopOutputIsGrouped(chars, sep);
  }

  /** The digits of a text, in order. */
  function DigitsOf(s: string): string {
    if |s| == 0 then [] else DigitsOf(s[..|s| - 1]) + (if IsAsciiDigit(s[|s| - 1]) then [s[|s| - 1]] else [])
  }

  lemma {:induction false} DigitsOfAppend(a: string, b: string)
    ensures DigitsOf(a + b) == DigitsOf(a) + DigitsOf(b)
    decreases |b|
  {
    if |b| == 0 {
      assert a + b == a;
    } else {
      assert (a + b)[..|a + b| - 1] == a + b[..|b| - 1];
      DigitsOfAppend(a, b[..|b| - 1]);
    }
  }

  lemma {:induction false} DigitsOfDigits(d: string)
    requires AllDigits(d)
    ensures DigitsOf(d) == d
    decreases |d|
  {
    if |d| > 0 {
      DigitsOfDigits(d[..|d| - 1]);
      assert d == d[..|d| - 1] + [d[|d| - 1]];
    }
  }

  lemma {:induction false} DigitsOfNone(s: string)
    requires forall i :: 0 <= i < |s| ==> !IsAsciiDigit(s[i])
    ensures DigitsOf(s) == []
    decreases |s|
  {
    if |s| > 0 {
      DigitsOfNone(s[..|s| - 1]);
    }
  }

  /** Dropping the separators of a grouped number gives the digits back. */
  lemma {:induction false} UngroupGrouped(d: string, sep: string)
    requires AllDigits(d)
    requires forall i :: 0 <= i < |sep| ==> !IsAsciiDigit(sep[i])
    ensures DigitsOf(Grouped(d, sep)) == d
    decreases |d|
  {
    var n := |d|;
    if n <= 3 {
      DigitsOfDigits(d);
    } else {
      var front, back := d[..n - 3], d[n - 3..];
      var g := Grouped(front, sep);
      assert AllDigits(front) && AllDigits(back);
      calc {
        DigitsOf(Grouped(d, sep));
        DigitsOf(g + sep + back);
        { DigitsOfAppend(g + sep, back); }
        DigitsOf(g + sep) + DigitsOf(back);
        { DigitsOfAppend(g, sep); }
        DigitsOf(g) + DigitsOf(sep) + DigitsOf(back);
        { UngroupGrouped(front, sep); DigitsOfNone(sep); DigitsOfDigits(back); }
        front + [] + back;
        { assert d == front + back; }
        d;
      }
    }
  }

  /** Every digit group after the first has exactly three digits. */
  lemma GroupedExamples()
    ensures Grouped("1000", ",") == "1,000"
    ensures Grouped("1234567", ",") == "1,234,567"
    ensures Grouped("123", ",") == "123"
  {
    assert Grouped("1234", ",") == "1,234";
  }

  lemma DecimalStringExamples()
    ensures DecimalString(123) == "123"
    ensures DecimalString(1000) == "1000"
    ensures DecimalString(1234567) == "1234567"
  {
    assert DecimalString(1) == "1";
    assert DecimalString(12) == "12";
    assert DecimalString(10) == "10";
    assert DecimalString(100) == "100";
    assert DecimalString(1234) == "1234";
    assert DecimalString(12345) == "12345";
    assert DecimalString(123456) == "123456";
  }

  // ---------------------------------------------------------------------
  // Natural comparison (this copy values an over-long digit run as 0)

  /** `extract_number` of this module: collects the digit run starting at
      `start` and parses it, yielding 0 when it does not fit a `u64`. */
  method ExtractNumber(s: string, start: nat) returns (num: nat, next: nat)
    requires start <= |s|
    ensures start <= next <= |s| && AllDigits(s[start..next])
    ensures next < |s| ==> !IsAsciiDigit(s[next])
    ensures num == RunValue(s[start..next], ParseOrZero)
  {
    var numStr := "";
    next := start;
    while next < |s| && IsAsciiDigit(s[next])
      invariant start <= next <= |s|
      invariant numStr == s[start..next] && AllDigits(numStr)
    {
      numStr := numStr + [s[next]];
      next := next + 1;
    }
    num := ParseUnsigned(numStr, U64_MAX).GetOr(0);
  }

  /** `natural_compare`. */
  method NaturalCompare(a: string, b: string) returns (r: Ordering)
    ensures r == NaturalOrder(a, b, ParseOrZero)
  {
    var i, j := 0, 0;
    while true
      invariant 0 <= i <= |a| && 0 <= j <= |b|
      invariant NaturalOrder(a, b, ParseOrZero) == CompareTokens(Tokens(a[i..], ParseOrZero), Tokens(b[j..], ParseOrZero))
      decreases |a| - i
    {
      if i == |a| && j == |b| {
        return Equal;
      } else if i == |a| {
        return Less;
      } else if j == |b| {
        return Greater;
      }
      if IsAsciiDigit(a[i]) && IsAsciiDigit(b[j]) {
        var an, ai := ExtractNumber(a, i);
        var bn, bj := ExtractNumber(b, j);
        NumberTokenStep(a, i, ai, ParseOrZero);
        NumberTokenStep(b, j, bj, ParseOrZero);
        if an != bn {
          return CompareInt(an, bn);
        }
        i, j := ai, bj;
      } else {
        if IsAsciiDigit(a[i]) {
          FirstTokenIsNumber(a[i..], ParseOrZero);
          CharTokenStep(b, j, ParseOrZero);
          MixedCharStep(a[i], b[j], Tokens(a[i..], ParseOrZero)[0].value);
          return CompareChar(a[i], b[j]);
        } else if IsAsciiDigit(b[j]) {
          CharTokenStep(a, i, ParseOrZero);
          FirstTokenIsNumber(b[j..], ParseOrZero);
          MixedCharStep(a[i], b[j], Tokens(b[j..], ParseOrZero)[0].value);
          return CompareChar(a[i], b[j]);
        }
        CharTokenStep(a, i, ParseOrZero);
        CharTokenStep(b, j, ParseOrZero);
        if a[i] != b[j] {
          return CompareChar(a[i], b[j]);
        }
        i, j := i + 1, j + 1;
      }
    }
  }

  /** The module's tests: "file1.txt" before "file2.txt" ... */
  lemma NaturalCompareSmallerNumber()
    ensures NaturalOrder("file" + "1" + ".txt", "file" + "2" + ".txt", ParseOrZero) == Less
  {
    CompareNumberedNames("file", "1", "2", ".txt", ParseOrZero);
  }

  /** ... "file10.txt" after "file2.txt" ... */
  lemma NaturalCompareLargerNumber()
    ensures NaturalOrder("file" + "10" + ".txt", "file" + "2" + ".txt", ParseOrZero) == Greater
  {
    CompareNumberedNames("file", "10", "2", ".txt", ParseOrZero);
    assert DecimalValue("10") == 10;
  }

  /** ... and a name equal to itself. */
  lemma NaturalCompareSameName()
    ensures NaturalOrder("file1.txt", "file1.txt", ParseOrZero) == Equal
  {
    NaturalOrderReflexive("file1.txt", ParseOrZero);
  }

  // ---------------------------------------------------------------------
  // Display helpers

  /** `char::is_control`: the C0 and C1 control characters and DEL. */
  predicate IsControl(c: char) {
    c <= '\U{1F}' || ('\U{7F}' <= c <= '\U{9F}')
  }

  function HexDigit(n: nat): (c: char)
    requires n < 16
    ensures !IsControl(c)
  {
    if n < 10 then ('0' as int + n) as char else ('a' as int + n - 10) as char
  }

  function HexValue(c: char): int {
    if '0' <= c <= '9' then c as int - '0' as int
    else if 'a' <= c <= 'f' then c as int - 'a' as int + 10
    else -1
  }

  /** The display form of one character. */
  function EscapeChar(c: char): string {
    if c == '\t' then "\\t"
    else if c == '\n' then "\\n"
    else if c == '\r' then "\\r"
    else if IsControl(c) then
      var b := c as int % 256;
      "\\x" + [HexDigit(b / 16), HexDigit(b % 16)]
    else [c]
  }

  /** A character's display form holds no control character; it is the
      character itself unless that is one, and otherwise starts with a
      backslash. */
  lemma EscapeCharPrintable(c: char)
    ensures forall k :: 0 <= k < |EscapeChar(c)| ==> !IsControl(EscapeChar(c)[k])
    ensures !IsControl(c) ==> EscapeChar(c) == [c]
    ensures IsControl(c) ==> |EscapeChar(c)| >= 2 && EscapeChar(c)[0] == '\\'
  {
  }

  /** Other control characters show as `\x` and two hex digits that read
      back as the character's code. */
  lemma EscapedControlReadsBack(c: char)
    requires IsControl(c) && c != '\t' && c != '\n' && c != '\r'
    ensures |EscapeChar(c)| == 4 && EscapeChar(c)[..2] == "\\x"
    ensures HexValue(EscapeChar(c)[2]) * 16 + HexValue(EscapeChar(c)[3]) == c as int
  {
    var b := c as int % 256;
    assert b == c as int;
    assert EscapeChar(c) == "\\x" + [HexDigit(b / 16), HexDigit(b % 16)];
  }

  /** `escape_for_display`. */
  function EscapeForDisplay(s: string): string {
    if |s| == 0 then [] else EscapeForDisplay(s[..|s| - 1]) + EscapeChar(s[|s| - 1])
  }

  /** The displayed text holds no control character and is no shorter. */
  lemma {:induction false} EscapedIsPrintable(s: string)
    ensures forall k :: 0 <= k < |EscapeForDisplay(s)| ==> !IsControl(EscapeForDisplay(s)[k])
    ensures |EscapeForDisplay(s)| >= |s|
    decreases |s|
  {
    if |s| > 0 {
      EscapedIsPrintable(s[..|s| - 1]);
      EscapeCharPrintable(s[|s| - 1]);
    }
  }

  /** Text without control characters is shown as it is. */
  lemma {:induction false} PlainTextUnescaped(s: string)
    requires forall k :: 0 <= k < |s| ==> !IsControl(s[k])
    ensures EscapeForDisplay(s) == s
    decreases |s|
  {
    if |s| > 0 {
      PlainTextUnescaped(s[..|s| - 1]);
      EscapeCharPrintable(s[|s| - 1]);
      assert s == s[..|s| - 1] + [s[|s| - 1]];
    }
  }

  /** Tab and newline between plain words become `\t` and `\n` (the
      "hello", "world" case of the module's tests). */
  lemma EscapeTabAndNewline(a: string, b: string)
    requires forall k :: 0 <= k < |a| ==> !IsControl(a[k])
    requires forall k :: 0 <= k < |b| ==> !IsControl(b[k])
    ensures EscapeForDisplay(a + "\t" + b + "\n") == a + "\\t" + b + "\\n"
  {
    EscapeAppend(a + "\t" + b, "\n");
    EscapeAppend(a + "\t", b);
    EscapeAppend(a, "\t");
    EscapeOne('\t');
    EscapeOne('\n');
    PlainTextUnescaped(a);
    PlainTextUnescaped(b);
  }

  lemma EscapeForDisplayPlainExample()
    ensures EscapeForDisplay("normal") == "normal"
  {
    PlainTextUnescaped("normal");
  }

  lemma EscapeOne(c: char)
    ensures EscapeForDisplay([c]) == EscapeChar(c)
  {
    assert [c][..0] == [];
  }

  lemma {:induction false} EscapeAppend(a: string, b: string)
    ensures EscapeForDisplay(a + b) == EscapeForDisplay(a) + EscapeForDisplay(b)
    decreases |b|
  {
    if |b| == 0 {
      assert a + b == a;
    } else {
      var front, c := b[..|b| - 1], b[|b| - 1];
      assert (a + b)[..|a + b| - 1] == a + front && (a + b)[|a + b| - 1] == c;
      EscapeAppend(a, front);
      var x, y, z := EscapeForDisplay(a), EscapeForDisplay(front), EscapeChar(c);
      assert EscapeForDisplay(a + b) == (x + y) + z;
      assert EscapeForDisplay(b) == y + z;
      assert (x + y) + z == x + (y + z);
    }
  }

  /** `truncate_string`: texts that fit are kept; longer ones keep their
      first `max - 3` characters (none when `max < 3`) followed by "...". */
  function TruncateString(s: string, maxWidth: nat): (r: string)
    ensures |s| <= maxWidth ==> r == s
    ensures |s| > maxWidth ==> |r| == (if maxWidth >= 3 then maxWidth else 3)
    ensures |s| > maxWidth ==> r[|r| - 3..] == "..." && r[..|r| - 3] == s[..|r| - 3]
    ensures maxWidth >= 3 ==> |r| <= maxWidth
  {
    if |s| <= maxWidth then s
    else
      var keep := if maxWidth >= 3 then maxWidth - 3 else 0;
      s[..keep] + "..."
  }

  lemma TruncateStringExamples()
    ensures TruncateString("hello", 10) == "hello"
    ensures TruncateString("hello world", 8) == "hello..."
    ensures TruncateString("hi", 5) == "hi"
  {
  }

  function Spaces(n: nat): (r: string)
    ensures |r| == n && forall k :: 0 <= k < n ==> r[k] == ' '
  {
    seq(n, _ => ' ')
  }

  /** `pad_string`: at least `width` characters, spaces before the text
      when right-aligned and after it otherwise. */
  function PadString(s: string, width: nat, rightAlign: bool): (r: string)
    ensures |r| == (if |s| >= width then |s| else width)
    ensures rightAlign ==> r[|r| - |s|..] == s && forall k :: 0 <= k < |r| - |s| ==> r[k] == ' '
    ensures !rightAlign ==> r[..|s|] == s && forall k :: |s| <= k < |r| ==> r[k] == ' '
  {
    if |s| >= width then s
    else if rightAlign then Spaces(width - |s|) + s
    else s + Spaces(width - |s|)
  }

  lemma PadStringExamples()
    ensures PadString("hello", 10, false) == "hello     "
    ensures PadString("hello", 10, true) == "     hello"
    ensures PadString("hello world", 5, false) == "hello world"
  {
  }
}
