/** Natural ("version") ordering of file names, as a reference definition.

    Both `natural_sort` (src/scanner.rs) and `natural_compare` (src/utils.rs)
    walk two strings side by side: two digit runs met together are compared
    by value, anything else one character at a time. Because a digit never
    equals a non-digit, that walk is a lexicographic comparison of token
    sequences, where a maximal run of digits is one `Num` token and every
    other character a `Char` token. The two implementations differ only in
    the value given to a run that does not fit in a `u64`. */
module Natural {
  import opened Wrappers
  import opened Strings

  const U64_MAX: nat := 0xFFFF_FFFF_FFFF_FFFF

  /** What a digit run too large for a `u64` is worth. */
  datatype Overflow =
    | Saturate     // `saturating_mul` / `saturating_add`: u64::MAX
    | ParseOrZero  // `parse().unwrap_or(0)`: 0

  function Min(a: nat, b: nat): nat {
    if a <= b then a else b
  }

  /** The value of a run of digits under the given overflow rule. */
  function RunValue(digits: string, mode: Overflow): (v: nat)
    requires AllDigits(digits)
    ensures v <= U64_MAX
    ensures DecimalValue(digits) <= U64_MAX ==> v == DecimalValue(digits)
  {
    var v := DecimalValue(digits);
    if v <= U64_MAX then v
    else match mode
      case Saturate => U64_MAX
      case ParseOrZero => 0
  }

  /** Length of the maximal run of digits at the start of `s`. */
  function DigitRunLength(s: string): (n: nat)
    ensures n <= |s| && AllDigits(s[..n])
    ensures n < |s| ==> !IsAsciiDigit(s[n])
  {
    if |s| > 0 && IsAsciiDigit(s[0]) then
      var n := 1 + DigitRunLength(s[1..]);
      assert s[..n] == [s[0]] + s[1..][..n - 1];
      n
    else 0
  }

  lemma {:induction false} DigitRunLengthUnique(s: string, k: nat)
    requires k <= |s| && AllDigits(s[..k])
    requires k < |s| ==> !IsAsciiDigit(s[k])
    ensures DigitRunLength(s) == k
  {
    if k > 0 {
      assert IsAsciiDigit(s[..k][0]);
      assert s[1..][..k - 1] == s[..k][1..];
      DigitRunLengthUnique(s[1..], k - 1);
    }
  }

  datatype Token = Num(value: nat) | Char(c: char)

  /** `s` cut into digit runs and single other characters. */
  function Tokens(s: string, mode: Overflow): seq<Token>
    decreases |s|
  {
    if |s| == 0 then []
    else if IsAsciiDigit(s[0]) then
      var n := DigitRunLength(s);
      [Num(RunValue(s[..n], mode))] + Tokens(s[n..], mode)
    else [Char(s[0])] + Tokens(s[1..], mode)
  }

  /** `Ord::cmp` on `char`: by code point. */
  function CompareChar(c: char, d: char): Ordering {
    CompareInt(c as int, d as int)
  }

  /** A number token meets a character token exactly when the walk compares
      the number's first digit with that character: the number is smaller
      when the character comes after '9', larger when it comes before '0'. */
  function CompareToken(x: Token, y: Token): Ordering {
    match (x, y)
    case (Num(m), Num(n)) => CompareInt(m, n)
    case (Char(c), Char(d)) => CompareChar(c, d)
    case (Num(_), Char(d)) => if d > '9' then Less else Greater
    case (Char(c), Num(_)) => if c > '9' then Greater else Less
  }

  function CompareTokens(xs: seq<Token>, ys: seq<Token>): Ordering
    decreases |xs|
  {
    if |xs| == 0 && |ys| == 0 then Equal
    else if |xs| == 0 then Less
    else if |ys| == 0 then Greater
    else if CompareToken(xs[0], ys[0]) != Equal then CompareToken(xs[0], ys[0])
    else CompareTokens(xs[1..], ys[1..])
  }

  /** The natural order of two names. */
  function NaturalOrder(a: string, b: string, mode: Overflow): Ordering {
    CompareTokens(Tokens(a, mode), Tokens(b, mode))
  }

  /** Unfolding one token of a suffix: the step both comparison loops take. */
  lemma NumberTokenStep(s: string, i: nat, next: nat, mode: Overflow)
    requires i < next <= |s| && IsAsciiDigit(s[i])
    requires AllDigits(s[i..next]) && (next < |s| ==> !IsAsciiDigit(s[next]))
    ensures Tokens(s[i..], mode) == [Num(RunValue(s[i..next], mode))] + Tokens(s[next..], mode)
  {
    var t := s[i..];
    assert t[..next - i] == s[i..next];
    DigitRunLengthUnique(t, next - i);
    assert t[next - i..] == s[next..];
  }

  lemma CharTokenStep(s: string, i: nat, mode: Overflow)
    requires i < |s| && !IsAsciiDigit(s[i])
    ensures Tokens(s[i..], mode) == [Char(s[i])] + Tokens(s[i + 1..], mode)
  {
    assert s[i..][1..] == s[i + 1..];
  }

  /** Comparing a digit with a non-digit character decides the same way as
      comparing a number token with that character's token. */
  lemma MixedCharStep(x: char, y: char, n: nat)
    requires IsAsciiDigit(x) != IsAsciiDigit(y)
    ensures IsAsciiDigit(x) ==> CompareChar(x, y) == CompareToken(Num(n), Char(y))
    ensures IsAsciiDigit(y) ==> CompareChar(x, y) == CompareToken(Char(x), Num(n))
    ensures CompareChar(x, y) != Equal
  {
  }

  /** A name that starts with a digit starts with a number token. */
  lemma FirstTokenIsNumber(s: string, mode: Overflow)
    requires |s| > 0 && IsAsciiDigit(s[0])
    ensures |Tokens(s, mode)| > 0 && Tokens(s, mode)[0].Num?
  {
  }

  /** The character tokens of a text without digits. */
  function CharTokens(w: string): (ts: seq<Token>)
    ensures |ts| == |w|
    ensures forall k :: 0 <= k < |w| ==> ts[k] == Char(w[k])
  {
    if |w| == 0 then [] else [Char(w[0])] + CharTokens(w[1..])
  }

  lemma {:induction false} TokensAfterWord(w: string, s: string, mode: Overflow)
    requires forall k :: 0 <= k < |w| ==> !IsAsciiDigit(w[k])
    ensures Tokens(w + s, mode) == CharTokens(w) + Tokens(s, mode)
    decreases |w|
  {
    if |w| == 0 {
      assert w + s == s;
    } else {
      assert (w + s)[1..] == w[1..] + s;
      TokensAfterWord(w[1..], s, mode);
    }
  }

  lemma TokensAfterNumber(d: string, s: string, mode: Overflow)
    requires |d| > 0 && AllDigits(d)
    requires |s| > 0 ==> !IsAsciiDigit(s[0])
    ensures Tokens(d + s, mode) == [Num(RunValue(d, mode))] + Tokens(s, mode)
  {
    var t := d + s;
    assert t[..|d|] == d && t[|d|..] == s;
    DigitRunLengthUnique(t, |d|);
  }

  /** A common prefix does not decide. */
  lemma {:induction false} CompareTokensCommonPrefix(p: seq<Token>, xs: seq<Token>, ys: seq<Token>)
    ensures CompareTokens(p + xs, p + ys) == CompareTokens(xs, ys)
    decreases |p|
  {
    if |p| == 0 {
      assert p + xs == xs && p + ys == ys;
    } else {
      assert (p + xs)[1..] == p[1..] + xs && (p + ys)[1..] == p[1..] + ys;
      CompareTokensCommonPrefix(p[1..], xs, ys);
    }
  }

  /** Names that differ only in a number between a digit-free word and a
      suffix not starting with a digit compare by that number. */
  lemma CompareNumberedNames(w: string, m: string, n: string, suffix: string, mode: Overflow)
    requires forall k :: 0 <= k < |w| ==> !IsAsciiDigit(w[k])
    requires |m| > 0 && AllDigits(m) && |n| > 0 && AllDigits(n)
    requires |suffix| > 0 ==> !IsAsciiDigit(suffix[0])
    ensures NaturalOrder(w + m + suffix, w + n + suffix, mode)
         == CompareInt(RunValue(m, mode), RunValue(n, mode))
  {
    assert w + m + suffix == w + (m + suffix);
    assert w + n + suffix == w + (n + suffix);
    TokensAfterWord(w, m + suffix, mode);
    TokensAfterWord(w, n + suffix, mode);
    TokensAfterNumber(m, suffix, mode);
    TokensAfterNumber(n, suffix, mode);
    var rest := Tokens(suffix, mode);
    CompareTokensCommonPrefix(CharTokens(w), [Num(RunValue(m, mode))] + rest, [Num(RunValue(n, mode))] + rest);
    if RunValue(m, mode) == RunValue(n, mode) {
      assert ([Num(RunValue(m, mode))] + rest)[1..] == rest;
      CompareTokensReflexive(rest);
    }
  }

  /** Token sequences that `Tokens` can produce: digits only inside numbers. */
  predicate WellFormed(ts: seq<Token>) {
    forall i :: 0 <= i < |ts| && ts[i].Char? ==> !IsAsciiDigit(ts[i].c)
  }

  lemma {:induction false} TokensWellFormed(s: string, mode: Overflow)
    ensures WellFormed(Tokens(s, mode))
    decreases |s|
  {
    if |s| > 0 {
      if IsAsciiDigit(s[0]) {
        TokensWellFormed(s[DigitRunLength(s)..], mode);
      } else {
        TokensWellFormed(s[1..], mode);
      }
    }
  }

  lemma {:induction false} CompareTokensReflexive(xs: seq<Token>)
    ensures CompareTokens(xs, xs) == Equal
    decreases |xs|
  {
    if |xs| > 0 {
      CompareTokensReflexive(xs[1..]);
    }
  }

  lemma CompareTokenFlip(x: Token, y: Token)
    ensures CompareToken(y, x) == CompareToken(x, y).Reverse()
  {
  }

  lemma {:induction false} CompareTokensFlip(xs: seq<Token>, ys: seq<Token>)
    ensures CompareTokens(ys, xs) == CompareTokens(xs, ys).Reverse()
    decreases |xs|
  {
    if |xs| > 0 && |ys| > 0 {
      CompareTokenFlip(xs[0], ys[0]);
      CompareTokensFlip(xs[1..], ys[1..]);
    }
  }

  lemma CompareTokenTransitive(x: Token, y: Token, z: Token)
    requires x.Char? ==> !IsAsciiDigit(x.c)
    requires y.Char? ==> !IsAsciiDigit(y.c)
    requires z.Char? ==> !IsAsciiDigit(z.c)
    requires CompareToken(x, y) != Greater && CompareToken(y, z) != Greater
    ensures CompareToken(x, z) != Greater
    ensures CompareToken(x, y) == Equal && CompareToken(y, z) == Equal ==> CompareToken(x, z) == Equal
    ensures CompareToken(x, y) == Less || CompareToken(y, z) == Less ==> CompareToken(x, z) == Less
  {
  }

  lemma {:induction false} CompareTokensTransitive(xs: seq<Token>, ys: seq<Token>, zs: seq<Token>)
    requires WellFormed(xs) && WellFormed(ys) && WellFormed(zs)
    requires CompareTokens(xs, ys) != Greater && CompareTokens(ys, zs) != Greater
    ensures CompareTokens(xs, zs) != Greater
    decreases |xs|
  {
    if |xs| > 0 && |ys| > 0 && |zs| > 0 {
      CompareTokenTransitive(xs[0], ys[0], zs[0]);
      if CompareToken(xs[0], ys[0]) == Equal && CompareToken(ys[0], zs[0]) == Equal {
        assert WellFormed(xs[1..]) && WellFormed(ys[1..]) && WellFormed(zs[1..]) by {
          forall i | 0 <= i < |xs| - 1 ensures xs[1..][i] == xs[i + 1] { }
          forall i | 0 <= i < |ys| - 1 ensures ys[1..][i] == ys[i + 1] { }
          forall i | 0 <= i < |zs| - 1 ensures zs[1..][i] == zs[i + 1] { }
        }
        CompareTokensTransitive(xs[1..], ys[1..], zs[1..]);
      }
    }
  }

  /** Every name is equal to itself. */
  lemma NaturalOrderReflexive(a: string, mode: Overflow)
    ensures NaturalOrder(a, a, mode) == Equal
  {
    CompareTokensReflexive(Tokens(a, mode));
  }

  /** Swapping the operands reverses the result. */
  lemma NaturalOrderFlip(a: string, b: string, mode: Overflow)
    ensures NaturalOrder(b, a, mode) == NaturalOrder(a, b, mode).Reverse()
  {
    CompareTokensFlip(Tokens(a, mode), Tokens(b, mode));
  }

  /** "Not after" is transitive, so the order is a total preorder and a
      sort by it is well defined. */
  lemma NaturalOrderTransitive(a: string, b: string, c: string, mode: Overflow)
    requires NaturalOrder(a, b, mode) != Greater && NaturalOrder(b, c, mode) != Greater
    ensures NaturalOrder(a, c, mode) != Greater
  {
    TokensWellFormed(a, mode);
    TokensWellFormed(b, mode);
    TokensWellFormed(c, mode);
    CompareTokensTransitive(Tokens(a, mode), Tokens(b, mode), Tokens(c, mode));
  }
}
