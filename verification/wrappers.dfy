/** Failure-compatible wrappers and the three-way comparison result that the
    Rust standard library supplies (`Option`, `Result`, `std::cmp::Ordering`). */
module Wrappers {

  datatype Option<+T> = None | Some(value: T) {
    function GetOr(default: T): T {
      match this
      case Some(v) => v
      case None => default
    }
  }

  datatype Result<+T, +E> = Ok(value: T) | Err(error: E)

  /** `std::cmp::Ordering`. */
  datatype Ordering = Less | Equal | Greater {
    /** `Ordering::reverse`: swaps Less and Greater. */
    function Reverse(): (r: Ordering)
      ensures r.Equal? <==> this.Equal?
      ensures r.Less? <==> this.Greater?
    {
      match this
      case Less => Greater
      case Equal => Equal
      case Greater => Less
    }
  }

  /** `Ord::cmp` on integers. */
  function CompareInt(a: int, b: int): (r: Ordering)
    ensures r.Less? <==> a < b
    ensures r.Equal? <==> a == b
    ensures r.Greater? <==> a > b
  {
    if a < b then Less else if a == b then Equal else Greater
  }

  /** `Ord::cmp` on `Option<int>`: `None` orders before every `Some`. */
  function CompareOption(a: Option<int>, b: Option<int>): (r: Ordering)
    ensures a.None? && b.None? ==> r.Equal?
    ensures a.None? && b.Some? ==> r.Less?
    ensures a.Some? && b.None? ==> r.Greater?
    ensures a.Some? && b.Some? ==> r == CompareInt(a.value, b.value)
  {
    match (a, b)
    case (None, None) => Equal
    case (None, Some(_)) => Less
    case (Some(_), None) => Greater
    case (Some(x), Some(y)) => CompareInt(x, y)
  }

  /** Lexicographic `Ord::cmp` on character sequences: the first differing
      character decides, and a proper prefix orders first. */
  function CompareLex(a: seq<char>, b: seq<char>): (r: Ordering)
    decreases |a|
  {
    if |a| == 0 && |b| == 0 then Equal
    else if |a| == 0 then Less
    else if |b| == 0 then Greater
    else if a[0] < b[0] then Less
    else if a[0] > b[0] then Greater
    else CompareLex(a[1..], b[1..])
  }

  lemma {:induction false} CompareLexEqual(a: seq<char>, b: seq<char>)
    ensures CompareLex(a, b).Equal? <==> a == b
    decreases |a|
  {
    if |a| > 0 && |b| > 0 && a[0] == b[0] {
      CompareLexEqual(a[1..], b[1..]);
      assert a == [a[0]] + a[1..] && b == [b[0]] + b[1..];
    }
  }

  lemma {:induction false} CompareLexFlip(a: seq<char>, b: seq<char>)
    ensures CompareLex(b, a) == CompareLex(a, b).Reverse()
    decreases |a|
  {
    if |a| > 0 && |b| > 0 && a[0] == b[0] {
      CompareLexFlip(a[1..], b[1..]);
    }
  }

  lemma {:induction false} CompareLexTransitive(a: seq<char>, b: seq<char>, c: seq<char>)
    requires !CompareLex(a, b).Greater? && !CompareLex(b, c).Greater?
    ensures !CompareLex(a, c).Greater?
    decreases |a|
  {
    if |a| > 0 && |b| > 0 && |c| > 0 && a[0] == b[0] && b[0] == c[0] {
      CompareLexTransitive(a[1..], b[1..], c[1..]);
    }
  }
}
