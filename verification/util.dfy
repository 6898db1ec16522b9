/** Small value-level helpers used throughout the game model: an Option type,
    the two numeric helpers of the game module, and the list operations that
    Python's `list.remove`, `list.index`, `list.insert(0, _)` and repeated
    `pop()` perform. */
module Util {

  datatype Option<+T> = None | Some(value: T)

  /** `clamp(x, minimum, maximum)` is `min(max(x, minimum), maximum)`. */
  function Clamp(x: int, minimum: int, maximum: int): (r: int)
    ensures r <= maximum
    ensures minimum <= maximum ==> minimum <= r
    ensures minimum <= x <= maximum ==> r == x
    ensures x > maximum ==> r == maximum
    ensures x < minimum && minimum <= maximum ==> r == minimum
    ensures minimum > maximum ==> r == maximum
  {
    var raised := if x < minimum then minimum else x;
    if raised > maximum then maximum else raised
  }

  /** Clamping twice is clamping once. */
  lemma ClampIdempotent(x: int, minimum: int, maximum: int)
    ensures Clamp(Clamp(x, minimum, maximum), minimum, maximum) == Clamp(x, minimum, maximum)
  {
  }

  /** `diff(a, b)` is `abs(a - b)`. */
  function Diff(a: int, b: int): (r: nat)
    ensures r == a - b || r == b - a
  {
    if a >= b then a - b else b - a
  }

  /** The elements of `s` in the opposite order: the order in which
      repeated `pop()` calls hand them out. */
  function Reverse<T>(s: seq<T>): (r: seq<T>)
    ensures |r| == |s|
  {
    if s == [] then [] else [s[|s| - 1]] + Reverse(s[..|s| - 1])
  }

  lemma {:induction false} ReverseAt<T>(s: seq<T>, i: nat)
    requires i < |s|
    ensures Reverse(s)[i] == s[|s| - 1 - i]
  {
    if i > 0 {
      ReverseAt(s[..|s| - 1], i - 1);
    }
  }

  lemma ReverseInvolutive<T>(s: seq<T>)
    ensures Reverse(Reverse(s)) == s
  {
    var r := Reverse(Reverse(s));
    forall i | 0 <= i < |s| ensures r[i] == s[i] {
      ReverseAt(Reverse(s), i);
      ReverseAt(s, |s| - 1 - i);
    }
  }

  /** Python's `list.index(x)`: the position of the first occurrence. */
  function IndexOf<T(==)>(s: seq<T>, x: T): (i: nat)
    requires x in s
    ensures i < |s| && s[i] == x
    ensures x !in s[..i]
  {
    if s[0] == x then 0 else 1 + IndexOf(s[1..], x)
  }

  /** Python's `list.remove(x)`: drops the first occurrence of `x`, keeping
      the order of everything else. */
  function RemoveFirst<T(==)>(s: seq<T>, x: T): (r: seq<T>)
    requires x in s
    ensures |r| == |s| - 1
    ensures multiset(r) == multiset(s) - multiset{x}
    ensures forall j {:trigger r[j]} :: 0 <= j < IndexOf(s, x) ==> r[j] == s[j]
    ensures forall j {:trigger r[j]} :: IndexOf(s, x) <= j < |r| ==> r[j] == s[j + 1]
  {
    var i := IndexOf(s, x);
    assert s == s[..i] + [s[i]] + s[i + 1..];
    s[..i] + s[i + 1..]
  }

  /** `remove(x)` followed by `insert(0, x)`. The other elements keep their
      relative order: those before `x` shift right by one, those after it
      stay where they were. */
  function MoveToFront<T(==)>(s: seq<T>, x: T): (r: seq<T>)
    requires x in s
    ensures |r| == |s| && r[0] == x
    ensures multiset(r) == multiset(s)
    ensures forall j {:trigger s[j]} :: 0 <= j < IndexOf(s, x) ==> r[j + 1] == s[j]
    ensures forall j {:trigger s[j]} :: IndexOf(s, x) < j < |s| ==> r[j] == s[j]
  {
    var i := IndexOf(s, x);
    var rest := RemoveFirst(s, x);
    assert forall j :: i < j < |s| ==> ([x] + rest)[j] == s[j] by {
      forall j | i < j < |s|
        ensures ([x] + rest)[j] == s[j]
      {
        assert ([x] + rest)[j] == rest[j - 1];
      }
    }
    [x] + rest
  }

  /** Moving an element to the front twice is the same as doing it once. */
  lemma MoveToFrontIdempotent<T>(s: seq<T>, x: T)
    requires x in s
    ensures x in MoveToFront(s, x)
    ensures MoveToFront(MoveToFront(s, x), x) == MoveToFront(s, x)
  {
    var r := MoveToFront(s, x);
    assert IndexOf(r, x) == 0;
    var rr := MoveToFront(r, x);
    assert |rr| == |r|;
    forall j | 0 <= j < |r| ensures rr[j] == r[j] {
    }
  }
}
