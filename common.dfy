/** Small shared building blocks: optional values, results carrying an error
    message, the "last n entries" window, repeated characters and Go's
    truncating integer division. */
module Common {

  /** A value that may be absent (a nil SDK pointer field in Go). */
  datatype Option<+T> = None | Some(value: T)

  /** Either a value or an error message. */
  datatype Result<+R> = Success(value: R) | Failure(error: string)

  function Min(a: int, b: int): int {
    if a <= b then a else b
  }

  function Abs(a: int): nat {
    if a < 0 then -a else a
  }

  /** The last min(n, |s|) elements of s, in their original order. */
  function LastN<T>(s: seq<T>, n: nat): (r: seq<T>)
    ensures |r| == Min(n, |s|)
    ensures s == s[..|s| - |r|] + r
    ensures forall i :: 0 <= i < |r| ==> r[i] == s[|s| - |r| + i]
  {
    if |s| <= n then s else s[|s| - n..]
  }

  /** Entries older than the last n never reach the window. */
  lemma LastNIgnoresOlder<T>(older: seq<T>, recent: seq<T>, n: nat)
    requires n <= |recent|
    ensures LastN(older + recent, n) == LastN(recent, n)
  {
    var s := older + recent;
    assert s[|s| - n..] == recent[|recent| - n..];
  }

  lemma AppendAssociative<T>(a: seq<T>, b: seq<T>, c: seq<T>)
    ensures (a + b) + c == a + (b + c)
  {
  }

  /** Facts about growing a prefix by one element, proved once for all
      element types so that callers need no sequence extensionality. */
  lemma PrefixStep<T>(s: seq<T>, i: nat)
    requires i < |s|
    ensures s[..i + 1][..i] == s[..i]
    ensures s[..i + 1] == s[..i] + [s[i]]
    ensures s[..i + 1][i] == s[i]
  {
  }

  lemma PrefixWhole<T>(s: seq<T>)
    ensures s[..|s|] == s
  {
  }

  /** The pieces g produces for the elements of s, joined in order. */
  function Flatten<T, U>(s: seq<T>, g: T -> seq<U>): seq<U> {
    if s == [] then [] else Flatten(s[..|s| - 1], g) + g(s[|s| - 1])
  }

  /** Flattening distributes over concatenation. */
  lemma {:induction false} FlattenAppend<T, U>(a: seq<T>, b: seq<T>, g: T -> seq<U>)
    ensures Flatten(a + b, g) == Flatten(a, g) + Flatten(b, g)
    decreases |b|
  {
    if b == [] {
      assert a + b == a;
    } else {
      FlattenAppend(a, b[..|b| - 1], g);
      assert (a + b)[..|a + b| - 1] == a + b[..|b| - 1];
    }
  }

  /** The string made of n copies of c (Go's strings.Repeat on one character). */
  function Repeat(c: char, n: nat): (r: string)
    ensures |r| == n
    ensures forall i :: 0 <= i < n ==> r[i] == c
  {
    if n == 0 then "" else Repeat(c, n - 1) + [c]
  }

  /** Integer division rounding toward zero, as Go's `/` on integers does
      (Dafny's own `/` is Euclidean). */
  function TruncDiv(a: int, b: int): (q: int)
    requires b != 0
    ensures Abs(q) * Abs(b) <= Abs(a) < Abs(q) * Abs(b) + Abs(b)
    ensures q != 0 ==> ((q < 0) <==> ((a < 0) != (b < 0)))
  {
    var m := Abs(a) / Abs(b);
    EuclideanBounds(Abs(a), Abs(b));
    if (a < 0) == (b < 0) then m else -m
  }

  lemma EuclideanBounds(x: nat, y: nat)
    requires y > 0
    ensures (x / y) * y <= x < (x / y) * y + y
  {
    assert x == (x / y) * y + x % y;
  }
}
