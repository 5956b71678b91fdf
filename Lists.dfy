/**
 * The list shapes the converter builds with comprehensions:
 * sum([[a, b] for x in xs], []) and [row] * n.
 */
module Lists {

  /** a[0], b[0], a[1], b[1], ...: the flattening of the pairs [a[i], b[i]]. */
  function Interleave<T>(a: seq<T>, b: seq<T>): (r: seq<T>)
    requires |a| == |b|
    ensures |r| == 2 * |a|
    ensures forall i :: 0 <= i < |a| ==> r[2 * i] == a[i] && r[2 * i + 1] == b[i]
    decreases |a|
  {
    if a == [] then []
    else
      var rest := Interleave(a[1..], b[1..]);
      assert forall i :: 1 <= i < |a| ==> rest[2 * (i - 1)] == a[i] && rest[2 * (i - 1) + 1] == b[i];
      [a[0], b[0]] + rest
  }

  /** A sequence whose even and odd positions hold `a` and `b` is their interleaving. */
  lemma InterleaveUnique<T>(r: seq<T>, a: seq<T>, b: seq<T>)
    requires |a| == |b| && |r| == 2 * |a|
    requires forall i :: 0 <= i < |a| ==> r[2 * i] == a[i] && r[2 * i + 1] == b[i]
    ensures r == Interleave(a, b)
  {
    var t := Interleave(a, b);
    forall j | 0 <= j < |r|
      ensures r[j] == t[j]
    {
      var i := j / 2;
      assert r[2 * i] == a[i] == t[2 * i] && r[2 * i + 1] == b[i] == t[2 * i + 1];
      if j % 2 == 0 {
        assert j == 2 * i;
      } else {
        assert j == 2 * i + 1;
      }
    }
  }

  /** `x` prefixed to every element of `xs`. */
  function Prefixed(x: string, xs: seq<string>): (r: seq<string>)
    ensures |r| == |xs| && forall i :: 0 <= i < |xs| ==> r[i] == x + xs[i]
  {
    seq(|xs|, i requires 0 <= i < |xs| => x + xs[i])
  }

  /** Python's [x] * n: n copies of x, none when n is not positive. */
  function Repeat<T>(x: T, n: int): (r: seq<T>)
    ensures |r| == if n < 0 then 0 else n
    ensures forall i :: 0 <= i < |r| ==> r[i] == x
  {
    if n <= 0 then [] else [x] + Repeat(x, n - 1)
  }

  /** Where the parts of a three-part concatenation sit. */
  lemma ConcatAt<T>(a: seq<T>, b: seq<T>, c: seq<T>)
    ensures |a + b + c| == |a| + |b| + |c|
    ensures forall i :: 0 <= i < |a| ==> (a + b + c)[i] == a[i]
    ensures forall j :: 0 <= j < |b| ==> (a + b + c)[|a| + j] == b[j]
    ensures forall j :: 0 <= j < |c| ==> (a + b + c)[|a| + |b| + j] == c[j]
  {
  }
}
