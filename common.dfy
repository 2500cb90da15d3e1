/** Failure-carrying wrappers and the one search every rule engine of the core runs. */
module Common {

  /** Rust's `Option<T>`. */
  datatype Option<T> = None | Some(value: T)

  /** Rust's `Result<T, E>`. */
  datatype Result<T, E> = Ok(value: T) | Err(error: E)

  /**
   * Rust's `Iterator::position`, and every early-return scan of the core: the
   * index of the first element satisfying `p`, or `None` when there is none.
   */
  function Position<T>(xs: seq<T>, p: T -> bool): (r: Option<nat>)
    ensures r.Some? ==> r.value < |xs| && p(xs[r.value])
    ensures r.Some? ==> forall j :: 0 <= j < r.value ==> !p(xs[j])
    ensures r.None? <==> forall j :: 0 <= j < |xs| ==> !p(xs[j])
  {
    if |xs| == 0 then None
    else if p(xs[0]) then Some(0)
    else
      match Position(xs[1..], p)
      case None => None
      case Some(i) => Some(i + 1)
  }

  /** Concatenation is associative. */
  lemma AppendAssoc<T>(x: seq<T>, y: seq<T>, z: seq<T>)
    ensures (x + y) + z == x + (y + z)
  {
  }

  /** The head and tail of a concatenation whose left part is not empty. */
  lemma HeadOfAppend<T>(f: seq<T>, b: seq<T>)
    requires |f| >= 1
    ensures (f + b)[0] == f[0] && (f + b)[1..] == f[1..] + b
  {
  }

  /** The strings `f` gives for the elements of `xs`, run together in order. */
  function ConcatMap<T>(xs: seq<T>, f: T -> string): string {
    if |xs| == 0 then "" else ConcatMap(xs[..|xs| - 1], f) + f(xs[|xs| - 1])
  }

  /** Extending the mapped prefix by one element appends that element's string. */
  lemma ConcatMapSnoc<T>(xs: seq<T>, i: nat, f: T -> string)
    requires i < |xs|
    ensures ConcatMap(xs[..i + 1], f) == ConcatMap(xs[..i], f) + f(xs[i])
  {
    assert xs[..i + 1][..i] == xs[..i];
  }

  /** Mapping distributes over concatenation. */
  lemma {:induction false} ConcatMapAppend<T>(a: seq<T>, b: seq<T>, f: T -> string)
    ensures ConcatMap(a + b, f) == ConcatMap(a, f) + ConcatMap(b, f)
    decreases |b|
  {
    if |b| == 0 {
      assert a + b == a;
    } else {
      assert (a + b)[..|a + b| - 1] == a + b[..|b| - 1];
      ConcatMapAppend(a, b[..|b| - 1], f);
    }
  }
}
