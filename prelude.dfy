/**
 * Small building blocks shared by every page of the storefront model:
 * optional values, results, JavaScript's Math.round on exact rationals,
 * and the "ordered sublist" relation that the list filters are stated with.
 */
module Prelude {

  datatype Option<+T> = None | Some(value: T) {
    function GetOr(default: T): T {
      match this
      case Some(v) => v
      case None => default
    }
  }

  datatype Result<+R, +E> = Success(value: R) | Failure(error: E)

  /** Math.round: the nearest integer, halves rounded up towards +infinity. */
  function Round(x: real): (r: int)
    ensures x - 0.5 < r as real <= x + 0.5
  {
    (x + 0.5).Floor
  }

  function Init<T>(s: seq<T>): seq<T>
    requires |s| > 0
  {
    s[..|s| - 1]
  }

  function Last<T>(s: seq<T>): T
    requires |s| > 0
  {
    s[|s| - 1]
  }

  /**
   * xs is an ordered sublist of ys: the elements of xs occur in ys, in the same
   * order, possibly with other elements in between.
   */
  predicate Sublist<T(==)>(xs: seq<T>, ys: seq<T>)
    decreases |ys|
  {
    if xs == [] then true
    else if ys == [] then false
    else (Last(xs) == Last(ys) && Sublist(Init(xs), Init(ys))) || Sublist(xs, Init(ys))
  }

  lemma {:induction false} SublistLength<T>(xs: seq<T>, ys: seq<T>)
    requires Sublist(xs, ys)
    ensures |xs| <= |ys|
    decreases |ys|
  {
    if xs != [] {
      if Last(xs) == Last(ys) && Sublist(Init(xs), Init(ys)) {
        SublistLength(Init(xs), Init(ys));
      } else {
        SublistLength(xs, Init(ys));
      }
    }
  }

  lemma {:induction false} SublistElements<T>(xs: seq<T>, ys: seq<T>)
    requires Sublist(xs, ys)
    ensures forall x :: x in xs ==> x in ys
    decreases |ys|
  {
    if xs != [] {
      assert xs == Init(xs) + [Last(xs)];
      assert ys == Init(ys) + [Last(ys)];
      if Last(xs) == Last(ys) && Sublist(Init(xs), Init(ys)) {
        SublistElements(Init(xs), Init(ys));
      } else {
        SublistElements(xs, Init(ys));
      }
    }
  }

  lemma {:induction false} SublistRefl<T>(xs: seq<T>)
    ensures Sublist(xs, xs)
    decreases |xs|
  {
    if xs != [] {
      SublistRefl(Init(xs));
    }
  }

  /** A prefix is an ordered sublist. */
  lemma {:induction false} PrefixSublist<T>(s: seq<T>, n: nat)
    requires n <= |s|
    ensures Sublist(s[..n], s)
    decreases |s|
  {
    if n == |s| {
      assert s[..n] == s;
      SublistRefl(s);
    } else {
      assert Init(s)[..n] == s[..n];
      PrefixSublist(Init(s), n);
    }
  }

  /** A suffix is an ordered sublist. */
  lemma {:induction false} SuffixSublist<T>(s: seq<T>, n: nat)
    requires n <= |s|
    ensures Sublist(s[n..], s)
    decreases |s|
  {
    if n < |s| {
      assert Init(s[n..]) == Init(s)[n..];
      SuffixSublist(Init(s), n);
    }
  }

  lemma {:induction false} SublistTrans<T>(a: seq<T>, b: seq<T>, c: seq<T>)
    requires Sublist(a, b) && Sublist(b, c)
    ensures Sublist(a, c)
    decreases |c|
  {
    if a != [] {
      assert b != [] && c != [];
      if Sublist(b, Init(c)) {
        SublistTrans(a, b, Init(c));
      } else if Last(a) == Last(b) && Sublist(Init(a), Init(b)) {
        SublistTrans(Init(a), Init(b), Init(c));
      } else {
        SublistTrans(a, Init(b), Init(c));
      }
    }
  }
}
