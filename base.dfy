/**
 * Shared value types and sequence helpers used by every component model:
 * an Option type for JavaScript's `undefined`/`null`, the order-preserving
 * filter behind `Array.prototype.filter` and MongoDB's `$match`, and the
 * index arithmetic of `Array.prototype.slice` and of MongoDB's skip/limit.
 */
module Base {

  /** `None` stands for a JavaScript value that is `undefined` or `null`. */
  datatype Option<+T> = None | Some(value: T)

  /** The outcome of an awaited call into a collaborator: a value, or a thrown error. */
  datatype Reply<+T> = Ok(value: T) | Threw(error: string)

  /** The elements of `xs` that satisfy `p`, in their original order. */
  function Keep<T>(xs: seq<T>, p: T -> bool): (r: seq<T>)
    ensures |r| <= |xs|
    ensures forall i :: 0 <= i < |r| ==> p(r[i])
  {
    if xs == [] then []
    else if p(xs[0]) then [xs[0]] + Keep(xs[1..], p)
    else Keep(xs[1..], p)
  }

  /** An element is kept exactly when it is in the input and satisfies the predicate. */
  lemma {:induction false} KeepMembership<T>(xs: seq<T>, p: T -> bool, x: T)
    ensures x in Keep(xs, p) <==> x in xs && p(x)
  {
    if xs != [] {
      KeepMembership(xs[1..], p, x);
      assert xs == [xs[0]] + xs[1..];
    }
  }

  /** Filtering distributes over concatenation, so the filter never reorders. */
  lemma {:induction false} KeepAppend<T>(a: seq<T>, b: seq<T>, p: T -> bool)
    ensures Keep(a + b, p) == Keep(a, p) + Keep(b, p)
  {
    if a == [] {
      assert a + b == b;
    } else {
      assert (a + b)[1..] == a[1..] + b;
      KeepAppend(a[1..], b, p);
    }
  }

  /** A predicate that holds everywhere keeps the whole sequence. */
  lemma {:induction false} KeepAll<T>(xs: seq<T>, p: T -> bool)
    requires forall i :: 0 <= i < |xs| ==> p(xs[i])
    ensures Keep(xs, p) == xs
  {
    if xs != [] {
      KeepAll(xs[1..], p);
    }
  }

  /** `Math.min` and `Math.max` on integers. */
  function Min(a: int, b: int): int { if a <= b then a else b }
  function Max(a: int, b: int): int { if a <= b then b else a }

  /**
   * The index `Array.prototype.slice` uses for a (possibly negative) bound:
   * negative bounds count from the end; the result is clamped to [0, len].
   */
  function SliceIndex(len: nat, k: int): (r: nat)
    ensures r <= len
    ensures 0 <= k ==> r == Min(k, len)
    ensures k < 0 ==> r == Max(len + k, 0)
  {
    if k < 0 then (if len + k < 0 then 0 else len + k)
    else if k < len then k else len
  }

  /** `xs.slice(start, end)`: empty when the clamped end is not past the clamped start. */
  function JsSlice<T>(xs: seq<T>, start: int, end: int): (r: seq<T>)
    ensures |r| <= |xs|
  {
    var s := SliceIndex(|xs|, start);
    var e := SliceIndex(|xs|, end);
    if s < e then xs[s..e] else []
  }

  /** For non-negative bounds, the slice is the elements at indices [start, end) that exist. */
  lemma JsSliceNonNegative<T>(xs: seq<T>, start: nat, end: nat, i: nat)
    requires start <= end
    ensures |JsSlice(xs, start, end)| == Max(Min(end, |xs|) - start, 0)
    ensures i < |JsSlice(xs, start, end)| ==> start + i < |xs| && JsSlice(xs, start, end)[i] == xs[start + i]
  {
  }

  /** MongoDB's `skip(n).limit(m)` over a result in collection order. */
  function SkipLimit<T>(xs: seq<T>, skip: nat, limit: nat): (r: seq<T>)
    ensures |r| <= limit
    ensures skip >= |xs| ==> r == []
    ensures forall i :: 0 <= i < |r| ==> skip + i < |xs| && r[i] == xs[skip + i]
    ensures |r| == Min(limit, Max(|xs| - skip, 0))
  {
    if skip >= |xs| then []
    else if skip + limit <= |xs| then xs[skip..skip + limit]
    else xs[skip..]
  }
}
