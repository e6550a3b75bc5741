/** Option and Result: the source's `null`/`undefined` values and its thrown errors, as data. */
module Wrappers {

  datatype Option<+T> = None | Some(value: T)

  /** The outcome of an asynchronous call: a value, or the error it rejects with. */
  datatype Result<+T, +E> = Success(value: T) | Failure(error: E)

  function OptionToSeq<T>(o: Option<T>): (s: seq<T>)
    ensures |s| <= 1
    ensures o.Some? <==> |s| == 1
    ensures o.Some? ==> s[0] == o.value
  {
    match o
    case None => []
    case Some(v) => [v]
  }

  /** The values `f` yields over `s`, in order, skipping the elements it yields nothing for. */
  function FilterMap<A, B>(f: A -> Option<B>, s: seq<A>): (r: seq<B>)
    ensures |r| <= |s|
  {
    if s == [] then [] else FilterMap(f, s[..|s| - 1]) + OptionToSeq(f(s[|s| - 1]))
  }

  /** Filtering a concatenation filters each part on its own, keeping their order. */
  lemma {:induction false} FilterMapConcat<A, B>(f: A -> Option<B>, a: seq<A>, b: seq<A>)
    ensures FilterMap(f, a + b) == FilterMap(f, a) + FilterMap(f, b)
    decreases |b|
  {
    if b == [] {
      assert a + b == a;
    } else {
      var b' := b[..|b| - 1];
      assert (a + b)[..|a + b| - 1] == a + b' && (a + b)[|a + b| - 1] == b[|b| - 1];
      FilterMapConcat(f, a, b');
    }
  }

  /** Extending the input by one element extends the output by what that element yields. */
  lemma FilterMapSnoc<A, B>(f: A -> Option<B>, s: seq<A>, x: A)
    ensures FilterMap(f, s + [x]) == FilterMap(f, s) + OptionToSeq(f(x))
  {
    assert (s + [x])[..|s + [x]| - 1] == s;
  }

  /** The concatenation of what `f` yields for each element of `s`, in order. */
  function FlatMap<A, B>(f: A -> seq<B>, s: seq<A>): (r: seq<B>)
    ensures s == [] ==> r == []
  {
    if s == [] then [] else FlatMap(f, s[..|s| - 1]) + f(s[|s| - 1])
  }

  /** Extending the input by one element appends what that element yields. */
  lemma FlatMapSnoc<A, B>(f: A -> seq<B>, s: seq<A>, x: A)
    ensures FlatMap(f, s + [x]) == FlatMap(f, s) + f(x)
  {
    assert (s + [x])[..|s + [x]| - 1] == s;
  }

  /** Flat-mapping a concatenation flat-maps each part on its own, keeping their order. */
  lemma {:induction false} FlatMapConcat<A, B>(f: A -> seq<B>, a: seq<A>, b: seq<A>)
    ensures FlatMap(f, a + b) == FlatMap(f, a) + FlatMap(f, b)
    decreases |b|
  {
    if b == [] {
      assert a + b == a;
    } else {
      var b' := b[..|b| - 1];
      assert (a + b)[..|a + b| - 1] == a + b' && (a + b)[|a + b| - 1] == b[|b| - 1];
      FlatMapConcat(f, a, b');
    }
  }

  /** Every value of a filter-map is yielded by some element. */
  lemma {:induction false} FilterMapOrigins<A, B>(f: A -> Option<B>, s: seq<A>)
    ensures forall y :: y in FilterMap(f, s) ==> exists x :: x in s && f(x) == Some(y)
    decreases |s|
  {
    if s != [] {
      var init := s[..|s| - 1];
      FilterMapOrigins(f, init);
      assert forall x :: x in init ==> x in s;
      assert s[|s| - 1] in s;
    }
  }

  /** The elements of `s` that satisfy `p`, in order (`Array.prototype.filter`, or a query on a collection). */
  function Filter<T(!new)>(p: T -> bool, s: seq<T>): (r: seq<T>)
    ensures |r| <= |s|
    ensures forall x :: x in r <==> x in s && p(x)
  {
    if s == [] then []
    else
      var init := Filter(p, s[..|s| - 1]);
      var x := s[|s| - 1];
      assert forall y :: y in s <==> y in s[..|s| - 1] || y == x;
      init + (if p(x) then [x] else [])
  }

  /** Filtering a concatenation filters each part on its own, keeping their order. */
  lemma {:induction false} FilterConcat<T(!new)>(p: T -> bool, a: seq<T>, b: seq<T>)
    ensures Filter(p, a + b) == Filter(p, a) + Filter(p, b)
    decreases |b|
  {
    if b == [] {
      assert a + b == a;
    } else {
      var b' := b[..|b| - 1];
      assert (a + b)[..|a + b| - 1] == a + b' && (a + b)[|a + b| - 1] == b[|b| - 1];
      FilterConcat(p, a, b');
    }
  }

  /** A filter that every element passes keeps the whole sequence. */
  lemma {:induction false} FilterAll<T(!new)>(p: T -> bool, s: seq<T>)
    requires forall i :: 0 <= i < |s| ==> p(s[i])
    ensures Filter(p, s) == s
    decreases |s|
  {
    if s != [] {
      var init, x := s[..|s| - 1], s[|s| - 1];
      FilterAll(p, init);
      assert init + [x] == s;
    }
  }

  /** An element passes `p` or it does not: the two filters share out the sequence. */
  lemma {:induction false} FilterPartition<T(!new)>(p: T -> bool, q: T -> bool, s: seq<T>)
    requires forall x :: x in s ==> (q(x) <==> !p(x))
    ensures |Filter(p, s)| + |Filter(q, s)| == |s|
    decreases |s|
  {
    if s != [] {
      assert forall x :: x in s[..|s| - 1] ==> x in s;
      FilterPartition(p, q, s[..|s| - 1]);
    }
  }

  lemma AppendAssoc<T>(a: seq<T>, b: seq<T>, c: seq<T>)
    ensures (a + b) + c == a + (b + c)
  {
  }
}
