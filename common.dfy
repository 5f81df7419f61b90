/** Small value types shared by the modules of the model. */
module Common {

  /** An optional value: JavaScript's `undefined`/`null` on one side, a value on the other. */
  datatype Option<+T> = None | Some(value: T) {
    function GetOr(default: T): T {
      match this
      case Some(v) => v
      case None => default
    }
  }

  /** Either a success value or an error value. */
  datatype Result<+R, +E> = Ok(value: R) | Err(error: E)

  /** Elements of `xs` that satisfy `p`, in their original order (JavaScript's `Array.prototype.filter`). */
  function Filter<T>(xs: seq<T>, p: T -> bool): (r: seq<T>)
    ensures |r| <= |xs|
    ensures forall i | 0 <= i < |r| :: r[i] in xs && p(r[i])
    ensures forall i | 0 <= i < |xs| && p(xs[i]) :: xs[i] in r
  {
    if xs == [] then [] else (if p(xs[0]) then [xs[0]] else []) + Filter(xs[1..], p)
  }

  /** Filtering distributes over concatenation: the kept elements stay in the input's order, each as often as
      it occurs. */
  lemma {:induction false} FilterConcat<T>(a: seq<T>, b: seq<T>, p: T -> bool)
    ensures Filter(a + b, p) == Filter(a, p) + Filter(b, p)
    decreases |a|
  {
    if a == [] {
      assert a + b == b;
    } else {
      var head := if p(a[0]) then [a[0]] else [];
      var ab := a + b;
      assert ab[0] == a[0] && ab[1..] == a[1..] + b;
      FilterConcat(a[1..], b, p);
      calc {
        Filter(ab, p);
        { FilterCons(ab, p); }
        head + Filter(a[1..] + b, p);
        head + (Filter(a[1..], p) + Filter(b, p));
        (head + Filter(a[1..], p)) + Filter(b, p);
        { FilterCons(a, p); }
        Filter(a, p) + Filter(b, p);
      }
    }
  }

  /** Concatenation is associative. */
  lemma ConcatAssoc<T>(a: seq<T>, b: seq<T>, c: seq<T>)
    ensures a + (b + c) == (a + b) + c
  {
  }

  /** A single element is kept exactly when it passes. */
  lemma FilterSingle<T>(x: T, p: T -> bool)
    ensures Filter([x], p) == if p(x) then [x] else []
  {
    FilterCons([x], p);
    assert [x][1..] == [];
  }

  lemma FilterCons<T>(xs: seq<T>, p: T -> bool)
    requires xs != []
    ensures Filter(xs, p) == (if p(xs[0]) then [xs[0]] else []) + Filter(xs[1..], p)
  {
  }

  /** JavaScript's `Math.ceil(n / d)` for a non-negative numerator and a positive divisor. */
  function CeilDiv(n: nat, d: nat): (r: nat)
    requires d > 0
    ensures r * d >= n
    ensures r == 0 || (r - 1) * d < n
  {
    (n + d - 1) / d
  }

  /** `xs.filter(Boolean).length` over booleans: how many are true. */
  function CountTrue(xs: seq<bool>): (r: nat)
    ensures r <= |xs|
    ensures r == 0 <==> forall i | 0 <= i < |xs| :: !xs[i]
  {
    if xs == [] then 0 else (if xs[0] then 1 else 0) + CountTrue(xs[1..])
  }

  /** `xs.filter(x => x !== v)`: every occurrence of `v` removed. */
  function Without<T(==,!new)>(xs: seq<T>, v: T): (r: seq<T>)
    ensures v !in r
    ensures forall x | x != v :: x in r <==> x in xs
    ensures |r| <= |xs|
  {
    if xs == [] then [] else (if xs[0] == v then [] else [xs[0]]) + Without(xs[1..], v)
  }

  /** Removing distributes over concatenation: the remaining entries keep their order. */
  lemma {:induction false} WithoutConcat<T(!new)>(a: seq<T>, b: seq<T>, v: T)
    ensures Without(a + b, v) == Without(a, v) + Without(b, v)
    decreases |a|
  {
    if a == [] {
      assert a + b == b;
    } else {
      assert (a + b)[1..] == a[1..] + b;
      WithoutConcat(a[1..], b, v);
    }
  }

  /** A list without `v` is left as it is. */
  lemma {:induction false} WithoutAbsent<T(!new)>(xs: seq<T>, v: T)
    requires v !in xs
    ensures Without(xs, v) == xs
    decreases |xs|
  {
    if xs != [] {
      WithoutAbsent(xs[1..], v);
      assert xs == [xs[0]] + xs[1..];
    }
  }

  /** No value occurs twice. */
  predicate NoDuplicates<T(==)>(xs: seq<T>) {
    forall i, j | 0 <= i < j < |xs| :: xs[i] != xs[j]
  }

  /** Removing a value from a list without duplicates leaves one without duplicates. */
  lemma {:induction false} WithoutKeepsNoDuplicates<T(!new)>(xs: seq<T>, v: T)
    requires NoDuplicates(xs)
    ensures NoDuplicates(Without(xs, v))
    decreases |xs|
  {
    if xs != [] {
      assert NoDuplicates(xs[1..]) by {
        forall i, j | 0 <= i < j < |xs[1..]|
          ensures xs[1..][i] != xs[1..][j]
        {
          assert xs[1..][i] == xs[i + 1] && xs[1..][j] == xs[j + 1];
        }
      }
      WithoutKeepsNoDuplicates(xs[1..], v);
      assert xs[0] !in xs[1..] by {
        forall k | 0 <= k < |xs[1..]|
          ensures xs[1..][k] != xs[0]
        {
          assert xs[1..][k] == xs[k + 1];
        }
      }
    }
  }
}
