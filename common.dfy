/** Small shared vocabulary: optional values, the `{ data } | { error }` shape the
    server actions return, and removing every occurrence of a value from a list. */
module Common {

  /** `T | null` / `T | undefined` of the application. */
  datatype Option<+T> = None | Some(value: T) {
    function GetOr(default: T): T {
      match this
      case Some(v) => v
      case None => default
    }
  }

  /** What every server action returns: `{ data }` on success, `{ error: message }` otherwise. */
  datatype ActionResult<+T> = Data(data: T) | Error(message: string)

  /** `{ success: true }`. */
  datatype Done = Done

  /** `value || null` on an optional string: the empty string, being falsy,
      is stored as null like an absent value. */
  function OrNull(v: Option<string>): (r: Option<string>)
    ensures r != Some("")
    ensures r.None? <==> v.None? || v.value == ""
    ensures r.Some? ==> r == v
  {
    if v == Some("") then None else v
  }

  /** One validation issue as the schema library reports it: the field it is
      about and its human-readable message. Handlers return the message of the
      first issue only. */
  datatype Issue = Issue(field: string, message: string)

  /** Record ids are opaque strings (UUIDs generated by the database). */
  type Id = string

  /** `list.filter((y) => y !== x)`: every occurrence of `x` removed, the rest kept in order. */
  function Without<T(==)>(s: seq<T>, x: T): (r: seq<T>)
    ensures x !in r
    ensures forall y :: y in s && y != x ==> y in r
    ensures forall y :: y in r ==> y in s
    ensures multiset(r) == multiset(s)[x := 0]
  {
    if s == [] then []
    else
      assert s == [s[0]] + s[1..];
      if s[0] == x then Without(s[1..], x) else [s[0]] + Without(s[1..], x)
  }

  /** Filtering out a value that is absent returns the list itself. */
  lemma {:induction false} WithoutAbsent<T>(s: seq<T>, x: T)
    requires x !in s
    ensures Without(s, x) == s
  {
    if s != [] {
      WithoutAbsent(s[1..], x);
    }
  }

  /** Filtering distributes over concatenation (the order of what is kept is the original order). */
  lemma {:induction false} WithoutConcat<T>(a: seq<T>, b: seq<T>, x: T)
    ensures Without(a + b, x) == Without(a, x) + Without(b, x)
  {
    if a == [] {
      assert a + b == b;
    } else {
      assert (a + b)[1..] == a[1..] + b;
      WithoutConcat(a[1..], b, x);
    }
  }
  /** `xs.filter(f)`: the elements satisfying `f`, in their original order. */
  function Filter<T(!new)>(xs: seq<T>, f: T -> bool): (r: seq<T>)
    ensures |r| <= |xs|
    ensures forall k :: 0 <= k < |r| ==> f(r[k])
    decreases |xs|
  {
    if xs == [] then []
    else (if f(xs[0]) then [xs[0]] else []) + Filter(xs[1..], f)
  }

  /** The test `(y) => y !== x`. */
  function Other<T(==)>(x: T): T -> bool { (y: T) => y != x }

  /** `Without` is that filter: the elements other than `x`, in their order. */
  lemma {:induction false} WithoutIsFilter<T(!new)>(s: seq<T>, x: T)
    ensures Without(s, x) == Filter(s, Other(x))
    decreases |s|
  {
    if s != [] {
      WithoutIsFilter(s[1..], x);
    }
  }

  /** What `Filter` keeps: exactly the elements satisfying `f`; so nothing is
      kept exactly when no element satisfies `f`. */
  lemma {:induction false} FilterMembers<T(!new)>(xs: seq<T>, f: T -> bool)
    ensures forall x :: x in Filter(xs, f) <==> x in xs && f(x)
    ensures Filter(xs, f) == [] <==> forall x :: x in xs ==> !f(x)
    decreases |xs|
  {
    if xs != [] {
      FilterMembers(xs[1..], f);
      assert xs == [xs[0]] + xs[1..];
    }
  }

  /** Filtering distributes over concatenation. */
  lemma {:induction false} FilterConcat<T(!new)>(a: seq<T>, b: seq<T>, f: T -> bool)
    ensures Filter(a + b, f) == Filter(a, f) + Filter(b, f)
    decreases |a|
  {
    if a == [] {
      assert a + b == b;
    } else {
      assert (a + b)[1..] == a[1..] + b;
      FilterConcat(a[1..], b, f);
    }
  }

  /** `xs.reduce((sum, x) => sum + f(x), 0)`. */
  function Sum<T>(xs: seq<T>, f: T -> int): int
    decreases |xs|
  {
    if xs == [] then 0 else Sum(xs[..|xs| - 1], f) + f(xs[|xs| - 1])
  }

  /** `.limit(n)` on a result list: its first `n` elements. */
  function Take<T>(xs: seq<T>, n: nat): (r: seq<T>)
    ensures |r| <= n && |r| <= |xs|
    ensures |xs| >= n ==> |r| == n
    ensures forall k :: 0 <= k < |r| ==> r[k] == xs[k]
  {
    if n <= |xs| then xs[..n] else xs
  }

  /** The first `n` kept elements are at most `n` elements of `xs`, each satisfying `f`. */
  lemma TakeFiltered<T(!new)>(xs: seq<T>, f: T -> bool, n: nat)
    ensures var r := Take(Filter(xs, f), n);
      |r| <= n && forall k :: 0 <= k < |r| ==> r[k] in xs && f(r[k])
  {
    var rows := Filter(xs, f);
    FilterMembers(xs, f);
    var r := Take(rows, n);
    forall k | 0 <= k < |r|
      ensures r[k] in xs && f(r[k])
    {
      assert r[k] == rows[k] && rows[k] in rows;
    }
  }

  /** The first `n` kept elements are all of them when fewer than `n` satisfy
      `f`: an element satisfying `f` is left out only when all `n` places are taken. */
  lemma TakeFilteredComplete<T(!new)>(xs: seq<T>, f: T -> bool, n: nat)
    ensures |Take(Filter(xs, f), n)| == if |Filter(xs, f)| < n then |Filter(xs, f)| else n
    ensures forall x :: x in xs && f(x) && x !in Take(Filter(xs, f), n) ==> |Take(Filter(xs, f), n)| == n
  {
    FilterMembers(xs, f);
  }

  /** Summing is additive over concatenation. */
  lemma {:induction false} SumConcat<T>(a: seq<T>, b: seq<T>, f: T -> int)
    ensures Sum(a + b, f) == Sum(a, f) + Sum(b, f)
    decreases |b|
  {
    if b == [] {
      assert a + b == a;
    } else {
      assert (a + b)[..|a + b| - 1] == a + b[..|b| - 1];
      SumConcat(a, b[..|b| - 1], f);
    }
  }

  /** A sum of non-negative terms is non-negative. */
  lemma {:induction false} SumNonNegative<T>(xs: seq<T>, f: T -> int)
    requires forall k :: 0 <= k < |xs| ==> f(xs[k]) >= 0
    ensures Sum(xs, f) >= 0
    decreases |xs|
  {
    if xs != [] {
      SumNonNegative(xs[..|xs| - 1], f);
    }
  }
}
