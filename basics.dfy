/** Small value types shared by every module of the model. */
module Basics {

  datatype Option<T> = None | Some(value: T)

  datatype Result<T, E> = Ok(value: T) | Err(error: E)

  /** What a Django `.get(...)` on a queryset finds: no row (DoesNotExist),
      exactly one row, or several rows (MultipleObjectsReturned). */
  datatype Lookup<T> = Missing | One(row: T) | Many

  /** Finds the rows of `rows` satisfying `p`, as `.get()` would. */
  function LookupBy<T>(rows: seq<T>, p: T -> bool): (r: Lookup<T>)
    ensures r.One? <==> |Filter(rows, p)| == 1
    ensures r.One? ==> r.row in rows && p(r.row)
    ensures r.Missing? <==> (forall i :: 0 <= i < |rows| ==> !p(rows[i]))
  {
    FilterNoneLemma(rows, p);
    var f := Filter(rows, p);
    if |f| == 0 then Missing else if |f| == 1 then One(f[0]) else Many
  }

  function Filter<T>(s: seq<T>, p: T -> bool): (r: seq<T>)
    ensures |r| <= |s|
    ensures forall x :: x in r ==> x in s && p(x)
  {
    if s == [] then [] else (if p(s[0]) then [s[0]] else []) + Filter(s[1..], p)
  }

  /** Every element of `s` satisfying `p` survives the filter. */
  lemma {:induction false} FilterComplete<T>(s: seq<T>, p: T -> bool)
    ensures forall x :: x in s && p(x) ==> x in Filter(s, p)
  {
    if s != [] {
      FilterComplete(s[1..], p);
      assert forall x :: x in s ==> x == s[0] || x in s[1..];
    }
  }

  lemma FilterNoneLemma<T>(s: seq<T>, p: T -> bool)
    ensures |Filter(s, p)| == 0 <==> (forall i :: 0 <= i < |s| ==> !p(s[i]))
  {
    if s != [] {
      FilterNoneLemma(s[1..], p);
      if p(s[0]) {
      } else {
        assert forall i :: 1 <= i < |s| ==> s[i] == s[1..][i - 1];
      }
    }
  }

  /** When exactly one element satisfies `p`, filtering yields just that
      element. */
  lemma {:induction false} FilterSingle<T>(s: seq<T>, p: T -> bool, k: nat)
    requires k < |s| && p(s[k])
    requires forall i :: 0 <= i < |s| && i != k ==> !p(s[i])
    ensures Filter(s, p) == [s[k]]
  {
    if k == 0 {
      FilterNoneLemma(s[1..], p);
      assert forall i :: 0 <= i < |s[1..]| ==> !p(s[1..][i]) by {
        forall i | 0 <= i < |s[1..]| ensures !p(s[1..][i]) { assert s[1..][i] == s[i + 1]; }
      }
    } else {
      forall i | 0 <= i < |s[1..]| && i != k - 1 ensures !p(s[1..][i]) { assert s[1..][i] == s[i + 1]; }
      FilterSingle(s[1..], p, k - 1);
    }
  }

  /** Filtering by two predicates that agree everywhere gives the same
      rows. */
  lemma {:induction false} FilterSame<T>(s: seq<T>, p: T -> bool, q: T -> bool)
    requires forall x :: p(x) == q(x)
    ensures Filter(s, p) == Filter(s, q)
  {
    if s != [] { FilterSame(s[1..], p, q); }
  }

  /** Filtering a sequence extended by one element. */
  lemma {:induction false} FilterSnoc<T>(s: seq<T>, x: T, p: T -> bool)
    ensures Filter(s + [x], p) == Filter(s, p) + (if p(x) then [x] else [])
  {
    if s == [] {
      assert [x][1..] == [];
    } else {
      assert (s + [x])[1..] == s[1..] + [x];
      FilterSnoc(s[1..], x, p);
    }
  }

  /** Filtering one more element of a prefix. */
  lemma FilterPrefixSnoc<T>(s: seq<T>, i: nat, p: T -> bool)
    requires i < |s|
    ensures Filter(s[..i + 1], p) == Filter(s[..i], p) + (if p(s[i]) then [s[i]] else [])
  {
    assert s[..i + 1] == s[..i] + [s[i]];
    FilterSnoc(s[..i], s[i], p);
  }

  /** Where `.get()` finds its row, by index: nowhere, at the only index
      satisfying `p`, or at several. */
  function FindOne<T>(s: seq<T>, p: T -> bool): (r: Lookup<nat>)
    ensures r.Missing? <==> forall j :: 0 <= j < |s| ==> !p(s[j])
    ensures r.One? ==> r.row < |s| && p(s[r.row]) && forall j :: 0 <= j < |s| && j != r.row ==> !p(s[j])
    ensures r.Many? ==> exists i, j :: 0 <= i < j < |s| && p(s[i]) && p(s[j])
  {
    match FirstWhere(s, p)
    case None => Missing
    case Some(k) =>
      var rest := FirstWhere(s[k + 1..], p);
      assert forall j :: k < j < |s| ==> s[j] == s[k + 1..][j - k - 1];
      if rest.None? then One(k)
      else
        assert p(s[k + 1 + rest.value]);
        Many
  }

  /** The index of the first element satisfying `p`. */
  function FirstWhere<T>(s: seq<T>, p: T -> bool): (r: Option<nat>)
    ensures r.Some? ==> r.value < |s| && p(s[r.value]) && forall j :: 0 <= j < r.value ==> !p(s[j])
    ensures r.None? ==> forall j :: 0 <= j < |s| ==> !p(s[j])
  {
    if s == [] then None
    else if p(s[0]) then Some(0)
    else match FirstWhere(s[1..], p)
      case None => None
      case Some(k) => Some(k + 1)
  }

  /** A scan that stops at the first element satisfying `p`. */
  method FindFirst<T>(s: seq<T>, p: T -> bool) returns (r: Option<nat>)
    ensures r == FirstWhere(s, p)
  {
    for i := 0 to |s|
      invariant forall j :: 0 <= j < i ==> !p(s[j])
    {
      if p(s[i]) {
        return Some(i);
      }
    }
    return None;
  }

  function Max(a: int, b: int): int { if a >= b then a else b }

  function Min(a: int, b: int): int { if a <= b then a else b }

  /** `max(lo, min(x, hi))`, the clamp written throughout the source. */
  function Clamp(x: int, lo: int, hi: int): (r: int)
    requires lo <= hi
    ensures lo <= r <= hi
    ensures lo <= x <= hi ==> r == x
    ensures x < lo ==> r == lo
    ensures x > hi ==> r == hi
  {
    Max(lo, Min(x, hi))
  }

  /** Sum of an integer sequence, left to right. */
  function Sum(s: seq<int>): int
  {
    if s == [] then 0 else Sum(s[..|s| - 1]) + s[|s| - 1]
  }

  lemma SumAppend(a: seq<int>, b: seq<int>)
    ensures Sum(a + b) == Sum(a) + Sum(b)
    decreases |b|
  {
    if b == [] {
      assert a + b == a;
    } else {
      assert (a + b)[..|a + b| - 1] == a + b[..|b| - 1];
      SumAppend(a, b[..|b| - 1]);
    }
  }

  lemma SumNonNegative(s: seq<int>)
    requires forall i :: 0 <= i < |s| ==> s[i] >= 0
    ensures Sum(s) >= 0
  {
    if s != [] { SumNonNegative(s[..|s| - 1]); }
  }

  /** No element occurs twice. */
  predicate Distinct<T(==)>(s: seq<T>)
  {
    forall i, j :: 0 <= i < j < |s| ==> s[i] != s[j]
  }

  /** Two duplicate-free sequences with no element in common join into a
      duplicate-free one. */
  lemma DistinctConcat<T>(a: seq<T>, b: seq<T>)
    requires Distinct(a) && Distinct(b)
    requires forall x :: x in a ==> x !in b
    ensures Distinct(a + b)
  {
    forall i, j | 0 <= i < j < |a + b| ensures (a + b)[i] != (a + b)[j]
    {
      if j < |a| {
      } else if i >= |a| {
        assert (a + b)[i] == b[i - |a|] && (a + b)[j] == b[j - |a|];
      } else {
        assert (a + b)[i] in a && (a + b)[j] in b;
      }
    }
  }

  /** A prefix holds no element more often than the whole sequence. */
  lemma PrefixMultiset<T>(s: seq<T>, k: nat)
    requires k <= |s|
    ensures multiset(s[..k]) <= multiset(s)
  {
    assert s == s[..k] + s[k..];
    assert multiset(s) == multiset(s[..k]) + multiset(s[k..]);
  }
}
