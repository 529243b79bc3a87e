/** The Python list operations the payload import relies on, with their
    error cases: indexing (a negative index counts from the end),
    `list.remove` (first occurrence; a missing value is an error), the
    clamping slice `s[k:]`, and `range(n)`. */
module Lists {
  import opened Results

  /** The position Python's `s[i]` denotes in a list of length n, if any. */
  function PyIndex(n: nat, i: int): (r: Option<nat>)
    ensures r.Some? <==> -(n as int) <= i < n
    ensures r.Some? ==> r.value < n && (r.value == i || r.value == n + i)
  {
    if 0 <= i < n then Some(i)
    else if -(n as int) <= i < 0 then Some((n as int + i) as nat)
    else None
  }

  /** `s[i]`; an index outside the list is an IndexError. */
  function Lookup<T>(s: seq<T>, i: int): Result<T>
  {
    match PyIndex(|s|, i)
    case None => Failure(IndexOutOfRange)
    case Some(k) => Success(s[k])
  }

  lemma LookupNatural<T>(s: seq<T>, i: nat)
    ensures i < |s| ==> Lookup(s, i) == Success(s[i])
    ensures i >= |s| ==> Lookup(s, i) == Failure(IndexOutOfRange)
  {
  }

  lemma LookupNegative<T>(s: seq<T>, i: int)
    requires -(|s| as int) <= i < 0
    ensures Lookup(s, i) == Success(s[|s| + i])
  {
  }

  /** `range(n)` as a list. */
  function Range(n: nat): (r: seq<nat>)
    ensures |r| == n && forall k :: 0 <= k < n ==> r[k] == k
  {
    seq(n, k requires 0 <= k < n => k)
  }

  /** `s[k:]`: the list without its first k elements, empty when k is past its end. */
  function DropFront<T>(s: seq<T>, k: nat): (r: seq<T>)
    ensures k <= |s| ==> r == s[k..]
    ensures k >= |s| ==> r == []
  {
    if k <= |s| then s[k..] else []
  }

  /** `s.remove(x)`: the first occurrence of x taken out. */
  function Remove<T(==)>(s: seq<T>, x: T): (r: Result<seq<T>>)
    ensures r.Failure? ==> r.error == NotInList
  {
    if s == [] then Failure(NotInList)
    else if s[0] == x then Success(s[1..])
    else match Remove(s[1..], x)
      case Failure(e) => Failure(e)
      case Success(t) => Success([s[0]] + t)
  }

  predicate Distinct<T(==)>(s: seq<T>)
  {
    forall i, j :: 0 <= i < j < |s| ==> s[i] != s[j]
  }

  /** Removal fails exactly when the value is absent; otherwise one element
      fewer remains, and in a list without duplicates the rest are exactly
      the other values, still without duplicates. */
  lemma {:induction false} RemoveSpec<T>(s: seq<T>, x: T)
    ensures Remove(s, x).Success? <==> x in s
    ensures Remove(s, x).Success? ==> |Remove(s, x).value| == |s| - 1
    ensures Remove(s, x).Success? && Distinct(s) ==>
      Distinct(Remove(s, x).value) && forall y :: y in Remove(s, x).value <==> y in s && y != x
  {
    if s != [] {
      assert s == [s[0]] + s[1..];
      if s[0] == x {
        assert x !in s[1..] || !Distinct(s);
      } else {
        RemoveSpec(s[1..], x);
        if Remove(s, x).Success? && Distinct(s) {
          var t := Remove(s[1..], x).value;
          assert s[0] !in s[1..];
          assert forall y :: y in [s[0]] + t <==> y == s[0] || y in t;
        }
      }
    }
  }

  /** `if x in s: s.remove(x)`: the guarded removal that never fails. */
  function RemoveIfPresent<T(==)>(s: seq<T>, x: T): seq<T>
  {
    match Remove(s, x)
    case Success(t) => t
    case Failure(_) => s
  }

  lemma RangeDistinct(n: nat)
    ensures Distinct(Range(n)) && forall k: nat :: k in Range(n) <==> k < n
  {
    var r := Range(n);
    forall k: nat
      ensures k in r <==> k < n
    {
      if k < n {
        assert r[k] == k;
      }
    }
  }
}
