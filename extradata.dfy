/** Splitting the definition container's flat material extra-data array into
    one slice per material.

    Each material records the index (`extraDataIndex`) at which its slice of
    the shared array starts; a slice runs up to the next material's start,
    the last one to the end of the array. The split is a single pass over the
    array that opens a new slice whenever the element index reaches the next
    start; once every material has a slice, the next start becomes a large
    constant. */
module ExtraData {
  import opened Results

  /** The "next start" the split uses once every material has its slice. */
  const Sentinel: nat := 10000000

  datatype SplitState<T> = SplitState(slices: seq<seq<T>>, nextStart: nat)

  /** One iteration of the split loop, over element i of value x: open a slice
      if i has reached the next start, then append x to the last slice, which
      fails when there is none. */
  function SplitStep<T>(starts: seq<nat>, st: SplitState<T>, i: nat, x: T): Result<SplitState<T>>
  {
    var withSlice :=
      if i >= st.nextStart then
        var slices := st.slices + [[]];
        SplitState(slices, if |slices| < |starts| then starts[|slices|] else Sentinel)
      else st;
    if withSlice.slices == [] then Failure(IndexOutOfRange)
    else
      var last := |withSlice.slices| - 1;
      Success(SplitState(withSlice.slices[..last] + [withSlice.slices[last] + [x]], withSlice.nextStart))
  }

  /** The state of the split loop after the first i elements. */
  function SplitAfter<T>(starts: seq<nat>, extra: seq<T>, i: nat): Result<SplitState<T>>
    requires |starts| > 0 && i <= |extra|
  {
    if i == 0 then Success(SplitState([], starts[0]))
    else
      match SplitAfter(starts, extra, i - 1)
      case Failure(e) => Failure(e)
      case Success(st) => SplitStep(starts, st, i - 1, extra[i - 1])
  }

  /** The slices the split produces; reading the first material's start fails
      when there are no materials. */
  function Split<T>(starts: seq<nat>, extra: seq<T>): Result<seq<seq<T>>>
  {
    if |starts| == 0 then Failure(IndexOutOfRange)
    else
      match SplitAfter(starts, extra, |extra|)
      case Failure(e) => Failure(e)
      case Success(st) => Success(st.slices)
  }

  method SplitExtraData<T>(starts: seq<nat>, extra: seq<T>) returns (r: Result<seq<seq<T>>>)
    ensures r == Split(starts, extra)
  {
    if |starts| == 0 {
      return Failure(IndexOutOfRange);
    }
    var slices: seq<seq<T>> := [];
    var nextStart := starts[0];
    var i := 0;
    while i < |extra|
      invariant i <= |extra|
      invariant SplitAfter(starts, extra, i) == Success(SplitState(slices, nextStart))
    {
      if i >= nextStart {
        slices := slices + [[]];
        if |slices| < |starts| {
          nextStart := starts[|slices|];
        } else {
          nextStart := Sentinel;
        }
      }
      if slices == [] {
        SplitFailurePersists(starts, extra, i + 1, |extra|);
        return Failure(IndexOutOfRange);
      }
      slices := slices[..|slices| - 1] + [slices[|slices| - 1] + [extra[i]]];
      i := i + 1;
    }
    return Success(slices);
  }

  lemma {:induction false} SplitFailurePersists<T>(starts: seq<nat>, extra: seq<T>, i: nat, j: nat)
    requires |starts| > 0 && i <= j <= |extra|
    requires SplitAfter(starts, extra, i).Failure?
    ensures SplitAfter(starts, extra, j) == SplitAfter(starts, extra, i)
    decreases j - i
  {
    if j > i {
      SplitFailurePersists(starts, extra, i, j - 1);
    }
  }

  /** A nonempty array whose first material starts past index 0 cannot be
      split: element 0 has no slice to go into. */
  lemma FirstStartPositiveFails<T>(starts: seq<nat>, extra: seq<T>)
    requires |starts| > 0 && starts[0] > 0 && |extra| > 0
    ensures Split(starts, extra) == Failure(IndexOutOfRange)
  {
    assert SplitAfter(starts, extra, 1) == Failure(IndexOutOfRange);
    SplitFailurePersists(starts, extra, 1, |extra|);
  }

  ghost predicate AtMostOnePerStart<T>(starts: seq<nat>, st: SplitState<T>)
  {
    && |st.slices| <= |starts|
    && (|st.slices| < |starts| ==> st.nextStart == starts[|st.slices|])
    && (|st.slices| == |starts| ==> st.nextStart == Sentinel)
  }

  lemma {:induction false} SplitAfterAtMostOne<T>(starts: seq<nat>, extra: seq<T>, i: nat)
    requires |starts| > 0 && i <= |extra| <= Sentinel
    requires SplitAfter(starts, extra, i).Success?
    ensures AtMostOnePerStart(starts, SplitAfter(starts, extra, i).value)
  {
    if i > 0 {
      SplitAfterAtMostOne(starts, extra, i - 1);
    }
  }

  /** At most one slice per material, whatever the starts, as long as the
      array is not longer than the sentinel. */
  lemma AtMostOneSlicePerMaterial<T>(starts: seq<nat>, extra: seq<T>)
    requires |extra| <= Sentinel && Split(starts, extra).Success?
    ensures |Split(starts, extra).value| <= |starts|
  {
    SplitAfterAtMostOne(starts, extra, |extra|);
  }

  // ---- The reference definition: slices between consecutive starts ----

  predicate StrictlyIncreasing(s: seq<nat>)
  {
    forall i, j :: 0 <= i < j < |s| ==> s[i] < s[j]
  }

  /** The layout the format intends: material 0 starts at 0 and starts increase. */
  predicate OrderedStarts(starts: seq<nat>)
  {
    |starts| > 0 && starts[0] == 0 && StrictlyIncreasing(starts)
  }

  /** The number of leading starts below L. */
  function CountBelow(starts: seq<nat>, L: nat): (n: nat)
    ensures n <= |starts|
    ensures forall k :: 0 <= k < n ==> starts[k] < L
    ensures n < |starts| ==> starts[n] >= L
  {
    if starts == [] || starts[0] >= L then 0 else 1 + CountBelow(starts[1..], L)
  }

  /** Of increasing starts exactly the first CountBelow lie below L. */
  lemma CountBelowExact(starts: seq<nat>, L: nat, k: nat)
    requires StrictlyIncreasing(starts) && k < |starts|
    ensures k < CountBelow(starts, L) <==> starts[k] < L
  {
    var n := CountBelow(starts, L);
    if k >= n {
      assert n < |starts|;
      assert starts[n] <= starts[k];
    }
  }

  function SliceEnd(starts: seq<nat>, n: nat, k: nat, L: nat): nat
    requires k + 1 <= n <= |starts|
  {
    if k + 1 < n then starts[k + 1] else L
  }

  /** Slice k of the intended layout: from start k to start k+1, the last
      one to the end of the array; materials starting past the end get none. */
  function Slices<T>(starts: seq<nat>, extra: seq<T>): (r: seq<seq<T>>)
    requires OrderedStarts(starts)
    ensures |r| == CountBelow(starts, |extra|)
  {
    var n := CountBelow(starts, |extra|);
    seq(n, k requires 0 <= k < n => extra[starts[k]..SliceEnd(starts, n, k, |extra|)])
  }

  /** The loop's invariant against the reference layout, after i elements. */
  ghost predicate SplitInvariant<T>(starts: seq<nat>, extra: seq<T>, i: nat, st: SplitState<T>)
    requires OrderedStarts(starts) && i <= |extra|
  {
    && |st.slices| == CountBelow(starts, i)
    && (forall k :: 0 <= k && k + 1 < |st.slices| ==> st.slices[k] == extra[starts[k]..starts[k + 1]])
    && (|st.slices| > 0 ==> st.slices[|st.slices| - 1] == extra[starts[|st.slices| - 1]..i])
    && st.nextStart == (if |st.slices| < |starts| then starts[|st.slices|] else Sentinel)
  }

  /** Just past start c, exactly c + 1 starts lie below. */
  lemma CountAtStart(starts: seq<nat>, c: nat, i: nat)
    requires StrictlyIncreasing(starts) && c < |starts| && starts[c] + 1 == i
    ensures CountBelow(starts, i) == c + 1
  {
    CountBelowExact(starts, i, c);
    if c + 1 < |starts| {
      CountBelowExact(starts, i, c + 1);
    }
  }

  /** The step that reaches the next start opens a slice holding the element. */
  lemma OpenStep<T>(starts: seq<nat>, extra: seq<T>, i: nat, st: SplitState<T>)
    requires OrderedStarts(starts) && 0 < i <= |extra| <= Sentinel
    requires SplitInvariant(starts, extra, i - 1, st) && i - 1 >= st.nextStart
    ensures SplitStep(starts, st, i - 1, extra[i - 1]).Success?
    ensures SplitInvariant(starts, extra, i, SplitStep(starts, st, i - 1, extra[i - 1]).value)
  {
    var c := |st.slices|;
    assert c < |starts| && starts[c] == i - 1;
    CountAtStart(starts, c, i);
    var x := extra[i - 1];
    var grown := st.slices + [[]];
    assert grown[..c] == st.slices && grown[c] == [];
    assert [] + [x] == [x];
    var next := SplitStep(starts, st, i - 1, x).value;
    assert next.slices == st.slices + [[x]];
    assert extra[starts[c]..i] == [x];
  }

  /** Any other step appends the element to the last slice. */
  lemma ExtendStep<T>(starts: seq<nat>, extra: seq<T>, i: nat, st: SplitState<T>)
    requires OrderedStarts(starts) && 0 < i <= |extra| <= Sentinel
    requires SplitInvariant(starts, extra, i - 1, st) && i - 1 < st.nextStart
    ensures SplitStep(starts, st, i - 1, extra[i - 1]).Success?
    ensures SplitInvariant(starts, extra, i, SplitStep(starts, st, i - 1, extra[i - 1]).value)
  {
    var c := |st.slices|;
    assert c > 0;
    CountBelowExact(starts, i, c - 1);
    if c < |starts| {
      CountBelowExact(starts, i, c);
    }
    assert CountBelow(starts, i) == c;
    var x := extra[i - 1];
    var next := SplitStep(starts, st, i - 1, x).value;
    assert next.slices == st.slices[..c - 1] + [st.slices[c - 1] + [x]];
    assert extra[starts[c - 1]..i] == extra[starts[c - 1]..i - 1] + [x];
  }

  lemma {:induction false} SplitAfterFollowsStarts<T>(starts: seq<nat>, extra: seq<T>, i: nat)
    requires OrderedStarts(starts) && i <= |extra| <= Sentinel
    ensures SplitAfter(starts, extra, i).Success?
    ensures SplitInvariant(starts, extra, i, SplitAfter(starts, extra, i).value)
  {
    if i > 0 {
      SplitAfterFollowsStarts(starts, extra, i - 1);
      var st := SplitAfter(starts, extra, i - 1).value;
      if i - 1 >= st.nextStart {
        OpenStep(starts, extra, i, st);
      } else {
        ExtendStep(starts, extra, i, st);
      }
    }
  }

  /** For ordered starts the split produces exactly the reference slices. */
  lemma SplitMatchesSlices<T>(starts: seq<nat>, extra: seq<T>)
    requires OrderedStarts(starts) && |extra| <= Sentinel
    ensures Split(starts, extra) == Success(Slices(starts, extra))
  {
    SplitAfterFollowsStarts(starts, extra, |extra|);
    var st := SplitAfter(starts, extra, |extra|).value;
    var n := CountBelow(starts, |extra|);
    forall k | 0 <= k < n
      ensures st.slices[k] == Slices(starts, extra)[k]
    {
    }
    assert st.slices == Slices(starts, extra);
  }

  function Flatten<T>(ss: seq<seq<T>>): seq<T>
  {
    if ss == [] then [] else Flatten(ss[..|ss| - 1]) + ss[|ss| - 1]
  }

  /** Bounds that stay within s and never decrease. */
  predicate Bounds(s_len: nat, b: seq<nat>)
  {
    && (forall i :: 0 <= i < |b| ==> b[i] <= s_len)
    && (forall i :: 0 < i < |b| ==> b[i - 1] <= b[i])
  }

  /** The pieces of s between consecutive bounds. */
  function Pieces<T>(s: seq<T>, b: seq<nat>): (r: seq<seq<T>>)
    requires Bounds(|s|, b)
    decreases |b|
  {
    if |b| <= 1 then [] else Pieces(s, b[..|b| - 1]) + [s[b[|b| - 2]..b[|b| - 1]]]
  }

  /** Piece k runs from bound k to bound k + 1. */
  lemma {:induction false} PiecesAt<T>(s: seq<T>, b: seq<nat>)
    requires Bounds(|s|, b) && |b| >= 1
    ensures |Pieces(s, b)| == |b| - 1
    ensures forall k :: 0 <= k < |b| - 1 ==> Pieces(s, b)[k] == s[b[k]..b[k + 1]]
  {
    if |b| > 1 {
      PiecesAt(s, b[..|b| - 1]);
    }
  }

  /** Concatenating the pieces gives the span from the first bound to the
      last. */
  lemma {:induction false} FlattenContiguous<T>(s: seq<T>, b: seq<nat>)
    requires Bounds(|s|, b) && |b| >= 1
    ensures b[0] <= b[|b| - 1]
    ensures Flatten(Pieces(s, b)) == s[b[0]..b[|b| - 1]]
  {
    var n := |b| - 1;
    if n > 0 {
      var b' := b[..n];
      FlattenContiguous(s, b');
      var ps := Pieces(s, b);
      assert ps[..|ps| - 1] == Pieces(s, b');
      assert s[b[0]..b[n]] == s[b[0]..b[n - 1]] + s[b[n - 1]..b[n]];
    }
  }

  /** Concatenating the reference slices in material order reproduces the
      flat array. */
  lemma SlicesConcatenate<T>(starts: seq<nat>, extra: seq<T>)
    requires OrderedStarts(starts)
    ensures Flatten(Slices(starts, extra)) == extra
  {
    var n := CountBelow(starts, |extra|);
    if n == 0 {
      assert extra == [];
    } else {
      var b := starts[..n] + [|extra|];
      assert Bounds(|extra|, b);
      PiecesAt(extra, b);
      FlattenContiguous(extra, b);
      assert Slices(starts, extra) == Pieces(extra, b);
    }
  }
}
