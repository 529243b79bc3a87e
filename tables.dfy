/** Tables of records read one index at a time, the shape every offset table
    of the containers has: entry j is decoded by `f(j)`, entries are read in
    index order, and the first entry that cannot be decoded aborts the whole
    table with its error. */
module Tables {
  import opened Results

  function Table<T>(n: nat, f: nat -> Result<T>): Result<seq<T>>
  {
    if n == 0 then Success([])
    else
      var init :- Table(n - 1, f);
      var last :- f(n - 1);
      Success(init + [last])
  }

  /** A table that decodes holds exactly the decoded entries, in index order. */
  lemma {:induction false} TableEntries<T>(n: nat, f: nat -> Result<T>)
    requires Table(n, f).Success?
    ensures |Table(n, f).value| == n
    ensures forall j :: 0 <= j < n ==> f(j) == Success(Table(n, f).value[j])
  {
    if n > 0 {
      TableEntries(n - 1, f);
    }
  }

  /** Entry j of a decoded table, on its own. */
  lemma TableEntry<T>(n: nat, f: nat -> Result<T>, j: nat)
    requires Table(n, f).Success? && j < n
    ensures |Table(n, f).value| == n
    ensures f(j) == Success(Table(n, f).value[j])
  {
    TableEntries(n, f);
  }

  /** A table decodes exactly when every entry decodes. */
  lemma {:induction false} TableSucceeds<T>(n: nat, f: nat -> Result<T>)
    ensures Table(n, f).Success? <==> forall j :: 0 <= j < n ==> f(j).Success?
  {
    if n > 0 {
      TableSucceeds(n - 1, f);
    }
  }

  /** The table fails with the error of its first failing entry. */
  lemma {:induction false} TableFirstFailure<T>(n: nat, f: nat -> Result<T>, i: nat)
    requires i < n && Table(i, f).Success? && f(i).Failure?
    ensures Table(n, f) == Failure(f(i).error)
  {
    if n > i + 1 {
      TableFirstFailure(n - 1, f, i);
    }
  }

  /** One more entry read: the step a table-reading loop takes. */
  lemma TableStep<T>(i: nat, f: nat -> Result<T>, acc: seq<T>, x: T)
    requires Table(i, f) == Success(acc) && f(i) == Success(x)
    ensures Table(i + 1, f) == Success(acc + [x])
  {
  }

  /** Where record j of a table of records of `size` bytes from `base` starts. */
  function RecordOffset(base: nat, size: nat, j: nat): nat
  {
    if j == 0 then base else RecordOffset(base, size, j - 1) + size
  }

  lemma {:induction false} RecordOffsetIs(base: nat, size: nat, j: nat)
    ensures RecordOffset(base, size, j) == base + size * j
  {
    if j > 0 {
      RecordOffsetIs(base, size, j - 1);
    }
  }

  /** The state after the first k items of hs, each applied by `step` in
      order; the first step that fails aborts with its error. */
  function Fold<S, H>(step: (S, H) -> Result<S>, s0: S, hs: seq<H>, k: nat): Result<S>
    requires k <= |hs|
  {
    if k == 0 then Success(s0)
    else match Fold(step, s0, hs, k - 1)
      case Failure(e) => Failure(e)
      case Success(s) => step(s, hs[k - 1])
  }

  /** One more item: the step a folding loop takes. */
  lemma FoldStep<S, H>(step: (S, H) -> Result<S>, s0: S, hs: seq<H>, i: nat, s: S)
    requires i < |hs| && Fold(step, s0, hs, i) == Success(s)
    ensures Fold(step, s0, hs, i + 1) == step(s, hs[i])
  {
  }

  /** A failure after i items is the failure of every longer fold. */
  lemma {:induction false} FoldFailure<S, H>(step: (S, H) -> Result<S>, s0: S, hs: seq<H>, i: nat, n: nat)
    requires i <= n <= |hs| && Fold(step, s0, hs, i).Failure?
    ensures Fold(step, s0, hs, n) == Fold(step, s0, hs, i)
    decreases n
  {
    if n > i {
      FoldFailure(step, s0, hs, i, n - 1);
    }
  }

  /** A fold that succeeds succeeded on every prefix. */
  lemma FoldPrefix<S, H>(step: (S, H) -> Result<S>, s0: S, hs: seq<H>, i: nat, n: nat)
    requires i <= n <= |hs| && Fold(step, s0, hs, n).Success?
    ensures Fold(step, s0, hs, i).Success?
  {
    if Fold(step, s0, hs, i).Failure? {
      FoldFailure(step, s0, hs, i, n);
    }
  }

  /** When whether a step succeeds depends only on its item, a fold
      succeeds exactly when every item is one that can be applied. */
  lemma {:induction false} FoldSucceeds<S, H>(step: (S, H) -> Result<S>, s0: S, hs: seq<H>, k: nat, ok: H -> bool)
    requires k <= |hs|
    requires forall s, h :: step(s, h).Success? <==> ok(h)
    ensures Fold(step, s0, hs, k).Success? <==> forall j :: 0 <= j < k ==> ok(hs[j])
  {
    if k > 0 {
      FoldSucceeds(step, s0, hs, k - 1, ok);
    }
  }

  /** A table that fails, fails with the error of one of its entries. */
  lemma {:induction false} TableFailureIs<T>(n: nat, f: nat -> Result<T>)
    requires Table(n, f).Failure?
    ensures exists j :: 0 <= j < n && f(j).Failure? && f(j).error == Table(n, f).error
  {
    if Table(n - 1, f).Failure? {
      TableFailureIs(n - 1, f);
    }
  }

  /** A property of the state that every applied item keeps holds after
      the whole fold. */
  lemma {:induction false} FoldInvariant<S, H>(step: (S, H) -> Result<S>, s0: S, hs: seq<H>, k: nat, inv: S -> bool)
    requires k <= |hs| && inv(s0)
    requires forall s, j :: 0 <= j < k && inv(s) && step(s, hs[j]).Success? ==> inv(step(s, hs[j]).value)
    ensures Fold(step, s0, hs, k).Success? ==> inv(Fold(step, s0, hs, k).value)
  {
    if k > 0 {
      FoldInvariant(step, s0, hs, k - 1, inv);
    }
  }

  /** The step of a loop that keeps the items some indices yield: an index
      yields nothing, one item, or an error that aborts the loop. */
  function Collect<T>(outcome: nat -> Result<Option<T>>): (seq<T>, nat) -> Result<seq<T>>
  {
    (found: seq<T>, i: nat) =>
      match outcome(i)
      case Failure(e) => Failure(e)
      case Success(None) => Success(found)
      case Success(Some(x)) => Success(found + [x])
  }

  /** The items collected from the first k of the indices 0, 1, ...: at most
      one per index, each one an index's outcome. */
  lemma {:induction false} CollectSpec<T>(outcome: nat -> Result<Option<T>>, indices: seq<nat>, k: nat)
    requires k <= |indices| && forall i :: 0 <= i < |indices| ==> indices[i] == i
    requires Fold(Collect(outcome), [], indices, k).Success?
    ensures var found := Fold(Collect(outcome), [], indices, k).value;
      && |found| <= k
      && forall j :: 0 <= j < |found| ==> exists i :: 0 <= i < k && outcome(i) == Success(Some(found[j]))
  {
    if k > 0 {
      FoldPrefix(Collect(outcome), [], indices, k - 1, k);
      CollectSpec(outcome, indices, k - 1);
      var prev := Fold(Collect(outcome), [], indices, k - 1).value;
      var found := Fold(Collect(outcome), [], indices, k).value;
      assert indices[k - 1] == k - 1;
      match outcome(k - 1)
      case Success(None) =>
        assert found == prev;
      case Success(Some(x)) =>
        assert found == prev + [x];
        forall j | 0 <= j < |found|
          ensures exists i :: 0 <= i < k && outcome(i) == Success(Some(found[j]))
        {
          if j == |prev| {
            assert outcome(k - 1) == Success(Some(found[j]));
          } else {
            assert found[j] == prev[j];
          }
        }
    }
  }
}
