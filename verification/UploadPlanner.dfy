/** The greedy, order-preserving batcher behind every upload plan. */
module UploadPlanner {
  import opened Sequences

  datatype File = File(path: string, size: nat)

  datatype Limits = Limits(items: nat, bytes: nat)

  function Bytes(files: seq<File>): nat {
    if files == [] then 0 else files[0].size + Bytes(files[1..])
  }

  /** What one session may hold: a single file of any size, or several files within both limits. */
  predicate Admissible(batch: seq<File>, limits: Limits) {
    |batch| == 1 || (1 < |batch| <= limits.items && Bytes(batch) <= limits.bytes)
  }

  /** The longest admissible prefix. */
  function FirstLength(files: seq<File>, limits: Limits): (n: nat)
    requires files != []
    ensures 1 <= n <= |files| && Admissible(files[..n], limits)
    ensures forall m :: n < m <= |files| ==> !Admissible(files[..m], limits)
  {
    LongestPrefix(files, limits, |files|)
  }

  function LongestPrefix(files: seq<File>, limits: Limits, bound: nat): (n: nat)
    requires 1 <= bound <= |files|
    ensures 1 <= n <= bound && Admissible(files[..n], limits)
    ensures forall m :: n < m <= bound ==> !Admissible(files[..m], limits)
  {
    if Admissible(files[..bound], limits) then bound else LongestPrefix(files, limits, bound - 1)
  }

  function Plan(files: seq<File>, limits: Limits): (batches: seq<seq<File>>) {
    if files == [] then []
    else
      var n := FirstLength(files, limits);
      [files[..n]] + Plan(files[n..], limits)
  }

  /** A way to cut `files`, in order, into sessions the server could take. */
  ghost predicate Split(batches: seq<seq<File>>, files: seq<File>, limits: Limits) {
    && Flatten(batches) == files
    && forall i :: 0 <= i < |batches| ==> Admissible(batches[i], limits)
  }

  // ---- sums and blocks --------------------------------------------------------------------

  lemma {:induction false} BytesAppend(left: seq<File>, right: seq<File>)
    ensures Bytes(left + right) == Bytes(left) + Bytes(right)
  {
    if left == [] {
      assert left + right == right;
    } else {
      BytesAppend(left[1..], right);
      assert (left + right)[1..] == left[1..] + right;
    }
  }

  /** Every non-empty block inside an admissible block is admissible. */
  lemma BlockAdmissible(files: seq<File>, limits: Limits, lo: nat, hi: nat)
    requires lo < hi <= |files| && Admissible(files, limits)
    ensures Admissible(files[lo..hi], limits)
  {
    assert files == files[..lo] + files[lo..hi] + files[hi..];
    BytesAppend(files[..lo] + files[lo..hi], files[hi..]);
    BytesAppend(files[..lo], files[lo..hi]);
  }

  /** A prefix is admissible exactly when it is non-empty and no longer than the greedy one. */
  lemma PrefixAdmissible(files: seq<File>, limits: Limits, m: nat)
    requires files != [] && m <= |files|
    ensures Admissible(files[..m], limits) <==> 1 <= m <= FirstLength(files, limits)
  {
    var n := FirstLength(files, limits);
    if 1 <= m <= n {
      BlockAdmissible(files[..n], limits, 0, m);
      assert files[..n][0..m] == files[..m];
    }
  }

  // ---- the loop ---------------------------------------------------------------------------

  /** The loop's state: the batches sent and the one in hand, with files i and up still to come. */
  ghost predicate Midway(files: seq<File>, i: nat, batches: seq<seq<File>>, batch: seq<File>, limits: Limits) {
    && i <= |files|
    && (batch == [] || Admissible(batch, limits))
    && Plan(files, limits) == batches + Plan(batch + files[i..], limits)
  }

  /** A full batch in hand is exactly one greedy batch. */
  lemma FullBatchComesFirst(batch: seq<File>, rest: seq<File>, limits: Limits)
    requires batch != [] && rest != [] && Admissible(batch, limits)
    requires |batch| >= limits.items || Bytes(batch) + rest[0].size > limits.bytes
    ensures Plan(batch + rest, limits) == [batch] + Plan(rest, limits)
  {
    var files := batch + rest;
    var m := |batch| + 1;
    assert files[..m] == batch + [rest[0]];
    BytesAppend(batch, [rest[0]]);
    assert Bytes([rest[0]]) == rest[0].size;
    PrefixAdmissible(files, limits, m);
    assert files[..|batch|] == batch;
    PrefixAdmissible(files, limits, |batch|);
    assert FirstLength(files, limits) == |batch|;
    assert files[|batch|..] == rest;
  }

  /** So the loop may emit it. */
  lemma Emit(files: seq<File>, i: nat, batches: seq<seq<File>>, batch: seq<File>, limits: Limits)
    requires Midway(files, i, batches, batch, limits) && batch != [] && i < |files|
    requires |batch| >= limits.items || Bytes(batch) + files[i].size > limits.bytes
    ensures Midway(files, i, batches + [batch], [], limits)
  {
    var rest := files[i..];
    FullBatchComesFirst(batch, rest, limits);
    hide Plan, Admissible, Bytes;
    assert [] + rest == rest;
    Reassociate(batches, [batch], Plan(rest, limits));
  }

  /** Taking one more file keeps the batch admissible when neither limit is passed. */
  lemma Take(files: seq<File>, i: nat, batches: seq<seq<File>>, batch: seq<File>, limits: Limits)
    requires Midway(files, i, batches, batch, limits) && i < |files|
    requires batch == [] || (|batch| < limits.items && Bytes(batch) + files[i].size <= limits.bytes)
    ensures Midway(files, i + 1, batches, batch + [files[i]], limits)
    ensures Bytes(batch + [files[i]]) == Bytes(batch) + files[i].size
  {
    BytesAppend(batch, [files[i]]);
    assert Bytes([files[i]]) == files[i].size;
    TakeNext(batch, files, i);
  }

  /** The last batch in hand is planned as it stands. */
  lemma Finish(files: seq<File>, batches: seq<seq<File>>, batch: seq<File>, limits: Limits)
    requires Midway(files, |files|, batches, batch, limits)
    ensures Plan(files, limits) == if batch == [] then batches else batches + [batch]
  {
    assert batch + files[|files|..] == batch;
    if batch == [] {
      assert batches + [] == batches;
    } else {
      assert batch[..|batch|] == batch;
      PrefixAdmissible(batch, limits, |batch|);
      assert FirstLength(batch, limits) == |batch| && batch[|batch|..] == [];
      assert Plan(batch, limits) == [batch] + [];
    }
  }

  /** The browser's loop: push each file, flushing first when either limit would be passed. */
  method BuildBatches(files: seq<File>, limits: Limits) returns (batches: seq<seq<File>>)
    ensures batches == Plan(files, limits)
  {
    batches := [];
    var batch: seq<File> := [];
    var bytes := 0;
    assert [] + files[0..] == files;
    assert Midway(files, 0, batches, batch, limits) && Bytes(batch) == 0;
    hide Midway, Plan, Bytes, Admissible;
    for i := 0 to |files|
      invariant bytes == Bytes(batch)
      invariant Midway(files, i, batches, batch, limits)
    {
      var file := files[i];
      if batch != [] && (|batch| >= limits.items || bytes + file.size > limits.bytes) {
        Emit(files, i, batches, batch, limits);
        batches := batches + [batch];
        batch := [];
        bytes := 0;
      }
      Take(files, i, batches, batch, limits);
      batch := batch + [file];
      bytes := bytes + file.size;
    }
    Finish(files, batches, batch, limits);
    if batch != [] {
      batches := batches + [batch];
    }
  }

  // ---- what the plan means ----------------------------------------------------------------

  lemma {:induction false} PlanSplits(files: seq<File>, limits: Limits)
    ensures Split(Plan(files, limits), files, limits)
    decreases |files|
  {
    if files != [] {
      var n := FirstLength(files, limits);
      PlanSplits(files[n..], limits);
      assert files == files[..n] + files[n..];
    }
  }

  /** When no file exceeds the session limit, no planned session does: the server never refuses one for its size. */
  lemma PlanWithinLimits(files: seq<File>, limits: Limits, k: nat)
    requires k < |Plan(files, limits)| && limits.items > 0
    requires forall i :: 0 <= i < |files| ==> files[i].size <= limits.bytes
    ensures 0 < |Plan(files, limits)[k]| <= limits.items && Bytes(Plan(files, limits)[k]) <= limits.bytes
  {
    PlanSplits(files, limits);
    var batch := Plan(files, limits)[k];
    if |batch| == 1 {
      BatchWithin(Plan(files, limits), files, k);
      assert batch[0] in files && batch[1..] == [];
    }
  }

  lemma {:induction false} BatchWithin(batches: seq<seq<File>>, files: seq<File>, k: nat)
    requires Flatten(batches) == files && k < |batches|
    ensures forall file :: file in batches[k] ==> file in files
  {
    if k > 0 {
      BatchWithin(batches[1..], Flatten(batches[1..]), k - 1);
    }
  }

  /** Without some of its files the first batch still ends no earlier. */
  lemma SuffixFirst(files: seq<File>, limits: Limits, k: nat)
    requires files != [] && k < FirstLength(files, limits)
    ensures FirstLength(files[k..], limits) >= FirstLength(files, limits) - k
  {
    var n := FirstLength(files, limits);
    BlockAdmissible(files[..n], limits, k, n);
    assert files[..n][k..n] == files[k..][..n - k];
    PrefixAdmissible(files[k..], limits, n - k);
  }

  /** Planning fewer leading files never needs more batches. */
  lemma {:induction false} SuffixNoLonger(files: seq<File>, limits: Limits, k: nat)
    requires k <= |files|
    ensures |Plan(files[k..], limits)| <= |Plan(files, limits)|
    decreases |files|
  {
    if k < |files| {
      var n := FirstLength(files, limits);
      if k < n {
        var tail := files[k..];
        SuffixFirst(files, limits, k);
        hide FirstLength, Admissible, Bytes;
        var m := FirstLength(tail, limits);
        assert tail[m..] == files[n..][m - (n - k)..];
        SuffixNoLonger(files[n..], limits, m - (n - k));
      } else {
        assert files[k..] == files[n..][k - n..];
        SuffixNoLonger(files[n..], limits, k - n);
      }
    }
  }

  /** No order-preserving split into admissible sessions uses fewer of them than the plan. */
  lemma {:induction false} PlanIsMinimal(batches: seq<seq<File>>, files: seq<File>, limits: Limits)
    requires Split(batches, files, limits)
    ensures |Plan(files, limits)| <= |batches|
    decreases |batches|
  {
    if batches != [] {
      var head := batches[0];
      var rest := Flatten(batches[1..]);
      assert files[..|head|] == head && files[|head|..] == rest;
      PlanIsMinimal(batches[1..], rest, limits);
      PrefixAdmissible(files, limits, |head|);
      var n := FirstLength(files, limits);
      assert files[n..] == rest[n - |head|..];
      SuffixNoLonger(rest, limits, n - |head|);
    }
  }

  /** No batch could also have taken the file that follows it. */
  predicate Packed(batches: seq<seq<File>>, limits: Limits)
    requires forall i :: 0 <= i < |batches| ==> batches[i] != []
  {
    |batches| < 2 || (!Admissible(batches[0] + batches[1][..1], limits) && Packed(batches[1..], limits))
  }

  /** Among all admissible splits the plan is exactly the packed one. */
  lemma {:induction false} PlanIsPackedSplit(batches: seq<seq<File>>, files: seq<File>, limits: Limits)
    requires Split(batches, files, limits)
    ensures batches == Plan(files, limits) <==> Packed(batches, limits)
    decreases |batches|
  {
    if batches != [] {
      var head, tail := batches[0], batches[1..];
      var rest := Flatten(tail);
      assert files[..|head|] == head && files[|head|..] == rest;
      PlanIsPackedSplit(tail, rest, limits);
      PrefixAdmissible(files, limits, |head|);
      if tail != [] {
        assert files[..|head| + 1] == head + tail[0][..1];
        PrefixAdmissible(files, limits, |head| + 1);
      }
      assert batches == [head] + tail;
    }
  }

  /** Restart stability: planning what is left after k batches gives the remaining batches. */
  lemma {:induction false} PlanRestarts(files: seq<File>, limits: Limits, k: nat)
    requires k <= |Plan(files, limits)|
    ensures Plan(Flatten(Plan(files, limits)[k..]), limits) == Plan(files, limits)[k..]
    decreases k
  {
    PlanSplits(files, limits);
    var plan := Plan(files, limits);
    if k == 0 {
      assert plan[0..] == plan;
    } else {
      var n := FirstLength(files, limits);
      PlanRestarts(files[n..], limits, k - 1);
      assert plan[k..] == Plan(files[n..], limits)[k - 1..];
    }
  }

  /** Every batch but the last is the same, and the last only grew. */
  predicate Extends(after: seq<seq<File>>, before: seq<seq<File>>) {
    var last := |before| - 1;
    |after| >= |before| > 0 && after[..last] == before[..last] && before[last] <= after[last]
  }

  lemma ExtendsUnder(first: seq<File>, after: seq<seq<File>>, before: seq<seq<File>>)
    requires Extends(after, before)
    ensures Extends([first] + after, [first] + before)
  {
  }

  /** A first batch that is already full of these files is also the first of any longer list. */
  lemma SameFirst(files: seq<File>, more: seq<File>, limits: Limits)
    requires files != []
    ensures var n := FirstLength(files, limits);
            n <= FirstLength(files + more, limits) && (n < |files| ==> n == FirstLength(files + more, limits))
  {
    var n, all := FirstLength(files, limits), files + more;
    assert all[..n] == files[..n];
    PrefixAdmissible(all, limits, n);
    if n < |files| {
      assert all[..n + 1] == files[..n + 1];
      PrefixAdmissible(all, limits, n + 1);
    }
  }

  /** Appending files leaves every batch but the last alone, and the last only grows. */
  lemma {:induction false} PlanExtends(files: seq<File>, more: seq<File>, limits: Limits)
    requires files != []
    ensures Extends(Plan(files + more, limits), Plan(files, limits))
    decreases |files|
  {
    var n, all := FirstLength(files, limits), files + more;
    SameFirst(files, more, limits);
    if n < |files| {
      assert all[..n] == files[..n] && all[n..] == files[n..] + more;
      PlanExtends(files[n..], more, limits);
      hide Extends;
      ExtendsUnder(files[..n], Plan(all[n..], limits), Plan(files[n..], limits));
    } else {
      var m := FirstLength(all, limits);
      assert files[n..] == [];
      assert files <= all[..m];
      assert Plan(files, limits) == [files[..n]] + [] && files[..n] == files;
    }
  }
}
