/**
  Reviewing a selection before upload: bounded requests to the server, one row per selected file,
  then one ordered pass in the browser that admits files against the matter's capacity.
  A duplicate token is the file's canonical, case-folded path; the hash that hides it is left out.
 */
module SelectionReview {
  import opened Sequences
  import opened UploadPlanner
  import opened Wrappers

  datatype State = Valid | NeedsAttention | Unsupported | DuplicateCandidate | OverLimit | Failed

  /** A selected file, as far as the server's metadata checks tell files apart. */
  datatype Selected =
    | Unreadable(size: Option<int>)
    | ForeignType(size: Option<int>)
    | Named(path: string, size: Option<int>, limit: nat, scanned: bool)

  /** Whether a security scan is required and, if so, whether the scanner was ready. */
  datatype Scan = NotRequired | Required(ready: bool) | Unrecognised

  datatype Row = Row(state: State, eligible: bool, size: Option<int>, token: Option<string>, scan: Scan)

  // ---- the server's evaluation of one request -------------------------------------------------

  function EvaluateRow(file: Selected, seen: set<string>, ready: bool): Row {
    match file
    case Unreadable(size) => Row(Failed, false, size, None, NotRequired)
    case ForeignType(size) => Row(Unsupported, false, size, None, NotRequired)
    case Named(path, size, limit, scanned) =>
      var scan := if scanned then Required(ready) else NotRequired;
      if size.None? || size.value <= 0 then Row(Failed, false, size, None, scan)
      else if size.value > limit then Row(OverLimit, false, size, Some(path), scan)
      else if scanned && !ready then Row(NeedsAttention, false, size, Some(path), scan)
      else if path in seen then Row(DuplicateCandidate, false, size, Some(path), scan)
      else Row(Valid, true, size, Some(path), scan)
  }

  function Evaluate(files: seq<Selected>, seen: set<string>, ready: bool): (rows: seq<Row>)
    ensures |rows| == |files|
  {
    if files == [] then []
    else
      var row := EvaluateRow(files[0], seen, ready);
      [row] + Evaluate(files[1..], if row.state == Valid then seen + {files[0].path} else seen, ready)
  }

  method EvaluateRequest(files: seq<Selected>, ready: bool) returns (rows: seq<Row>)
    ensures rows == Evaluate(files, {}, ready)
  {
    rows := [];
    var seen: set<string> := {};
    for i := 0 to |files|
      invariant Evaluate(files, {}, ready) == rows + Evaluate(files[i..], seen, ready)
    {
      var row := EvaluateRow(files[i], seen, ready);
      rows := rows + [row];
      if row.state == Valid {
        seen := seen + {files[i].path};
      }
    }
  }

  /** Nothing about the file itself stands in the way of its upload. */
  predicate Clean(file: Selected, ready: bool) {
    file.Named? && file.size.Some? && 0 < file.size.value <= file.limit && (file.scanned ==> ready)
  }

  ghost predicate ValidBefore(files: seq<Selected>, rows: seq<Row>, i: nat, path: string) {
    exists j: nat :: j < i && j < |files| && j < |rows| && rows[j].state == Valid && files[j].Named? && files[j].path == path
  }

  /** A file is valid exactly when it is clean and no earlier valid file of the request has its path. */
  lemma EvaluatedExactly(files: seq<Selected>, ready: bool, i: nat)
    requires i < |files|
    ensures var rows := Evaluate(files, {}, ready);
            && (rows[i].state == Valid <==> Clean(files[i], ready) && !ValidBefore(files, rows, i, files[i].path))
            && (rows[i].state == DuplicateCandidate <==> Clean(files[i], ready) && ValidBefore(files, rows, i, files[i].path))
            && (rows[i].eligible <==> rows[i].state == Valid)
  {
    EvaluatedAfter(files, {}, ready, i);
  }

  lemma {:induction false} EvaluatedAgainst(files: seq<Selected>, seen: set<string>, ready: bool, i: nat)
    requires i < |files|
    ensures exists before: set<string> :: Evaluate(files, seen, ready)[i] == EvaluateRow(files[i], before, ready)
  {
    var row := EvaluateRow(files[0], seen, ready);
    if i == 0 {
      assert Evaluate(files, seen, ready)[0] == EvaluateRow(files[0], seen, ready);
    } else {
      var now := if row.state == Valid then seen + {files[0].path} else seen;
      EvaluatedAgainst(files[1..], now, ready, i - 1);
      var before: set<string> :| Evaluate(files[1..], now, ready)[i - 1] == EvaluateRow(files[1..][i - 1], before, ready);
      assert Evaluate(files, seen, ready)[i] == EvaluateRow(files[i], before, ready);
    }
  }

  predicate HasBytes(file: Selected) { file.size.Some? && file.size.value > 0 }

  /**
    Every other verdict depends on the file alone, and in this order: an unreadable entry, a foreign
    type, no bytes, too many bytes, no scanner. A row repeats its file's size, and its path unless
    the entry failed or is foreign.
   */
  lemma VerdictsExactly(files: seq<Selected>, ready: bool, i: nat)
    requires i < |files|
    ensures var file, row := files[i], Evaluate(files, {}, ready)[i];
            && (row.state == Failed <==> file.Unreadable? || (file.Named? && !HasBytes(file)))
            && (row.state == Unsupported <==> file.ForeignType?)
            && (row.state == OverLimit <==> file.Named? && HasBytes(file) && file.size.value > file.limit)
            && (row.state == NeedsAttention <==>
                 file.Named? && HasBytes(file) && file.size.value <= file.limit && file.scanned && !ready)
            && row.size == file.size
            && row.token == (if file.Named? && HasBytes(file) then Some(file.path) else None)
            && row.scan == (if file.Named? && file.scanned then Required(ready) else NotRequired)
  {
    EvaluatedAgainst(files, {}, ready, i);
  }

  lemma {:induction false} EvaluatedAfter(files: seq<Selected>, seen: set<string>, ready: bool, i: nat)
    requires i < |files|
    ensures var rows := Evaluate(files, seen, ready);
            && (rows[i].state == Valid <==>
                 Clean(files[i], ready) && files[i].path !in seen && !ValidBefore(files, rows, i, files[i].path))
            && (rows[i].state == DuplicateCandidate <==>
                 Clean(files[i], ready) && (files[i].path in seen || ValidBefore(files, rows, i, files[i].path)))
            && (rows[i].eligible <==> rows[i].state == Valid)
  {
    if i > 0 {
      var row, rows := EvaluateRow(files[0], seen, ready), Evaluate(files, seen, ready);
      var now := if row.state == Valid then seen + {files[0].path} else seen;
      EvaluatedAfter(files[1..], now, ready, i - 1);
      if files[i].Named? {
        ValidBeforeFrom(files, rows, i, files[i].path);
      }
    }
  }

  lemma ValidBeforeFrom(files: seq<Selected>, rows: seq<Row>, i: nat, path: string)
    requires 0 < i < |files| == |rows|
    ensures ValidBefore(files, rows, i, path)
       <==> ((rows[0].state == Valid && files[0].Named? && files[0].path == path) || ValidBefore(files[1..], rows[1..], i - 1, path))
  {
    if ValidBefore(files[1..], rows[1..], i - 1, path) {
      var j: nat :| j < i - 1 && rows[1..][j].state == Valid && files[1..][j].Named? && files[1..][j].path == path;
      assert rows[j + 1].state == Valid && files[j + 1].path == path;
    }
    if ValidBefore(files, rows, i, path) {
      var j: nat :| j < i && rows[j].state == Valid && files[j].Named? && files[j].path == path;
      assert j > 0 ==> rows[1..][j - 1].state == Valid && files[1..][j - 1].path == path;
    }
  }

  // ---- one scanner snapshot for the whole selection -------------------------------------------

  /** A row the browser accepts; any other makes it abandon the review. */
  predicate Coherent(row: Row) {
    && (row.state == Valid <==> row.eligible)
    && match row.scan
       case Required(ready) => (row.state == Valid ==> ready) && (row.state == NeedsAttention ==> !ready)
       case NotRequired => row.state != NeedsAttention
       case Unrecognised => false
  }

  /** The first scanner readiness that any row reports. */
  function Snapshot(rows: seq<Row>): Option<bool> {
    if rows == [] then None
    else if rows[0].scan.Required? then Some(rows[0].scan.ready)
    else Snapshot(rows[1..])
  }

  /** Undo a request's own duplicate verdict and read every scanned row at the snapshot. */
  function Settle(row: Row, ready: bool): Row {
    if !row.scan.Required? then
      if row.state == DuplicateCandidate then row.(state := Valid, eligible := true) else row
    else
      var seen := row.(scan := Required(ready));
      if row.state !in {Valid, NeedsAttention, DuplicateCandidate} then seen
      else if ready then seen.(state := Valid, eligible := true)
      else seen.(state := NeedsAttention, eligible := false)
  }

  function SettleAll(rows: seq<Row>, ready: bool): (settled: seq<Row>)
    ensures |settled| == |rows|
    ensures forall i :: 0 <= i < |rows| ==> settled[i] == Settle(rows[i], ready)
  {
    if rows == [] then [] else [Settle(rows[0], ready)] + SettleAll(rows[1..], ready)
  }

  /** The replies to a selection sent as several requests, in order. */
  function Replies(requests: seq<seq<Selected>>, readies: seq<bool>): seq<seq<Row>>
    requires |requests| == |readies|
  {
    if requests == [] then []
    else [Evaluate(requests[0], {}, readies[0])] + Replies(requests[1..], readies[1..])
  }

  /** The settled rows; with no scanned row at all, readiness plays no part. */
  function Consolidate(rows: seq<Row>): seq<Row> {
    SettleAll(rows, Snapshot(rows).Some? && Snapshot(rows).value)
  }

  /** A row judged as if its file were the whole selection. */
  function Alone(file: Selected, ready: bool): Row {
    EvaluateRow(file, {}, ready)
  }

  lemma {:induction false} EvaluatedRowsSettleAlone(files: seq<Selected>, seen: set<string>, ready: bool, snapshot: bool)
    ensures var rows := Evaluate(files, seen, ready);
            forall i :: 0 <= i < |files| ==>
              && Coherent(rows[i])
              && Settle(rows[i], snapshot) == Alone(files[i], snapshot)
  {
    if files != [] {
      var row := EvaluateRow(files[0], seen, ready);
      EvaluatedRowsSettleAlone(files[1..], if row.state == Valid then seen + {files[0].path} else seen, ready, snapshot);
    }
  }

  lemma {:induction false} RepliesSettleAlone(requests: seq<seq<Selected>>, readies: seq<bool>, snapshot: bool)
    requires |requests| == |readies|
    ensures var rows, files := Flatten(Replies(requests, readies)), Flatten(requests);
            && |rows| == |files|
            && (forall i :: 0 <= i < |files| ==> Coherent(rows[i]))
            && (forall i :: 0 <= i < |files| ==> Settle(rows[i], snapshot) == Alone(files[i], snapshot))
  {
    if requests != [] {
      RepliesSettleAlone(requests[1..], readies[1..], snapshot);
      EvaluatedRowsSettleAlone(requests[0], {}, readies[0], snapshot);
      assert Replies(requests, readies)[1..] == Replies(requests[1..], readies[1..]);
    }
  }

  lemma {:induction false} SnapshotExactly(rows: seq<Row>)
    ensures Snapshot(rows).None? <==> forall i :: 0 <= i < |rows| ==> !rows[i].scan.Required?
  {
    if rows != [] {
      SnapshotExactly(rows[1..]);
      assert forall i :: 0 < i < |rows| ==> rows[i] == rows[1..][i - 1];
      if forall i :: 0 <= i < |rows| ==> !rows[i].scan.Required? {
        assert !rows[0].scan.Required?;
      }
    }
  }

  /** The snapshot is what the first scanned row of the selection reports. */
  lemma {:induction false} SnapshotIsFirst(rows: seq<Row>, i: nat)
    requires i < |rows| && rows[i].scan.Required? && forall j :: 0 <= j < i ==> !rows[j].scan.Required?
    ensures Snapshot(rows) == Some(rows[i].scan.ready)
  {
    if i > 0 {
      assert !rows[0].scan.Required?;
      assert forall j :: 0 <= j < i - 1 ==> rows[1..][j] == rows[j + 1];
      SnapshotIsFirst(rows[1..], i - 1);
    }
  }

  /**
    Splitting a selection into requests changes no row: whatever the split and however the scanner's
    readiness varied, the settled rows are those of one request answered at the snapshot readiness.
   */
  lemma RequestSplitIsInvisible(requests: seq<seq<Selected>>, readies: seq<bool>)
    requires |requests| == |readies|
    ensures var rows, files := Flatten(Replies(requests, readies)), Flatten(requests);
            var ready := Snapshot(rows).Some? && Snapshot(rows).value;
            && Consolidate(rows) == Consolidate(Evaluate(files, {}, ready))
            && |Consolidate(rows)| == |files|
            && forall i :: 0 <= i < |files| ==> Consolidate(rows)[i] == Alone(files[i], ready)
  {
    var rows, files := Flatten(Replies(requests, readies)), Flatten(requests);
    var ready := Snapshot(rows).Some? && Snapshot(rows).value;
    RepliesSettleAlone(requests, readies, ready);
    var single := Evaluate(files, {}, ready);
    EvaluatedRowsSettleAlone(files, {}, ready, ready);
    SingleSnapshot(files, {}, ready);
    if Snapshot(single).None? {
      SnapshotExactly(single);
      forall i | 0 <= i < |single| ensures Settle(single[i], false) == Settle(single[i], ready) {
      }
    }
  }

  lemma {:induction false} SingleSnapshot(files: seq<Selected>, seen: set<string>, ready: bool)
    ensures var s := Snapshot(Evaluate(files, seen, ready)); s.Some? ==> s.value == ready
  {
    if files != [] {
      var row := EvaluateRow(files[0], seen, ready);
      SingleSnapshot(files[1..], if row.state == Valid then seen + {files[0].path} else seen, ready);
    }
  }

  // ---- building the bounded requests ----------------------------------------------------------

  /** The encoded bytes of a request holding these descriptors, with a comma between neighbours. */
  function BodyBytes(sizes: seq<nat>, request: seq<nat>, empty: nat): nat
    requires forall k :: 0 <= k < |request| ==> request[k] < |sizes|
  {
    if request == [] then empty
    else
      var n := |request| - 1;
      BodyBytes(sizes, request[..n], empty) + sizes[request[n]] + (if n > 0 then 1 else 0)
  }

  /** The first n files, in order, less those whose descriptor alone overfills a request. */
  function Sendable(sizes: seq<nat>, n: nat, empty: nat, limit: nat): (kept: seq<nat>)
    requires n <= |sizes|
    ensures forall k :: 0 <= k < |kept| ==> kept[k] < n
  {
    if n == 0 then []
    else Sendable(sizes, n - 1, empty, limit) + (if empty + sizes[n - 1] > limit then [] else [n - 1])
  }

  predicate Bounded(request: seq<nat>, sizes: seq<nat>, empty: nat, items: nat, limit: nat) {
    && 0 < |request| <= items
    && (forall k :: 0 <= k < |request| ==> request[k] < |sizes|)
    && BodyBytes(sizes, request, empty) <= limit
  }

  /** The loop's state once the first n files are either queued or failed. */
  ghost predicate Queueing(requests: seq<seq<nat>>, entries: seq<nat>, sizes: seq<nat>, n: nat,
                           empty: nat, items: nat, limit: nat)
  {
    && n <= |sizes|
    && (forall r :: 0 <= r < |requests| ==> Bounded(requests[r], sizes, empty, items, limit))
    && (entries == [] || Bounded(entries, sizes, empty, items, limit))
    && Flatten(requests) + entries == Sendable(sizes, n, empty, limit)
  }

  function Body(sizes: seq<nat>, entries: seq<nat>, empty: nat): nat {
    if forall k :: 0 <= k < |entries| ==> entries[k] < |sizes| then BodyBytes(sizes, entries, empty) else 0
  }

  lemma Flush(requests: seq<seq<nat>>, entries: seq<nat>, sizes: seq<nat>, n: nat, empty: nat, items: nat, limit: nat)
    requires Queueing(requests, entries, sizes, n, empty, items, limit) && entries != []
    ensures Queueing(requests + [entries], [], sizes, n, empty, items, limit)
  {
    FlattenAppend(requests, [entries]);
    assert Flatten([entries]) == entries;
  }

  lemma AddEntry(sizes: seq<nat>, entries: seq<nat>, n: nat, empty: nat)
    requires (forall k :: 0 <= k < |entries| ==> entries[k] < |sizes|) && n < |sizes|
    ensures BodyBytes(sizes, [], empty) == empty
    ensures BodyBytes(sizes, entries + [n], empty)
         == BodyBytes(sizes, entries, empty) + sizes[n] + (if entries == [] then 0 else 1)
  {
  }

  lemma Enqueue(requests: seq<seq<nat>>, entries: seq<nat>, sizes: seq<nat>, n: nat, empty: nat, items: nat, limit: nat)
    requires Queueing(requests, entries, sizes, n, empty, items, limit) && n < |sizes|
    requires |entries| < items && empty + sizes[n] <= limit
    requires entries != [] ==> Body(sizes, entries, empty) + sizes[n] + 1 <= limit
    ensures Queueing(requests, entries + [n], sizes, n + 1, empty, items, limit)
    ensures Body(sizes, entries + [n], empty)
         == (if entries == [] then empty + sizes[n] else Body(sizes, entries, empty) + sizes[n] + 1)
  {
    AddEntry(sizes, entries, n, empty);
    SendableNext(sizes, n, empty, limit);
    hide BodyBytes, Flatten, Sendable;
    Reassociate(Flatten(requests), entries, [n]);
  }

  lemma SendableNext(sizes: seq<nat>, n: nat, empty: nat, limit: nat)
    requires n < |sizes| && empty + sizes[n] <= limit
    ensures Sendable(sizes, n + 1, empty, limit) == Sendable(sizes, n, empty, limit) + [n]
  {
  }

  lemma Skip(requests: seq<seq<nat>>, entries: seq<nat>, sizes: seq<nat>, n: nat, empty: nat, items: nat, limit: nat)
    requires Queueing(requests, entries, sizes, n, empty, items, limit) && n < |sizes| && empty + sizes[n] > limit
    ensures Queueing(requests, entries, sizes, n + 1, empty, items, limit)
  {
  }

  /** The files whose descriptor alone overfills a request. */
  function Oversized(sizes: seq<nat>, n: nat, empty: nat, limit: nat): set<nat>
    requires n <= |sizes|
  {
    set i: nat | i < n && empty + sizes[i] > limit
  }

  lemma OversizedNext(sizes: seq<nat>, n: nat, empty: nat, limit: nat)
    requires n < |sizes|
    ensures Oversized(sizes, n + 1, empty, limit)
         == Oversized(sizes, n, empty, limit) + (if empty + sizes[n] > limit then {n} else {})
  {
  }

  lemma StartQueueing(sizes: seq<nat>, empty: nat, items: nat, limit: nat)
    ensures Queueing([], [], sizes, 0, empty, items, limit) && Oversized(sizes, 0, empty, limit) == {}
  {
  }

  /** What the finished queue amounts to. */
  lemma Queued(requests: seq<seq<nat>>, sizes: seq<nat>, empty: nat, items: nat, limit: nat)
    requires Queueing(requests, [], sizes, |sizes|, empty, items, limit)
    ensures Flatten(requests) == Sendable(sizes, |sizes|, empty, limit)
    ensures forall r :: 0 <= r < |requests| ==> Bounded(requests[r], sizes, empty, items, limit)
  {
  }

  /** A request ends only where its next file, in selection order, would overfill it; or with the selection. */
  ghost predicate Filled(request: seq<nat>, sizes: seq<nat>, empty: nat, items: nat, limit: nat) {
    request != [] && (forall k :: 0 <= k < |request| ==> request[k] < |sizes|)
    && var next := request[|request| - 1] + 1;
       next < |sizes| ==> |request| >= items || BodyBytes(sizes, request, empty) + 1 + sizes[next] > limit
  }

  ghost predicate AllFilled(requests: seq<seq<nat>>, sizes: seq<nat>, empty: nat, items: nat, limit: nat) {
    forall r :: 0 <= r < |requests| ==> Filled(requests[r], sizes, empty, items, limit)
  }

  /** What the loop knows besides: finished requests are full, and the one in hand ends where the loop stands. */
  ghost predicate Packing(requests: seq<seq<nat>>, entries: seq<nat>, sizes: seq<nat>, n: nat, empty: nat, items: nat, limit: nat) {
    && AllFilled(requests, sizes, empty, items, limit)
    && (entries != [] ==> entries[|entries| - 1] + 1 == n && forall k :: 0 <= k < |entries| ==> entries[k] < |sizes|)
  }

  lemma PackingFlush(requests: seq<seq<nat>>, entries: seq<nat>, sizes: seq<nat>, n: nat, empty: nat, items: nat, limit: nat)
    requires Packing(requests, entries, sizes, n, empty, items, limit) && entries != [] && n <= |sizes|
    requires n < |sizes| ==> |entries| >= items || Body(sizes, entries, empty) + 1 + sizes[n] > limit
    ensures Packing(requests + [entries], [], sizes, n, empty, items, limit)
  {
    hide BodyBytes;
  }

  lemma PackingNext(requests: seq<seq<nat>>, entries: seq<nat>, sizes: seq<nat>, n: nat, empty: nat, items: nat, limit: nat)
    requires Packing(requests, entries, sizes, n, empty, items, limit) && n < |sizes|
    ensures Packing(requests, entries + [n], sizes, n + 1, empty, items, limit)
    ensures entries == [] ==> Packing(requests, [], sizes, n + 1, empty, items, limit)
  {
    hide Filled;
  }

  lemma StartPacking(sizes: seq<nat>, empty: nat, items: nat, limit: nat)
    ensures Packing([], [], sizes, 0, empty, items, limit)
  {
  }

  lemma PackingDone(requests: seq<seq<nat>>, sizes: seq<nat>, empty: nat, items: nat, limit: nat)
    requires Packing(requests, [], sizes, |sizes|, empty, items, limit)
    ensures AllFilled(requests, sizes, empty, items, limit)
  {
  }

  /**
    `sizes` are the encoded descriptors, `empty` the encoded request without any. Descriptors too
    large for any request are failed locally; the rest go out in order within both limits, and no
    request is ended before it is full.
   */
  method BuildRequests(sizes: seq<nat>, empty: nat, items: nat, limit: nat)
    returns (requests: seq<seq<nat>>, failures: set<nat>)
    requires items > 0
    ensures Flatten(requests) == Sendable(sizes, |sizes|, empty, limit)
    ensures forall r :: 0 <= r < |requests| ==> Bounded(requests[r], sizes, empty, items, limit)
    ensures forall r :: 0 <= r < |requests| ==> Filled(requests[r], sizes, empty, items, limit)
    ensures failures == Oversized(sizes, |sizes|, empty, limit)
  {
    hide Queueing, Body, Flatten, Sendable, Bounded, Oversized, Packing, Filled;
    StartPacking(sizes, empty, items, limit);
    requests, failures := [], {};
    var entries: seq<nat> := [];
    var body := empty;
    StartQueueing(sizes, empty, items, limit);
    for index := 0 to |sizes|
      invariant Queueing(requests, entries, sizes, index, empty, items, limit)
      invariant Packing(requests, entries, sizes, index, empty, items, limit)
      invariant body == if entries == [] then empty else Body(sizes, entries, empty)
      invariant body >= empty
      invariant failures == Oversized(sizes, index, empty, limit)
    {
      OversizedNext(sizes, index, empty, limit);
      var addition := sizes[index] + (if entries != [] then 1 else 0);
      if entries != [] && (|entries| >= items || body + addition > limit) {
        Flush(requests, entries, sizes, index, empty, items, limit);
        PackingFlush(requests, entries, sizes, index, empty, items, limit);
        requests := requests + [entries];
        entries := [];
        body := empty;
      }
      PackingNext(requests, entries, sizes, index, empty, items, limit);
      if empty + sizes[index] > limit {
        Skip(requests, entries, sizes, index, empty, items, limit);
        failures := failures + {index};
      } else {
        Enqueue(requests, entries, sizes, index, empty, items, limit);
        entries := entries + [index];
        body := body + sizes[index] + (if |entries| > 1 then 1 else 0);
      }
    }
    if entries != [] {
      Flush(requests, entries, sizes, |sizes|, empty, items, limit);
      PackingFlush(requests, entries, sizes, |sizes|, empty, items, limit);
      requests := requests + [entries];
    }
    PackingDone(requests, sizes, empty, items, limit);
    Queued(requests, sizes, empty, items, limit);
  }

  // ---- the ordered admission pass -------------------------------------------------------------

  predicate Candidate(row: Row) { row.state == Valid && row.eligible }

  /** What the pass needs of the settled rows; anything else stops the review. */
  predicate Complete(rows: seq<Row>) {
    forall i :: 0 <= i < |rows| ==>
      && (rows[i].state in {Valid, NeedsAttention, DuplicateCandidate, OverLimit} ==> rows[i].token.Some?)
      && (Candidate(rows[i]) ==> rows[i].size.Some? && rows[i].size.value > 0)
  }

  /** A file outside a saved plan repeats a path that the plan already holds. */
  predicate RepeatsPlanned(rows: seq<Row>, token: Option<string>, plan: seq<nat>) {
    exists k :: 0 <= k < |plan| && plan[k] < |rows| && rows[plan[k]].token == token
  }

  /** With a saved plan the pass admits that plan's files; otherwise whatever still fits. */
  function Verdict(rows: seq<Row>, i: nat, remaining: int, taken: set<string>, plan: Option<seq<nat>>): State
    requires i < |rows| && Complete(rows)
  {
    var row := rows[i];
    if !Candidate(row) then row.state
    else if plan.Some? && i !in plan.value then
      if RepeatsPlanned(rows, row.token, plan.value) then DuplicateCandidate else OverLimit
    else if plan.None? && row.size.value > remaining then OverLimit
    else if row.token.value in taken then DuplicateCandidate
    else Valid
  }

  datatype Pass = Pass(states: seq<State>, remaining: int, taken: set<string>)

  /** The pass after its first n rows. */
  function Admit(rows: seq<Row>, n: nat, capacity: int, plan: Option<seq<nat>>): (pass: Pass)
    requires n <= |rows| && Complete(rows)
    ensures |pass.states| == n
  {
    if n == 0 then Pass([], capacity, {})
    else
      var pass := Admit(rows, n - 1, capacity, plan);
      var row, state := rows[n - 1], Verdict(rows, n - 1, pass.remaining, pass.taken, plan);
      if Candidate(row) && state == Valid then
        Pass(pass.states + [state],
             if plan.None? then pass.remaining - row.size.value else pass.remaining,
             pass.taken + {row.token.value})
      else pass.(states := pass.states + [state])
  }

  /** Row i became part of the upload. */
  predicate Admitted(rows: seq<Row>, states: seq<State>, i: nat) {
    i < |rows| && i < |states| && Candidate(rows[i]) && states[i] == Valid
  }

  /** The admitted rows among the first n, in order. */
  function Eligible(rows: seq<Row>, states: seq<State>, n: nat): (indexes: seq<nat>)
    requires n <= |rows| && n <= |states|
    ensures forall k :: 0 <= k < |indexes| ==> indexes[k] < n && Admitted(rows, states, indexes[k])
    ensures forall i :: 0 <= i < n && Admitted(rows, states, i) ==> i in indexes
  {
    if n == 0 then []
    else Eligible(rows, states, n - 1) + (if Admitted(rows, states, n - 1) then [n - 1] else [])
  }

  /** The browser's loop over the rows, rewriting each state in place. */
  method AdmitRows(rows: seq<Row>, capacity: int, plan: Option<seq<nat>>)
    returns (states: seq<State>, eligible: seq<nat>)
    requires Complete(rows)
    ensures states == Admit(rows, |rows|, capacity, plan).states
    ensures eligible == Eligible(rows, states, |rows|)
  {
    states, eligible := [], [];
    var taken: set<string> := {};
    var remaining := capacity;
    for i := 0 to |rows|
      invariant Pass(states, remaining, taken) == Admit(rows, i, capacity, plan)
      invariant eligible == Eligible(rows, states, i)
    {
      var row := rows[i];
      var state := row.state;
      if Candidate(row) {
        if plan.Some? && i !in plan.value {
          state := if RepeatsPlanned(rows, row.token, plan.value) then DuplicateCandidate else OverLimit;
        } else if plan.None? && row.size.value > remaining {
          state := OverLimit;
        } else if row.token.value in taken {
          state := DuplicateCandidate;
        } else {
          taken := taken + {row.token.value};
          if plan.None? {
            remaining := remaining - row.size.value;
          }
        }
      }
      EligibleAppend(rows, states, state, i);
      states := states + [state];
      if Candidate(row) && state == Valid {
        eligible := eligible + [i];
      }
    }
  }

  lemma {:induction false} EligibleAppend(rows: seq<Row>, states: seq<State>, state: State, n: nat)
    requires n <= |rows| && n <= |states|
    ensures Eligible(rows, states + [state], n) == Eligible(rows, states, n)
  {
    if n > 0 {
      EligibleAppend(rows, states, state, n - 1);
    }
  }

  // ---- what an ordinary review admits ---------------------------------------------------------

  function AdmittedBytes(rows: seq<Row>, states: seq<State>, n: nat): (bytes: nat)
    requires n <= |rows| && Complete(rows)
  {
    if n == 0 then 0
    else AdmittedBytes(rows, states, n - 1) + (if Admitted(rows, states, n - 1) then rows[n - 1].size.value else 0)
  }

  ghost predicate TakenBefore(rows: seq<Row>, states: seq<State>, i: nat, token: string) {
    exists j: nat :: j < i && Admitted(rows, states, j) && rows[j].token == Some(token)
  }

  /** Row i's verdict in terms of the rows admitted before it, and of nothing else. */
  ghost predicate Judged(rows: seq<Row>, states: seq<State>, capacity: int, i: nat)
    requires i < |rows| && i < |states| && Complete(rows)
  {
    var row := rows[i];
    states[i] == if !(row.state == Valid && row.eligible) then row.state
                 else if AdmittedBytes(rows, states, i) + row.size.value > capacity then OverLimit
                 else if TakenBefore(rows, states, i, row.token.value) then DuplicateCandidate
                 else Valid
  }

  lemma {:induction false} SamePrefix(rows: seq<Row>, s: seq<State>, t: seq<State>, n: nat, m: nat)
    requires m <= n <= |rows| && n <= |s| && n <= |t| && s[..n] == t[..n] && Complete(rows)
    ensures AdmittedBytes(rows, s, m) == AdmittedBytes(rows, t, m)
    ensures forall token :: TakenBefore(rows, s, m, token) <==> TakenBefore(rows, t, m, token)
  {
    assert forall j :: 0 <= j < n ==> s[j] == s[..n][j] == t[j];
    if m > 0 {
      SamePrefix(rows, s, t, n, m - 1);
    }
  }

  /** The running counters of the pass are what the declarative verdicts speak of. */
  lemma {:induction false} PassTracks(rows: seq<Row>, n: nat, capacity: int)
    requires n <= |rows| && Complete(rows)
    ensures var pass := Admit(rows, n, capacity, None);
            && pass.remaining == capacity - AdmittedBytes(rows, pass.states, n)
            && forall token :: token in pass.taken <==> TakenBefore(rows, pass.states, n, token)
  {
    if n > 0 {
      PassTracks(rows, n - 1, capacity);
      var before, pass := Admit(rows, n - 1, capacity, None), Admit(rows, n, capacity, None);
      assert before.states == pass.states[..n - 1];
      SamePrefix(rows, before.states, pass.states, n - 1, n - 1);
      forall token
        ensures TakenBefore(rows, pass.states, n, token)
          <==> (TakenBefore(rows, pass.states, n - 1, token)
               || (Admitted(rows, pass.states, n - 1) && rows[n - 1].token == Some(token)))
      {
      }
    }
  }

  /** Every row is judged by the declarative rule, whatever comes after it. */
  lemma {:induction false} PassJudges(rows: seq<Row>, n: nat, capacity: int)
    requires n <= |rows| && Complete(rows)
    ensures forall i :: 0 <= i < n ==> Judged(rows, Admit(rows, n, capacity, None).states, capacity, i)
  {
    if n > 0 {
      PassJudges(rows, n - 1, capacity);
      PassTracks(rows, n - 1, capacity);
      var before, pass := Admit(rows, n - 1, capacity, None), Admit(rows, n, capacity, None);
      assert before.states == pass.states[..n - 1];
      forall i | 0 <= i < n ensures Judged(rows, pass.states, capacity, i) {
        SamePrefix(rows, before.states, pass.states, n - 1, i);
        if i < n - 1 {
          assert Judged(rows, before.states, capacity, i);
        }
      }
    }
  }

  /** The rule determines every state, so it is a full definition of the pass. */
  lemma {:induction false} JudgementsAreUnique(rows: seq<Row>, s: seq<State>, t: seq<State>, capacity: int, n: nat)
    requires n <= |rows| && n <= |s| && n <= |t| && Complete(rows)
    requires forall i :: 0 <= i < n ==> Judged(rows, s, capacity, i) && Judged(rows, t, capacity, i)
    ensures s[..n] == t[..n]
  {
    if n > 0 {
      JudgementsAreUnique(rows, s, t, capacity, n - 1);
      SamePrefix(rows, s, t, n - 1, n - 1);
      assert Judged(rows, s, capacity, n - 1) && Judged(rows, t, capacity, n - 1);
      assert s[..n] == s[..n - 1] + [s[n - 1]];
      assert t[..n] == t[..n - 1] + [t[n - 1]];
    }
  }

  /** What is admitted fits the capacity, and no path is admitted twice. */
  lemma {:induction false} AdmissionIsSafe(rows: seq<Row>, states: seq<State>, capacity: int, n: nat)
    requires n <= |rows| && n <= |states| && Complete(rows) && capacity >= 0
    requires forall i :: 0 <= i < n ==> Judged(rows, states, capacity, i)
    ensures AdmittedBytes(rows, states, n) <= capacity
    ensures forall i, j :: 0 <= i < j < n && Admitted(rows, states, i) && Admitted(rows, states, j) ==>
              rows[i].token != rows[j].token
  {
    if n > 0 {
      AdmissionIsSafe(rows, states, capacity, n - 1);
      assert Judged(rows, states, capacity, n - 1);
      if Admitted(rows, states, n - 1) {
        assert !TakenBefore(rows, states, n - 1, rows[n - 1].token.value);
      }
    }
  }

  /** Nothing is kept out in vain: a refused candidate overfills the matter or repeats an admitted path. */
  lemma BlockedRowsBlockNobody(rows: seq<Row>, capacity: int, i: nat)
    requires i < |rows| && Complete(rows) && Candidate(rows[i])
    ensures var states := Admit(rows, |rows|, capacity, None).states;
            && (states[i] == DuplicateCandidate ==>
                 exists j: nat :: j < i && states[j] == Valid && Admitted(rows, states, j) && rows[j].token == rows[i].token)
            && (states[i] == OverLimit <==> AdmittedBytes(rows, states, i) + rows[i].size.value > capacity)
  {
    PassJudges(rows, |rows|, capacity);
    var states := Admit(rows, |rows|, capacity, None).states;
    assert Judged(rows, states, capacity, i);
  }

  // ---- the matter's capacity as the server reports it -----------------------------------------

  datatype Capacity = Capacity(available: nat, remaining: nat, validated: bool, spare: nat)

  datatype Report = Report(quota: int, used: int, totalReserved: int, spare: int, validated: bool,
                           remaining: int, otherReserved: int, available: int)

  function Positive(n: int): nat { if n > 0 then n else 0 }

  /** The arithmetic a report must show before the browser relies on it. */
  predicate Consistent(report: Report) {
    && report.quota > 0 && report.used >= 0
    && 0 <= report.remaining <= report.totalReserved
    && report.spare == Positive(report.quota - report.used - report.totalReserved)
    && (!report.validated ==> report.remaining == 0)
    && report.otherReserved == report.totalReserved - report.remaining
    && report.available == Positive(report.quota - report.used - report.otherReserved)
  }

  /** The worst case over the replies; no reply at all leaves no room. */
  function Combine(reports: seq<Report>): (capacity: Capacity)
    requires forall r :: 0 <= r < |reports| ==> Consistent(reports[r])
    ensures forall r :: 0 <= r < |reports| ==>
              && capacity.spare <= reports[r].spare && capacity.available <= reports[r].available
              && capacity.remaining >= reports[r].remaining && (capacity.validated ==> reports[r].validated)
    ensures capacity.spare <= capacity.available
    ensures capacity.validated ==> reports != []
  {
    if reports == [] then Capacity(0, 0, false, 0)
    else
      var r := reports[0];
      assert Consistent(r);
      if |reports| == 1 then Capacity(r.available, r.remaining, r.validated, r.spare)
      else
        var c := Combine(reports[1..]);
        assert forall k :: 1 <= k < |reports| ==> reports[k] == reports[1..][k - 1];
        Capacity(if r.available < c.available then r.available else c.available,
                 if r.remaining > c.remaining then r.remaining else c.remaining,
                 r.validated && c.validated,
                 if r.spare < c.spare then r.spare else c.spare)
  }

  predicate Reports(reports: seq<Report>, capacity: Capacity, a: nat, r: nat, s: nat) {
    && a < |reports| && r < |reports| && s < |reports|
    && capacity.available == reports[a].available && capacity.remaining == reports[r].remaining
    && capacity.spare == reports[s].spare
  }

  /** No more cautious than the replies are: each figure is some reply's own, and a checkpoint all confirm is confirmed. */
  lemma {:induction false} CombineIsAttained(reports: seq<Report>)
    requires forall r :: 0 <= r < |reports| ==> Consistent(reports[r])
    ensures var capacity := Combine(reports);
            && (reports == [] ==> capacity == Capacity(0, 0, false, 0))
            && (reports != [] ==> exists a: nat, r: nat, s: nat :: Reports(reports, capacity, a, r, s))
            && (capacity.validated <==> reports != [] && forall k :: 0 <= k < |reports| ==> reports[k].validated)
  {
    if |reports| == 1 {
      assert Reports(reports, Combine(reports), 0, 0, 0);
    } else if reports != [] {
      var rest := reports[1..];
      assert forall k :: 0 < k < |reports| ==> reports[k] == rest[k - 1];
      CombineIsAttained(rest);
      var a: nat, r: nat, s: nat :| Reports(rest, Combine(rest), a, r, s);
      var first, c := reports[0], Combine(rest);
      assert Consistent(first);
      assert Reports(reports, Combine(reports), if first.available < c.available then 0 else a + 1,
                     if first.remaining > c.remaining then 0 else r + 1, if first.spare < c.spare then 0 else s + 1);
    }
  }

  // ---- reviewing against a saved upload plan --------------------------------------------------

  /**
    What a checkpoint remembers; a fingerprint is modelled by the value it was taken of. The saved
    structure names duplicate groups by number, which for equal files is the same as by token.
   */
  datatype Saved =
    | Nothing
    | PlanOnly(plan: seq<seq<File>>, batchIndex: nat)
    | Reviewed(files: seq<File>, rows: seq<Row>, eligible: seq<nat>,
               plan: seq<seq<File>>, count: nat, batchIndex: nat)

  datatype Outcome = Stopped | Done(states: seq<State>, eligible: seq<nat>, plan: seq<seq<File>>)

  predicate Ascending(indexes: seq<nat>) {
    forall i, j :: 0 <= i < j < |indexes| ==> indexes[i] < indexes[j]
  }

  function Pick(files: seq<File>, indexes: seq<nat>): seq<File>
    requires forall k :: 0 <= k < |indexes| ==> indexes[k] < |files|
  {
    seq(|indexes|, k requires 0 <= k < |indexes| => files[indexes[k]])
  }

  predicate Matches(saved: Saved, files: seq<File>, rows: seq<Row>) {
    saved.Reviewed? && saved.files == files && saved.rows == rows
  }

  /** The saved rows are still eligible, make up the saved plan, and repeat no path. */
  predicate PlanStands(saved: Saved, files: seq<File>, rows: seq<Row>, limits: Limits)
    requires saved.Reviewed? && |files| == |rows|
  {
    && (forall k :: 0 <= k < |saved.eligible| ==> saved.eligible[k] < |rows| && Candidate(rows[saved.eligible[k]]))
    && Plan(Pick(files, saved.eligible), limits) == saved.plan
    && |saved.plan| == saved.count && saved.batchIndex < |saved.plan|
    && forall j, k :: 0 <= j < k < |saved.eligible| ==> rows[saved.eligible[j]].token != rows[saved.eligible[k]].token
  }

  function LaterBytes(plan: seq<seq<File>>, batchIndex: nat): nat
    requires batchIndex < |plan|
  {
    Bytes(Flatten(plan[batchIndex + 1..]))
  }

  predicate PlanFits(plan: seq<seq<File>>, batchIndex: nat, capacity: Capacity)
    requires batchIndex < |plan|
  {
    && capacity.remaining <= Bytes(plan[batchIndex])
    && LaterBytes(plan, batchIndex) <= capacity.spare
    && capacity.remaining + LaterBytes(plan, batchIndex) <= capacity.available
  }

  /** A checkpoint of a reviewed plan earns no credit for its session until the server confirms it. */
  function Room(saved: Saved, frozen: bool, capacity: Capacity): nat {
    if saved.Reviewed? && !frozen then capacity.spare else capacity.available
  }

  function Review(files: seq<File>, rows: seq<Row>, capacity: Capacity, saved: Saved, limits: Limits): Outcome
    requires |files| == |rows|
  {
    var matches := Matches(saved, files, rows);
    if !Complete(rows) || (matches && !PlanStands(saved, files, rows, limits)) then Stopped
    else if matches && capacity.validated && !PlanFits(saved.plan, saved.batchIndex, capacity) then Stopped
    else
      var frozen := matches && capacity.validated;
      var states := Admit(rows, |rows|, Room(saved, frozen, capacity),
                          if frozen then Some(saved.eligible) else None).states;
      var eligible := Eligible(rows, states, |rows|);
      var plan := Plan(Pick(files, eligible), limits);
      if matches && !frozen && eligible != saved.eligible then Stopped
      else if saved.PlanOnly? && saved.batchIndex > 0 && saved.plan != plan then Stopped
      else Done(states, eligible, plan)
  }

  lemma {:induction false} EligibleAscends(rows: seq<Row>, states: seq<State>, n: nat)
    requires n <= |rows| && n <= |states|
    ensures Ascending(Eligible(rows, states, n))
  {
    if n > 0 {
      EligibleAscends(rows, states, n - 1);
    }
  }

  lemma {:induction false} AscendingIsUnique(a: seq<nat>, b: seq<nat>)
    requires Ascending(a) && Ascending(b) && forall i :: i in a <==> i in b
    ensures a == b
  {
    assert a != [] ==> a[0] in a;
    assert b != [] ==> b[0] in b;
    if a != [] {
      var p, q := |a| - 1, |b| - 1;
      assert a[p] in b && b[q] in a;
      forall i ensures i in a[..p] <==> i in b[..q] {
        assert i in a <==> i in b;
        if i in a[..p] { assert i != b[q]; }
        if i in b[..q] { assert i != a[p]; }
      }
      AscendingIsUnique(a[..p], b[..q]);
    }
  }

  /** A pass over a saved plan admits that plan's rows and no others. */
  lemma {:induction false} FrozenPass(rows: seq<Row>, n: nat, capacity: int, plan: seq<nat>)
    requires n <= |rows| && Complete(rows)
    requires forall k :: 0 <= k < |plan| ==> plan[k] < |rows| && Candidate(rows[plan[k]])
    requires forall j, k :: 0 <= j < k < |plan| ==> rows[plan[j]].token != rows[plan[k]].token
    ensures var pass := Admit(rows, n, capacity, Some(plan));
            && (forall i :: 0 <= i < n ==> (Admitted(rows, pass.states, i) <==> i in plan))
            && (forall token :: token in pass.taken ==>
                  exists i :: 0 <= i < n && i in plan && rows[i].token == Some(token))
  {
    if n > 0 {
      FrozenPass(rows, n - 1, capacity, plan);
      var before, pass := Admit(rows, n - 1, capacity, Some(plan)), Admit(rows, n, capacity, Some(plan));
      assert before.states == pass.states[..n - 1];
      assert forall i :: 0 <= i < n - 1 ==> Admitted(rows, pass.states, i) == Admitted(rows, before.states, i);
      if n - 1 in plan {
        assert rows[n - 1].token.value !in before.taken;
      }
    }
  }

  /** What a saved plan makes of the rows outside it: one that repeats a planned path is a duplicate, any other is over the limit. */
  lemma {:induction false} FrozenPassJudges(rows: seq<Row>, n: nat, capacity: int, plan: seq<nat>, i: nat)
    requires i < n <= |rows| && Complete(rows)
    requires forall k :: 0 <= k < |plan| ==> plan[k] < |rows| && Candidate(rows[plan[k]])
    requires forall j, k :: 0 <= j < k < |plan| ==> rows[plan[j]].token != rows[plan[k]].token
    ensures Admit(rows, n, capacity, Some(plan)).states[i]
         == if !Candidate(rows[i]) then rows[i].state
            else if i in plan then Valid
            else if exists k :: 0 <= k < |plan| && rows[plan[k]].token == rows[i].token then DuplicateCandidate
            else OverLimit
  {
    if i == n - 1 {
      FrozenPass(rows, n, capacity, plan);
      var state := Admit(rows, n, capacity, Some(plan)).states[i];
      assert Admitted(rows, Admit(rows, n, capacity, Some(plan)).states, i) <==> i in plan;
    } else {
      FrozenPassJudges(rows, n - 1, capacity, plan, i);
    }
  }

  /** Reviewing an unchanged selection either stops or confirms the saved plan to the byte. */
  lemma ReviewKeepsSavedPlan(files: seq<File>, rows: seq<Row>, capacity: Capacity, saved: Saved, limits: Limits)
    requires |files| == |rows| && Matches(saved, files, rows) && Ascending(saved.eligible)
    ensures var outcome := Review(files, rows, capacity, saved, limits);
            outcome.Done? ==> outcome.eligible == saved.eligible && outcome.plan == saved.plan
  {
    if Complete(rows) && PlanStands(saved, files, rows, limits) && capacity.validated {
      FrozenReviewIsPlan(files, rows, capacity.available, saved, limits);
    }
  }

  lemma FrozenReviewIsPlan(files: seq<File>, rows: seq<Row>, room: int, saved: Saved, limits: Limits)
    requires |files| == |rows| && Complete(rows) && saved.Reviewed? && Ascending(saved.eligible)
    requires PlanStands(saved, files, rows, limits)
    ensures Eligible(rows, Admit(rows, |rows|, room, Some(saved.eligible)).states, |rows|) == saved.eligible
  {
    FrozenPass(rows, |rows|, room, saved.eligible);
    var states := Admit(rows, |rows|, room, Some(saved.eligible)).states;
    EligibleAscends(rows, states, |rows|);
    AscendingIsUnique(Eligible(rows, states, |rows|), saved.eligible);
  }

  lemma PickBytesAppend(files: seq<File>, indexes: seq<nat>, i: nat)
    requires (forall k :: 0 <= k < |indexes| ==> indexes[k] < |files|) && i < |files|
    ensures Bytes(Pick(files, indexes + [i])) == Bytes(Pick(files, indexes)) + files[i].size
  {
    assert Pick(files, indexes + [i]) == Pick(files, indexes) + [files[i]];
    BytesAppend(Pick(files, indexes), [files[i]]);
    assert Bytes([files[i]]) == files[i].size;
  }

  /** The server's rows repeat the sizes they were sent. */
  ghost predicate Echoed(files: seq<File>, rows: seq<Row>)
    requires |files| == |rows|
  {
    forall i :: 0 <= i < |rows| && rows[i].size.Some? ==> rows[i].size.value == files[i].size
  }

  lemma {:induction false} EligibleBytes(files: seq<File>, rows: seq<Row>, states: seq<State>, n: nat)
    requires n <= |rows| == |files| && n <= |states| && Complete(rows)
    requires Echoed(files, rows)
    ensures Bytes(Pick(files, Eligible(rows, states, n))) == AdmittedBytes(rows, states, n)
  {
    if n > 0 {
      EligibleBytes(files, rows, states, n - 1);
      var before := Eligible(rows, states, n - 1);
      hide Bytes, Pick;
      if Admitted(rows, states, n - 1) {
        assert rows[n - 1].size == Some(files[n - 1].size);
        hide Echoed, Complete, Admitted;
        PickBytesAppend(files, before, n - 1);
      } else {
        hide Echoed, Complete, Admitted;
        assert before + [] == before;
      }
    }
  }

  /** What the browser sends of a file: its path and size, or as much of them as can be told. */
  predicate Describes(sent: Selected, file: File) {
    (sent.size.Some? ==> sent.size.value == file.size) && (sent.Named? ==> sent.path == file.path)
  }

  /** However the descriptors were sent, the settled rows repeat the sizes and the paths of the files they stand for. */
  lemma SettledRowsEcho(files: seq<File>, requests: seq<seq<Selected>>, readies: seq<bool>)
    requires |requests| == |readies| && |Flatten(requests)| == |files|
    requires forall i :: 0 <= i < |files| ==> Describes(Flatten(requests)[i], files[i])
    ensures var rows := Consolidate(Flatten(Replies(requests, readies)));
            && |rows| == |files| && Echoed(files, rows)
            && forall i :: 0 <= i < |rows| && rows[i].token.Some? ==> rows[i].token.value == files[i].path
  {
    RequestSplitIsInvisible(requests, readies);
    hide Consolidate, Replies, Flatten, Snapshot;
    var sent := Flatten(requests);
    forall i | 0 <= i < |files| ensures Describes(sent[i], files[i]) {}
  }

  /** The bytes still to be sent under an accepted review fit what the server said was left. */
  lemma ReviewFits(files: seq<File>, rows: seq<Row>, capacity: Capacity, saved: Saved, limits: Limits)
    requires |files| == |rows|
    requires Echoed(files, rows)
    requires saved.Reviewed? ==> Ascending(saved.eligible)
    ensures var outcome := Review(files, rows, capacity, saved, limits);
            outcome.Done? ==>
              if Matches(saved, files, rows) && capacity.validated then
                outcome.plan == saved.plan && PlanFits(outcome.plan, saved.batchIndex, capacity)
              else Bytes(Flatten(outcome.plan)) <= (if saved.Reviewed? then capacity.spare else capacity.available)
  {
    var outcome := Review(files, rows, capacity, saved, limits);
    if outcome.Done? {
      if Matches(saved, files, rows) && capacity.validated {
        ReviewKeepsSavedPlan(files, rows, capacity, saved, limits);
      } else {
        PassJudges(rows, |rows|, Room(saved, false, capacity));
        AdmissionIsSafe(rows, outcome.states, Room(saved, false, capacity), |rows|);
        EligibleBytes(files, rows, outcome.states, |rows|);
        PlanSplits(Pick(files, outcome.eligible), limits);
      }
    }
  }

  /** States that judge every row by what was admitted before it; there are no others for the same room. */
  ghost predicate Judges(rows: seq<Row>, states: seq<State>, room: nat) {
    Complete(rows) && |states| == |rows| && forall i :: 0 <= i < |rows| ==> Judged(rows, states, room, i)
  }

  /** A confirmed checkpoint of just this selection, which then decides what is admitted. */
  predicate Confirmed(files: seq<File>, rows: seq<Row>, capacity: Capacity, saved: Saved) {
    saved.Reviewed? && saved.files == files && saved.rows == rows && capacity.validated
  }

  /**
    What a finished review admits, unless a confirmed checkpoint decides: every row is judged against
    the spare room if a reviewed plan is saved, and against the available room if none is; and
    exactly the admitted rows are planned.
   */
  lemma ReviewJudges(files: seq<File>, rows: seq<Row>, capacity: Capacity, saved: Saved, limits: Limits)
    requires |files| == |rows| && !Confirmed(files, rows, capacity, saved)
    ensures var outcome := Review(files, rows, capacity, saved, limits);
            outcome.Done? ==>
              && Judges(rows, outcome.states, if saved.Reviewed? then capacity.spare else capacity.available)
              && Ascending(outcome.eligible) && (forall i: nat :: i in outcome.eligible <==> Admitted(rows, outcome.states, i))
              && (forall i: nat :: i in outcome.eligible ==> i < |files|)
              && Split(outcome.plan, Pick(files, outcome.eligible), limits) && Packed(outcome.plan, limits)
  {
    var outcome := Review(files, rows, capacity, saved, limits);
    if outcome.Done? {
      PassJudges(rows, |rows|, if saved.Reviewed? then capacity.spare else capacity.available);
      EligibleAscends(rows, outcome.states, |rows|);
      PlanSplits(Pick(files, outcome.eligible), limits);
      PlanIsPackedSplit(outcome.plan, Pick(files, outcome.eligible), limits);
    }
  }

  /** Under a confirmed checkpoint the saved rows are admitted, and the others judged by their paths alone. */
  lemma ConfirmedReviewJudges(files: seq<File>, rows: seq<Row>, capacity: Capacity, saved: Saved, limits: Limits, i: nat)
    requires |files| == |rows| && Confirmed(files, rows, capacity, saved) && i < |rows|
    ensures var outcome := Review(files, rows, capacity, saved, limits);
            outcome.Done? ==>
              && |outcome.states| == |rows| && (forall k :: 0 <= k < |saved.eligible| ==> saved.eligible[k] < |rows|)
              && outcome.states[i]
                 == if !Candidate(rows[i]) then rows[i].state
                    else if i in saved.eligible then Valid
                    else if exists k :: 0 <= k < |saved.eligible| && rows[saved.eligible[k]].token == rows[i].token then DuplicateCandidate
                    else OverLimit
  {
    if Complete(rows) && PlanStands(saved, files, rows, limits) {
      FrozenPassJudges(rows, |rows|, capacity.available, saved.eligible, i);
    }
  }

  /** Whoever judges by the rule judges as the pass does, and admits the same rows. */
  lemma JudgesIsPass(rows: seq<Row>, states: seq<State>, room: nat, eligible: seq<nat>)
    requires Judges(rows, states, room)
    requires Ascending(eligible) && forall i: nat :: i in eligible <==> Admitted(rows, states, i)
    ensures states == Admit(rows, |rows|, room, None).states && eligible == Eligible(rows, states, |rows|)
  {
    var pass := Admit(rows, |rows|, room, None).states;
    PassJudges(rows, |rows|, room);
    JudgementsAreUnique(rows, states, pass, room, |rows|);
    assert states[..|rows|] == states && pass[..|rows|] == pass;
    EligibleAscends(rows, states, |rows|);
    AscendingIsUnique(eligible, Eligible(rows, states, |rows|));
  }

  /** A row that leaves the review unfinished: a verdict that needs a path or a size comes without one. */
  predicate Lacking(row: Row) {
    || (row.state in {Valid, NeedsAttention, DuplicateCandidate, OverLimit} && row.token.None?)
    || (row.state == Valid && row.eligible && (row.size.None? || row.size.value <= 0))
  }

  lemma ReviewSteps(files: seq<File>, rows: seq<Row>, capacity: Capacity, saved: Saved, limits: Limits)
    requires |files| == |rows| && Complete(rows)
    ensures var room := if saved.Reviewed? then capacity.spare else capacity.available;
            var eligible := Eligible(rows, Admit(rows, |rows|, room, None).states, |rows|);
            Review(files, rows, capacity, saved, limits).Done? <==>
              if Matches(saved, files, rows) then
                && PlanStands(saved, files, rows, limits)
                && (if capacity.validated then PlanFits(saved.plan, saved.batchIndex, capacity) else eligible == saved.eligible)
              else !(saved.PlanOnly? && saved.batchIndex > 0 && saved.plan != Plan(Pick(files, eligible), limits))
  {
    hide Complete, Admit, Eligible, Plan, PlanFits;
  }

  /**
    When a review is finished and when it stops. `states` and `eligible` are what the rule makes of
    the rows in the room that the saved checkpoint leaves. A selection that the checkpoint matches
    must still be its plan: every saved row a candidate, no path twice, the same batches; and if the
    server confirms the session, the rest of the plan must fit, else just the saved rows must be
    admitted again. A plan of the older format in its second batch or later must be the plan anew.
   */
  lemma ReviewDoneExactly(files: seq<File>, rows: seq<Row>, capacity: Capacity, saved: Saved, limits: Limits,
                          states: seq<State>, eligible: seq<nat>)
    requires |files| == |rows| && (forall i :: 0 <= i < |rows| ==> !Lacking(rows[i]))
    requires Judges(rows, states, if saved.Reviewed? then capacity.spare else capacity.available)
    requires Ascending(eligible) && (forall i: nat :: i in eligible <==> Admitted(rows, states, i))
             && forall k :: 0 <= k < |eligible| ==> eligible[k] < |files|
    ensures Review(files, rows, capacity, saved, limits).Done? <==>
              if saved.Reviewed? && saved.files == files && saved.rows == rows then
                && (forall k :: 0 <= k < |saved.eligible| ==> saved.eligible[k] < |rows| && Candidate(rows[saved.eligible[k]]))
                && (forall j, k :: 0 <= j < k < |saved.eligible| ==> rows[saved.eligible[j]].token != rows[saved.eligible[k]].token)
                && Plan(Pick(files, saved.eligible), limits) == saved.plan
                && |saved.plan| == saved.count && saved.batchIndex < saved.count
                && (if capacity.validated then
                      var later := Bytes(Flatten(saved.plan[saved.batchIndex + 1..]));
                      && capacity.remaining <= Bytes(saved.plan[saved.batchIndex])
                      && later <= capacity.spare && capacity.remaining + later <= capacity.available
                    else eligible == saved.eligible)
              else !(saved.PlanOnly? && saved.batchIndex > 0 && saved.plan != Plan(Pick(files, eligible), limits))
  {
    assert Complete(rows);
    JudgesIsPass(rows, states, if saved.Reviewed? then capacity.spare else capacity.available, eligible);
    hide Complete, Judges, Admit, Eligible, Admitted, Plan, Bytes, Flatten, Ascending, Candidate, Lacking, Review;
    ReviewSteps(files, rows, capacity, saved, limits);
  }

  /** One row that lacks what its verdict needs stops the review. */
  lemma LackingStops(files: seq<File>, rows: seq<Row>, capacity: Capacity, saved: Saved, limits: Limits, i: nat)
    requires |files| == |rows| && i < |rows| && Lacking(rows[i])
    ensures Review(files, rows, capacity, saved, limits).Stopped?
  {
  }

  predicate Sized(row: Row) { row.token.Some? && row.size.Some? && row.size.value > 0 }

  /** The files of an accepted review are eligible rows, in order, and no path appears twice. */
  lemma ReviewAdmitsOnce(files: seq<File>, rows: seq<Row>, capacity: Capacity, limits: Limits)
    requires |files| == |rows|
    ensures var outcome := Review(files, rows, capacity, Nothing, limits);
            outcome.Done? ==>
              && Ascending(outcome.eligible)
              && (forall i :: i in outcome.eligible ==> i < |rows| && Sized(rows[i]))
              && Flatten(outcome.plan) == Pick(files, outcome.eligible)
              && forall i, j :: i in outcome.eligible && j in outcome.eligible && i != j ==> rows[i].token != rows[j].token
  {
    var outcome := Review(files, rows, capacity, Nothing, limits);
    if outcome.Done? {
      PassJudges(rows, |rows|, capacity.available);
      AdmissionIsSafe(rows, outcome.states, capacity.available, |rows|);
      EligibleAscends(rows, outcome.states, |rows|);
      PlanSplits(Pick(files, outcome.eligible), limits);
      forall i, j | i in outcome.eligible && j in outcome.eligible && i != j
        ensures rows[i].token != rows[j].token
      {
        assert Admitted(rows, outcome.states, i) && Admitted(rows, outcome.states, j);
      }
    }
  }

  /** Without a checkpoint, the files of an accepted review fit the available room. */
  lemma FirstReviewFits(files: seq<File>, rows: seq<Row>, capacity: Capacity, limits: Limits)
    requires |files| == |rows|
    requires Echoed(files, rows)
    ensures var outcome := Review(files, rows, capacity, Nothing, limits);
            outcome.Done? ==>
              && (forall k :: 0 <= k < |outcome.eligible| ==> outcome.eligible[k] < |files|)
              && Bytes(Pick(files, outcome.eligible)) <= capacity.available
  {
    ReviewFits(files, rows, capacity, Nothing, limits);
    ReviewAdmitsOnce(files, rows, capacity, limits);
  }

  /**
    With no fresh room at all, a confirmed checkpoint still passes review exactly when its session
    is the plan's last and still holds the reservation that the rest of that session needs.
   */
  lemma FullMatterResume(files: seq<File>, rows: seq<Row>, capacity: Capacity, saved: Saved, limits: Limits)
    requires |files| == |rows| && Complete(rows) && Matches(saved, files, rows)
    requires Echoed(files, rows)
    requires PlanStands(saved, files, rows, limits) && capacity.validated && capacity.spare == 0
    ensures Review(files, rows, capacity, saved, limits).Done? <==>
              && saved.batchIndex + 1 == |saved.plan|
              && capacity.remaining <= Bytes(saved.plan[saved.batchIndex])
              && capacity.remaining <= capacity.available
  {
    var picked := Pick(files, saved.eligible);
    PlanSplits(picked, limits);
    var later := saved.plan[saved.batchIndex + 1..];
    if later != [] {
      assert later[0] == saved.plan[saved.batchIndex + 1];
      BatchOfPositive(saved.plan, picked, saved.batchIndex + 1);
      BytesAppend(later[0], Flatten(later[1..]));
    }
  }

  lemma {:induction false} BatchOfPositive(plan: seq<seq<File>>, files: seq<File>, k: nat)
    requires Flatten(plan) == files && k < |plan| && plan[k] != []
    requires forall i :: 0 <= i < |files| ==> files[i].size > 0
    ensures Bytes(plan[k]) > 0
  {
    if k == 0 {
      assert plan[0][0] == files[0];
    } else {
      var rest := Flatten(plan[1..]);
      assert forall i :: 0 <= i < |rest| ==> rest[i] == files[|plan[0]| + i];
      BatchOfPositive(plan[1..], rest, k - 1);
    }
  }
}
