/** Which files the sessions of a matter hold: every path once, every receipt row once, every reviewed plan whole. */
module UploadAdmission {
  import opened Sequences
  import opened UploadLedger
  import opened UploadQuota
  import opened Wrappers
  import Planner = UploadPlanner
  import Review = SelectionReview

  // ---- paths and receipt rows -----------------------------------------------------------------

  predicate Clash(session: Session, i: nat, other: Session, j: nat)
    requires i < |session.items| && j < |other.items|
  {
    && session.collection == other.collection && session.items[i].path == other.items[j].path
    && session.items[i].phase != Cancelled && other.items[j].phase != Cancelled
  }

  predicate SharesRow(item: Item, other: Item) { item.row.Some? && item.row == other.row }

  /** Two different places never hold the same live path of a collection, nor the same receipt row. */
  ghost predicate NoneTwice(l: Ledger) {
    forall s: nat, i: nat, t: nat, j: nat :: At(l, s, i) && At(l, t, j) && (s, i) != (t, j) ==>
      !Clash(l.sessions[s], i, l.sessions[t], j) && !SharesRow(l.sessions[s].items[i], l.sessions[t].items[j])
  }

  predicate RowFits(l: Ledger, owner: nat, item: Item) {
    item.row.Some? ==> item.row.value < |l.receipt| && l.receipt[item.row.value] == Row(owner, item.path, item.size)
  }

  /** An item that names a row carries that row's recorded path and size, in the hands of who recorded it. */
  ghost predicate AsRecorded(l: Ledger) {
    forall s: nat, i: nat :: At(l, s, i) ==> RowFits(l, l.sessions[s].owner, l.sessions[s].items[i])
  }

  ghost predicate Orderly(l: Ledger) { SoundLedger(l) && NoneTwice(l) && AsRecorded(l) }

  lemma NewSessionClashes(l: Ledger, request: Request, seen: nat, s: nat, i: nat, j: nat)
    requires SoundLedger(l) && Answer(l, request, seen) == Some(|l.sessions|)
    requires At(l, s, i) && j < |request.entries|
    ensures var after := Create(l, request, seen);
            !Clash(l.sessions[s], i, after.sessions[|l.sessions|], j)
  {
    assert SoundSession(l.sessions[s]);
    if request.collection.Some? {
      assert !Repeats(l.sessions[s], request.collection.value, request.entries[j].path);
    }
  }

  lemma NewSessionRows(l: Ledger, request: Request, seen: nat, s: nat, i: nat, j: nat)
    requires Answer(l, request, seen) == Some(|l.sessions|)
    requires At(l, s, i) && j < |request.entries|
    ensures request.entries[j].row.Some? ==> l.sessions[s].items[i].row != request.entries[j].row
  {
    var row := request.entries[j].row;
    if row.Some? {
      assert HolderOf(l.sessions, row.value).None?;
      assert !Holds(l.sessions[s], row.value);
    }
  }

  lemma NewPairIsApart(l: Ledger, request: Request, seen: nat, s: nat, i: nat, t: nat, j: nat)
    requires SoundLedger(l) && Answer(l, request, seen) == Some(|l.sessions|) && NoneTwice(l)
    requires var after := Create(l, request, seen); At(after, s, i) && At(after, t, j) && (s, i) != (t, j)
    ensures var after := Create(l, request, seen);
            !Clash(after.sessions[s], i, after.sessions[t], j) && !SharesRow(after.sessions[s].items[i], after.sessions[t].items[j])
  {
    var n := |l.sessions|;
    if s < n && t < n {
      assert At(l, s, i) && At(l, t, j);
    } else if s < n {
      NewSessionClashes(l, request, seen, s, i, j);
      NewSessionRows(l, request, seen, s, i, j);
    } else if t < n {
      NewSessionClashes(l, request, seen, t, j, i);
      NewSessionRows(l, request, seen, t, j, i);
    }
  }

  lemma CreateIsOrderly(l: Ledger, request: Request, seen: nat)
    requires Orderly(l)
    ensures Orderly(Create(l, request, seen))
  {
    var after := Create(l, request, seen);
    CreateIsSound(l, request, seen);
    if Answer(l, request, seen) == Some(|l.sessions|) {
      forall s: nat, i: nat, t: nat, j: nat | At(after, s, i) && At(after, t, j) && (s, i) != (t, j)
        ensures !Clash(after.sessions[s], i, after.sessions[t], j)
        ensures !SharesRow(after.sessions[s].items[i], after.sessions[t].items[j])
      {
        NewPairIsApart(l, request, seen, s, i, t, j);
      }
      forall s: nat, i: nat | At(after, s, i) ensures RowFits(after, after.sessions[s].owner, after.sessions[s].items[i]) {
        if s < |l.sessions| {
          assert At(l, s, i) && RowFits(l, l.sessions[s].owner, l.sessions[s].items[i]);
        }
      }
    }
  }

  /** No row changes except from none, and nothing that was live or cancelled is renamed or revived. */
  ghost predicate SameRows(l: Ledger, after: Ledger) {
    && after.receipt == l.receipt && |after.sessions| == |l.sessions|
    && forall s: nat, i: nat :: At(after, s, i) ==>
         At(l, s, i) && Evolves(l.sessions[s].items[i], after.sessions[s].items[i])
         && after.sessions[s].collection == l.sessions[s].collection && after.sessions[s].owner == l.sessions[s].owner
         && after.sessions[s].items[i].row == l.sessions[s].items[i].row
  }

  lemma SameRowsAreOrderly(l: Ledger, after: Ledger)
    requires Orderly(l) && SoundLedger(after) && SameRows(l, after)
    ensures Orderly(after)
  {
    hide SoundLedger;
    forall s: nat, i: nat, t: nat, j: nat | At(after, s, i) && At(after, t, j) && (s, i) != (t, j)
      ensures !Clash(after.sessions[s], i, after.sessions[t], j)
      ensures !SharesRow(after.sessions[s].items[i], after.sessions[t].items[j])
    {
      assert !Clash(l.sessions[s], i, l.sessions[t], j);
      assert !SharesRow(l.sessions[s].items[i], l.sessions[t].items[j]);
    }
    forall s: nat, i: nat | At(after, s, i) ensures RowFits(after, after.sessions[s].owner, after.sessions[s].items[i]) {
      assert RowFits(l, l.sessions[s].owner, l.sessions[s].items[i]);
    }
  }

  lemma StepKeepsRow(l: Ledger, step: Step, s: nat, i: nat)
    requires At(l, s, i) && !step.Insert? && !step.Adopt? && At(Apply(l, step), s, i)
    ensures Apply(l, step).sessions[s].items[i].row == l.sessions[s].items[i].row
  {
    hide Unlocked, Total, Scanned, Restatus, PendingBytes;
    match step
    case Enter(request) =>
    case Tally =>
    case Leave =>
    case On(t, k, act) =>
      if At(l, t, k) { ActKeepsRow(l.sessions[t], k, act, Unlocked(l), l.guard, i); }
    case Allow(t) =>
    case Cancel(t) =>
  }

  lemma ActKeepsRow(session: Session, k: nat, act: Act, free: bool, guard: Guard, i: nat)
    requires k < |session.items|
    ensures i < |session.items| ==> Acted(session, k, act, free, guard).items[i].row == session.items[i].row
  {
    hide Restatus;
  }

  lemma StepSameRows(l: Ledger, step: Step)
    requires SoundLedger(l) && !step.Insert? && !step.Adopt?
    ensures SameRows(l, Apply(l, step))
  {
    var after := Apply(l, step);
    StepIsSound(l, step);
    forall s: nat, i: nat | At(after, s, i)
      ensures At(l, s, i) && Evolves(l.sessions[s].items[i], after.sessions[s].items[i])
      ensures after.sessions[s].collection == l.sessions[s].collection && after.sessions[s].owner == l.sessions[s].owner
      ensures after.sessions[s].items[i].row == l.sessions[s].items[i].row
    {
      hide Apply, Evolves, SoundLedger, Footprint;
      assert SessionEvolves(l.sessions[s], after.sessions[s]);
      StepKeepsRow(l, step, s, i);
    }
  }

  // ---- taking over rows -----------------------------------------------------------------------

  /** An item of a session taken over has the row that the receipt lists for its path. */
  lemma BoundRow(l: Ledger, s: nat, actor: nat, rows: map<string, nat>, t: nat, i: nat)
    requires Adoptable(l, s, actor, rows) && At(l, t, i) && Beside(l, s, t)
    ensures var item, after := l.sessions[t].items[i], Adopted(l, s, rows).sessions[t].items[i];
            && after == BindRow(item, rows) && item.path in rows && after.row == Some(rows[item.path])
            && l.sessions[t].owner == actor
            && rows[item.path] < |l.receipt| && l.receipt[rows[item.path]] == Row(actor, item.path, item.size)
            && (item.row.None? ==> forall u :: 0 <= u < |l.sessions| ==> !Holds(l.sessions[u], rows[item.path]))
  {
    assert ListedBy(l, l.sessions[t].items[i], actor, rows);
  }

  lemma AdoptedPairIsApart(l: Ledger, s: nat, actor: nat, rows: map<string, nat>, t: nat, i: nat, u: nat, j: nat)
    requires Orderly(l) && Adoptable(l, s, actor, rows) && At(l, t, i) && At(l, u, j) && (t, i) != (u, j)
    ensures var after := Adopted(l, s, rows);
            !SharesRow(after.sessions[t].items[i], after.sessions[u].items[j])
  {
    var after := Adopted(l, s, rows);
    assert !SharesRow(l.sessions[t].items[i], l.sessions[u].items[j]);
    if Beside(l, s, t) && Beside(l, s, u) {
      BoundRow(l, s, actor, rows, t, i);
      BoundRow(l, s, actor, rows, u, j);
      assert DifferentPaths(l.sessions[t].items, l.sessions[u].items, t == u);
    } else if Beside(l, s, t) {
      BoundRow(l, s, actor, rows, t, i);
      NotHeld(l, u, j, rows[l.sessions[t].items[i].path]);
    } else if Beside(l, s, u) {
      BoundRow(l, s, actor, rows, u, j);
      NotHeld(l, t, i, rows[l.sessions[u].items[j].path]);
    }
  }

  lemma NotHeld(l: Ledger, s: nat, i: nat, row: nat)
    requires At(l, s, i)
    ensures !Holds(l.sessions[s], row) ==> l.sessions[s].items[i].row != Some(row)
  {
  }

  lemma AdoptIsOrderly(l: Ledger, s: nat, actor: nat, rows: map<string, nat>)
    requires Orderly(l) && Adoptable(l, s, actor, rows)
    ensures Orderly(Adopted(l, s, rows))
  {
    var after := Adopted(l, s, rows);
    AdoptKeeps(l, s, rows);
    forall t: nat, i: nat, u: nat, j: nat | At(after, t, i) && At(after, u, j) && (t, i) != (u, j)
      ensures !Clash(after.sessions[t], i, after.sessions[u], j)
      ensures !SharesRow(after.sessions[t].items[i], after.sessions[u].items[j])
    {
      assert At(l, t, i) && At(l, u, j);
      assert !Clash(l.sessions[t], i, l.sessions[u], j);
      AdoptedPairIsApart(l, s, actor, rows, t, i, u, j);
    }
    forall t: nat, i: nat | At(after, t, i) ensures RowFits(after, after.sessions[t].owner, after.sessions[t].items[i]) {
      assert At(l, t, i) && RowFits(l, l.sessions[t].owner, l.sessions[t].items[i]);
      if Beside(l, s, t) {
        BoundRow(l, s, actor, rows, t, i);
      }
    }
  }

  /** No item of the matter has this receipt row. */
  ghost predicate Unspent(l: Ledger, row: nat) {
    forall t: nat, i: nat :: At(l, t, i) ==> l.sessions[t].items[i].row != Some(row)
  }

  /** The receipt lists this item, in its owner's hands, under its own row or an unspent one. */
  ghost predicate MayBind(l: Ledger, t: nat, i: nat, actor: nat, rows: map<string, nat>)
    requires At(l, t, i)
  {
    var item := l.sessions[t].items[i];
    && l.sessions[t].owner == actor && item.path in rows && rows[item.path] < |l.receipt|
    && l.receipt[rows[item.path]] == Row(actor, item.path, item.size)
    && (item.row == Some(rows[item.path]) || (item.row.None? && Unspent(l, rows[item.path])))
  }

  ghost predicate OnePathEach(l: Ledger, collection: nat) {
    forall t: nat, i: nat, u: nat, j: nat ::
      (At(l, t, i) && At(l, u, j) && (t, i) != (u, j)
       && l.sessions[t].collection == collection == l.sessions[u].collection) ==>
        l.sessions[t].items[i].path != l.sessions[u].items[j].path
  }

  lemma UnspentExactly(l: Ledger, row: nat)
    ensures Unspent(l, row) <==> forall t :: 0 <= t < |l.sessions| ==> !Holds(l.sessions[t], row)
  {
    if !Unspent(l, row) {
      var t: nat, i: nat :| At(l, t, i) && l.sessions[t].items[i].row == Some(row);
      assert Holds(l.sessions[t], row);
    }
    if t :| 0 <= t < |l.sessions| && Holds(l.sessions[t], row) {
      var i :| 0 <= i < |l.sessions[t].items| && l.sessions[t].items[i].row == Some(row);
      assert At(l, t, i);
    }
  }

  lemma ListedExactly(l: Ledger, t: nat, i: nat, actor: nat, rows: map<string, nat>)
    requires At(l, t, i)
    ensures MayBind(l, t, i, actor, rows) <==> l.sessions[t].owner == actor && ListedBy(l, l.sessions[t].items[i], actor, rows)
  {
    var item := l.sessions[t].items[i];
    if item.path in rows {
      UnspentExactly(l, rows[item.path]);
      hide Unspent;
    }
  }

  lemma PathsExactly(l: Ledger, s: nat)
    requires s < |l.sessions|
    ensures OnePathEach(l, l.sessions[s].collection) <==>
              forall t, u :: 0 <= t < |l.sessions| && 0 <= u < |l.sessions| && Beside(l, s, t) && Beside(l, s, u) ==>
                DifferentPaths(l.sessions[t].items, l.sessions[u].items, t == u)
  {
    if OnePathEach(l, l.sessions[s].collection) {
      forall t, u | 0 <= t < |l.sessions| && 0 <= u < |l.sessions| && Beside(l, s, t) && Beside(l, s, u)
        ensures DifferentPaths(l.sessions[t].items, l.sessions[u].items, t == u)
      {
        forall i, j | 0 <= i < |l.sessions[t].items| && 0 <= j < |l.sessions[u].items| && !(t == u && i == j)
          ensures l.sessions[t].items[i].path != l.sessions[u].items[j].path
        {
          assert At(l, t, i) && At(l, u, j);
        }
      }
    } else {
      var t: nat, i: nat, u: nat, j: nat :| At(l, t, i) && At(l, u, j) && (t, i) != (u, j)
        && l.sessions[t].collection == l.sessions[s].collection == l.sessions[u].collection
        && l.sessions[t].items[i].path == l.sessions[u].items[j].path;
      assert Beside(l, s, t) && Beside(l, s, u);
      assert !DifferentPaths(l.sessions[t].items, l.sessions[u].items, t == u);
    }
  }

  /**
    When a session can be taken over: the receipt lists every item of its collection, in the same
    hands, under its own row or one that no item anywhere has, and no path occurs twice.
   */
  lemma TakeOverExactly(l: Ledger, s: nat, actor: nat, rows: map<string, nat>)
    requires SoundLedger(l) && s < |l.sessions|
    ensures Adoptable(l, s, actor, rows) <==>
              && (forall t: nat, i: nat :: At(l, t, i) && l.sessions[t].collection == l.sessions[s].collection ==>
                   MayBind(l, t, i, actor, rows))
              && OnePathEach(l, l.sessions[s].collection)
  {
    PathsExactly(l, s);
    forall t: nat, i: nat | At(l, t, i)
      ensures MayBind(l, t, i, actor, rows) <==> l.sessions[t].owner == actor && ListedBy(l, l.sessions[t].items[i], actor, rows)
    {
      ListedExactly(l, t, i, actor, rows);
    }
    hide MayBind, OnePathEach, DifferentPaths, ListedBy, Sound;
    forall t | 0 <= t < |l.sessions| && Beside(l, s, t) ensures At(l, t, 0) {
      assert SoundSession(l.sessions[t]);
    }
  }

  /** What taking over does: just the items of the collection that have no row get the one listed for them. */
  lemma TakenOver(l: Ledger, s: nat, actor: nat, rows: map<string, nat>, t: nat, i: nat)
    requires Adoptable(l, s, actor, rows) && At(l, t, i)
    ensures var before, after := l.sessions[t].items[i], Apply(l, Adopt(s, actor, rows));
            && At(after, t, i) && after == l.(sessions := after.sessions)
            && (if l.sessions[t].collection == l.sessions[s].collection
                then before.path in rows && after.sessions[t].items[i] == before.(row := Some(rows[before.path]))
                else after.sessions[t].items[i] == before)
  {
    if Beside(l, s, t) {
      BoundRow(l, s, actor, rows, t, i);
    }
    hide Adoptable, ListedBy, DifferentPaths;
  }

  lemma InsertIsOrderly(l: Ledger)
    requires Orderly(l)
    ensures Orderly(Apply(l, Insert)) && Later(l, Apply(l, Insert))
  {
    SameLedger(l);
    InsertIsSound(l);
    if l.guard.Summed? {
      var seen := l.guard.used + l.guard.reserved;
      CreateIsOrderly(l, l.guard.request, seen);
      hide Orderly, Create;
      GuardIsNoRow(Create(l, l.guard.request, seen), Closed);
    }
  }

  lemma OtherStepIsOrderly(l: Ledger, step: Step)
    requires Orderly(l) && !step.Insert?
    ensures Orderly(Apply(l, step)) && Later(l, Apply(l, step))
  {
    SameLedger(l);
    StepIsSound(l, step);
    if step.Adopt? {
      if Adoptable(l, step.session, step.actor, step.rows) {
        AdoptIsOrderly(l, step.session, step.actor, step.rows);
      }
      hide Orderly, Adoptable, Adopted;
    } else {
      hide Apply, NoneTwice, AsRecorded;
      StepSameRows(l, step);
      SameRowsAreOrderly(l, Apply(l, step));
    }
  }

  lemma StepIsOrderly(l: Ledger, step: Step)
    requires Orderly(l)
    ensures Orderly(Apply(l, step)) && Later(l, Apply(l, step))
  {
    hide Orderly, Apply;
    if step.Insert? {
      InsertIsOrderly(l);
    } else {
      OtherStepIsOrderly(l, step);
    }
  }

  lemma GuardIsNoRow(l: Ledger, guard: Guard)
    requires Orderly(l)
    ensures Orderly(l.(guard := guard))
  {
    GuardKeeps(l, guard);
    SameEvolves(l, guard);
    SameRowsAreOrderly(l, l.(guard := guard));
  }

  lemma SameEvolves(l: Ledger, guard: Guard)
    ensures SameRows(l, l.(guard := guard))
  {
  }

  /** No run ever holds one path of a collection, or one receipt row, in two places. */
  lemma {:induction false} RunHoldsNothingTwice(l: Ledger, steps: seq<Step>)
    requires Orderly(l)
    ensures Orderly(Run(l, steps)) && Later(l, Run(l, steps))
    decreases |steps|
  {
    SameLedger(l);
    if steps != [] {
      StepIsOrderly(l, steps[0]);
      hide Orderly, Apply, Later;
      RunHoldsNothingTwice(Apply(l, steps[0]), steps[1..]);
      LaterIsTransitive(l, Apply(l, steps[0]), Run(l, steps));
    }
  }

  // ---- lost replies ---------------------------------------------------------------------------

  predicate SameFiles(items: seq<Item>, entries: seq<Entry>) {
    && |items| == |entries|
    && forall i :: 0 <= i < |items| ==>
         items[i].path == entries[i].path && items[i].size == entries[i].size && items[i].row == entries[i].row
  }

  /** Whatever session answers a request holds exactly the requested files, for the same person, and is not cancelled. */
  lemma AnswerHoldsFiles(l: Ledger, request: Request, seen: nat)
    requires AsRecorded(l) && Answer(l, request, seen).Some?
    ensures var s, after := Answer(l, request, seen).value, Create(l, request, seen);
            && s < |after.sessions|
            && SameFiles(after.sessions[s].items, request.entries)
            && after.sessions[s].owner == request.actor
            && after.sessions[s].status != Released
  {
    var s, entries := Answer(l, request, seen).value, request.entries;
    if s < |l.sessions| {
      var items := l.sessions[s].items;
      assert |Rows(items)| == |EntryRows(entries)|;
      forall i | 0 <= i < |items|
        ensures items[i].path == entries[i].path && items[i].size == entries[i].size && items[i].row == entries[i].row
      {
        assert At(l, s, i) && RowFits(l, l.sessions[s].owner, items[i]);
        assert Rows(items)[i] == EntryRows(entries)[i] && Recorded(l.receipt, request.actor, entries[i]);
      }
    }
  }

  predicate FromReceipt(entries: seq<Entry>) {
    entries != [] && forall i :: 0 <= i < |entries| ==> entries[i].row.Some?
  }

  /** The receipt records every entry, each under a row of its own, in these hands. */
  predicate AllRecorded(l: Ledger, actor: nat, entries: seq<Entry>) {
    && (forall i :: 0 <= i < |entries| ==>
         entries[i].row.Some? && entries[i].row.value < |l.receipt|
         && l.receipt[entries[i].row.value].owner == actor && l.receipt[entries[i].row.value].path == entries[i].path
         && l.receipt[entries[i].row.value].size == entries[i].size)
    && forall i, j :: 0 <= i < j < |entries| ==> entries[i].row != entries[j].row
  }

  /** This session took exactly these rows, in this order, and its owner may still have it. */
  predicate HasRows(l: Ledger, s: nat, actor: nat, entries: seq<Entry>) {
    && s < |l.sessions| && l.sessions[s].owner == actor && l.sessions[s].status != Released
    && |l.sessions[s].items| == |entries| && forall i :: 0 <= i < |entries| ==> l.sessions[s].items[i].row == entries[i].row
  }

  lemma SameRowSeq(items: seq<Item>, entries: seq<Entry>)
    ensures Rows(items) == EntryRows(entries) <==>
              |items| == |entries| && forall i :: 0 <= i < |entries| ==> items[i].row == entries[i].row
  {
    if Rows(items) == EntryRows(entries) {
      assert |Rows(items)| == |EntryRows(entries)|;
      forall i | 0 <= i < |entries| ensures items[i].row == entries[i].row {
        assert Rows(items)[i] == EntryRows(entries)[i];
      }
    }
  }

  lemma HolderIsUnique(l: Ledger, s: nat, i: nat, row: nat)
    requires NoneTwice(l) && At(l, s, i) && l.sessions[s].items[i].row == Some(row)
    ensures HolderOf(l.sessions, row) == Some(s)
  {
    assert Holds(l.sessions[s], row);
    var t := HolderOf(l.sessions, row).value;
    var j :| 0 <= j < |l.sessions[t].items| && l.sessions[t].items[j].row == Some(row);
    assert At(l, t, j) && SharesRow(l.sessions[s].items[i], l.sessions[t].items[j]);
  }

  /**
    What the receipt says of a request: it is fresh if it names no rows, or rows that it records and
    that nobody has; it is answered by a session if that took exactly these rows; else it is refused.
   */
  lemma CheckExactly(l: Ledger, actor: nat, entries: seq<Entry>)
    requires NoneTwice(l)
    ensures var check := CheckReceipt(l, actor, entries);
            var rowless := forall i :: 0 <= i < |entries| ==> entries[i].row.None?;
            && (check.Fresh? <==>
                 rowless || (AllRecorded(l, actor, entries)
                             && forall i :: 0 <= i < |entries| ==> Unspent(l, entries[i].row.value)))
            && (forall s: nat :: check == Existing(s) <==> !rowless && AllRecorded(l, actor, entries) && HasRows(l, s, actor, entries))
  {
    var rowless := forall i :: 0 <= i < |entries| ==> entries[i].row.None?;
    if !rowless && AllRecorded(l, actor, entries) {
      RecordedCheck(l, actor, entries);
    } else {
      hide HasRows, Unspent, HolderOf, Rows, EntryRows;
      assert !rowless ==> CheckReceipt(l, actor, entries) == Invalid;
    }
  }

  lemma RecordedCheck(l: Ledger, actor: nat, entries: seq<Entry>)
    requires NoneTwice(l) && entries != [] && AllRecorded(l, actor, entries)
    ensures var check := CheckReceipt(l, actor, entries);
            && (check.Fresh? <==> forall i :: 0 <= i < |entries| ==> Unspent(l, entries[i].row.value))
            && (forall s: nat :: check == Existing(s) <==> HasRows(l, s, actor, entries))
  {
    forall i | 0 <= i < |entries|
      ensures HolderOf(l.sessions, entries[i].row.value).None? <==> Unspent(l, entries[i].row.value)
    {
      UnspentExactly(l, entries[i].row.value);
    }
    forall s: nat | HasRows(l, s, actor, entries) ensures HolderOf(l.sessions, entries[0].row.value) == Some(s) {
      assert At(l, s, 0);
      HolderIsUnique(l, s, 0, entries[0].row.value);
    }
    RecordedCases(l, actor, entries);
    hide NoneTwice, HolderOf, Unspent, CheckReceipt, AllRecorded;
    forall s: nat ensures HasRows(l, s, actor, entries) <==>
                            HasRows(l, s, actor, entries) && HolderOf(l.sessions, entries[0].row.value) == Some(s) {
    }
  }

  /** The branches of the receipt's check, for entries that are all recorded. */
  lemma RecordedCases(l: Ledger, actor: nat, entries: seq<Entry>)
    requires entries != [] && AllRecorded(l, actor, entries)
    ensures var check, holder := CheckReceipt(l, actor, entries), HolderOf(l.sessions, entries[0].row.value);
            && (check.Fresh? <==> forall i :: 0 <= i < |entries| ==> HolderOf(l.sessions, entries[i].row.value).None?)
            && (forall s: nat :: check == Existing(s) <==> holder == Some(s) && HasRows(l, s, actor, entries))
  {
    var holder := HolderOf(l.sessions, entries[0].row.value);
    if holder.Some? {
      SameRowSeq(l.sessions[holder.value].items, entries);
    }
    assert forall i :: 0 <= i < |entries| ==> Recorded(l.receipt, actor, entries[i]);
    assert entries[0].row.Some?;
    hide HolderOf, Rows, EntryRows, Recorded;
  }

  /** Why a new session is refused: there is no other reason. */
  ghost predicate Objectionable(l: Ledger, request: Request, seen: nat) {
    var entries := request.entries;
    || entries == []
    || (exists i :: 0 <= i < |entries| && entries[i].size <= 0)
    || (exists i, j :: 0 <= i < j < |entries| && entries[i].path == entries[j].path)
    || (request.collection.Some?
        && (request.collection.value >= |l.collections| || l.collections[request.collection.value] != request.actor
            || exists i, s: nat, k: nat :: 0 <= i < |entries| && At(l, s, k) && l.sessions[s].collection == request.collection.value
                 && l.sessions[s].items[k].phase != Cancelled && l.sessions[s].items[k].path == entries[i].path))
    || seen + Requested(entries) > l.quota
  }

  lemma RepeatsExactly(session: Session, collection: nat, path: string)
    ensures Repeats(session, collection, path) <==>
              exists k :: 0 <= k < |session.items| && session.collection == collection
                          && session.items[k].phase != Cancelled && session.items[k].path == path
  {
  }

  /** A request that the receipt finds fresh opens a session exactly if nothing is to be said against it. */
  lemma RefusedExactly(l: Ledger, request: Request, seen: nat)
    requires CheckReceipt(l, request.actor, request.entries).Fresh?
    ensures Answer(l, request, seen) == if Objectionable(l, request, seen) then None else Some(|l.sessions|)
  {
    hide CheckReceipt;
    if request.collection.Some? {
      var c, entries := request.collection.value, request.entries;
      if i, s: nat, k: nat :| (0 <= i < |entries| && At(l, s, k) && l.sessions[s].collection == c
                               && l.sessions[s].items[k].phase != Cancelled && l.sessions[s].items[k].path == entries[i].path) {
        assert Repeats(l.sessions[s], c, entries[i].path);
      }
      if i, s :| 0 <= i < |entries| && 0 <= s < |l.sessions| && Repeats(l.sessions[s], c, entries[i].path) {
        var k :| 0 <= k < |l.sessions[s].items| && l.sessions[s].items[k].phase != Cancelled
                 && l.sessions[s].items[k].path == entries[i].path;
        assert At(l, s, k);
      }
    }
  }

  /** Every session is in a collection of its own owner. */
  ghost predicate InOwnHands(l: Ledger) {
    forall s :: 0 <= s < |l.sessions| ==>
      l.sessions[s].collection < |l.collections| && l.collections[l.sessions[s].collection] == l.sessions[s].owner
  }

  /** No run puts one person's session into another's collection. */
  lemma {:induction false} RunStaysInOwnHands(l: Ledger, steps: seq<Step>)
    requires Orderly(l) && InOwnHands(l)
    ensures InOwnHands(Run(l, steps))
    decreases |steps|
  {
    if steps != [] {
      StepIsOrderly(l, steps[0]);
      StepStaysInOwnHands(l, steps[0]);
      hide Apply, Orderly, InOwnHands;
      RunStaysInOwnHands(Apply(l, steps[0]), steps[1..]);
    }
  }

  lemma StepStaysInOwnHands(l: Ledger, step: Step)
    requires Orderly(l) && InOwnHands(l)
    ensures InOwnHands(Apply(l, step))
  {
    var after := Apply(l, step);
    StepIsOrderly(l, step);
    if !step.Insert? {
      StepIsSound(l, step);
    }
    hide Orderly;
    forall s | 0 <= s < |after.sessions|
      ensures after.sessions[s].collection < |after.collections|
              && after.collections[after.sessions[s].collection] == after.sessions[s].owner
    {
      if s < |l.sessions| {
        assert SessionEvolves(l.sessions[s], after.sessions[s]);
      } else {
        hide CheckReceipt;
      }
    }
  }

  /** The rows of a session bind their holder: repeating the request cannot open another session. */
  lemma RetryFindsSession(l: Ledger, s: nat, request: Request, seen: nat)
    requires NoneTwice(l) && s < |l.sessions| && SameFiles(l.sessions[s].items, request.entries) && FromReceipt(request.entries)
    ensures Create(l, request, seen) == l
    ensures Answer(l, request, seen).Some? ==> Answer(l, request, seen).value == s
  {
    HolderIsUnique(l, s, 0, request.entries[0].row.value);
  }

  /** The files and rows of a session made from a receipt never change. */
  lemma FilesStay(l: Ledger, after: Ledger, s: nat, entries: seq<Entry>)
    requires Later(l, after) && s < |l.sessions| && SameFiles(l.sessions[s].items, entries) && FromReceipt(entries)
    ensures SameFiles(after.sessions[s].items, entries)
  {
    assert SessionEvolves(l.sessions[s], after.sessions[s]);
    forall i | 0 <= i < |entries|
      ensures var item := after.sessions[s].items[i];
              item.path == entries[i].path && item.size == entries[i].size && item.row == entries[i].row
    {
      assert Evolves(l.sessions[s].items[i], after.sessions[s].items[i]);
    }
  }

  /**
    Exactly once: after a receipt's batch has been answered, whatever runs, however often the
    request is repeated and whatever its guards see, it is refused or answered with the same
    session, and opens nothing.
   */
  lemma RetriedRequestOpensNothing(l: Ledger, request: Request, seen: nat, steps: seq<Step>, again: Request, later: nat)
    requires Orderly(l) && FromReceipt(request.entries) && Answer(l, request, seen).Some?
    requires again.entries == request.entries
    ensures var end := Run(Create(l, request, seen), steps);
            && Create(end, again, later) == end
            && (Answer(end, again, later).Some? ==> Answer(end, again, later) == Answer(l, request, seen))
  {
    var s, after := Answer(l, request, seen).value, Create(l, request, seen);
    AnswerHoldsFiles(l, request, seen);
    CreateIsOrderly(l, request, seen);
    RunHoldsNothingTwice(after, steps);
    hide Orderly, Create, Answer, Run;
    FilesStay(after, Run(after, steps), s, request.entries);
    OrderlyIsOnce(Run(after, steps));
    RetryFindsSession(Run(after, steps), s, again, later);
  }

  lemma OrderlyIsOnce(l: Ledger)
    requires Orderly(l)
    ensures NoneTwice(l)
  {
  }

  // ---- the capacity report and the plans reviewed against it ----------------------------------

  /** What the session of a checkpoint still reserves, if the server knows it and it is not cancelled. */
  function Credit(l: Ledger, actor: nat, checkpoint: Option<(nat, nat)>): Option<nat> {
    if checkpoint.None? || checkpoint.value.0 >= |l.sessions| then None
    else
      var session := l.sessions[checkpoint.value.0];
      if session.owner != actor || session.status == Released || session.collection != checkpoint.value.1 then None
      else if session.status == Open then Some(Sum(session.items, Reserved)) else Some(0)
  }

  /** The server's capacity report, from what it counted as used and as reserved. */
  function Report(quota: nat, used: nat, total: nat, credit: Option<nat>): Review.Report {
    var remaining := if credit.None? then 0 else if credit.value < total then credit.value else total;
    Review.Report(quota, used, total, Review.Positive(quota - used - total), credit.Some?, remaining,
                  total - remaining, Review.Positive(quota - used - (total - remaining)))
  }

  /**
    The browser accepts every report, whatever was counted; and if what is reserved did not move
    meanwhile, the credit is exactly the session's own reservation.
   */
  lemma ReportIsConsistent(l: Ledger, actor: nat, checkpoint: Option<(nat, nat)>, used: nat, total: nat)
    requires SoundLedger(l) && l.quota > 0
    ensures var report := Report(l.quota, used, total, Credit(l, actor, checkpoint));
            && Review.Consistent(report)
            && (report.validated && total == PendingBytes(l) ==>
                 report.remaining == Sum(l.sessions[checkpoint.value.0].items, Reserved))
  {
    if Credit(l, actor, checkpoint).Some? {
      var s := checkpoint.value.0;
      assert SoundSession(l.sessions[s]);
      SessionWithinTotal(l.sessions, s);
      if l.sessions[s].status != Open {
        NothingReserved(l.sessions[s].items);
      }
    }
  }

  /**
    Which checkpoint earns credit, and how much: one that names an existing session of this very
    person, in its own collection and not cancelled, is credited with what that session still
    reserves, as far as the total goes; any other with nothing.
   */
  lemma ReportIsExact(l: Ledger, actor: nat, checkpoint: Option<(nat, nat)>, used: nat, total: nat)
    requires SoundLedger(l)
    ensures var report := Report(l.quota, used, total, Credit(l, actor, checkpoint));
            && (report.validated <==>
                 && checkpoint.Some? && checkpoint.value.0 < |l.sessions|
                 && var session := l.sessions[checkpoint.value.0];
                    session.owner == actor && session.collection == checkpoint.value.1 && session.status in {Open, Complete, Partial})
            && (if report.validated then
                  var reserved := Sum(l.sessions[checkpoint.value.0].items, Reserved);
                  report.remaining == if reserved <= total then reserved else total
                else report.remaining == 0)
            && report.quota == l.quota && report.used == used && report.totalReserved == total
  {
    if checkpoint.Some? && checkpoint.value.0 < |l.sessions| {
      var session := l.sessions[checkpoint.value.0];
      assert SoundSession(session);
      if session.status != Open {
        NothingReserved(session.items);
      }
      assert session.status in {Open, Complete, Partial} <==> session.status != Released;
    }
    hide Sum, SoundSession;
  }

  lemma {:induction false} SessionWithinTotal(sessions: seq<Session>, s: nat)
    requires s < |sessions|
    ensures Sum(sessions[s].items, Reserved) <= Total(sessions, Reserved)
  {
    if s > 0 {
      SessionWithinTotal(sessions[1..], s - 1);
    }
  }

  // ---- an upload opened batch by batch --------------------------------------------------------

  /** What happens between one request and the next: transfers, finalizations, failures, cancels; no other request. */
  predicate Transfer(steps: seq<Step>) { forall k :: 0 <= k < |steps| ==> steps[k].On? || steps[k].Allow? || steps[k].Cancel? }

  /** Each batch is opened in the collection of the one before, then transferred before the next is opened. */
  function OpenAll(l: Ledger, actor: nat, batches: seq<seq<Entry>>, transfers: seq<seq<Step>>, collection: Option<nat>): Ledger
    requires |transfers| == |batches|
    decreases |batches|
  {
    if batches == [] then l
    else OpenAll(Run(Opened(l, actor, batches[0], collection), transfers[0]), actor, batches[1..], transfers[1..],
                 Some(Joined(l, collection)))
  }

  /** A request whose guard nothing disturbs. */
  function Opened(l: Ledger, actor: nat, batch: seq<Entry>, collection: Option<nat>): Ledger {
    Create(l, Request(actor, batch, collection), Projected(l))
  }

  /** Whenever a batch is opened, nothing is between the disk and the control store. */
  ghost predicate SettledAtEach(l: Ledger, actor: nat, batches: seq<seq<Entry>>, transfers: seq<seq<Step>>, collection: Option<nat>)
    requires |transfers| == |batches|
    decreases |batches|
  {
    batches == []
    || (AllSettled(l.sessions)
        && SettledAtEach(Run(Opened(l, actor, batches[0], collection), transfers[0]), actor, batches[1..], transfers[1..],
                         Some(Joined(l, collection))))
  }

  /** Files from a ready receipt that no session has taken, and whose paths the collection does not have. */
  ghost predicate Ready(l: Ledger, actor: nat, entries: seq<Entry>, collection: Option<nat>) {
    && (forall i :: 0 <= i < |entries| ==> entries[i].size > 0 && Recorded(l.receipt, actor, entries[i]))
    && (forall i, j :: 0 <= i < j < |entries| ==> entries[i].path != entries[j].path && entries[i].row != entries[j].row)
    && (forall i, s: nat, k: nat :: 0 <= i < |entries| && At(l, s, k) ==> l.sessions[s].items[k].row != entries[i].row)
    && (collection.Some? ==>
         && collection.value < |l.collections| && l.collections[collection.value] == actor
         && forall i, s: nat, k: nat :: 0 <= i < |entries| && At(l, s, k) ==>
              l.sessions[s].collection != collection.value || l.sessions[s].items[k].path != entries[i].path)
  }

  lemma {:induction false} RequestedPositive(entries: seq<Entry>)
    requires forall i :: 0 <= i < |entries| ==> entries[i].size > 0
    ensures Requested(entries) >= |entries|
  {
    if entries != [] {
      RequestedPositive(entries[1..]);
    }
  }

  lemma ReadyPrefix(l: Ledger, actor: nat, batch: seq<Entry>, rest: seq<Entry>, collection: Option<nat>)
    requires Ready(l, actor, batch + rest, collection)
    ensures Ready(l, actor, batch, collection) && Ready(l, actor, rest, collection)
  {
    var all := batch + rest;
    assert forall i :: 0 <= i < |batch| ==> all[i] == batch[i];
    assert forall i :: 0 <= i < |rest| ==> all[|batch| + i] == rest[i];
  }

  lemma ReadyRowsAreFresh(l: Ledger, actor: nat, batch: seq<Entry>, collection: Option<nat>)
    requires Ready(l, actor, batch, collection) && batch != []
    ensures CheckReceipt(l, actor, batch) == Fresh
  {
    assert Recorded(l.receipt, actor, batch[0]);
    forall i | 0 <= i < |batch| ensures HolderOf(l.sessions, batch[i].row.value).None? {
      var row := batch[i].row.value;
      assert Recorded(l.receipt, actor, batch[i]);
      forall s | 0 <= s < |l.sessions| ensures !Holds(l.sessions[s], row) {
        NoneHolds(l, actor, batch, collection, i, s);
      }
    }
  }

  lemma NoneHolds(l: Ledger, actor: nat, batch: seq<Entry>, collection: Option<nat>, i: nat, s: nat)
    requires Ready(l, actor, batch, collection) && i < |batch| && s < |l.sessions| && batch[i].row.Some?
    ensures !Holds(l.sessions[s], batch[i].row.value)
  {
    assert forall k: nat :: k < |l.sessions[s].items| ==> At(l, s, k);
  }

  lemma ReadyIsAcceptable(l: Ledger, actor: nat, batch: seq<Entry>, collection: Option<nat>)
    requires Ready(l, actor, batch, collection) && batch != []
    ensures Acceptable(l, Request(actor, batch, collection))
  {
    if collection.Some? {
      forall i, s | 0 <= i < |batch| && 0 <= s < |l.sessions|
        ensures !Repeats(l.sessions[s], collection.value, batch[i].path)
      {
        assert forall k: nat :: k < |l.sessions[s].items| ==> At(l, s, k);
      }
    }
  }

  lemma ReadyBatchAnswer(l: Ledger, actor: nat, batch: seq<Entry>, collection: Option<nat>)
    requires Ready(l, actor, batch, collection) && batch != [] && WithinQuota(l, batch, Projected(l))
    ensures Answer(l, Request(actor, batch, collection), Projected(l)) == Some(|l.sessions|)
  {
    ReadyRowsAreFresh(l, actor, batch, collection);
    ReadyIsAcceptable(l, actor, batch, collection);
  }

  /** Once its first batch is opened, the rest of the upload is ready to follow. */
  lemma RestIsReady(l: Ledger, actor: nat, batch: seq<Entry>, rest: seq<Entry>, collection: Option<nat>, seen: nat)
    requires SoundLedger(l) && Ready(l, actor, batch + rest, collection)
    requires Answer(l, Request(actor, batch, collection), seen) == Some(|l.sessions|)
    ensures Ready(Create(l, Request(actor, batch, collection), seen), actor, rest, Some(Joined(l, collection)))
  {
    var all := batch + rest;
    assert forall i :: 0 <= i < |batch| ==> all[i] == batch[i];
    assert forall i :: 0 <= i < |rest| ==> all[|batch| + i] == rest[i];
    var after := Create(l, Request(actor, batch, collection), seen);
    forall i, s: nat, k: nat | 0 <= i < |rest| && At(after, s, k)
      ensures after.sessions[s].items[k].row != rest[i].row
      ensures after.sessions[s].collection != Joined(l, collection) || after.sessions[s].items[k].path != rest[i].path
    {
      if s < |l.sessions| {
        assert At(l, s, k) && SoundSession(l.sessions[s]);
        assert l.sessions[s].items[k].row != all[|batch| + i].row;
      } else {
        assert all[k].path != all[|batch| + i].path && all[k].row != all[|batch| + i].row;
      }
    }
  }

  /** Transfers take no row and no path, and never raise what is claimed. */
  lemma {:induction false} TransferKeepsReady(l: Ledger, steps: seq<Step>, actor: nat, rest: seq<Entry>, collection: Option<nat>)
    requires SoundLedger(l) && Ready(l, actor, rest, collection) && Transfer(steps)
    ensures var after := Run(l, steps);
            SoundLedger(after) && Ready(after, actor, rest, collection) && Later(l, after)
            && Footprint(after) <= Footprint(l) && |after.sessions| == |l.sessions|
    decreases |steps|
  {
    SameLedger(l);
    if steps != [] {
      var next := Apply(l, steps[0]);
      StepIsSound(l, steps[0]);
      StepSameRows(l, steps[0]);
      SameRowsAreReady(l, next, actor, rest, collection);
      hide Apply, Ready, SameRows, SoundLedger, Footprint, Later;
      TransferKeepsReady(next, steps[1..], actor, rest, collection);
      LaterIsTransitive(l, next, Run(l, steps));
    }
  }

  lemma SameRowsAreReady(l: Ledger, after: Ledger, actor: nat, rest: seq<Entry>, collection: Option<nat>)
    requires Ready(l, actor, rest, collection) && SameRows(l, after) && Later(l, after)
    ensures Ready(after, actor, rest, collection)
  {
    forall i, s: nat, k: nat | 0 <= i < |rest| && At(after, s, k)
      ensures after.sessions[s].items[k].row != rest[i].row
      ensures collection.Some? ==>
                after.sessions[s].collection != collection.value || after.sessions[s].items[k].path != rest[i].path
    {
      assert At(l, s, k);
    }
  }

  /** One more session for each batch, in order, in one collection and with exactly its files. */
  ghost predicate OpenedWhole(n: nat, after: Ledger, batches: seq<seq<Entry>>, collection: nat) {
    && |after.sessions| == n + |batches|
    && forall b :: n <= b < n + |batches| ==>
         after.sessions[b].collection == collection && SameFiles(after.sessions[b].items, batches[b - n])
  }

  lemma OpenedNext(n: nat, next: Ledger, after: Ledger, batches: seq<seq<Entry>>, collection: nat)
    requires batches != [] && |next.sessions| == n + 1 && Later(next, after) && FromReceipt(batches[0])
    requires next.sessions[n].collection == collection && SameFiles(next.sessions[n].items, batches[0])
    requires OpenedWhole(n + 1, after, batches[1..], collection)
    ensures OpenedWhole(n, after, batches, collection)
  {
    FilesStay(next, after, n, batches[0]);
    assert SessionEvolves(next.sessions[n], after.sessions[n]);
    forall b | n + 1 <= b < n + |batches|
      ensures after.sessions[b].collection == collection && SameFiles(after.sessions[b].items, batches[b - n])
    {
      assert batches[1..][b - (n + 1)] == batches[b - n];
    }
  }

  /** One session more, last, in this collection and with these files. */
  predicate Joins(l: Ledger, after: Ledger, batch: seq<Entry>, collection: nat) {
    var n := |l.sessions|;
    |after.sessions| == n + 1 && after.sessions[n].collection == collection && SameFiles(after.sessions[n].items, batch)
  }

  /** Opening the next batch of a ready upload that still fits what is claimed. */
  lemma {:induction false} NextBatchOpens(l: Ledger, actor: nat, batch: seq<Entry>, rest: seq<Entry>, collection: Option<nat>)
    requires SoundLedger(l) && AllSettled(l.sessions) && Ready(l, actor, batch + rest, collection) && batch != []
    requires Footprint(l) + Requested(batch + rest) <= l.quota
    ensures FromReceipt(batch)
    ensures Joins(l, Opened(l, actor, batch, collection), batch, Joined(l, collection))
    ensures var after := Opened(l, actor, batch, collection);
            && SoundLedger(after) && Later(l, after) && Ready(after, actor, rest, Some(Joined(l, collection)))
            && Footprint(after) + Requested(rest) <= l.quota
  {
    RequestedAppend(batch, rest);
    ReadyPrefix(l, actor, batch, rest, collection);
    RequestedPositive(rest);
    ProjectionExact(l.sessions);
    ReadyBatchAnswer(l, actor, batch, collection);
    RestIsReady(l, actor, batch, rest, collection, Projected(l));
    CreateIsSound(l, Request(actor, batch, collection), Projected(l));
  }

  /**
    An upload that fits when it starts is opened whole, one session for each batch, even though each
    batch is transferred, fails or is cancelled before the next is opened; as long as nothing is
    half-recorded when a batch is opened and nobody else takes room.
   */
  lemma {:induction false} WholeUploadOpens(l: Ledger, actor: nat, batches: seq<seq<Entry>>, transfers: seq<seq<Step>>,
                                            collection: Option<nat>)
    requires SoundLedger(l) && Ready(l, actor, Flatten(batches), collection) && |transfers| == |batches|
    requires Flatten(batches) != [] ==> Footprint(l) + Requested(Flatten(batches)) <= l.quota
    requires forall b :: 0 <= b < |batches| ==> batches[b] != [] && Transfer(transfers[b])
    requires SettledAtEach(l, actor, batches, transfers, collection)
    ensures var after := OpenAll(l, actor, batches, transfers, collection);
            Later(l, after) && OpenedWhole(|l.sessions|, after, batches, Joined(l, collection))
    decreases |batches|
  {
    if batches == [] {
      SameLedger(l);
    } else {
      var rest, joined := Flatten(batches[1..]), Joined(l, collection);
      var next := Run(Opened(l, actor, batches[0], collection), transfers[0]);
      var after := OpenAll(l, actor, batches, transfers, collection);
      assert Flatten(batches) == batches[0] + rest && Flatten(batches) != [];
      assert after == OpenAll(next, actor, batches[1..], transfers[1..], Some(joined)) && Joined(next, Some(joined)) == joined;
      assert AllSettled(l.sessions) && SettledAtEach(next, actor, batches[1..], transfers[1..], Some(joined));
      hide *;
      FirstBatchOpens(l, actor, batches[0], transfers[0], rest, collection);
      WholeUploadOpens(next, actor, batches[1..], transfers[1..], Some(joined));
      LaterIsTransitive(l, next, after);
      OpenedNext(|l.sessions|, next, after, batches, joined);
    }
  }

  /** One batch opened and then transferred, with the rest of the upload still ready. */
  lemma FirstBatchOpens(l: Ledger, actor: nat, batch: seq<Entry>, transfer: seq<Step>, rest: seq<Entry>, collection: Option<nat>)
    requires SoundLedger(l) && AllSettled(l.sessions) && Ready(l, actor, batch + rest, collection) && batch != []
    requires Footprint(l) + Requested(batch + rest) <= l.quota && Transfer(transfer)
    ensures var next, joined, n := Run(Opened(l, actor, batch, collection), transfer), Joined(l, collection), |l.sessions|;
            && SoundLedger(next) && Later(l, next) && Ready(next, actor, rest, Some(joined))
            && Footprint(next) + Requested(rest) <= next.quota && FromReceipt(batch)
            && |next.sessions| == n + 1 && next.sessions[n].collection == joined && SameFiles(next.sessions[n].items, batch)
  {
    var first, joined := Opened(l, actor, batch, collection), Joined(l, collection);
    NextBatchOpens(l, actor, batch, rest, collection);
    TransferKeepsReady(first, transfer, actor, rest, Some(joined));
    hide Opened, Run, Ready, SoundLedger, Footprint, AllSettled, FromReceipt, Requested;
    LaterIsTransitive(l, first, Run(first, transfer));
    FilesThroughTransfer(first, Run(first, transfer), |l.sessions|, batch, joined);
  }

  lemma FilesThroughTransfer(l: Ledger, after: Ledger, s: nat, entries: seq<Entry>, collection: nat)
    requires Later(l, after) && s < |l.sessions| && SameFiles(l.sessions[s].items, entries) && FromReceipt(entries)
    requires l.sessions[s].collection == collection
    ensures s < |after.sessions| && SameFiles(after.sessions[s].items, entries) && after.sessions[s].collection == collection
  {
    FilesStay(l, after, s, entries);
    assert SessionEvolves(l.sessions[s], after.sessions[s]);
  }

  // ---- from review to sessions ----------------------------------------------------------------

  /** The receipt rows of the files a review admitted; row `base + i` records the selection's file i. */
  function Reviewed(files: seq<Planner.File>, eligible: seq<nat>, base: nat): (entries: seq<Entry>)
    requires forall k :: 0 <= k < |eligible| ==> eligible[k] < |files|
    ensures |entries| == |eligible|
  {
    seq(|eligible|, k requires 0 <= k < |eligible| =>
      Entry(files[eligible[k]].path, files[eligible[k]].size, Some(base + eligible[k])))
  }

  lemma {:induction false} ReviewedBytes(files: seq<Planner.File>, eligible: seq<nat>, base: nat)
    requires forall k :: 0 <= k < |eligible| ==> eligible[k] < |files|
    ensures Requested(Reviewed(files, eligible, base)) == Planner.Bytes(Review.Pick(files, eligible))
  {
    if eligible != [] {
      ReviewedBytes(files, eligible[1..], base);
      assert Reviewed(files, eligible, base)[1..] == Reviewed(files, eligible[1..], base);
      assert Review.Pick(files, eligible)[1..] == Review.Pick(files, eligible[1..]);
    }
  }

  ghost predicate Untaken(l: Ledger, base: nat, count: nat) {
    forall s: nat, k: nat :: At(l, s, k) && l.sessions[s].items[k].row.Some? ==>
      !(base <= l.sessions[s].items[k].row.value < base + count)
  }

  /** The server's rows echo each file's size and name its path, and the receipt from `base` on records both. */
  ghost predicate Recording(l: Ledger, actor: nat, files: seq<Planner.File>, rows: seq<Review.Row>, base: nat)
    requires |files| == |rows|
  {
    && Review.Echoed(files, rows)
    && (forall i :: 0 <= i < |rows| && rows[i].token.Some? ==> rows[i].token.value == files[i].path)
    && forall i :: 0 <= i < |files| ==>
         base + i < |l.receipt| && l.receipt[base + i] == Row(actor, files[i].path, files[i].size)
  }

  /**
    From review to sessions: a selection reviewed against an exact report of a settled matter is
    opened whole, in whatever batches it is cut and however each is transferred, as long as nothing
    else is reserved in between and no stray chunk is on its way when it starts.
   */
  lemma ReviewedUploadOpens(l: Ledger, actor: nat, files: seq<Planner.File>, rows: seq<Review.Row>, limits: Planner.Limits,
                            capacity: Review.Capacity, outcome: Review.Outcome, base: nat,
                            batches: seq<seq<Entry>>, transfers: seq<seq<Step>>)
    requires SoundLedger(l) && |files| == |rows|
    requires AllSettled(l.sessions) && Total(l.sessions, Stray) == 0
    requires capacity.available <= Report(l.quota, Used(l), PendingBytes(l), None).available
    requires Recording(l, actor, files, rows, base) && Untaken(l, base, |files|)
    requires outcome == Review.Review(files, rows, capacity, Review.Nothing, limits) && outcome.Done?
    requires (forall k :: 0 <= k < |outcome.eligible| ==> outcome.eligible[k] < |files|)
             && Flatten(batches) == Reviewed(files, outcome.eligible, base)
    requires |transfers| == |batches| && forall b :: 0 <= b < |batches| ==> batches[b] != [] && Transfer(transfers[b])
    requires SettledAtEach(l, actor, batches, transfers, None)
    ensures OpenedWhole(|l.sessions|, OpenAll(l, actor, batches, transfers, None), batches, |l.collections|)
  {
    assert Review.Echoed(files, rows);
    hide *;
    Review.FirstReviewFits(files, rows, capacity, limits);
    Review.ReviewAdmitsOnce(files, rows, capacity, limits);
    ReviewedReady(l, actor, files, rows, outcome.eligible, base);
    ReviewedFits(l, actor, files, outcome.eligible, base);
    FirstIsNew(l);
    WholeUploadOpens(l, actor, batches, transfers, None);
  }

  lemma FirstIsNew(l: Ledger)
    ensures Joined(l, None) == |l.collections|
  {
  }

  /** What fits the reported room fits beside all claims; an empty upload asks nothing of it. */
  lemma ReviewedFits(l: Ledger, actor: nat, files: seq<Planner.File>, eligible: seq<nat>, base: nat)
    requires SoundLedger(l) && AllSettled(l.sessions) && Total(l.sessions, Stray) == 0
    requires forall k :: 0 <= k < |eligible| ==> eligible[k] < |files|
    requires Planner.Bytes(Review.Pick(files, eligible)) <= Report(l.quota, Used(l), PendingBytes(l), None).available
    requires Ready(l, actor, Reviewed(files, eligible, base), None)
    ensures eligible != [] ==> Footprint(l) + Requested(Reviewed(files, eligible, base)) <= l.quota
  {
    ReviewedBytes(files, eligible, base);
    RequestedPositive(Reviewed(files, eligible, base));
    ProjectionExact(l.sessions);
  }

  lemma ReviewedReady(l: Ledger, actor: nat, files: seq<Planner.File>, rows: seq<Review.Row>, eligible: seq<nat>, base: nat)
    requires |files| == |rows| && Review.Ascending(eligible)
    requires Recording(l, actor, files, rows, base) && Untaken(l, base, |files|)
    requires forall k :: 0 <= k < |eligible| ==> eligible[k] < |rows| && Review.Sized(rows[eligible[k]])
    requires forall i, j :: i in eligible && j in eligible && i != j ==> rows[i].token != rows[j].token
    ensures Ready(l, actor, Reviewed(files, eligible, base), None)
  {
    var entries := Reviewed(files, eligible, base);
    forall i, j | 0 <= i < j < |entries|
      ensures entries[i].path != entries[j].path && entries[i].row != entries[j].row
    {
      assert eligible[i] in eligible && eligible[j] in eligible && eligible[i] < eligible[j];
    }
  }
}
