/**
  The control store's own form of the ledger: rows that statements count, sum and rewrite in place.
  A method is one check or one transaction, and does to the stored rows what its step does to the
  ledger; the runs in which other requests come between are those of the ledger.
 */
module UploadStore {
  import opened UploadLedger
  import opened Wrappers

  /** The first n items cancelled, the rest as they were. */
  function CancelFirst(items: seq<Item>, n: nat): (partly: seq<Item>)
    requires n <= |items|
    ensures |partly| == |items|
  {
    seq(|items|, i requires 0 <= i < |items| =>
      if i < n && items[i].phase !in {Queued, Cancelled} then items[i].(phase := Cancelled) else items[i])
  }

  class UploadTable {
    const quota: nat
    const receipt: seq<Row>
    var sessions: seq<Session>
    var collections: seq<nat>
    var guard: Guard

    function Contents(): Ledger
      reads this
    {
      Ledger(quota, receipt, sessions, collections, guard)
    }

    constructor (quota: nat, receipt: seq<Row>)
      ensures Contents() == Start(quota, receipt)
    {
      this.quota, this.receipt := quota, receipt;
      sessions, collections, guard := [], [], Closed;
    }

    /** SUM over all rows of what one row contributes. */
    method SumRows(f: Item -> nat) returns (total: nat)
      ensures total == Total(sessions, f)
    {
      total := 0;
      var s := |sessions|;
      while s > 0
        invariant 0 <= s <= |sessions| && total == Total(sessions[s..], f)
      {
        s := s - 1;
        var items := sessions[s].items;
        var part := 0;
        var i := |items|;
        while i > 0
          invariant 0 <= i <= |items| && part == Sum(items[i..], f)
        {
          i := i - 1;
          part := part + f(items[i]);
          assert items[i..][1..] == items[i + 1..];
        }
        assert items[0..] == items;
        assert sessions[s..][1..] == sessions[s + 1..];
        total := total + part;
      }
      assert sessions[0..] == sessions;
    }

    /** The quota guard and the new rows, when nothing moves between the guard's readings. */
    method OpenSession(request: Request) returns (answer: Option<nat>)
      modifies `sessions, `collections
      ensures answer == Answer(old(Contents()), request, Projected(old(Contents())))
      ensures Contents() == Create(old(Contents()), request, Projected(old(Contents())))
    {
      var l, entries := Contents(), request.entries;
      var check := CheckReceipt(l, request.actor, entries);
      if check.Existing? {
        return Some(check.session);
      }
      if check.Invalid? {
        return None;
      }
      var requested := 0;
      for i := 0 to |entries|
        invariant requested == Requested(entries[..i]) && Contents() == l
      {
        assert entries[..i + 1] == entries[..i] + [entries[i]];
        RequestedAppend(entries[..i], [entries[i]]);
        assert [entries[i]][1..] == [];
        requested := requested + entries[i].size;
      }
      assert entries[..|entries|] == entries;
      var used := SumRows(Disk);
      var reserved := SumRows(Reserved);
      if used + reserved + requested > quota || !Acceptable(l, request) {
        return None;
      }
      answer := Some(|sessions|);
      sessions := sessions + [Session(request.actor, Joined(l, request.collection), Open, false, NewItems(entries))];
      if request.collection.None? {
        collections := collections + [request.actor];
      }
    }

    method HasUnfinished(items: seq<Item>) returns (found: bool)
      ensures found == Unfinished(items)
    {
      found := false;
      for i := 0 to |items|
        invariant found <==> exists k :: 0 <= k < i && Active(items[k])
      {
        found := found || Active(items[i]);
      }
    }

    method HasLost(items: seq<Item>) returns (found: bool)
      ensures found == Lost(items)
    {
      found := false;
      for i := 0 to |items|
        invariant found <==> exists k :: 0 <= k < i && items[k].phase in {Failed, Cancelled}
      {
        found := found || items[i].phase in {Failed, Cancelled};
      }
    }

    /** Compare-and-set of a recorded offset: it moves only from the value the caller read. */
    method SetOffset(s: nat, i: nat, previous: nat, received: nat) returns (changed: bool)
      requires At(Contents(), s, i)
      modifies `sessions
      ensures var item := old(Contents()).sessions[s].items[i];
              && changed == (previous == item.received && previous <= received <= item.size && Active(item))
              && sessions == (if changed then
                                old(sessions)[s := old(sessions)[s].(items := old(sessions)[s].items[i := Offset(item, received)])]
                              else old(sessions))
              && (previous < received == item.staged && changed && Unlocked(old(Contents())) ==>
                   Stored(Contents()) == Stored(Apply(old(Contents()), On(s, i, Record))))
    {
      var item := sessions[s].items[i];
      if previous != item.received || received < previous || received > item.size || !Active(item) {
        return false;
      }
      if previous < received == item.staged {
        StoredSame(Contents(), s, sessions[s].(items := sessions[s].items[i := Offset(item, received)]),
                   Acted(sessions[s], i, Record, true, guard));
      }
      sessions := sessions[s := sessions[s].(items := sessions[s].items[i := Offset(item, received)])];
      return true;
    }

    /** What a request to queue an item finds before its transaction. */
    method CheckFinish(s: nat, i: nat) returns (queued: bool, finishable: bool)
      requires At(Contents(), s, i)
      ensures (queued <==> sessions[s].items[i].phase == Queued) && (queued ==> !finishable)
      ensures var item := sessions[s].items[i];
              item.linked && !item.checked ==>
                (finishable <==> Apply(Contents(), On(s, i, UploadLedger.Check)).sessions[s].items[i].checked)
    {
      var item := sessions[s].items[i];
      queued := item.phase == Queued;
      finishable := item.phase == Uploaded && item.received == item.size;
    }

    /** The transaction of a request whose check has passed: the item may have moved on meanwhile. */
    method Finish(s: nat, i: nat)
      requires At(Contents(), s, i) && sessions[s].items[i].checked
      modifies `sessions
      ensures Stored(Contents()) == Stored(Apply(old(Contents()), On(s, i, UploadLedger.Finish)))
    {
      var session, item := sessions[s], sessions[s].items[i];
      var items := session.items;
      if item.phase == Uploaded {
        items := items[i := item.(phase := Queued)];
      }
      ActedRows(Contents(), s, i, UploadLedger.Finish);
      hide Apply, Stored;
      assert items == session.items[i := Effect(item, UploadLedger.Finish, false, Closed)];
      var remaining := HasUnfinished(items);
      var failures := HasLost(items);
      sessions := sessions[s := session.(status := if remaining then Open else if failures then Partial else Complete, items := items)];
    }

    /** Fail an item that is not yet settled; the status is recomputed either way. */
    method Fail(s: nat, i: nat)
      requires At(Contents(), s, i)
      modifies `sessions
      ensures Stored(Contents()) == Stored(Apply(old(Contents()), On(s, i, UploadLedger.Fail)))
    {
      var session, item := sessions[s], sessions[s].items[i];
      var items := session.items;
      if item.phase != Queued && item.phase != Cancelled {
        items := items[i := item.(phase := Failed)];
      }
      ActedRows(Contents(), s, i, UploadLedger.Fail);
      hide Apply, Stored;
      assert items == session.items[i := Effect(item, UploadLedger.Fail, false, Closed)];
      var remaining := HasUnfinished(items);
      sessions := sessions[s := session.(status := if remaining then Open else Partial, items := items)];
    }

    /** What a request to cancel finds before its transaction. */
    method CheckCancel(s: nat) returns (allowed: bool)
      requires s < |sessions|
      ensures !sessions[s].cancelling ==> (allowed <==> Apply(Contents(), Allow(s)).sessions[s].cancelling)
    {
      allowed := sessions[s].status != Complete;
    }

    /** The transaction of a request whose check has passed: it releases whatever it now finds. */
    method Cancel(s: nat)
      requires s < |sessions| && sessions[s].cancelling
      modifies `sessions
      ensures Stored(Contents()) == Stored(Apply(old(Contents()), UploadLedger.Cancel(s)))
    {
      var session, items := sessions[s], sessions[s].items;
      for i := 0 to |items|
        invariant items == CancelFirst(session.items, i)
      {
        if items[i].phase !in {Queued, Cancelled} {
          items := items[i := items[i].(phase := Cancelled)];
        }
      }
      StoredSame(Contents(), s, session.(status := Released, items := items), CancelSession(session));
      sessions := sessions[s := session.(status := Released, items := items)];
    }
  }

  function Offset(item: Item, received: nat): Item {
    item.(received := received, phase := if received == item.size then Uploaded else Uploading)
  }

  /** The rows alone: what a guard under way has seen of them is not stored. */
  function Stored(l: Ledger): Ledger { l.(sessions := MapAll(l.sessions, Unlook)) }

  lemma StoredSame(l: Ledger, s: nat, session: Session, other: Session)
    requires s < |l.sessions| && |session.items| == |other.items| && session.(items := other.items) == other
    requires forall i :: 0 <= i < |session.items| ==> Unlook(session.items[i]) == Unlook(other.items[i])
    ensures Stored(l.(sessions := l.sessions[s := session])) == Stored(l.(sessions := l.sessions[s := other]))
  {
    assert MapItems(session.items, Unlook) == MapItems(other.items, Unlook);
  }

  /** The rows that finishing or failing an item leaves, without the guard's history. */
  lemma ActedRows(l: Ledger, s: nat, i: nat, act: Act)
    requires At(l, s, i) && (act.Fail? || (act.Finish? && l.sessions[s].items[i].checked))
    ensures var session, item := l.sessions[s], l.sessions[s].items[i];
            var items := session.items[i := Effect(item, act, false, Closed)];
            var after := session.(status := Restatus(item, items, act, session.status), items := items);
            Stored(l.(sessions := l.sessions[s := after])) == Stored(Apply(l, On(s, i, act)))
  {
    var session, item := l.sessions[s], l.sessions[s].items[i];
    var items := session.items[i := Effect(item, act, false, Closed)];
    var acted := Acted(session, i, act, Unlocked(l), l.guard);
    SamePhases(items, acted.items);
    StoredSame(l, s, session.(status := Restatus(item, items, act, session.status), items := items), acted);
  }

  lemma SamePhases(items: seq<Item>, others: seq<Item>)
    requires |items| == |others| && forall i :: 0 <= i < |items| ==> items[i].phase == others[i].phase
    ensures Unfinished(items) == Unfinished(others) && Lost(items) == Lost(others)
  {
    if Unfinished(items) {
      var i :| 0 <= i < |items| && Active(items[i]);
      assert Active(others[i]);
    }
    if Unfinished(others) {
      var i :| 0 <= i < |others| && Active(others[i]);
      assert Active(items[i]);
    }
    if Lost(items) {
      var i :| 0 <= i < |items| && items[i].phase in {Failed, Cancelled};
      assert others[i].phase in {Failed, Cancelled};
    }
    if Lost(others) {
      var i :| 0 <= i < |others| && others[i].phase in {Failed, Cancelled};
      assert items[i].phase in {Failed, Cancelled};
    }
  }
}
