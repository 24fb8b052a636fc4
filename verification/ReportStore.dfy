/**
  The stored form of a Report: one header row and one row per section, changed statement by
  statement under the rule that no two sections of a Report ever share an ordinal.
 */
module ReportStore {
  import opened ReportEditing
  import opened Wrappers

  const TEMPORARY: nat := 1000000

  datatype Row = Row(ordinal: nat, heading: string, body: string, updated: nat)

  /** The sections in ordinal order. */
  ghost function View(order: seq<nat>, rows: map<nat, Row>): (sections: seq<Section>)
    requires forall i :: 0 <= i < |order| ==> order[i] in rows
    ensures |sections| == |order|
  {
    seq(|order|, i requires 0 <= i < |order| =>
      Section(order[i], rows[order[i]].heading, rows[order[i]].body, rows[order[i]].updated))
  }

  /** The ordinals are exactly 1 to n, and `order` lists the sections by them. */
  ghost predicate Ordered(order: seq<nat>, rows: map<nat, Row>) {
    && (forall i :: 0 <= i < |order| ==> order[i] in rows && rows[order[i]].ordinal == i + 1)
    && (forall id :: id in rows ==> 1 <= rows[id].ordinal <= |order| && order[rows[id].ordinal - 1] == id)
  }

  lemma {:induction false} PositionIsOrdinal(order: seq<nat>, rows: map<nat, Row>, id: nat)
    requires Ordered(order, rows)
    ensures Position(View(order, rows), id) == if id in rows then Some(rows[id].ordinal - 1) else None
  {
    var p := Position(View(order, rows), id);
    if id in rows {
      assert View(order, rows)[rows[id].ordinal - 1].id == id;
      assert order[p.value] == id;
    }
  }

  /** After a removal, the sections that followed have moved up one place as far as `next`. */
  ghost predicate ClosedUp(before: map<nat, Row>, rows: map<nat, Row>, id: nat, gone: nat, next: nat) {
    && (forall k :: k in rows <==> k in before && k != id)
    && forall k :: k in rows ==>
         rows[k] == if gone < before[k].ordinal < next then before[k].(ordinal := before[k].ordinal - 1) else before[k]
  }

  predicate InUse(rows: map<nat, Row>, ordinal: nat) { exists k :: k in rows && rows[k].ordinal == ordinal }

  lemma InUseExactly(order: seq<nat>, rows: map<nat, Row>, ordinal: nat)
    requires Ordered(order, rows)
    ensures InUse(rows, ordinal) <==> 1 <= ordinal <= |order|
  {
    if 1 <= ordinal <= |order| {
      assert order[ordinal - 1] in rows;
    }
  }

  lemma StillInUse(before: map<nat, Row>, rows: map<nat, Row>, id: nat, gone: nat, next: nat)
    requires ClosedUp(before, rows, id, gone, next) && id in before && before[id].ordinal == gone < next
    ensures InUse(before, next) ==> InUse(rows, next)
  {
  }

  /** The section at `next` may take the place before it, which closes the gap one further. */
  lemma ClosesNext(order: seq<nat>, before: map<nat, Row>, rows: map<nat, Row>, id: nat, gone: nat, next: nat, k: nat)
    requires Ordered(order, before) && id in before && before[id].ordinal == gone < next
    requires ClosedUp(before, rows, id, gone, next) && k in rows && rows[k].ordinal == next
    ensures next <= |order|
    ensures forall other :: other in rows && other != k ==> rows[other].ordinal != next - 1
    ensures ClosedUp(before, rows[k := rows[k].(ordinal := next - 1)], id, gone, next + 1)
  {
  }

  lemma AllClosedUp(order: seq<nat>, before: map<nat, Row>, rows: map<nat, Row>, id: nat, next: nat)
    requires Ordered(order, before) && id in before && before[id].ordinal < next <= |order| + 1
    requires ClosedUp(before, rows, id, before[id].ordinal, next) && !InUse(rows, next)
    ensures var p := before[id].ordinal - 1;
            var left := order[..p] + order[p + 1..];
            && Ordered(left, rows)
            && View(left, rows) == View(order, before)[..p] + View(order, before)[p + 1..]
  {
    var p := before[id].ordinal - 1;
    InUseExactly(order, before, next);
    StillInUse(before, rows, id, p + 1, next);
    var left := order[..p] + order[p + 1..];
    OrderedWithout(order, before, left, rows, id, p, next);
    ViewWithout(order, before, left, rows, p);
  }

  lemma OrderedWithout(order: seq<nat>, before: map<nat, Row>, left: seq<nat>, rows: map<nat, Row>, id: nat, p: nat, next: nat)
    requires Ordered(order, before) && id in before && before[id].ordinal == p + 1 && next == |order| + 1
    requires ClosedUp(before, rows, id, p + 1, next) && left == order[..p] + order[p + 1..]
    ensures Ordered(left, rows)
  {
    forall i | 0 <= i < |left| ensures left[i] in rows && rows[left[i]].ordinal == i + 1 {
      assert left[i] == order[if i < p then i else i + 1];
    }
    forall k | k in rows ensures 1 <= rows[k].ordinal <= |left| && left[rows[k].ordinal - 1] == k {
      assert order[before[k].ordinal - 1] == k && order[p] == id;
    }
  }

  lemma ViewWithout(order: seq<nat>, before: map<nat, Row>, left: seq<nat>, rows: map<nat, Row>, p: nat)
    requires p < |order| && left == order[..p] + order[p + 1..]
    requires (forall i :: 0 <= i < |order| ==> order[i] in before) && (forall i :: 0 <= i < |left| ==> left[i] in rows)
    requires forall k :: k in rows ==> k in before && rows[k] == before[k].(ordinal := rows[k].ordinal)
    ensures View(left, rows) == View(order, before)[..p] + View(order, before)[p + 1..]
  {
  }

  lemma AddedRow(order: seq<nat>, rows: map<nat, Row>, id: nat, row: Row)
    requires Ordered(order, rows) && id !in rows && row.ordinal == |order| + 1
    ensures Ordered(order + [id], rows[id := row])
    ensures View(order + [id], rows[id := row]) == View(order, rows) + [Section(id, row.heading, row.body, row.updated)]
  {
  }

  lemma RewrittenRow(order: seq<nat>, rows: map<nat, Row>, id: nat, heading: string, body: string, now: nat)
    requires Ordered(order, rows) && id in rows
    ensures var p, after := rows[id].ordinal - 1, rows[id := Row(rows[id].ordinal, heading, body, now)];
            && Ordered(order, after) && View(order, rows)[p].updated == rows[id].updated
            && View(order, after) == View(order, rows)[p := Section(id, heading, body, now)]
  {
  }

  /** The three updates of a movement exchange the two sections and nothing else. */
  lemma MovedRows(order: seq<nat>, rows: map<nat, Row>, id: nat, other: nat, after: map<nat, Row>)
    requires Ordered(order, rows) && id in rows && other in rows && id != other
    requires after == rows[id := rows[id].(ordinal := rows[other].ordinal)][other := rows[other].(ordinal := rows[id].ordinal)]
    ensures var p, q := rows[id].ordinal - 1, rows[other].ordinal - 1;
            var swapped := order[p := other][q := id];
            && Ordered(swapped, after)
            && View(swapped, after) == View(order, rows)[p := View(order, rows)[q]][q := View(order, rows)[p]]
  {
  }

  class ReportTable {
    var live: bool
    var title: string
    var purpose: string
    var status: Status
    var updated: nat
    var rows: map<nat, Row>
    var nextId: nat
    ghost var order: seq<nat>

    ghost predicate Valid()
      reads this
    {
      && Ordered(order, rows) && |order| <= MAX_SECTIONS
      && (forall id :: id in rows ==> id < nextId)
    }

    ghost function Contents(): State
      reads this
      requires Valid()
    {
      if live then Live(Report(title, purpose, status, updated, View(order, rows), nextId)) else Deleted
    }

    constructor (heading: string, about: string, clock: nat)
      ensures Valid() && Contents() == Live(Report(heading, about, Draft, clock, [], 0))
    {
      live, title, purpose, status, updated, rows, nextId, order := true, heading, about, Draft, clock, map[], 0, [];
    }

    /** One UPDATE of an ordinal; the schema refuses a value that another section holds. */
    method SetOrdinal(id: nat, ordinal: nat)
      requires id in rows && ordinal > 0
      requires forall other :: other in rows && other != id ==> rows[other].ordinal != ordinal
      modifies `rows
      ensures rows == old(rows)[id := old(rows)[id].(ordinal := ordinal)]
    {
      rows := rows[id := rows[id].(ordinal := ordinal)];
    }

    /** The section at an ordinal, if there is one. */
    method FindAt(ordinal: nat) returns (found: Option<nat>)
      ensures found.Some? ==> found.value in rows && rows[found.value].ordinal == ordinal
      ensures found.None? ==> !InUse(rows, ordinal)
    {
      var ids := rows.Keys;
      found := None;
      while ids != {}
        invariant ids <= rows.Keys
        invariant found.None? ==> forall id :: id in rows && id !in ids ==> rows[id].ordinal != ordinal
        invariant found.Some? ==> found.value in rows && rows[found.value].ordinal == ordinal
        decreases |ids|
      {
        var id :| id in ids;
        if rows[id].ordinal == ordinal {
          found := Some(id);
        }
        ids := ids - {id};
      }
    }

    method SaveHeader(token: nat, newTitle: string, newPurpose: string, newStatus: Status, clock: nat) returns (outcome: Outcome)
      requires Valid()
      modifies `title, `purpose, `status, `updated
      ensures Valid()
      ensures (Contents(), outcome) == Perform(old(Contents()), Edit.SaveHeader(token, newTitle, newPurpose, newStatus), clock)
    {
      if !live {
        return Missing;
      }
      if token != updated {
        return Conflict;
      }
      title, purpose, status, updated := newTitle, newPurpose, newStatus, EditTime(clock, updated);
      return Applied;
    }

    method Add(shown: Status, heading: string, body: string, clock: nat) returns (outcome: Outcome)
      requires Valid()
      modifies `rows, `nextId, `updated, `order
      ensures Valid()
      ensures (Contents(), outcome) == Perform(old(Contents()), Edit.Add(shown, heading, body), clock)
    {
      if !live {
        return Missing;
      }
      if shown != status {
        return Conflict;
      }
      var last := MaxOrdinal();
      if last + 1 > MAX_SECTIONS {
        return Full;
      }
      var now := EditTime(clock, updated);
      AddedRow(order, rows, nextId, Row(last + 1, heading, body, now));
      rows := rows[nextId := Row(last + 1, heading, body, now)];
      order := order + [nextId];
      nextId := nextId + 1;
      updated := now;
      return Applied;
    }

    /** The greatest ordinal in use, which is the number of sections. */
    method MaxOrdinal() returns (greatest: nat)
      requires Ordered(order, rows)
      ensures greatest == |order|
    {
      var ids := rows.Keys;
      greatest := 0;
      while ids != {}
        invariant ids <= rows.Keys
        invariant forall id :: id in rows && id !in ids ==> rows[id].ordinal <= greatest
        invariant greatest <= |order|
        decreases |ids|
      {
        var id :| id in ids;
        if rows[id].ordinal > greatest {
          greatest := rows[id].ordinal;
        }
        ids := ids - {id};
      }
      if order != [] {
        assert order[|order| - 1] in rows;
      }
    }

    method SaveSection(id: nat, token: nat, shown: Status, heading: string, body: string, clock: nat) returns (outcome: Outcome)
      requires Valid()
      modifies `rows, `updated
      ensures Valid()
      ensures (Contents(), outcome) == Perform(old(Contents()), Edit.SaveSection(id, token, shown, heading, body), clock)
    {
      PositionIsOrdinal(order, rows, id);
      hide View, Position;
      if !live {
        return Missing;
      }
      if shown != status {
        return Conflict;
      }
      if id !in rows {
        return Missing;
      }
      if token != rows[id].updated {
        return Conflict;
      }
      var now := EditTime(clock, Max(updated, rows[id].updated));
      RewrittenRow(order, rows, id, heading, body, now);
      rows := rows[id := Row(rows[id].ordinal, heading, body, now)];
      updated := now;
      return Applied;
    }

    /** The nearest section above or below. */
    method Adjacent(id: nat, up: bool) returns (adjacent: Option<nat>)
      requires Ordered(order, rows) && id in rows
      ensures var q := Neighbour(|order|, rows[id].ordinal - 1, up);
              if q.None? then adjacent.None?
              else adjacent.Some? && adjacent.value in rows && adjacent.value != id && rows[adjacent.value].ordinal - 1 == q.value
    {
      var here := rows[id].ordinal;
      InUseExactly(order, rows, here - 1);
      InUseExactly(order, rows, here + 1);
      adjacent := FindAt(if up then here - 1 else here + 1);
    }

    /** Two sections change places by way of an ordinal that no section can hold. */
    method Exchange(id: nat, other: nat)
      requires Ordered(order, rows) && |order| <= MAX_SECTIONS && id in rows && other in rows && id != other
      modifies `rows
      ensures var p, q := old(rows)[id].ordinal - 1, old(rows)[other].ordinal - 1;
              var swapped := order[p := other][q := id];
              && Ordered(swapped, rows) && rows.Keys == old(rows).Keys
              && View(swapped, rows) == old(View(order, rows))[p := old(View(order, rows))[q]][q := old(View(order, rows))[p]]
    {
      var here, there := rows[id].ordinal, rows[other].ordinal;
      ghost var before := rows;
      hide View;
      SetOrdinal(id, TEMPORARY);
      SetOrdinal(other, here);
      SetOrdinal(id, there);
      assert rows == before[id := before[id].(ordinal := there)][other := before[other].(ordinal := here)];
      MovedRows(order, before, id, other, rows);
    }

    /** The sections after a removed one move up in turn, each into the place just freed. */
    method CloseGap(gone: nat, ghost before: map<nat, Row>, ghost id: nat)
      requires Ordered(order, before) && id in before && before[id].ordinal == gone && rows == before - {id}
      modifies `rows
      ensures rows.Keys == before.Keys - {id}
      ensures var left := order[..gone - 1] + order[gone..];
              && Ordered(left, rows)
              && View(left, rows) == View(order, before)[..gone - 1] + View(order, before)[gone..]
    {
      hide View, Ordered;
      assert 1 <= gone <= |order| by { InUseExactly(order, before, gone); }
      assert ClosedUp(before, rows, id, gone, gone + 1);
      hide ClosedUp;
      var next := gone + 1;
      var later := FindAt(next);
      while later.Some?
        invariant gone < next <= |order| + 1
        invariant ClosedUp(before, rows, id, gone, next)
        invariant later.Some? ==> later.value in rows && rows[later.value].ordinal == next
        invariant later.None? ==> !InUse(rows, next)
        decreases |order| + 1 - next
      {
        ClosesNext(order, before, rows, id, gone, next, later.value);
        SetOrdinal(later.value, next - 1);
        next := next + 1;
        later := FindAt(next);
      }
      AllClosedUp(order, before, rows, id, next);
    }

    method SwapWith(id: nat, other: nat, clock: nat)
      requires Valid() && live && id in rows && other in rows && id != other
      modifies `rows, `updated, `order
      ensures Valid()
      ensures var r, p, q := old(Contents()).report, old(rows)[id].ordinal - 1, old(rows)[other].ordinal - 1;
              Contents() == Live(Swapped(r, p, q, EditTime(clock, r.updated)))
    {
      ghost var p, q := rows[id].ordinal - 1, rows[other].ordinal - 1;
      Exchange(id, other);
      order := order[p := other][q := id];
      updated := EditTime(clock, updated);
    }

    method Move(id: nat, up: bool, token: nat, clock: nat) returns (outcome: Outcome)
      requires Valid()
      modifies `rows, `updated, `order
      ensures Valid()
      ensures (Contents(), outcome) == Perform(old(Contents()), Edit.Move(id, up, token), clock)
    {
      PositionIsOrdinal(order, rows, id);
      hide View, Position;
      if !live {
        return Missing;
      }
      if token != updated {
        return Conflict;
      }
      if id !in rows {
        return Missing;
      }
      var adjacent := Adjacent(id, up);
      if adjacent.None? {
        return NothingToDo;
      }
      MoveApplies(Contents().report, id, up, rows[id].ordinal - 1, rows[adjacent.value].ordinal - 1, clock);
      hide Perform;
      SwapWith(id, adjacent.value, clock);
      return Applied;
    }

    method Remove(id: nat, token: nat, shown: Status, clock: nat) returns (outcome: Outcome)
      requires Valid()
      modifies `rows, `updated, `order
      ensures Valid()
      ensures (Contents(), outcome) == Perform(old(Contents()), Edit.Remove(id, token, shown), clock)
    {
      PositionIsOrdinal(order, rows, id);
      hide View, Position;
      if !live {
        return Missing;
      }
      if shown != status {
        return Conflict;
      }
      if id !in rows {
        return Missing;
      }
      if token != rows[id].updated {
        return Conflict;
      }
      var gone := rows[id].ordinal;
      rows := rows - {id};
      CloseGap(gone, old(rows), id);
      order := order[..gone - 1] + order[gone..];
      updated := EditTime(clock, updated);
      return Applied;
    }

    method DeleteReport(token: nat) returns (outcome: Outcome)
      requires Valid()
      modifies `live, `rows, `order
      ensures Valid()
      ensures forall clock: nat :: (Contents(), outcome) == Perform(old(Contents()), Edit.DeleteReport(token), clock)
    {
      if !live {
        return Missing;
      }
      if token != updated {
        return Conflict;
      }
      live, rows, order := false, map[], [];
      return Applied;
    }
  }
}
