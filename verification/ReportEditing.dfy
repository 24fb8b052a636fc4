/**
  One shared Report and any number of reviewers who edit it from pages they opened earlier.
  A page carries the version tokens it showed; an edit is applied only if the tokens it depends on
  are still current. This module says what each edit does and what the tokens guarantee.
 */
module ReportEditing {
  import opened Wrappers

  const MAX_SECTIONS: nat := 500

  datatype Status = Draft | Final

  /** `updated` is the version token: a time that every applied change moves forward. */
  datatype Section = Section(id: nat, heading: string, body: string, updated: nat)

  /** Sections in displayed order; `nextId` stands for the supply of fresh section names. */
  datatype Report = Report(title: string, purpose: string, status: Status, updated: nat,
                           sections: seq<Section>, nextId: nat)

  datatype State = Deleted | Live(report: Report)

  datatype Edit =
    | SaveHeader(token: nat, title: string, purpose: string, status: Status)
    | Add(shown: Status, heading: string, body: string)
    | SaveSection(id: nat, token: nat, shown: Status, heading: string, body: string)
    | Move(id: nat, up: bool, token: nat)
    | Remove(id: nat, token: nat, shown: Status)
    | DeleteReport(token: nat)

  datatype Outcome = Applied | NothingToDo | Conflict | Missing | Full

  function Max(a: nat, b: nat): nat { if a > b then a else b }

  /** The time an edit is saved at: later than what it replaces, however the clock behaves. */
  function EditTime(clock: nat, previous: nat): nat { Max(clock, previous + 1) }

  function Position(sections: seq<Section>, id: nat): (position: Option<nat>)
    ensures position.Some? ==> position.value < |sections| && sections[position.value].id == id
    ensures position.None? ==> forall i :: 0 <= i < |sections| ==> sections[i].id != id
  {
    if sections == [] then None
    else if sections[|sections| - 1].id == id then Some(|sections| - 1)
    else Position(sections[..|sections| - 1], id)
  }

  /** The neighbour a section changes places with, if it has one in that direction. */
  function Neighbour(count: nat, position: nat, up: bool): Option<nat> {
    if up then (if position > 0 then Some(position - 1) else None)
    else if position + 1 < count then Some(position + 1) else None
  }

  function Appended(r: Report, heading: string, body: string, now: nat): Report {
    r.(sections := r.sections + [Section(r.nextId, heading, body, now)], nextId := r.nextId + 1, updated := now)
  }

  function Rewritten(r: Report, p: nat, heading: string, body: string, now: nat): Report
    requires p < |r.sections|
  {
    r.(sections := r.sections[p := Section(r.sections[p].id, heading, body, now)], updated := now)
  }

  function Swapped(r: Report, p: nat, q: nat, now: nat): Report
    requires p < |r.sections| && q < |r.sections|
  {
    r.(sections := r.sections[p := r.sections[q]][q := r.sections[p]], updated := now)
  }

  function Without(r: Report, p: nat, now: nat): Report
    requires p < |r.sections|
  {
    r.(sections := r.sections[..p] + r.sections[p + 1..], updated := now)
  }

  function Perform(state: State, edit: Edit, clock: nat): (State, Outcome) {
    if state.Deleted? then (state, Missing)
    else
      var r := state.report;
      var now := EditTime(clock, r.updated);
      match edit
      case SaveHeader(token, title, purpose, status) =>
        if token != r.updated then (state, Conflict)
        else (Live(r.(title := title, purpose := purpose, status := status, updated := now)), Applied)
      case Add(shown, heading, body) =>
        if shown != r.status then (state, Conflict)
        else if |r.sections| >= MAX_SECTIONS then (state, Full)
        else (Live(Appended(r, heading, body, now)), Applied)
      case SaveSection(id, token, shown, heading, body) =>
        if shown != r.status then (state, Conflict)
        else if Position(r.sections, id).None? then (state, Missing)
        else
          var p := Position(r.sections, id).value;
          if token != r.sections[p].updated then (state, Conflict)
          else (Live(Rewritten(r, p, heading, body, EditTime(clock, Max(r.updated, r.sections[p].updated)))), Applied)
      case Move(id, up, token) =>
        if token != r.updated then (state, Conflict)
        else if Position(r.sections, id).None? then (state, Missing)
        else
          var p := Position(r.sections, id).value;
          var q := Neighbour(|r.sections|, p, up);
          if q.None? then (state, NothingToDo) else (Live(Swapped(r, p, q.value, now)), Applied)
      case Remove(id, token, shown) =>
        if shown != r.status then (state, Conflict)
        else if Position(r.sections, id).None? then (state, Missing)
        else
          var p := Position(r.sections, id).value;
          if token != r.sections[p].updated then (state, Conflict) else (Live(Without(r, p, now)), Applied)
      case DeleteReport(token) =>
        if token != r.updated then (state, Conflict) else (Deleted, Applied)
  }

  /** One submitted edit and what the clock said at that moment. */
  datatype Save = Save(edit: Edit, clock: nat)

  function Replay(state: State, log: seq<Save>): State {
    if log == [] then state
    else
      var before := Replay(state, log[..|log| - 1]);
      Perform(before, log[|log| - 1].edit, log[|log| - 1].clock).0
  }

  // ---- what every edit keeps ------------------------------------------------------------------

  ghost predicate Good(r: Report) {
    && |r.sections| <= MAX_SECTIONS
    && (forall i :: 0 <= i < |r.sections| ==> r.sections[i].id < r.nextId && r.sections[i].updated <= r.updated)
    && forall i, j :: 0 <= i < |r.sections| && 0 <= j < |r.sections| && i != j ==> r.sections[i].id != r.sections[j].id
  }

  ghost predicate GoodState(state: State) { state.Live? ==> Good(state.report) }

  /** The same section as before, or a later version of it. */
  ghost predicate SectionMovesOn(before: Section, after: Section) {
    before == after || before.updated < after.updated
  }

  /**
    How a Report relates to any later state of it: its token tells the two apart, each section's
    token tells its versions apart, and a section once gone never comes back.
   */
  ghost predicate MovesOn(before: Report, after: Report) {
    && (before == after || before.updated < after.updated)
    && before.nextId <= after.nextId
    && (forall i, j :: 0 <= i < |before.sections| && 0 <= j < |after.sections| && before.sections[i].id == after.sections[j].id ==>
         SectionMovesOn(before.sections[i], after.sections[j]))
    && forall j :: 0 <= j < |after.sections| && after.sections[j].id < before.nextId ==>
         Position(before.sections, after.sections[j].id).Some?
  }

  ghost predicate StateMovesOn(before: State, after: State) {
    after.Live? ==> before.Live? && MovesOn(before.report, after.report)
  }

  lemma PositionUnique(r: Report, i: nat)
    requires Good(r) && i < |r.sections|
    ensures Position(r.sections, r.sections[i].id) == Some(i)
  {
  }

  lemma AppendedIsGood(r: Report, heading: string, body: string, now: nat)
    requires Good(r) && |r.sections| < MAX_SECTIONS && r.updated < now
    ensures Good(Appended(r, heading, body, now)) && MovesOn(r, Appended(r, heading, body, now))
  {
  }

  lemma RewrittenIsGood(r: Report, p: nat, heading: string, body: string, now: nat)
    requires Good(r) && p < |r.sections| && r.updated < now
    ensures Good(Rewritten(r, p, heading, body, now)) && MovesOn(r, Rewritten(r, p, heading, body, now))
  {
  }

  lemma SwappedIsGood(r: Report, p: nat, q: nat, now: nat)
    requires Good(r) && p < |r.sections| && q < |r.sections| && r.updated < now
    ensures Good(Swapped(r, p, q, now)) && MovesOn(r, Swapped(r, p, q, now))
  {
  }

  lemma WithoutIsGood(r: Report, p: nat, now: nat)
    requires Good(r) && p < |r.sections| && r.updated < now
    ensures Good(Without(r, p, now)) && MovesOn(r, Without(r, p, now))
  {
  }

  lemma SectionEditMovesOn(r: Report, edit: Edit, clock: nat)
    requires Good(r) && (edit.SaveSection? || edit.Move? || edit.Remove?) && Position(r.sections, edit.id).Some?
    ensures var (after, outcome) := Perform(Live(r), edit, clock);
            GoodState(after) && StateMovesOn(Live(r), after) && (outcome == Applied <==> after != Live(r))
  {
    var p, now := Position(r.sections, edit.id).value, EditTime(clock, r.updated);
    SameReport(r);
    hide Good, MovesOn;
    match edit
    case SaveSection(id, token, shown, heading, body) =>
      RewrittenIsGood(r, p, heading, body, EditTime(clock, Max(r.updated, r.sections[p].updated)));
    case Move(id, up, token) =>
      if Neighbour(|r.sections|, p, up).Some? { SwappedIsGood(r, p, Neighbour(|r.sections|, p, up).value, now); }
    case Remove(id, token, shown) => WithoutIsGood(r, p, now);
  }

  /** Every edit keeps the Report sound, and moves it on exactly when it is applied. */
  lemma PerformMovesOn(state: State, edit: Edit, clock: nat)
    requires GoodState(state)
    ensures var (after, outcome) := Perform(state, edit, clock);
            GoodState(after) && StateMovesOn(state, after) && (outcome == Applied <==> after != state)
  {
    if state.Live? {
      var r := state.report;
      var now := EditTime(clock, r.updated);
      SameReport(r);
      if (edit.SaveSection? || edit.Move? || edit.Remove?) && Position(r.sections, edit.id).Some? {
        SectionEditMovesOn(r, edit, clock);
      } else if edit.SaveHeader? {
        HeaderMovesOn(r, r.(title := edit.title, purpose := edit.purpose, status := edit.status, updated := now));
      } else if edit.Add? && |r.sections| < MAX_SECTIONS {
        AppendedIsGood(r, edit.heading, edit.body, now);
      }
    }
  }

  lemma SameReport(r: Report)
    requires Good(r)
    ensures MovesOn(r, r)
  {
  }

  lemma HeaderMovesOn(r: Report, after: Report)
    requires Good(r) && after.sections == r.sections && after.nextId == r.nextId && r.updated < after.updated
    ensures Good(after) && MovesOn(r, after)
  {
  }

  // ---- pages and logs -------------------------------------------------------------------------

  /** The edit carries exactly the tokens that this page shows for what it depends on. */
  predicate FromPage(edit: Edit, page: Report) {
    match edit
    case SaveHeader(token, _, _, _) => token == page.updated
    case Add(shown, _, _) => shown == page.status
    case SaveSection(id, token, shown, _, _) =>
      shown == page.status && Position(page.sections, id).Some?
      && token == page.sections[Position(page.sections, id).value].updated
    case Move(_, _, token) => token == page.updated
    case Remove(id, token, shown) =>
      shown == page.status && Position(page.sections, id).Some?
      && token == page.sections[Position(page.sections, id).value].updated
    case DeleteReport(token) => token == page.updated
  }

  lemma StateMovesOnTransitive(a: State, b: State, c: State)
    requires GoodState(a) && GoodState(b) && GoodState(c) && StateMovesOn(a, b) && StateMovesOn(b, c)
    ensures StateMovesOn(a, c)
  {
  }

  /** A log moves a Report on from each of its points to each later one. */
  lemma {:induction false} LogMovesOn(state: State, log: seq<Save>, k: nat)
    requires GoodState(state) && k <= |log|
    ensures GoodState(Replay(state, log)) && GoodState(Replay(state, log[..k]))
    ensures StateMovesOn(Replay(state, log[..k]), Replay(state, log))
    decreases |log|
  {
    if k == |log| {
      assert log[..k] == log;
      if log != [] {
        LogMovesOn(state, log[..|log| - 1], |log| - 1);
        PerformMovesOn(Replay(state, log[..|log| - 1]), log[|log| - 1].edit, log[|log| - 1].clock);
      }
      var end := Replay(state, log);
      if end.Live? { SameReport(end.report); }
    } else {
      var front := log[..|log| - 1];
      LogMovesOn(state, front, k);
      assert front[..k] == log[..k];
      PerformMovesOn(Replay(state, front), log[|log| - 1].edit, log[|log| - 1].clock);
      StateMovesOnTransitive(Replay(state, log[..k]), Replay(state, front), Replay(state, log));
    }
  }

  // ---- what a token proves --------------------------------------------------------------------

  /** The current Report still has this section of the page, word for word. */
  ghost predicate Unchanged(page: Report, current: Report, id: nat) {
    && Position(page.sections, id).Some? && Position(current.sections, id).Some?
    && page.sections[Position(page.sections, id).value] == current.sections[Position(current.sections, id).value]
  }

  /** What must still be as the page showed it for an edit to be applied. */
  ghost predicate StillShown(edit: Edit, page: Report, current: Report) {
    match edit
    case SaveHeader(_, _, _, _) => current == page
    case Move(_, _, _) => current == page
    case DeleteReport(_) => current == page
    case Add(_, _, _) => current.status == page.status
    case SaveSection(id, _, _, _, _) => current.status == page.status && Unchanged(page, current, id)
    case Remove(id, _, _) => current.status == page.status && Unchanged(page, current, id)
  }

  /** An edit that the page's own state would have applied, the section limit aside. */
  predicate Possible(edit: Edit, current: Report) {
    match edit
    case Add(_, _, _) => |current.sections| < MAX_SECTIONS
    case Move(id, up, _) =>
      Position(current.sections, id).Some?
      && Neighbour(|current.sections|, Position(current.sections, id).value, up).Some?
    case _ => true
  }

  /**
    No lost update, exactly: however many edits came in between, one from an earlier page is applied
    if and only if what it replaces or depends on is still what that page showed.
   */
  lemma AppliedExactlyWhenShown(page: Report, current: Report, edit: Edit, clock: nat)
    requires Good(page) && Good(current) && MovesOn(page, current) && FromPage(edit, page)
    ensures Perform(Live(current), edit, clock).1 == Applied
       <==> StillShown(edit, page, current) && Possible(edit, current)
  {
    if edit.SaveSection? || edit.Remove? {
      var p := Position(page.sections, edit.id).value;
      if Position(current.sections, edit.id).Some? {
        var q := Position(current.sections, edit.id).value;
        assert SectionMovesOn(page.sections[p], current.sections[q]);
      }
    }
  }

  /** The same over any log of saves by any number of reviewers: page k against the state at the end. */
  lemma NoLostUpdate(start: State, log: seq<Save>, k: nat, edit: Edit, clock: nat)
    requires GoodState(start) && k <= |log| && Replay(start, log[..k]).Live?
    requires FromPage(edit, Replay(start, log[..k]).report)
    ensures var current := Replay(start, log);
            Perform(current, edit, clock).1 == Applied <==>
              current.Live? && StillShown(edit, Replay(start, log[..k]).report, current.report) && Possible(edit, current.report)
  {
    LogMovesOn(start, log, k);
    var current := Replay(start, log);
    if current.Live? {
      AppliedExactlyWhenShown(Replay(start, log[..k]).report, current.report, edit, clock);
    }
  }

  // ---- what a refused edit is told ------------------------------------------------------------

  /** The edit needs a section that is not there any more. */
  predicate SectionGone(edit: Edit, current: Report) {
    (edit.SaveSection? || edit.Move? || edit.Remove?)
    && forall i :: 0 <= i < |current.sections| ==> current.sections[i].id != edit.id
  }

  /** What is compared first: the status for work on single sections, all of the Report for anything else. */
  ghost predicate AsShown(edit: Edit, page: Report, current: Report) {
    if edit.Add? || edit.SaveSection? || edit.Remove? then current.status == page.status else current == page
  }

  /** The section to move already stands first, or last. */
  predicate AtTheEnd(edit: Edit, current: Report) {
    edit.Move? && |current.sections| > 0
    && (if edit.up then current.sections[0].id == edit.id else current.sections[|current.sections| - 1].id == edit.id)
  }

  /** Which answer belongs to an edit sent from this page, given what the Report is by then. */
  ghost predicate RightAnswer(edit: Edit, page: Report, current: State, outcome: Outcome) {
    && (outcome == Missing <==>
         current.Deleted? || (AsShown(edit, page, current.report) && SectionGone(edit, current.report)))
    && (outcome == Full <==>
         current.Live? && edit.Add? && current.report.status == page.status && |current.report.sections| >= 500)
    && (outcome == NothingToDo <==> current.Live? && current.report == page && AtTheEnd(edit, current.report))
    && (outcome == Conflict <==>
         current.Live?
         && (!AsShown(edit, page, current.report)
             || ((edit.SaveSection? || edit.Remove?) && !SectionGone(edit, current.report)
                 && !Unchanged(page, current.report, edit.id))))
  }

  /**
    What each edit from an earlier page is answered with: missing, full and nothing to do only if all
    that is compared is as the page showed it, and conflict exactly if what is compared first, or
    else the section itself, is not.
   */
  lemma OutcomesExactly(page: Report, current: State, edit: Edit, clock: nat)
    requires Good(page) && GoodState(current) && StateMovesOn(Live(page), current) && FromPage(edit, page)
    ensures RightAnswer(edit, page, current, Perform(current, edit, clock).1)
  {
    if current.Live? {
      var r := current.report;
      AppliedExactlyWhenShown(page, r, edit, clock);
      if edit.SaveSection? || edit.Remove? {
        SectionOutcomes(page, r, edit, clock);
      } else if edit.Move? {
        MoveOutcomes(page, r, edit, clock);
      }
    }
  }

  lemma SectionOutcomes(page: Report, current: Report, edit: Edit, clock: nat)
    requires Good(page) && Good(current) && MovesOn(page, current) && FromPage(edit, page)
    requires edit.SaveSection? || edit.Remove?
    ensures var outcome := Perform(Live(current), edit, clock).1;
            && (outcome == Missing <==> current.status == page.status && SectionGone(edit, current))
            && (outcome == Conflict <==>
                 current.status != page.status || (!SectionGone(edit, current) && !Unchanged(page, current, edit.id)))
            && outcome in {Applied, Missing, Conflict}
  {
    AppliedExactlyWhenShown(page, current, edit, clock);
    assert SectionGone(edit, current) <==> Position(current.sections, edit.id).None?;
  }

  lemma MoveOutcomes(page: Report, current: Report, edit: Edit, clock: nat)
    requires Good(page) && Good(current) && MovesOn(page, current) && FromPage(edit, page) && edit.Move?
    ensures var outcome := Perform(Live(current), edit, clock).1;
            && (outcome == Missing <==> current == page && SectionGone(edit, current))
            && (outcome == NothingToDo <==> current == page && AtTheEnd(edit, current))
            && (outcome == Conflict <==> current != page)
            && outcome != Full
  {
    assert SectionGone(edit, current) <==> Position(current.sections, edit.id).None?;
    if Position(current.sections, edit.id).Some? {
      var p := Position(current.sections, edit.id).value;
      assert AtTheEnd(edit, current) <==> if edit.up then p == 0 else p == |current.sections| - 1;
    }
  }

  /** The same over any log of saves: page k against the state at the end. */
  lemma RefusalsOverLogs(start: State, log: seq<Save>, k: nat, edit: Edit, clock: nat)
    requires GoodState(start) && k <= |log| && Replay(start, log[..k]).Live?
    requires FromPage(edit, Replay(start, log[..k]).report)
    ensures var current := Replay(start, log);
            RightAnswer(edit, Replay(start, log[..k]).report, current, Perform(current, edit, clock).1)
  {
    LogMovesOn(start, log, k);
    hide Perform, Replay, Good, MovesOn, RightAnswer;
    OutcomesExactly(Replay(start, log[..k]).report, Replay(start, log), edit, clock);
  }

  /**
    The time an applied edit is saved at is the clock's, unless the clock has not passed the Report's
    last change; then it is just after that. Every section it rewrites or adds carries that time.
   */
  lemma SavedAt(r: Report, edit: Edit, clock: nat)
    requires Good(r) && Perform(Live(r), edit, clock).1 == Applied && !edit.DeleteReport?
    ensures var after := Perform(Live(r), edit, clock).0;
            && after.Live? && after.report.updated == (if clock > r.updated then clock else r.updated + 1)
            && forall i :: 0 <= i < |after.report.sections| ==>
                 after.report.sections[i] in r.sections || after.report.sections[i].updated == after.report.updated
  {
    var sections := r.sections;
    assert forall i :: 0 <= i < |sections| ==> sections[i] in sections;
  }

  // ---- Final ----------------------------------------------------------------------------------

  /** A Report becomes Final only from a page that showed all of it as it now is. */
  lemma FinalSawEverything(start: State, log: seq<Save>, k: nat, edit: Edit, clock: nat)
    requires GoodState(start) && k <= |log| && Replay(start, log[..k]).Live?
    requires FromPage(edit, Replay(start, log[..k]).report)
    ensures var before, after := Replay(start, log), Perform(Replay(start, log), edit, clock).0;
            before.Live? && after.Live? && before.report.status != after.report.status ==>
              edit.SaveHeader? && before == Replay(start, log[..k])
  {
    NoLostUpdate(start, log, k, edit, clock);
  }

  /** While the Report is Final, nothing sent from a page opened as Draft is applied. */
  lemma DraftPagesAreRefused(start: State, log: seq<Save>, k: nat, edit: Edit, clock: nat)
    requires GoodState(start) && k <= |log| && Replay(start, log[..k]).Live?
    requires FromPage(edit, Replay(start, log[..k]).report)
    requires Replay(start, log[..k]).report.status == Draft
    requires Replay(start, log).Live? && Replay(start, log).report.status == Final
    ensures Perform(Replay(start, log), edit, clock) == (Replay(start, log), Conflict)
         || Perform(Replay(start, log), edit, clock) == (Replay(start, log), Missing)
  {
    LogMovesOn(start, log, k);
  }

  /** The refusal lasts only while the Report is Final: the status compared is the current one. */
  lemma DraftPageAfterReopening()
    ensures var page := Report("t", "", Draft, 0, [Section(0, "h", "b", 0)], 1);
            var log := [Save(SaveHeader(0, "t", "", Final), 5), Save(SaveHeader(5, "t", "", Draft), 6)];
            var edit := SaveSection(0, 0, Draft, "h", "old page");
            FromPage(edit, page) && Perform(Replay(Live(page), log), edit, 7).1 == Applied
  {
  }

  // ---- independent work survives --------------------------------------------------------------

  /** Where a section stands, and its text without its version token. */
  function Text(r: Report, id: nat): Option<(string, string)> {
    var p := Position(r.sections, id);
    if p.None? then None else Some((r.sections[p.value].heading, r.sections[p.value].body))
  }

  /** An applied edit of one section changes that section's text and no other part of the content. */
  lemma SaveChangesOneSection(r: Report, edit: Edit, clock: nat, other: nat)
    requires Good(r) && edit.SaveSection? && Perform(Live(r), edit, clock).1 == Applied
    ensures var after := Perform(Live(r), edit, clock).0.report;
            && Text(after, edit.id) == Some((edit.heading, edit.body))
            && (other != edit.id ==>
                 Text(after, other) == Text(r, other) && (Position(r.sections, other).Some? ==> Unchanged(r, after, other)))
            && after.title == r.title && after.purpose == r.purpose && after.status == r.status
            && forall id :: Position(after.sections, id) == Position(r.sections, id)
  {
    var p := Position(r.sections, edit.id).value;
    var after := Perform(Live(r), edit, clock).0.report;
    forall id ensures Position(after.sections, id) == Position(r.sections, id) {
      SamePositions(r.sections, after.sections, id);
    }
  }

  lemma {:induction false} SamePositions(before: seq<Section>, after: seq<Section>, id: nat)
    requires |before| == |after| && forall i :: 0 <= i < |before| ==> before[i].id == after[i].id
    ensures Position(before, id) == Position(after, id)
  {
    if before != [] {
      SamePositions(before[..|before| - 1], after[..|after| - 1], id);
    }
  }

  /** Two reviewers who edit different sections from one page both succeed, in either order, with one result. */
  lemma DifferentSectionsBothSaved(page: Report, a: Edit, b: Edit, first: nat, second: nat)
    requires Good(page) && a.SaveSection? && b.SaveSection? && a.id != b.id && FromPage(a, page) && FromPage(b, page)
    ensures var one, other := Perform(Live(page), a, first), Perform(Live(page), b, first);
            var ab, ba := Perform(one.0, b, second), Perform(other.0, a, second);
            && one.1 == Applied && other.1 == Applied && ab.1 == Applied && ba.1 == Applied
            && Text(ab.0.report, a.id) == Text(ba.0.report, a.id) == Some((a.heading, a.body))
            && Text(ab.0.report, b.id) == Text(ba.0.report, b.id) == Some((b.heading, b.body))
            && forall id :: id != a.id && id != b.id ==> Text(ab.0.report, id) == Text(page, id) == Text(ba.0.report, id)
  {
    BothSaved(page, a, b, first, second);
    BothSaved(page, b, a, first, second);
  }

  lemma BothSaved(page: Report, a: Edit, b: Edit, first: nat, second: nat)
    requires Good(page) && a.SaveSection? && b.SaveSection? && a.id != b.id && FromPage(a, page) && FromPage(b, page)
    ensures var one := Perform(Live(page), a, first);
            var both := Perform(one.0, b, second);
            && one.1 == Applied && both.1 == Applied
            && Text(both.0.report, a.id) == Some((a.heading, a.body))
            && Text(both.0.report, b.id) == Some((b.heading, b.body))
            && forall id :: id != a.id && id != b.id ==> Text(both.0.report, id) == Text(page, id)
  {
    PerformMovesOn(Live(page), a, first);
    var one := Perform(Live(page), a, first).0.report;
    forall id ensures id != a.id ==> Text(one, id) == Text(page, id) {
      SaveChangesOneSection(page, a, first, id);
    }
    SaveChangesOneSection(page, a, first, b.id);
    AppliedExactlyWhenShown(page, one, b, second);
    var both := Perform(Live(one), b, second).0.report;
    forall id ensures id != b.id ==> Text(both, id) == Text(one, id) {
      SaveChangesOneSection(one, b, second, id);
    }
    SaveChangesOneSection(one, b, second, a.id);
  }

  /** Additions from pages of any age are all kept, in the order they arrived, until the Report is full. */
  lemma AdditionsAreKept(r: Report, a: Edit, b: Edit, first: nat, second: nat)
    requires Good(r) && a.Add? && b.Add? && a.shown == r.status && b.shown == r.status && |r.sections| + 2 <= MAX_SECTIONS
    ensures var after := Perform(Perform(Live(r), a, first).0, b, second).0;
            && after.Live? && |after.report.sections| == |r.sections| + 2
            && after.report.sections[..|r.sections|] == r.sections
            && after.report.sections[|r.sections|].body == a.body
            && after.report.sections[|r.sections| + 1].body == b.body
  {
  }

  lemma RemovedIsGone(r: Report, p: nat, now: nat)
    requires Good(r) && p < |r.sections|
    ensures Position(Without(r, p, now).sections, r.sections[p].id).None?
  {
  }

  /** Where each remaining section stands after a removal. */
  lemma RemovedKeeps(r: Report, p: nat, now: nat, i: nat)
    requires Good(r) && p < |r.sections| && i < |r.sections| && i != p && r.updated < now
    ensures var after := Without(r, p, now);
            && Position(after.sections, r.sections[i].id) == Some(if i < p then i else i - 1)
            && after.sections[if i < p then i else i - 1] == r.sections[i]
            && Position(after.sections, r.sections[p].id).None?
  {
    var after := Without(r, p, now);
    var j := if i < p then i else i - 1;
    WithoutIsGood(r, p, now);
    PositionUnique(after, j);
    RemovedIsGone(r, p, now);
    hide Position, MovesOn, Good;
    assert after.sections[j] == r.sections[i];
  }

  /** A removed section is gone, and the others keep their text and their order. */
  lemma RemoveDropsOne(r: Report, edit: Edit, clock: nat, a: nat, b: nat)
    requires Good(r) && edit.Remove? && Perform(Live(r), edit, clock).1 == Applied
    requires a != edit.id && b != edit.id && Position(r.sections, a).Some? && Position(r.sections, b).Some?
    ensures var after := Perform(Live(r), edit, clock).0.report;
            && Position(after.sections, edit.id).None?
            && Unchanged(r, after, a) && Unchanged(r, after, b)
            && (Position(r.sections, a).value < Position(r.sections, b).value <==>
                 Position(after.sections, a).value < Position(after.sections, b).value)
  {
    var p, now := Position(r.sections, edit.id).value, EditTime(clock, r.updated);
    assert Perform(Live(r), edit, clock).0.report == Without(r, p, now);
    RemovedKeeps(r, p, now, Position(r.sections, a).value);
    RemovedKeeps(r, p, now, Position(r.sections, b).value);
    hide Perform, Without, Good, Position;
  }

  lemma MoveApplies(r: Report, id: nat, up: bool, p: nat, q: nat, clock: nat)
    requires Position(r.sections, id) == Some(p) && Neighbour(|r.sections|, p, up) == Some(q)
    ensures q < |r.sections|
    ensures Perform(Live(r), Move(id, up, r.updated), clock) == (Live(Swapped(r, p, q, EditTime(clock, r.updated))), Applied)
  {
  }

  lemma SwapTwice(r: Report, p: nat, q: nat, first: nat, second: nat)
    requires Good(r) && p < |r.sections| && q < |r.sections| && p != q && r.updated < first
    ensures var moved := Swapped(r, p, q, first);
            && Position(moved.sections, r.sections[p].id) == Some(q)
            && multiset(moved.sections) == multiset(r.sections)
            && Swapped(moved, q, p, second).sections == r.sections
  {
    var moved := Swapped(r, p, q, first);
    SwappedIsGood(r, p, q, first);
    PositionUnique(moved, q);
    assert Swapped(moved, q, p, second).sections == r.sections;
  }

  /** Moving a section changes places with exactly one neighbour, and moving it back undoes the move. */
  lemma MoveAndBack(r: Report, id: nat, up: bool, first: nat, second: nat)
    requires Good(r) && Perform(Live(r), Move(id, up, r.updated), first).1 == Applied
    ensures var moved := Perform(Live(r), Move(id, up, r.updated), first).0.report;
            var p := Position(r.sections, id).value;
            && Position(moved.sections, id) == Some(if up then p - 1 else p + 1)
            && multiset(moved.sections) == multiset(r.sections)
            && (forall i :: 0 <= i < |r.sections| && i != p && i != (if up then p - 1 else p + 1) ==> moved.sections[i] == r.sections[i])
            && var back := Perform(Live(moved), Move(id, !up, moved.updated), second);
               back.1 == Applied && back.0.report.sections == r.sections
  {
    var p := Position(r.sections, id).value;
    var q := if up then p - 1 else p + 1;
    var now := EditTime(first, r.updated);
    MoveApplies(r, id, up, p, q, first);
    SwapTwice(r, p, q, now, EditTime(second, now));
    MoveApplies(Swapped(r, p, q, now), id, !up, q, p, second);
    hide Perform, Good, Position;
  }

  /** A move leaves every section's editor valid. */
  lemma MoveKeepsEditors(page: Report, move: Edit, first: nat, edit: Edit, second: nat)
    requires Good(page) && move.Move? && FromPage(move, page) && edit.SaveSection? && FromPage(edit, page)
    ensures Perform(Perform(Live(page), move, first).0, edit, second).1 == Applied
  {
    PerformMovesOn(Live(page), move, first);
    var moved := Perform(Live(page), move, first).0.report;
    AppliedExactlyWhenShown(page, moved, edit, second);
    var p := Position(page.sections, edit.id).value;
    if moved != page {
      var m := Position(page.sections, move.id).value;
      var n := Neighbour(|page.sections|, m, move.up).value;
      PositionUnique(moved, if p == m then n else if p == n then m else p);
    }
  }
}
