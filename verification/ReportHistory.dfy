/** What becomes of each reviewer's work over a whole log of saves, from pages of any age and in any order. */
module ReportHistory {
  import opened ReportEditing
  import opened Wrappers

  /** The Report after the first n saves of a log. */
  function StateAt(start: State, log: seq<Save>, n: nat): State
    requires n <= |log|
  {
    Replay(start, log[..n])
  }

  predicate AppliedAt(start: State, log: seq<Save>, i: nat)
    requires i < |log|
  {
    Perform(StateAt(start, log, i), log[i].edit, log[i].clock).1 == Applied
  }

  /** The edit replaces or removes this section, or the Report with it. */
  predicate Touches(edit: Edit, id: nat) {
    edit.DeleteReport? || ((edit.SaveSection? || edit.Remove?) && edit.id == id)
  }

  /** No save from k up to n that was applied touches the section. */
  ghost predicate Untouched(start: State, log: seq<Save>, k: nat, n: nat, id: nat)
    requires n <= |log|
  {
    forall i: nat :: k <= i < n && AppliedAt(start, log, i) ==> !Touches(log[i].edit, id)
  }

  lemma NextState(start: State, log: seq<Save>, n: nat)
    requires n < |log|
    ensures StateAt(start, log, n + 1) == Perform(StateAt(start, log, n), log[n].edit, log[n].clock).0
  {
    assert log[..n + 1][..n] == log[..n];
  }

  lemma StatesMoveOn(start: State, log: seq<Save>, k: nat, n: nat)
    requires GoodState(start) && k <= n <= |log|
    ensures GoodState(StateAt(start, log, k)) && GoodState(StateAt(start, log, n))
    ensures StateMovesOn(StateAt(start, log, k), StateAt(start, log, n))
  {
    assert log[..n][..k] == log[..k];
    LogMovesOn(start, log[..n], k);
  }

  // ---- a section's fate -----------------------------------------------------------------------

  lemma EditLeaves(r: Report, edit: Edit, clock: nat, id: nat)
    requires Good(r) && Position(r.sections, id).Some?
    ensures var (after, outcome) := Perform(Live(r), edit, clock);
            (after.Live? && Unchanged(r, after.report, id)) <==> !(outcome == Applied && Touches(edit, id))
  {
    var (after, outcome) := Perform(Live(r), edit, clock);
    PerformMovesOn(Live(r), edit, clock);
    var p := Position(r.sections, id).value;
    if outcome == Applied && after.Live? {
      match edit
      case SaveHeader(_, _, _, _) =>
      case Add(_, _, _) => PositionUnique(after.report, p);
      case SaveSection(_, _, _, _, _) => SaveChangesOneSection(r, edit, clock, id);
      case Move(_, _, _) => MoveLeaves(r, edit, clock, id);
      case Remove(_, _, _) => RemoveLeaves(r, edit, clock, id);
      case DeleteReport(_) =>
    }
  }

  lemma MoveLeaves(r: Report, edit: Edit, clock: nat, id: nat)
    requires Good(r) && Position(r.sections, id).Some? && edit.Move? && Perform(Live(r), edit, clock).1 == Applied
    ensures Unchanged(r, Perform(Live(r), edit, clock).0.report, id)
  {
    PerformMovesOn(Live(r), edit, clock);
    var p, m := Position(r.sections, id).value, Position(r.sections, edit.id).value;
    var n := Neighbour(|r.sections|, m, edit.up).value;
    var moved := Perform(Live(r), edit, clock).0.report;
    PositionUnique(moved, if p == m then n else if p == n then m else p);
  }

  lemma RemoveLeaves(r: Report, edit: Edit, clock: nat, id: nat)
    requires Good(r) && Position(r.sections, id).Some? && edit.Remove? && Perform(Live(r), edit, clock).1 == Applied
    ensures Unchanged(r, Perform(Live(r), edit, clock).0.report, id) <==> id != edit.id
  {
    if id != edit.id {
      RemoveDropsOne(r, edit, clock, id, id);
    } else {
      RemovedIsGone(r, Position(r.sections, id).value, EditTime(clock, r.updated));
    }
  }

  /** A version that is there at both ends was there all along. */
  lemma UnchangedBetween(a: Report, b: Report, c: Report, id: nat)
    requires Good(a) && Good(b) && Good(c) && MovesOn(a, b) && MovesOn(b, c)
    ensures Unchanged(a, c, id) <==> Unchanged(a, b, id) && Unchanged(b, c, id)
  {
    if Unchanged(a, c, id) {
      var p, q := Position(a.sections, id).value, Position(c.sections, id).value;
      assert c.sections[q].id < b.nextId;
      var m := Position(b.sections, id).value;
      assert SectionMovesOn(a.sections[p], b.sections[m]) && SectionMovesOn(b.sections[m], c.sections[q]);
    }
  }

  lemma OneMoreEdit(before: Report, last: State, edit: Edit, clock: nat, id: nat)
    requires Good(before) && GoodState(last) && StateMovesOn(Live(before), last) && Position(before.sections, id).Some?
    ensures var (after, outcome) := Perform(last, edit, clock);
            (after.Live? && Unchanged(before, after.report, id)) <==>
              last.Live? && Unchanged(before, last.report, id) && !(outcome == Applied && Touches(edit, id))
  {
    var after := Perform(last, edit, clock).0;
    PerformMovesOn(last, edit, clock);
    if last.Live? {
      if Unchanged(before, last.report, id) {
        EditLeaves(last.report, edit, clock, id);
      }
      if after.Live? {
        hide Perform, Touches, Good, MovesOn;
        UnchangedBetween(before, last.report, after.report, id);
      }
    }
  }

  /**
    Over any log of saves by any number of reviewers, a section of the Report as it was after k
    saves is still there, word for word, exactly if no applied save since then replaced it, removed
    it or deleted the Report.
   */
  lemma {:induction false} SurvivesExactly(start: State, log: seq<Save>, k: nat, n: nat, id: nat)
    requires GoodState(start) && k <= n <= |log| && StateAt(start, log, k).Live?
    requires Position(StateAt(start, log, k).report.sections, id).Some?
    ensures var before, after := StateAt(start, log, k).report, StateAt(start, log, n);
            (after.Live? && Unchanged(before, after.report, id)) <==> Untouched(start, log, k, n, id)
    decreases n - k
  {
    hide Replay, Perform, Unchanged, Touches, Position;
    if n > k {
      SurvivesExactly(start, log, k, n - 1, id);
      NextState(start, log, n - 1);
      StatesMoveOn(start, log, k, n - 1);
      assert Untouched(start, log, k, n, id) <==>
               Untouched(start, log, k, n - 1, id) && !(AppliedAt(start, log, n - 1) && Touches(log[n - 1].edit, id));
      OneMoreEdit(StateAt(start, log, k).report, StateAt(start, log, n - 1), log[n - 1].edit, log[n - 1].clock, id);
    } else {
      Itself(StateAt(start, log, k).report, id);
    }
  }

  lemma Itself(r: Report, id: nat)
    requires Position(r.sections, id).Some?
    ensures Unchanged(r, r, id)
  {
  }

  /** Each save was sent from the page as it was after some earlier number of saves. */
  ghost predicate SentFrom(start: State, log: seq<Save>, pages: seq<nat>) {
    && |pages| == |log|
    && forall i: nat :: i < |log| ==>
         pages[i] <= i && StateAt(start, log, pages[i]).Live? && FromPage(log[i].edit, StateAt(start, log, pages[i]).report)
  }

  /** An applied save that touches a section was sent from a page that showed the version it touches. */
  lemma WhoeverTouchedSaw(start: State, log: seq<Save>, pages: seq<nat>, i: nat, id: nat)
    requires GoodState(start) && SentFrom(start, log, pages) && i < |log| && AppliedAt(start, log, i) && Touches(log[i].edit, id)
    requires StateAt(start, log, i).Live? && Position(StateAt(start, log, i).report.sections, id).Some?
    ensures Unchanged(StateAt(start, log, pages[i]).report, StateAt(start, log, i).report, id)
  {
    assert log[..i][..pages[i]] == log[..pages[i]];
    NoLostUpdate(start, log[..i], pages[i], log[i].edit, log[i].clock);
  }

  /** The save that first touched a section after k saves. */
  lemma {:induction false} FirstTouch(start: State, log: seq<Save>, k: nat, n: nat, id: nat) returns (i: nat)
    requires k <= n <= |log| && !Untouched(start, log, k, n, id)
    ensures k <= i < n && AppliedAt(start, log, i) && Touches(log[i].edit, id) && Untouched(start, log, k, i, id)
    decreases n - k
  {
    if Untouched(start, log, k, n - 1, id) {
      i := n - 1;
    } else {
      i := FirstTouch(start, log, k, n - 1, id);
    }
  }

  /**
    No work is lost unseen: if a section is no longer as it was after k saves, the first save that
    changed it came from a page that showed that very version.
   */
  lemma ChangedOnlyBySight(start: State, log: seq<Save>, pages: seq<nat>, k: nat, id: nat)
    requires GoodState(start) && SentFrom(start, log, pages) && k <= |log| && StateAt(start, log, k).Live?
    requires Position(StateAt(start, log, k).report.sections, id).Some?
    ensures var before, after := StateAt(start, log, k).report, StateAt(start, log, |log|);
            || (after.Live? && Unchanged(before, after.report, id))
            || exists i: nat :: k <= i < |log| && AppliedAt(start, log, i) && Touches(log[i].edit, id)
                 && Showed(StateAt(start, log, pages[i]), before, id)
  {
    SurvivesExactly(start, log, k, |log|, id);
    if !Untouched(start, log, k, |log|, id) {
      var i := FirstTouch(start, log, k, |log|, id);
      SurvivesExactly(start, log, k, i, id);
      WhoeverTouchedSaw(start, log, pages, i, id);
      hide Untouched, Touches, AppliedAt;
      assert Showed(StateAt(start, log, pages[i]), StateAt(start, log, k).report, id);
    }
  }

  /** A page showed this section in the version it has in that Report. */
  ghost predicate Showed(page: State, r: Report, id: nat) { page.Live? && Unchanged(page.report, r, id) }

  /** A section's editor opened on a page stays good exactly while the status is the same and no applied save touches the section. */
  lemma EditorValidExactly(start: State, log: seq<Save>, k: nat, edit: Edit, clock: nat)
    requires GoodState(start) && k <= |log| && StateAt(start, log, k).Live? && edit.SaveSection?
    requires FromPage(edit, StateAt(start, log, k).report)
    ensures var page, current := StateAt(start, log, k).report, StateAt(start, log, |log|);
            Perform(current, edit, clock).1 == Applied <==>
              current.Live? && current.report.status == page.status && Untouched(start, log, k, |log|, edit.id)
  {
    assert log[..|log|] == log;
    NoLostUpdate(start, log, k, edit, clock);
    SurvivesExactly(start, log, k, |log|, edit.id);
    hide Perform, Untouched, Replay;
  }

  // ---- the details ----------------------------------------------------------------------------

  predicate SameDetails(a: Report, b: Report) { a.title == b.title && a.purpose == b.purpose && a.status == b.status }

  ghost predicate DetailsUntouched(start: State, log: seq<Save>, k: nat, n: nat)
    requires n <= |log|
  {
    forall i: nat :: k <= i < n && AppliedAt(start, log, i) ==> !log[i].edit.SaveHeader? && !log[i].edit.DeleteReport?
  }

  /** Title, purpose and status stay until a later save of the details is applied, or the Report is deleted. */
  lemma {:induction false} DetailsSurvive(start: State, log: seq<Save>, k: nat, n: nat)
    requires k <= n <= |log| && StateAt(start, log, k).Live? && DetailsUntouched(start, log, k, n)
    ensures StateAt(start, log, n).Live? && SameDetails(StateAt(start, log, k).report, StateAt(start, log, n).report)
    decreases n - k
  {
    hide Replay, Position;
    if n > k {
      assert DetailsUntouched(start, log, k, n - 1);
      DetailsSurvive(start, log, k, n - 1);
      NextState(start, log, n - 1);
      assert AppliedAt(start, log, n - 1) ==> !log[n - 1].edit.SaveHeader? && !log[n - 1].edit.DeleteReport?;
    }
  }

  /** Saved details are the Report's own at the end of every log that saves none after them, whatever happens to its sections. */
  lemma SavedDetailsSurvive(start: State, log: seq<Save>, i: nat)
    requires i < |log| && AppliedAt(start, log, i) && log[i].edit.SaveHeader? && DetailsUntouched(start, log, i + 1, |log|)
    ensures var edit, end := log[i].edit, StateAt(start, log, |log|);
            end.Live? && end.report.title == edit.title && end.report.purpose == edit.purpose && end.report.status == edit.status
  {
    NextState(start, log, i);
    DetailsSurvive(start, log, i + 1, |log|);
  }

  // ---- everybody's work -----------------------------------------------------------------------

  /** The section that an edit writes; a new one is named by the supply. */
  function Target(edit: Edit, before: Report): nat
    requires edit.SaveSection? || edit.Add?
  {
    if edit.Add? then before.nextId else edit.id
  }

  lemma WritesItsText(r: Report, edit: Edit, clock: nat)
    requires Good(r) && (edit.SaveSection? || edit.Add?) && Perform(Live(r), edit, clock).1 == Applied
    ensures var after := Perform(Live(r), edit, clock).0;
            after.Live? && Text(after.report, Target(edit, r)) == Some((edit.heading, edit.body))
  {
    if edit.SaveSection? {
      SaveChangesOneSection(r, edit, clock, edit.id);
    } else {
      PerformMovesOn(Live(r), edit, clock);
      PositionUnique(Perform(Live(r), edit, clock).0.report, |r.sections|);
    }
  }

  /** What an applied save wrote is read at the end of every log in which nothing applied touches that section after it. */
  lemma SavedTextSurvives(start: State, log: seq<Save>, i: nat)
    requires GoodState(start) && i < |log| && (log[i].edit.SaveSection? || log[i].edit.Add?)
    requires AppliedAt(start, log, i) && StateAt(start, log, i).Live?
    requires Untouched(start, log, i + 1, |log|, Target(log[i].edit, StateAt(start, log, i).report))
    ensures var edit, end := log[i].edit, StateAt(start, log, |log|);
            end.Live? && Text(end.report, Target(edit, StateAt(start, log, i).report)) == Some((edit.heading, edit.body))
  {
    var id := Target(log[i].edit, StateAt(start, log, i).report);
    StatesMoveOn(start, log, i, i);
    NextState(start, log, i);
    WritesItsText(StateAt(start, log, i).report, log[i].edit, log[i].clock);
    SurvivesExactly(start, log, i + 1, |log|, id);
    hide Perform, Untouched, StateAt, Good;
  }

  /** Edits of different sections, and additions, all sent from one page. */
  ghost predicate Apart(start: State, log: seq<Save>, k: nat)
    requires k <= |log|
  {
    && StateAt(start, log, k).Live?
    && (forall i: nat :: k <= i < |log| ==> (log[i].edit.SaveSection? || log[i].edit.Add?)
                                            && FromPage(log[i].edit, StateAt(start, log, k).report))
    && forall i: nat, j: nat :: k <= i < j < |log| && log[i].edit.SaveSection? && log[j].edit.SaveSection? ==>
         log[i].edit.id != log[j].edit.id
  }

  lemma {:induction false} GrowsByOne(start: State, log: seq<Save>, k: nat, n: nat)
    requires k <= n <= |log| && StateAt(start, log, k).Live? && StateAt(start, log, n).Live?
    ensures |StateAt(start, log, n).report.sections| <= |StateAt(start, log, k).report.sections| + (n - k)
    decreases n - k
  {
    hide Replay, Position;
    if n > k {
      NextState(start, log, n - 1);
      GrowsByOne(start, log, k, n - 1);
    }
  }

  lemma ApartIsApplied(start: State, log: seq<Save>, k: nat, i: nat)
    requires GoodState(start) && k <= i < |log| && Apart(start, log, k)
    requires |StateAt(start, log, k).report.sections| + (|log| - k) <= MAX_SECTIONS
    ensures AppliedAt(start, log, i)
  {
    DetailsSurvive(start, log, k, i);
    GrowsByOne(start, log, k, i);
    StatesMoveOn(start, log, k, i);
    var page, current, edit := StateAt(start, log, k).report, StateAt(start, log, i).report, log[i].edit;
    AppliedExactlyWhenShown(page, current, edit, log[i].clock);
    if edit.SaveSection? {
      SurvivesExactly(start, log, k, i, edit.id);
    }
  }

  /** A name that a Report has not given out yet is no section of it nor of any earlier page. */
  lemma NewNameIsNobodys(start: State, log: seq<Save>, k: nat, i: nat, id: nat)
    requires GoodState(start) && k <= i <= |log| && StateAt(start, log, k).Live? && StateAt(start, log, i).Live?
    requires Position(StateAt(start, log, k).report.sections, id).Some?
    ensures id < StateAt(start, log, i).report.nextId
  {
    StatesMoveOn(start, log, k, i);
  }

  /**
    Everybody's work survives: from one page, any number of reviewers edit different sections and add
    new ones, in any order. As long as there is room, every save is applied, and at the end every
    section has what its reviewer wrote.
   */
  lemma DifferentWorkAllSurvives(start: State, log: seq<Save>, k: nat, i: nat)
    requires GoodState(start) && k <= i < |log| && Apart(start, log, k)
    requires |StateAt(start, log, k).report.sections| + (|log| - k) <= MAX_SECTIONS
    ensures var edit, before, end := log[i].edit, StateAt(start, log, i), StateAt(start, log, |log|);
            && AppliedAt(start, log, i) && before.Live? && end.Live?
            && Text(end.report, Target(edit, before.report)) == Some((edit.heading, edit.body))
  {
    DetailsSurvive(start, log, k, i);
    ApartIsApplied(start, log, k, i);
    var id := Target(log[i].edit, StateAt(start, log, i).report);
    forall j: nat | i + 1 <= j < |log| && AppliedAt(start, log, j) ensures !Touches(log[j].edit, id) {
      if log[j].edit.SaveSection? && log[i].edit.Add? {
        NewNameIsNobodys(start, log, k, i, log[j].edit.id);
      }
    }
    assert Untouched(start, log, i + 1, |log|, id);
    hide Untouched, Apart, Perform;
    SavedTextSurvives(start, log, i);
  }
}
