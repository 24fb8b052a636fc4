/** Concrete runs of the recovery: what a second person at the browser and a late cancel can do. */
module RecoveryRuns {
  import opened Wrappers
  import opened UploadLedger
  import opened UploadAdmission
  import opened UploadRecovery
  import opened UploadCheckpoint
  import Planner = UploadPlanner

  const ONE: Plan := [[Planner.File("a", 6)]]
  const OTHER: Plan := [[Planner.File("b", 1)]]
  const ROWS: map<string, nat> := map["a" := 0]
  const RECEIPT: seq<Row> := [Row(1, "a", 6)]

  function AskFor(entries: seq<Entry>, collection: Option<nat>): seq<Event> {
    [Server(Enter(Request(1, entries, collection))), Server(Tally), SubmitReply(Answered)]
  }

  lemma PlayAppend(sys: System, front: seq<Event>, back: seq<Event>)
    ensures Play(sys, front + back) == Play(Play(sys, front), back)
    decreases |front|
  {
    if front == [] {
      assert front + back == back;
    } else {
      assert (front + back)[1..] == front[1..] + back;
      PlayAppend(Execute(sys, front[0]), front[1..], back);
    }
  }

  lemma PlayOne(sys: System, a: Event)
    ensures Play(sys, [a]) == Execute(sys, a)
  {
    assert [a][1..] == [];
    assert Play(Execute(sys, a), []) == Execute(sys, a);
  }

  lemma PlayTwo(sys: System, a: Event, b: Event)
    ensures Play(sys, [a, b]) == Execute(Execute(sys, a), b)
  {
    assert [a, b] == [a] + [b];
    PlayAppend(sys, [a], [b]);
    PlayOne(sys, a);
    PlayOne(Execute(sys, a), b);
  }

  lemma PlayThree(sys: System, a: Event, b: Event, c: Event)
    ensures Play(sys, [a, b, c]) == Execute(Execute(Execute(sys, a), b), c)
  {
    assert [a, b, c] == [a] + [b, c];
    PlayAppend(sys, [a], [b, c]);
    PlayOne(sys, a);
    PlayTwo(Execute(sys, a), b, c);
  }

  // ---- a first batch --------------------------------------------------------------------------

  function Item0(path: string, size: nat): Item
    requires size > 0
  {
    NewItem(Entry(path, size, Some(0)))
  }

  /** The matter once the first member's first batch is open. */
  function Opened1(receipt: seq<Row>, path: string, size: nat): Ledger
    requires size > 0
  {
    Ledger(10, receipt, [Session(1, 0, Open, false, [Item0(path, size)])], [1], Closed)
  }

  function Sends(receipt: seq<Row>, plan: Plan, binding: Option<nat>, rows: map<string, nat>): System
    requires plan != [] && plan[0] != [] && plan[0][0].size > 0
  {
    var cp := Checkpoint(plan, binding, 0, 0, 0);
    System(Opened1(receipt, plan[0][0].path, plan[0][0].size), 1, true,
           Client(Some(cp), Some(0), Job(plan, binding, rows, None, false, Sending(0, 0, {}))), {0}, {}, {})
  }

  /** A member signs in and confirms a plan whose first batch is one recorded file; it is opened. */
  lemma FirstBatch(receipt: seq<Row>, plan: Plan, binding: Option<nat>, rows: map<string, nat>)
    requires Selectable(plan) && |plan[0]| == 1 && 0 < plan[0][0].size <= 10
    requires plan[0][0].path in rows && rows[plan[0][0].path] == 0
    requires receipt != [] && receipt[0] == Row(1, plan[0][0].path, plan[0][0].size)
    ensures var entries := [Entry(plan[0][0].path, plan[0][0].size, Some(0))];
            Play(FirstVisit(10, receipt), [SignIn(1, true), Confirm(plan, binding, rows)] + AskFor(entries, None))
            == Sends(receipt, plan, binding, rows)
  {
    var entries := [Entry(plan[0][0].path, plan[0][0].size, Some(0))];
    var request := Request(1, entries, None);
    var start := FirstVisit(10, receipt);
    var s2 := Execute(Execute(start, SignIn(1, true)), Confirm(plan, binding, rows));
    assert s2 == start.(principal := 1, member := true,
                        client := Client(None, None, Job(plan, binding, rows, None, false, Submitting(0, None, None))));
    var s3 := Execute(s2, Server(Enter(request)));
    assert s3 == s2.(ledger := s2.ledger.(guard := Counting(request)));
    var s4 := Execute(s3, Server(Tally));
    assert s4 == s2.(ledger := s2.ledger.(guard := Summed(request, 0, 0)));
    FirstAnswer(s4, plan, binding, rows);
    PlayTwo(start, SignIn(1, true), Confirm(plan, binding, rows));
    PlayThree(s2, Server(Enter(request)), Server(Tally), SubmitReply(Answered));
    hide Execute;
    PlayAppend(start, [SignIn(1, true), Confirm(plan, binding, rows)], AskFor(entries, None));
  }

  lemma FirstAnswer(sys: System, plan: Plan, binding: Option<nat>, rows: map<string, nat>)
    requires plan != [] && |plan[0]| == 1 && 0 < plan[0][0].size <= 10
    requires plan[0][0].path in rows && rows[plan[0][0].path] == 0
    requires sys.ledger.receipt != [] && sys.ledger.receipt[0] == Row(1, plan[0][0].path, plan[0][0].size)
    requires sys == System(Ledger(10, sys.ledger.receipt, [], [],
                                  Summed(Request(1, [Entry(plan[0][0].path, plan[0][0].size, Some(0))], None), 0, 0)),
                           1, true, Client(None, None, Job(plan, binding, rows, None, false, Submitting(0, None, None))), {}, {}, {})
    ensures Execute(sys, SubmitReply(Answered)) == Sends(sys.ledger.receipt, plan, binding, rows)
  {
    var sub := SubmissionOf(sys.client);
    var entries := [Entry(plan[0][0].path, plan[0][0].size, Some(0))];
    assert Entries(sub) == entries;
    assert Recorded(sys.ledger.receipt, 1, entries[0]);
    assert HolderOf(sys.ledger.sessions, 0).None?;
    assert CheckReceipt(sys.ledger, 1, entries) == Fresh;
    assert entries[1..] == [];
    assert Requested(entries) == entries[0].size + Requested([]);
    assert NewItems(entries) == [Item0(plan[0][0].path, plan[0][0].size)];
    OneStep(sys.ledger, ServeSteps(sys.ledger, 1, true, sub));
    assert SettledItems([Item0(plan[0][0].path, plan[0][0].size)]) == {};
    hide CheckReceipt;
    assert Apply(sys.ledger, Insert) == Opened1(sys.ledger.receipt, plan[0][0].path, plan[0][0].size);
  }

  // ---- left behind ----------------------------------------------------------------------------

  lemma OnePlan()
    ensures Selectable(ONE) && Selectable(OTHER)
  {
  }

  lemma TotalOfOne(session: Session, item: Item, f: Item -> nat)
    requires session.items == [item]
    ensures Total([session], f) == f(item)
  {
    assert [session][1..] == [] && [item][1..] == [];
    assert Sum([item], f) == f(item) + Sum([], f);
    assert Total([session], f) == Sum([item], f) + Total([], f);
  }

  lemma SixReserved(receipt: seq<Row>)
    ensures PendingBytes(Opened1(receipt, "a", 6)) == 6
  {
    TotalOfOne(Opened1(receipt, "a", 6).sessions[0], Item0("a", 6), Reserved);
  }

  /**
    A second member at the same browser confirms a selection of their own: to them the first
    member's session is missing, the checkpoint is given up, and six bytes stay reserved.
   */
  lemma OtherMemberForgets()
    ensures var before := Play(FirstVisit(10, RECEIPT), [SignIn(1, true), Confirm(ONE, Some(0), ROWS)]
                                                       + AskFor([Entry("a", 6, Some(0))], None));
            var end := Play(before, [SignIn(2, true), Reload, Confirm(OTHER, Some(1), map[])]
                                    + [StatusReply(Some(Body(404, 0, 0, None)))]);
            && before.client.stored.Some? && before.client.stored.value.session == 0
            && end.client.stored.None? && Starts(end.client) && PendingBytes(end.ledger) == 6
  {
    OnePlan();
    FirstBatch(RECEIPT, ONE, Some(0), ROWS);
    var s0 := Sends(RECEIPT, ONE, Some(0), ROWS);
    var s1 := Execute(Execute(Execute(s0, SignIn(2, true)), Reload), Confirm(OTHER, Some(1), map[]));
    assert s1 == s0.(principal := 2, client := Client(s0.client.stored, None, Job(OTHER, Some(1), map[], None, false, Checking)));
    var reply := StatusReply(Some(Body(404, 0, 0, None)));
    assert Execute(s1, reply).client == Afresh(s1.client) && Execute(s1, reply).ledger == s0.ledger;
    SixReserved(RECEIPT);
    PlayThree(s0, SignIn(2, true), Reload, Confirm(OTHER, Some(1), map[]));
    PlayOne(s1, reply);
    hide Execute;
    PlayAppend(s0, [SignIn(2, true), Reload, Confirm(OTHER, Some(1), map[])], [reply]);
  }

  /** The same with one selection and a checkpoint of the older format: the resume is refused, and the restart gives it up. */
  lemma OlderFormatForgets()
    ensures var before := Play(FirstVisit(10, RECEIPT), [SignIn(1, true), Confirm(ONE, None, ROWS)]
                                                       + AskFor([Entry("a", 6, Some(0))], None));
            var end := Play(before, [SignIn(2, true), Reload, Confirm(ONE, None, map[])] + [SubmitReply(Answered)]);
            && before.client.stored.Some? && before.client.stored.value.session == 0
            && end.client.stored.None? && Starts(end.client) && PendingBytes(end.ledger) == 6
  {
    OnePlan();
    FirstBatch(RECEIPT, ONE, None, ROWS);
    var s0 := Sends(RECEIPT, ONE, None, ROWS);
    var cp := s0.client.stored.value;
    var s1 := Execute(Execute(Execute(s0, SignIn(2, true)), Reload), Confirm(ONE, None, map[]));
    assert s1 == s0.(principal := 2,
                     client := Client(Some(cp), None, Job(ONE, None, map[], Some(cp), false, Submitting(0, Some(0), Some(0)))));
    MissingIsMismatch(s1, cp);
    SixReserved(RECEIPT);
    PlayThree(s0, SignIn(2, true), Reload, Confirm(ONE, None, map[]));
    PlayOne(s1, SubmitReply(Answered));
    hide Execute;
    PlayAppend(s0, [SignIn(2, true), Reload, Confirm(ONE, None, map[])], [SubmitReply(Answered)]);
  }

  lemma MissingIsMismatch(sys: System, cp: Checkpoint)
    requires sys.ledger == Opened1(RECEIPT, "a", 6) && sys.principal == 2 && sys.member && cp == Checkpoint(ONE, None, 0, 0, 0)
    requires sys.client == Client(Some(cp), None, Job(ONE, None, map[], Some(cp), false, Submitting(0, Some(0), Some(0))))
    ensures var after := Execute(sys, SubmitReply(Answered));
            after.ledger == sys.ledger && after.client.stored.None? && Starts(after.client)
  {
    var sub := SubmissionOf(sys.client);
    assert Entries(sub)[0].row.None?;
    assert CheckReceipt(sys.ledger, 2, Entries(sub)) == Fresh;
    OneStep(sys.ledger, ServeSteps(sys.ledger, 2, true, sub));
  }

  // ---- a batch passed over --------------------------------------------------------------------

  const TWO: Plan := [[Planner.File("a", 1)], [Planner.File("b", 1)]]
  const BOTH_ROWS: map<string, nat> := map["a" := 0, "b" := 1]
  const BOTH: seq<Row> := [Row(1, "a", 1), Row(1, "b", 1)]

  /** The first batch in hand, with its one item in some state. */
  function Handed(item: Item, status: Status, cancelling: bool, guard: Guard, stage: Stage): System {
    System(Ledger(10, BOTH, [Session(1, 0, status, cancelling, [item])], [1], guard), 1, true,
           Client(Some(Checkpoint(TWO, Some(0), 0, 0, 0)), Some(0), Job(TWO, Some(0), BOTH_ROWS, None, false, stage)), {0}, {}, {})
  }

  lemma HandedApply(item: Item, status: Status, guard: Guard, stage: Stage, act: Act)
    ensures var now := Change(item, act, item.writing == 0, guard);
            Apply(Handed(item, status, false, guard, stage).ledger, On(0, 0, act))
            == Handed(now, Restatus(item, [now], act, status), false, guard, stage).ledger
  {
    var l := Handed(item, status, false, guard, stage).ledger;
    TotalOfOne(l.sessions[0], item, InFlight);
    assert At(l, 0, 0) && Unlocked(l) == (item.writing == 0);
    hide Change, Total, Restatus, Unlocked;
    assert forall x: Item, y: Item :: [x][0 := y] == [y];
    assert forall x: Session, y: Session :: [x][0 := y] == [y];
  }

  lemma HandedActs(item: Item, status: Status, guard: Guard, stage: Stage, act: Act)
    ensures var now := Change(item, act, item.writing == 0, guard);
            Execute(Handed(item, status, false, guard, stage), Server(On(0, 0, act)))
            == Handed(now, Restatus(item, [now], act, status), false, guard, stage)
  {
    HandedApply(item, status, guard, stage, act);
    hide Apply, Change, Restatus;
  }

  /** One byte sent and recorded, then refused by the checks on its content. */
  const SEND_AND_FAIL: seq<Event> :=
    [Server(On(0, 0, Begin(1))), Server(On(0, 0, Pass)), Server(On(0, 0, Write(1)))]
    + [Server(On(0, 0, Record)), Server(On(0, 0, Fail)), BatchDone]

  function Refused1(look: Look): Item { Item0("a", 1).(phase := Failed, received := 1, staged := 1, passed := true, look := look) }

  const LATE := Look(None, None, None, 1, false, true)

  lemma FirstFails()
    ensures Play(Sends(BOTH, TWO, Some(0), BOTH_ROWS), SEND_AND_FAIL)
         == Handed(Refused1(LATE), Partial, false, Closed, Submitting(1, Some(0), None))
  {
    var stage := Sending(0, 0, {});
    var a0, a1, a2, a3, a4 := FirstActs();
    HandedActs(a0, Open, Closed, stage, Begin(1));
    HandedActs(a1, Open, Closed, stage, Pass);
    HandedActs(a2, Open, Closed, stage, Write(1));
    HandedActs(a3, Open, Closed, stage, Record);
    HandedActs(a4, Open, Closed, stage, Fail);
    FailedIsSent();
    hide Execute, Change;
    PlayThree(Handed(a0, Open, false, Closed, stage), Server(On(0, 0, Begin(1))), Server(On(0, 0, Pass)), Server(On(0, 0, Write(1))));
    PlayThree(Handed(a3, Open, false, Closed, stage), Server(On(0, 0, Record)), Server(On(0, 0, Fail)), BatchDone);
    PlayAppend(Handed(a0, Open, false, Closed, stage),
               [Server(On(0, 0, Begin(1))), Server(On(0, 0, Pass)), Server(On(0, 0, Write(1)))],
               [Server(On(0, 0, Record)), Server(On(0, 0, Fail)), BatchDone]);
  }

  lemma FirstActs() returns (a0: Item, a1: Item, a2: Item, a3: Item, a4: Item)
    ensures a0 == Item0("a", 1) && a1 == Change(a0, Begin(1), true, Closed) && a2 == Change(a1, Pass, false, Closed)
    ensures a3 == Change(a2, Write(1), false, Closed) && a4 == Change(a3, Record, true, Closed)
    ensures a0.writing == 0 && a1.writing == a2.writing == 1 && a3.writing == a4.writing == 0
    ensures Change(a4, Fail, true, Closed) == Refused1(LATE)
    ensures Restatus(a0, [a1], Begin(1), Open) == Restatus(a1, [a2], Pass, Open) == Restatus(a2, [a3], Write(1), Open)
         == Restatus(a3, [a4], Record, Open) == Open
    ensures Restatus(a4, [Refused1(LATE)], Fail, Open) == Partial
  {
    a0 := Item0("a", 1);
    a1 := a0.(writing := 1);
    a2 := a1.(passed := true);
    a3 := a2.(staged := 1, writing := 0, look := LATE);
    a4 := a3.(received := 1, phase := Uploaded);
  }

  lemma FailedIsSent()
    ensures Execute(Handed(Refused1(LATE), Partial, false, Closed, Sending(0, 0, {})), BatchDone)
         == Handed(Refused1(LATE), Partial, false, Closed, Submitting(1, Some(0), None))
  {
  }

  /** The second batch is asked for and opened in the same collection. */
  const OPEN_SECOND: seq<Event> :=
    [Server(Enter(Request(1, [Entry("b", 1, Some(1))], Some(0)))), Server(On(0, 0, LookStaged)), Server(On(0, 0, LookManaged(false)))]
    + [Server(Tally), SubmitReply(Answered)]

  const SCANNED := Look(Some(1), Some(0), None, 0, false, false)

  const SEEN := Look(Some(1), Some(0), Some(0), 0, false, false)

  /** Both sessions open, the second in hand. */
  function InHand(item: Item, status: Status, cancelling: bool, cancelled: set<nat>): System {
    System(Ledger(10, BOTH, [Session(1, 0, status, cancelling, [item]), Session(1, 0, Open, false, [NewItem(Entry("b", 1, Some(1)))])],
                  [1], Closed), 1, true,
           Client(Some(Checkpoint(TWO, Some(0), 1, 0, 1)), Some(1), Job(TWO, Some(0), BOTH_ROWS, None, false, Sending(1, 1, {}))),
           {0, 1}, {}, cancelled)
  }

  lemma SecondIsFresh(l: Ledger)
    requires l.receipt == BOTH && |l.sessions| == 1 && |l.sessions[0].items| == 1 && l.sessions[0].items[0].row == Some(0)
    ensures CheckReceipt(l, 1, [Entry("b", 1, Some(1))]) == Fresh
  {
    assert Recorded(BOTH, 1, Entry("b", 1, Some(1)));
    assert !Holds(l.sessions[0], 1) && l.sessions[..0] == [];
    assert HolderOf(l.sessions, 1).None?;
  }

  lemma SecondAnswer(item: Item)
    requires item == Refused1(SEEN)
    ensures var request := Request(1, [Entry("b", 1, Some(1))], Some(0));
            Execute(Handed(item, Partial, false, Summed(request, 1, 0), Submitting(1, Some(0), None)), SubmitReply(Answered))
            == InHand(item, Partial, false, {})
  {
    var entries := [Entry("b", 1, Some(1))];
    var sys := Handed(item, Partial, false, Summed(Request(1, entries, Some(0)), 1, 0), Submitting(1, Some(0), None));
    var l, sub := sys.ledger, SubmissionOf(sys.client);
    assert Entries(sub) == entries;
    SecondIsFresh(l);
    assert entries[1..] == [];
    assert Requested(entries) == 1 + Requested([]);
    assert NewItems(entries) == [NewItem(entries[0])];
    assert item.path == "a" && "a"[0] != "b"[0];
    assert Acceptable(l, Request(1, entries, Some(0)));
    OneStep(l, ServeSteps(l, 1, true, sub));
    hide CheckReceipt, Acceptable;
    assert Apply(l, Insert).sessions == InHand(item, Partial, false, {}).ledger.sessions;
    assert SettledItems([NewItem(entries[0])]) == {};
    assert {0} + {1} == {0, 1};
  }

  lemma SecondOpens()
    ensures Play(Handed(Refused1(LATE), Partial, false, Closed, Submitting(1, Some(0), None)), OPEN_SECOND)
         == InHand(Refused1(SEEN), Partial, false, {})
  {
    var stage := Submitting(1, Some(0), None);
    var request := Request(1, [Entry("b", 1, Some(1))], Some(0));
    var b1 := SecondLooks(request);
    EnterOne(request, stage);
    HandedActs(Refused1(BLANK), Partial, Counting(request), stage, LookStaged);
    HandedActs(b1, Partial, Counting(request), stage, LookManaged(false));
    TallyOne(Refused1(SCANNED), request, stage);
    SecondAnswer(Refused1(SEEN));
    hide Execute, Change;
    PlayThree(Handed(Refused1(LATE), Partial, false, Closed, stage),
              Server(Enter(request)), Server(On(0, 0, LookStaged)), Server(On(0, 0, LookManaged(false))));
    PlayTwo(Handed(Refused1(SCANNED), Partial, false, Counting(request), stage), Server(Tally), SubmitReply(Answered));
    PlayAppend(Handed(Refused1(LATE), Partial, false, Closed, stage),
               [Server(Enter(request)), Server(On(0, 0, LookStaged)), Server(On(0, 0, LookManaged(false)))],
               [Server(Tally), SubmitReply(Answered)]);
  }

  lemma SecondLooks(request: Request) returns (b1: Item)
    ensures b1 == Change(Refused1(BLANK), LookStaged, true, Counting(request)) && b1.writing == 0
    ensures Change(b1, LookManaged(false), true, Counting(request)) == Refused1(SCANNED)
  {
    b1 := Refused1(Look(Some(1), None, None, 0, false, false));
  }

  lemma EnterOne(request: Request, stage: Stage)
    ensures Execute(Handed(Refused1(LATE), Partial, false, Closed, stage), Server(Enter(request)))
         == Handed(Refused1(BLANK), Partial, false, Counting(request), stage)
  {
    var s0, s1 := Handed(Refused1(LATE), Partial, false, Closed, stage), Handed(Refused1(BLANK), Partial, false, Counting(request), stage);
    assert MapItems([Refused1(LATE)], Unlook) == [Refused1(BLANK)];
    assert MapAll(s0.ledger.sessions, Unlook) == s1.ledger.sessions;
  }

  lemma TallyOne(item: Item, request: Request, stage: Stage)
    requires item == Refused1(SCANNED)
    ensures Execute(Handed(item, Partial, false, Counting(request), stage), Server(Tally))
         == Handed(Refused1(SEEN), Partial, false, Summed(request, 1, 0), stage)
  {
    var sys := Handed(item, Partial, false, Counting(request), stage);
    var sessions := sys.ledger.sessions;
    TotalOfOne(sessions[0], item, Counted);
    TotalOfOne(sessions[0], item, Reserved);
    assert Scanned(sessions);
    assert MapItems([item], LookReserved) == [Refused1(SEEN)];
    assert MapAll(sessions, LookReserved) == Handed(Refused1(SEEN), Partial, false, Closed, stage).ledger.sessions;
  }

  /**
    The first batch ends partial and the second is in hand; a cancel of the first in another window
    then leaves an earlier batch that is neither complete nor partial.
   */
  lemma CancelledBatchIsPassed()
    ensures var before := Play(FirstVisit(10, BOTH), [SignIn(1, true), Confirm(TWO, Some(0), BOTH_ROWS)]
                                                    + AskFor([Entry("a", 1, Some(0))], None));
            var second := Play(Play(before, SEND_AND_FAIL), OPEN_SECOND);
            var end := Play(second, [Server(Allow(0)), Server(Cancel(0))]);
            && end.client.job.Job? && end.client.job.stage == Sending(1, 1, {})
            && |second.ledger.sessions| == |end.ledger.sessions| == 2
            && second.ledger.sessions[0].status == Partial && end.ledger.sessions[0].status == Released
            && Holding(end.ledger.sessions[0], TWO[0], end.ledger.sessions[1].collection)
  {
    assert Selectable(TWO) by {
      assert TWO[0][0].path == "a" && TWO[1][0].path == "b" && "a"[0] != "b"[0];
    }
    FirstBatch(BOTH, TWO, Some(0), BOTH_ROWS);
    FirstFails();
    SecondOpens();
    hide Play, Execute;
    FirstCancelled();
  }

  lemma FirstCancelled()
    ensures var second := InHand(Refused1(SEEN), Partial, false, {});
            var end := Play(second, [Server(Allow(0)), Server(Cancel(0))]);
            && end.client == second.client
            && |end.ledger.sessions| == 2 && end.ledger.sessions[0].status == Released
            && Holding(end.ledger.sessions[0], TWO[0], end.ledger.sessions[1].collection)
  {
    var second := InHand(Refused1(SEEN), Partial, false, {});
    var end := Execute(Execute(second, Server(Allow(0))), Server(Cancel(0)));
    GoneSession(second, 0);
    assert end.client == second.client && end.ledger.sessions[0].items == CancelItems([Refused1(SEEN)]);
    assert end.ledger.sessions[0].collection == 0 == end.ledger.sessions[1].collection;
    PlayTwo(second, Server(Allow(0)), Server(Cancel(0)));
  }
}
