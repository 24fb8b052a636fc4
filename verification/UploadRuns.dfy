/** Concrete runs of a ten-byte matter that show what the ledger's guarantees do not include. */
module UploadRuns {
  import opened UploadLedger
  import opened UploadQuota
  import opened Wrappers

  // ---- small matters --------------------------------------------------------------------------

  /** The first file's session; a second file gets a session and a collection of its own. */
  function Solo(item: Item, status: Status, cancelling: bool, guard: Guard): Ledger {
    Ledger(10, [], [Session(0, 0, status, cancelling, [item])], [0], guard)
  }

  function Pair(item: Item, status: Status, cancelling: bool, other: Item): Ledger {
    Ledger(10, [], [Session(0, 0, status, cancelling, [item]), Session(0, 1, Open, false, [other])], [0, 0], Closed)
  }

  function One(path: string, size: nat): Request { Request(0, [Entry(path, size, None)], None) }

  function File(path: string, size: nat): Item
    requires size > 0
  {
    NewItem(Entry(path, size, None))
  }

  lemma SumsOfSmall(item: Item, other: Item, status: Status, cancelling: bool, guard: Guard, f: Item -> nat)
    ensures Total(Solo(item, status, cancelling, guard).sessions, f) == f(item)
    ensures Total(Pair(item, status, cancelling, other).sessions, f) == f(item) + f(other)
  {
    assert forall x: Item :: [x][1..] == [];
    assert Sum([item], f) == f(item) && Sum([other], f) == f(other);
    var second := Session(0, 1, Open, false, [other]);
    assert Pair(item, status, cancelling, other).sessions[1..] == [second] && [second][1..] == [];
  }

  // ---- single steps ---------------------------------------------------------------------------

  lemma SoloActs(item: Item, status: Status, cancelling: bool, guard: Guard, act: Act)
    ensures var now := Change(item, act, item.writing == 0, guard);
            var after := Solo(now, Restatus(item, [now], act, status), cancelling, guard);
            Apply(Solo(item, status, cancelling, guard), On(0, 0, act)) == after
  {
    SumsOfSmall(item, item, status, cancelling, guard, InFlight);
    assert forall x: Item, y: Item :: [x][0 := y] == [y];
    assert forall x: Session, y: Session :: [x][0 := y] == [y];
  }

  lemma SecondActs(item: Item, status: Status, cancelling: bool, other: Item, act: Act)
    requires !act.Finish? && !act.Fail?
    ensures Apply(Pair(item, status, cancelling, other), On(1, 0, act))
         == Pair(item, status, cancelling, Change(other, act, item.writing + other.writing == 0, Closed))
    ensures Apply(Pair(item, status, cancelling, other), On(0, 0, act))
         == Pair(Change(item, act, item.writing + other.writing == 0, Closed), status, cancelling, other)
  {
    var l := Pair(item, status, cancelling, other);
    SumsOfSmall(item, other, status, cancelling, Closed, InFlight);
    assert At(l, 0, 0) && At(l, 1, 0) && Unlocked(l) == (item.writing + other.writing == 0);
    hide Change, Total;
    assert forall x: Item, y: Item :: [x][0 := y] == [y];
    assert forall x: Session, y: Session, z: Session :: [x, y][1 := z] == [x, z] && [x, y][0 := z] == [z, y];
  }

  lemma SoloEnters(item: Item, status: Status, cancelling: bool, request: Request)
    ensures Apply(Solo(item, status, cancelling, Closed), Enter(request))
         == Solo(Unlook(item), status, cancelling, Counting(request))
  {
    assert MapItems([item], Unlook) == [Unlook(item)];
  }

  lemma SoloTallies(item: Item, status: Status, cancelling: bool, request: Request)
    requires item.look.staged.Some? && item.look.managed.Some?
    ensures Apply(Solo(item, status, cancelling, Counting(request)), Tally)
         == Solo(LookReserved(item), status, cancelling, Summed(request, Counted(item), Reserved(item)))
  {
    SumsOfSmall(item, item, status, cancelling, Counting(request), Counted);
    SumsOfSmall(item, item, status, cancelling, Counting(request), Reserved);
    assert MapItems([item], LookReserved) == [LookReserved(item)];
  }

  lemma OneIsAnswered(l: Ledger, path: string, size: nat, seen: nat)
    requires size > 0 && seen + size <= l.quota
    ensures Answer(l, One(path, size), seen) == Some(|l.sessions|)
    ensures NewItems([Entry(path, size, None)]) == [File(path, size)]
  {
    assert [Entry(path, size, None)][1..] == [];
    assert Requested([Entry(path, size, None)]) == size + Requested([]);
  }

  lemma SoloInserts(item: Item, status: Status, cancelling: bool, path: string, size: nat, used: nat, reserved: nat)
    requires size > 0 && used + reserved + size <= 10
    ensures Apply(Solo(item, status, cancelling, Summed(One(path, size), used, reserved)), Insert)
         == Pair(item, status, cancelling, File(path, size))
  {
    OneIsAnswered(Solo(item, status, cancelling, Summed(One(path, size), used, reserved)), path, size, used + reserved);
  }

  lemma SoloCancels(item: Item, status: Status, cancelling: bool, guard: Guard)
    ensures Apply(Solo(item, status, cancelling, guard), Allow(0)) == Solo(item, status, cancelling || status != Complete, guard)
    ensures cancelling ==> Apply(Solo(item, status, cancelling, guard), Cancel(0)) == Solo(CancelItem(item), Released, true, guard)
  {
    assert forall x: Session, y: Session :: [x][0 := y] == [y];
    assert CancelItems([item]) == [CancelItem(item)];
  }

  // ---- opening the first session --------------------------------------------------------------

  lemma FirstOpens(path: string, size: nat)
    requires 0 < size <= 10
    ensures Run(Start(10, []), [Enter(One(path, size)), Tally, Insert]) == Solo(File(path, size), Open, false, Closed)
  {
    var l := Start(10, []);
    var request := One(path, size);
    var l1 := Apply(l, Enter(request));
    assert l1 == l.(guard := Counting(request));
    var l2 := Apply(l1, Tally);
    assert l2 == l.(guard := Summed(request, 0, 0));
    OneIsAnswered(l2, path, size, 0);
    var l3 := Apply(l2, Insert);
    assert l3 == Solo(File(path, size), Open, false, Closed);
    RunThree(l, Enter(request), Tally, Insert);
  }

  lemma RunThree(l: Ledger, a: Step, b: Step, c: Step)
    ensures Run(l, [a, b, c]) == Apply(Apply(Apply(l, a), b), c)
  {
    assert [a, b, c] == [a] + ([b] + [c]);
    RunAppend(l, [a], [b] + [c]);
    RunAppend(Apply(l, a), [b], [c]);
    RunOne(l, a);
    RunOne(Apply(l, a), b);
    RunOne(Apply(Apply(l, a), b), c);
  }

  /** Three runs of three steps. */
  lemma RunNine(l: Ledger, one: seq<Step>, two: seq<Step>, three: seq<Step>)
    ensures Run(l, one + two + three) == Run(Run(Run(l, one), two), three)
  {
    RunAppend(l, one + two, three);
    RunAppend(l, one, two);
  }

  lemma PairSums(item: Item, status: Status, cancelling: bool, other: Item)
    ensures var l := Pair(item, status, cancelling, other);
            && Used(l) == Disk(item) + Disk(other)
            && PendingBytes(l) == Reserved(item) + Reserved(other)
            && Footprint(l) == Claim(item) + Claim(other)
            && Total(l.sessions, Stray) == Stray(item) + Stray(other)
  {
    SumsOfSmall(item, other, status, cancelling, Closed, Disk);
    SumsOfSmall(item, other, status, cancelling, Closed, Reserved);
    SumsOfSmall(item, other, status, cancelling, Closed, Claim);
    SumsOfSmall(item, other, status, cancelling, Closed, Stray);
  }

  // ---- a chunk between the guard's two readings -----------------------------------------------

  function Part(phase: Phase, received: nat, staged: nat, writing: nat, look: Look): Item {
    Item("a", 6, None, phase, received, staged, writing, true, false, false, false, look)
  }

  const ENTER_B := [On(0, 0, Begin(6)), On(0, 0, Pass), Enter(One("b", 10))]

  const SCAN_AND_WRITE := [On(0, 0, LookStaged), On(0, 0, LookManaged(false)), On(0, 0, Write(6))]

  const RECORD_AND_INSERT := [On(0, 0, Record), Tally, Insert]

  lemma ChunkHeld()
    ensures Run(Solo(File("a", 6), Open, false, Closed), ENTER_B)
         == Solo(Part(Pending, 0, 0, 6, BLANK), Open, false, Counting(One("b", 10)))
  {
    var held := Change(File("a", 6), Begin(6), true, Closed);
    SoloActs(File("a", 6), Open, false, Closed, Begin(6));
    SoloActs(held, Open, false, Closed, Pass);
    var passed := Change(held, Pass, false, Closed);
    assert Unlook(passed) == Part(Pending, 0, 0, 6, BLANK);
    SoloEnters(passed, Open, false, One("b", 10));
    hide Apply, Change;
    RunThree(Solo(File("a", 6), Open, false, Closed), On(0, 0, Begin(6)), On(0, 0, Pass), Enter(One("b", 10)));
  }

  lemma ChunkLands()
    ensures Run(Solo(Part(Pending, 0, 0, 6, BLANK), Open, false, Counting(One("b", 10))), SCAN_AND_WRITE)
         == Solo(Part(Pending, 0, 6, 0, Look(Some(0), Some(0), None, 6, false, true)), Open, false, Counting(One("b", 10)))
  {
    var guard := Counting(One("b", 10));
    var before := Part(Pending, 0, 0, 6, BLANK);
    var one := Part(Pending, 0, 0, 6, Look(Some(0), None, None, 0, false, false));
    var two := Part(Pending, 0, 0, 6, Look(Some(0), Some(0), None, 0, false, false));
    SoloActs(before, Open, false, guard, LookStaged);
    assert Change(before, LookStaged, false, guard) == one;
    SoloActs(one, Open, false, guard, LookManaged(false));
    assert Change(one, LookManaged(false), false, guard) == two;
    SoloActs(two, Open, false, guard, Write(6));
    assert Change(two, Write(6), false, guard) == Part(Pending, 0, 6, 0, Look(Some(0), Some(0), None, 6, false, true));
    hide Apply, Change;
    RunThree(Solo(before, Open, false, guard), On(0, 0, LookStaged), On(0, 0, LookManaged(false)), On(0, 0, Write(6)));
  }

  lemma ChunkBelieved()
    ensures Run(Solo(Part(Pending, 0, 6, 0, Look(Some(0), Some(0), None, 6, false, true)), Open, false, Counting(One("b", 10))),
                RECORD_AND_INSERT)
         == Pair(Part(Uploaded, 6, 6, 0, Look(Some(0), Some(0), Some(0), 6, false, true)), Open, false, File("b", 10))
  {
    var guard := Counting(One("b", 10));
    var landed := Part(Pending, 0, 6, 0, Look(Some(0), Some(0), None, 6, false, true));
    var recorded := Part(Uploaded, 6, 6, 0, Look(Some(0), Some(0), None, 6, false, true));
    SoloActs(landed, Open, false, guard, Record);
    assert Change(landed, Record, true, guard) == recorded;
    SoloTallies(recorded, Open, false, One("b", 10));
    assert Counted(recorded) == 0 && Reserved(recorded) == 0;
    SoloInserts(LookReserved(recorded), Open, false, "b", 10, 0, 0);
    hide Apply, Change;
    RunThree(Solo(landed, Open, false, guard), On(0, 0, Record), Tally, Insert);
  }

  /**
    No cancel and no stray chunk: the scan passes a six-byte file before its chunk lands, and the sum
    comes after its offset is recorded. Both see nothing, and ten more bytes are let in.
   */
  lemma GuardReadsTwice()
    ensures var before := Run(Start(10, []), [Enter(One("a", 6)), Tally, Insert]);
            var end := Run(before, ENTER_B + SCAN_AND_WRITE + RECORD_AND_INSERT);
            && Used(end) == 6 && PendingBytes(end) == 10 && Footprint(end) == 16
            && Total(end.sessions, Stray) == 0 && end.sessions[0].status == Open
  {
    FirstOpens("a", 6);
    ChunkHeld();
    ChunkLands();
    ChunkBelieved();
    RunNine(Solo(File("a", 6), Open, false, Closed), ENTER_B, SCAN_AND_WRITE, RECORD_AND_INSERT);
    PairSums(Part(Uploaded, 6, 6, 0, Look(Some(0), Some(0), Some(0), 6, false, true)), Open, false, File("b", 10));
  }

  // ---- a source linked behind the scan --------------------------------------------------------

  /** A ten-byte file that has been received and recorded, or what a finalization has made of it. */
  function Whole(phase: Phase, staged: nat, linked: bool, checked: bool, look: Look): Item {
    Item("a", 10, None, phase, 10, staged, 0, true, linked, false, checked, look)
  }

  const LOOK_AND_LINK := [On(0, 0, LookManaged(false)), On(0, 0, Link(false)), On(0, 0, Check)]

  const FINISH_AND_DISCARD := [On(0, 0, Finish), On(0, 0, Discard), On(0, 0, LookStaged)]

  const TALLY_AND_INSERT := [Tally, Insert]

  lemma LinkedBehind(guard: Guard)
    requires guard.Counting?
    ensures Run(Solo(Whole(Uploaded, 10, false, false, BLANK), Open, false, guard), LOOK_AND_LINK)
         == Solo(Whole(Uploaded, 10, true, true, Look(None, Some(0), None, 0, true, true)), Open, false, guard)
  {
    var before := Whole(Uploaded, 10, false, false, BLANK);
    var one := Whole(Uploaded, 10, false, false, Look(None, Some(0), None, 0, false, false));
    var two := Whole(Uploaded, 10, true, false, Look(None, Some(0), None, 0, true, true));
    SoloActs(before, Open, false, guard, LookManaged(false));
    assert Change(before, LookManaged(false), true, guard) == one;
    SoloActs(one, Open, false, guard, Link(false));
    assert Change(one, Link(false), true, guard) == two;
    SoloActs(two, Open, false, guard, Check);
    assert Change(two, Check, true, guard) == Whole(Uploaded, 10, true, true, Look(None, Some(0), None, 0, true, true));
    hide Apply, Change;
    RunThree(Solo(before, Open, false, guard), On(0, 0, LookManaged(false)), On(0, 0, Link(false)), On(0, 0, Check));
  }

  lemma DiscardedAhead(guard: Guard)
    requires guard.Counting?
    ensures Run(Solo(Whole(Uploaded, 10, true, true, Look(None, Some(0), None, 0, true, true)), Open, false, guard), FINISH_AND_DISCARD)
         == Solo(Whole(Queued, 0, true, true, Look(Some(0), Some(0), None, 0, true, true)), Complete, false, guard)
  {
    var look := Look(None, Some(0), None, 0, true, true);
    var before, one, two := Whole(Uploaded, 10, true, true, look), Whole(Queued, 10, true, true, look), Whole(Queued, 0, true, true, look);
    SoloActs(before, Open, false, guard, Finish);
    assert Change(before, Finish, true, guard) == one && Restatus(before, [one], Finish, Open) == Complete;
    SoloActs(one, Complete, false, guard, Discard);
    assert Change(one, Discard, true, guard) == two;
    SoloActs(two, Complete, false, guard, LookStaged);
    assert Change(two, LookStaged, true, guard) == Whole(Queued, 0, true, true, Look(Some(0), Some(0), None, 0, true, true));
    hide Apply, Change, Restatus;
    RunThree(Solo(before, Open, false, guard), On(0, 0, Finish), On(0, 0, Discard), On(0, 0, LookStaged));
  }

  const UPLOADED := Look(None, None, None, 10, false, true)

  lemma WholeIsUploaded()
    ensures Run(Solo(File("a", 10), Open, false, Closed), OnAll(0, 0, Chunk(10)))
         == Solo(Whole(Uploaded, 10, false, false, UPLOADED), Open, false, Closed)
  {
    var a0 := File("a", 10);
    var a1 := Item("a", 10, None, Pending, 0, 0, 10, false, false, false, false, BLANK);
    var a2 := Item("a", 10, None, Pending, 0, 0, 10, true, false, false, false, BLANK);
    var a3 := Item("a", 10, None, Pending, 0, 10, 0, true, false, false, false, UPLOADED);
    SoloActs(a0, Open, false, Closed, Begin(10));
    assert Change(a0, Begin(10), true, Closed) == a1;
    SoloActs(a1, Open, false, Closed, Pass);
    assert Change(a1, Pass, false, Closed) == a2;
    SoloActs(a2, Open, false, Closed, Write(10));
    assert Change(a2, Write(10), false, Closed) == a3;
    SoloActs(a3, Open, false, Closed, Record);
    assert Change(a3, Record, true, Closed) == Whole(Uploaded, 10, false, false, UPLOADED);
    hide Apply, Change;
    RunAppend(Solo(a0, Open, false, Closed), [On(0, 0, Begin(10)), On(0, 0, Pass), On(0, 0, Write(10))], [On(0, 0, Record)]);
    RunThree(Solo(a0, Open, false, Closed), On(0, 0, Begin(10)), On(0, 0, Pass), On(0, 0, Write(10)));
    RunOne(Solo(a3, Open, false, Closed), On(0, 0, Record));
    FourSteps();
  }

  lemma FourSteps()
    ensures OnAll(0, 0, Chunk(10)) == [On(0, 0, Begin(10)), On(0, 0, Pass), On(0, 0, Write(10))] + [On(0, 0, Record)]
  {
    var acts := Chunk(10);
    assert acts[1..] == [Pass, Write(10), Record] && acts[1..][1..] == [Write(10), Record];
    assert [Write(10), Record][1..] == [Record] && [Record][1..] == [];
    assert OnAll(0, 0, [Record]) == [On(0, 0, Record)];
    assert OnAll(0, 0, [Write(10), Record]) == [On(0, 0, Write(10)), On(0, 0, Record)];
    assert OnAll(0, 0, acts[1..]) == [On(0, 0, Pass), On(0, 0, Write(10)), On(0, 0, Record)];
  }

  lemma GoneOverlooked()
    ensures var gone := Whole(Queued, 0, true, true, Look(Some(0), Some(0), None, 0, true, true));
            Run(Solo(gone, Complete, false, Counting(One("b", 10))), TALLY_AND_INSERT)
            == Pair(LookReserved(gone), Complete, false, File("b", 10))
  {
    var gone := Whole(Queued, 0, true, true, Look(Some(0), Some(0), None, 0, true, true));
    SoloTallies(gone, Complete, false, One("b", 10));
    SoloInserts(LookReserved(gone), Complete, false, "b", 10, 0, 0);
    TallyThenInsert(Solo(gone, Complete, false, Counting(One("b", 10))));
  }

  /**
    The scan passes the managed sources before a ten-byte file is linked there and the staged files
    after its staged bytes are gone: a full matter takes ten more bytes.
   */
  lemma LinkMovesBehindTheScan()
    ensures var before := Run(Run(Start(10, []), [Enter(One("a", 10)), Tally, Insert]), OnAll(0, 0, Chunk(10)));
            var end := Run(Apply(before, Enter(One("b", 10))), LOOK_AND_LINK + FINISH_AND_DISCARD + TALLY_AND_INSERT);
            && Used(before) == 10 && Used(end) == 10 && PendingBytes(end) == 10 && Footprint(end) == 20
            && end.sessions[0].status == Complete
  {
    FirstOpens("a", 10);
    WholeIsUploaded();
    var ready := Whole(Uploaded, 10, false, false, UPLOADED);
    SumsOfSmall(ready, ready, Open, false, Closed, Disk);
    SoloEnters(ready, Open, false, One("b", 10));
    assert Unlook(ready) == Whole(Uploaded, 10, false, false, BLANK);
    LinkedBehind(Counting(One("b", 10)));
    DiscardedAhead(Counting(One("b", 10)));
    GoneOverlooked();
    PairSums(LookReserved(Whole(Queued, 0, true, true, Look(Some(0), Some(0), None, 0, true, true))), Complete, false, File("b", 10));
    hide Apply;
    RunNine(Solo(Whole(Uploaded, 10, false, false, BLANK), Open, false, Counting(One("b", 10))),
            LOOK_AND_LINK, FINISH_AND_DISCARD, TALLY_AND_INSERT);
  }

  // ---- a chunk that outlives its session ------------------------------------------------------

  const HOLD_AND_CANCEL := [On(0, 0, Begin(6)), Allow(0), Cancel(0)]

  const GUARD_ALONE := [Enter(One("b", 10)), On(0, 0, LookStaged), On(0, 0, LookManaged(false))]

  function Doomed(look: Look): Item {
    Item("a", 6, None, Cancelled, 0, 0, 6, false, false, false, false, look)
  }

  lemma DoomedHeld()
    ensures Run(Solo(File("a", 6), Open, false, Closed), HOLD_AND_CANCEL)
         == Solo(Doomed(Look(None, None, None, 0, false, true)), Released, true, Closed)
  {
    var held := Item("a", 6, None, Pending, 0, 0, 6, false, false, false, false, BLANK);
    SoloActs(File("a", 6), Open, false, Closed, Begin(6));
    assert Change(File("a", 6), Begin(6), true, Closed) == held;
    SoloCancels(held, Open, false, Closed);
    SoloCancels(held, Open, true, Closed);
    assert CancelItem(held) == Doomed(Look(None, None, None, 0, false, true));
    hide Apply, Change, CancelItem;
    RunThree(Solo(File("a", 6), Open, false, Closed), On(0, 0, Begin(6)), Allow(0), Cancel(0));
  }

  lemma DoomedPassed()
    ensures Run(Solo(Doomed(Look(None, None, None, 0, false, true)), Released, true, Closed), GUARD_ALONE)
         == Solo(Doomed(Look(Some(0), Some(0), None, 0, false, false)), Released, true, Counting(One("b", 10)))
  {
    var guard := Counting(One("b", 10));
    var before := Doomed(Look(None, None, None, 0, false, true));
    SoloEnters(before, Released, true, One("b", 10));
    var one := Doomed(Look(Some(0), None, None, 0, false, false));
    SoloActs(Doomed(BLANK), Released, true, guard, LookStaged);
    assert Change(Doomed(BLANK), LookStaged, false, guard) == one;
    SoloActs(one, Released, true, guard, LookManaged(false));
    assert Change(one, LookManaged(false), false, guard) == Doomed(Look(Some(0), Some(0), None, 0, false, false));
    hide Apply, Change;
    RunThree(Solo(before, Released, true, Closed), Enter(One("b", 10)), On(0, 0, LookStaged), On(0, 0, LookManaged(false)));
  }

  lemma DoomedOverlooked()
    ensures Run(Solo(Doomed(Look(Some(0), Some(0), None, 0, false, false)), Released, true, Counting(One("b", 10))), TALLY_AND_INSERT)
         == Pair(Doomed(Look(Some(0), Some(0), Some(0), 0, false, false)), Released, true, File("b", 10))
  {
    var seen := Doomed(Look(Some(0), Some(0), None, 0, false, false));
    SoloTallies(seen, Released, true, One("b", 10));
    SoloInserts(LookReserved(seen), Released, true, "b", 10, 0, 0);
    TallyThenInsert(Solo(seen, Released, true, Counting(One("b", 10))));
  }

  lemma TallyThenInsert(l: Ledger)
    ensures Run(l, TALLY_AND_INSERT) == Apply(Apply(l, Tally), Insert)
  {
    hide Apply;
    RunAppend(l, [Tally], [Insert]);
    RunOne(l, Tally);
    RunOne(Apply(l, Tally), Insert);
    assert [Tally] + [Insert] == TALLY_AND_INSERT;
  }

  lemma DoomedLands(look: Look)
    ensures var before := Pair(Doomed(look), Released, true, File("b", 10));
            var landed := Apply(Apply(before, On(0, 0, Pass)), On(0, 0, Write(6)));
            Used(landed) == 6 && PendingBytes(landed) == 10 && landed.sessions[0].status == Released
  {
    var passed := Change(Doomed(look), Pass, false, Closed);
    var landed := Change(passed, Write(6), false, Closed);
    SecondActs(Doomed(look), Released, true, File("b", 10), Pass);
    SecondActs(passed, Released, true, File("b", 10), Write(6));
    PairSums(landed, Released, true, File("b", 10));
  }

  /**
    A six-byte upload is cancelled while a request holds its chunk. A guard that nothing disturbs
    lets ten bytes in, and the chunk lands afterwards: sixteen bytes are claimed, six of them staged.
   */
  lemma StrayChunkPassesQuota()
    ensures var before := Run(Start(10, []), [Enter(One("a", 6)), Tally, Insert]);
            var end := Run(before, HOLD_AND_CANCEL + GUARD_ALONE + TALLY_AND_INSERT);
            var landed := Apply(Apply(end, On(0, 0, Pass)), On(0, 0, Write(6)));
            && PendingBytes(end) == 10 && Footprint(end) == 16
            && Used(landed) == 6 && PendingBytes(landed) == 10 && landed.sessions[0].status == Released
  {
    FirstOpens("a", 6);
    DoomedHeld();
    DoomedPassed();
    DoomedOverlooked();
    var look := Look(Some(0), Some(0), Some(0), 0, false, false);
    PairSums(Doomed(look), Released, true, File("b", 10));
    DoomedLands(look);
    hide Apply;
    RunNine(Solo(File("a", 6), Open, false, Closed), HOLD_AND_CANCEL, GUARD_ALONE, TALLY_AND_INSERT);
  }

  // ---- other surprises ------------------------------------------------------------------------

  /** A chunk whose offset is not recorded: the bytes on disk are counted and still reserved. */
  lemma InterruptedChunkCountsTwice()
    ensures var before := Run(Start(10, []), [Enter(One("a", 10)), Tally, Insert]);
            var end := Run(before, [On(0, 0, Begin(5)), On(0, 0, Pass), On(0, 0, Write(5))]);
            Used(end) + PendingBytes(end) == 15
  {
    FirstOpens("a", 10);
    var a0 := File("a", 10);
    var a1 := Change(a0, Begin(5), true, Closed);
    var a2 := Change(a1, Pass, false, Closed);
    var a3 := Change(a2, Write(5), false, Closed);
    SoloActs(a0, Open, false, Closed, Begin(5));
    SoloActs(a1, Open, false, Closed, Pass);
    SoloActs(a2, Open, false, Closed, Write(5));
    assert a1.writing == a2.writing == 5 && Disk(a3) == 5 && Reserved(a3) == 10;
    SumsOfSmall(a3, a3, Open, false, Closed, Disk);
    SumsOfSmall(a3, a3, Open, false, Closed, Reserved);
    hide Change, Apply;
    RunThree(Solo(a0, Open, false, Closed), On(0, 0, Begin(5)), On(0, 0, Pass), On(0, 0, Write(5)));
  }

  /** A request to queue an item has checked it, the session is cancelled, and the finish still relabels it. */
  lemma LateFinishRelabels()
    ensures var before := Solo(Whole(Uploaded, 10, true, true, BLANK), Open, false, Closed);
            var cancelled := CancelNow(before, 0);
            && cancelled.sessions[0].status == Released
            && Apply(cancelled, On(0, 0, Finish)).sessions[0].status == Partial
            && Apply(cancelled, On(0, 0, Finish)).sessions[0].items[0].phase == Cancelled
  {
    var item := Whole(Uploaded, 10, true, true, BLANK);
    SoloCancels(item, Open, false, Closed);
    SoloCancels(item, Open, true, Closed);
    SoloActs(CancelItem(item), Released, true, Closed, Finish);
  }

  /** A request to cancel has found the session open, its last item is queued, and the cancel still releases it. */
  lemma LateCancelReleases()
    ensures var before := Solo(Whole(Uploaded, 10, true, true, BLANK), Open, true, Closed);
            var complete := Apply(before, On(0, 0, Finish));
            && complete.sessions[0].status == Complete
            && Apply(complete, Cancel(0)).sessions[0].status == Released
            && Apply(complete, Cancel(0)).sessions[0].items[0].phase == Queued
  {
    var item := Whole(Uploaded, 10, true, true, BLANK);
    var queued := Change(item, Finish, true, Closed);
    SoloActs(item, Open, true, Closed, Finish);
    assert Restatus(item, [queued], Finish, Open) == Complete;
    SoloCancels(queued, Complete, true, Closed);
  }
}
