/**
  What the quota guard is worth. It looks at one name after another while chunks are written and
  sources are linked, so it can overlook bytes that moved behind it; this module says how many.
 */
module UploadQuota {
  import opened UploadLedger
  import opened Wrappers

  // ---- what the guard may overlook ------------------------------------------------------------

  /** Bytes written since the guard opened. */
  function Late(item: Item): nat { item.look.late }

  /** A whole source, if it was linked since the guard opened. */
  function LateLinked(item: Item): nat { if item.look.lateLink then item.size else 0 }

  /** Bytes in the hands of a request whose capacity check is behind it. */
  function Passed(item: Item): nat { if item.passed then item.writing else 0 }

  function SeenReserved(item: Item): nat { if item.look.reserved.Some? then item.look.reserved.value else 0 }

  /** What may have moved behind the guard, and what is on its way to an item nobody waits for. */
  function Overlooked(l: Ledger): nat {
    Total(l.sessions, Late) + Total(l.sessions, LateLinked) + Total(l.sessions, Stray)
  }

  // ---- what each item keeps while a guard is open ---------------------------------------------

  predicate SeenOnce(item: Item)
    requires item.look.managed.Some?
  {
    || item.look.managed.value == item.size
    || (item.look.staged.Some? && !item.copied && item.look.staged.value == item.size)
  }

  /** A source that was linked before the guard opened is counted once, by one of its names. */
  predicate WatchedSource(item: Item) {
    && item.look.late == 0
    && (item.look.staged.Some? && !item.copied ==> item.look.staged.value in {0, item.size})
    && (item.look.managed.Some? ==> SeenOnce(item))
  }

  /** Staged bytes are seen or late, and so is every recorded offset that the sum has believed. */
  predicate WatchedStaging(item: Item) {
    && (item.look.staged.Some? ==> item.staged <= item.look.staged.value + item.look.late)
    && (item.look.reserved.Some? ==> item.look.staged.Some?)
    && (item.look.reserved.Some? && Active(item) ==> item.size <= item.look.reserved.value + item.received)
    && (item.look.reserved.Some? && Active(item) && item.received <= item.staged ==>
         item.size <= item.look.staged.value + item.look.reserved.value + item.look.late)
  }

  /** Nothing about the item has moved, so what was seen is what is there. */
  predicate WatchedStill(item: Item) {
    && item.look.late == 0 && !item.look.lateLink
    && (item.look.staged.Some? && (!item.linked || item.copied) ==> item.look.staged.value == item.staged)
    && (item.look.managed.Some? && !item.linked ==> item.look.managed.value == 0)
    && (item.look.managed.Some? && item.linked && item.copied ==> item.look.managed.value == item.size)
    && (item.look.managed.Some? && item.look.staged.Some? ==> Counted(item) == Disk(item))
    && (item.look.managed.Some? && item.look.staged.None? && item.linked ==> item.look.managed.value == item.size)
    && (item.look.reserved.Some? ==> item.look.reserved.value == Reserved(item))
  }

  /** Whatever moved, the item is covered by what was seen, what is late and a late link. */
  predicate Covered(item: Item) {
    && (item.look.lateLink ==> item.linked)
    && (if item.linked then item.look.lateLink || WatchedSource(item) else WatchedStaging(item))
  }

  predicate Watched(item: Item) {
    Covered(item) && (item.look.touched || WatchedStill(item))
  }

  lemma ChangeIsCovered(item: Item, act: Act, free: bool, guard: Guard)
    requires Sound(item) && Covered(item) && (free ==> item.writing == 0) && !guard.Closed? && Seen(item, guard)
    ensures Covered(Effect(item, act, free, guard))
  {
  }

  lemma ChangeIsStill(item: Item, act: Act, free: bool, guard: Guard)
    requires Sound(item) && Covered(item) && WatchedStill(item) && (free ==> item.writing == 0)
    requires !guard.Closed? && Seen(item, guard)
    requires !Moved(item, Effect(item, act, free, guard))
    ensures WatchedStill(Effect(item, act, free, guard))
  {
  }

  lemma ChangeIsSeen(item: Item, act: Act, free: bool, guard: Guard)
    requires Sound(item) && (free ==> item.writing == 0) && !guard.Closed? && Seen(item, guard)
    ensures var after := Change(item, act, free, guard);
            && Seen(after, guard)
            && Late(after) + Passed(after) <= Late(item) + Passed(item)
            && (guard.Summed? ==> Counted(after) == Counted(item) && SeenReserved(after) == SeenReserved(item))
  {
  }

  lemma ChangeIsWatched(item: Item, act: Act, free: bool, guard: Guard)
    requires Sound(item) && Watched(item) && (free ==> item.writing == 0)
    requires !guard.Closed? && Seen(item, guard)
    ensures Watched(Change(item, act, free, guard))
  {
    var effect := Effect(item, act, free, guard);
    ChangeIsCovered(item, act, free, guard);
    if !item.look.touched && !Moved(item, effect) {
      ChangeIsStill(item, act, free, guard);
    }
    TouchKeeps(item, effect);
    hide Effect, Moved, Covered, WatchedStill, Sound, Seen;
  }

  lemma TouchKeeps(before: Item, after: Item)
    ensures Covered(Touch(before, after)) == Covered(after)
    ensures WatchedStill(Touch(before, after)) == WatchedStill(after)
  {
  }

  /** How far the guard has come with an item. */
  predicate Seen(item: Item, guard: Guard) {
    && (item.look.reserved.Some? <==> guard.Summed?)
    && (guard.Summed? ==> item.look.staged.Some? && item.look.managed.Some?)
  }

  lemma CancelIsWatched(item: Item, guard: Guard)
    requires Sound(item) && Watched(item) && Seen(item, guard)
    ensures var after := CancelItem(item);
            Watched(after) && after.look == item.look.(touched := after.look.touched)
            && after.passed == item.passed && after.writing == item.writing
  {
  }

  // ---- the whole ledger -----------------------------------------------------------------------

  function LateOrPassed(item: Item): nat { Late(item) + Passed(item) }

  ghost predicate WatchedItems(items: seq<Item>, guard: Guard) {
    forall i :: 0 <= i < |items| ==> Watched(items[i]) && Seen(items[i], guard)
  }

  ghost predicate WatchedLedger(l: Ledger) {
    l.guard.Closed?
    || (&& (forall s :: 0 <= s < |l.sessions| ==> WatchedItems(l.sessions[s].items, l.guard))
        && Total(l.sessions, LateOrPassed) <= MAX_CHUNK
        && (l.guard.Summed? ==>
             l.guard.used == Total(l.sessions, Counted) && l.guard.reserved == Total(l.sessions, SeenReserved)))
  }

  lemma ReplaceItemIsWatched(l: Ledger, s: nat, i: nat, changed: Item, session: Session)
    requires WatchedLedger(l) && !l.guard.Closed? && At(l, s, i)
    requires Watched(changed) && Seen(changed, l.guard) && session.items == l.sessions[s].items[i := changed]
    requires LateOrPassed(changed) <= LateOrPassed(l.sessions[s].items[i])
    requires l.guard.Summed? ==> Counted(changed) == Counted(l.sessions[s].items[i])
                                 && SeenReserved(changed) == SeenReserved(l.sessions[s].items[i])
    ensures WatchedLedger(l.(sessions := l.sessions[s := session]))
  {
    var items := l.sessions[s].items;
    assert WatchedItems(items, l.guard);
    hide Watched, Seen, Counted, SeenReserved, LateOrPassed;
    SumUpdate(items, i, changed, LateOrPassed);
    TotalUpdate(l.sessions, s, session, LateOrPassed);
    SumUpdate(items, i, changed, Counted);
    TotalUpdate(l.sessions, s, session, Counted);
    SumUpdate(items, i, changed, SeenReserved);
    TotalUpdate(l.sessions, s, session, SeenReserved);
  }

  lemma ActIsWatched(l: Ledger, s: nat, i: nat, act: Act)
    requires SoundLedger(l) && WatchedLedger(l) && At(l, s, i)
    ensures WatchedLedger(Apply(l, On(s, i, act)))
  {
    if !l.guard.Closed? {
      var item := l.sessions[s].items[i];
      assert SoundSession(l.sessions[s]) && WatchedItems(l.sessions[s].items, l.guard);
      TotalAtLeast(l.sessions, s, i, InFlight);
      ChangeIsWatched(item, act, Unlocked(l), l.guard);
      ChangeIsSeen(item, act, Unlocked(l), l.guard);
      hide Change, Watched, Seen;
      ReplaceItemIsWatched(l, s, i, Change(item, act, Unlocked(l), l.guard), Acted(l.sessions[s], i, act, Unlocked(l), l.guard));
    }
  }

  /** Sessions may be replaced one by one if what the guard saw of their items stays. */
  lemma SessionsAreWatched(l: Ledger, after: Ledger)
    requires WatchedLedger(l) && !l.guard.Closed? && after.guard == l.guard && |after.sessions| == |l.sessions|
    requires forall s :: 0 <= s < |l.sessions| ==>
               |after.sessions[s].items| == |l.sessions[s].items| && WatchedItems(after.sessions[s].items, l.guard)
    requires forall s, i :: 0 <= s < |l.sessions| && 0 <= i < |l.sessions[s].items| ==>
               SameView(l.sessions[s].items[i], after.sessions[s].items[i])
    ensures WatchedLedger(after)
  {
    TotalSame(l.sessions, after.sessions, LateOrPassed);
    TotalSame(l.sessions, after.sessions, Counted);
    TotalSame(l.sessions, after.sessions, SeenReserved);
  }

  predicate SameView(before: Item, after: Item) {
    && after.look == before.look.(touched := after.look.touched)
    && after.passed == before.passed && after.writing == before.writing
  }

  lemma CancelledAreWatched(items: seq<Item>, guard: Guard)
    requires WatchedItems(items, guard) && forall i :: 0 <= i < |items| ==> Sound(items[i])
    ensures WatchedItems(CancelItems(items), guard)
    ensures forall i :: 0 <= i < |items| ==> SameView(items[i], CancelItems(items)[i])
  {
    forall i | 0 <= i < |items|
      ensures Watched(CancelItem(items[i])) && Seen(CancelItem(items[i]), guard) && SameView(items[i], CancelItem(items[i]))
    {
      CancelIsWatched(items[i], guard);
    }
  }

  lemma CancelStepIsWatched(l: Ledger, s: nat)
    requires SoundLedger(l) && WatchedLedger(l) && s < |l.sessions|
    ensures WatchedLedger(Apply(l, Cancel(s))) && WatchedLedger(Apply(l, Allow(s)))
  {
    if !l.guard.Closed? {
      assert SoundSession(l.sessions[s]);
      CancelledAreWatched(l.sessions[s].items, l.guard);
      hide WatchedItems, CancelItem, SoundLedger, SoundSession, Total, SameView;
      SessionsAreWatched(l, Apply(l, Cancel(s)));
      SessionsAreWatched(l, Apply(l, Allow(s)));
    }
  }

  lemma BoundAreWatched(items: seq<Item>, rows: map<string, nat>, guard: Guard)
    requires WatchedItems(items, guard)
    ensures WatchedItems(MapItems(items, item => BindRow(item, rows)), guard)
  {
    forall i | 0 <= i < |items|
      ensures Watched(BindRow(items[i], rows)) && Seen(BindRow(items[i], rows), guard)
    {
      assert Watched(items[i]) && Seen(items[i], guard);
    }
  }

  lemma AdoptIsWatched(l: Ledger, s: nat, rows: map<string, nat>)
    requires WatchedLedger(l) && s < |l.sessions|
    ensures WatchedLedger(Adopted(l, s, rows))
  {
    if !l.guard.Closed? {
      var after := Adopted(l, s, rows);
      forall t | 0 <= t < |l.sessions|
        ensures WatchedItems(after.sessions[t].items, l.guard) && |after.sessions[t].items| == |l.sessions[t].items|
      {
        BoundAreWatched(l.sessions[t].items, rows, l.guard);
      }
      hide WatchedItems, Total;
      SessionsAreWatched(l, after);
    }
  }

  lemma FreshIsWatched(item: Item, request: Request)
    requires Sound(item)
    ensures Watched(Unlook(item)) && Seen(Unlook(item), Counting(request)) && LateOrPassed(Unlook(item)) <= InFlight(item)
  {
  }

  lemma EnterIsWatched(l: Ledger, request: Request)
    requires SoundLedger(l) && l.guard.Closed?
    ensures WatchedLedger(Apply(l, Enter(request)))
  {
    var after := Apply(l, Enter(request));
    forall s, i | 0 <= s < |l.sessions| && 0 <= i < |l.sessions[s].items|
      ensures var now := after.sessions[s].items[i];
              Watched(now) && Seen(now, after.guard) && LateOrPassed(now) <= InFlight(l.sessions[s].items[i])
    {
      assert SoundSession(l.sessions[s]);
      FreshIsWatched(l.sessions[s].items[i], request);
    }
    hide Watched, Seen, LateOrPassed, InFlight, Unlook;
    TotalLe(after.sessions, l.sessions, LateOrPassed, InFlight);
  }

  lemma {:induction false} TotalLe(before: seq<Session>, after: seq<Session>, f: Item -> nat, g: Item -> nat)
    requires |before| == |after|
    requires forall s :: 0 <= s < |before| ==> |before[s].items| == |after[s].items|
    requires forall s, i :: 0 <= s < |before| && 0 <= i < |before[s].items| ==> f(before[s].items[i]) <= g(after[s].items[i])
    ensures Total(before, f) <= Total(after, g)
  {
    if before != [] {
      SumLe(before[0].items, after[0].items, f, g);
      TotalLe(before[1..], after[1..], f, g);
    }
  }

  lemma ReservedIsWatched(item: Item)
    requires Sound(item) && Watched(item) && item.look.reserved.None?
    requires item.look.staged.Some? && item.look.managed.Some?
    ensures var after := LookReserved(item);
            Watched(after) && LateOrPassed(after) == LateOrPassed(item) && Counted(after) == Counted(item)
            && SeenReserved(after) == Reserved(item)
  {
  }

  lemma TallyIsWatched(l: Ledger)
    requires SoundLedger(l) && WatchedLedger(l) && l.guard.Counting? && Scanned(l.sessions)
    ensures WatchedLedger(Apply(l, Tally))
  {
    var after := Apply(l, Tally);
    forall s, i | 0 <= s < |l.sessions| && 0 <= i < |l.sessions[s].items|
      ensures var item, now := l.sessions[s].items[i], after.sessions[s].items[i];
              && now == LookReserved(item) && Watched(now) && Seen(now, after.guard)
              && LateOrPassed(now) == LateOrPassed(item) && Counted(now) == Counted(item)
              && SeenReserved(now) == Reserved(item)
    {
      assert SoundSession(l.sessions[s]) && WatchedItems(l.sessions[s].items, l.guard);
      ReservedIsWatched(l.sessions[s].items[i]);
    }
    hide Watched, Seen, LateOrPassed, Counted, SeenReserved, Reserved, LookReserved, SoundLedger, Sound;
    TotalSame(l.sessions, after.sessions, LateOrPassed);
    TotalSame(l.sessions, after.sessions, Counted);
    TotalLe(after.sessions, l.sessions, SeenReserved, Reserved);
    TotalLe(l.sessions, after.sessions, Reserved, SeenReserved);
  }

  lemma StepIsWatched(l: Ledger, step: Step)
    requires SoundLedger(l) && WatchedLedger(l)
    ensures WatchedLedger(Apply(l, step))
  {
    hide WatchedLedger;
    match step
    case Enter(request) => if l.guard.Closed? { EnterIsWatched(l, request); }
    case Tally => if l.guard.Counting? && Scanned(l.sessions) { TallyIsWatched(l); }
    case Insert => if l.guard.Summed? { ClosedIsWatched(Apply(l, Insert)); }
    case Leave => ClosedIsWatched(Apply(l, Leave));
    case On(s, i, act) => if At(l, s, i) { ActIsWatched(l, s, i, act); }
    case Allow(s) => if s < |l.sessions| { CancelStepIsWatched(l, s); }
    case Cancel(s) => if s < |l.sessions| { CancelStepIsWatched(l, s); }
    case Adopt(s, actor, rows) => if s < |l.sessions| { AdoptIsWatched(l, s, rows); }
  }

  lemma ClosedIsWatched(l: Ledger)
    requires l.guard.Closed?
    ensures WatchedLedger(l)
  {
  }

  // ---- what the guard's answer is worth -------------------------------------------------------

  /** What the guard made of an item, with what it may have overlooked of it, covers the item's claim. */
  lemma ItemIsCovered(item: Item)
    requires Sound(item) && Watched(item)
    requires item.look.staged.Some? && item.look.managed.Some? && item.look.reserved.Some?
    ensures Claim(item) <= Counted(item) + SeenReserved(item) + Late(item) + LateLinked(item) + Stray(item)
    ensures !item.look.touched ==> Counted(item) == Disk(item) && SeenReserved(item) == Reserved(item)
                                   && Late(item) + LateLinked(item) == 0
  {
  }

  lemma {:induction false} ItemsAreCovered(items: seq<Item>, guard: Guard)
    requires guard.Summed? && WatchedItems(items, guard) && forall i :: 0 <= i < |items| ==> Sound(items[i])
    ensures Sum(items, Claim) <= Sum(items, Counted) + Sum(items, SeenReserved)
                                 + Sum(items, Late) + Sum(items, LateLinked) + Sum(items, Stray)
    ensures Sum(items, Late) <= Sum(items, LateOrPassed) && Sum(items, Stray) <= Sum(items, InFlight)
  {
    if items != [] {
      ItemIsCovered(items[0]);
      ItemsAreCovered(items[1..], guard);
    }
  }

  lemma {:induction false} AllIsCovered(sessions: seq<Session>, guard: Guard)
    requires guard.Summed? && forall s :: 0 <= s < |sessions| ==> SoundSession(sessions[s]) && WatchedItems(sessions[s].items, guard)
    ensures Total(sessions, Claim) <= Total(sessions, Counted) + Total(sessions, SeenReserved)
                                      + Total(sessions, Late) + Total(sessions, LateLinked) + Total(sessions, Stray)
    ensures Total(sessions, Late) <= Total(sessions, LateOrPassed) && Total(sessions, Stray) <= Total(sessions, InFlight)
  {
    if sessions != [] {
      ItemsAreCovered(sessions[0].items, guard);
      AllIsCovered(sessions[1..], guard);
    }
  }

  /** An accepted request passes the quota by no more than the guard may have overlooked. */
  lemma InsertStaysNear(l: Ledger)
    requires SoundLedger(l) && WatchedLedger(l)
    ensures Footprint(Apply(l, Insert)) <= Footprint(l)
         || Footprint(Apply(l, Insert)) <= l.quota + Overlooked(l)
    ensures l.guard.Summed? ==> Overlooked(l) <= 2 * MAX_CHUNK + Total(l.sessions, LateLinked)
  {
    InsertIsSound(l);
    if l.guard.Summed? {
      AllIsCovered(l.sessions, l.guard);
    }
  }

  function Most(a: nat, b: nat): nat { if a > b then a else b }

  /** The most that any guard of the run may have overlooked when it let a session in. */
  function Worst(l: Ledger, steps: seq<Step>): nat
    decreases |steps|
  {
    if steps == [] then 0
    else Most(if steps[0].Insert? && l.guard.Summed? then Overlooked(l) else 0, Worst(Apply(l, steps[0]), steps[1..]))
  }

  /** Nothing was written or linked while a guard was open, and no stray chunk was on its way when it let a session in. */
  ghost predicate Calm(l: Ledger, steps: seq<Step>) { Worst(l, steps) == 0 }

  /** No source was linked while a guard was open. */
  ghost predicate NoLateLink(l: Ledger, steps: seq<Step>)
    decreases |steps|
  {
    steps == []
    || ((steps[0].Insert? ==> Total(l.sessions, LateLinked) == 0) && NoLateLink(Apply(l, steps[0]), steps[1..]))
  }

  lemma {:induction false} RunKeeps(l: Ledger, steps: seq<Step>)
    requires SoundLedger(l) && WatchedLedger(l)
    ensures var end := Run(l, steps);
            && SoundLedger(end) && WatchedLedger(end)
            && (Footprint(end) <= Footprint(l) || Footprint(end) <= l.quota + Worst(l, steps))
            && (NoLateLink(l, steps) ==> Worst(l, steps) <= 2 * MAX_CHUNK)
    decreases |steps|
  {
    if steps != [] {
      var next := Apply(l, steps[0]);
      InsertStaysNear(l);
      InsertIsSound(l);
      StepIsWatched(l, steps[0]);
      if !steps[0].Insert? {
        StepIsSound(l, steps[0]);
      }
      hide Apply, WatchedLedger, Footprint, Overlooked;
      RunKeeps(next, steps[1..]);
    }
  }

  lemma {:induction false} ItemsAreClaimed(items: seq<Item>)
    requires forall i :: 0 <= i < |items| ==> Sound(items[i])
    ensures Sum(items, Disk) <= Sum(items, Claim) + Sum(items, Spare)
  {
    if items != [] {
      ItemsAreClaimed(items[1..]);
    }
  }

  lemma {:induction false} AllIsClaimed(sessions: seq<Session>)
    requires forall s :: 0 <= s < |sessions| ==> SoundSession(sessions[s])
    ensures Total(sessions, Disk) <= Total(sessions, Claim) + Total(sessions, Spare)
  {
    if sessions != [] {
      assert SoundSession(sessions[0]);
      ItemsAreClaimed(sessions[0].items);
      AllIsClaimed(sessions[1..]);
    }
  }

  /**
    In every reachable state the sources on disk, without spare copies, pass the quota by at most
    what some guard overlooked when it let a session in: nothing in a calm run, and two chunks in a
    run that links no source while a guard is open.
   */
  lemma DiskStaysWithinQuota(quota: nat, receipt: seq<Row>, steps: seq<Step>)
    ensures var start := Start(quota, receipt);
            var end := Run(start, steps);
            && Used(end) <= quota + Worst(start, steps) + Total(end.sessions, Spare)
            && (Calm(start, steps) ==> Used(end) <= quota + Total(end.sessions, Spare))
            && (NoLateLink(start, steps) ==> Used(end) <= quota + 2 * MAX_CHUNK + Total(end.sessions, Spare))
  {
    RunKeeps(Start(quota, receipt), steps);
    AllIsClaimed(Run(Start(quota, receipt), steps).sessions);
  }

  // ---- when the stored-plus-reserved projection is exact --------------------------------------

  /** Nothing about the item is between the disk and the control store. */
  predicate Settled(item: Item) {
    if item.linked then (item.copied ==> item.staged == 0) && (Active(item) ==> item.received == item.size)
    else Active(item) ==> item.staged == item.received || (item.staged < item.received && item.received == item.size)
  }

  lemma {:induction false} ItemsProjection(items: seq<Item>)
    requires forall i :: 0 <= i < |items| ==> Sound(items[i])
    ensures Sum(items, Disk) + Sum(items, Reserved) + Sum(items, Stray) >= Sum(items, Claim)
    ensures Sum(items, Disk) + Sum(items, Reserved) + Sum(items, Stray) == Sum(items, Claim)
       <==> forall i :: 0 <= i < |items| ==> Settled(items[i])
  {
    if items != [] {
      ItemsProjection(items[1..]);
      var first := items[0];
      assert Disk(first) + Reserved(first) + Stray(first) >= Claim(first);
      assert Disk(first) + Reserved(first) + Stray(first) == Claim(first) <==> Settled(first);
      assert forall i :: 0 < i < |items| ==> items[i] == items[1..][i - 1];
    }
  }

  ghost predicate AllSettled(sessions: seq<Session>) {
    forall s, i :: 0 <= s < |sessions| && 0 <= i < |sessions[s].items| ==> Settled(sessions[s].items[i])
  }

  /** Stored, reserved and stray bytes equal what is claimed exactly when every item is settled; otherwise they exceed it. */
  lemma {:induction false} ProjectionExact(sessions: seq<Session>)
    requires forall s :: 0 <= s < |sessions| ==> SoundSession(sessions[s])
    ensures Total(sessions, Disk) + Total(sessions, Reserved) + Total(sessions, Stray) >= Total(sessions, Claim)
    ensures Total(sessions, Disk) + Total(sessions, Reserved) + Total(sessions, Stray) == Total(sessions, Claim) <==> AllSettled(sessions)
  {
    if sessions != [] {
      assert SoundSession(sessions[0]);
      ItemsProjection(sessions[0].items);
      ProjectionExact(sessions[1..]);
      assert forall s :: 0 < s < |sessions| ==> sessions[s] == sessions[1..][s - 1];
    }
  }

  /** Stored plus reserved bytes stay within the quota in every calm run that ends settled. */
  lemma ProjectionWithinQuota(quota: nat, receipt: seq<Row>, steps: seq<Step>)
    requires Calm(Start(quota, receipt), steps)
    ensures var end := Run(Start(quota, receipt), steps);
            AllSettled(end.sessions) ==> Used(end) + PendingBytes(end) <= quota
  {
    RunKeeps(Start(quota, receipt), steps);
    ProjectionExact(Run(Start(quota, receipt), steps).sessions);
  }

  // ---- when the guard is right ----------------------------------------------------------------

  predicate GuardAdmits(l: Ledger, requested: nat)
    requires l.guard.Summed?
  {
    l.guard.used + l.guard.reserved + requested <= l.quota
  }

  predicate Affordable(l: Ledger, requested: nat) { Footprint(l) + requested <= l.quota }

  /** Nothing has moved on disk or in the control store since the guard opened. */
  ghost predicate Undisturbed(l: Ledger) {
    forall s, i :: 0 <= s < |l.sessions| && 0 <= i < |l.sessions[s].items| ==> !l.sessions[s].items[i].look.touched
  }

  /** An undisturbed guard reads exactly what is stored and what is reserved. */
  lemma UndisturbedIsExact(l: Ledger)
    requires SoundLedger(l) && WatchedLedger(l) && l.guard.Summed? && Undisturbed(l)
    ensures l.guard.used == Used(l) && l.guard.reserved == PendingBytes(l)
  {
    forall s, i | 0 <= s < |l.sessions| && 0 <= i < |l.sessions[s].items|
      ensures Counted(l.sessions[s].items[i]) == Disk(l.sessions[s].items[i])
      ensures SeenReserved(l.sessions[s].items[i]) == Reserved(l.sessions[s].items[i])
    {
      assert SoundSession(l.sessions[s]) && WatchedItems(l.sessions[s].items, l.guard);
      ItemIsCovered(l.sessions[s].items[i]);
    }
    hide Counted, SeenReserved, Disk, Reserved;
    TotalLe(l.sessions, l.sessions, Counted, Disk);
    TotalLe(l.sessions, l.sessions, Disk, Counted);
    TotalLe(l.sessions, l.sessions, SeenReserved, Reserved);
    TotalLe(l.sessions, l.sessions, Reserved, SeenReserved);
  }

  /** An undisturbed guard over a settled matter is right about every request exactly when no stray chunk is on its way. */
  lemma GuardIsRightExactly(l: Ledger)
    requires SoundLedger(l) && WatchedLedger(l) && l.guard.Summed? && Undisturbed(l)
    requires AllSettled(l.sessions) && GuardAdmits(l, 0)
    ensures (forall requested: nat :: GuardAdmits(l, requested) ==> Affordable(l, requested)) <==> Total(l.sessions, Stray) == 0
  {
    ProjectionExact(l.sessions);
    UndisturbedIsExact(l);
    var room := l.quota - l.guard.used - l.guard.reserved;
    assert GuardAdmits(l, room);
    if Total(l.sessions, Stray) > 0 {
      assert !Affordable(l, room);
    }
  }
}
