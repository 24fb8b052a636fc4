/**
  Upload sessions of one matter: what the control store records, what lies on disk, and the quota.

  Every step is one atomic effect, so a run may stop anywhere: between bytes reaching the disk and
  their offset being recorded, between a source being linked and its item being queued, or between
  a cancellation and the removal of its staged bytes.
 */
module UploadLedger {
  import opened Wrappers

  const MAX_CHUNK: nat := 2 * 1024 * 1024

  datatype Phase = Pending | Uploading | Uploaded | Queued | Failed | Cancelled

  /**
    What the guard under way has seen of an item: its staged name, its managed source and what it
    still reserves. The rest is history since the guard opened: bytes written, a link made, anything
    at all moved.
   */
  datatype Look = Look(staged: Option<nat>, managed: Option<nat>, reserved: Option<nat>,
                       late: nat, lateLink: bool, touched: bool)

  const BLANK := Look(None, None, None, 0, false, false)

  /**
    A file of a session. `received` bytes are recorded, `staged` bytes are on disk, and `writing`
    more are in the hands of a request that holds the matter's source lock; `passed` says that its
    capacity check is behind it. `linked` says that the managed source exists: a hard link to the
    staged bytes or, where links fail, a copy of them. `checked` says that a request to queue the
    item has found it fully received.
   */
  datatype Item = Item(path: string, size: nat, row: Option<nat>, phase: Phase, received: nat,
                       staged: nat, writing: nat, passed: bool, linked: bool, copied: bool, checked: bool, look: Look)

  datatype Status = Open | Complete | Partial | Released

  /** `cancelling` says that a request to cancel has found the session not yet complete. */
  datatype Session = Session(owner: nat, collection: nat, status: Status, cancelling: bool, items: seq<Item>)

  datatype Entry = Entry(path: string, size: int, row: Option<nat>)

  datatype Request = Request(actor: nat, entries: seq<Entry>, collection: Option<nat>)

  /**
    The quota guard, which holds the reservation lock: it counts the files it finds one name at a
    time, then sums what is reserved, then opens the session or refuses.
   */
  datatype Guard = Closed | Counting(request: Request) | Summed(request: Request, used: nat, reserved: nat)

  /** A row of a recorded selection, and who recorded it. */
  datatype Row = Row(owner: nat, path: string, size: nat)

  /** Sessions are named by their position, and so are collections, of which only the owner matters. */
  datatype Ledger = Ledger(quota: nat, receipt: seq<Row>, sessions: seq<Session>, collections: seq<nat>, guard: Guard)

  predicate Active(item: Item) { item.phase in {Pending, Uploading, Uploaded} }

  predicate At(l: Ledger, s: nat, i: nat) { s < |l.sessions| && i < |l.sessions[s].items| }

  function Start(quota: nat, receipt: seq<Row>): Ledger { Ledger(quota, receipt, [], [], Closed) }

  // ---- bytes ----------------------------------------------------------------------------------

  function Sum(items: seq<Item>, f: Item -> nat): nat {
    if items == [] then 0 else f(items[0]) + Sum(items[1..], f)
  }

  function Total(sessions: seq<Session>, f: Item -> nat): nat {
    if sessions == [] then 0 else Sum(sessions[0].items, f) + Total(sessions[1..], f)
  }

  /** Bytes of an item on disk; two names of one file count once. */
  function Disk(item: Item): nat {
    if item.linked then (if item.copied then item.size + item.staged else item.size) else item.staged
  }

  /** Bytes the control store still reserves for an item. */
  function Reserved(item: Item): nat {
    if Active(item) && item.received <= item.size then item.size - item.received else 0
  }

  /** The second copy of a source whose staged bytes are still there. */
  function Spare(item: Item): nat { if item.linked && item.copied then item.staged else 0 }

  function InFlight(item: Item): nat { item.writing }

  /** Bytes being written to an item that was failed or cancelled after the lock was taken. */
  function Stray(item: Item): nat { if Active(item) then 0 else item.writing }

  /** The most bytes an item may still come to occupy, besides a spare copy. */
  function Claim(item: Item): nat {
    if item.linked || (Active(item) && item.received <= item.staged) then item.size else item.staged + Stray(item)
  }

  function Used(l: Ledger): nat { Total(l.sessions, Disk) }

  function PendingBytes(l: Ledger): nat { Total(l.sessions, Reserved) }

  function Footprint(l: Ledger): nat { Total(l.sessions, Claim) }

  /** The matter's source lock is free when no request holds a chunk. */
  predicate Unlocked(l: Ledger) { Total(l.sessions, InFlight) == 0 }

  // ---- opening a session ----------------------------------------------------------------------

  predicate Holds(session: Session, row: nat) {
    exists i :: 0 <= i < |session.items| && session.items[i].row == Some(row)
  }

  /** The session that already took a receipt row. */
  function HolderOf(sessions: seq<Session>, row: nat): (holder: Option<nat>)
    ensures holder.Some? ==> holder.value < |sessions| && Holds(sessions[holder.value], row)
    ensures holder.None? ==> forall s :: 0 <= s < |sessions| ==> !Holds(sessions[s], row)
  {
    if sessions == [] then None
    else
      var n := |sessions| - 1;
      if Holds(sessions[n], row) then Some(n) else HolderOf(sessions[..n], row)
  }

  function Rows(items: seq<Item>): seq<Option<nat>> {
    seq(|items|, i requires 0 <= i < |items| => items[i].row)
  }

  function EntryRows(entries: seq<Entry>): seq<Option<nat>> {
    seq(|entries|, i requires 0 <= i < |entries| => entries[i].row)
  }

  predicate Recorded(receipt: seq<Row>, actor: nat, entry: Entry) {
    && entry.row.Some? && entry.row.value < |receipt|
    && var row := receipt[entry.row.value];
       row.owner == actor && row.path == entry.path && row.size == entry.size
  }

  datatype Check = Invalid | Fresh | Existing(session: nat)

  /** Which session, if any, a request that names receipt rows must be answered with. */
  function CheckReceipt(l: Ledger, actor: nat, entries: seq<Entry>): (check: Check)
    ensures check.Existing? ==> check.session < |l.sessions|
  {
    if forall i :: 0 <= i < |entries| ==> entries[i].row.None? then Fresh
    else if exists i :: 0 <= i < |entries| && !Recorded(l.receipt, actor, entries[i]) then Invalid
    else if exists i, j :: 0 <= i < j < |entries| && entries[i].row == entries[j].row then Invalid
    else if forall i :: 0 <= i < |entries| ==> HolderOf(l.sessions, entries[i].row.value).None? then Fresh
    else
      var holder := HolderOf(l.sessions, entries[0].row.value);
      if holder.Some? && Rows(l.sessions[holder.value].items) == EntryRows(entries)
         && l.sessions[holder.value].owner == actor && l.sessions[holder.value].status != Released
      then Existing(holder.value) else Invalid
  }

  function Requested(entries: seq<Entry>): int {
    if entries == [] then 0 else entries[0].size + Requested(entries[1..])
  }

  predicate Repeats(session: Session, collection: nat, path: string) {
    session.collection == collection
    && exists i :: 0 <= i < |session.items| && session.items[i].phase != Cancelled && session.items[i].path == path
  }

  /** Everything but receipts and quota that a new session must satisfy. */
  predicate Acceptable(l: Ledger, request: Request) {
    var entries := request.entries;
    && entries != []
    && (forall i :: 0 <= i < |entries| ==> entries[i].size > 0)
    && (forall i, j :: 0 <= i < j < |entries| ==> entries[i].path != entries[j].path)
    && (request.collection.Some? ==>
         && request.collection.value < |l.collections| && l.collections[request.collection.value] == request.actor
         && forall i, s :: 0 <= i < |entries| && 0 <= s < |l.sessions| ==>
              !Repeats(l.sessions[s], request.collection.value, entries[i].path))
  }

  function NewItem(entry: Entry): Item
    requires entry.size > 0
  {
    Item(entry.path, entry.size, entry.row, Pending, 0, 0, 0, false, false, false, false, BLANK)
  }

  function NewItems(entries: seq<Entry>): (items: seq<Item>)
    requires forall i :: 0 <= i < |entries| ==> entries[i].size > 0
    ensures |items| == |entries|
  {
    seq(|entries|, i requires 0 <= i < |entries| => NewItem(entries[i]))
  }

  function Joined(l: Ledger, collection: Option<nat>): nat {
    if collection.Some? then collection.value else |l.collections|
  }

  predicate WithinQuota(l: Ledger, entries: seq<Entry>, seen: nat) { seen + Requested(entries) <= l.quota }

  /** The session a request is answered with, if it is not refused; `seen` is what its guard counted. */
  function Answer(l: Ledger, request: Request, seen: nat): Option<nat> {
    var check := CheckReceipt(l, request.actor, request.entries);
    if check.Existing? then Some(check.session)
    else if check.Fresh? && WithinQuota(l, request.entries, seen) && Acceptable(l, request) then Some(|l.sessions|)
    else None
  }

  function Create(l: Ledger, request: Request, seen: nat): Ledger {
    if Answer(l, request, seen) == Some(|l.sessions|) then
      l.(sessions := l.sessions + [Session(request.actor, Joined(l, request.collection), Open, false, NewItems(request.entries))],
         collections := if request.collection.Some? then l.collections else l.collections + [request.actor])
    else l
  }

  /** What a guard counts when nothing else happens meanwhile. */
  function Projected(l: Ledger): nat { Used(l) + PendingBytes(l) }

  // ---- steps on one item ----------------------------------------------------------------------

  datatype Act =
    | Begin(count: nat)
    | Pass
    | Write(count: nat)
    | Abandon
    | Record
    | Link(copied: bool)
    | Check
    | Finish
    | Fail
    | Discard
    | LookStaged
    | LookManaged(skip: bool)

  predicate Finishable(item: Item) { item.phase == Uploaded && item.received == item.size && item.linked }

  /** The scan counts a file once: a name of an inode that it has already counted adds nothing. */
  function StagedCount(item: Item): nat {
    if item.linked && !item.copied && item.look.managed.Some? && item.look.managed.value > 0 then 0 else item.staged
  }

  /** `skip` stands for a staged file that was still empty when the scan passed it. */
  function ManagedCount(item: Item, skip: bool): nat {
    if !item.linked then 0
    else if !item.copied && item.look.staged.Some? && (item.look.staged.value > 0 || (skip && item.look.lateLink)) then 0
    else item.size
  }

  /** `free` says that the source lock is free; only the control store and the guard move without it. */
  function Effect(item: Item, act: Act, free: bool, guard: Guard): Item {
    match act
    case Begin(count) =>
      if free && item.phase in {Pending, Uploading} && item.staged == item.received
         && 0 < count <= MAX_CHUNK && item.staged + count <= item.size
      then item.(writing := count, passed := false) else item
    case Pass => if item.writing > 0 && guard.Closed? then item.(passed := true) else item
    case Write(count) =>
      if item.passed && 0 < count <= item.writing
      then item.(staged := item.staged + count, writing := item.writing - count, look := item.look.(late := item.look.late + count))
      else item
    case Abandon => item.(writing := 0)
    case Record =>
      if free && Active(item) && item.received < item.staged
      then item.(received := item.staged, phase := if item.staged == item.size then Uploaded else Uploading)
      else item
    case Link(copied) =>
      if free && item.staged == item.size && !item.linked
      then item.(linked := true, copied := copied, look := item.look.(lateLink := true)) else item
    case Check => if Finishable(item) then item.(checked := true) else item
    case Finish => if item.checked && item.phase == Uploaded then item.(phase := Queued) else item
    case Fail => if item.phase in {Queued, Cancelled} then item else item.(phase := Failed)
    case Discard => if free && (!item.linked || !Active(item)) then item.(staged := 0) else item
    case LookStaged =>
      if guard.Counting? && item.look.staged.None?
      then item.(look := item.look.(staged := Some(StagedCount(item)))) else item
    case LookManaged(skip) =>
      if guard.Counting? && item.look.managed.None?
      then item.(look := item.look.(managed := Some(ManagedCount(item, skip)))) else item
  }

  /** Bytes or names on disk, or bytes reserved, are no longer what they were. */
  predicate Moved(before: Item, after: Item) {
    Disk(before) != Disk(after) || Reserved(before) != Reserved(after) || before.linked != after.linked
  }

  function Touch(before: Item, after: Item): Item {
    after.(look := after.look.(touched := before.look.touched || Moved(before, after)))
  }

  function Change(item: Item, act: Act, free: bool, guard: Guard): Item { Touch(item, Effect(item, act, free, guard)) }

  predicate Unfinished(items: seq<Item>) { exists i :: 0 <= i < |items| && Active(items[i]) }

  predicate Lost(items: seq<Item>) {
    exists i :: 0 <= i < |items| && items[i].phase in {Failed, Cancelled}
  }

  /**
    Finishing and failing recompute the session's status from its items; nothing else does. A finish
    does so even if its item has moved on since the request checked it.
   */
  function Restatus(before: Item, items: seq<Item>, act: Act, status: Status): Status {
    if act.Finish? && before.checked then
      if Unfinished(items) then Open else if Lost(items) then Partial else Complete
    else if act.Fail? then
      if Unfinished(items) then Open else Partial
    else status
  }

  function Acted(session: Session, i: nat, act: Act, free: bool, guard: Guard): Session
    requires i < |session.items|
  {
    var items := session.items[i := Change(session.items[i], act, free, guard)];
    session.(status := Restatus(session.items[i], items, act, session.status), items := items)
  }

  function CancelItem(item: Item): Item {
    Touch(item, if item.phase in {Queued, Cancelled} then item else item.(phase := Cancelled))
  }

  function CancelItems(items: seq<Item>): (cancelled: seq<Item>)
    ensures |cancelled| == |items|
    ensures forall i :: 0 <= i < |items| ==> cancelled[i] == CancelItem(items[i])
  {
    seq(|items|, i requires 0 <= i < |items| => CancelItem(items[i]))
  }

  /** The check of a request to cancel, and what that request then does whatever has happened since. */
  function AllowCancel(session: Session): Session {
    if session.status == Complete then session else session.(cancelling := true)
  }

  function CancelSession(session: Session): Session {
    if !session.cancelling then session else session.(status := Released, items := CancelItems(session.items))
  }

  // ---- steps on all items ---------------------------------------------------------------------

  function MapItems(items: seq<Item>, g: Item -> Item): (mapped: seq<Item>)
    ensures |mapped| == |items|
    ensures forall i :: 0 <= i < |items| ==> mapped[i] == g(items[i])
  {
    seq(|items|, i requires 0 <= i < |items| => g(items[i]))
  }

  function MapAll(sessions: seq<Session>, g: Item -> Item): (mapped: seq<Session>)
    ensures |mapped| == |sessions|
    ensures forall s :: 0 <= s < |sessions| ==> mapped[s] == sessions[s].(items := MapItems(sessions[s].items, g))
  {
    seq(|sessions|, s requires 0 <= s < |sessions| => sessions[s].(items := MapItems(sessions[s].items, g)))
  }

  function Unlook(item: Item): Item { item.(look := BLANK) }

  function LookReserved(item: Item): Item { item.(look := item.look.(reserved := Some(Reserved(item)))) }

  function Counted(item: Item): nat {
    (if item.look.staged.Some? then item.look.staged.value else 0) + (if item.look.managed.Some? then item.look.managed.value else 0)
  }

  /** The scan has passed every name. */
  predicate Scanned(sessions: seq<Session>) {
    forall s, i :: 0 <= s < |sessions| && 0 <= i < |sessions[s].items| ==>
      sessions[s].items[i].look.staged.Some? && sessions[s].items[i].look.managed.Some?
  }

  // ---- taking over an older session -----------------------------------------------------------

  /**
    A session made without a receipt may be taken over by one that lists every file of its
    collection, in the same hands, with no row already spent elsewhere.
   */
  predicate Adoptable(l: Ledger, s: nat, actor: nat, rows: map<string, nat>) {
    && s < |l.sessions|
    && (forall t :: 0 <= t < |l.sessions| && Beside(l, s, t) ==> l.sessions[t].owner == actor)
    && (forall t, i :: 0 <= t < |l.sessions| && 0 <= i < |l.sessions[t].items| ==>
          (Beside(l, s, t) ==> ListedBy(l, l.sessions[t].items[i], actor, rows)))
    && (forall t, u :: 0 <= t < |l.sessions| && 0 <= u < |l.sessions| && Beside(l, s, t) && Beside(l, s, u) ==>
          DifferentPaths(l.sessions[t].items, l.sessions[u].items, t == u))
  }

  predicate DifferentPaths(items: seq<Item>, others: seq<Item>, same: bool) {
    forall i, j :: 0 <= i < |items| && 0 <= j < |others| && !(same && i == j) ==> items[i].path != others[j].path
  }

  /** The two sessions share a collection. */
  predicate Beside(l: Ledger, s: nat, t: nat) {
    s < |l.sessions| && t < |l.sessions| && l.sessions[t].collection == l.sessions[s].collection
  }

  predicate ListedBy(l: Ledger, item: Item, actor: nat, rows: map<string, nat>) {
    item.path in rows
    && Recorded(l.receipt, actor, Entry(item.path, item.size, Some(rows[item.path])))
    && (if item.row.Some? then item.row.value == rows[item.path]
        else forall t :: 0 <= t < |l.sessions| ==> !Holds(l.sessions[t], rows[item.path]))
  }

  function BindRow(item: Item, rows: map<string, nat>): Item {
    if item.row.None? && item.path in rows then item.(row := Some(rows[item.path])) else item
  }

  function Adopted(l: Ledger, s: nat, rows: map<string, nat>): Ledger
    requires s < |l.sessions|
  {
    l.(sessions := seq(|l.sessions|, t requires 0 <= t < |l.sessions| =>
      if l.sessions[t].collection == l.sessions[s].collection
      then l.sessions[t].(items := MapItems(l.sessions[t].items, item => BindRow(item, rows)))
      else l.sessions[t]))
  }

  // ---- runs -----------------------------------------------------------------------------------

  datatype Step =
    | Enter(request: Request)
    | Tally
    | Insert
    | Leave
    | On(session: nat, item: nat, act: Act)
    | Allow(session: nat)
    | Cancel(session: nat)
    | Adopt(session: nat, actor: nat, rows: map<string, nat>)

  function Apply(l: Ledger, step: Step): Ledger {
    match step
    case Enter(request) =>
      if l.guard.Closed? then l.(guard := Counting(request), sessions := MapAll(l.sessions, Unlook)) else l
    case Tally =>
      if l.guard.Counting? && Scanned(l.sessions)
      then l.(guard := Summed(l.guard.request, Total(l.sessions, Counted), PendingBytes(l)), sessions := MapAll(l.sessions, LookReserved))
      else l
    case Insert =>
      if l.guard.Summed? then Create(l, l.guard.request, l.guard.used + l.guard.reserved).(guard := Closed) else l
    case Leave => l.(guard := Closed)
    case On(s, i, act) =>
      if At(l, s, i) then l.(sessions := l.sessions[s := Acted(l.sessions[s], i, act, Unlocked(l), l.guard)]) else l
    case Allow(s) =>
      if s < |l.sessions| then l.(sessions := l.sessions[s := AllowCancel(l.sessions[s])]) else l
    case Cancel(s) =>
      if s < |l.sessions| then l.(sessions := l.sessions[s := CancelSession(l.sessions[s])]) else l
    case Adopt(s, actor, rows) => if Adoptable(l, s, actor, rows) then Adopted(l, s, rows) else l
  }

  function Run(l: Ledger, steps: seq<Step>): Ledger
    decreases |steps|
  {
    if steps == [] then l else Run(Apply(l, steps[0]), steps[1..])
  }

  lemma {:induction false} RunAppend(l: Ledger, front: seq<Step>, back: seq<Step>)
    ensures Run(l, front + back) == Run(Run(l, front), back)
    decreases |front|
  {
    if front == [] {
      assert front + back == back;
    } else {
      assert (front + back)[1..] == front[1..] + back;
      RunAppend(Apply(l, front[0]), front[1..], back);
    }
  }

  lemma RunOne(l: Ledger, step: Step)
    ensures Run(l, [step]) == Apply(l, step)
  {
    assert [step][1..] == [];
    assert Run(Apply(l, step), []) == Apply(l, step);
  }

  /** A request to cancel that nothing overtakes. */
  function CancelNow(l: Ledger, s: nat): Ledger { Apply(Apply(l, Allow(s)), Cancel(s)) }

  // ---- what every item keeps ------------------------------------------------------------------

  predicate Writable(item: Item) {
    && !item.linked && item.writing <= MAX_CHUNK
    && (Active(item) ==> item.phase != Uploaded && item.received <= item.staged)
  }

  predicate Sound(item: Item) {
    && item.size > 0 && item.received <= item.size && item.staged + item.writing <= item.size
    && (item.phase == Pending ==> item.received == 0)
    && (item.phase == Uploading ==> 0 < item.received < item.size)
    && (item.phase == Uploaded ==> item.received == item.size)
    && (item.phase == Queued ==> item.linked)
    && (item.linked ==> item.staged == item.size || (item.staged == 0 && !Active(item)))
    && (item.checked ==> item.linked && item.received == item.size)
    && (item.writing > 0 ==> Writable(item))
  }

  /** How an item may look at any later time. */
  predicate Evolves(before: Item, after: Item) {
    && after.path == before.path && after.size == before.size && (before.row.Some? ==> after.row == before.row)
    && before.received <= after.received
    && (Active(after) ==> Active(before))
    && (before.phase == Queued ==> after.phase == Queued)
    && (before.phase == Cancelled ==> after.phase == Cancelled)
  }

  lemma ChangeStaysSound(item: Item, act: Act, free: bool, guard: Guard)
    requires Sound(item) && (free ==> item.writing == 0)
    ensures Sound(Change(item, act, free, guard))
  {
    hide Moved, StagedCount, ManagedCount;
  }

  lemma ChangeClaims(item: Item, act: Act, free: bool, guard: Guard)
    requires Sound(item) && (free ==> item.writing == 0)
    ensures var after := Change(item, act, free, guard);
            && Claim(after) <= Claim(item)
            && (after.writing <= item.writing || (free && item.writing == 0 && after.writing <= MAX_CHUNK))
  {
    hide Moved, StagedCount, ManagedCount;
  }

  lemma ChangeEvolves(item: Item, act: Act, free: bool, guard: Guard)
    requires Sound(item)
    ensures Evolves(item, Change(item, act, free, guard))
  {
    hide Moved, StagedCount, ManagedCount;
  }

  lemma ChangeIsSound(item: Item, act: Act, free: bool, guard: Guard)
    requires Sound(item) && (free ==> item.writing == 0)
    ensures var after := Change(item, act, free, guard);
            && Sound(after) && Evolves(item, after)
            && Claim(after) <= Claim(item)
            && (after.writing <= item.writing || (free && item.writing == 0 && after.writing <= MAX_CHUNK))
  {
    ChangeStaysSound(item, act, free, guard);
    ChangeEvolves(item, act, free, guard);
    ChangeClaims(item, act, free, guard);
    hide *;
  }

  lemma CancelIsSound(item: Item)
    requires Sound(item)
    ensures var after := CancelItem(item);
            Sound(after) && Evolves(item, after) && Claim(after) <= Claim(item) && after.writing == item.writing
  {
  }

  // ---- sums -----------------------------------------------------------------------------------

  lemma {:induction false} SumUpdate(items: seq<Item>, i: nat, item: Item, f: Item -> nat)
    requires i < |items|
    ensures Sum(items[i := item], f) + f(items[i]) == Sum(items, f) + f(item)
  {
    if i > 0 {
      SumUpdate(items[1..], i - 1, item, f);
      assert items[i := item][1..] == items[1..][i - 1 := item];
    } else {
      assert items[0 := item][1..] == items[1..];
    }
  }

  lemma {:induction false} TotalUpdate(sessions: seq<Session>, s: nat, session: Session, f: Item -> nat)
    requires s < |sessions|
    ensures Total(sessions[s := session], f) + Sum(sessions[s].items, f) == Total(sessions, f) + Sum(session.items, f)
  {
    if s > 0 {
      TotalUpdate(sessions[1..], s - 1, session, f);
      assert sessions[s := session][1..] == sessions[1..][s - 1 := session];
    } else {
      assert sessions[0 := session][1..] == sessions[1..];
    }
  }

  lemma {:induction false} TotalAppend(sessions: seq<Session>, session: Session, f: Item -> nat)
    ensures Total(sessions + [session], f) == Total(sessions, f) + Sum(session.items, f)
  {
    if sessions == [] {
      assert [session][1..] == [] && sessions + [session] == [session];
    } else {
      TotalAppend(sessions[1..], session, f);
      assert (sessions + [session])[1..] == sessions[1..] + [session];
    }
  }

  lemma {:induction false} SumAtLeast(items: seq<Item>, i: nat, f: Item -> nat)
    requires i < |items|
    ensures f(items[i]) <= Sum(items, f)
  {
    if i > 0 {
      SumAtLeast(items[1..], i - 1, f);
    }
  }

  lemma {:induction false} TotalAtLeast(sessions: seq<Session>, s: nat, i: nat, f: Item -> nat)
    requires s < |sessions| && i < |sessions[s].items|
    ensures f(sessions[s].items[i]) <= Total(sessions, f)
  {
    if s > 0 {
      TotalAtLeast(sessions[1..], s - 1, i, f);
    } else {
      SumAtLeast(sessions[0].items, i, f);
    }
  }

  lemma {:induction false} SumLe(before: seq<Item>, after: seq<Item>, f: Item -> nat, g: Item -> nat)
    requires |before| == |after| && forall i :: 0 <= i < |before| ==> f(before[i]) <= g(after[i])
    ensures Sum(before, f) <= Sum(after, g)
  {
    if before != [] {
      SumLe(before[1..], after[1..], f, g);
    }
  }

  // ---- what every session and ledger keeps ----------------------------------------------------

  ghost predicate SoundSession(session: Session) {
    && session.items != []
    && (forall i :: 0 <= i < |session.items| ==> Sound(session.items[i]))
    && (session.status == Open <==> Unfinished(session.items))
    && (session.status == Complete ==> forall i :: 0 <= i < |session.items| ==> session.items[i].phase == Queued)
    && (session.status == Released ==> forall i :: 0 <= i < |session.items| ==> session.items[i].phase != Failed)
  }

  ghost predicate SoundLedger(l: Ledger) {
    && Total(l.sessions, InFlight) <= MAX_CHUNK
    && forall s :: 0 <= s < |l.sessions| ==>
         SoundSession(l.sessions[s]) && l.sessions[s].collection < |l.collections|
  }

  ghost predicate SessionEvolves(before: Session, after: Session) {
    && after.owner == before.owner && after.collection == before.collection && |after.items| == |before.items|
    && (before.status != Open ==> after.status != Open)
    && (before.cancelling ==> after.cancelling)
    && forall i :: 0 <= i < |before.items| ==> Evolves(before.items[i], after.items[i])
  }

  lemma ActedIsSound(session: Session, i: nat, act: Act, free: bool, guard: Guard)
    requires SoundSession(session) && i < |session.items| && (free ==> session.items[i].writing == 0)
    ensures var after := Acted(session, i, act, free, guard);
            && SoundSession(after) && SessionEvolves(session, after)
            && Sum(after.items, Claim) <= Sum(session.items, Claim)
            && (if free then Sum(after.items, InFlight) <= Sum(session.items, InFlight) + MAX_CHUNK
                else Sum(after.items, InFlight) <= Sum(session.items, InFlight))
  {
    var item := session.items[i];
    var changed := Change(item, act, free, guard);
    ChangeIsSound(item, act, free, guard);
    SumUpdate(session.items, i, changed, Claim);
    SumUpdate(session.items, i, changed, InFlight);
    ActedStatus(session, i, act, free, guard);
    ActedEnds(session, i, act, free, guard);
    hide Change, Restatus;
  }

  lemma ActedStatus(session: Session, i: nat, act: Act, free: bool, guard: Guard)
    requires SoundSession(session) && i < |session.items| && (free ==> session.items[i].writing == 0)
    ensures var after := Acted(session, i, act, free, guard);
            && (after.status == Open <==> Unfinished(after.items))
            && (session.status != Open ==> after.status != Open)
  {
    var after := Acted(session, i, act, free, guard);
    ChangeIsSound(session.items[i], act, free, guard);
    if !(act.Finish? && session.items[i].checked) && !act.Fail? {
      assert Active(after.items[i]) == Active(session.items[i]);
      if Unfinished(session.items) {
        var k :| 0 <= k < |session.items| && Active(session.items[k]);
        assert Active(after.items[k]);
      }
    }
    if Unfinished(after.items) {
      var k :| 0 <= k < |after.items| && Active(after.items[k]);
      assert Active(session.items[k]);
    }
  }

  lemma ActedEnds(session: Session, i: nat, act: Act, free: bool, guard: Guard)
    requires SoundSession(session) && i < |session.items| && (free ==> session.items[i].writing == 0)
    ensures var after := Acted(session, i, act, free, guard);
            && (after.status == Complete ==> forall k :: 0 <= k < |after.items| ==> after.items[k].phase == Queued)
            && (after.status == Released ==> forall k :: 0 <= k < |after.items| ==> after.items[k].phase != Failed)
  {
    var after := Acted(session, i, act, free, guard);
    ChangeIsSound(session.items[i], act, free, guard);
    if after.status == Complete {
      forall k | 0 <= k < |after.items| ensures after.items[k].phase == Queued {
        assert !Active(after.items[k]);
        if act.Finish? && session.items[i].checked {
          assert !Lost(after.items);
        }
      }
    }
  }

  lemma CancelledItems(items: seq<Item>)
    requires forall i :: 0 <= i < |items| ==> Sound(items[i])
    ensures forall i :: 0 <= i < |items| ==> Sound(CancelItems(items)[i]) && Evolves(items[i], CancelItems(items)[i])
    ensures forall i :: 0 <= i < |items| ==> CancelItems(items)[i].phase in {Queued, Cancelled}
    ensures Sum(CancelItems(items), Claim) <= Sum(items, Claim) && Sum(CancelItems(items), InFlight) <= Sum(items, InFlight)
  {
    forall i | 0 <= i < |items|
      ensures var after := CancelItem(items[i]);
              Sound(after) && Evolves(items[i], after) && after.phase in {Queued, Cancelled}
              && Claim(after) <= Claim(items[i]) && InFlight(after) <= InFlight(items[i])
    {
      CancelIsSound(items[i]);
    }
    hide CancelItem, Sound, Evolves, Claim, InFlight;
    SumLe(CancelItems(items), items, Claim, Claim);
    SumLe(CancelItems(items), items, InFlight, InFlight);
  }

  lemma CancelledIsSound(session: Session)
    requires SoundSession(session)
    ensures var after := CancelSession(session);
            && SoundSession(after) && SessionEvolves(session, after)
            && Sum(after.items, Claim) <= Sum(session.items, Claim)
            && Sum(after.items, InFlight) <= Sum(session.items, InFlight)
  {
    CancelledItems(session.items);
    forall i | 0 <= i < |session.items| ensures Evolves(session.items[i], session.items[i]) {}
    hide Sound, Evolves, CancelItems;
  }

  /** What any later state keeps: no session, file or collection is ever taken back. */
  ghost predicate Later(l: Ledger, after: Ledger) {
    && after.quota == l.quota && after.receipt == l.receipt && l.collections <= after.collections
    && |l.sessions| <= |after.sessions|
    && forall s :: 0 <= s < |l.sessions| ==> SessionEvolves(l.sessions[s], after.sessions[s])
  }

  lemma {:induction false} SumOfNew(entries: seq<Entry>)
    requires forall i :: 0 <= i < |entries| ==> entries[i].size > 0
    ensures Sum(NewItems(entries), Claim) == Requested(entries) == Sum(NewItems(entries), Reserved)
    ensures Sum(NewItems(entries), Disk) == Sum(NewItems(entries), InFlight) == 0
  {
    if entries != [] {
      SumOfNew(entries[1..]);
      assert NewItems(entries)[1..] == NewItems(entries[1..]);
    }
  }

  lemma {:induction false} RequestedAppend(left: seq<Entry>, right: seq<Entry>)
    ensures Requested(left + right) == Requested(left) + Requested(right)
  {
    if left == [] {
      assert left + right == right;
    } else {
      RequestedAppend(left[1..], right);
      assert (left + right)[1..] == left[1..] + right;
    }
  }

  lemma NewSessionIsSound(owner: nat, collection: nat, entries: seq<Entry>)
    requires entries != [] && forall i :: 0 <= i < |entries| ==> entries[i].size > 0
    ensures SoundSession(Session(owner, collection, Open, false, NewItems(entries)))
  {
    assert Active(NewItems(entries)[0]);
  }

  lemma AppendSession(l: Ledger, session: Session, collections: seq<nat>)
    requires SoundLedger(l) && SoundSession(session) && Sum(session.items, InFlight) == 0
    requires session.collection < |collections| && l.collections <= collections
    ensures var after := l.(sessions := l.sessions + [session], collections := collections);
            SoundLedger(after) && Later(l, after) && Footprint(after) == Footprint(l) + Sum(session.items, Claim)
  {
    TotalAppend(l.sessions, session, Claim);
    TotalAppend(l.sessions, session, InFlight);
    hide SoundSession;
    forall s | 0 <= s < |l.sessions| ensures SessionEvolves(l.sessions[s], (l.sessions + [session])[s]) {
    }
  }

  lemma CreateIsSound(l: Ledger, request: Request, seen: nat)
    requires SoundLedger(l)
    ensures var after := Create(l, request, seen);
            && SoundLedger(after) && Later(l, after)
            && (after == l
                || (WithinQuota(l, request.entries, seen) && Footprint(after) == Footprint(l) + Requested(request.entries)))
  {
    if Answer(l, request, seen) == Some(|l.sessions|) {
      var session := Session(request.actor, Joined(l, request.collection), Open, false, NewItems(request.entries));
      NewSessionIsSound(request.actor, Joined(l, request.collection), request.entries);
      SumOfNew(request.entries);
      AppendSession(l, session, if request.collection.Some? then l.collections else l.collections + [request.actor]);
    } else {
      SameLedger(l);
    }
  }

  lemma SameLedger(l: Ledger)
    ensures Later(l, l)
  {
  }

  lemma LaterIsTransitive(a: Ledger, b: Ledger, c: Ledger)
    requires Later(a, b) && Later(b, c)
    ensures Later(a, c)
  {
  }

  /** Replacing one session by a sound later form of itself keeps the ledger sound. */
  lemma ReplaceSession(l: Ledger, s: nat, session: Session)
    requires SoundLedger(l) && s < |l.sessions| && SoundSession(session) && SessionEvolves(l.sessions[s], session)
    requires Sum(session.items, Claim) <= Sum(l.sessions[s].items, Claim)
    requires Sum(session.items, InFlight) <= Sum(l.sessions[s].items, InFlight)
          || (Unlocked(l) && Sum(session.items, InFlight) <= Sum(l.sessions[s].items, InFlight) + MAX_CHUNK)
    ensures var after := l.(sessions := l.sessions[s := session]);
            SoundLedger(after) && Later(l, after) && Footprint(after) <= Footprint(l)
  {
    TotalUpdate(l.sessions, s, session, Claim);
    TotalUpdate(l.sessions, s, session, InFlight);
    hide SoundSession;
    forall t | 0 <= t < |l.sessions| ensures SessionEvolves(l.sessions[t], l.sessions[s := session][t]) {
    }
  }

  /** What a step that opens no session leaves of the whole. */
  ghost predicate Keeps(l: Ledger, after: Ledger) {
    SoundLedger(after) && Later(l, after) && Footprint(after) <= Footprint(l) && |after.sessions| == |l.sessions|
  }

  lemma ActIsReplacement(l: Ledger, s: nat, i: nat, act: Act)
    requires At(l, s, i)
    ensures Unlocked(l) ==> l.sessions[s].items[i].writing == 0
    ensures Apply(l, On(s, i, act)) == l.(sessions := l.sessions[s := Acted(l.sessions[s], i, act, Unlocked(l), l.guard)])
  {
    TotalAtLeast(l.sessions, s, i, InFlight);
    hide Acted, Total;
  }

  lemma ActIsSound(l: Ledger, s: nat, i: nat, act: Act)
    requires SoundLedger(l) && At(l, s, i)
    ensures Keeps(l, Apply(l, On(s, i, act)))
  {
    hide SoundSession, SessionEvolves, Acted, Total, Sum, Claim, InFlight, Apply, Unlocked;
    ActIsReplacement(l, s, i, act);
    ActedIsSound(l.sessions[s], i, act, Unlocked(l), l.guard);
    ReplaceSession(l, s, Acted(l.sessions[s], i, act, Unlocked(l), l.guard));
  }

  lemma AllowStepIsSound(l: Ledger, s: nat)
    requires SoundLedger(l) && s < |l.sessions|
    ensures Keeps(l, Apply(l, Allow(s)))
  {
    var session := l.sessions[s];
    assert SoundSession(session);
    assert SoundSession(AllowCancel(session));
    assert SessionEvolves(session, AllowCancel(session));
    hide SoundSession;
    ReplaceSession(l, s, AllowCancel(session));
  }

  lemma CancelStepIsSound(l: Ledger, s: nat)
    requires SoundLedger(l) && s < |l.sessions|
    ensures Keeps(l, Apply(l, Cancel(s)))
  {
    CancelledIsSound(l.sessions[s]);
    ReplaceSession(l, s, CancelSession(l.sessions[s]));
  }

  // ---- changes of all items at once -----------------------------------------------------------

  lemma {:induction false} SumSame(before: seq<Item>, after: seq<Item>, f: Item -> nat)
    requires |before| == |after| && forall i :: 0 <= i < |before| ==> f(before[i]) == f(after[i])
    ensures Sum(before, f) == Sum(after, f)
  {
    if before != [] {
      SumSame(before[1..], after[1..], f);
    }
  }

  lemma {:induction false} TotalSame(before: seq<Session>, after: seq<Session>, f: Item -> nat)
    requires |before| == |after|
    requires forall s :: 0 <= s < |before| ==> |before[s].items| == |after[s].items|
    requires forall s, i :: 0 <= s < |before| && 0 <= i < |before[s].items| ==> f(before[s].items[i]) == f(after[s].items[i])
    ensures Total(before, f) == Total(after, f)
  {
    if before != [] {
      SumSame(before[0].items, after[0].items, f);
      TotalSame(before[1..], after[1..], f);
    }
  }

  /** Only what the guard has seen, or which receipt row an item has, is different. */
  predicate Alike(before: Item, after: Item) {
    && after == before.(look := after.look, row := after.row)
    && (before.row.Some? ==> after.row == before.row)
  }

  ghost predicate AlikeSession(before: Session, after: Session) {
    && after == before.(items := after.items) && |after.items| == |before.items|
    && forall i :: 0 <= i < |before.items| ==> Alike(before.items[i], after.items[i])
  }

  lemma AlikeIsSound(before: Session, after: Session)
    requires SoundSession(before) && AlikeSession(before, after)
    ensures SoundSession(after) && SessionEvolves(before, after)
  {
    assert forall i :: 0 <= i < |before.items| ==> Alike(before.items[i], after.items[i]);
    if Unfinished(before.items) {
      var k :| 0 <= k < |before.items| && Active(before.items[k]);
      assert Active(after.items[k]);
    }
  }

  lemma AlikeKeeps(l: Ledger, after: Ledger)
    requires SoundLedger(l) && |after.sessions| == |l.sessions|
    requires after.quota == l.quota && after.receipt == l.receipt && after.collections == l.collections
    requires forall s :: 0 <= s < |l.sessions| ==> AlikeSession(l.sessions[s], after.sessions[s])
    ensures Keeps(l, after)
    ensures Used(after) == Used(l) && PendingBytes(after) == PendingBytes(l)
  {
    forall s, i | 0 <= s < |l.sessions| && 0 <= i < |l.sessions[s].items|
      ensures Alike(l.sessions[s].items[i], after.sessions[s].items[i])
    {
      assert AlikeSession(l.sessions[s], after.sessions[s]);
    }
    TotalSame(l.sessions, after.sessions, Claim);
    TotalSame(l.sessions, after.sessions, InFlight);
    TotalSame(l.sessions, after.sessions, Disk);
    TotalSame(l.sessions, after.sessions, Reserved);
    hide Total, Alike;
    forall s | 0 <= s < |l.sessions|
      ensures SoundSession(after.sessions[s]) && SessionEvolves(l.sessions[s], after.sessions[s])
    {
      AlikeIsSound(l.sessions[s], after.sessions[s]);
    }
  }

  lemma MapKeeps(l: Ledger, g: Item -> Item, guard: Guard)
    requires SoundLedger(l) && forall item: Item :: Alike(item, g(item))
    ensures Keeps(l, l.(sessions := MapAll(l.sessions, g), guard := guard))
    ensures Used(l.(sessions := MapAll(l.sessions, g), guard := guard)) == Used(l)
    ensures PendingBytes(l.(sessions := MapAll(l.sessions, g), guard := guard)) == PendingBytes(l)
  {
    AlikeKeeps(l, l.(sessions := MapAll(l.sessions, g), guard := guard));
  }

  lemma AdoptKeeps(l: Ledger, s: nat, rows: map<string, nat>)
    requires SoundLedger(l) && s < |l.sessions|
    ensures Keeps(l, Adopted(l, s, rows))
  {
    AlikeKeeps(l, Adopted(l, s, rows));
  }

  lemma GuardKeeps(l: Ledger, guard: Guard)
    requires SoundLedger(l)
    ensures Keeps(l, l.(guard := guard))
  {
    SameLedger(l);
  }

  /** A step that opens no session keeps every item sound and never raises the footprint. */
  lemma StepIsSound(l: Ledger, step: Step)
    requires SoundLedger(l) && !step.Insert?
    ensures Keeps(l, Apply(l, step))
  {
    GuardKeeps(l, l.guard);
    hide Keeps;
    match step
    case Enter(request) => if l.guard.Closed? { MapKeeps(l, Unlook, Counting(request)); }
    case Tally =>
      if l.guard.Counting? {
        MapKeeps(l, LookReserved, Summed(l.guard.request, Total(l.sessions, Counted), PendingBytes(l)));
      }
    case Leave => GuardKeeps(l, Closed);
    case On(s, i, act) => if At(l, s, i) { ActIsSound(l, s, i, act); }
    case Allow(s) => if s < |l.sessions| { AllowStepIsSound(l, s); }
    case Cancel(s) => if s < |l.sessions| { CancelStepIsSound(l, s); }
    case Adopt(s, actor, rows) => if s < |l.sessions| { AdoptKeeps(l, s, rows); }
  }

  lemma InsertIsSound(l: Ledger)
    requires SoundLedger(l)
    ensures var after := Apply(l, Insert);
            && SoundLedger(after) && Later(l, after)
            && (Footprint(after) <= Footprint(l)
                || (l.guard.Summed? && l.guard.used + l.guard.reserved + Footprint(after) <= l.quota + Footprint(l)))
  {
    SameLedger(l);
    if l.guard.Summed? {
      CreateIsSound(l, l.guard.request, l.guard.used + l.guard.reserved);
    }
  }

  /** Every step, and so every run, keeps the ledger sound and takes nothing back. */
  lemma {:induction false} RunIsSound(l: Ledger, steps: seq<Step>)
    requires SoundLedger(l)
    ensures SoundLedger(Run(l, steps)) && Later(l, Run(l, steps))
    decreases |steps|
  {
    SameLedger(l);
    if steps != [] {
      InsertIsSound(l);
      if !steps[0].Insert? {
        StepIsSound(l, steps[0]);
      }
      RunIsSound(Apply(l, steps[0]), steps[1..]);
      LaterIsTransitive(l, Apply(l, steps[0]), Run(l, steps));
    }
  }

  // ---- what one operation moves ---------------------------------------------------------------

  /** An item's step changes every byte count by that item's own difference. */
  lemma ItemMoves(l: Ledger, s: nat, i: nat, act: Act)
    requires At(l, s, i)
    ensures var after := Apply(l, On(s, i, act));
            var before, now := l.sessions[s].items[i], Change(l.sessions[s].items[i], act, Unlocked(l), l.guard);
            && At(after, s, i) && after.sessions[s].items[i] == now && after.guard == l.guard
            && Used(after) + Disk(before) == Used(l) + Disk(now)
            && PendingBytes(after) + Reserved(before) == PendingBytes(l) + Reserved(now)
            && Total(after.sessions, InFlight) + before.writing == Total(l.sessions, InFlight) + now.writing
  {
    var before := l.sessions[s].items;
    var now := Change(before[i], act, Unlocked(l), l.guard);
    var session := Acted(l.sessions[s], i, act, Unlocked(l), l.guard);
    SumUpdate(before, i, now, Disk);
    SumUpdate(before, i, now, Reserved);
    SumUpdate(before, i, now, InFlight);
    TotalUpdate(l.sessions, s, session, Disk);
    TotalUpdate(l.sessions, s, session, Reserved);
    TotalUpdate(l.sessions, s, session, InFlight);
  }

  /** One request after another on one item, when nobody else holds the source lock. */
  function ItemRun(item: Item, acts: seq<Act>, guard: Guard): Item
    decreases |acts|
  {
    if acts == [] then item else ItemRun(Change(item, acts[0], item.writing == 0, guard), acts[1..], guard)
  }

  function OnAll(s: nat, i: nat, acts: seq<Act>): (steps: seq<Step>)
    ensures |steps| == |acts|
  {
    if acts == [] then [] else [On(s, i, acts[0])] + OnAll(s, i, acts[1..])
  }

  lemma {:induction false} ItemRunMoves(l: Ledger, s: nat, i: nat, acts: seq<Act>)
    requires At(l, s, i) && Total(l.sessions, InFlight) == l.sessions[s].items[i].writing
    ensures var after := Run(l, OnAll(s, i, acts));
            var before, now := l.sessions[s].items[i], ItemRun(l.sessions[s].items[i], acts, l.guard);
            && At(after, s, i) && after.sessions[s].items[i] == now
            && Used(after) + Disk(before) == Used(l) + Disk(now)
            && PendingBytes(after) + Reserved(before) == PendingBytes(l) + Reserved(now)
            && Total(after.sessions, InFlight) == now.writing
    decreases |acts|
  {
    if acts != [] {
      ItemMoves(l, s, i, acts[0]);
      var next := Apply(l, On(s, i, acts[0]));
      hide Apply, Change, Used, PendingBytes, Total;
      ItemRunMoves(next, s, i, acts[1..]);
      assert OnAll(s, i, acts)[1..] == OnAll(s, i, acts[1..]);
    }
  }

  lemma FourActs(item: Item, a: Act, b: Act, c: Act, d: Act, guard: Guard)
    ensures var one := Change(item, a, item.writing == 0, guard);
            var two := Change(one, b, one.writing == 0, guard);
            var three := Change(two, c, two.writing == 0, guard);
            ItemRun(item, [a, b, c, d], guard) == Change(three, d, three.writing == 0, guard)
  {
    assert [a, b, c, d][1..] == [b, c, d] && [b, c, d][1..] == [c, d] && [c, d][1..] == [d] && [d][1..] == [];
    var one := Change(item, a, item.writing == 0, guard);
    var two := Change(one, b, one.writing == 0, guard);
    var three := Change(two, c, two.writing == 0, guard);
    hide Change;
    var four := Change(three, d, three.writing == 0, guard);
    assert ItemRun(four, [], guard) == four;
    assert ItemRun(three, [d], guard) == four;
    assert ItemRun(two, [c, d], guard) == four;
    assert ItemRun(one, [b, c, d], guard) == four;
  }

  /** The acts of one chunk that nothing overtakes. */
  function Chunk(count: nat): seq<Act> { [Begin(count), Pass, Write(count), Record] }

  lemma ChunkedActs(item: Item, count: nat) returns (begun: Item, passed: Item, written: Item)
    requires Sound(item) && item.phase in {Pending, Uploading} && item.staged == item.received && item.writing == 0
    requires 0 < count <= MAX_CHUNK && item.staged + count <= item.size
    ensures begun == Change(item, Begin(count), true, Closed) && begun.writing == count
    ensures passed == Change(begun, Pass, false, Closed) && passed.writing == count
    ensures written == Change(passed, Write(count), false, Closed)
    ensures written == item.(staged := item.staged + count, passed := true, look := written.look)
  {
    begun := item.(writing := count, passed := false);
    passed := begun.(passed := true);
    written := item.(staged := item.staged + count, passed := true,
                     look := item.look.(late := item.look.late + count, touched := true));
  }

  lemma RecordedItem(item: Item)
    requires Active(item) && item.received < item.staged <= item.size && item.writing == 0 && !item.linked
    ensures var after := Change(item, Record, true, Closed);
            && Disk(after) == item.staged && Reserved(after) == item.size - item.staged
            && after.received == item.staged && after.writing == 0
  {
    hide Moved;
  }

  lemma ChunkedItem(item: Item, count: nat)
    requires Sound(item) && item.phase in {Pending, Uploading} && item.staged == item.received && item.writing == 0 && !item.linked
    requires 0 < count <= MAX_CHUNK && item.staged + count <= item.size
    ensures var after := ItemRun(item, Chunk(count), Closed);
            && Disk(after) == Disk(item) + count && Reserved(after) + count == Reserved(item)
            && after.received == item.received + count && after.writing == 0
  {
    FourActs(item, Begin(count), Pass, Write(count), Record, Closed);
    var begun, passed, written := ChunkedActs(item, count);
    RecordedItem(written);
    hide ItemRun, Change;
  }

  /** Sending one chunk moves exactly its bytes from reserved to stored. */
  lemma ChunkMovesBytes(l: Ledger, s: nat, i: nat, count: nat)
    requires SoundLedger(l) && At(l, s, i) && Unlocked(l) && l.guard.Closed?
    requires var item := l.sessions[s].items[i];
             && item.phase in {Pending, Uploading} && item.staged == item.received
             && 0 < count <= MAX_CHUNK && item.staged + count <= item.size
    ensures var after := Run(l, OnAll(s, i, Chunk(count)));
            && Used(after) == Used(l) + count
            && PendingBytes(after) + count == PendingBytes(l)
            && Unlocked(after) && At(after, s, i)
            && after.sessions[s].items[i].received == l.sessions[s].items[i].received + count
  {
    assert SoundSession(l.sessions[s]);
    TotalAtLeast(l.sessions, s, i, InFlight);
    ItemRunMoves(l, s, i, Chunk(count));
    ChunkedItem(l.sessions[s].items[i], count);
  }

  /** A chunk that breaks off keeps what was written and gives the lock back; its offset can still be recorded. */
  lemma BrokenChunk(l: Ledger, s: nat, i: nat, count: nat, part: nat)
    requires SoundLedger(l) && At(l, s, i) && Unlocked(l) && l.guard.Closed?
    requires var item := l.sessions[s].items[i];
             && item.phase in {Pending, Uploading} && item.staged == item.received
             && 0 < part <= count <= MAX_CHUNK && item.staged + count <= item.size
    ensures var broken := Run(l, OnAll(s, i, [Begin(count), Pass, Write(part), Abandon]));
            var after := Apply(broken, On(s, i, Record));
            && Unlocked(broken) && Used(broken) == Used(l) + part && PendingBytes(broken) == PendingBytes(l)
            && Used(after) == Used(l) + part && PendingBytes(after) + part == PendingBytes(l)
            && At(after, s, i) && after.sessions[s].items[i].received == l.sessions[s].items[i].received + part
  {
    assert SoundSession(l.sessions[s]);
    TotalAtLeast(l.sessions, s, i, InFlight);
    var acts := [Begin(count), Pass, Write(part), Abandon];
    ItemRunMoves(l, s, i, acts);
    BrokenItem(l.sessions[s].items[i], count, part);
    var broken := Run(l, OnAll(s, i, acts));
    hide Run, ItemRun, Change, Apply, SoundLedger, SoundSession;
    RecordedItem(broken.sessions[s].items[i]);
    ItemMoves(broken, s, i, Record);
  }

  lemma BrokenItem(item: Item, count: nat, part: nat)
    requires Sound(item) && item.phase in {Pending, Uploading} && item.staged == item.received && item.writing == 0
    requires 0 < part <= count <= MAX_CHUNK && item.staged + count <= item.size
    ensures var after := ItemRun(item, [Begin(count), Pass, Write(part), Abandon], Closed);
            && Disk(after) == Disk(item) + part && Reserved(after) == Reserved(item) && after.writing == 0
            && Active(after) && after.received == item.received && after.staged == item.staged + part && !after.linked
            && after.size == item.size
  {
    FourActs(item, Begin(count), Pass, Write(part), Abandon, Closed);
    var begun, passed := item.(writing := count, passed := false), item.(writing := count, passed := true);
    var written := passed.(staged := item.staged + part, writing := count - part,
                           look := item.look.(late := item.look.late + part, touched := true));
    assert Change(item, Begin(count), true, Closed) == begun;
    assert Change(begun, Pass, false, Closed) == passed;
    assert Change(passed, Write(part), false, Closed) == written;
    assert Change(written, Abandon, written.writing == 0, Closed) == written.(writing := 0);
    hide ItemRun, Change;
  }

  /** A received file is linked whatever has become of its item: a link takes no room, a copy its size once more. */
  lemma LinkTakesRoom(l: Ledger, s: nat, i: nat, copied: bool)
    requires SoundLedger(l) && At(l, s, i) && Unlocked(l)
    requires !l.sessions[s].items[i].linked && l.sessions[s].items[i].staged == l.sessions[s].items[i].size
    ensures var after := Apply(l, On(s, i, Link(copied)));
            && At(after, s, i) && after.sessions[s].items[i].linked && PendingBytes(after) == PendingBytes(l)
            && Used(after) == Used(l) + (if copied then l.sessions[s].items[i].size else 0)
  {
    ItemMoves(l, s, i, Link(copied));
  }

  /** Discarding frees what is staged of an unlinked file, or the spare copy of a settled one, and no reservation. */
  lemma DiscardFrees(l: Ledger, s: nat, i: nat)
    requires SoundLedger(l) && At(l, s, i) && Unlocked(l)
    requires var item := l.sessions[s].items[i]; !item.linked || (!Active(item) && item.copied)
    ensures var after := Apply(l, On(s, i, Discard));
            && Used(after) + l.sessions[s].items[i].staged == Used(l) && PendingBytes(after) == PendingBytes(l)
            && At(after, s, i) && after.sessions[s].items[i].staged == 0
  {
    ItemMoves(l, s, i, Discard);
  }

  /**
    A failure ends an item that was neither queued nor cancelled: what it still reserved is free,
    what it has on disk stays, and its session is partial as soon as nothing else is unfinished.
   */
  lemma FailureReleases(l: Ledger, s: nat, i: nat)
    requires SoundLedger(l) && At(l, s, i) && l.sessions[s].items[i].phase !in {Queued, Cancelled}
    ensures var after := Apply(l, On(s, i, Fail));
            && Used(after) == Used(l) && PendingBytes(after) + Reserved(l.sessions[s].items[i]) == PendingBytes(l)
            && At(after, s, i) && after.sessions[s].items[i].phase == Failed
            && (after.sessions[s].status == Partial <==>
                 forall k :: 0 <= k < |l.sessions[s].items| && k != i ==> !Active(l.sessions[s].items[k]))
            && (after.sessions[s].status == Open <==> after.sessions[s].status != Partial)
  {
    ItemMoves(l, s, i, Fail);
    var before, items := l.sessions[s].items, Apply(l, On(s, i, Fail)).sessions[s].items;
    assert forall k :: 0 <= k < |before| && k != i ==> items[k] == before[k];
    if k :| 0 <= k < |before| && k != i && Active(before[k]) {
      assert Active(items[k]);
    }
  }

  /** The acts of a finalization that nothing overtakes. */
  function Finalize(copied: bool): seq<Act> { [Link(copied), Check, Finish, Discard] }

  lemma FinalizedItem(item: Item, copied: bool, guard: Guard)
    requires Sound(item) && item.phase == Uploaded && !item.linked && item.staged == item.size && item.writing == 0
    ensures var after := ItemRun(item, Finalize(copied), guard);
            && Disk(after) == Disk(item) && Reserved(after) == Reserved(item)
            && after.phase == Queued && after.staged == 0
  {
    FourActs(item, Link(copied), Check, Finish, Discard, guard);
  }

  /** Finalizing a received item, by link or by copy, leaves both sums as they were. */
  lemma FinalizeKeepsBytes(l: Ledger, s: nat, i: nat, copied: bool)
    requires SoundLedger(l) && At(l, s, i) && Unlocked(l)
    requires l.sessions[s].items[i].phase == Uploaded && !l.sessions[s].items[i].linked
    requires l.sessions[s].items[i].staged == l.sessions[s].items[i].size
    ensures var after := Run(l, OnAll(s, i, Finalize(copied)));
            && Used(after) == Used(l) && PendingBytes(after) == PendingBytes(l)
            && At(after, s, i) && after.sessions[s].items[i].phase == Queued && after.sessions[s].items[i].staged == 0
  {
    assert SoundSession(l.sessions[s]);
    TotalAtLeast(l.sessions, s, i, InFlight);
    ItemRunMoves(l, s, i, Finalize(copied));
    FinalizedItem(l.sessions[s].items[i], copied, l.guard);
  }

  lemma AllowedIsSound(session: Session)
    requires SoundSession(session)
    ensures SoundSession(AllowCancel(session)) && AllowCancel(session).items == session.items
  {
  }

  /** Nothing is unfinished after a cancel that was allowed, and nothing on disk has changed. */
  lemma CancelEndsAll(session: Session)
    requires SoundSession(session)
    ensures var after := CancelSession(AllowCancel(session));
            && |after.items| == |session.items| && !Unfinished(after.items)
            && forall i :: 0 <= i < |after.items| ==> Disk(after.items[i]) == Disk(session.items[i])
  {
    hide Sound;
  }

  lemma CancelledSession(session: Session)
    requires SoundSession(session)
    ensures var after := CancelSession(AllowCancel(session));
            && SoundSession(after) && |after.items| == |session.items|
            && !Unfinished(after.items) && Sum(after.items, Reserved) == 0 && Sum(after.items, Disk) == Sum(session.items, Disk)
  {
    AllowedIsSound(session);
    CancelledIsSound(AllowCancel(session));
    CancelEndsAll(session);
    var after := CancelSession(AllowCancel(session));
    hide SoundSession, CancelSession, AllowCancel, Unfinished, Disk;
    SumSame(after.items, session.items, Disk);
    NothingReserved(after.items);
  }

  /** Cancelling gives back exactly what the session still reserved, and touches nothing else. */
  lemma CancelReleases(l: Ledger, s: nat)
    requires SoundLedger(l) && s < |l.sessions|
    ensures var after := CancelNow(l, s);
            && PendingBytes(after) + Sum(l.sessions[s].items, Reserved) == PendingBytes(l)
            && Used(after) == Used(l)
            && Sum(after.sessions[s].items, Reserved) == 0
            && forall t :: 0 <= t < |l.sessions| && t != s ==> after.sessions[t] == l.sessions[t]
  {
    var cancelled := CancelSession(AllowCancel(l.sessions[s]));
    CancelledSession(l.sessions[s]);
    assert CancelNow(l, s).sessions == l.sessions[s := cancelled];
    hide CancelSession, AllowCancel, CancelNow;
    TotalUpdate(l.sessions, s, cancelled, Reserved);
    TotalUpdate(l.sessions, s, cancelled, Disk);
  }

  lemma {:induction false} NothingReserved(items: seq<Item>)
    requires !Unfinished(items)
    ensures Sum(items, Reserved) == 0
  {
    if items != [] {
      assert !Active(items[0]);
      assert forall i :: 0 < i < |items| ==> items[i] == items[1..][i - 1];
      NothingReserved(items[1..]);
    }
  }

  /** The item that settles a session decides how it ends: complete if all were queued, else partial. */
  lemma LastItemDecides(session: Session, i: nat, free: bool, guard: Guard)
    requires SoundSession(session) && i < |session.items| && session.items[i].checked
    requires forall k :: 0 <= k < |session.items| && k != i ==> !Active(session.items[k])
    ensures var after := Acted(session, i, Finish, free, guard);
            if forall k :: 0 <= k < |after.items| ==> after.items[k].phase == Queued
            then after.status == Complete else after.status == Partial
  {
    var after := Acted(session, i, Finish, free, guard);
    if !(forall k :: 0 <= k < |after.items| ==> after.items[k].phase == Queued) {
      var k :| 0 <= k < |after.items| && after.items[k].phase != Queued;
      assert after.items[k].phase in {Failed, Cancelled};
    }
  }

  /**
    When a complete or cancelled session changes its status after all: a late failure changes
    either, a late finish only a cancelled one, and a cancel only a complete one, each if its check
    came in time.
   */
  predicate Overtakes(l: Ledger, s: nat, step: Step)
    requires s < |l.sessions|
  {
    var session := l.sessions[s];
    || (step.On? && step.session == s && At(l, s, step.item) && step.act.Fail?)
    || (step.On? && step.session == s && At(l, s, step.item) && step.act.Finish?
        && session.items[step.item].checked && session.status == Released)
    || (step.Cancel? && step.session == s && session.cancelling && session.status == Complete)
  }

  /** Nothing else changes a settled status, over any one step. */
  lemma SettledExactly(l: Ledger, s: nat, step: Step)
    requires SoundLedger(l) && s < |l.sessions| && l.sessions[s].status in {Complete, Released}
    ensures Apply(l, step).sessions[s].status == l.sessions[s].status <==> !Overtakes(l, s, step)
  {
    assert SoundSession(l.sessions[s]);
  }
}
