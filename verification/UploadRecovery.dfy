/**
  The browser's side of a resumable upload: one saved checkpoint, requests whose replies may be
  lost or wrong, reloads anywhere, other people at the same browser, and a matter that others keep
  changing. A request and its reply are one event, placed where the server acts: nothing that the
  browser does comes between.
 */
module UploadRecovery {
  import opened Wrappers
  import opened UploadLedger
  import opened UploadAdmission
  import Planner = UploadPlanner
  import Quota = UploadQuota

  type Plan = seq<seq<Planner.File>>

  /**
    What is stored about the batch in hand. `binding` names the reviewed selection and is missing
    from checkpoints of the older format; the plan's fingerprint is modelled by the plan itself.
   */
  datatype Checkpoint = Checkpoint(plan: Plan, binding: Option<nat>, session: nat, collection: nat, index: nat)

  /** `seen` are the items that the browser has been told are queued, failed or cancelled. */
  datatype Stage =
    | Checking
    | Releasing
    | Submitting(index: nat, collection: Option<nat>, resume: Option<nat>)
    | Sending(index: nat, session: nat, seen: set<nat>)

  /** A confirmed upload: `origin` is the checkpoint it resumes, `retried` that it restarted once. */
  datatype Job =
    | NoJob
    | Job(plan: Plan, binding: Option<nat>, rows: map<string, nat>, origin: Option<Checkpoint>, retried: bool, stage: Stage)

  datatype Client = Client(stored: Option<Checkpoint>, active: Option<nat>, job: Job)

  /**
    The matter, the browser and who is signed in, a member of the matter or not. The rest is
    history: every session that the checkpoint ever named, those it let go without knowing that
    they were over, and those that somebody else's request cancelled.
   */
  datatype System = System(ledger: Ledger, principal: nat, member: bool, client: Client,
                           named: set<nat>, dropped: set<nat>, cancelled: set<nat>)

  /** A reply as received; no status means that its body made no sense. */
  datatype Body = Body(code: nat, session: nat, collection: nat, status: Option<Status>)

  /** How far a submission got: not to the server, not back from it, or all the way. */
  datatype Fate = Undelivered | Unanswered | Answered

  /** `FinalizeRefused`: an item that has all its bytes is not queued after all, and the browser reads the whole session again. */
  datatype Event =
    | Server(step: Step)
    | SignIn(principal: nat, member: bool)
    | Reload
    | Confirm(plan: Plan, binding: Option<nat>, rows: map<string, nat>)
    | StatusReply(body: Option<Body>)
    | CancelReply(executed: bool, body: Option<Body>)
    | SubmitReply(fate: Fate)
    | FinalizeRefused(item: nat)
    | BatchDone
    | Pause
    | UserCancel(executed: bool, succeeded: bool)

  function FirstVisit(quota: nat, receipt: seq<Row>): System {
    System(Start(quota, receipt), 0, false, Client(None, None, NoJob), {}, {}, {})
  }

  // ---- the server's answers -------------------------------------------------------------------

  /** The server shows a session only to the member who opened it; to anyone else it is missing. */
  predicate Serves(sys: System, s: nat) {
    sys.member && s < |sys.ledger.sessions| && sys.ledger.sessions[s].owner == sys.principal
  }

  datatype Served = Accepted(session: nat) | Mismatch | Refused

  function EntryOf(file: Planner.File, rows: map<string, nat>): Entry {
    Entry(file.path, file.size, if file.path in rows then Some(rows[file.path]) else None)
  }

  function EntriesOf(files: seq<Planner.File>, rows: map<string, nat>): (entries: seq<Entry>)
    ensures |entries| == |files|
    ensures forall i :: 0 <= i < |files| ==> entries[i] == EntryOf(files[i], rows)
  {
    seq(|files|, i requires 0 <= i < |files| => EntryOf(files[i], rows))
  }

  predicate SameManifest(items: seq<Item>, files: seq<Planner.File>) {
    && |items| == |files|
    && forall i :: 0 <= i < |items| ==> items[i].path == files[i].path && items[i].size == files[i].size
  }

  /** A submission: the files and rows of one batch, the collection to join and the session to resume. */
  datatype Submission = Submission(files: seq<Planner.File>, rows: map<string, nat>, collection: Option<nat>, resume: Option<nat>)

  function Entries(sub: Submission): seq<Entry> { EntriesOf(sub.files, sub.rows) }

  function RequestOf(actor: nat, sub: Submission): Request { Request(actor, Entries(sub), sub.collection) }

  /** A saved session may be resumed only by who opened it, and for exactly its own files and collection. */
  predicate Resumable(l: Ledger, actor: nat, session: nat, sub: Submission) {
    && session < |l.sessions| && l.sessions[session].owner == actor && l.sessions[session].status != Released
    && SameManifest(l.sessions[session].items, sub.files)
    && (sub.collection.Some? ==> l.sessions[session].collection == sub.collection.value)
  }

  /** A session without rows is resumed under a receipt only by taking over its whole collection. */
  predicate TakesOver(l: Ledger, actor: nat, session: nat, sub: Submission) {
    FromReceipt(Entries(sub)) ==> Adoptable(l, session, actor, sub.rows)
  }

  /** The guard has counted for this request and is about to let it in or not. */
  predicate AtGuard(l: Ledger, request: Request) { l.guard.Summed? && l.guard.request == request }

  predicate Opens(l: Ledger, actor: nat, sub: Submission) {
    CheckReceipt(l, actor, Entries(sub)).Fresh? && sub.resume.None?
  }

  function Serve(l: Ledger, actor: nat, member: bool, sub: Submission): Served {
    var check := CheckReceipt(l, actor, Entries(sub));
    if !member || check.Invalid? then Refused
    else if check.Existing? then
      if (sub.resume.Some? && sub.resume.value != check.session)
         || (sub.collection.Some? && sub.collection.value != l.sessions[check.session].collection)
      then Mismatch else Accepted(check.session)
    else if sub.resume.Some? then
      if !Resumable(l, actor, sub.resume.value, sub) then Mismatch
      else if TakesOver(l, actor, sub.resume.value, sub) then Accepted(sub.resume.value) else Refused
    else if !l.guard.Summed? then Refused
    else
      var answer := Answer(l, RequestOf(actor, sub), l.guard.used + l.guard.reserved);
      if answer.Some? then Accepted(answer.value) else Refused
  }

  /** What the server does to answer a submission. */
  function ServeSteps(l: Ledger, actor: nat, member: bool, sub: Submission): seq<Step> {
    if !member || !CheckReceipt(l, actor, Entries(sub)).Fresh? then []
    else if sub.resume.None? then [Insert]
    else if FromReceipt(Entries(sub)) && Resumable(l, actor, sub.resume.value, sub) then [Adopt(sub.resume.value, actor, sub.rows)]
    else []
  }

  /**
    A reply that names the checkpoint's session tells the truth about it, and one that calls it
    missing too; any other may say anything.
   */
  predicate HonestStatus(sys: System, cp: Checkpoint, body: Option<Body>) {
    body.Some? ==>
      && (body.value.code == 404 ==> !Serves(sys, cp.session))
      && (Names(body.value, cp) ==> Serves(sys, cp.session) && body.value.status.value == sys.ledger.sessions[cp.session].status)
  }

  // ---- the browser ----------------------------------------------------------------------------

  /** A selection cut into batches, none empty, in which no path is selected twice. */
  ghost predicate Selectable(plan: Plan) {
    && plan != [] && (forall b :: 0 <= b < |plan| ==> plan[b] != [])
    && forall a, i, b, j :: 0 <= a < |plan| && 0 <= i < |plan[a]| && 0 <= b < |plan| && 0 <= j < |plan[b]| && (a, i) != (b, j) ==>
         plan[a][i].path != plan[b][j].path
  }

  /** The checkpoint belongs to this plan; the newer format also to this reviewed selection. */
  predicate Fits(cp: Checkpoint, plan: Plan, binding: Option<nat>) {
    cp.plan == plan && cp.index < |plan| && (cp.binding.Some? ==> cp.binding == binding)
  }

  predicate Names(body: Body, cp: Checkpoint) {
    body.code == 200 && body.session == cp.session && body.collection == cp.collection && body.status.Some?
  }

  function Afresh(client: Client): Client
    requires client.job.Job?
  {
    Client(None, None, client.job.(origin := None, stage := Submitting(0, None, None)))
  }

  function Stop(client: Client): Client { client.(job := NoJob) }

  function Confirmed(client: Client, plan: Plan, binding: Option<nat>, rows: map<string, nat>): Client {
    var job := Job(plan, binding, rows, None, false, Submitting(0, None, None));
    match client.stored
    case None => client.(job := job)
    case Some(cp) =>
      if Fits(cp, plan, binding) then
        client.(job := job.(origin := client.stored, stage := Submitting(cp.index, Some(cp.collection), Some(cp.session))))
      else client.(job := job.(stage := Checking))
  }

  function StatusSeen(client: Client, cp: Checkpoint, body: Option<Body>): Client
    requires client.job.Job?
  {
    if body.None? then Stop(client)
    else if body.value.code == 404 then Afresh(client)
    else if !Names(body.value, cp) then Stop(client)
    else if body.value.status.value != Open then Afresh(client)
    else client.(job := client.job.(stage := Releasing))
  }

  function CancelSeen(client: Client, cp: Checkpoint, body: Option<Body>): Client
    requires client.job.Job?
  {
    if body.Some? && Names(body.value, cp) && body.value.status.value == Released then Afresh(client) else Stop(client)
  }

  /** A checkpoint of the older format may be dropped once for a fresh start; no other ever is. */
  predicate MayRestart(job: Job)
    requires job.Job?
  {
    job.origin.Some? && job.origin.value.binding.None? && !job.retried
  }

  function Mismatched(client: Client): Client
    requires client.job.Job?
  {
    if MayRestart(client.job) then Afresh(client.(job := client.job.(retried := true))) else Stop(client)
  }

  function SettledItems(items: seq<Item>): set<nat> { set i: nat | i < |items| && !Active(items[i]) }

  function Taken(client: Client, s: nat, session: Session): Client
    requires client.job.Job? && client.job.stage.Submitting?
  {
    var job := client.job;
    Client(Some(Checkpoint(job.plan, job.binding, s, session.collection, job.stage.index)), Some(s),
           job.(stage := Sending(job.stage.index, s, SettledItems(session.items))))
  }

  /**
    The transfer of a batch ends when every item is settled and each either was reported so before
    its turn came or took all its bytes; a file refused half-way stops the upload instead.
   */
  predicate AllSent(items: seq<Item>, seen: set<nat>) {
    forall i :: 0 <= i < |items| ==> !Active(items[i]) && (i in seen || items[i].received == items[i].size)
  }

  function BatchSent(client: Client, session: Session): Client
    requires client.job.Job? && client.job.stage.Sending?
  {
    var job := client.job;
    var next := job.stage.index + 1;
    if next < |job.plan| then client.(job := job.(stage := Submitting(next, Some(session.collection), None)))
    else Client(if session.status in {Complete, Partial} then None else client.stored, client.active, NoJob)
  }

  // ---- events ---------------------------------------------------------------------------------

  predicate StageIs(client: Client, stage: Stage) { client.job.Job? && client.job.stage == stage }

  predicate Submits(client: Client) {
    client.job.Job? && client.job.stage.Submitting? && client.job.stage.index < |client.job.plan|
  }

  function SubmissionOf(client: Client): Submission
    requires Submits(client)
  {
    var job, stage := client.job, client.job.stage;
    Submission(job.plan[stage.index], job.rows, stage.collection, stage.resume)
  }

  /** The answer is known: either no new session is asked for, or the guard is through with this very request. */
  predicate Answerable(l: Ledger, actor: nat, member: bool, sub: Submission) {
    member && Opens(l, actor, sub) ==> AtGuard(l, RequestOf(actor, sub))
  }

  function Let(sys: System, s: Option<Checkpoint>): set<nat> { if s.Some? then sys.dropped + {s.value.session} else sys.dropped }

  ghost function Execute(sys: System, event: Event): System {
    var l, client := sys.ledger, sys.client;
    match event
    case Server(step) =>
      sys.(ledger := Apply(l, step), cancelled := if step.Cancel? then sys.cancelled + {step.session} else sys.cancelled)
    case SignIn(principal, member) => sys.(principal := principal, member := member)
    case Reload => sys.(client := Client(client.stored, None, NoJob))
    case Pause => sys.(client := Stop(client))
    case Confirm(plan, binding, rows) =>
      if client.job.NoJob? && Selectable(plan) then sys.(client := Confirmed(client, plan, binding, rows)) else sys
    case StatusReply(body) =>
      if StageIs(client, Checking) && client.stored.Some? && HonestStatus(sys, client.stored.value, body)
      then sys.(client := StatusSeen(client, client.stored.value, body),
                dropped := if body.Some? && body.value.code == 404 then Let(sys, client.stored) else sys.dropped)
      else sys
    case CancelReply(executed, body) =>
      if StageIs(client, Releasing) && client.stored.Some? then
        var after := OwnCancel(sys, client.stored.value.session, executed);
        if HonestStatus(after, client.stored.value, body)
        then after.(client := CancelSeen(client, client.stored.value, body)) else sys
      else sys
    case SubmitReply(fate) => if Submits(client) then Submitted(sys, fate) else sys
    case FinalizeRefused(item) =>
      if client.job.Job? && client.job.stage.Sending? && Serves(sys, client.job.stage.session)
         && Received(l, client.job.stage.session, item)
      then sys.(client := client.(job := client.job.(stage := client.job.stage.(
             seen := client.job.stage.seen + SettledItems(l.sessions[client.job.stage.session].items)))))
      else sys
    case BatchDone =>
      if client.job.Job? && client.job.stage.Sending? && Serves(sys, client.job.stage.session)
         && AllSent(l.sessions[client.job.stage.session].items, client.job.stage.seen)
      then sys.(client := BatchSent(client, l.sessions[client.job.stage.session])) else sys
    case UserCancel(executed, succeeded) =>
      if client.active.Some? then
        var after := OwnCancel(sys, client.active.value, executed);
        if succeeded && !(client.active.value < |after.ledger.sessions| && after.ledger.sessions[client.active.value].status == Released)
        then sys
        else after.(client := Client(if succeeded then None else client.stored, client.active, NoJob))
      else sys
  }

  /** All bytes of the item are recorded, so that the browser has tried to finalize it. */
  predicate Received(l: Ledger, s: nat, i: nat) {
    At(l, s, i) && l.sessions[s].items[i].received == l.sessions[s].items[i].size
  }

  /** The browser's own request to cancel, carried out for whoever is signed in. */
  function OwnCancel(sys: System, s: nat, executed: bool): System {
    if executed && Serves(sys, s) then sys.(ledger := CancelNow(sys.ledger, s)) else sys
  }

  function Submitted(sys: System, fate: Fate): System
    requires Submits(sys.client)
  {
    var sub := SubmissionOf(sys.client);
    if fate.Undelivered? then sys.(client := Stop(sys.client))
    else if !Answerable(sys.ledger, sys.principal, sys.member, sub) then sys
    else
      var served := Serve(sys.ledger, sys.principal, sys.member, sub);
      var after := Run(sys.ledger, ServeSteps(sys.ledger, sys.principal, sys.member, sub));
      if fate.Unanswered? || served.Refused? then sys.(ledger := after, client := Stop(sys.client))
      else if served.Mismatch? then
        sys.(ledger := after, client := Mismatched(sys.client),
             dropped := if MayRestart(sys.client.job) then Let(sys, sys.client.stored) else sys.dropped)
      else
        AcceptedExists(sys.ledger, sys.principal, sys.member, sub);
        sys.(ledger := after, client := Taken(sys.client, served.session, after.sessions[served.session]),
             named := sys.named + {served.session})
  }

  lemma AcceptedExists(l: Ledger, actor: nat, member: bool, sub: Submission)
    requires Answerable(l, actor, member, sub)
    ensures var served := Serve(l, actor, member, sub);
            served.Accepted? ==> served.session < |Run(l, ServeSteps(l, actor, member, sub)).sessions|
  {
    OneStep(l, ServeSteps(l, actor, member, sub));
  }

  lemma OneStep(l: Ledger, steps: seq<Step>)
    ensures steps == [] ==> Run(l, steps) == l
    ensures |steps| == 1 ==> Run(l, steps) == Apply(l, steps[0])
  {
    if |steps| == 1 {
      assert steps == [steps[0]];
      RunOne(l, steps[0]);
    }
  }

  ghost function Play(sys: System, events: seq<Event>): System
    decreases |events|
  {
    if events == [] then sys else Play(Execute(sys, events[0]), events[1..])
  }

  // ---- what every run keeps -------------------------------------------------------------------

  predicate Holding(session: Session, files: seq<Planner.File>, collection: nat) {
    session.collection == collection && SameManifest(session.items, files)
  }

  /** The session is not cancelled, unless somebody else cancelled it. */
  predicate Kept(sys: System, s: nat) {
    s < |sys.ledger.sessions| && (sys.ledger.sessions[s].status != Released || s in sys.cancelled)
  }

  predicate Over(sys: System, s: nat) { Kept(sys, s) && sys.ledger.sessions[s].status != Open }

  predicate DeliveredBy(sys: System, t: nat, files: seq<Planner.File>, collection: nat) {
    Over(sys, t) && Holding(sys.ledger.sessions[t], files, collection)
  }

  /** A session of the collection holds exactly these files and is complete or partial, or cancelled by somebody else. */
  ghost predicate Delivered(sys: System, files: seq<Planner.File>, collection: nat) {
    exists t: nat :: DeliveredBy(sys, t, files, collection)
  }

  ghost predicate Progress(sys: System, plan: Plan, index: nat, collection: nat) {
    forall j :: 0 <= j < index && j < |plan| ==> Delivered(sys, plan[j], collection)
  }

  ghost predicate Trusted(sys: System, cp: Checkpoint) {
    && cp.session < |sys.ledger.sessions| && cp.index < |cp.plan| && Selectable(cp.plan)
    && Holding(sys.ledger.sessions[cp.session], cp.plan[cp.index], cp.collection)
    && Progress(sys, cp.plan, cp.index, cp.collection)
  }

  predicate StageOk(sys: System)
    requires sys.client.job.Job?
  {
    var client, job := sys.client, sys.client.job;
    match job.stage
    case Checking => client.stored.Some? && !Fits(client.stored.value, job.plan, job.binding)
    case Releasing => client.stored.Some? && !Fits(client.stored.value, job.plan, job.binding)
    case Submitting(index, collection, resume) =>
      && index < |job.plan|
      && (client.stored.Some? ==> Fits(client.stored.value, job.plan, job.binding) && collection == Some(client.stored.value.collection))
      && (if client.stored.None? then index == 0 && collection.None? && resume.None?
          else if resume.Some? then index == client.stored.value.index && resume.value == client.stored.value.session
          else index == client.stored.value.index + 1 && Over(sys, client.stored.value.session))
    case Sending(index, session, seen) =>
      && index < |job.plan| && client.stored.Some?
      && client.stored.value.plan == job.plan && client.stored.value.binding == job.binding
      && client.stored.value.index == index && client.stored.value.session == session
      && client.active == Some(session) && Kept(sys, session)
  }

  ghost predicate Consistent(sys: System) {
    var client := sys.client;
    && Orderly(sys.ledger)
    && (client.stored.Some? ==> Trusted(sys, client.stored.value))
    && (client.active.Some? && client.stored.Some? ==> client.active.value == client.stored.value.session)
    && (client.job.Job? ==> Selectable(client.job.plan) && StageOk(sys))
  }

  /** The matter moves on, and no session is cancelled but by somebody else. */
  ghost predicate Advances(sys: System, after: System) {
    && Orderly(after.ledger) && Later(sys.ledger, after.ledger) && after.client == sys.client
    && forall s: nat :: Kept(sys, s) ==> Kept(after, s)
  }

  lemma OverStays(sys: System, after: System, s: nat)
    requires Advances(sys, after) && Over(sys, s)
    ensures Over(after, s)
  {
    hide Orderly;
    assert SessionEvolves(sys.ledger.sessions[s], after.ledger.sessions[s]);
  }

  lemma HoldingStays(session: Session, after: Session, files: seq<Planner.File>, collection: nat)
    requires SessionEvolves(session, after) && Holding(session, files, collection)
    ensures Holding(after, files, collection)
  {
    assert forall i :: 0 <= i < |session.items| ==> Evolves(session.items[i], after.items[i]);
  }

  lemma ProgressStays(sys: System, after: System, plan: Plan, index: nat, collection: nat)
    requires Later(sys.ledger, after.ledger) && Progress(sys, plan, index, collection)
    requires forall j, t: nat :: 0 <= j < index && j < |plan| && DeliveredBy(sys, t, plan[j], collection) ==> Over(after, t)
    ensures Progress(after, plan, index, collection)
  {
    forall j | 0 <= j < index && j < |plan| ensures Delivered(after, plan[j], collection) {
      assert Delivered(sys, plan[j], collection);
      var t: nat :| DeliveredBy(sys, t, plan[j], collection);
      HoldingStays(sys.ledger.sessions[t], after.ledger.sessions[t], plan[j], collection);
      assert DeliveredBy(after, t, plan[j], collection);
    }
  }

  lemma TrustStays(sys: System, after: System, cp: Checkpoint)
    requires Advances(sys, after) && Trusted(sys, cp)
    ensures Trusted(after, cp)
  {
    hide Orderly;
    forall t: nat | Over(sys, t) ensures Over(after, t) {
      OverStays(sys, after, t);
    }
    ProgressStays(sys, after, cp.plan, cp.index, cp.collection);
    HoldingStays(sys.ledger.sessions[cp.session], after.ledger.sessions[cp.session], cp.plan[cp.index], cp.collection);
  }

  /** Whatever else happens to the matter leaves the browser's own state trustworthy. */
  lemma AdvanceKeeps(sys: System, after: System)
    requires Consistent(sys) && Advances(sys, after)
    ensures Consistent(after)
  {
    var client := sys.client;
    if client.stored.Some? {
      TrustStays(sys, after, client.stored.value);
      if client.job.Job? && Over(sys, client.stored.value.session) {
        OverStays(sys, after, client.stored.value.session);
      }
    }
    hide Trusted, Orderly, Selectable, Over, Later;
  }

  lemma NotReleased(l: Ledger, step: Step, s: nat)
    requires s < |l.sessions| && l.sessions[s].status != Released && step != Cancel(s)
    ensures s < |Apply(l, step).sessions| && Apply(l, step).sessions[s].status != Released
  {
    hide Unlocked, Total, Scanned, Change, PendingBytes, Answer, Adoptable;
  }

  lemma StepAdvances(sys: System, step: Step)
    requires Orderly(sys.ledger)
    ensures Advances(sys, Execute(sys, Server(step)))
  {
    StepIsOrderly(sys.ledger, step);
    var after := Execute(sys, Server(step));
    forall s: nat | Kept(sys, s) ensures Kept(after, s) {
      if s !in sys.cancelled && step != Cancel(s) {
        NotReleased(sys.ledger, step, s);
      } else {
        assert s < |after.ledger.sessions|;
      }
    }
  }

  /** What the server does to answer a submission cancels nothing. */
  lemma ServeAdvances(sys: System, actor: nat, member: bool, sub: Submission)
    requires Orderly(sys.ledger)
    ensures Advances(sys, sys.(ledger := Run(sys.ledger, ServeSteps(sys.ledger, actor, member, sub))))
  {
    var steps := ServeSteps(sys.ledger, actor, member, sub);
    assert |steps| <= 1 && (|steps| == 1 ==> !steps[0].Cancel?);
    OneStep(sys.ledger, steps);
    hide ServeSteps, Apply, Run;
    if |steps| == 1 {
      StepAdvances(sys, steps[0]);
      SameAdvances(sys, steps[0]);
    } else {
      SameLedger(sys.ledger);
    }
  }

  lemma SameAdvances(sys: System, step: Step)
    requires !step.Cancel?
    ensures Execute(sys, Server(step)) == sys.(ledger := Apply(sys.ledger, step))
  {
  }

  /** A batch is not another batch of the same plan. */
  lemma DifferentBatches(session: Session, plan: Plan, j: nat, k: nat)
    requires Selectable(plan) && j < k < |plan| && SameManifest(session.items, plan[j])
    ensures !SameManifest(session.items, plan[k])
  {
    assert plan[j][0].path != plan[k][0].path;
  }

  lemma CancelNowIsOrderly(l: Ledger, s: nat)
    requires Orderly(l)
    ensures Orderly(CancelNow(l, s)) && Later(l, CancelNow(l, s))
  {
    hide Orderly, Apply, Later;
    StepIsOrderly(l, Allow(s));
    StepIsOrderly(Apply(l, Allow(s)), Cancel(s));
    LaterIsTransitive(l, Apply(l, Allow(s)), CancelNow(l, s));
  }

  lemma OwnCancelMoves(sys: System, s: nat, executed: bool)
    requires Orderly(sys.ledger)
    ensures var after := OwnCancel(sys, s, executed);
            && Orderly(after.ledger) && Later(sys.ledger, after.ledger)
            && after.client == sys.client && after.cancelled == sys.cancelled
            && forall t :: 0 <= t < |sys.ledger.sessions| && t != s ==> after.ledger.sessions[t] == sys.ledger.sessions[t]
  {
    SameLedger(sys.ledger);
    CancelNowIsOrderly(sys.ledger, s);
    hide Orderly, CancelSession, AllowCancel;
  }

  /** The browser cancels the session of its checkpoint, and with it no earlier batch. */
  lemma OwnCancelKeeps(sys: System, s: nat, executed: bool)
    requires Consistent(sys) && (sys.client.stored.Some? ==> sys.client.stored.value.session == s)
    ensures var after := OwnCancel(sys, s, executed);
            && Orderly(after.ledger) && Later(sys.ledger, after.ledger)
            && (sys.client.stored.Some? ==> Trusted(after, sys.client.stored.value))
  {
    var after := OwnCancel(sys, s, executed);
    OwnCancelMoves(sys, s, executed);
    hide Orderly, OwnCancel;
    if sys.client.stored.Some? {
      var cp := sys.client.stored.value;
      forall j, t: nat | 0 <= j < cp.index && j < |cp.plan| && DeliveredBy(sys, t, cp.plan[j], cp.collection)
        ensures Over(after, t)
      {
        DifferentBatches(sys.ledger.sessions[t], cp.plan, j, cp.index);
      }
      hide Selectable;
      ProgressStays(sys, after, cp.plan, cp.index, cp.collection);
      HoldingStays(sys.ledger.sessions[s], after.ledger.sessions[s], cp.plan[cp.index], cp.collection);
    }
  }

  lemma ResumedHolds(l: Ledger, actor: nat, sub: Submission)
    requires sub.resume.Some? && Resumable(l, actor, sub.resume.value, sub)
    ensures var s, after := sub.resume.value, Run(l, ServeSteps(l, actor, true, sub));
            && s < |after.sessions| && after.sessions[s].owner == actor && after.sessions[s].status != Released
            && SameManifest(after.sessions[s].items, sub.files)
            && (sub.collection.Some? ==> after.sessions[s].collection == sub.collection.value)
  {
    OneStep(l, ServeSteps(l, actor, true, sub));
  }

  lemma AcceptedSession(l: Ledger, actor: nat, member: bool, sub: Submission)
    requires Orderly(l) && Answerable(l, actor, member, sub) && Serve(l, actor, member, sub).Accepted?
    ensures var s, after := Serve(l, actor, member, sub).session, Run(l, ServeSteps(l, actor, member, sub));
            && member && s < |after.sessions| && after.sessions[s].owner == actor && after.sessions[s].status != Released
            && SameManifest(after.sessions[s].items, sub.files)
            && (sub.collection.Some? ==> after.sessions[s].collection == sub.collection.value)
            && (sub.resume.Some? ==> s == sub.resume.value)
  {
    var check := CheckReceipt(l, actor, Entries(sub));
    if check.Fresh? && sub.resume.Some? {
      ResumedHolds(l, actor, sub);
    } else {
      var seen := if l.guard.Summed? then l.guard.used + l.guard.reserved else 0;
      OneStep(l, ServeSteps(l, actor, member, sub));
      AnswerHoldsFiles(l, RequestOf(actor, sub), seen);
      hide Orderly;
    }
  }

  /** What an acceptance tells the browser about the session it names. */
  lemma AcceptanceHolds(l: Ledger, actor: nat, member: bool, sub: Submission)
    requires Orderly(l) && Answerable(l, actor, member, sub) && Serve(l, actor, member, sub).Accepted?
    ensures var s, after := Serve(l, actor, member, sub).session, Run(l, ServeSteps(l, actor, member, sub));
            && member && s < |after.sessions| && after.sessions[s].owner == actor && after.sessions[s].status != Released
            && SameManifest(after.sessions[s].items, sub.files) && |after.sessions[s].items| == |sub.files|
            && (forall i :: 0 <= i < |sub.files| ==>
                 after.sessions[s].items[i].path == sub.files[i].path && after.sessions[s].items[i].size == sub.files[i].size)
            && (sub.collection.Some? ==> after.sessions[s].collection == sub.collection.value)
            && (sub.resume.Some? ==> s == sub.resume.value)
  {
    hide Orderly, Answerable, Serve, ServeSteps, Run;
    AcceptedSession(l, actor, member, sub);
  }

  /** Under a receipt the accepted session then holds each file under the very row submitted for it, also if it had none before. */
  lemma AcceptanceBindsRows(l: Ledger, actor: nat, member: bool, sub: Submission)
    requires Orderly(l) && Answerable(l, actor, member, sub) && Serve(l, actor, member, sub).Accepted? && FromReceipt(Entries(sub))
    ensures var s, after := Serve(l, actor, member, sub).session, Run(l, ServeSteps(l, actor, member, sub));
            s < |after.sessions| && SameFiles(after.sessions[s].items, Entries(sub))
  {
    if CheckReceipt(l, actor, Entries(sub)).Fresh? && sub.resume.Some? {
      OneStep(l, ServeSteps(l, actor, member, sub));
      hide CheckReceipt, FromReceipt, Adoptable, Apply, Run, SameFiles, Orderly;
      ResumeBindsRows(l, actor, sub);
    } else {
      NewAnswerBindsRows(l, actor, member, sub);
    }
  }

  lemma NewAnswerBindsRows(l: Ledger, actor: nat, member: bool, sub: Submission)
    requires Orderly(l) && Answerable(l, actor, member, sub) && Serve(l, actor, member, sub).Accepted?
    requires !(CheckReceipt(l, actor, Entries(sub)).Fresh? && sub.resume.Some?)
    ensures var s, after := Serve(l, actor, member, sub).session, Run(l, ServeSteps(l, actor, member, sub));
            s < |after.sessions| && SameFiles(after.sessions[s].items, Entries(sub))
  {
    OneStep(l, ServeSteps(l, actor, member, sub));
    AnswerHoldsFiles(l, RequestOf(actor, sub), if l.guard.Summed? then l.guard.used + l.guard.reserved else 0);
    hide Orderly, CheckReceipt, SameFiles, WithinQuota, Acceptable;
  }

  lemma ResumeBindsRows(l: Ledger, actor: nat, sub: Submission)
    requires sub.resume.Some? && Resumable(l, actor, sub.resume.value, sub) && FromReceipt(Entries(sub))
    requires Adoptable(l, sub.resume.value, actor, sub.rows)
    ensures var s, after := sub.resume.value, Apply(l, Adopt(sub.resume.value, actor, sub.rows));
            SameFiles(after.sessions[s].items, Entries(sub))
  {
    var s := sub.resume.value;
    forall i: nat | i < |l.sessions[s].items|
      ensures var item := Apply(l, Adopt(s, actor, sub.rows)).sessions[s].items[i];
              && item.path == Entries(sub)[i].path && item.size == Entries(sub)[i].size && item.row == Entries(sub)[i].row
    {
      TakenOver(l, s, actor, sub.rows, s, i);
      hide Adoptable, Apply;
    }
  }

  /** The checkpoint that a batch is submitted under vouches for every batch before it. */
  lemma SubmittedProgress(sys: System)
    requires Consistent(sys) && Submits(sys.client)
    ensures var stage := sys.client.job.stage;
            stage.index > 0 ==> stage.collection.Some? && Progress(sys, sys.client.job.plan, stage.index, stage.collection.value)
  {
    var client, stage := sys.client, sys.client.job.stage;
    if stage.index > 0 && stage.resume.None? {
      var cp := client.stored.value;
      assert DeliveredBy(sys, cp.session, cp.plan[cp.index], cp.collection);
      assert Delivered(sys, cp.plan[cp.index], cp.collection);
    }
  }

  lemma ProgressAdvances(sys: System, after: System, plan: Plan, index: nat, collection: nat)
    requires Advances(sys, after) && Progress(sys, plan, index, collection)
    ensures Progress(after, plan, index, collection)
  {
    forall t: nat | Over(sys, t) ensures Over(after, t) {
      OverStays(sys, after, t);
    }
    ProgressStays(sys, after, plan, index, collection);
  }

  /** Naming an accepted session that holds the batch makes it the checkpoint. */
  lemma TakenKeeps(sys: System, s: nat)
    requires Orderly(sys.ledger) && Submits(sys.client) && s < |sys.ledger.sessions| && Selectable(sys.client.job.plan)
    requires var job, session := sys.client.job, sys.ledger.sessions[s];
             && session.status != Released && SameManifest(session.items, job.plan[job.stage.index])
             && Progress(sys, job.plan, job.stage.index, session.collection)
    ensures Consistent(sys.(client := Taken(sys.client, s, sys.ledger.sessions[s]), named := sys.named + {s}))
  {
    var after := sys.(client := Taken(sys.client, s, sys.ledger.sessions[s]), named := sys.named + {s});
    var job := sys.client.job;
    ProgressSame(sys, after, job.plan, job.stage.index, sys.ledger.sessions[s].collection);
    hide Orderly, Selectable, Progress;
  }

  lemma ProgressSame(sys: System, after: System, plan: Plan, index: nat, collection: nat)
    requires after.ledger == sys.ledger && after.cancelled == sys.cancelled && Progress(sys, plan, index, collection)
    ensures Progress(after, plan, index, collection)
  {
    forall j | 0 <= j < index && j < |plan| ensures Delivered(after, plan[j], collection) {
      assert Delivered(sys, plan[j], collection);
      var t: nat :| DeliveredBy(sys, t, plan[j], collection);
      assert DeliveredBy(after, t, plan[j], collection);
    }
  }

  /** Only the browser's own state is different, and it vouches for no more than before. */
  lemma ClientKeeps(sys: System, after: System)
    requires Consistent(sys) && after.ledger == sys.ledger && after.cancelled == sys.cancelled
    requires after.client.stored.Some? ==> after.client.stored == sys.client.stored
    requires after.client.active.Some? && after.client.stored.Some? ==> after.client.active == sys.client.active
    requires after.client.job.Job? ==> Selectable(after.client.job.plan) && StageOk(after)
    ensures Consistent(after)
  {
    if after.client.stored.Some? {
      var cp := after.client.stored.value;
      ProgressSame(sys, after, cp.plan, cp.index, cp.collection);
    }
  }

  /** A submission that is not accepted ends the job, or starts it afresh. */
  lemma UnacceptedKeeps(sys: System, client: Client)
    requires Consistent(sys) && Submits(sys.client)
    requires client == Stop(sys.client) || client == Mismatched(sys.client)
    ensures Consistent(sys.(client := client))
  {
    hide Trusted, Orderly, Selectable;
    if client.job.NoJob? {
      ClientKeeps(sys, sys.(client := client));
    } else {
      FreshKeeps(sys, sys.client.job.(retried := true));
    }
  }

  /** The history of what was named or let go is nobody's business here. */
  lemma HistoryKeeps(sys: System, after: System)
    requires Consistent(sys) && after == sys.(named := after.named, dropped := after.dropped)
    ensures Consistent(after)
  {
    ClientKeeps(sys, after);
  }

  lemma SubmitKeeps(sys: System, fate: Fate)
    requires Consistent(sys) && Submits(sys.client)
    ensures Consistent(Submitted(sys, fate))
  {
    var sub, after := SubmissionOf(sys.client), Submitted(sys, fate);
    var l, actor, member := sys.ledger, sys.principal, sys.member;
    var served := Serve(l, actor, member, sub);
    var next := sys.(ledger := Run(l, ServeSteps(l, actor, member, sub)));
    ServeAdvances(sys, actor, member, sub);
    if Answerable(l, actor, member, sub) && served.Accepted? {
      AcceptanceHolds(l, actor, member, sub);
    }
    hide Serve, ServeSteps, Run, Answerable, Consistent, Advances, Orderly, Mismatched, Taken, Stop;
    AdvanceKeeps(sys, next);
    if after == sys.(client := Stop(sys.client)) {
      UnacceptedKeeps(sys, Stop(sys.client));
    } else if after == next.(client := Stop(sys.client)) {
      UnacceptedKeeps(next, Stop(sys.client));
    } else if after != sys {
      if served.Accepted? {
        AcceptedKeeps(sys, next, served.session);
      } else {
        UnacceptedKeeps(next, Mismatched(sys.client));
        HistoryKeeps(next.(client := Mismatched(sys.client)), after);
      }
    }
  }

  lemma AcceptedKeeps(sys: System, next: System, s: nat)
    requires Consistent(sys) && Submits(sys.client) && Advances(sys, next) && s < |next.ledger.sessions|
    requires var job, session := sys.client.job, next.ledger.sessions[s];
             && session.status != Released && SameManifest(session.items, job.plan[job.stage.index])
             && (job.stage.collection.Some? ==> session.collection == job.stage.collection.value)
    ensures Consistent(next.(client := Taken(next.client, s, next.ledger.sessions[s]), named := next.named + {s}))
  {
    var job := sys.client.job;
    SubmittedProgress(sys);
    if job.stage.index > 0 {
      ProgressAdvances(sys, next, job.plan, job.stage.index, job.stage.collection.value);
    }
    TakenKeeps(next, s);
  }

  lemma BatchSentKeeps(sys: System)
    requires Consistent(sys) && sys.client.job.Job? && sys.client.job.stage.Sending?
    requires AllSent(sys.ledger.sessions[sys.client.job.stage.session].items, sys.client.job.stage.seen)
    ensures Consistent(sys.(client := BatchSent(sys.client, sys.ledger.sessions[sys.client.job.stage.session])))
  {
    var s := sys.client.job.stage.session;
    assert SoundSession(sys.ledger.sessions[s]);
    assert sys.ledger.sessions[s].status != Open;
    ClientKeeps(sys, sys.(client := BatchSent(sys.client, sys.ledger.sessions[s])));
  }

  /** A fresh start relies on nothing but the confirmed selection. */
  lemma FreshKeeps(sys: System, job: Job)
    requires Orderly(sys.ledger) && job.Job? && Selectable(job.plan)
    ensures Consistent(sys.(client := Afresh(sys.client.(job := job))))
  {
  }

  lemma StoppedKeeps(sys: System, client: Client)
    requires Orderly(sys.ledger) && client.job.NoJob? && (client.stored.Some? ==> Trusted(sys, client.stored.value))
    requires client.stored.Some? && client.active.Some? ==> client.active.value == client.stored.value.session
    ensures Consistent(sys.(client := client))
  {
    if client.stored.Some? {
      var cp := client.stored.value;
      ProgressSame(sys, sys.(client := client), cp.plan, cp.index, cp.collection);
    }
  }

  lemma CancelReplyKeeps(sys: System, executed: bool, body: Option<Body>)
    requires Consistent(sys) && StageIs(sys.client, Releasing)
    ensures Consistent(Execute(sys, CancelReply(executed, body)))
  {
    var cp := sys.client.stored.value;
    var after := OwnCancel(sys, cp.session, executed);
    OwnCancelKeeps(sys, cp.session, executed);
    hide OwnCancel, Orderly, Trusted;
    FreshKeeps(after, sys.client.job);
    StoppedKeeps(after, Stop(sys.client));
  }

  lemma UserCancelKeeps(sys: System, executed: bool, succeeded: bool)
    requires Consistent(sys) && sys.client.active.Some?
    ensures Consistent(Execute(sys, UserCancel(executed, succeeded)))
  {
    var after := OwnCancel(sys, sys.client.active.value, executed);
    OwnCancelKeeps(sys, sys.client.active.value, executed);
    hide OwnCancel, Orderly, Trusted;
    StoppedKeeps(after, Client(if succeeded then None else sys.client.stored, sys.client.active, NoJob));
  }

  lemma ConfirmKeeps(sys: System, plan: Plan, binding: Option<nat>, rows: map<string, nat>)
    requires Consistent(sys)
    ensures Consistent(Execute(sys, Confirm(plan, binding, rows)))
  {
    ClientKeeps(sys, Execute(sys, Confirm(plan, binding, rows)));
  }

  lemma StatusReplyKeeps(sys: System, body: Option<Body>)
    requires Consistent(sys)
    ensures Consistent(Execute(sys, StatusReply(body)))
  {
    ClientKeeps(sys, Execute(sys, StatusReply(body)));
  }

  lemma SendingKeeps(sys: System, item: nat)
    requires Consistent(sys)
    ensures Consistent(Execute(sys, FinalizeRefused(item))) && Consistent(Execute(sys, BatchDone))
  {
    hide AllSent, SettledItems, Received, Selectable, Trusted, Orderly;
    ClientKeeps(sys, Execute(sys, FinalizeRefused(item)));
    if Execute(sys, BatchDone) != sys {
      BatchSentKeeps(sys);
    }
  }

  lemma PlainKeeps(sys: System, event: Event)
    requires Consistent(sys) && (event.SignIn? || event.Reload? || event.Pause?)
    ensures Consistent(Execute(sys, event))
  {
    ClientKeeps(sys, Execute(sys, event));
  }

  lemma ConsistentIsOrderly(sys: System)
    requires Consistent(sys)
    ensures Orderly(sys.ledger)
  {
  }

  lemma ExecuteKeeps(sys: System, event: Event)
    requires Consistent(sys)
    ensures Consistent(Execute(sys, event))
  {
    ConsistentIsOrderly(sys);
    match event
    case Server(step) =>
      hide Consistent, Orderly, Advances, Apply;
      StepAdvances(sys, step);
      AdvanceKeeps(sys, Execute(sys, event));
    case SubmitReply(fate) =>
      hide Consistent, Orderly, Submitted;
      if Submits(sys.client) { SubmitKeeps(sys, fate); }
    case CancelReply(executed, body) =>
      hide Consistent, OwnCancel, HonestStatus;
      if StageIs(sys.client, Releasing) { CancelReplyKeeps(sys, executed, body); }
    case UserCancel(executed, succeeded) =>
      hide Consistent, OwnCancel;
      if sys.client.active.Some? { UserCancelKeeps(sys, executed, succeeded); }
    case BatchDone => hide *; SendingKeeps(sys, 0);
    case FinalizeRefused(item) => hide *; SendingKeeps(sys, item);
    case Confirm(plan, binding, rows) => hide *; ConfirmKeeps(sys, plan, binding, rows);
    case StatusReply(body) => hide *; StatusReplyKeeps(sys, body);
    case SignIn(principal, member) => hide *; PlainKeeps(sys, event);
    case Reload => hide *; PlainKeeps(sys, event);
    case Pause => hide *; PlainKeeps(sys, event);
  }

  lemma {:induction false} PlayKeeps(sys: System, events: seq<Event>)
    requires Consistent(sys)
    ensures Consistent(Play(sys, events))
    decreases |events|
  {
    if events != [] {
      ExecuteKeeps(sys, events[0]);
      hide Consistent, Execute;
      PlayKeeps(Execute(sys, events[0]), events[1..]);
    }
  }

  // ---- earlier batches ------------------------------------------------------------------------

  /** Somebody else's cancel is an event of the run. */
  lemma {:induction false} CancelledByOthers(sys: System, events: seq<Event>, t: nat)
    requires t in Play(sys, events).cancelled
    ensures t in sys.cancelled || Server(Cancel(t)) in events
    decreases |events|
  {
    if events != [] {
      CancelledByOthers(Execute(sys, events[0]), events[1..], t);
      if t in Execute(sys, events[0]).cancelled {
        CancelledNext(sys, events[0], t);
      }
    }
  }

  lemma CancelledNext(sys: System, event: Event, t: nat)
    requires t in Execute(sys, event).cancelled
    ensures t in sys.cancelled || event == Server(Cancel(t))
  {
    hide Apply, HonestStatus, StatusSeen, CancelSeen, Serve, ServeSteps, Answerable, BatchSent, Confirmed, CancelNow;
  }

  /** A batch that arrived: complete or partial, or cancelled by somebody else during the run. */
  ghost predicate Arrived(l: Ledger, files: seq<Planner.File>, collection: nat, events: seq<Event>) {
    exists t: nat :: t < |l.sessions| && Holding(l.sessions[t], files, collection)
      && (l.sessions[t].status in {Complete, Partial} || (l.sessions[t].status == Released && Server(Cancel(t)) in events))
  }

  /**
    Over every run, with reloads, lost and wrong replies, other people at the browser and in the
    matter: when the browser sends files for batch k, its session holds exactly that batch of the
    confirmed plan, and each of batches 0 to k - 1 of the same plan is complete or partial in the
    same collection, or was cancelled by a request that is not the browser's own.
   */
  lemma EarlierBatchesAreDelivered(quota: nat, receipt: seq<Row>, events: seq<Event>)
    ensures var sys := Play(FirstVisit(quota, receipt), events);
            var job := sys.client.job;
            job.Job? && job.stage.Sending? ==>
              && job.stage.session < |sys.ledger.sessions| && job.stage.index < |job.plan|
              && var session := sys.ledger.sessions[job.stage.session];
                 && SameManifest(session.items, job.plan[job.stage.index])
                 && forall j :: 0 <= j < job.stage.index ==> Arrived(sys.ledger, job.plan[j], session.collection, events)
  {
    var start, sys := FirstVisit(quota, receipt), Play(FirstVisit(quota, receipt), events);
    PlayKeeps(start, events);
    var job := sys.client.job;
    if job.Job? && job.stage.Sending? {
      var collection := sys.ledger.sessions[job.stage.session].collection;
      forall j | 0 <= j < job.stage.index ensures Arrived(sys.ledger, job.plan[j], collection, events) {
        DeliveredArrived(start, events, job.plan[j], collection);
      }
    }
  }

  lemma DeliveredArrived(start: System, events: seq<Event>, files: seq<Planner.File>, collection: nat)
    requires start.cancelled == {} && Delivered(Play(start, events), files, collection)
    ensures Arrived(Play(start, events).ledger, files, collection, events)
  {
    var sys := Play(start, events);
    var t: nat :| DeliveredBy(sys, t, files, collection);
    if t in sys.cancelled {
      CancelledByOthers(start, events, t);
    }
  }

  /**
    Which steps take that back: a batch that is complete or partial stays one of the two, except
    over a cancel whose check found it not yet complete.
   */
  lemma DeliveryUndoneExactly(l: Ledger, t: nat, step: Step)
    requires SoundLedger(l) && t < |l.sessions| && l.sessions[t].status in {Complete, Partial}
    ensures Apply(l, step).sessions[t].status in {Complete, Partial} <==> !(step == Cancel(t) && l.sessions[t].cancelling)
  {
    assert SoundSession(l.sessions[t]);
    if step != Cancel(t) {
      NotReleased(l, step, t);
      StepIsLater(l, step);
      assert SessionEvolves(l.sessions[t], Apply(l, step).sessions[t]);
    }
  }

  lemma StepIsLater(l: Ledger, step: Step)
    requires SoundLedger(l)
    ensures Later(l, Apply(l, step))
  {
    if step.Insert? {
      InsertIsSound(l);
    } else {
      StepIsSound(l, step);
    }
  }

  /**
    A batch cancelled while it is sent is passed over exactly when each of its items was already
    reported settled or had taken all its bytes; a cancel before that stops the upload.
   */
  lemma CancelStopsExactly(sys: System)
    requires Consistent(sys) && sys.client.job.Job? && sys.client.job.stage.Sending?
    requires Serves(sys, sys.client.job.stage.session) && sys.ledger.sessions[sys.client.job.stage.session].status != Complete
    ensures var stage, items := sys.client.job.stage, sys.ledger.sessions[sys.client.job.stage.session].items;
            var gone := Execute(Execute(sys, Server(Allow(stage.session))), Server(Cancel(stage.session)));
            && gone.ledger.sessions[stage.session].status == Released
            && (Execute(gone, BatchDone) != gone <==>
                 forall i :: 0 <= i < |items| ==> i in stage.seen || items[i].received == items[i].size)
  {
    var s, seen := sys.client.job.stage.session, sys.client.job.stage.seen;
    var gone := Execute(Execute(sys, Server(Allow(s))), Server(Cancel(s)));
    var items, after := sys.ledger.sessions[s].items, gone.ledger.sessions[s].items;
    GoneSession(sys, s);
    hide Consistent;
    BatchDoneExactly(gone);
    GoneItems(items);
    assert AllSent(after, seen) <==> forall i :: 0 <= i < |items| ==> i in seen || items[i].received == items[i].size;
  }

  lemma GoneSession(sys: System, s: nat)
    requires s < |sys.ledger.sessions| && sys.ledger.sessions[s].status != Complete
    ensures var before, gone := sys.ledger.sessions[s], Execute(Execute(sys, Server(Allow(s))), Server(Cancel(s)));
            && gone == sys.(ledger := CancelNow(sys.ledger, s), cancelled := sys.cancelled + {s})
            && |gone.ledger.sessions| == |sys.ledger.sessions| && gone.ledger.sessions[s].owner == before.owner
            && gone.ledger.sessions[s].status == Released && gone.ledger.sessions[s].items == CancelItems(before.items)
  {
  }

  lemma GoneItems(items: seq<Item>)
    ensures var after := CancelItems(items);
            |after| == |items| && forall i :: 0 <= i < |items| ==>
              !Active(after[i]) && after[i].received == items[i].received && after[i].size == items[i].size
  {
  }

  lemma BatchDoneExactly(sys: System)
    requires sys.client.job.Job? && sys.client.job.stage.Sending? && Serves(sys, sys.client.job.stage.session)
    ensures Execute(sys, BatchDone) != sys <==> AllSent(sys.ledger.sessions[sys.client.job.stage.session].items, sys.client.job.stage.seen)
  {
    hide AllSent;
  }

  // ---- recovery over the ledger ---------------------------------------------------------------

  /** What an event does to the matter is a run of the ledger. */
  lemma ExecuteIsRun(sys: System, event: Event) returns (steps: seq<Step>)
    ensures Execute(sys, event).ledger == Run(sys.ledger, steps)
  {
    var l, after := sys.ledger, Execute(sys, event).ledger;
    steps := [];
    if after != l {
      if event.Server? {
        steps := [event.step];
        OneStep(l, steps);
      } else if event.SubmitReply? {
        steps := ServeSteps(l, sys.principal, sys.member, SubmissionOf(sys.client));
      } else {
        var s := if event.CancelReply? then sys.client.stored.value.session else sys.client.active.value;
        steps := [Allow(s), Cancel(s)];
        RunAppend(l, [Allow(s)], [Cancel(s)]);
        OneStep(l, [Allow(s)]);
        OneStep(Apply(l, Allow(s)), [Cancel(s)]);
      }
    }
  }

  lemma {:induction false} PlayIsRun(sys: System, events: seq<Event>) returns (steps: seq<Step>)
    ensures Play(sys, events).ledger == Run(sys.ledger, steps)
    decreases |events|
  {
    steps := [];
    if events != [] {
      var first := ExecuteIsRun(sys, events[0]);
      var rest := PlayIsRun(Execute(sys, events[0]), events[1..]);
      RunAppend(sys.ledger, first, rest);
      steps := first + rest;
    }
  }

  /** Every run of the recovery is a run of the ledger, so that all its bounds hold, the quota's among them. */
  lemma RecoveryWithinQuota(quota: nat, receipt: seq<Row>, events: seq<Event>)
    ensures var end := Play(FirstVisit(quota, receipt), events).ledger;
            exists steps: seq<Step> ::
              && end == Run(Start(quota, receipt), steps)
              && Used(end) <= quota + Quota.Worst(Start(quota, receipt), steps) + Total(end.sessions, Spare)
  {
    var steps := PlayIsRun(FirstVisit(quota, receipt), events);
    Quota.DiskStaysWithinQuota(quota, receipt, steps);
  }
}
