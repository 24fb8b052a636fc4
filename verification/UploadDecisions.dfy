/** What the browser does next, exactly, for every reply and every state of an upload. */
module UploadDecisions {
  import opened Wrappers
  import opened UploadLedger
  import opened UploadAdmission
  import opened UploadRecovery
  import opened UploadCheckpoint

  /** The reply is in order, is about this checkpoint's session and collection, and reports this status. */
  predicate Tells(body: Option<Body>, cp: Checkpoint, status: Status) {
    body.Some? && body.value.code == 200 && body.value.session == cp.session && body.value.collection == cp.collection
    && body.value.status == Some(status)
  }

  /** The confirmed upload begins anew, with no checkpoint. */
  predicate BeginsAnew(before: Client, after: Client) {
    && after.stored.None? && after.active.None?
    && before.job.Job? && after.job.Job? && after.job.stage == Submitting(0, None, None)
    && after.job.plan == before.job.plan && after.job.binding == before.job.binding && after.job.rows == before.job.rows
  }

  /** The upload pauses, and the checkpoint is kept. */
  predicate Pauses(before: Client, after: Client) {
    after.job.NoJob? && after.stored == before.stored && after.active == before.active
  }

  // ---- settling a checkpoint of another plan --------------------------------------------------

  /**
    The answer to the browser's own cancel: it begins anew if and only if the reply says that the
    checkpoint's session, in its collection, is cancelled; after any other, or none, it pauses.
   */
  lemma CancelReplyExactly(sys: System, executed: bool, body: Option<Body>)
    requires Consistent(sys) && StageIs(sys.client, Releasing)
    requires HonestStatus(OwnCancel(sys, sys.client.stored.value.session, executed), sys.client.stored.value, body)
    ensures var next := Execute(sys, CancelReply(executed, body)).client;
            && (Starts(next) <==> Tells(body, sys.client.stored.value, Released))
            && (if Tells(body, sys.client.stored.value, Released) then BeginsAnew(sys.client, next) else Pauses(sys.client, next))
  {
    hide Orderly, Trusted, Selectable, OwnCancel;
  }

  /** A cancel of an open session that is carried out and confirmed frees its reservation, and the upload begins anew. */
  lemma ConfirmedCancelBeginsAnew(sys: System)
    requires Consistent(sys) && StageIs(sys.client, Releasing)
    requires Serves(sys, sys.client.stored.value.session)
    requires sys.ledger.sessions[sys.client.stored.value.session].status == Open
    ensures var cp := sys.client.stored.value;
            var after := Execute(sys, CancelReply(true, Some(Body(200, cp.session, cp.collection, Some(Released)))));
            && BeginsAnew(sys.client, after.client)
            && cp.session < |after.ledger.sessions| && after.ledger.sessions[cp.session].status == Released
            && Sum(after.ledger.sessions[cp.session].items, Reserved) == 0
  {
    var cp := sys.client.stored.value;
    var body := Some(Body(200, cp.session, cp.collection, Some(Released)));
    CancelReleases(sys.ledger, cp.session);
    CancelledHere(sys, cp.session);
    hide Consistent, CancelNow, Sum;
    assert HonestStatus(OwnCancel(sys, cp.session, true), cp, body);
  }

  lemma CancelledHere(sys: System, s: nat)
    requires Serves(sys, s) && sys.ledger.sessions[s].status == Open
    ensures var after := OwnCancel(sys, s, true);
            after == sys.(ledger := CancelNow(sys.ledger, s)) && Serves(after, s) && after.ledger.sessions[s].status == Released
  {
  }

  /** The same for a status reply: which begin anew, which lead to a cancel, and that every other pauses. */
  lemma StatusReplyExactly(sys: System, body: Option<Body>)
    requires Consistent(sys) && StageIs(sys.client, Checking) && HonestStatus(sys, sys.client.stored.value, body)
    ensures var cp, next := sys.client.stored.value, Execute(sys, StatusReply(body)).client;
            var over := Tells(body, cp, Complete) || Tells(body, cp, Partial) || Tells(body, cp, Released);
            if over || (body.Some? && body.value.code == 404) then BeginsAnew(sys.client, next)
            else if Tells(body, cp, Open) then next == sys.client.(job := sys.client.job.(stage := Releasing))
            else Pauses(sys.client, next)
  {
    hide Orderly, Trusted, Selectable;
  }

  // ---- confirming -----------------------------------------------------------------------------

  /**
    A confirmed selection resumes the checkpoint's batch exactly if the checkpoint is of this very
    plan, has a batch of it in hand and, in the newer format, was made for this reviewed selection.
    Without a checkpoint it begins with the first batch; a checkpoint of anything else is settled first.
   */
  lemma ConfirmExactly(sys: System, plan: Plan, binding: Option<nat>, rows: map<string, nat>)
    requires sys.client.job.NoJob? && Selectable(plan)
    ensures var stored, after := sys.client.stored, Execute(sys, Confirm(plan, binding, rows));
            && after == sys.(client := after.client) && after.client.stored == stored && after.client.active == sys.client.active
            && after.client.job.Job? && after.client.job.plan == plan && after.client.job.binding == binding
            && after.client.job.rows == rows && !after.client.job.retried
            && (if stored.None? then after.client.job.stage == Submitting(0, None, None) && after.client.job.origin.None?
                else
                  var cp := stored.value;
                  if cp.plan == plan && cp.index < |plan| && (cp.binding.None? || cp.binding == binding)
                  then after.client.job.stage == Submitting(cp.index, Some(cp.collection), Some(cp.session))
                       && after.client.job.origin == stored
                  else after.client.job.stage == Checking && after.client.job.origin.None?)
  {
  }

  // ---- submitting -----------------------------------------------------------------------------

  /**
    How a submission that resumes nothing is answered: with the session that already holds its rows,
    which is a mismatch only if that is in another collection than the one named, or with a new one.
   */
  lemma NewAnswer(l: Ledger, actor: nat, member: bool, sub: Submission)
    requires sub.resume.None? && Answerable(l, actor, member, sub)
    ensures var check, served := CheckReceipt(l, actor, Entries(sub)), Serve(l, actor, member, sub);
            && (served.Mismatch? <==> member && check.Existing? && sub.collection.Some?
                                      && l.sessions[check.session].collection != sub.collection.value)
            && (check.Existing? && served.Accepted? ==> served.session == check.session)
            && (served.Accepted? <==>
                 member
                 && (if check.Fresh? then Answer(l, l.guard.request, l.guard.used + l.guard.reserved).Some?
                     else check.Existing? && (sub.collection.None? || l.sessions[check.session].collection == sub.collection.value)))
  {
  }

  lemma SettledPhase(item: Item)
    ensures Active(item) <==> item.phase !in {Queued, Failed, Phase.Cancelled}
  {
    match item.phase
    case Pending =>
    case Uploading =>
    case Uploaded =>
    case Queued =>
    case Failed =>
    case Cancelled =>
  }

  lemma SettledAre(items: seq<Item>)
    ensures forall i: nat :: i in SettledItems(items) <==> i < |items| && items[i].phase in {Queued, Failed, Phase.Cancelled}
  {
    forall i | 0 <= i < |items| ensures Active(items[i]) <==> items[i].phase !in {Queued, Failed, Phase.Cancelled} {
      SettledPhase(items[i]);
    }
  }

  /**
    What the browser makes of the answer to a submission. An acceptance becomes the checkpoint and
    its files are sent, less those that the reply shows as settled. A mismatch begins anew if the
    upload resumed a checkpoint of the older format and has not done so before. Anything else pauses.
   */
  lemma SubmitExactly(sys: System, fate: Fate)
    requires Submits(sys.client) && Answerable(sys.ledger, sys.principal, sys.member, SubmissionOf(sys.client))
    ensures var job, next := sys.client.job, Execute(sys, SubmitReply(fate));
            var served := Serve(sys.ledger, sys.principal, sys.member, SubmissionOf(sys.client));
            if !fate.Answered? || served.Refused? then Pauses(sys.client, next.client)
            else if served.Mismatch? then
              if job.origin.Some? && job.origin.value.binding.None? && !job.retried
              then BeginsAnew(sys.client, next.client) && next.client.job.retried && next.client.job.origin.None?
              else Pauses(sys.client, next.client)
            else
              var s := served.session;
              && s < |next.ledger.sessions|
              && next.client.stored == Some(Checkpoint(job.plan, job.binding, s, next.ledger.sessions[s].collection, job.stage.index))
              && next.client.active == Some(s) && next.client.job.Job? && next.client.job.stage.Sending?
              && next.client.job == job.(stage := next.client.job.stage)
              && next.client.job.stage.index == job.stage.index && next.client.job.stage.session == s
              && forall i: nat :: i in next.client.job.stage.seen <==>
                   i < |next.ledger.sessions[s].items|
                   && next.ledger.sessions[s].items[i].phase in {Queued, Failed, Phase.Cancelled}
  {
    var served := Serve(sys.ledger, sys.principal, sys.member, SubmissionOf(sys.client));
    AcceptedExists(sys.ledger, sys.principal, sys.member, SubmissionOf(sys.client));
    if served.Accepted? {
      SettledAre(Run(sys.ledger,
                     ServeSteps(sys.ledger, sys.principal, sys.member, SubmissionOf(sys.client))).sessions[served.session].items);
    }
    hide Serve, ServeSteps, Run, Answerable, SettledItems;
  }

  // ---- finishing ------------------------------------------------------------------------------

  /** Every item is settled, and each was reported so before its turn came or has all its bytes. */
  ghost predicate Through(items: seq<Item>, seen: set<nat>) {
    forall i :: 0 <= i < |items| ==>
      items[i].phase in {Queued, Failed, Phase.Cancelled} && (i in seen || items[i].received == items[i].size)
  }

  /**
    The end of a batch: the next one is submitted into the same collection, and after the last one
    the checkpoint is cleared exactly if its session is complete or partial. Before the end, or if
    the session is not shown to whoever is signed in, nothing happens.
   */
  lemma BatchEndExactly(sys: System)
    requires Consistent(sys) && sys.client.job.Job? && sys.client.job.stage.Sending?
    ensures var client, stage, next := sys.client, sys.client.job.stage, Execute(sys, BatchDone);
            var session := sys.ledger.sessions[stage.session];
            && next == sys.(client := next.client)
            && (if !Serves(sys, stage.session) || !Through(session.items, stage.seen) then next.client == client
                else if stage.index + 1 < |client.job.plan| then
                  next.client == client.(job := client.job.(stage := Submitting(stage.index + 1, Some(session.collection), None)))
                else
                  && next.client.job.NoJob? && next.client.active == client.active
                  && next.client.stored == if session.status in {Complete, Partial} then None else client.stored)
  {
    ThroughIsSent(sys.ledger.sessions[sys.client.job.stage.session].items, sys.client.job.stage.seen);
    hide Orderly, Trusted, Selectable, AllSent, Through;
  }

  lemma ThroughIsSent(items: seq<Item>, seen: set<nat>)
    ensures Through(items, seen) <==> AllSent(items, seen)
  {
    forall i | 0 <= i < |items| ensures Active(items[i]) <==> items[i].phase !in {Queued, Failed, Phase.Cancelled} {
      SettledPhase(items[i]);
    }
  }

  /** A refused finalization shows the browser which items are settled by then, and does nothing else. */
  lemma FinalizeRefusedExactly(sys: System, item: nat)
    requires sys.client.job.Job? && sys.client.job.stage.Sending? && Serves(sys, sys.client.job.stage.session)
    requires Received(sys.ledger, sys.client.job.stage.session, item)
    ensures var stage, next := sys.client.job.stage, Execute(sys, FinalizeRefused(item));
            var items := sys.ledger.sessions[stage.session].items;
            && next.client.job.Job? && next.client.job.stage.Sending?
            && next == sys.(client := sys.client.(job := sys.client.job.(stage := stage.(seen := next.client.job.stage.seen))))
            && forall i: nat :: i in next.client.job.stage.seen <==>
                 i in stage.seen || (i < |items| && items[i].phase in {Queued, Failed, Phase.Cancelled})
  {
    SettledAre(sys.ledger.sessions[sys.client.job.stage.session].items);
    hide SettledItems;
  }

  /** A reload, a pause and the user's cancel end the upload; only a confirmed cancel takes the checkpoint with it. */
  lemma InterruptionsExactly(sys: System, event: Event)
    requires event.Reload? || event.Pause? || event.UserCancel?
    ensures var next := Execute(sys, event);
            && (event.Reload? ==> next == sys.(client := Client(sys.client.stored, None, NoJob)))
            && (event.Pause? ==> next == sys.(client := next.client) && Pauses(sys.client, next.client))
            && (event.UserCancel? && sys.client.active.Some? && !event.succeeded ==>
                 Pauses(sys.client, next.client) && next == OwnCancel(sys, sys.client.active.value, event.executed).(client := next.client))
            && (UserCancelled(sys, event) ==>
                 next.client.stored.None? && next.client.job.NoJob? && next.client.active == sys.client.active)
  {
    hide CancelNow;
  }

  // ---- the checkpoint's end -------------------------------------------------------------------

  /** What the server made of the user's request to cancel. */
  predicate UserCancelled(sys: System, event: Event) {
    && event.UserCancel? && event.succeeded && sys.client.active.Some?
    && var s := sys.client.active.value;
       var l := if event.executed && Serves(sys, s) then CancelNow(sys.ledger, s) else sys.ledger;
       s < |l.sessions| && l.sessions[s].status == Released
  }

  /** The last batch is through, and complete or partial. */
  ghost predicate LastBatchEnds(sys: System, event: Event) {
    && event.BatchDone? && sys.client.job.Job? && sys.client.job.stage.Sending?
    && Serves(sys, sys.client.job.stage.session) && sys.client.job.stage.index + 1 >= |sys.client.job.plan|
    && var session := sys.ledger.sessions[sys.client.job.stage.session];
       Through(session.items, sys.client.job.stage.seen) && session.status in {Complete, Partial}
  }

  /** A status reply that the session is over or missing, or a confirmed cancel, while another plan's checkpoint is settled. */
  predicate Settles(sys: System, event: Event)
    requires sys.client.stored.Some?
  {
    var cp := sys.client.stored.value;
    || (event.StatusReply? && StageIs(sys.client, Checking) && HonestStatus(sys, cp, event.body)
        && (Tells(event.body, cp, Complete) || Tells(event.body, cp, Partial) || Tells(event.body, cp, Released)
            || (event.body.Some? && event.body.value.code == 404)))
    || (event.CancelReply? && StageIs(sys.client, Releasing)
        && HonestStatus(OwnCancel(sys, cp.session, event.executed), cp, event.body) && Tells(event.body, cp, Released))
  }

  /** A mismatch answers the resume of an older checkpoint for the first time. */
  predicate RefusesOlder(sys: System, event: Event) {
    && event == SubmitReply(Answered) && Submits(sys.client)
    && sys.client.job.origin.Some? && sys.client.job.origin.value.binding.None? && !sys.client.job.retried
    && Answerable(sys.ledger, sys.principal, sys.member, SubmissionOf(sys.client))
    && Serve(sys.ledger, sys.principal, sys.member, SubmissionOf(sys.client)).Mismatch?
  }

  /** Over every event, the checkpoint is cleared exactly by one of these. */
  lemma ClearedExactly(sys: System, event: Event)
    requires Consistent(sys) && sys.client.stored.Some?
    ensures Execute(sys, event).client.stored.None? <==>
              Settles(sys, event) || RefusesOlder(sys, event) || LastBatchEnds(sys, event) || UserCancelled(sys, event)
  {
    match event
    case SubmitReply(fate) =>
      if Submits(sys.client) && Answerable(sys.ledger, sys.principal, sys.member, SubmissionOf(sys.client)) {
        SubmitExactly(sys, fate);
      }
      hide Consistent, Serve, ServeSteps, Run, Answerable;
    case BatchDone =>
      if sys.client.job.Job? && sys.client.job.stage.Sending? { BatchEndExactly(sys); }
      hide Consistent, Through, AllSent;
    case StatusReply(body) =>
      if StageIs(sys.client, Checking) && HonestStatus(sys, sys.client.stored.value, body) { StatusReplyExactly(sys, body); }
      hide Consistent;
    case CancelReply(executed, body) =>
      if StageIs(sys.client, Releasing)
         && HonestStatus(OwnCancel(sys, sys.client.stored.value.session, executed), sys.client.stored.value, body) {
        CancelReplyExactly(sys, executed, body);
      }
      hide Consistent, OwnCancel;
    case UserCancel(executed, succeeded) => hide Consistent, CancelNow;
    case Server(step) => hide Consistent, Apply;
    case Confirm(plan, binding, rows) => hide Consistent;
    case FinalizeRefused(item) => hide Consistent;
    case SignIn(principal, member) => hide Consistent;
    case Reload => hide Consistent;
    case Pause => hide Consistent;
  }
}
