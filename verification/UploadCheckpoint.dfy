/** What the saved checkpoint is worth: when it is given up, what it may leave behind, and what it brings back. */
module UploadCheckpoint {
  import opened Wrappers
  import opened UploadLedger
  import opened UploadAdmission
  import opened UploadRecovery

  predicate Ended(l: Ledger, s: nat) { s < |l.sessions| && l.sessions[s].status != Open }

  predicate Starts(client: Client) { client.job.Job? && client.job.stage.Submitting? }

  // ---- changed plans fail closed --------------------------------------------------------------

  /** The browser opens a session only when no open session of its checkpoint would be left behind. */
  lemma OpensOnlyWhenFree(sys: System, event: Event)
    requires Consistent(sys) && !event.Server?
    ensures |Execute(sys, event).ledger.sessions| > |sys.ledger.sessions| ==>
              && event.SubmitReply? && Submits(sys.client)
              && (sys.client.stored.Some? ==>
                   Fits(sys.client.stored.value, sys.client.job.plan, sys.client.job.binding)
                   && Ended(sys.ledger, sys.client.stored.value.session))
  {
    if event.SubmitReply? && Submits(sys.client) {
      SubmitOpens(sys, event.fate);
    } else {
      hide Orderly, Trusted, Selectable, StageOk, AllSent, Submitted, HonestStatus, BatchSent, Confirmed, StatusSeen, CancelSeen;
    }
  }

  lemma SubmitOpens(sys: System, fate: Fate)
    requires Consistent(sys) && Submits(sys.client)
    ensures |Submitted(sys, fate).ledger.sessions| > |sys.ledger.sessions| ==>
              sys.client.job.stage.resume.None?
    ensures sys.client.job.stage.resume.None? && sys.client.stored.Some? ==>
              Fits(sys.client.stored.value, sys.client.job.plan, sys.client.job.binding)
              && Ended(sys.ledger, sys.client.stored.value.session)
  {
    if sys.client.job.stage.resume.Some? {
      ResumeOpensNothing(sys.ledger, sys.principal, sys.member, SubmissionOf(sys.client));
    }
    hide Orderly, Trusted, Selectable, Serve, ServeSteps, Run, Answerable, Taken, Mismatched;
  }

  lemma ResumeOpensNothing(l: Ledger, actor: nat, member: bool, sub: Submission)
    requires sub.resume.Some?
    ensures |Run(l, ServeSteps(l, actor, member, sub)).sessions| == |l.sessions|
  {
    OneStep(l, ServeSteps(l, actor, member, sub));
  }

  /**
    While a checkpoint of another plan is being settled, new work starts only once its session is
    over or is not shown to whoever is signed in; any other reply, or none, keeps the checkpoint and
    stops. Only a cancel that the server really carried out changes the matter, whatever came back.
   */
  lemma RecoveryFailsClosed(sys: System, event: Event)
    requires Consistent(sys) && sys.client.job.Job? && sys.client.job.stage in {Checking, Releasing}
    requires event.StatusReply? || event.CancelReply? || event.Pause? || event.Reload?
    ensures var cp, next := sys.client.stored.value, Execute(sys, event);
            && (if Starts(next.client)
                then next.client.stored.None? && (Ended(next.ledger, cp.session) || !Serves(sys, cp.session))
                else next.client.stored == sys.client.stored
                     && (next.client.job.NoJob? || next.client.job.stage in {Checking, Releasing}))
            && (next.ledger == sys.ledger
                || (event.CancelReply? && event.executed && Serves(sys, cp.session)
                    && next.ledger == CancelNow(sys.ledger, cp.session)))
  {
    hide Orderly, Trusted, Selectable, CancelNow;
  }

  /** What makes new work start, exactly: a truthful end, or a session that is not shown to whoever is signed in. */
  lemma FreshStartExactly(sys: System, body: Option<Body>)
    requires Consistent(sys) && StageIs(sys.client, Checking) && HonestStatus(sys, sys.client.stored.value, body)
    ensures var cp, next := sys.client.stored.value, Execute(sys, StatusReply(body)).client;
            && (Starts(next) <==>
                 body.Some? && if Serves(sys, cp.session) then Names(body.value, cp) && sys.ledger.sessions[cp.session].status != Open
                               else body.value.code == 404)
            && (StageIs(next, Releasing) <==>
                 body.Some? && Names(body.value, cp) && sys.ledger.sessions[cp.session].status == Open)
  {
    hide Orderly, Trusted, Selectable;
  }

  // ---- resuming -------------------------------------------------------------------------------

  /**
    How a resume is answered: the checkpoint already vouches for files and collection. Under a
    receipt, a session without rows is accepted only if the receipt can take over its collection.
   */
  lemma ResumeAnswer(sys: System)
    requires Consistent(sys) && Submits(sys.client) && sys.client.job.stage.resume.Some?
    ensures var l, actor, sub, cp := sys.ledger, sys.principal, SubmissionOf(sys.client), sys.client.stored.value;
            var served, check := Serve(l, actor, sys.member, sub), CheckReceipt(l, actor, Entries(sub));
            var session := l.sessions[cp.session];
            && (served.Accepted? ==> served.session == cp.session)
            && (served.Accepted? <==>
                 sys.member && (check == Existing(cp.session)
                                || (check.Fresh? && session.owner == actor && session.status != Released
                                    && (FromReceipt(Entries(sub)) ==> Adoptable(l, cp.session, actor, sub.rows)))))
            && (served.Mismatch? <==>
                 sys.member && ((check.Existing? && check.session != cp.session)
                                || (check.Fresh? && (session.owner != actor || session.status == Released))))
  {
    hide Orderly, Selectable, CheckReceipt, Adoptable, FromReceipt, Progress;
  }

  /** A session's own receipt rows lead whoever opened it back to it, for as long as it is not cancelled. */
  lemma OwnRowsFindSession(l: Ledger, s: nat, entries: seq<Entry>)
    requires NoneTwice(l) && AsRecorded(l) && s < |l.sessions|
    requires SameFiles(l.sessions[s].items, entries) && FromReceipt(entries)
    ensures CheckReceipt(l, l.sessions[s].owner, entries) == if l.sessions[s].status != Released then Existing(s) else Invalid
  {
    var items := l.sessions[s].items;
    forall i | 0 <= i < |entries| ensures Recorded(l.receipt, l.sessions[s].owner, entries[i]) {
      assert At(l, s, i) && RowFits(l, l.sessions[s].owner, items[i]);
    }
    forall i, j | 0 <= i < j < |entries| ensures entries[i].row != entries[j].row {
      assert At(l, s, i) && At(l, s, j) && !SharesRow(items[i], items[j]);
    }
    HolderIsUnique(l, s, 0, entries[0].row.value);
    assert Rows(items) == EntryRows(entries);
    hide NoneTwice, AsRecorded, HolderOf, Recorded;
    assert entries[0].row.Some?;
  }

  /**
    A reload at any moment of a transfer loses nothing: confirming the same reviewed selection
    again comes back to the same session and batch, and the matter is left as it was.
   */
  lemma ReloadResumes(sys: System)
    requires Consistent(sys) && sys.client.job.Job? && sys.client.job.stage.Sending?
    requires var job, s := sys.client.job, sys.client.job.stage.session;
             && Serves(sys, s) && sys.ledger.sessions[s].status != Released
             && SameFiles(sys.ledger.sessions[s].items, EntriesOf(job.plan[job.stage.index], job.rows))
             && FromReceipt(EntriesOf(job.plan[job.stage.index], job.rows))
    ensures var job := sys.client.job;
            var after := Execute(Execute(Execute(sys, Reload), Confirm(job.plan, job.binding, job.rows)), SubmitReply(Answered));
            && after.ledger == sys.ledger && after.client.stored == sys.client.stored
            && after.client.active == sys.client.active && after.client.job.Job? && after.client.job.stage.Sending?
            && after.client.job.stage.index == job.stage.index && after.client.job.stage.session == job.stage.session
  {
    var again := ReloadedAt(sys);
    OwnRowsFindSession(sys.ledger, sys.client.job.stage.session, Entries(SubmissionOf(again.client)));
    ResumesAt(again, sys.client.job.stage.session);
    hide Consistent, Execute, CheckReceipt;
  }

  /** A reload and a new confirmation submit the same batch again, to be resumed. */
  lemma ReloadedAt(sys: System) returns (again: System)
    requires Consistent(sys) && sys.client.job.Job? && sys.client.job.stage.Sending?
    ensures var job, cp := sys.client.job, sys.client.stored.value;
            && again == Execute(Execute(sys, Reload), Confirm(job.plan, job.binding, job.rows))
            && again == sys.(client := again.client)
            && again.client.stored == sys.client.stored && again.client.active.None? && Submits(again.client)
            && again.client.job.plan == job.plan && again.client.job.binding == job.binding && again.client.job.rows == job.rows
            && again.client.job.stage == Submitting(job.stage.index, Some(cp.collection), Some(job.stage.session))
            && sys.ledger.sessions[job.stage.session].collection == cp.collection
            && sys.client.active == Some(job.stage.session)
            && cp == Checkpoint(job.plan, job.binding, job.stage.session, cp.collection, job.stage.index)
  {
    var job := sys.client.job;
    again := Execute(Execute(sys, Reload), Confirm(job.plan, job.binding, job.rows));
    hide Orderly, Progress, SameManifest;
  }

  /** A resume whose rows lead to its own session is accepted and changes nothing. */
  lemma ResumesAt(sys: System, s: nat)
    requires Submits(sys.client) && sys.client.job.stage.resume == Some(s) && Serves(sys, s)
    requires CheckReceipt(sys.ledger, sys.principal, Entries(SubmissionOf(sys.client))) == Existing(s)
    requires sys.client.job.stage.collection == Some(sys.ledger.sessions[s].collection)
    ensures Execute(sys, SubmitReply(Answered))
         == sys.(client := Taken(sys.client, s, sys.ledger.sessions[s]), named := sys.named + {s})
  {
    assert Run(sys.ledger, []) == sys.ledger;
    hide CheckReceipt, Taken, SettledItems;
  }

  // ---- restarting after a refused resume ------------------------------------------------------

  /** Any events at all leave a later, orderly matter. */
  lemma PlayIsLater(sys: System, events: seq<Event>)
    requires Orderly(sys.ledger)
    ensures Orderly(Play(sys, events).ledger) && Later(sys.ledger, Play(sys, events).ledger)
  {
    var steps := PlayIsRun(sys, events);
    RunHoldsNothingTwice(sys.ledger, steps);
  }

  /**
    A resume of the older format that is refused starts again from the first batch. Whatever
    happens until that is accepted, it is in a collection that did not exist when the resume was
    refused; unless a session already holds the batch's receipt rows, which then is the answer.
   */
  lemma RestartIsClean(sys: System, events: seq<Event>)
    requires Consistent(sys) && Submits(sys.client) && MayRestart(sys.client.job)
    requires Answerable(sys.ledger, sys.principal, sys.member, SubmissionOf(sys.client))
    requires Serve(sys.ledger, sys.principal, sys.member, SubmissionOf(sys.client)).Mismatch?
    requires Play(Execute(sys, SubmitReply(Answered)), events).client.job == Execute(sys, SubmitReply(Answered)).client.job
    ensures var mid := Play(Execute(sys, SubmitReply(Answered)), events);
            var after, plan := Execute(mid, SubmitReply(Answered)), sys.client.job.plan;
            && Submits(mid.client) && mid.client.job.stage == Submitting(0, None, None)
            && (after.client.job.Job? && after.client.job.stage.Sending? ==>
                 && after.client.job.stage.index == 0
                 && var s := after.client.job.stage.session;
                    var check := CheckReceipt(mid.ledger, mid.principal, EntriesOf(plan[0], sys.client.job.rows));
                    && s < |after.ledger.sessions| && SameManifest(after.ledger.sessions[s].items, plan[0])
                    && (check == Existing(s)
                        || (check == Fresh && s >= |sys.ledger.sessions|
                            && after.ledger.sessions[s].collection >= |sys.ledger.collections|)))
  {
    var restarted := Execute(sys, SubmitReply(Answered));
    var mid := Play(restarted, events);
    RestartedAt(sys);
    ExecuteKeeps(sys, SubmitReply(Answered));
    hide Consistent, Execute, Serve, Play;
    ConsistentIsOrderly(restarted);
    PlayIsLater(restarted, events);
    FirstAcceptance(mid);
    hide Orderly;
  }

  lemma ExecuteIsLater(sys: System, event: Event)
    requires Orderly(sys.ledger)
    ensures Orderly(Execute(sys, event).ledger) && Later(sys.ledger, Execute(sys, event).ledger)
  {
    hide Execute, Orderly, Later;
    var steps := ExecuteIsRun(sys, event);
    RunHoldsNothingTwice(sys.ledger, steps);
  }

  lemma RestartedStage(sys: System)
    requires Submits(sys.client) && MayRestart(sys.client.job)
    requires Answerable(sys.ledger, sys.principal, sys.member, SubmissionOf(sys.client))
    requires Serve(sys.ledger, sys.principal, sys.member, SubmissionOf(sys.client)).Mismatch?
    ensures var job, next := sys.client.job, Submitted(sys, Answered);
            && next.client.job.Job? && next.client.job.plan == job.plan && next.client.job.rows == job.rows
            && next.client.job.stage == Submitting(0, None, None)
  {
    hide Serve, ServeSteps, Run, Answerable, Taken;
  }

  lemma RestartedAt(sys: System)
    requires Consistent(sys) && Submits(sys.client) && MayRestart(sys.client.job)
    requires Answerable(sys.ledger, sys.principal, sys.member, SubmissionOf(sys.client))
    requires Serve(sys.ledger, sys.principal, sys.member, SubmissionOf(sys.client)).Mismatch?
    ensures var job, next := sys.client.job, Execute(sys, SubmitReply(Answered));
            && Later(sys.ledger, next.ledger) && next.client.job.Job? && next.client.job.plan == job.plan && job.plan != []
            && next.client.job.rows == job.rows && next.client.job.stage == Submitting(0, None, None)
  {
    ConsistentIsOrderly(sys);
    PlanIsSelectable(sys);
    assert Execute(sys, SubmitReply(Answered)) == Submitted(sys, Answered) by { hide Submitted, Apply; }
    hide *;
    ExecuteIsLater(sys, SubmitReply(Answered));
    RestartedStage(sys);
  }

  lemma PlanIsSelectable(sys: System)
    requires Consistent(sys) && sys.client.job.Job?
    ensures sys.client.job.plan != []
  {
  }

  lemma FirstAcceptance(sys: System)
    requires Orderly(sys.ledger) && Submits(sys.client) && sys.client.job.stage == Submitting(0, None, None)
    ensures var job, after := sys.client.job, Execute(sys, SubmitReply(Answered));
            after.client.job.Job? && after.client.job.stage.Sending? ==>
              && after.client.job.stage.index == 0
              && var s := after.client.job.stage.session;
                 var check := CheckReceipt(sys.ledger, sys.principal, EntriesOf(job.plan[0], job.rows));
                 && s < |after.ledger.sessions| && SameManifest(after.ledger.sessions[s].items, job.plan[0])
                 && (check == Existing(s)
                     || (check == Fresh && s == |sys.ledger.sessions| && after.ledger.sessions[s].collection == |sys.ledger.collections|))
  {
    var sub, after := SubmissionOf(sys.client), Execute(sys, SubmitReply(Answered));
    var l, actor := sys.ledger, sys.principal;
    if after.client.job.Job? && after.client.job.stage.Sending? {
      AcceptanceHolds(l, actor, sys.member, sub);
      OneStep(l, ServeSteps(l, actor, sys.member, sub));
      hide Orderly, SameManifest;
    }
  }

  predicate Restarted(before: Client, after: Client) { Starts(before) && Starts(after) && before.job != after.job }

  ghost function Restarts(sys: System, events: seq<Event>): nat
    decreases |events|
  {
    if events == [] then 0
    else (if Restarted(sys.client, Execute(sys, events[0]).client) then 1 else 0) + Restarts(Execute(sys, events[0]), events[1..])
  }

  function RestartsLeft(client: Client): nat {
    if client.job.Job? && MayRestart(client.job) then 1 else 0
  }

  /** Between two confirmations a run restarts at most once, and never for a reviewed plan. */
  lemma {:induction false} RestartsAtMostOnce(sys: System, events: seq<Event>)
    requires forall i :: 0 <= i < |events| ==> !events[i].Confirm?
    ensures Restarts(sys, events) <= RestartsLeft(sys.client)
    decreases |events|
  {
    if events != [] {
      RestartsAtMostOnce(Execute(sys, events[0]), events[1..]);
      StepUsesRestart(sys, events[0]);
    }
  }

  lemma StepUsesRestart(sys: System, event: Event)
    requires !event.Confirm?
    ensures var next := Execute(sys, event).client;
            (if Restarted(sys.client, next) then 1 else 0) + RestartsLeft(next) <= RestartsLeft(sys.client)
  {
    hide Apply, Serve, ServeSteps, Run, Answerable, HonestStatus, CancelNow, AllSent, SettledItems, Received;
  }

  // ---- what a given-up checkpoint leaves behind -----------------------------------------------

  /** The reply says that the session is missing, and to whoever is signed in it is. */
  predicate SaysMissing(sys: System, event: Event) {
    && event.StatusReply? && event.body.Some? && event.body.value.code == 404
    && StageIs(sys.client, Checking) && sys.client.stored.Some? && !Serves(sys, sys.client.stored.value.session)
  }

  /** A resume of the older format by somebody else, or under rows that another session holds. */
  predicate RefusedForGood(sys: System, event: Event) {
    && event == SubmitReply(Answered) && Submits(sys.client) && sys.client.stored.Some?
    && sys.client.job.stage.resume.Some? && MayRestart(sys.client.job) && sys.member
    && var s := sys.client.stored.value.session;
       var check := CheckReceipt(sys.ledger, sys.principal, Entries(SubmissionOf(sys.client)));
       s < |sys.ledger.sessions|
       && ((check.Existing? && check.session != s) || (check.Fresh? && sys.ledger.sessions[s].owner != sys.principal))
  }

  /** The checkpoint no longer names this session, though it is still open. */
  predicate Abandoned(sys: System, s: nat) {
    s < |sys.ledger.sessions| && sys.ledger.sessions[s].status == Open
    && (sys.client.stored.Some? ==> sys.client.stored.value.session != s)
  }

  /**
    An event leaves the checkpoint's session open with nobody naming it exactly when the session is
    open and, to whoever is signed in, is missing, or cannot be resumed from an older checkpoint.
   */
  lemma LeftBehindExactly(sys: System, event: Event)
    requires Consistent(sys) && sys.client.stored.Some?
    ensures var s := sys.client.stored.value.session;
            Abandoned(Execute(sys, event), s) <==>
              sys.ledger.sessions[s].status == Open && (SaysMissing(sys, event) || RefusedForGood(sys, event))
  {
    if event.SubmitReply? && Submits(sys.client) {
      SubmitLeavesBehind(sys, event.fate);
    } else {
      hide Orderly, Selectable, Progress, SameManifest, Apply, AllSent, Submitted;
      EndedStays(sys, event, sys.client.stored.value.session);
    }
  }

  /** Over any event a session that has ended has still ended. */
  lemma EndedStays(sys: System, event: Event, s: nat)
    requires Orderly(sys.ledger)
    ensures s < |sys.ledger.sessions| ==> s < |Execute(sys, event).ledger.sessions|
    ensures Ended(sys.ledger, s) ==> Ended(Execute(sys, event).ledger, s)
  {
    var steps := ExecuteIsRun(sys, event);
    RunHoldsNothingTwice(sys.ledger, steps);
    var after := Execute(sys, event).ledger;
    hide Execute, Orderly;
    if Ended(sys.ledger, s) {
      assert SessionEvolves(sys.ledger.sessions[s], after.sessions[s]);
    }
  }

  lemma ServeKeepsStatus(l: Ledger, actor: nat, member: bool, sub: Submission, s: nat)
    requires s < |l.sessions|
    ensures var after := Run(l, ServeSteps(l, actor, member, sub));
            s < |after.sessions| && after.sessions[s].status == l.sessions[s].status
  {
    OneStep(l, ServeSteps(l, actor, member, sub));
  }

  lemma SubmitLeavesBehind(sys: System, fate: Fate)
    requires Consistent(sys) && sys.client.stored.Some? && Submits(sys.client)
    ensures var s := sys.client.stored.value.session;
            Abandoned(Submitted(sys, fate), s) <==> sys.ledger.sessions[s].status == Open && RefusedForGood(sys, SubmitReply(fate))
  {
    var sub, s := SubmissionOf(sys.client), sys.client.stored.value.session;
    ServeKeepsStatus(sys.ledger, sys.principal, sys.member, sub, s);
    if sub.resume.Some? {
      ResumeAnswer(sys);
      hide Serve, ServeSteps, Run, CheckReceipt, Orderly, Trusted, Answer, Adoptable, FromReceipt;
      assert Answerable(sys.ledger, sys.principal, sys.member, sub);
    } else {
      hide Serve, ServeSteps, Run, CheckReceipt, Orderly, Trusted, Answer;
    }
  }

  /** Every session that the checkpoint ever named is still named, is over, or was let go. */
  ghost predicate Remembered(sys: System) {
    forall s :: s in sys.named ==>
      s < |sys.ledger.sessions|
      && ((sys.client.stored.Some? && sys.client.stored.value.session == s) || Ended(sys.ledger, s) || s in sys.dropped)
  }

  /** The histories only grow; a session newly named is the checkpoint's, and one let go was its. */
  lemma HistoryGrows(sys: System, event: Event)
    requires Consistent(sys)
    ensures var after := Execute(sys, event);
            && sys.dropped <= after.dropped
            && (forall s :: s in after.named ==>
                 s in sys.named || (after.client.stored.Some? && after.client.stored.value.session == s))
            && (sys.client.stored.Some? && (SaysMissing(sys, event) || RefusedForGood(sys, event)) ==>
                 sys.client.stored.value.session in after.dropped)
  {
    if event.SubmitReply? && Submits(sys.client) {
      SubmitHistory(sys, event.fate);
    } else {
      hide Orderly, Selectable, Trusted, Apply, AllSent, Submitted, CancelNow, CheckReceipt;
    }
  }

  lemma SubmitHistory(sys: System, fate: Fate)
    requires Consistent(sys) && Submits(sys.client)
    ensures var after := Submitted(sys, fate);
            && sys.dropped <= after.dropped
            && (forall s :: s in after.named ==>
                 s in sys.named || (after.client.stored.Some? && after.client.stored.value.session == s))
            && (sys.client.stored.Some? && RefusedForGood(sys, SubmitReply(fate)) ==>
                 sys.client.stored.value.session in after.dropped)
  {
    if sys.client.job.stage.resume.Some? {
      ResumeAnswer(sys);
    }
    hide Serve, ServeSteps, Run, CheckReceipt, Orderly, Trusted, Answer, Adoptable, FromReceipt;
  }

  lemma ExecuteRemembers(sys: System, event: Event)
    requires Consistent(sys) && Remembered(sys)
    ensures Remembered(Execute(sys, event))
  {
    var after := Execute(sys, event);
    ExecuteKeeps(sys, event);
    HistoryGrows(sys, event);
    if sys.client.stored.Some? {
      LeftBehindExactly(sys, event);
    }
    ConsistentIsOrderly(sys);
    forall s | s in after.named
      ensures s < |after.ledger.sessions|
              && ((after.client.stored.Some? && after.client.stored.value.session == s) || Ended(after.ledger, s) || s in after.dropped)
    {
      EndedStays(sys, event, s);
      StoredExists(after);
      hide Consistent, Execute, SaysMissing, RefusedForGood;
    }
  }

  lemma StoredExists(sys: System)
    requires Consistent(sys)
    ensures sys.client.stored.Some? ==> sys.client.stored.value.session < |sys.ledger.sessions|
  {
  }

  lemma {:induction false} PlayRemembers(sys: System, events: seq<Event>)
    requires Consistent(sys) && Remembered(sys)
    ensures Consistent(Play(sys, events)) && Remembered(Play(sys, events))
    decreases |events|
  {
    if events != [] {
      ExecuteKeeps(sys, events[0]);
      ExecuteRemembers(sys, events[0]);
      hide Consistent, Remembered, Execute;
      PlayRemembers(Execute(sys, events[0]), events[1..]);
    }
  }

  /**
    At this event the checkpoint named the session and was given up: it was reported missing, or a
    restart came from an older checkpoint.
   */
  ghost predicate GivenUpAt(sys: System, events: seq<Event>, k: nat, s: nat) {
    k < |events|
    && var before := Play(sys, events[..k]);
       && before.client.stored.Some? && before.client.stored.value.session == s
       && (SaysMissing(before, events[k])
           || (events[k] == SubmitReply(Answered) && Submits(before.client) && MayRestart(before.client.job)))
  }

  /** A session is let go only by such an event. */
  lemma {:induction false} LetGoByAnEvent(sys: System, events: seq<Event>, s: nat)
    requires s in Play(sys, events).dropped && s !in sys.dropped
    ensures exists k: nat :: GivenUpAt(sys, events, k, s)
    decreases |events|
  {
    var next := Execute(sys, events[0]);
    if s in next.dropped {
      DroppedNow(sys, events[0], s);
      assert events[..0] == [];
      assert GivenUpAt(sys, events, 0, s);
    } else {
      hide Execute, SaysMissing, MayRestart, Submits;
      LetGoByAnEvent(next, events[1..], s);
      var j: nat :| GivenUpAt(next, events[1..], j, s);
      assert events[..j + 1][0] == events[0] && events[..j + 1][1..] == events[1..][..j];
      assert GivenUpAt(sys, events, j + 1, s);
    }
  }

  lemma DroppedNow(sys: System, event: Event, s: nat)
    requires s in Execute(sys, event).dropped && s !in sys.dropped
    ensures sys.client.stored.Some? && sys.client.stored.value.session == s
    ensures SaysMissing(sys, event) || (event == SubmitReply(Answered) && Submits(sys.client) && MayRestart(sys.client.job))
  {
    hide Apply, Serve, ServeSteps, Run, Answerable, AllSent, SettledItems, Received, CancelNow, BatchSent, Confirmed;
  }

  /**
    In every run, a session that the checkpoint ever named still reserves bytes only if the
    checkpoint still names it, or was given up over it by an event that `LeftBehindExactly` describes.
   */
  lemma NoReservationForgotten(quota: nat, receipt: seq<Row>, events: seq<Event>, s: nat)
    ensures var sys := Play(FirstVisit(quota, receipt), events);
            s in sys.named ==>
              s < |sys.ledger.sessions|
              && (Sum(sys.ledger.sessions[s].items, Reserved) > 0 ==>
                   || (sys.client.stored.Some? && sys.client.stored.value.session == s)
                   || exists k: nat :: GivenUpAt(FirstVisit(quota, receipt), events, k, s))
  {
    var start := FirstVisit(quota, receipt);
    var sys := Play(start, events);
    PlayRemembers(start, events);
    if s in sys.named {
      if Ended(sys.ledger, s) {
        assert SoundSession(sys.ledger.sessions[s]);
        NothingReserved(sys.ledger.sessions[s].items);
      } else if s in sys.dropped {
        LetGoByAnEvent(start, events, s);
      }
    }
  }
}
