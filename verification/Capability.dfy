/**
 Media capability requests: a request row, the attachment that shows it in a chat, the job that runs
 it and its audit log, which move together.

 The callbacks a job carries run inside the job's own transactions, so a `Transact` step is a
 transaction of `JobStore` together with the callback that it committed.
 */
module Capability {
  import opened Common
  import J = JobStore

  datatype Status = PendingConfirmation | Queued | Running | Completed | Failed | Cancelled | Denied | Expired {
    predicate Terminal() {
      Completed? || Failed? || Cancelled? || Denied? || Expired?
    }

    // A job exists only for a request that has been queued.
    predicate HasJob() {
      !PendingConfirmation? && !Denied? && !Expired?
    }
  }

  function Legal(from: Status): set<Status> {
    match from
    case PendingConfirmation => {Queued, Denied, Cancelled, Expired}
    case Queued => {Running, Failed, Cancelled}
    case Running => {Completed, Failed, Cancelled}
    case _ => {}
  }

  // What the attachment row says: a request status, or that it was replaced by a retry
  datatype Shown = Shows(status: Status) | Retried

  datatype Attachment = Attachment(shown: Shown, mediaId: Option<string>, retryAvailable: bool)

  datatype Action = Requests | Enqueues | Approves | Denies | Starts | Completes | Fails | Cancels | Retries

  datatype Event = Event(action: Action, from: Option<Status>, to: Status)

  datatype Request = Request(
    status: Status, errorCode: Option<string>, result: Option<string>, image: bool, inChat: bool, retryOf: Option<nat>)

  datatype Record = Record(request: Request, attachment: Option<Attachment>, job: Option<J.Job>, events: seq<Event>)

  datatype Error = Conflict | NotFound

  function Display(status: Status): Status {
    match status
    case PendingConfirmation => Queued
    case Denied => Cancelled
    case Expired => Cancelled
    case _ => status
  }

  // `_sync_attachment`
  function Sync(a: Attachment, to: Status, result: Option<string>): Attachment {
    var shown := a.(shown := Shows(Display(to)),
                    mediaId := if result == None then a.mediaId else if result == Some("") then None else result);
    if to == Failed || to == Cancelled then shown.(retryAvailable := true)
    else if to.Terminal() then shown.(retryAvailable := false)
    else shown
  }

  // `transition_capability`; no record when it raises
  function Transition(r: Record, to: Status, action: Action, code: Option<string>, result: Option<string>)
    : Option<Record>
  {
    var from := r.request.status;
    if to != from && to !in Legal(from) then None
    else
      Some(r.(request := r.request.(status := to, errorCode := code,
                                    result := if result.Some? then result else r.request.result),
              attachment := if r.attachment.Some? then Some(Sync(r.attachment.value, to, result)) else None,
              events := r.events + [Event(action, Some(from), to)]))
  }

  const ENQUEUED: Event := Event(Enqueues, Some(Queued), Queued)

  function WithJob(r: Record): Record {
    r.(job := Some(J.NewJob(false)), events := r.events + [ENQUEUED])
  }

  function Bare(request: Request, attached: bool): Record {
    Record(request, if attached then Some(Attachment(Shows(Queued), None, false)) else None, None,
           [Event(Requests, None, request.status)])
  }

  // The media plan of a new request; a blocked one may name a reason
  datatype Plan = Ready | Blocked(code: string) {
    function Code(): Option<string> {
      if Ready? then None else Some(if code == "" then "plan_blocked" else code)
    }
  }

  // A new request: automatic ones are queued with a job if their plan is ready and failed if it is not.
  function Created(request: Request, attached: bool, plan: Plan): Record
    requires request.status == Queued || request.status == PendingConfirmation
  {
    var r := Bare(request, attached);
    if request.status == PendingConfirmation then r
    else if plan.Ready? then WithJob(r)
    else Transition(r, Failed, Fails, plan.Code(), None).value
  }

  // ---------------------------------------------------------------------------
  // The user's operations

  function Approve(r: Record): Result<Record, Error> {
    if r.request.image then Err(Conflict)
    else match r.request.status
      case PendingConfirmation => Ok(WithJob(Transition(r, Queued, Approves, None, None).value))
      case Queued => Ok(r)
      case Running => Ok(r)
      case Completed => Ok(r)
      case _ => Err(Conflict)
  }

  function Deny(r: Record): Result<Record, Error> {
    match r.request.status
    case PendingConfirmation => Ok(Transition(r, Denied, Denies, None, None).value)
    case Denied => Ok(r)
    case _ => Err(Conflict)
  }

  // The record after the request's own transaction, and whether its job is cancelled next
  function Cancel(r: Record): (Record, bool) {
    match r.request.status
    case PendingConfirmation => (Transition(r, Cancelled, Cancels, None, None).value, false)
    case Queued => (r, r.job.Some?)
    case Running => (r, r.job.Some?)
    case _ => (r, false)
  }

  function FailSubmission(r: Record): Record {
    if r.request.status == Queued then Transition(r, Failed, Fails, Some("submission_failed"), None).value else r
  }

  predicate CanRetry(r: Record) {
    r.attachment.Some? && r.attachment.value.retryAvailable && r.request.status in {Failed, Cancelled}
  }

  function Replaced(r: Record): Record
    requires CanRetry(r)
  {
    var status := r.request.status;
    r.(attachment := Some(r.attachment.value.(shown := Retried, retryAvailable := false)),
       events := r.events + [Event(Retries, Some(status), status)])
  }

  // The original and the new record
  function Retry(r: Record, id: nat, chatExists: bool, plan: Plan): Result<(Record, Record), Error> {
    if !CanRetry(r) then Err(Conflict)
    else if !r.request.image || !r.request.inChat then Err(Conflict)
    else if !chatExists then Err(NotFound)
    else Ok((Replaced(r), Created(Request(Queued, None, None, true, true, Some(id)), true, plan)))
  }

  // ---------------------------------------------------------------------------
  // The callbacks of `_submit`

  function Call(r: Record, c: J.Callback, code: string, media: string): Option<Record> {
    var status := r.request.status;
    match c
    case OnStart => if status == Queued then Transition(r, Running, Starts, None, None) else Some(r)
    case OnSuccess => if status == Running then Transition(r, Completed, Completes, None, Some(media)) else Some(r)
    case OnFailure => if !status.Terminal() then Transition(r, Failed, Fails, Some(code), None) else Some(r)
    case OnCancel => if !status.Terminal() then Transition(r, Cancelled, Cancels, None, None) else Some(r)
  }

  function CodeOf(t: J.Transaction): string {
    if t.DoFail? then t.code else ""
  }

  // The callback that ran inside the transaction
  function Ran(before: J.Job, after: J.Job): Option<J.Callback> {
    if |after.committed| <= |before.committed| then None else Some(after.committed[|after.committed| - 1])
  }

  // A job transaction with the callback it runs; a callback that raises rolls all of it back.
  function Transact(r: Record, t: J.Transaction, media: string): Record
    requires r.job.Some?
  {
    var after := J.Apply(r.job.value, t);
    var ran := Ran(r.job.value, after);
    if ran == None then r.(job := Some(after))
    else
      var called := Call(r.(job := Some(after)), ran.value, CodeOf(t), media);
      if called.Some? then called.value else r
  }

  datatype Step =
    | Approving | Denying | Cancelling | FailingSubmission
    | Transacting(t: J.Transaction, media: string) | Replacing

  // A job completes at most once: one worker runs it.
  predicate Enabled(r: Record, s: Step) {
    match s
    case Transacting(t, _) => r.job.Some? && (t.DoComplete? ==> r.job.value.row.status != J.Completed)
    case Replacing => CanRetry(r)
    case _ => true
  }

  function OrSame(r: Record, result: Result<Record, Error>): Record {
    if result.Ok? then result.value else r
  }

  function Next(r: Record, s: Step): Record
    requires Enabled(r, s)
  {
    match s
    case Approving => OrSame(r, Approve(r))
    case Denying => OrSame(r, Deny(r))
    case Cancelling => Cancel(r).0
    case FailingSubmission => FailSubmission(r)
    case Transacting(t, media) => Transact(r, t, media)
    case Replacing => Replaced(r)
  }

  // ---------------------------------------------------------------------------
  // Invariants of one record

  // The log begins with the request's creation, each event starts where the last one ended, every
  // change is a legal one, and the last event ends at the request's status.
  predicate Chained(events: seq<Event>, status: Status) {
    && events != [] && events[0].from == None
    && (forall i :: 0 < i < |events| ==>
          events[i].from == Some(events[i - 1].to) &&
          (events[i].to == events[i - 1].to || events[i].to in Legal(events[i - 1].to)))
    && events[|events| - 1].to == status
  }

  predicate AttachmentFits(r: Record) {
    r.attachment.Some? ==>
      var a, status := r.attachment.value, r.request.status;
      && (a.shown == Retried || a.shown == Shows(Display(status)))
      && (a.shown == Retried ==> status in {Failed, Cancelled})
      && (a.retryAvailable <==> status in {Failed, Cancelled} && a.shown != Retried)
  }

  ghost predicate JobFits(r: Record) {
    if r.job.Some? then J.Consistent(r.job.value) && r.job.value.turn == None && r.request.status.HasJob()
    else r.request.status !in {Queued, Running, Completed}
  }

  ghost predicate Inv(r: Record) {
    Chained(r.events, r.request.status) && AttachmentFits(r) && JobFits(r)
  }

  function OfJob(status: J.Status): Status {
    match status
    case Queued => Queued
    case Running => Running
    case Completed => Completed
    case Failed => Failed
    case Cancelled => Cancelled
  }

  predicate Agrees(r: Record) {
    r.job.Some? ==> r.request.status == OfJob(r.job.value.row.status)
  }

  lemma ChainMore(events: seq<Event>, status: Status, e: Event)
    requires Chained(events, status) && e.from == Some(status) && (e.to == status || e.to in Legal(status))
    ensures Chained(events + [e], e.to)
  {
  }

  lemma TransitionKeeps(r: Record, to: Status, action: Action, code: Option<string>, result: Option<string>)
    requires Chained(r.events, r.request.status) && AttachmentFits(r)
    requires to in Legal(r.request.status)
    ensures var moved := Transition(r, to, action, code, result);
            && moved.Some? && moved.value.request.status == to && moved.value.job == r.job
            && Chained(moved.value.events, to) && AttachmentFits(moved.value)
  {
    ChainMore(r.events, r.request.status, Event(action, Some(r.request.status), to));
    hide Chained;
  }

  /** No callback ever raises, and each keeps the log and the attachment in step. */
  lemma CallKeeps(r: Record, c: J.Callback, code: string, media: string)
    requires Chained(r.events, r.request.status) && AttachmentFits(r) && r.request.status.HasJob()
    ensures var called := Call(r, c, code, media);
            && called.Some? && called.value.job == r.job && called.value.request.status.HasJob()
            && Chained(called.value.events, called.value.request.status) && AttachmentFits(called.value)
  {
    match c {
      case OnStart => if r.request.status == Queued { TransitionKeeps(r, Running, Starts, None, None); }
      case OnSuccess => if r.request.status == Running { TransitionKeeps(r, Completed, Completes, None, Some(media)); }
      case OnFailure => if !r.request.status.Terminal() { TransitionKeeps(r, Failed, Fails, Some(code), None); }
      case OnCancel => if !r.request.status.Terminal() { TransitionKeeps(r, Cancelled, Cancels, None, None); }
    }
    hide Chained, AttachmentFits, Transition;
  }

  lemma TransactKeeps(r: Record, t: J.Transaction, media: string)
    requires Inv(r) && Enabled(r, Transacting(t, media))
    ensures Inv(Transact(r, t, media))
    ensures Transact(r, t, media).job == Some(J.Apply(r.job.value, t))
  {
    J.TransactionKeepsConsistent(r.job.value, t);
    J.TransactionKeepsTurn(r.job.value, t);
    var after := J.Apply(r.job.value, t);
    var ran := Ran(r.job.value, after);
    if ran.Some? {
      CallKeeps(r.(job := Some(after)), ran.value, CodeOf(t), media);
    }
    hide Chained, AttachmentFits, J.Consistent, J.Apply, Call, Ran;
  }

  lemma ReplacedKeeps(r: Record)
    requires Inv(r) && CanRetry(r)
    ensures Inv(Replaced(r))
  {
    ChainMore(r.events, r.request.status, Event(Retries, Some(r.request.status), r.request.status));
    hide Chained, J.Consistent;
  }

  lemma WithJobKeeps(r: Record)
    requires Chained(r.events, Queued) && AttachmentFits(r) && r.request.status == Queued
    ensures Inv(WithJob(r))
  {
    ChainMore(r.events, Queued, ENQUEUED);
    J.NewIsConsistent(false);
    hide Chained, J.Consistent;
  }

  lemma CreatedInv(request: Request, attached: bool, plan: Plan)
    requires request.status == Queued || request.status == PendingConfirmation
    ensures Inv(Created(request, attached, plan)) && Agrees(Created(request, attached, plan))
  {
    var r := Bare(request, attached);
    assert Chained(r.events, request.status);
    if request.status == Queued {
      if plan.Ready? {
        WithJobKeeps(r);
      } else {
        TransitionKeeps(r, Failed, Fails, plan.Code(), None);
      }
    }
    hide Chained, J.Consistent;
  }

  lemma ApproveKeeps(r: Record)
    requires Inv(r) && Approve(r).Ok?
    ensures Inv(Approve(r).value) && (Agrees(r) ==> Agrees(Approve(r).value))
  {
    if r.request.status == PendingConfirmation {
      TransitionKeeps(r, Queued, Approves, None, None);
      WithJobKeeps(Transition(r, Queued, Approves, None, None).value);
    }
    hide Chained, J.Consistent, AttachmentFits, Transition;
  }

  lemma PendingKeeps(r: Record)
    requires Inv(r)
    ensures Deny(r).Ok? ==> Inv(Deny(r).value) && (Agrees(r) ==> Agrees(Deny(r).value))
    ensures Inv(Cancel(r).0) && (Agrees(r) ==> Agrees(Cancel(r).0))
  {
    if r.request.status == PendingConfirmation {
      TransitionKeeps(r, Denied, Denies, None, None);
      TransitionKeeps(r, Cancelled, Cancels, None, None);
    }
    hide Chained, J.Consistent, AttachmentFits, Transition;
  }

  lemma FailSubmissionKeeps(r: Record)
    requires Inv(r)
    ensures Inv(FailSubmission(r)) && FailSubmission(r).job == r.job
    ensures FailSubmission(r).request.status == if r.request.status == Queued then Failed else r.request.status
  {
    if r.request.status == Queued {
      TransitionKeeps(r, Failed, Fails, Some("submission_failed"), None);
    }
    hide Chained, J.Consistent, AttachmentFits, Transition;
  }

  /** Every step keeps the log chained, the attachment a fixed function of the request's status unless it
      was retried, and retry offered exactly for failed and cancelled requests not yet retried. */
  lemma StepKeepsInv(r: Record, s: Step)
    requires Inv(r) && Enabled(r, s)
    ensures Inv(Next(r, s))
  {
    hide Inv, Approve, Deny, Cancel, FailSubmission, Transact, Replaced;
    match s
    case Approving => if Approve(r).Ok? { ApproveKeeps(r); }
    case Denying => PendingKeeps(r);
    case Cancelling => PendingKeeps(r);
    case FailingSubmission => FailSubmissionKeeps(r);
    case Transacting(t, media) => TransactKeeps(r, t, media);
    case Replacing => ReplacedKeeps(r);
  }

  // ---------------------------------------------------------------------------
  // Request and job agree

  // The status a callback leaves a request in
  function After(status: Status, c: J.Callback): Status {
    match c
    case OnStart => if status == Queued then Running else status
    case OnSuccess => if status == Running then Completed else status
    case OnFailure => if status.Terminal() then status else Failed
    case OnCancel => if status.Terminal() then status else Cancelled
  }

  lemma CallStatus(r: Record, c: J.Callback, code: string, media: string)
    requires Call(r, c, code, media).Some?
    ensures Call(r, c, code, media).value.request.status == After(r.request.status, c)
  {
  }

  // A cancel that found no execution entry has no callback to run.
  predicate Unheard(t: J.Transaction) {
    (t.DoCancel? || t.DoCancelTerminal?) && !t.registered
  }

  // The job's status moves as the callback that ran moves the request's, and stays if none ran; only a
  // cancel that found no execution entry moves it without a callback.
  lemma ApplyStatus(job: J.Job, t: J.Transaction)
    requires job.turn == None
    ensures var after := J.Apply(job, t);
            var ran, from, to := Ran(job, after), OfJob(job.row.status), OfJob(after.row.status);
            if Unheard(t) then ran == None && to == (if from.Terminal() then from else Cancelled)
            else if ran == None then to == from else to == After(from, ran.value)
  {
  }

  /** A job transaction keeps request and job in agreement exactly when it is not a cancel, of a job still
      open, that found no execution entry. */
  lemma AgreementIff(r: Record, t: J.Transaction, media: string)
    requires Inv(r) && Agrees(r) && Enabled(r, Transacting(t, media))
    ensures Agrees(Transact(r, t, media)) <==>
              !(Unheard(t) && !r.job.value.row.status.Terminal())
  {
    TransactKeeps(r, t, media);
    ApplyStatus(r.job.value, t);
    var after := J.Apply(r.job.value, t);
    var ran := Ran(r.job.value, after);
    if ran.Some? {
      CallKeeps(r.(job := Some(after)), ran.value, CodeOf(t), media);
      CallStatus(r.(job := Some(after)), ran.value, CodeOf(t), media);
    }
    hide Inv, J.Apply, Call, Ran;
  }

  /** Failing a queued submission leaves its job behind exactly when there is one. */
  lemma FailSubmissionIff(r: Record)
    requires Inv(r) && Agrees(r)
    ensures Agrees(FailSubmission(r)) <==> r.request.status != Queued || r.job == None
  {
    FailSubmissionKeeps(r);
    hide Chained, AttachmentFits, J.Consistent, FailSubmission;
  }

  // A run of one record from its creation
  ghost predicate IsRun(records: seq<Record>, steps: seq<Step>) {
    && |records| == |steps| + 1
    && Inv(records[0]) && Agrees(records[0])
    && forall i :: 0 <= i < |steps| ==> Enabled(records[i], steps[i]) && records[i + 1] == Next(records[i], steps[i])
  }

  // The two steps that move only one of request and job
  predicate Splits(r: Record, s: Step) {
    match s
    case Transacting(t, _) => r.job.Some? && Unheard(t) && !r.job.value.row.status.Terminal()
    case FailingSubmission => r.job.Some? && r.request.status == Queued
    case _ => false
  }

  lemma StepAgreesIff(r: Record, s: Step)
    requires Inv(r) && Agrees(r) && Enabled(r, s)
    ensures Agrees(Next(r, s)) <==> !Splits(r, s)
  {
    hide Inv, Approve, Deny, Cancel, FailSubmission, Transact, Agrees;
    match s
    case Approving => if Approve(r).Ok? { ApproveKeeps(r); }
    case Denying => PendingKeeps(r);
    case Cancelling => PendingKeeps(r);
    case FailingSubmission => FailSubmissionIff(r);
    case Transacting(t, media) => AgreementIff(r, t, media);
    case Replacing => ReplacedAgrees(r);
  }

  lemma ReplacedAgrees(r: Record)
    requires CanRetry(r) && Agrees(r)
    ensures Agrees(Replaced(r))
  {
  }

  /** Along every run the record is consistent, and request and job have equal statuses as long as no
      step has split them. */
  lemma {:induction false} RunAgrees(records: seq<Record>, steps: seq<Step>, k: nat)
    requires IsRun(records, steps) && k < |records|
    ensures Inv(records[k])
    ensures (forall i :: 0 <= i < k ==> !Splits(records[i], steps[i])) ==> Agrees(records[k])
  {
    hide Inv, Agrees, Enabled, Next, Splits;
    if k > 0 {
      RunAgrees(records, steps, k - 1);
      assert Enabled(records[k - 1], steps[k - 1]) && records[k] == Next(records[k - 1], steps[k - 1]);
      StepKeepsInv(records[k - 1], steps[k - 1]);
      if forall i :: 0 <= i < k ==> !Splits(records[i], steps[i]) {
        StepAgreesIff(records[k - 1], steps[k - 1]);
      }
    }
  }

  // A new request for an image, queued with its job
  const QUEUED_IMAGE: Record := Created(Request(Queued, None, None, true, true, None), true, Ready)

  // What the run of one step does to a new image request
  ghost predicate SplitsNew(records: seq<Record>, steps: seq<Step>) {
    && IsRun(records, steps) && |steps| == 1
    && records[0] == QUEUED_IMAGE && Splits(records[0], steps[0]) && !Agrees(records[1])
  }

  /** Both ways of splitting happen to a new request. A cancel call that read no execution entry, because the
      job was not registered yet, ends the job and leaves its request queued. */
  lemma EarlyCancelSplits() returns (records: seq<Record>, steps: seq<Step>)
    ensures SplitsNew(records, steps)
    ensures records[1].request.status == Queued && records[1].job.value.row.status == J.Cancelled
  {
    var step := Transacting(J.DoCancel(false, 0, false), "");
    records, steps := [QUEUED_IMAGE, Next(QUEUED_IMAGE, step)], [step];
    CreatedInv(Request(Queued, None, None, true, true, None), true, Ready);
    ApplyStatus(QUEUED_IMAGE.job.value, J.DoCancel(false, 0, false));
    hide Inv;
  }

  /** A submission that fails ends the request and leaves its job queued. */
  lemma FailedSubmissionSplits() returns (records: seq<Record>, steps: seq<Step>)
    ensures SplitsNew(records, steps)
    ensures records[1].request.status == Failed && records[1].job.value.row.status == J.Queued
  {
    records, steps := [QUEUED_IMAGE, Next(QUEUED_IMAGE, FailingSubmission)], [FailingSubmission];
    CreatedInv(Request(Queued, None, None, true, true, None), true, Ready);
    hide Inv;
  }

  // An error code is on exactly the failed requests, and a completed one shows the media of its result.
  predicate ShowsOutcome(r: Record) {
    && (r.request.errorCode.Some? <==> r.request.status == Failed)
    && (r.request.status == Completed ==>
          && r.request.result.Some?
          && (r.attachment.Some? ==>
                r.attachment.value.mediaId == if r.request.result == Some("") then None else r.request.result))
  }

  lemma TransactShowsOutcome(r: Record, t: J.Transaction, media: string)
    requires ShowsOutcome(r) && r.job.Some?
    ensures ShowsOutcome(Transact(r, t, media))
  {
    hide J.Apply, Ran;
  }

  /** Every step keeps an error code on exactly the failed requests, and a completed request's attachment
      shows the media of its result. */
  lemma StepShowsOutcome(r: Record, s: Step)
    requires ShowsOutcome(r) && Enabled(r, s)
    ensures ShowsOutcome(Next(r, s))
  {
    if s.Transacting? { TransactShowsOutcome(r, s.t, s.media); }
    hide Transact;
  }

  // ---------------------------------------------------------------------------
  // What each operation brings about

  // The request has moved: its new status is in the request, in one more event and on the attachment, where it
  // offers a retry exactly if the request failed or was cancelled, and none once it ended otherwise.
  predicate Moved(r: Record, q: Record, to: Status, action: Action, code: Option<string>) {
    && q.request == r.request.(status := to, errorCode := code, result := q.request.result) && q.job == r.job
    && q.events == r.events + [Event(action, Some(r.request.status), to)]
    && (q.attachment.Some? <==> r.attachment.Some?)
    && (q.attachment.Some? ==>
          var before, after := r.attachment.value, q.attachment.value;
          && after.shown == Shows(if to == PendingConfirmation then Queued
                                  else if to == Denied || to == Expired then Cancelled else to)
          && (to == Failed || to == Cancelled ==> after.retryAvailable)
          && (to == Completed || to == Denied || to == Expired ==> !after.retryAvailable)
          && (to == Queued || to == Running ==> after.retryAvailable == before.retryAvailable))
  }

  predicate SameResult(r: Record, q: Record) {
    q.request.result == r.request.result &&
    (r.attachment.Some? && q.attachment.Some? ==> q.attachment.value.mediaId == r.attachment.value.mediaId)
  }

  // The statuses from which a request gets into this one
  predicate LeadsTo(from: Status, to: Status) {
    match to
    case PendingConfirmation => false
    case Queued => from == PendingConfirmation
    case Running => from == Queued
    case Completed => from == Running
    case Failed => from == Queued || from == Running
    case Cancelled => from == PendingConfirmation || from == Queued || from == Running
    case Denied => from == PendingConfirmation
    case Expired => from == PendingConfirmation
  }

  lemma LegalIff(from: Status, to: Status)
    ensures to in Legal(from) <==> LeadsTo(from, to)
  {
    match from
    case PendingConfirmation =>
    case Queued =>
    case Running =>
    case _ =>
  }

  lemma SyncShows(a: Attachment, to: Status, result: Option<string>)
    ensures var after := Sync(a, to, result);
            && after.shown == Shows(if to == PendingConfirmation then Queued
                                    else if to == Denied || to == Expired then Cancelled else to)
            && (to == Failed || to == Cancelled ==> after.retryAvailable)
            && (to == Completed || to == Denied || to == Expired ==> !after.retryAvailable)
            && (to == Queued || to == Running ==> after.retryAvailable == a.retryAvailable)
  {
  }

  /** A transition is refused exactly if it changes the status and no such step exists; otherwise request, attachment
      and log show the new status with its code, and a result that is given replaces the one before. */
  lemma TransitionDoes(r: Record, to: Status, action: Action, code: Option<string>, result: Option<string>)
    ensures var q := Transition(r, to, action, code, result);
            && (q.Some? <==> to == r.request.status || LeadsTo(r.request.status, to))
            && (q.Some? ==>
                  && Moved(r, q.value, to, action, code)
                  && q.value.request.result == (if result.Some? then result else r.request.result))
  {
    hide Legal, LeadsTo, Sync;
    LegalIff(r.request.status, to);
    if r.attachment.Some? {
      SyncShows(r.attachment.value, to, result);
    }
  }

  /** A new request is written down once and shown as queued; a pending one has no job, an automatic one has a job
      exactly if its plan is ready and has otherwise failed with the plan's reason. */
  lemma CreatedDoes(request: Request, attached: bool, plan: Plan)
    requires request.status == Queued || request.status == PendingConfirmation
    ensures var r := Created(request, attached, plan);
            && (r.attachment.Some? <==> attached)
            && r.events != [] && r.events[0] == Event(Requests, None, request.status)
            && (if request.status == PendingConfirmation || plan.Ready? then
                  && r.request == request
                  && r.job == (if request.status == Queued then Some(J.NewJob(false)) else None)
                  && (attached ==> r.attachment == Some(Attachment(Shows(Queued), None, false)))
                else
                  && r.request == request.(status := Failed,
                                           errorCode := Some(if plan.code == "" then "plan_blocked" else plan.code))
                  && r.job == None
                  && (attached ==> r.attachment == Some(Attachment(Shows(Failed), None, true))))
  {
  }

  /** Approving is for requests that are not images: a pending one is queued and gets a new job, and two events are
      written; one that is queued, running or completed is left alone; any other is refused. */
  lemma ApproveDoes(r: Record)
    ensures var status, result := r.request.status, Approve(r);
            if r.request.image then result == Err(Conflict)
            else if status == PendingConfirmation then
              exists q :: Moved(r, q, Queued, Approves, None) && SameResult(r, q) &&
                          result == Ok(q.(job := Some(J.NewJob(false)),
                                          events := q.events + [Event(Enqueues, Some(Queued), Queued)]))
            else if status == Queued || status == Running || status == Completed then result == Ok(r)
            else result == Err(Conflict)
  {
    if r.request.status == PendingConfirmation {
      var q := Transition(r, Queued, Approves, None, None).value;
      assert Moved(r, q, Queued, Approves, None) && SameResult(r, q);
    }
  }

  /** Denying is for pending requests; a denied one stays as it is and any other is refused. */
  lemma DenyDoes(r: Record)
    ensures var status, result := r.request.status, Deny(r);
            if status == PendingConfirmation then
              result.Ok? && Moved(r, result.value, Denied, Denies, None) && SameResult(r, result.value)
            else result == if status == Denied then Ok(r) else Err(Conflict)
  {
  }

  /** Cancelling cancels a pending request itself; of a queued or running one it asks for the job to be cancelled
      and leaves the request to that; an ended one it leaves alone. */
  lemma CancelDoes(r: Record)
    ensures var status := r.request.status;
            var (q, cancelJob) := Cancel(r);
            && (cancelJob <==> (status == Queued || status == Running) && r.job.Some?)
            && (if status == PendingConfirmation then Moved(r, q, Cancelled, Cancels, None) && SameResult(r, q)
                else q == r)
  {
  }

  /** And that ends it: of every consistent request under way the job's cancel is asked for, and once that cancel,
      which finds the job registered, has run, request and job are cancelled together and a retry is on offer. */
  lemma CancelEnds(r: Record, now: int)
    requires Inv(r) && Agrees(r) && (r.request.status == Queued || r.request.status == Running)
    ensures Cancel(r).1 && Cancel(r).0 == r && r.job.Some?
    ensures var q := Transact(r, J.DoCancel(true, now, false), "");
            && q.request.status == Cancelled && q.job.Some? && q.job.value.row.status == J.Cancelled
            && (q.attachment.Some? && r.attachment.value.shown != Retried ==> q.attachment.value.retryAvailable)
  {
    hide Chained;
    J.TransactionDoes(r.job.value, J.DoCancel(true, now, false));
    hide J.Apply, J.Consistent;
  }

  /** Failing a submission fails a queued request with its own code, and leaves any other alone. */
  lemma FailSubmissionDoes(r: Record)
    ensures var q := FailSubmission(r);
            if r.request.status == Queued then
              Moved(r, q, Failed, Fails, Some("submission_failed")) && SameResult(r, q)
            else q == r
  {
  }

  /** A retry is granted exactly if the attachment offers one, the request failed or was cancelled, and it is an image
      of a chat that still exists; the original is then shown as replaced and offers none any more, and the new
      request points back at it, queued with a job, or failed with the reason if its plan is blocked. */
  lemma RetryDoes(r: Record, id: nat, chatExists: bool, plan: Plan)
    ensures var result, status := Retry(r, id, chatExists, plan), r.request.status;
            var offered := r.attachment.Some? && r.attachment.value.retryAvailable &&
                           (status == Failed || status == Cancelled) && r.request.image && r.request.inChat;
            && (result == Err(Conflict) <==> !offered)
            && (result == Err(NotFound) <==> offered && !chatExists)
            && (result.Ok? ==>
                  var (original, newer) := result.value;
                  && original.request == r.request && original.job == r.job && original.attachment.Some?
                  && original.attachment.value.shown == Retried && !original.attachment.value.retryAvailable
                  && original.attachment.value.mediaId == r.attachment.value.mediaId
                  && original.events == r.events + [Event(Retries, Some(status), status)]
                  && newer.request.retryOf == Some(id) && newer.request.image && newer.request.inChat
                  && newer.attachment.Some?
                  && (if plan.Ready? then
                        newer.request.status == Queued && newer.job == Some(J.NewJob(false)) &&
                        newer.request.errorCode == None
                      else
                        newer.request.status == Failed && newer.job == None &&
                        newer.request.errorCode == Some(if plan.code == "" then "plan_blocked" else plan.code)))
  {
  }

  /** What the callbacks do to the request: it starts from queued, completes with the media from running, and fails
      with the code or is cancelled unless it has ended; otherwise it is left as it is. */
  lemma CallDoes(r: Record, c: J.Callback, code: string, media: string)
    requires Chained(r.events, r.request.status) && AttachmentFits(r) && r.request.status.HasJob()
    ensures Call(r, c, code, media).Some?
    ensures var q, status := Call(r, c, code, media).value, r.request.status;
            var open := status == Queued || status == Running;
            match c
            case OnStart => if status == Queued then Moved(r, q, Running, Starts, None) && SameResult(r, q) else q == r
            case OnSuccess =>
              if status == Running then
                Moved(r, q, Completed, Completes, None) && q.request.result == Some(media) &&
                (q.attachment.Some? ==> q.attachment.value.mediaId == if media == "" then None else Some(media))
              else q == r
            case OnFailure => if open then Moved(r, q, Failed, Fails, Some(code)) && SameResult(r, q) else q == r
            case OnCancel => if open then Moved(r, q, Cancelled, Cancels, None) && SameResult(r, q) else q == r
  {
    hide Chained;
    match c
    case OnStart =>
    case OnSuccess =>
    case OnFailure =>
    case OnCancel =>
  }

  /** A chained log leads to completion only through a run, and to a run only through the queue, unless it began
      there. */
  lemma {:induction false} CompletedAfterRunning(events: seq<Event>, status: Status)
    requires Chained(events, status)
    ensures status == Completed && events[0].to != Completed ==>
              exists i :: 0 <= i < |events| && events[i].to == Running
    ensures status == Running && events[0].to != Running ==> exists i :: 0 <= i < |events| && events[i].to == Queued
  {
    var n := |events| - 1;
    if n > 0 && (status == Completed || status == Running) {
      var init := events[..n];
      assert events[n].from == Some(events[n - 1].to);
      CompletedAfterRunning(init, init[n - 1].to);
      if events[n - 1].to != status {
        assert events[n - 1].to == if status == Completed then Running else Queued;
      } else if events[0].to != status {
        var i :| 0 <= i < |init| && init[i].to == if status == Completed then Running else Queued;
        assert events[i].to == init[i].to;
      }
    }
  }

  // ---------------------------------------------------------------------------
  // The audit log

  // Follows the log, and gives up at an event that does not start where the last one ended.
  function Replay(events: seq<Event>): Option<Status> {
    if events == [] then None
    else
      var last := events[|events| - 1];
      if last.from == Replay(events[..|events| - 1]) then Some(last.to) else None
  }

  /** Replaying the log yields the request's status. */
  lemma {:induction false} ReplayYieldsStatus(events: seq<Event>, status: Status)
    requires Chained(events, status)
    ensures Replay(events) == Some(status)
  {
    var init := events[..|events| - 1];
    if init != [] {
      ReplayYieldsStatus(init, init[|init| - 1].to);
    }
  }

  lemma TransactEvents(r: Record, t: J.Transaction, media: string)
    requires r.job.Some?
    ensures r.events <= Transact(r, t, media).events
  {
    hide J.Apply, Ran;
  }

  /** The log only grows. */
  lemma LogGrows(r: Record, s: Step)
    requires Enabled(r, s)
    ensures r.events <= Next(r, s).events
  {
    if s.Transacting? { TransactEvents(r, s.t, s.media); }
    hide Transact;
  }

  // ---------------------------------------------------------------------------
  // All requests together: retries

  type Store = map<nat, Record>

  datatype StoreStep = Create(id: nat, request: Request, attached: bool, plan: Plan)
                     | OnRecord(id: nat, step: Step)
                     | Retrying(original: nat, id: nat, chatExists: bool, plan: Plan)

  predicate StoreEnabled(s: Store, step: StoreStep) {
    match step
    case Create(id, request, _, _) =>
      id !in s && request.retryOf == None && (request.status == Queued || request.status == PendingConfirmation)
    case OnRecord(id, step) => id in s && Enabled(s[id], step) && !step.Replacing?
    case Retrying(original, id, _, _) => original in s && id !in s
  }

  function StoreNext(s: Store, step: StoreStep): Store
    requires StoreEnabled(s, step)
  {
    match step
    case Create(id, request, attached, plan) => s[id := Created(request, attached, plan)]
    case OnRecord(id, step) => s[id := Next(s[id], step)]
    case Retrying(original, id, chatExists, plan) =>
      match Retry(s[original], original, chatExists, plan)
      case Ok(both) => s[original := both.0][id := both.1]
      case Err(_) => s
  }

  predicate IsRetried(s: Store, x: nat) {
    x in s && s[x].attachment.Some? && s[x].attachment.value.shown == Retried
  }

  // A retry points back at a request that is marked as retried, and no two point at the same one.
  predicate RetriesFit(s: Store) {
    && (forall y :: y in s && s[y].request.retryOf.Some? ==>
          s[y].request.retryOf != Some(y) && IsRetried(s, s[y].request.retryOf.value))
    && (forall y, z | y in s && z in s && s[y].request.retryOf.Some? ::
          s[y].request.retryOf == s[z].request.retryOf ==> y == z)
  }

  ghost predicate StoreInv(s: Store) {
    RetriesFit(s) && forall id :: id in s ==> Inv(s[id])
  }

  // What every step of a record leaves alone
  predicate SameOrigin(r: Record, q: Record) {
    && q.request.retryOf == r.request.retryOf
    && (r.attachment.Some? && r.attachment.value.shown == Retried ==>
          q.attachment.Some? && q.attachment.value.shown == Retried)
  }

  lemma TransactOrigin(r: Record, t: J.Transaction, media: string)
    requires Inv(r) && r.job.Some?
    ensures SameOrigin(r, Transact(r, t, media))
  {
    hide J.Apply, Ran, Chained, JobFits;
  }

  lemma StepOrigin(r: Record, s: Step)
    requires Inv(r) && Enabled(r, s)
    ensures SameOrigin(r, Next(r, s))
  {
    if s.Transacting? { TransactOrigin(r, s.t, s.media); }
    hide Transact, Chained, JobFits;
  }

  lemma UpdateFits(s: Store, id: nat, r: Record)
    requires RetriesFit(s) && id in s && SameOrigin(s[id], r)
    ensures RetriesFit(s[id := r])
  {
    var t := s[id := r];
    assert forall x :: IsRetried(s, x) ==> IsRetried(t, x);
  }

  lemma AddFits(s: Store, id: nat, r: Record)
    requires RetriesFit(s) && id !in s
    requires r.request.retryOf.Some? ==>
               IsRetried(s, r.request.retryOf.value) && forall y :: y in s ==> s[y].request.retryOf != r.request.retryOf
    ensures RetriesFit(s[id := r])
  {
    var t := s[id := r];
    assert forall x :: IsRetried(s, x) ==> IsRetried(t, x);
  }

  lemma RecordMoveKeeps(s: Store, id: nat, step: Step)
    requires StoreInv(s) && StoreEnabled(s, OnRecord(id, step))
    ensures StoreInv(StoreNext(s, OnRecord(id, step)))
  {
    StepKeepsInv(s[id], step);
    StepOrigin(s[id], step);
    UpdateFits(s, id, Next(s[id], step));
    hide Inv, Next, Enabled, RetriesFit;
  }

  lemma CreateKeeps(s: Store, id: nat, request: Request, attached: bool, plan: Plan)
    requires StoreInv(s) && StoreEnabled(s, Create(id, request, attached, plan))
    ensures StoreInv(StoreNext(s, Create(id, request, attached, plan)))
  {
    CreatedInv(request, attached, plan);
    CreatedOrigin(request, attached, plan);
    AddFits(s, id, Created(request, attached, plan));
    hide Inv, Created, RetriesFit;
  }

  lemma CreatedOrigin(request: Request, attached: bool, plan: Plan)
    requires request.status == Queued || request.status == PendingConfirmation
    ensures Created(request, attached, plan).request.retryOf == request.retryOf
  {
  }

  lemma RetryKeeps(s: Store, original: nat, id: nat, chatExists: bool, plan: Plan)
    requires StoreInv(s) && StoreEnabled(s, Retrying(original, id, chatExists, plan))
    ensures StoreInv(StoreNext(s, Retrying(original, id, chatExists, plan)))
  {
    var both := Retry(s[original], original, chatExists, plan);
    if both.Ok? {
      ReplacedKeeps(s[original]);
      CreatedInv(Request(Queued, None, None, true, true, Some(original)), true, plan);
      CreatedOrigin(Request(Queued, None, None, true, true, Some(original)), true, plan);
      UpdateFits(s, original, both.value.0);
      assert forall y :: y in s ==> s[y].request.retryOf != Some(original) by {
        assert AttachmentFits(s[original]) by { assert Inv(s[original]); }
      }
      AddFits(s[original := both.value.0], id, both.value.1);
    }
    hide Inv, Created;
  }

  /** No step of the store makes a second retry of the same request. */
  lemma StoreStepKeeps(s: Store, step: StoreStep)
    requires StoreInv(s) && StoreEnabled(s, step)
    ensures StoreInv(StoreNext(s, step))
  {
    hide StoreInv, StoreNext, StoreEnabled;
    match step
    case Create(id, request, attached, plan) => CreateKeeps(s, id, request, attached, plan);
    case OnRecord(id, step) => RecordMoveKeeps(s, id, step);
    case Retrying(original, id, chatExists, plan) => RetryKeeps(s, original, id, chatExists, plan);
  }

  ghost predicate IsStoreRun(stores: seq<Store>, steps: seq<StoreStep>) {
    && |stores| == |steps| + 1 && stores[0] == map[]
    && forall i :: 0 <= i < |steps| ==>
         StoreEnabled(stores[i], steps[i]) && stores[i + 1] == StoreNext(stores[i], steps[i])
  }

  lemma {:induction false} RunKeepsStore(stores: seq<Store>, steps: seq<StoreStep>, k: nat)
    requires IsStoreRun(stores, steps) && k < |stores|
    ensures StoreInv(stores[k])
  {
    hide StoreEnabled, StoreNext;
    if k > 0 {
      RunKeepsStore(stores, steps, k - 1);
      assert StoreEnabled(stores[k - 1], steps[k - 1]) && stores[k] == StoreNext(stores[k - 1], steps[k - 1]);
      StoreStepKeeps(stores[k - 1], steps[k - 1]);
      hide StoreInv;
    }
  }

  /** Retried at most once: in every run at most one request retries a given one, and once there is one
      every further retry is refused. */
  lemma RetriedAtMostOnce(stores: seq<Store>, steps: seq<StoreStep>, k: nat, x: nat, y: nat, z: nat)
    requires IsStoreRun(stores, steps) && k < |stores| && x in stores[k] && y in stores[k] && z in stores[k]
    requires stores[k][y].request.retryOf == Some(x)
    ensures stores[k][z].request.retryOf == Some(x) ==> y == z
    ensures forall chatExists, plan :: Retry(stores[k][x], x, chatExists, plan) == Err(Conflict)
  {
    RunKeepsStore(stores, steps, k);
    hide IsStoreRun, Chained, JobFits;
    assert Inv(stores[k][x]);
  }

  // ---------------------------------------------------------------------------
  // The rows themselves

  lemma SetOnly<T>(rows: map<nat, T>, id: nat, row: T)
    ensures rows[id := row] - {id} == rows - {id}
  {
  }

  lemma SameAt<T>(rows: map<nat, T>, more: map<nat, T>, id: nat, other: nat)
    requires more - {id} == rows - {id} && other != id
    ensures (other in more <==> other in rows) && (other in more ==> more[other] == rows[other])
  {
    assert other in more - {id} <==> other in more;
    assert other in rows - {id} <==> other in rows;
  }

  lemma SetBoth<T>(rows: map<nat, T>, some: map<nat, T>, more: map<nat, T>, a: nat, b: nat)
    requires some - {a} == rows - {a} && more - {b} == some - {b}
    ensures more - {a, b} == rows - {a, b}
  {
    assert more - {a, b} == more - {b} - {a};
    assert rows - {a, b} == rows - {a} - {b};
    assert some - {a} - {b} == some - {b} - {a};
  }

  class CapabilityStore {
    var requests: map<nat, Request>
    var attachments: map<nat, Attachment>
    var jobs: map<nat, J.Job>
    var events: map<nat, seq<Event>>

    ghost predicate Valid()
      reads this
    {
      events.Keys == requests.Keys && attachments.Keys <= requests.Keys && jobs.Keys <= requests.Keys
    }

    function View(id: nat): Record
      requires id in requests && id in events
      reads this
    {
      Record(requests[id], if id in attachments then Some(attachments[id]) else None,
             if id in jobs then Some(jobs[id]) else None, events[id])
    }

    // Every row that does not belong to these requests
    twostate predicate OthersUnmoved(ids: set<nat>)
      reads this
    {
      && requests - ids == old(requests) - ids && attachments - ids == old(attachments) - ids
      && jobs - ids == old(jobs) - ids && events - ids == old(events) - ids
    }

    method SyncAttachment(id: nat, to: Status, result: Option<string>)
      modifies `attachments
      ensures attachments == if id in old(attachments)
                             then old(attachments)[id := Sync(old(attachments)[id], to, result)]
                             else old(attachments)
      ensures attachments - {id} == old(attachments) - {id}
    {
      if id !in attachments {
        return;
      }
      var a := attachments[id];
      a := a.(shown := Shows(match to case PendingConfirmation => Queued
                                      case Denied => Cancelled
                                      case Expired => Cancelled
                                      case _ => to));
      if result.Some? {
        a := a.(mediaId := if result.value == "" then None else result);
      }
      if to == Failed || to == Cancelled {
        a := a.(retryAvailable := true);
      } else if to.Terminal() {
        a := a.(retryAvailable := false);
      }
      attachments := attachments[id := a];
      SetOnly(old(attachments), id, a);
    }

    method SetStatus(id: nat, to: Status, code: Option<string>, result: Option<string>)
      requires id in requests
      modifies `requests
      ensures requests == old(requests)[id := old(requests)[id].(
                status := to, errorCode := code,
                result := if result.Some? then result else old(requests)[id].result)]
      ensures requests - {id} == old(requests) - {id}
    {
      var request := requests[id].(status := to, errorCode := code);
      if result.Some? {
        request := request.(result := result);
      }
      requests := requests[id := request];
      SetOnly(old(requests), id, request);
    }

    method TransitionCapability(id: nat, to: Status, action: Action, code: Option<string>, result: Option<string>)
      returns (ok: bool)
      requires Valid() && id in requests
      modifies this
      ensures Valid() && OthersUnmoved({id}) && id in requests && jobs == old(jobs)
      ensures var moved := Transition(old(View(id)), to, action, code, result);
              ok == moved.Some? && View(id) == if moved.Some? then moved.value else old(View(id))
    {
      hide Sync, Legal;
      var previous := requests[id].status;
      if to != previous && to !in Legal(previous) {
        return false;
      }
      SetStatus(id, to, code, result);
      SyncAttachment(id, to, result);
      AddEvent(id, action, Some(previous), to);
      ok := true;
    }

    method AddEvent(id: nat, action: Action, from: Option<Status>, to: Status)
      requires id in events
      modifies `events
      ensures events == old(events)[id := old(events)[id] + [Event(action, from, to)]]
      ensures events - {id} == old(events) - {id}
    {
      events := events[id := events[id] + [Event(action, from, to)]];
      SetOnly(old(events), id, events[id]);
    }

    method AddJob(id: nat)
      requires Valid() && id in requests
      modifies `jobs, `events
      ensures Valid() && OthersUnmoved({id}) && View(id) == WithJob(old(View(id)))
    {
      jobs := jobs[id := J.NewJob(false)];
      AddEvent(id, Enqueues, Some(Queued), Queued);
      SetOnly(old(jobs), id, jobs[id]);
    }

    method AddRow(id: nat, request: Request, attached: bool)
      requires Valid() && id !in requests
      modifies this
      ensures Valid() && OthersUnmoved({id}) && id in requests && View(id) == Bare(request, attached)
    {
      requests, events := requests[id := request], events[id := []];
      AddEvent(id, Requests, None, request.status);
      if attached {
        attachments := attachments[id := Attachment(Shows(Queued), None, false)];
        SetOnly(old(attachments), id, attachments[id]);
      }
      SetOnly(old(requests), id, request);
      SetOnly(old(events), id, events[id]);
    }

    method AddRequest(id: nat, request: Request, attached: bool, plan: Plan)
      requires Valid() && id !in requests && (request.status == Queued || request.status == PendingConfirmation)
      modifies this
      ensures Valid() && OthersUnmoved({id}) && id in requests && View(id) == Created(request, attached, plan)
    {
      AddRow(id, request, attached);
      if request.status == Queued && plan.Ready? {
        AddJob(id);
      } else if request.status == Queued {
        var _ := TransitionCapability(id, Failed, Fails, plan.Code(), None);
      }
      hide Sync;
    }

    // Whether the job is submitted afterwards
    method ApproveRequest(id: nat) returns (r: Result<bool, Error>)
      requires Valid() && id in requests
      modifies this
      ensures Valid() && OthersUnmoved({id}) && id in requests
      ensures View(id) == OrSame(old(View(id)), Approve(old(View(id))))
      ensures r == match Approve(old(View(id)))
                   case Ok(_) => Ok(old(requests[id].status) == PendingConfirmation)
                   case Err(e) => Err(e)
    {
      if requests[id].image {
        return Err(Conflict);
      }
      if requests[id].status == PendingConfirmation {
        var _ := TransitionCapability(id, Queued, Approves, None, None);
        AddJob(id);
        return Ok(true);
      } else if requests[id].status in {Queued, Running, Completed} {
        return Ok(false);
      }
      r := Err(Conflict);
    }

    method DenyRequest(id: nat) returns (r: Result<(), Error>)
      requires Valid() && id in requests
      modifies this
      ensures Valid() && OthersUnmoved({id}) && id in requests
      ensures View(id) == OrSame(old(View(id)), Deny(old(View(id)))) && (r.Ok? <==> Deny(old(View(id))).Ok?)
    {
      if requests[id].status == PendingConfirmation {
        var _ := TransitionCapability(id, Denied, Denies, None, None);
      } else if requests[id].status != Denied {
        return Err(Conflict);
      }
      r := Ok(());
    }

    method CancelRequest(id: nat) returns (cancelJob: bool)
      requires Valid() && id in requests
      modifies this
      ensures Valid() && OthersUnmoved({id}) && id in requests
      ensures (View(id), cancelJob) == Cancel(old(View(id)))
    {
      cancelJob := false;
      if requests[id].status == PendingConfirmation {
        var _ := TransitionCapability(id, Cancelled, Cancels, None, None);
      } else if requests[id].status in {Queued, Running} {
        cancelJob := id in jobs;
      }
    }

    method FailQueuedSubmission(id: nat)
      requires Valid() && id in requests
      modifies this
      ensures Valid() && OthersUnmoved({id}) && id in requests && View(id) == FailSubmission(old(View(id)))
    {
      if requests[id].status == Queued {
        var _ := TransitionCapability(id, Failed, Fails, Some("submission_failed"), None);
      }
    }

    method MarkRetried(id: nat, status: Status)
      requires Valid() && id in requests && requests[id].status == status && CanRetry(View(id))
      modifies `attachments, `events
      ensures Valid() && OthersUnmoved({id}) && View(id) == Replaced(old(View(id)))
    {
      attachments := attachments[id := attachments[id].(shown := Retried, retryAvailable := false)];
      AddEvent(id, Retries, Some(status), status);
      SetOnly(old(attachments), id, attachments[id]);
    }

    method RetryRequest(id: nat, newId: nat, chatExists: bool, plan: Plan) returns (r: Result<(), Error>)
      requires Valid() && id in requests && newId !in requests
      modifies this
      ensures Valid() && id in requests
      ensures var both := Retry(old(View(id)), id, chatExists, plan);
              match both
              case Ok(pair) => r == Ok(()) && View(id) == pair.0 && newId in requests && View(newId) == pair.1
              case Err(e) => r == Err(e) && View(id) == old(View(id)) && requests == old(requests)
      ensures OthersUnmoved({id, newId})
    {
      if id !in attachments || !attachments[id].retryAvailable || requests[id].status !in {Failed, Cancelled} {
        return Err(Conflict);
      }
      if !requests[id].image || !requests[id].inChat {
        return Err(Conflict);
      }
      if !chatExists {
        return Err(NotFound);
      }
      var status := requests[id].status;
      MarkRetried(id, status);
      label Marked:
      AddRequest(newId, Request(Queued, None, None, true, true, Some(id)), true, plan);
      SameAt(old@Marked(requests), requests, newId, id);
      SameAt(old@Marked(attachments), attachments, newId, id);
      SameAt(old@Marked(jobs), jobs, newId, id);
      SameAt(old@Marked(events), events, newId, id);
      SetBoth(old(requests), old@Marked(requests), requests, id, newId);
      SetBoth(old(attachments), old@Marked(attachments), attachments, id, newId);
      SetBoth(old(jobs), old@Marked(jobs), jobs, id, newId);
      SetBoth(old(events), old@Marked(events), events, id, newId);
      r := Ok(());
    }

    // The four callbacks a job carries
    method RunCallback(id: nat, c: J.Callback, code: string, media: string) returns (ok: bool)
      requires Valid() && id in requests
      modifies this
      ensures Valid() && OthersUnmoved({id}) && id in requests && jobs == old(jobs)
      ensures var called := Call(old(View(id)), c, code, media);
              ok == called.Some? && View(id) == if called.Some? then called.value else old(View(id))
    {
      var status := requests[id].status;
      ok := true;
      match c {
        case OnStart =>
          if status == Queued {
            ok := TransitionCapability(id, Running, Starts, None, None);
          }
        case OnSuccess =>
          if status == Running {
            ok := TransitionCapability(id, Completed, Completes, None, Some(media));
          }
        case OnFailure =>
          if !status.Terminal() {
            ok := TransitionCapability(id, Failed, Fails, Some(code), None);
          }
        case OnCancel =>
          if !status.Terminal() {
            ok := TransitionCapability(id, Cancelled, Cancels, None, None);
          }
      }
    }
  }
}
