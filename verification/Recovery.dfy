/**
 Restart recovery of media requests that were queued or running when the server stopped.

 Plans, jobs and attachments are unique per request, so the rows that belong to one request form a
 `Bundle`. Whether a media row's file exists inside the media directory is the input `usable`.
 */
module Recovery {
  import opened Common
  import C = Capability
  import J = JobStore

  datatype Kind = ImageKind | VideoKind

  datatype Identity = NotApplicable | Unconditioned | Verified | NotVerified

  datatype PlanConditioning = Ready | NoConditioning | OtherConditioning

  datatype AttemptStatus = Running | Passed | Failed | Unverified | Error | Cancelled

  datatype Attempt = Attempt(
    status: AttemptStatus, mediaId: Option<string>, score: Option<real>, number: int, owned: bool)

  datatype Plan = Plan(conditioning: PlanConditioning, blocksClaim: bool, required: bool, attempts: seq<Attempt>)

  datatype Media = Media(
    id: string, user: string, chat: string, kind: Kind, request: Option<nat>, createdAt: int, usable: bool)

  datatype Bundle = Bundle(
    id: nat, record: C.Record, user: string, chat: Option<string>, kind: Kind, identity: Identity,
    plan: Option<Plan>, jobMedia: Option<string>, recovered: bool)

  datatype Candidate = Candidate(mediaId: string, identity: Identity, attempt: Option<nat>)

  // ---------------------------------------------------------------------------
  // Finding a finished media file for an interrupted request

  predicate Belongs(m: Media, b: Bundle) {
    m.user == b.user && b.chat == Some(m.chat) && m.kind == b.kind
  }

  predicate Serves(files: seq<Media>, b: Bundle, id: string) {
    exists m :: m in files && m.id == id && Belongs(m, b) && m.usable
  }

  // `_valid_generated_media`
  predicate Usable(files: seq<Media>, b: Bundle, id: Option<string>) {
    id.Some? && id.value != "" && Serves(files, b, id.value)
  }

  predicate AllowsIncomplete(b: Bundle) {
    b.plan == None || b.plan.value.conditioning != Ready || !b.plan.value.blocksClaim
  }

  predicate Recoverable(b: Bundle, status: AttemptStatus) {
    status in {Passed, Unverified} || (AllowsIncomplete(b) && status in {Failed, Running})
  }

  // The attempts that the query considers: the media row must exist, its file is checked afterwards.
  predicate Eligible(files: seq<Media>, b: Bundle, a: Attempt) {
    a.owned && Recoverable(b, a.status) && a.mediaId.Some? &&
    exists m :: m in files && m.id == a.mediaId.value && Belongs(m, b)
  }

  function Rank(status: AttemptStatus): nat {
    match status
    case Passed => 0
    case Unverified => 1
    case Failed => 2
    case _ => 3
  }

  function ScoreOf(a: Attempt): real {
    if a.score.Some? then a.score.value else -1.0
  }

  predicate Better(a: Attempt, b: Attempt) {
    || Rank(a.status) < Rank(b.status)
    || (Rank(a.status) == Rank(b.status) && ScoreOf(a) > ScoreOf(b))
    || (Rank(a.status) == Rank(b.status) && ScoreOf(a) == ScoreOf(b) && a.number > b.number)
  }

  function Best(files: seq<Media>, b: Bundle, attempts: seq<Attempt>): (r: Option<nat>)
    ensures r.Some? ==> r.value < |attempts|
  {
    if attempts == [] then None
    else
      var n := |attempts| - 1;
      var best := Best(files, b, attempts[..n]);
      var better := best.None? || Better(attempts[n], attempts[best.value]);
      if Eligible(files, b, attempts[n]) && better then Some(n) else best
  }

  predicate OfPlan(m: Media, b: Bundle) {
    m.request == Some(b.id) && Belongs(m, b) && m.usable
  }

  predicate Newer(m: Media, other: Media) {
    m.createdAt > other.createdAt || (m.createdAt == other.createdAt && Less(other.id, m.id))
  }

  function Newest(files: seq<Media>, b: Bundle): (r: Option<Media>)
    ensures r.Some? ==> r.value in files && OfPlan(r.value, b)
  {
    if files == [] then None
    else
      var last := files[|files| - 1];
      var newest := Newest(files[..|files| - 1], b);
      if OfPlan(last, b) && (newest.None? || Newer(last, newest.value)) then Some(last) else newest
  }

  function AttemptIdentity(b: Bundle, plan: Plan, status: AttemptStatus): Identity {
    var conditioned := plan.required || plan.conditioning == Ready;
    if plan.conditioning == NoConditioning then Unconditioned
    else if conditioned && status == Passed then Verified
    else if conditioned && status in {Unverified, Failed} then NotVerified
    else b.identity
  }

  // Plan media may be used when the plan has no attempts or one that is recoverable.
  predicate PlanMediaAllowed(b: Bundle, plan: Plan) {
    && AllowsIncomplete(b)
    && (plan.attempts != [] ==> exists a :: a in plan.attempts && Recoverable(b, a.status))
  }

  // `_inflight_media_candidate`
  function Find(files: seq<Media>, b: Bundle): Option<Candidate> {
    var record := b.record;
    if Usable(files, b, record.request.result) then Some(Candidate(record.request.result.value, b.identity, None))
    else if record.attachment.Some? && (AllowsIncomplete(b) || b.identity == Verified)
            && Usable(files, b, record.attachment.value.mediaId)
    then Some(Candidate(record.attachment.value.mediaId.value, b.identity, None))
    else if b.plan == None then None
    else
      var plan := b.plan.value;
      var best := Best(files, b, plan.attempts);
      if best.Some? && Usable(files, b, plan.attempts[best.value].mediaId)
      then Some(Candidate(plan.attempts[best.value].mediaId.value,
                          AttemptIdentity(b, plan, plan.attempts[best.value].status), best))
      else
        var newest := Newest(files, b);
        if PlanMediaAllowed(b, plan) && newest.Some? then Some(Candidate(newest.value.id, b.identity, None)) else None
  }

  // ---------------------------------------------------------------------------
  // The updates

  predicate InFlight(status: C.Status) {
    status == C.Queued || status == C.Running
  }

  predicate AttachmentInFlight(b: Bundle) {
    b.record.attachment.Some? && b.record.attachment.value.shown in {C.Shows(C.Queued), C.Shows(C.Running)}
  }

  predicate JobInFlight(b: Bundle) {
    b.record.job.Some? && b.record.job.value.row.status in {J.Queued, J.Running}
  }

  // The identity state written with a recovered media file
  function Settled(b: Bundle, identity: Identity): Identity {
    if identity != NotApplicable || b.plan == None then identity
    else match b.plan.value.conditioning
      case NoConditioning => Unconditioned
      case Ready => NotVerified
      case OtherConditioning => identity
  }

  function EndJob(job: J.Job, status: J.Status, stamp: int, error: Option<string>): J.Job {
    job.(row := job.row.(status := status, completedAt := Some(stamp), error := error))
  }

  function EndAttempt(a: Attempt, identity: Identity, mediaId: Option<string>): Attempt {
    if a.status != Running then a
    else a.(status := if identity in {NotVerified, Unconditioned} then Unverified else Passed, mediaId := mediaId)
  }

  // The update of one attempt: the chosen one takes the media, or without a choice each keeps its own if it has one.
  function Settle(a: Attempt, i: nat, chosen: Option<nat>, identity: Identity, mediaId: string): Attempt {
    if chosen == None then EndAttempt(a, identity, if a.mediaId.Some? then a.mediaId else Some(mediaId))
    else if chosen == Some(i) then EndAttempt(a, identity, Some(mediaId))
    else a
  }

  function EndAttempts(attempts: seq<Attempt>, chosen: Option<nat>, identity: Identity, mediaId: string)
    : (r: seq<Attempt>)
    ensures |r| == |attempts|
    ensures forall i :: 0 <= i < |attempts| ==> r[i] == Settle(attempts[i], i, chosen, identity, mediaId)
  {
    seq(|attempts|, i requires 0 <= i < |attempts| => Settle(attempts[i], i, chosen, identity, mediaId))
  }

  predicate Considered(b: Bundle) {
    AttachmentInFlight(b) && InFlight(b.record.request.status)
  }

  function Completed(b: Bundle, c: Candidate, stamp: int): Bundle
    requires b.record.attachment.Some?
  {
    var r, identity := b.record, Settled(b, c.identity);
    b.(identity := identity,
       recovered := true,
       jobMedia := if JobInFlight(b) then Some(c.mediaId) else b.jobMedia,
       plan := if b.plan == None then None
               else Some(b.plan.value.(attempts := EndAttempts(b.plan.value.attempts, c.attempt, identity, c.mediaId))),
       record := r.(
         attachment := Some(C.Attachment(C.Shows(C.Completed), Some(c.mediaId), false)),
         request := r.request.(status := C.Completed, result := Some(c.mediaId), errorCode := None),
         job := if JobInFlight(b) then Some(EndJob(r.job.value, J.Completed, stamp, None)) else r.job,
         events := if b.recovered then r.events
                   else r.events + [C.Event(C.Completes, Some(r.request.status), C.Completed)]))
  }

  // `_reconcile_inflight_generated_media` for one request
  function Recover(files: seq<Media>, b: Bundle, stamp: int): Bundle {
    if Considered(b) && Find(files, b).Some? then Completed(b, Find(files, b).value, stamp) else b
  }

  function Interrupted(a: Attempt): Attempt {
    if a.status == Running then a.(status := Error) else a
  }

  function InterruptedPlan(plan: Plan): Plan {
    plan.(attempts := seq(|plan.attempts|, i requires 0 <= i < |plan.attempts| => Interrupted(plan.attempts[i])))
  }

  const INTERRUPTED := "interrupted by server restart"

  function FailJob(b: Bundle, stamp: int): Bundle {
    if JobInFlight(b)
    then b.(record := b.record.(job := Some(EndJob(b.record.job.value, J.Failed, stamp, Some(INTERRUPTED))))) else b
  }

  function FailRequest(b: Bundle): Bundle {
    if InFlight(b.record.request.status) then
      var failed := b.record.request.(status := C.Failed, errorCode := Some("interrupted"));
      b.(record := b.record.(request := failed))
    else b
  }

  function FailAttachment(b: Bundle): Bundle {
    if AttachmentInFlight(b) then
      var failed := b.record.attachment.value.(shown := C.Shows(C.Failed), retryAvailable := true);
      b.(record := b.record.(attachment := Some(failed)))
    else b
  }

  function FailAttempts(b: Bundle): Bundle {
    if b.plan.Some? then b.(plan := Some(InterruptedPlan(b.plan.value))) else b
  }

  // The updates of `initialize_database` for one request
  function Interrupt(b: Bundle, stamp: int): Bundle {
    FailAttempts(FailAttachment(FailRequest(FailJob(b, stamp))))
  }

  function Restart(files: seq<Media>, b: Bundle, stamp: int): Bundle {
    Interrupt(Recover(files, b, stamp), stamp)
  }

  // ---------------------------------------------------------------------------
  // What recovery promises

  /** The attempt found is eligible and no eligible one is better. */
  lemma {:induction false} BestIsBest(files: seq<Media>, b: Bundle, attempts: seq<Attempt>)
    ensures var best := Best(files, b, attempts);
            if best.Some?
            then Eligible(files, b, attempts[best.value]) &&
                 forall i :: 0 <= i < |attempts| && Eligible(files, b, attempts[i]) ==>
                       !Better(attempts[i], attempts[best.value])
            else forall i :: 0 <= i < |attempts| ==> !Eligible(files, b, attempts[i])
  {
    hide Eligible;
    if attempts != [] {
      BestIsBest(files, b, attempts[..|attempts| - 1]);
    }
  }

  lemma {:induction false} NewestIsNewest(files: seq<Media>, b: Bundle)
    ensures var newest := Newest(files, b);
            if newest.Some? then forall m :: m in files && OfPlan(m, b) ==> !Newer(m, newest.value)
            else forall m :: m in files ==> !OfPlan(m, b)
  {
    hide OfPlan;
    if files != [] {
      var init, last := files[..|files| - 1], files[|files| - 1];
      NewestIsNewest(init, b);
      assert forall m :: m in files <==> m in init || m == last;
      var newest := Newest(init, b);
      if OfPlan(last, b) && newest.Some? && Newer(last, newest.value) {
        forall m | m in init && OfPlan(m, b) ensures !Newer(m, last) {
          NewerTransitive(m, last, newest.value);
        }
      }
      LessIrreflexive(last.id);
    }
  }

  lemma NewerTransitive(a: Media, b: Media, c: Media)
    requires Newer(b, c) && !Newer(a, c)
    ensures !Newer(a, b)
  {
    if Newer(a, b) && a.createdAt == b.createdAt == c.createdAt {
      LessTransitive(c.id, b.id, a.id);
    }
  }

  /** Any media file found belongs to the request's owner and chat, is of its kind and has its file; and a
      plan that blocks identity claims is served only by the request's own result, by an attachment already
      verified, or by the best attempt that passed or went unverified. */
  lemma FindSound(files: seq<Media>, b: Bundle)
    requires Find(files, b).Some?
    ensures var c := Find(files, b).value;
            && Serves(files, b, c.mediaId)
            && (!AllowsIncomplete(b) ==>
                  || b.record.request.result == Some(c.mediaId)
                  || (b.identity == Verified && b.record.attachment.Some? &&
                        b.record.attachment.value.mediaId == Some(c.mediaId))
                  || (c.attempt.Some? && c.attempt.value < |b.plan.value.attempts| &&
                      b.plan.value.attempts[c.attempt.value].status in {Passed, Unverified} &&
                      b.plan.value.attempts[c.attempt.value].mediaId == Some(c.mediaId)))
  {
    if b.plan.Some? {
      BestIsBest(files, b, b.plan.value.attempts);
      var newest := Newest(files, b);
      assert newest.Some? ==> Serves(files, b, newest.value.id);
    }
    hide Best, Newest, Serves;
  }

  /** Nothing is found only if the recorded result, the attachment's media and the best attempt's media are
      all unusable, and no usable file of the plan may stand in for them. */
  lemma FindComplete(files: seq<Media>, b: Bundle)
    requires Find(files, b).None?
    ensures !Usable(files, b, b.record.request.result)
    ensures b.record.attachment.Some? && (AllowsIncomplete(b) || b.identity == Verified) ==>
              !Usable(files, b, b.record.attachment.value.mediaId)
    ensures b.plan.Some? && PlanMediaAllowed(b, b.plan.value) ==> forall m :: m in files ==> !OfPlan(m, b)
    ensures b.plan.Some? ==>
              var attempts := b.plan.value.attempts;
              forall i | 0 <= i < |attempts| && Eligible(files, b, attempts[i]) &&
                       Usable(files, b, attempts[i].mediaId) ::
                exists j | 0 <= j < |attempts| && j != i ::
                  Eligible(files, b, attempts[j]) && !Better(attempts[i], attempts[j])
  {
    if b.plan.Some? {
      BestIsBest(files, b, b.plan.value.attempts);
      NewestIsNewest(files, b);
    }
    hide Best, Newest, Serves, Eligible, OfPlan;
  }

  // Where a media file for an interrupted request can come from
  datatype Source = Recorded | Attached | Attempted | OfItsPlan {
    function Place(): nat {
      match this
      case Recorded => 0
      case Attached => 1
      case Attempted => 2
      case OfItsPlan => 3
    }
  }

  predicate Names(id: string, mediaId: Option<string>) {
    mediaId == Some(id) && id != ""
  }

  // No eligible attempt is better.
  predicate Leads(files: seq<Media>, b: Bundle, attempts: seq<Attempt>, i: nat)
    requires i < |attempts|
  {
    && Eligible(files, b, attempts[i])
    && forall j :: 0 <= j < |attempts| && Eligible(files, b, attempts[j]) ==> !Better(attempts[j], attempts[i])
  }

  predicate LatestOfPlan(files: seq<Media>, b: Bundle, m: Media) {
    m in files && OfPlan(m, b) && forall other :: other in files && OfPlan(other, b) ==> !Newer(other, m)
  }

  // The source has this media file for the request, and its file is there.
  ghost predicate Offers(files: seq<Media>, b: Bundle, source: Source, id: string) {
    match source
    case Recorded => Names(id, b.record.request.result) && Serves(files, b, id)
    case Attached =>
      && b.record.attachment.Some? && Names(id, b.record.attachment.value.mediaId) && Serves(files, b, id)
      && (AllowsIncomplete(b) || b.identity == Verified)
    case Attempted =>
      b.plan.Some? &&
      var attempts := b.plan.value.attempts;
      Serves(files, b, id) &&
      exists i :: 0 <= i < |attempts| && Names(id, attempts[i].mediaId) && Leads(files, b, attempts, i)
    case OfItsPlan =>
      b.plan.Some? && PlanMediaAllowed(b, b.plan.value) && exists m :: LatestOfPlan(files, b, m) && m.id == id
  }

  // The attempts of a plan are numbered apart.
  predicate Numbered(b: Bundle) {
    b.plan.Some? ==>
      forall i, j :: 0 <= i < j < |b.plan.value.attempts| ==>
        b.plan.value.attempts[i].number != b.plan.value.attempts[j].number
  }

  lemma OneLeads(files: seq<Media>, b: Bundle, attempts: seq<Attempt>, i: nat)
    requires i < |attempts|
    requires forall k, j :: 0 <= k < j < |attempts| ==> attempts[k].number != attempts[j].number
    ensures Leads(files, b, attempts, i) <==> Best(files, b, attempts) == Some(i)
  {
    hide Eligible;
    BestIsBest(files, b, attempts);
    var best := Best(files, b, attempts);
    if Leads(files, b, attempts, i) {
      assert !Better(attempts[best.value], attempts[i]) && !Better(attempts[i], attempts[best.value]);
    }
  }

  lemma OneLatest(files: seq<Media>, b: Bundle, id: string)
    ensures (exists m :: LatestOfPlan(files, b, m) && m.id == id) <==>
              Newest(files, b).Some? && Newest(files, b).value.id == id
  {
    hide OfPlan;
    NewestIsNewest(files, b);
    var newest := Newest(files, b);
    if newest.Some? {
      assert LatestOfPlan(files, b, newest.value);
      forall m | LatestOfPlan(files, b, m) ensures m.id == newest.value.id {
        assert !Newer(m, newest.value) && !Newer(newest.value, m);
        if m.id != newest.value.id { LessTotal(m.id, newest.value.id); }
      }
    }
  }

  // What `Find` takes from a source
  function Choice(files: seq<Media>, b: Bundle, source: Source): Option<string> {
    match source
    case Recorded => if Usable(files, b, b.record.request.result) then b.record.request.result else None
    case Attached =>
      var a := b.record.attachment;
      if a.Some? && (AllowsIncomplete(b) || b.identity == Verified) && Usable(files, b, a.value.mediaId)
      then a.value.mediaId else None
    case Attempted =>
      if b.plan == None then None
      else
        var best := Best(files, b, b.plan.value.attempts);
        if best.Some? && Usable(files, b, b.plan.value.attempts[best.value].mediaId)
        then b.plan.value.attempts[best.value].mediaId else None
    case OfItsPlan =>
      if b.plan.Some? && PlanMediaAllowed(b, b.plan.value) && Newest(files, b).Some?
      then Some(Newest(files, b).value.id) else None
  }

  lemma OffersChoice(files: seq<Media>, b: Bundle, source: Source, id: string)
    requires Numbered(b)
    ensures Offers(files, b, source, id) <==> Choice(files, b, source) == Some(id)
  {
    hide Serves, LatestOfPlan, Leads, PlanMediaAllowed, AllowsIncomplete, Best, Newest;
    match source
    case Recorded =>
    case Attached =>
    case Attempted =>
      if b.plan.Some? {
        var attempts := b.plan.value.attempts;
        forall i | 0 <= i < |attempts| ensures Leads(files, b, attempts, i) <==> Best(files, b, attempts) == Some(i) {
          OneLeads(files, b, attempts, i);
        }
      }
    case OfItsPlan => OneLatest(files, b, id);
  }

  lemma FindFirst(files: seq<Media>, b: Bundle)
    ensures var found := Find(files, b);
            if Choice(files, b, Recorded).Some? then
              found.Some? && found.value.attempt == None && Some(found.value.mediaId) == Choice(files, b, Recorded)
            else if Choice(files, b, Attached).Some? then
              found.Some? && found.value.attempt == None && Some(found.value.mediaId) == Choice(files, b, Attached)
            else if Choice(files, b, Attempted).Some? then
              found.Some? && found.value.attempt.Some? && Some(found.value.mediaId) == Choice(files, b, Attempted)
            else if Choice(files, b, OfItsPlan).Some? then
              found.Some? && found.value.attempt == None && Some(found.value.mediaId) == Choice(files, b, OfItsPlan)
            else found == None
  {
    hide Serves, PlanMediaAllowed, AllowsIncomplete, Best, Newest;
  }

  // The source offers the file, and none before it offers any.
  ghost predicate FirstToOffer(files: seq<Media>, b: Bundle, source: Source, id: string) {
    && Offers(files, b, source, id)
    && forall earlier: Source, other :: earlier.Place() < source.Place() ==> !Offers(files, b, earlier, other)
  }

  /** Recovery serves a media file exactly if one of its four sources offers it and no source before that
      one offers any: the recorded result, the attachment, the leading attempt, the latest media of the plan. An
      attempt is credited exactly if it is the source. */
  lemma FindOrder(files: seq<Media>, b: Bundle, id: string)
    requires Numbered(b)
    ensures Find(files, b).Some? && Find(files, b).value.mediaId == id <==>
              exists source :: FirstToOffer(files, b, source, id)
    ensures Find(files, b).Some? && Find(files, b).value.mediaId == id && Find(files, b).value.attempt.Some? <==>
              FirstToOffer(files, b, Attempted, id)
  {
    hide Find, Choice, Offers, FirstToOffer;
    FindFirst(files, b);
    forall source, other ensures Offers(files, b, source, other) <==> Choice(files, b, source) == Some(other) {
      OffersChoice(files, b, source, other);
    }
    ServedFirst(files, b, id);
    if source :| FirstToOffer(files, b, source, id) {
      match source
      case Recorded =>
      case Attached =>
      case Attempted =>
      case OfItsPlan =>
    }
  }

  // The first source with a choice is the first to offer.
  lemma ServedFirst(files: seq<Media>, b: Bundle, id: string)
    requires forall source, other :: Offers(files, b, source, other) <==> Choice(files, b, source) == Some(other)
    ensures FirstToOffer(files, b, Recorded, id) <==> Choice(files, b, Recorded) == Some(id)
    ensures FirstToOffer(files, b, Attached, id) <==>
              Choice(files, b, Recorded) == None && Choice(files, b, Attached) == Some(id)
    ensures FirstToOffer(files, b, Attempted, id) <==>
              Choice(files, b, Recorded) == None && Choice(files, b, Attached) == None &&
              Choice(files, b, Attempted) == Some(id)
    ensures FirstToOffer(files, b, OfItsPlan, id) <==>
              Choice(files, b, Recorded) == None && Choice(files, b, Attached) == None &&
              Choice(files, b, Attempted) == None && Choice(files, b, OfItsPlan) == Some(id)
  {
    hide Offers, Choice;
    forall source: Source | Choice(files, b, source).Some?
      ensures Offers(files, b, source, Choice(files, b, source).value)
    {
    }
  }

  /** Which attempts count: the owner's own, with a media row of the request's owner, chat and kind, that passed or
      went unverified, or also failed or were still running where an incomplete identity is allowed: without a
      plan conditioned on an identity, or with one that does not block identity claims. */
  lemma EligibleIff(files: seq<Media>, b: Bundle, a: Attempt)
    requires b.plan.Some?
    ensures var lenient := b.plan.value.conditioning != Ready || !b.plan.value.blocksClaim;
            Eligible(files, b, a) <==>
              && a.owned && a.mediaId.Some?
              && (a.status == Passed || a.status == Unverified ||
                  (lenient && (a.status == AttemptStatus.Failed || a.status == AttemptStatus.Running)))
              && exists m :: m in files && m.id == a.mediaId.value && m.user == b.user && b.chat == Some(m.chat) &&
                             m.kind == b.kind
  {
  }

  /** The leading attempt passed if any that counts did, went unverified if any did and none passed, failed only if
      the others failed or were running; among its like it has the highest score, a missing one counting as -1, and
      at equal score it is the latest. */
  lemma LeadingAttempt(files: seq<Media>, b: Bundle, attempts: seq<Attempt>, i: nat, j: nat)
    requires i < |attempts| && j < |attempts| && Leads(files, b, attempts, i) && Eligible(files, b, attempts[j])
    ensures var a, other := attempts[i], attempts[j];
            var score, others := if a.score.Some? then a.score.value else -1.0,
                                 if other.score.Some? then other.score.value else -1.0;
            && (other.status == Passed ==> a.status == Passed)
            && (other.status == Unverified ==> a.status == Passed || a.status == Unverified)
            && (a.status == AttemptStatus.Running ==> other.status == AttemptStatus.Running)
            && (a.status == other.status ==> score >= others)
            && (a.status == other.status && score == others ==> a.number >= other.number)
  {
    assert !Better(attempts[j], attempts[i]);
    assert attempts[i].status != AttemptStatus.Error && attempts[i].status != AttemptStatus.Cancelled;
    assert attempts[j].status != AttemptStatus.Error && attempts[j].status != AttemptStatus.Cancelled;
  }

  /** The plan's own media stands in where an incomplete identity is allowed and the plan has no attempts or one that
      could be recovered; of the usable files made for the request it is the newest, and of those the one with the
      greatest id. */
  lemma PlanMediaChoice(files: seq<Media>, b: Bundle, m: Media, other: Media)
    requires LatestOfPlan(files, b, m) && other in files && other.usable
    requires other.request == Some(b.id) && other.user == b.user && b.chat == Some(other.chat) && other.kind == b.kind
    ensures m.usable && m.request == Some(b.id) && m.user == b.user && b.chat == Some(m.chat) && m.kind == b.kind
    ensures other.createdAt <= m.createdAt
    ensures other.createdAt == m.createdAt ==> !Less(m.id, other.id)
  {
    assert OfPlan(other, b);
  }

  lemma PlanMediaAllowedIff(b: Bundle)
    requires b.plan.Some?
    ensures var plan := b.plan.value;
            PlanMediaAllowed(b, plan) <==>
              && (plan.conditioning != Ready || !plan.blocksClaim)
              && (plan.attempts == [] ||
                  exists a :: a in plan.attempts &&
                              a.status != AttemptStatus.Error && a.status != AttemptStatus.Cancelled)
  {
  }

  /** The identity state that goes with a recovered file: that of the request, unless an attempt is the source, in
      which case a plan conditioned on an identity makes it verified if the attempt passed and not verified if it went
      unverified or failed, and a plan without conditioning makes it unconditioned. */
  lemma FoundIdentity(files: seq<Media>, b: Bundle)
    requires Find(files, b).Some?
    ensures var c := Find(files, b).value;
            && (c.attempt == None ==> c.identity == b.identity)
            && (c.attempt.Some? ==>
                  && b.plan.Some? && c.attempt.value < |b.plan.value.attempts|
                  && var plan, status := b.plan.value, b.plan.value.attempts[c.attempt.value].status;
                     var conditioned := plan.conditioning == Ready ||
                                        (plan.required && plan.conditioning != NoConditioning);
                     var doubtful := status == Unverified || status == AttemptStatus.Failed;
                     && (plan.conditioning == NoConditioning ==> c.identity == Unconditioned)
                     && (conditioned && status == Passed ==> c.identity == Verified)
                     && (conditioned && doubtful ==> c.identity == NotVerified)
                     && (plan.conditioning == OtherConditioning && !conditioned ==> c.identity == b.identity))
  {
    hide Serves, Best, Newest, PlanMediaAllowed, AllowsIncomplete;
  }

  predicate JobIs(b: Bundle, status: J.Status) {
    b.record.job.Some? ==> b.record.job.value.row.status == status
  }

  // What the updates do to the request, the attachment and the job
  lemma InterruptRecord(b: Bundle, stamp: int)
    ensures var r, after := b.record, Interrupt(b, stamp).record;
            && after.request == (if InFlight(r.request.status)
                                 then r.request.(status := C.Failed, errorCode := Some("interrupted")) else r.request)
            && after.attachment == (if AttachmentInFlight(b)
                                    then Some(r.attachment.value.(shown := C.Shows(C.Failed), retryAvailable := true))
                                    else r.attachment)
            && after.job == (if JobInFlight(b)
                             then Some(EndJob(r.job.value, J.Failed, stamp, Some(INTERRUPTED))) else r.job)
  {
    hide EndJob, FailAttempts;
    AttemptsApart(FailAttachment(FailRequest(FailJob(b, stamp))));
  }

  lemma InterruptKeeps(b: Bundle, stamp: int)
    ensures Interrupt(b, stamp).jobMedia == b.jobMedia && Interrupt(b, stamp).recovered == b.recovered
    ensures Interrupt(b, stamp).record.events == b.record.events
  {
    hide EndJob, InterruptedPlan;
  }

  lemma AttemptsApart(b: Bundle)
    ensures FailAttempts(b).record == b.record
  {
  }

  /** All or nothing: an in-flight request, its in-flight attachment and its in-flight job end completed
      with the same usable media file, or all end failed with a retry on offer; they complete exactly if
      such a file is found. */
  lemma RestartSettles(files: seq<Media>, b: Bundle, stamp: int)
    requires Considered(b) && (b.record.job.Some? ==> JobInFlight(b))
    ensures var after, found := Restart(files, b, stamp), Find(files, b);
            var r := after.record;
            if found.Some?
            then
              && Serves(files, b, found.value.mediaId)
              && r.request.status == C.Completed && r.request.result == Some(found.value.mediaId)
              && r.attachment == Some(C.Attachment(C.Shows(C.Completed), Some(found.value.mediaId), false))
              && JobIs(after, J.Completed) && (r.job.Some? ==> after.jobMedia == Some(found.value.mediaId))
            else
              && r.request.status == C.Failed && r.attachment.value.shown == C.Shows(C.Failed)
              && r.attachment.value.retryAvailable && JobIs(after, J.Failed) && C.CanRetry(r)
  {
    hide Find, Serves, Interrupt, EndAttempts;
    if Find(files, b).Some? { FindSound(files, b); }
    InterruptRecord(Recover(files, b, stamp), stamp);
    InterruptKeeps(Recover(files, b, stamp), stamp);
  }

  // Request and attachment were under way when the server stopped.
  predicate UnderWay(b: Bundle) {
    && (b.record.request.status == C.Queued || b.record.request.status == C.Running)
    && b.record.attachment.Some?
    && (b.record.attachment.value.shown == C.Shows(C.Queued) || b.record.attachment.value.shown == C.Shows(C.Running))
  }

  /** What a restart does to each row: only if request and attachment were both under way and a file is found does it
      complete what is under way, with that file; otherwise it fails what is under way. The job ends at the time of
      the restart, and rows that are not under way are left alone. */
  lemma RestartDoes(files: seq<Media>, b: Bundle, stamp: int)
    ensures var after, found := Restart(files, b, stamp), Find(files, b);
            var recovered := UnderWay(b) && found.Some?;
            var was, now := b.record, after.record;
            && now.request == (
                 if was.request.status != C.Queued && was.request.status != C.Running then was.request
                 else if recovered then
                   was.request.(status := C.Completed, result := Some(found.value.mediaId), errorCode := None)
                 else was.request.(status := C.Failed, errorCode := Some("interrupted")))
            && now.attachment == (
                 if recovered then Some(C.Attachment(C.Shows(C.Completed), Some(found.value.mediaId), false))
                 else if was.attachment.Some? && was.attachment.value.shown in {C.Shows(C.Queued), C.Shows(C.Running)}
                 then Some(was.attachment.value.(shown := C.Shows(C.Failed), retryAvailable := true))
                 else was.attachment)
            && (now.job.Some? <==> was.job.Some?)
            && (was.job.Some? ==>
                  var before, job := was.job.value, now.job.value;
                  if before.row.status == J.Queued || before.row.status == J.Running then
                    && job.row.status == (if recovered then J.Completed else J.Failed)
                    && job.row.completedAt == Some(stamp)
                    && job.turn == before.turn && job.committed == before.committed
                    && job.row.error == (if recovered then None else Some("interrupted by server restart"))
                  else job == before)
  {
    hide Find, EndAttempts, Interrupt;
    InterruptRecord(Recover(files, b, stamp), stamp);
  }

  /** The identity state after a restart: untouched unless a file is recovered; then that of the file, where one that
      does not apply becomes unconditioned or not verified as the plan was conditioned or not. */
  lemma RestartIdentity(files: seq<Media>, b: Bundle, stamp: int)
    ensures var after, found := Restart(files, b, stamp), Find(files, b);
            after.identity ==
              if !(UnderWay(b) && found.Some?) then b.identity
              else if found.value.identity != NotApplicable || b.plan == None then found.value.identity
              else match b.plan.value.conditioning
                case NoConditioning => Unconditioned
                case Ready => NotVerified
                case OtherConditioning => NotApplicable
  {
    hide Find, EndAttempts, InterruptedPlan;
  }

  /** Recovery never claims a verification that did not happen: an identity is verified after a restart only
      if it was before, or if the media is that of an attempt that passed on a plan conditioned on an identity. */
  lemma VerifiedIsEarned(files: seq<Media>, b: Bundle, stamp: int)
    requires Restart(files, b, stamp).identity == Verified && b.identity != Verified
    ensures Considered(b) && Find(files, b).Some? && b.plan.Some?
    ensures var plan, attempt := b.plan.value, Find(files, b).value.attempt;
            && plan.conditioning != NoConditioning && (plan.required || plan.conditioning == Ready)
            && attempt.Some? && attempt.value < |plan.attempts| && plan.attempts[attempt.value].status == Passed
            && plan.attempts[attempt.value].mediaId == Some(Find(files, b).value.mediaId)
  {
    hide Serves, Best, Newest, EndAttempts, InterruptedPlan;
  }

  /** The audit log gains one event exactly if a request is recovered that was not before, and that event
      leads from the request's status to completed; an interruption is not logged. */
  lemma RestartLogs(files: seq<Media>, b: Bundle, stamp: int)
    ensures var after, recovered := Restart(files, b, stamp), Considered(b) && Find(files, b).Some?;
            && after.record.events == b.record.events +
                 (if recovered && !b.recovered
                  then [C.Event(C.Completes, Some(b.record.request.status), C.Completed)] else [])
            && after.recovered == (b.recovered || recovered)
  {
    hide Find, EndAttempts, InterruptedPlan;
  }

  lemma InterruptAttempt(b: Bundle, stamp: int, i: nat)
    requires b.plan.Some? && i < |b.plan.value.attempts|
    ensures var after := Interrupt(b, stamp);
            && after.identity == b.identity && after.plan.Some?
            && |after.plan.value.attempts| == |b.plan.value.attempts|
            && after.plan.value.attempts[i] == Interrupted(b.plan.value.attempts[i])
  {
  }

  lemma RecoverAttempt(files: seq<Media>, b: Bundle, stamp: int, i: nat)
    requires b.plan.Some? && i < |b.plan.value.attempts|
    ensures var after := Recover(files, b, stamp);
            var found := if Considered(b) then Find(files, b) else None;
            && after.plan.Some? && |after.plan.value.attempts| == |b.plan.value.attempts|
            && after.plan.value.attempts[i] ==
                 if found.Some?
                 then Settle(b.plan.value.attempts[i], i, found.value.attempt, after.identity, found.value.mediaId)
                 else b.plan.value.attempts[i]
  {
    hide Find, Settle, Settled;
  }

  /** Of the attempts still running at a restart, those that the recovered media stands for end passed or
      unverified with a media id, all others end in error, and no attempt that had ended is changed. */
  lemma RestartEndsAttempts(files: seq<Media>, b: Bundle, stamp: int, i: nat)
    requires b.plan.Some? && i < |b.plan.value.attempts|
    ensures var after := Restart(files, b, stamp);
            var found := if Considered(b) then Find(files, b) else None;
            && after.plan.Some? && |after.plan.value.attempts| == |b.plan.value.attempts|
            && var was, now := b.plan.value.attempts[i], after.plan.value.attempts[i];
               && (was.status != Running ==> now == was)
               && (was.status == Running ==>
                     if found.Some? && (found.value.attempt == None || found.value.attempt == Some(i))
                     then now.mediaId.Some? && now.status ==
                            (if after.identity in {NotVerified, Unconditioned} then Unverified else Passed)
                     else now == was.(status := Error))
  {
    hide Find, Recover, Interrupt;
    RecoverAttempt(files, b, stamp, i);
    InterruptAttempt(Recover(files, b, stamp), stamp, i);
  }

  predicate AttemptRunning(b: Bundle) {
    b.plan.Some? && exists a :: a in b.plan.value.attempts && a.status == Running
  }

  // Nothing of the bundle is in flight any more.
  predicate Quiet(b: Bundle) {
    !InFlight(b.record.request.status) && !AttachmentInFlight(b) && !JobInFlight(b) && !AttemptRunning(b)
  }

  lemma RestartQuiet(files: seq<Media>, b: Bundle, stamp: int)
    ensures Quiet(Restart(files, b, stamp))
  {
    hide Find, EndAttempts, Recover;
    var after := Recover(files, b, stamp);
    if Interrupt(after, stamp).plan.Some? {
      var attempts := Interrupt(after, stamp).plan.value.attempts;
      forall a | a in attempts ensures a.status != Running {
        var i :| 0 <= i < |attempts| && attempts[i] == a;
        assert a == Interrupted(after.plan.value.attempts[i]);
      }
    }
  }

  /** A bundle with nothing in flight is left as it is, whatever files there are. */
  lemma QuietStays(files: seq<Media>, b: Bundle, stamp: int)
    requires Quiet(b)
    ensures Restart(files, b, stamp) == b
  {
    hide Find;
    assert Recover(files, b, stamp) == b;
    if b.plan.Some? {
      var plan := b.plan.value;
      assert InterruptedPlan(plan).attempts == plan.attempts by {
        forall i | 0 <= i < |plan.attempts| ensures Interrupted(plan.attempts[i]) == plan.attempts[i] {
          assert plan.attempts[i] in plan.attempts;
        }
      }
    }
  }

  /** A second recovery changes nothing, even with other files and at another time. */
  lemma RestartIdempotent(files: seq<Media>, b: Bundle, stamp: int, later: seq<Media>, laterStamp: int)
    ensures Restart(later, Restart(files, b, stamp), laterStamp) == Restart(files, b, stamp)
  {
    hide Quiet, Restart;
    RestartQuiet(files, b, stamp);
    QuietStays(later, Restart(files, b, stamp), laterStamp);
  }

  /** Request and job that agree before the restart agree after it. */
  lemma RestartAgrees(files: seq<Media>, b: Bundle, stamp: int)
    requires C.Agrees(b.record)
    ensures C.Agrees(Restart(files, b, stamp).record)
  {
    hide Find, EndAttempts, Interrupt;
    InterruptRecord(Recover(files, b, stamp), stamp);
  }

  /** The attachment still says what the request is exactly if the request was not waiting for
      confirmation: its queued attachment is failed while the request goes on waiting. */
  lemma RestartFitsIff(files: seq<Media>, b: Bundle, stamp: int)
    requires C.AttachmentFits(b.record)
    ensures C.AttachmentFits(Restart(files, b, stamp).record) <==>
              !(b.record.request.status == C.PendingConfirmation && b.record.attachment.Some?)
  {
    hide Find, Completed, Interrupt, C.AttachmentFits;
    var after := Recover(files, b, stamp);
    if Considered(b) && Find(files, b).Some? {
      CompletedFits(b, Find(files, b).value, stamp);
    }
    InterruptFitsIff(after, stamp);
  }

  lemma CompletedFits(b: Bundle, c: Candidate, stamp: int)
    requires Considered(b)
    ensures var r := Completed(b, c, stamp).record;
            C.AttachmentFits(r) && r.request.status == C.Completed && r.attachment.Some?
  {
    hide EndAttempts;
  }

  lemma InterruptFitsIff(b: Bundle, stamp: int)
    requires C.AttachmentFits(b.record)
    ensures C.AttachmentFits(Interrupt(b, stamp).record) <==>
              !(b.record.request.status == C.PendingConfirmation && b.record.attachment.Some?)
  {
    hide Interrupt, EndJob;
    InterruptRecord(b, stamp);
  }

  // ---------------------------------------------------------------------------
  // The tables

  class Database {
    var bundles: map<nat, Bundle>
    var turns: map<nat, J.Status>

    method Reconcile(files: seq<Media>, stamp: int)
      modifies `bundles
      ensures bundles.Keys == old(bundles.Keys)
      ensures forall id :: id in bundles ==> bundles[id] == Recover(files, old(bundles)[id], stamp)
    {
      hide Find;
      var rows := set id | id in bundles && Considered(bundles[id]);
      while rows != {}
        invariant bundles.Keys == old(bundles.Keys)
        invariant forall id :: id in rows ==>
                    id in bundles && Considered(old(bundles)[id]) && bundles[id] == old(bundles)[id]
        invariant forall id :: id in bundles && id !in rows ==> bundles[id] == Recover(files, old(bundles)[id], stamp)
      {
        var id :| id in rows;
        var found := Find(files, bundles[id]);
        if found.Some? {
          bundles := bundles[id := Completed(bundles[id], found.value, stamp)];
        }
        rows := rows - {id};
      }
    }

    // One UPDATE over all rows
    method UpdateAll(f: Bundle -> Bundle)
      modifies `bundles
      ensures bundles.Keys == old(bundles.Keys)
      ensures forall id :: id in bundles ==> bundles[id] == f(old(bundles)[id])
    {
      bundles := map id | id in bundles :: f(bundles[id]);
    }

    method Initialize(files: seq<Media>, stamp: int)
      modifies this
      ensures bundles.Keys == old(bundles.Keys) && turns.Keys == old(turns.Keys)
      ensures forall id :: id in bundles ==> bundles[id] == Restart(files, old(bundles)[id], stamp)
      ensures forall id :: id in turns ==>
                turns[id] == if old(turns)[id] in {J.Queued, J.Running} then J.Failed else old(turns)[id]
    {
      hide Recover, FailJob, FailRequest, FailAttachment, FailAttempts;
      Reconcile(files, stamp);
      UpdateAll(b => FailJob(b, stamp));
      turns := map id | id in turns :: if turns[id] in {J.Queued, J.Running} then J.Failed else turns[id];
      UpdateAll(b => FailRequest(b));
      UpdateAll(b => FailAttachment(b));
      UpdateAll(b => FailAttempts(b));
    }
  }
}
