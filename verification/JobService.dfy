/**
 The job service around the queue: registration, worker threads, user cancellation, admission
 rejection and shutdown, as interleaved atomic steps.

 One `View` holds everything that belongs to one job: its row, its entries in the service's three
 dictionaries, its done event, where it currently is, and the cancel and reject calls in flight on it.
 Three flags record what went wrong: `lost`, that the transaction with which a worker ends the job raised;
 `dropped`, that the one of the reject call which took the job off the queue did; `blind`, that the cancel
 call which took it off the queue had found no done event to signal.
 */
module JobService {
  import opened Common
  import opened JobStore

  // A worker's position inside `_run`
  datatype Pc = Selected | Executing | Returned | Failing | Cancelling | Settled | Popped(hadDone: bool) | Signalled

  datatype Where =
    | Unsubmitted | Registered | Waiting | Working(pc: Pc)
    | Detached | Inspected(registered: bool, hadDone: bool) | Finalizing(hadDone: bool)
    | ByCancel(call: nat) | ByReject(call: nat)
    | Gone | Aborted

  datatype CancelCall =
    | Read(registered: bool) | Written | Fetched(hadDone: bool)
    | Unqueued(removed: bool, hadDone: bool) | Dropped(removed: bool, hadDone: bool)

  datatype RejectCall = Taken(removed: bool) | Noted(removed: bool) | Cleared(removed: bool, hadDone: bool)

  datatype View = View(
    job: Job, token: bool, execution: bool, doneEntry: bool, done: bool, accepted: bool, where: Where,
    cancels: map<nat, CancelCall>, rejects: map<nat, RejectCall>, blind: bool, lost: bool, dropped: bool)

  datatype SubmitStep = Register | Enqueue | AbortSubmit | AbortRaises

  datatype WorkStep =
    | PickUp
    | Begin(now: int, raises: bool, cancelled: bool)
    | Execute(next: Pc)
    | Complete(now: int, raises: bool, cancelled: bool, publishRaises: bool)
    | Fail(now: int, code: string, raises: bool)
    | EndCancelled(now: int, raises: bool)
    | Pop | Signal | Finish

  datatype CancelStep = Look | Write(now: int, raises: bool) | Fetch | Abandon | Unqueue | Drop | SignalDone

  datatype RejectStep = Take | Note(now: int, code: string, raises: bool) | Clear | Report

  datatype FinalizeStep = Inspect | WriteCancelled(now: int, raises: bool) | Forget | Skip

  datatype Step =
    | Submits(submit: SubmitStep) | Works(work: WorkStep)
    | Cancels(call: nat, cancel: CancelStep) | Rejects(call: nat, reject: RejectStep)
    | Finalizes(finalize: FinalizeStep)

  // ---------------------------------------------------------------------------
  // Submission: `submit`

  predicate CanSubmit(v: View, s: SubmitStep) {
    v.where == if s.Register? then Unsubmitted else Registered
  }

  function NextSubmit(v: View, s: SubmitStep): View
    requires CanSubmit(v, s)
  {
    match s
    case Register => v.(token := true, execution := true, doneEntry := true, where := Registered)
    case Enqueue => v.(accepted := true, where := Waiting)
    case AbortSubmit => v.(token := false, execution := false, doneEntry := false, done := true, where := Aborted)
    case AbortRaises => v.(where := Aborted)
  }

  // ---------------------------------------------------------------------------
  // A worker thread: `_run`

  predicate CanWork(v: View, s: WorkStep) {
    match s
    case PickUp => v.where == Waiting
    case Begin(_, _, _) => v.where == Working(Selected)
    case Execute(next) => v.where == Working(Executing) && (next == Returned || next == Failing || next == Cancelling)
    case Complete(_, _, _, _) => v.where == Working(Returned)
    case Fail(_, _, _) => v.where == Working(Failing)
    case EndCancelled(_, _) => v.where == Working(Cancelling)
    case Pop => v.where == Working(Settled)
    case Signal => v.where.Working? && v.where.pc.Popped?
    case Finish => v.where == Working(Signalled)
  }

  // Where an exception takes the worker
  function Exit(cancelled: bool): Pc {
    if cancelled then Cancelling else Failing
  }

  function Begun(v: View, tx: Tx<bool>, cancelled: bool): View {
    if tx.Rollback? then v.(where := Working(Exit(cancelled)))
    else v.(job := tx.job, where := Working(if tx.value then Executing else Settled))
  }

  function Finished(v: View, tx: Tx<bool>, cancelled: bool, publishRaises: bool): View {
    if tx.Rollback? then v.(where := Working(Exit(cancelled)))
    else v.(job := tx.job, where := Working(if tx.value && publishRaises then Failing else Settled))
  }

  function EndedBy(v: View, tx: Tx<()>): View {
    if tx.Rollback? then v.(lost := true, where := Working(Settled)) else v.(job := tx.job, where := Working(Settled))
  }

  function NextWork(v: View, s: WorkStep): View
    requires CanWork(v, s)
  {
    match s
    case PickUp => v.(where := Working(Selected))
    case Begin(now, raises, cancelled) => Begun(v, BeginTx(v.job, true, now, raises), cancelled)
    case Execute(next) => v.(where := Working(next))
    case Complete(now, raises, cancelled, publishRaises) =>
      Finished(v, CompleteTx(v.job, true, now, raises), cancelled, publishRaises)
    case Fail(now, code, raises) => EndedBy(v, FailTx(v.job, true, now, code, raises))
    case EndCancelled(now, raises) => EndedBy(v, CancelTerminalTx(v.job, true, true, now, raises))
    case Pop => v.(token := false, execution := false, where := Working(Popped(v.doneEntry)))
    case Signal => v.(done := v.done || v.where.pc.hadDone, where := Working(Signalled))
    case Finish => v.(where := Gone)
  }

  // ---------------------------------------------------------------------------
  // A user's `cancel` call

  predicate CanCancel(v: View, k: nat, s: CancelStep) {
    match s
    case Look => k !in v.cancels
    case Write(_, _) => k in v.cancels && v.cancels[k].Read?
    case Fetch => k in v.cancels && v.cancels[k].Written?
    case Abandon => k in v.cancels && v.cancels[k].Fetched?
    case Unqueue => k in v.cancels && v.cancels[k].Fetched?
    case Drop => k in v.cancels && v.cancels[k].Unqueued?
    case SignalDone => k in v.cancels && v.cancels[k].Dropped?
  }

  function CancelWritten(v: View, k: nat, tx: Tx<bool>): View {
    if tx.Rollback? then v.(cancels := v.cancels - {k}) else v.(job := tx.job, cancels := v.cancels[k := Written])
  }

  function NextCancel(v: View, k: nat, s: CancelStep): View
    requires CanCancel(v, k, s)
  {
    match s
    case Look => v.(cancels := v.cancels[k := Read(v.execution)])
    case Write(now, raises) => CancelWritten(v, k, CancelTx(v.job, v.cancels[k].registered, now, raises))
    case Fetch => v.(cancels := v.cancels[k := Fetched(v.doneEntry)])
    case Abandon => v.(cancels := v.cancels - {k})
    case Unqueue =>
      var removed := v.where == Waiting;
      v.(cancels := v.cancels[k := Unqueued(removed, v.cancels[k].hadDone)],
         where := if removed then ByCancel(k) else v.where,
         blind := v.blind || (removed && !v.cancels[k].hadDone))
    case Drop =>
      var c := v.cancels[k];
      v.(token := v.token && !c.removed, execution := v.execution && !c.removed,
         cancels := v.cancels[k := Dropped(c.removed, c.hadDone)])
    case SignalDone =>
      v.(done := v.done || v.cancels[k].hadDone, cancels := v.cancels - {k},
         where := if v.cancels[k].removed then Gone else v.where)
  }

  // ---------------------------------------------------------------------------
  // A rejection by the resource coordinator: `_admission_reject`

  // Only a submitted job without a turn is rejected.
  predicate CanReject(v: View, k: nat, s: RejectStep) {
    match s
    case Take => k !in v.rejects && v.where != Unsubmitted && v.where != Registered && v.job.turn == None
    case Note(_, _, _) => k in v.rejects && v.rejects[k].Taken?
    case Clear => k in v.rejects && v.rejects[k].Noted?
    case Report => k in v.rejects && v.rejects[k].Cleared?
  }

  function RejectNoted(v: View, k: nat, removed: bool, tx: Tx<()>): View {
    if tx.Rollback? then
      v.(dropped := v.dropped || removed, rejects := v.rejects - {k}, where := if removed then Gone else v.where)
    else v.(job := tx.job, rejects := v.rejects[k := Noted(removed)])
  }

  function NextReject(v: View, k: nat, s: RejectStep): View
    requires CanReject(v, k, s)
  {
    match s
    case Take =>
      var removed := v.where == Waiting;
      v.(rejects := v.rejects[k := Taken(removed)], where := if removed then ByReject(k) else v.where)
    case Note(now, code, raises) =>
      RejectNoted(v, k, v.rejects[k].removed, FailTx(v.job, false, now, code, raises))
    case Clear =>
      v.(token := false, execution := false, rejects := v.rejects[k := Cleared(v.rejects[k].removed, v.doneEntry)])
    case Report =>
      v.(done := v.done || v.rejects[k].hadDone, rejects := v.rejects - {k},
         where := if v.rejects[k].removed then Gone else v.where)
  }

  // ---------------------------------------------------------------------------
  // A detached job during shutdown: `_finalize_stopped_pending`

  // The entries are looked up first; the write comes after.
  predicate CanFinalize(v: View, s: FinalizeStep) {
    match s
    case Inspect => v.where == Detached
    case WriteCancelled(_, _) => v.where.Inspected?
    case Forget => v.where.Finalizing?
    case Skip => v.where.Finalizing?
  }

  function Finalized(v: View, hadDone: bool, tx: Tx<()>): View {
    if tx.Rollback? then v.(where := Detached) else v.(job := tx.job, where := Finalizing(hadDone))
  }

  function NextFinalize(v: View, s: FinalizeStep): View
    requires CanFinalize(v, s)
  {
    match s
    case Inspect => v.(where := Inspected(v.execution, v.doneEntry))
    case WriteCancelled(now, raises) =>
      Finalized(v, v.where.hadDone, CancelTerminalTx(v.job, true, v.where.registered, now, raises))
    case Forget =>
      v.(token := false, execution := false, doneEntry := false, done := v.done || v.where.hadDone, where := Gone)
    case Skip => v.(where := Detached)
  }

  predicate Enabled(v: View, s: Step) {
    match s
    case Submits(u) => CanSubmit(v, u)
    case Works(w) => CanWork(v, w)
    case Cancels(k, c) => CanCancel(v, k, c)
    case Rejects(k, r) => CanReject(v, k, r)
    case Finalizes(f) => CanFinalize(v, f)
  }

  function Next(v: View, s: Step): View
    requires Enabled(v, s)
  {
    match s
    case Submits(u) => NextSubmit(v, u)
    case Works(w) => NextWork(v, w)
    case Cancels(k, c) => NextCancel(v, k, c)
    case Rejects(k, r) => NextReject(v, k, r)
    case Finalizes(f) => NextFinalize(v, f)
  }

  // ---------------------------------------------------------------------------
  // What every step keeps of one job

  predicate Over(v: View) {
    v.job.row.status.Terminal()
  }

  predicate NoEntries(v: View) {
    !v.token && !v.execution
  }

  // The job has not passed the one transaction that can complete it.
  predicate NotYetCompleted(where: Where) {
    match where
    case Working(pc) => pc == Selected || pc == Executing || pc == Returned
    case ByCancel(_) => false
    case ByReject(_) => false
    case Gone => false
    case Aborted => false
    case _ => true
  }

  predicate EndedOrLost(v: View) {
    Over(v) || v.lost
  }

  predicate WorkerHolds(v: View, pc: Pc) {
    match pc
    case Settled => EndedOrLost(v)
    case Popped(hadDone) => EndedOrLost(v) && NoEntries(v) && hadDone
    case Signalled => EndedOrLost(v) && NoEntries(v) && v.done
    case _ => !v.lost
  }

  predicate CancelHolds(v: View, c: CancelCall) {
    match c
    case Unqueued(_, hadDone) => hadDone || v.blind
    case Dropped(_, hadDone) => (hadDone || v.blind) && NoEntries(v)
    case _ => false
  }

  predicate RejectHolds(v: View, r: RejectCall) {
    match r
    case Cleared(_, hadDone) => hadDone && NoEntries(v)
    case _ => true
  }

  // Whoever holds the job knows enough to clean up after it.
  predicate Held(v: View) {
    match v.where
    case Unsubmitted => NoEntries(v)
    case Working(pc) => WorkerHolds(v, pc)
    case Inspected(_, hadDone) => hadDone
    case Finalizing(hadDone) => hadDone && Over(v)
    case ByCancel(k) => k in v.cancels && CancelHolds(v, v.cancels[k])
    case ByReject(k) => k in v.rejects && RejectHolds(v, v.rejects[k])
    case Gone => v.dropped || (EndedOrLost(v) && NoEntries(v) && (v.done || v.blind))
    case _ => true
  }

  // The done event stays on record from registration until the job is given up, and only a job that was
  // put on the queue is accepted.
  predicate OnRecord(v: View) {
    && (v.where == Unsubmitted ==> !v.doneEntry)
    && (v.where != Unsubmitted && v.where != Gone && v.where != Aborted ==> v.doneEntry)
    && (v.where == Unsubmitted || v.where == Registered || v.where == Aborted ==> !v.accepted)
  }

  // The cancel call took the job off the queue and has not finished with it.
  predicate Removed(v: View, k: nat) {
    k in v.cancels && (v.cancels[k].Unqueued? || v.cancels[k].Dropped?) && v.cancels[k].removed
  }

  // What a cancel call relies on
  predicate CancelOk(v: View, k: nat) {
    && (v.where == ByCancel(k) <==> Removed(v, k))
    && (k in v.cancels && !v.cancels[k].Read? ==> Over(v))
  }

  // What a reject call relies on
  predicate RejectOk(v: View, k: nat) {
    && (v.where == ByReject(k) <==> k in v.rejects && v.rejects[k].removed)
    && (k in v.rejects ==> v.job.turn == None && v.where != Unsubmitted && v.where != Registered)
    && (k in v.rejects && !v.rejects[k].Taken? ==> Over(v))
  }

  ghost predicate Calls(v: View) {
    forall k :: CancelOk(v, k) && RejectOk(v, k)
  }

  // Where the job is once something went wrong with it
  predicate Excused(v: View) {
    && (v.lost ==> v.where.Working? || v.where == Gone)
    && (v.dropped ==> v.where == Gone)
    && (v.blind ==> v.where.ByCancel? || v.where == Gone)
  }

  predicate Kept(v: View) {
    Held(v) && Excused(v)
  }

  ghost predicate Sound(v: View) {
    && Consistent(v.job)
    && (NotYetCompleted(v.where) ==> v.job.row.status != Completed)
    && OnRecord(v)
    && Kept(v)
  }

  ghost predicate Inv(v: View) {
    Sound(v) && Calls(v)
  }

  function Fresh(hasTurn: bool): View {
    View(NewJob(hasTurn), false, false, false, false, false, Unsubmitted, map[], map[], false, false, false)
  }

  // ---------------------------------------------------------------------------
  // Steps keep the invariant

  predicate SameOutcome(a: Job, b: Job) {
    a.row == b.row && a.turn == b.turn && a.committed == b.committed
  }

  // What the proofs below use of a transaction that committed
  ghost predicate Advances(a: Job, b: Job) {
    && Consistent(b)
    && (b.turn == None <==> a.turn == None)
    && (a.row.status.Terminal() ==> b.row.status.Terminal() && SameOutcome(b, a))
  }

  lemma TransactionAdvances(job: Job, t: Transaction)
    requires Consistent(job) && (WithTurn(t) || job.turn == None) && (t.DoComplete? ==> job.row.status != Completed)
    ensures Advances(job, Apply(job, t))
    ensures Ends(job, t) ==> Apply(job, t).row.status.Terminal()
    ensures Apply(job, t).row.status == Completed ==> job.row.status == Completed || t.DoComplete?
  {
    TransactionKeepsConsistent(job, t);
    TransactionKeepsTurn(job, t);
    if job.row.status.Terminal() { TerminalIsFinal(job, t); }
    if Ends(job, t) { EndingEnds(job, t); }
    hide Consistent, Apply, Ends;
  }

  lemma BeginAdvances(job: Job, now: int, raises: bool)
    requires Consistent(job)
    ensures var tx := BeginTx(job, true, now, raises);
            tx.Commit? ==>
              && Advances(job, tx.job) && (!tx.value ==> tx.job.row.status.Terminal())
              && (tx.job.row.status == Completed ==> job.row.status == Completed)
  {
    TransactionAdvances(job, DoBegin(true, now, raises));
    hide Consistent, BeginTx, Advances;
  }

  lemma CompleteAdvances(job: Job, now: int, raises: bool)
    requires Consistent(job) && job.row.status != Completed
    ensures var tx := CompleteTx(job, true, now, raises);
            tx.Commit? ==> Advances(job, tx.job) && tx.job.row.status.Terminal()
  {
    TransactionAdvances(job, DoComplete(true, now, raises));
    hide Consistent, CompleteTx, Advances;
  }

  // The job ended, and did not complete now.
  ghost predicate EndsAs(a: Job, b: Job) {
    Advances(a, b) && b.row.status.Terminal() && (b.row.status == Completed ==> a.row.status == Completed)
  }

  lemma FailAdvances(job: Job, withTurn: bool, now: int, code: string, raises: bool)
    requires Consistent(job) && (withTurn || job.turn == None)
    ensures var tx := FailTx(job, withTurn, now, code, raises); tx.Commit? ==> EndsAs(job, tx.job)
  {
    TransactionAdvances(job, DoFail(withTurn, now, code, raises));
    hide Consistent, FailTx, Advances;
  }

  lemma CancelTerminalAdvances(job: Job, registered: bool, now: int, raises: bool)
    requires Consistent(job)
    ensures var tx := CancelTerminalTx(job, true, registered, now, raises); tx.Commit? ==> EndsAs(job, tx.job)
  {
    TransactionAdvances(job, DoCancelTerminal(true, registered, now, raises));
    hide Consistent, CancelTerminalTx, Advances;
  }

  lemma CancelAdvances(job: Job, registered: bool, now: int, raises: bool)
    requires Consistent(job)
    ensures var tx := CancelTx(job, registered, now, raises); tx.Commit? ==> EndsAs(job, tx.job)
  {
    TransactionAdvances(job, DoCancel(registered, now, raises));
    hide Consistent, CancelTx, Advances;
  }

  // The job moves on without any call having hold of it.
  ghost predicate MovesOn(v: View, w: View) {
    && w.cancels == v.cancels && w.rejects == v.rejects
    && !v.where.ByCancel? && !v.where.ByReject? && !w.where.ByCancel? && !w.where.ByReject?
    && (v.where != Unsubmitted && v.where != Registered ==> w.where != Unsubmitted && w.where != Registered)
    && (w.job.turn == None <==> v.job.turn == None)
    && (Over(v) ==> Over(w))
  }

  lemma MovingOnKeepsCalls(v: View, w: View)
    requires Calls(v) && MovesOn(v, w)
    ensures Calls(w)
  {
    forall k ensures CancelOk(w, k) && RejectOk(w, k) {
      assert CancelOk(v, k) && RejectOk(v, k);
    }
  }

  lemma SubmitKeeps(v: View, s: SubmitStep)
    requires Sound(v) && CanSubmit(v, s)
    ensures Sound(NextSubmit(v, s))
    ensures v.rejects == map[] ==> MovesOn(v, NextSubmit(v, s))
  {
    hide Consistent;
    match s
    case Register =>
    case Enqueue =>
    case AbortSubmit =>
    case AbortRaises =>
  }

  lemma BegunKeeps(v: View, tx: Tx<bool>, cancelled: bool)
    requires Sound(v) && v.where == Working(Selected)
    requires tx.Commit? ==>
               && Advances(v.job, tx.job) && (!tx.value ==> tx.job.row.status.Terminal())
               && (tx.job.row.status == Completed ==> v.job.row.status == Completed)
    ensures Sound(Begun(v, tx, cancelled)) && MovesOn(v, Begun(v, tx, cancelled))
  {
    hide Consistent;
  }

  lemma FinishedKeeps(v: View, tx: Tx<bool>, cancelled: bool, publishRaises: bool)
    requires Sound(v) && v.where == Working(Returned)
    requires tx.Commit? ==> Advances(v.job, tx.job) && tx.job.row.status.Terminal()
    ensures var w := Finished(v, tx, cancelled, publishRaises); Sound(w) && MovesOn(v, w)
  {
    hide Consistent;
  }

  lemma EndedByKeeps(v: View, tx: Tx<()>)
    requires Sound(v) && (v.where == Working(Failing) || v.where == Working(Cancelling))
    requires tx.Commit? ==> EndsAs(v.job, tx.job)
    ensures Sound(EndedBy(v, tx)) && MovesOn(v, EndedBy(v, tx))
  {
    hide Consistent;
  }

  lemma WorkKeeps(v: View, s: WorkStep)
    requires Sound(v) && CanWork(v, s)
    ensures Sound(NextWork(v, s)) && MovesOn(v, NextWork(v, s))
  {
    hide Consistent, Begun, Finished, EndedBy;
    match s
    case Begin(now, raises, cancelled) =>
      BeginAdvances(v.job, now, raises);
      BegunKeeps(v, BeginTx(v.job, true, now, raises), cancelled);
    case Complete(now, raises, cancelled, publishRaises) =>
      CompleteAdvances(v.job, now, raises);
      FinishedKeeps(v, CompleteTx(v.job, true, now, raises), cancelled, publishRaises);
    case Fail(now, code, raises) =>
      FailAdvances(v.job, true, now, code, raises);
      EndedByKeeps(v, FailTx(v.job, true, now, code, raises));
    case EndCancelled(now, raises) =>
      CancelTerminalAdvances(v.job, true, now, raises);
      EndedByKeeps(v, CancelTerminalTx(v.job, true, true, now, raises));
    case _ => BookkeepingKeeps(v, s);
  }

  lemma BookkeepingKeepsKept(v: View, s: WorkStep)
    requires Kept(v) && OnRecord(v) && CanWork(v, s)
    requires s.PickUp? || s.Execute? || s.Pop? || s.Signal? || s.Finish?
    ensures Kept(NextWork(v, s))
  {
    match s
    case PickUp =>
    case Execute(_) =>
    case Pop =>
    case Signal =>
    case Finish =>
  }

  lemma BookkeepingKeeps(v: View, s: WorkStep)
    requires Sound(v) && CanWork(v, s) && (s.PickUp? || s.Execute? || s.Pop? || s.Signal? || s.Finish?)
    ensures Sound(NextWork(v, s))
    ensures MovesOn(v, NextWork(v, s))
  {
    hide Consistent, Kept;
    BookkeepingKeepsKept(v, s);
    match s
    case PickUp =>
    case Execute(_) =>
    case Pop =>
    case Signal =>
    case Finish =>
  }

  lemma FinalizedKeeps(v: View, tx: Tx<()>)
    requires Sound(v) && v.where.Inspected?
    requires tx.Commit? ==> EndsAs(v.job, tx.job)
    ensures var w := Finalized(v, v.where.hadDone, tx); Sound(w) && MovesOn(v, w)
  {
    hide Consistent;
  }

  lemma FinalizeKeeps(v: View, s: FinalizeStep)
    requires Sound(v) && CanFinalize(v, s)
    ensures Sound(NextFinalize(v, s)) && MovesOn(v, NextFinalize(v, s))
  {
    hide Consistent, Finalized;
    match s
    case WriteCancelled(now, raises) =>
      CancelTerminalAdvances(v.job, v.where.registered, now, raises);
      FinalizedKeeps(v, CancelTerminalTx(v.job, true, v.where.registered, now, raises));
    case Inspect =>
    case Forget =>
    case Skip =>
  }

  // Registration comes before any reject call, which needs a submitted job.
  lemma NoRejectsYet(v: View)
    requires Calls(v) && (v.where == Unsubmitted || v.where == Registered)
    ensures v.rejects == map[]
  {
    forall k ensures k !in v.rejects {
      assert RejectOk(v, k);
    }
  }

  lemma WrittenKeeps(v: View, c: nat, tx: Tx<bool>)
    requires Sound(v) && c in v.cancels && v.cancels[c].Read?
    requires tx.Commit? ==> EndsAs(v.job, tx.job)
    ensures Sound(CancelWritten(v, c, tx))
  {
    hide Consistent;
  }

  lemma WrittenKeepsCalls(v: View, c: nat, tx: Tx<bool>, k: nat)
    requires c in v.cancels && v.cancels[c].Read? && CancelOk(v, k) && RejectOk(v, k)
    requires tx.Commit? ==> EndsAs(v.job, tx.job)
    ensures CancelOk(CancelWritten(v, c, tx), k) && RejectOk(CancelWritten(v, c, tx), k)
  {
    hide Consistent;
  }

  lemma LookingKeepsKept(v: View, c: nat, s: CancelStep)
    requires Kept(v) && CanCancel(v, c, s) && CancelOk(v, c) && (s.Look? || s.Fetch? || s.Abandon?)
    ensures Kept(NextCancel(v, c, s))
  {
    match s
    case Look =>
    case Fetch =>
    case Abandon =>
  }

  lemma TakingKeepsKept(v: View, c: nat, s: CancelStep)
    requires Kept(v) && CanCancel(v, c, s) && CancelOk(v, c) && (s.Unqueue? || s.Drop? || s.SignalDone?)
    ensures Kept(NextCancel(v, c, s))
  {
    match s
    case Unqueue =>
    case Drop =>
    case SignalDone =>
  }

  lemma CancelKeepsSound(v: View, c: nat, s: CancelStep)
    requires Sound(v) && CanCancel(v, c, s) && CancelOk(v, c) && !s.Write?
    ensures Sound(NextCancel(v, c, s))
  {
    hide Consistent, Kept;
    if s.Look? || s.Fetch? || s.Abandon? { LookingKeepsKept(v, c, s); } else { TakingKeepsKept(v, c, s); }
    match s
    case Look =>
    case Fetch =>
    case Abandon =>
    case Unqueue =>
    case Drop =>
    case SignalDone =>
  }

  lemma CancelKeepsCancelOk(v: View, c: nat, s: CancelStep, k: nat)
    requires CanCancel(v, c, s) && CancelOk(v, c) && CancelOk(v, k) && !s.Write?
    ensures CancelOk(NextCancel(v, c, s), k)
  {
    match s
    case Look =>
    case Fetch =>
    case Abandon =>
    case Unqueue =>
    case Drop =>
    case SignalDone =>
  }

  lemma CancelKeepsRejectOk(v: View, c: nat, s: CancelStep, k: nat)
    requires CanCancel(v, c, s) && CancelOk(v, c) && RejectOk(v, k) && !s.Write?
    ensures RejectOk(NextCancel(v, c, s), k)
  {
    match s
    case Look =>
    case Fetch =>
    case Abandon =>
    case Unqueue =>
    case Drop =>
    case SignalDone =>
  }

  lemma NotedKeeps(v: View, c: nat, tx: Tx<()>)
    requires Sound(v) && c in v.rejects && v.rejects[c].Taken? && RejectOk(v, c)
    requires tx.Commit? ==> EndsAs(v.job, tx.job)
    ensures Sound(RejectNoted(v, c, v.rejects[c].removed, tx))
  {
    hide Consistent;
  }

  lemma NotedKeepsCalls(v: View, c: nat, tx: Tx<()>, k: nat)
    requires c in v.rejects && v.rejects[c].Taken? && RejectOk(v, c) && CancelOk(v, k) && RejectOk(v, k)
    requires tx.Commit? ==> EndsAs(v.job, tx.job)
    ensures var w := RejectNoted(v, c, v.rejects[c].removed, tx); CancelOk(w, k) && RejectOk(w, k)
  {
    hide Consistent;
  }

  lemma RejectKeepsSound(v: View, c: nat, s: RejectStep)
    requires Sound(v) && CanReject(v, c, s) && RejectOk(v, c) && !s.Note?
    ensures Sound(NextReject(v, c, s))
  {
    hide Consistent;
    match s
    case Take =>
    case Clear =>
    case Report =>
  }

  lemma RejectKeepsCancelOk(v: View, c: nat, s: RejectStep, k: nat)
    requires CanReject(v, c, s) && RejectOk(v, c) && CancelOk(v, k) && !s.Note?
    ensures CancelOk(NextReject(v, c, s), k)
  {
    match s
    case Take =>
    case Clear =>
    case Report =>
  }

  lemma RejectKeepsRejectOk(v: View, c: nat, s: RejectStep, k: nat)
    requires CanReject(v, c, s) && RejectOk(v, c) && RejectOk(v, k) && !s.Note?
    ensures RejectOk(NextReject(v, c, s), k)
  {
    match s
    case Take =>
    case Clear =>
    case Report =>
  }

  lemma CancelWriteKeeps(v: View, c: nat, now: int, raises: bool)
    requires Inv(v) && CanCancel(v, c, Write(now, raises))
    ensures Inv(NextCancel(v, c, Write(now, raises)))
  {
    var tx := CancelTx(v.job, v.cancels[c].registered, now, raises);
    CancelAdvances(v.job, v.cancels[c].registered, now, raises);
    hide Sound, CancelOk, RejectOk, EndsAs, CancelTx, CancelWritten;
    WrittenKeeps(v, c, tx);
    forall k ensures CancelOk(CancelWritten(v, c, tx), k) && RejectOk(CancelWritten(v, c, tx), k) {
      assert CancelOk(v, k) && RejectOk(v, k);
      WrittenKeepsCalls(v, c, tx, k);
    }
  }

  lemma CancelKeeps(v: View, c: nat, s: CancelStep)
    requires Inv(v) && CanCancel(v, c, s) && !s.Write?
    ensures Inv(NextCancel(v, c, s))
  {
    hide Sound, CancelOk, RejectOk, CanCancel, NextCancel;
    assert CancelOk(v, c);
    CancelKeepsSound(v, c, s);
    forall k ensures CancelOk(NextCancel(v, c, s), k) && RejectOk(NextCancel(v, c, s), k) {
      assert CancelOk(v, k) && RejectOk(v, k);
      CancelKeepsCancelOk(v, c, s, k);
      CancelKeepsRejectOk(v, c, s, k);
    }
  }

  lemma RejectNoteKeeps(v: View, c: nat, now: int, code: string, raises: bool)
    requires Inv(v) && CanReject(v, c, Note(now, code, raises))
    ensures Inv(NextReject(v, c, Note(now, code, raises)))
  {
    assert RejectOk(v, c);
    var removed, tx := v.rejects[c].removed, FailTx(v.job, false, now, code, raises);
    FailAdvances(v.job, false, now, code, raises);
    hide Sound, CancelOk, RejectOk, EndsAs, FailTx, RejectNoted;
    NotedKeeps(v, c, tx);
    forall k ensures CancelOk(RejectNoted(v, c, removed, tx), k) && RejectOk(RejectNoted(v, c, removed, tx), k) {
      assert CancelOk(v, k) && RejectOk(v, k);
      NotedKeepsCalls(v, c, tx, k);
    }
  }

  lemma RejectKeeps(v: View, c: nat, s: RejectStep)
    requires Inv(v) && CanReject(v, c, s) && !s.Note?
    ensures Inv(NextReject(v, c, s))
  {
    hide Sound, CancelOk, RejectOk, CanReject, NextReject;
    assert RejectOk(v, c);
    RejectKeepsSound(v, c, s);
    forall k ensures CancelOk(NextReject(v, c, s), k) && RejectOk(NextReject(v, c, s), k) {
      assert CancelOk(v, k) && RejectOk(v, k);
      RejectKeepsCancelOk(v, c, s, k);
      RejectKeepsRejectOk(v, c, s, k);
    }
  }

  /** Whatever thread takes it, a step keeps the invariant of the job. */
  lemma StepKeepsInv(v: View, s: Step)
    requires Inv(v) && Enabled(v, s)
    ensures Inv(Next(v, s))
  {
    hide Sound, Calls, NextSubmit, NextWork, NextCancel, NextReject, NextFinalize;
    hide CanWork, CanCancel, CanReject, CanFinalize, MovesOn;
    match s
    case Submits(u) =>
      NoRejectsYet(v);
      SubmitKeeps(v, u);
      MovingOnKeepsCalls(v, NextSubmit(v, u));
    case Works(w) =>
      WorkKeeps(v, w);
      MovingOnKeepsCalls(v, NextWork(v, w));
    case Cancels(k, c) => if c.Write? { CancelWriteKeeps(v, k, c.now, c.raises); } else { CancelKeeps(v, k, c); }
    case Rejects(k, r) => if r.Note? { RejectNoteKeeps(v, k, r.now, r.code, r.raises); } else { RejectKeeps(v, k, r); }
    case Finalizes(f) =>
      FinalizeKeeps(v, f);
      MovingOnKeepsCalls(v, NextFinalize(v, f));
  }

  lemma FreshInv(hasTurn: bool)
    ensures Inv(Fresh(hasTurn))
  {
  }

  // ---------------------------------------------------------------------------
  // What a step does to the outcome and to where the job is

  ghost predicate KeepsOutcome(a: Job, b: Job) {
    a.row.status.Terminal() ==> SameOutcome(b, a)
  }

  lemma BegunKeepsOutcome(v: View, tx: Tx<bool>, cancelled: bool)
    requires tx.Commit? ==> Advances(v.job, tx.job)
    ensures KeepsOutcome(v.job, Begun(v, tx, cancelled).job)
  {
    hide Consistent;
  }

  lemma FinishedKeepsOutcome(v: View, tx: Tx<bool>, cancelled: bool, publishRaises: bool)
    requires tx.Commit? ==> Advances(v.job, tx.job)
    ensures KeepsOutcome(v.job, Finished(v, tx, cancelled, publishRaises).job)
  {
    hide Consistent;
  }

  lemma EndedByKeepsOutcome(v: View, tx: Tx<()>)
    requires tx.Commit? ==> EndsAs(v.job, tx.job)
    ensures KeepsOutcome(v.job, EndedBy(v, tx).job)
  {
    hide Consistent;
  }

  lemma WorkKeepsOutcome(v: View, s: WorkStep)
    requires Sound(v) && CanWork(v, s)
    ensures KeepsOutcome(v.job, NextWork(v, s).job)
  {
    hide Consistent, Kept, KeepsOutcome, Advances, EndsAs, Begun, Finished, EndedBy;
    match s
    case Begin(now, raises, cancelled) =>
      BeginAdvances(v.job, now, raises);
      BegunKeepsOutcome(v, BeginTx(v.job, true, now, raises), cancelled);
    case Complete(now, raises, cancelled, publishRaises) =>
      CompleteAdvances(v.job, now, raises);
      FinishedKeepsOutcome(v, CompleteTx(v.job, true, now, raises), cancelled, publishRaises);
    case Fail(now, code, raises) =>
      FailAdvances(v.job, true, now, code, raises);
      EndedByKeepsOutcome(v, FailTx(v.job, true, now, code, raises));
    case EndCancelled(now, raises) =>
      CancelTerminalAdvances(v.job, true, now, raises);
      EndedByKeepsOutcome(v, CancelTerminalTx(v.job, true, true, now, raises));
    case _ => BookkeepingKeepsJob(v, s);
  }

  lemma BookkeepingKeepsJob(v: View, s: WorkStep)
    requires CanWork(v, s) && (s.PickUp? || s.Execute? || s.Pop? || s.Signal? || s.Finish?)
    ensures KeepsOutcome(v.job, NextWork(v, s).job)
  {
    match s
    case PickUp =>
    case Execute(_) =>
    case Pop =>
    case Signal =>
    case Finish =>
  }

  lemma CancelKeepsOutcome(v: View, k: nat, s: CancelStep)
    requires Consistent(v.job) && CanCancel(v, k, s)
    ensures KeepsOutcome(v.job, NextCancel(v, k, s).job)
  {
    hide Consistent, CancelTx, EndsAs, Advances;
    match s
    case Look =>
    case Write(now, raises) =>
      CancelAdvances(v.job, v.cancels[k].registered, now, raises);
      WrittenKeepsOutcome(v, k, CancelTx(v.job, v.cancels[k].registered, now, raises));
    case Fetch =>
    case Abandon =>
    case Unqueue =>
    case Drop =>
    case SignalDone =>
  }

  lemma WrittenKeepsOutcome(v: View, k: nat, tx: Tx<bool>)
    requires tx.Commit? ==> EndsAs(v.job, tx.job)
    ensures KeepsOutcome(v.job, CancelWritten(v, k, tx).job)
  {
    hide Consistent;
  }

  lemma RejectKeepsOutcome(v: View, k: nat, s: RejectStep)
    requires Consistent(v.job) && CanReject(v, k, s) && RejectOk(v, k)
    ensures KeepsOutcome(v.job, NextReject(v, k, s).job)
  {
    hide Consistent, FailTx, EndsAs, Advances;
    match s
    case Take =>
    case Note(now, code, raises) =>
      FailAdvances(v.job, false, now, code, raises);
      NotedKeepsOutcome(v, k, v.rejects[k].removed, FailTx(v.job, false, now, code, raises));
    case Clear =>
    case Report =>
  }

  lemma NotedKeepsOutcome(v: View, k: nat, removed: bool, tx: Tx<()>)
    requires tx.Commit? ==> EndsAs(v.job, tx.job)
    ensures KeepsOutcome(v.job, RejectNoted(v, k, removed, tx).job)
  {
    hide Consistent;
  }

  lemma FinalizeKeepsOutcome(v: View, s: FinalizeStep)
    requires Consistent(v.job) && CanFinalize(v, s)
    ensures KeepsOutcome(v.job, NextFinalize(v, s).job)
  {
    hide Consistent, CancelTerminalTx, EndsAs, Advances;
    match s
    case Inspect =>
    case WriteCancelled(now, raises) =>
      CancelTerminalAdvances(v.job, v.where.registered, now, raises);
      FinalizedKeepsOutcome(v, v.where.hadDone, CancelTerminalTx(v.job, true, v.where.registered, now, raises));
    case Forget =>
    case Skip =>
  }

  lemma FinalizedKeepsOutcome(v: View, hadDone: bool, tx: Tx<()>)
    requires tx.Commit? ==> EndsAs(v.job, tx.job)
    ensures KeepsOutcome(v.job, Finalized(v, hadDone, tx).job)
  {
    hide Consistent;
  }

  lemma SubmitKeepsOutcome(v: View, s: SubmitStep)
    requires CanSubmit(v, s)
    ensures KeepsOutcome(v.job, NextSubmit(v, s).job)
  {
    match s
    case Register =>
    case Enqueue =>
    case AbortSubmit =>
    case AbortRaises =>
  }

  /** No step of any thread changes the outcome of a job that is over. */
  lemma StepKeepsOutcome(v: View, s: Step)
    requires Inv(v) && Enabled(v, s)
    ensures KeepsOutcome(v.job, Next(v, s).job)
  {
    hide Consistent, Kept, OnRecord, CancelOk, RejectOk, KeepsOutcome, NextSubmit, NextWork, NextCancel;
    hide NextReject, NextFinalize, CanSubmit, CanWork, CanCancel, CanReject, CanFinalize;
    match s
    case Submits(u) => SubmitKeepsOutcome(v, u);
    case Works(w) => WorkKeepsOutcome(v, w);
    case Cancels(k, c) => CancelKeepsOutcome(v, k, c);
    case Rejects(k, r) =>
      assert RejectOk(v, k);
      RejectKeepsOutcome(v, k, r);
    case Finalizes(f) => FinalizeKeepsOutcome(v, f);
  }

  // ---------------------------------------------------------------------------
  // What a worker's transactions bring about

  // The job has been given this status with its turn, and the callback has been committed.
  predicate Became(a: Job, b: Job, to: Status, callback: seq<Callback>, now: int) {
    && b.row.status == to && b.committed == a.committed + callback
    && (a.turn.Some? ==> b.turn.Some? && b.turn.value.status == to)
    && (to.Terminal() ==> b.row.completedAt == Some(now))
  }

  predicate IsOpen(job: Job) {
    job.row.status == Queued || job.row.status == Running
  }

  // An open job whose callback does not raise becomes what it is meant to, an ended one stays as it is.
  predicate EndsOrStays(a: Job, tx: Tx<()>, to: Status, callback: seq<Callback>, now: int, raises: bool) {
    if IsOpen(a) then if raises then tx == Rollback else tx.Commit? && Became(a, tx.job, to, callback, now)
    else tx.Commit? && SameOutcome(tx.job, a)
  }

  lemma BeginIs(job: Job, now: int, raises: bool)
    requires Consistent(job)
    ensures var tx := BeginTx(job, true, now, raises);
            if job.row.status == Cancelled || job.cancelRequested then tx == Commit(job, false)
            else if IsOpen(job) && !raises then tx.Commit? && tx.value && Became(job, tx.job, Running, [OnStart], now)
            else tx == Rollback
  {
    hide Outcomes;
  }

  lemma CompleteIs(job: Job, now: int, raises: bool)
    requires Consistent(job) && job.row.status != Completed
    ensures var tx := CompleteTx(job, true, now, raises);
            if job.row.status == Cancelled || job.cancelRequested then tx == Commit(job, false)
            else if job.row.status == Running && !raises then
              tx.Commit? && tx.value && Became(job, tx.job, Completed, [OnSuccess], now)
            else tx == Rollback
  {
    hide Outcomes;
  }

  lemma FailIs(job: Job, withTurn: bool, now: int, code: string, raises: bool)
    requires Consistent(job) && (withTurn || job.turn == None)
    ensures EndsOrStays(job, FailTx(job, withTurn, now, code, raises), Failed, [OnFailure], now, raises)
  {
    hide Outcomes;
  }

  lemma CancelTerminalIs(job: Job, registered: bool, now: int, raises: bool)
    requires Consistent(job)
    ensures EndsOrStays(job, CancelTerminalTx(job, true, registered, now, raises), Cancelled,
                   if registered then [OnCancel] else [], now, registered && raises)
  {
    hide Outcomes;
  }

  lemma CancelIs(job: Job, registered: bool, now: int, raises: bool)
    requires Consistent(job)
    ensures var tx := CancelTx(job, registered, now, raises);
            if !IsOpen(job) then tx == Commit(job, false)
            else if registered && raises then tx == Rollback
            else tx.Commit? && Became(job, tx.job, Cancelled, if registered then [OnCancel] else [], now)
  {
    hide Outcomes;
  }

  /** Beginning: an open job runs and is executed next, unless the callback raises; a cancelled one is left alone and
      the worker is done with it; and what cannot begin, or raises, leads to an ending, the cancelled one if the
      token is cancelled and the failed one otherwise. */
  lemma BeginDoes(v: View, now: int, raises: bool, cancelled: bool)
    requires Consistent(v.job) && v.where == Working(Selected)
    ensures var w := NextWork(v, Begin(now, raises, cancelled));
            if v.job.row.status == Cancelled || v.job.cancelRequested then
              w.where == Working(Settled) && w.job == v.job
            else if IsOpen(v.job) && !raises then
              w.where == Working(Executing) && Became(v.job, w.job, Running, [OnStart], now)
            else w.job == v.job && w.where == Working(if cancelled then Cancelling else Failing)
  {
    hide Consistent, BeginTx, Became, Begun;
    BeginIs(v.job, now, raises);
    BegunIs(v, BeginTx(v.job, true, now, raises), cancelled);
  }

  lemma BegunIs(v: View, tx: Tx<bool>, cancelled: bool)
    ensures var w := Begun(v, tx, cancelled);
            && w.job == (if tx.Commit? then tx.job else v.job) && w.lost == v.lost
            && w.where == Working(if tx.Rollback? then if cancelled then Cancelling else Failing
                                  else if tx.value then Executing else Settled)
  {
    match tx
    case Rollback =>
    case Commit(_, _) =>
  }

  /** Completing: a running job is completed with its turn, unless the callback raises; one that was cancelled
      meanwhile is left alone; and the worker is done with it, unless publishing the result raises; what cannot
      complete, or raises, leads to an ending. */
  lemma CompleteDoes(v: View, now: int, raises: bool, cancelled: bool, publishRaises: bool)
    requires Consistent(v.job) && v.where == Working(Returned) && v.job.row.status != Completed
    ensures var w := NextWork(v, Complete(now, raises, cancelled, publishRaises));
            if v.job.row.status == Cancelled || v.job.cancelRequested then
              w.where == Working(Settled) && w.job == v.job
            else if v.job.row.status == Running && !raises then
              && w.where == Working(if publishRaises then Failing else Settled)
              && Became(v.job, w.job, Completed, [OnSuccess], now)
            else w.job == v.job && w.where == Working(if cancelled then Cancelling else Failing)
  {
    hide Consistent, CompleteTx, Became, Finished;
    CompleteIs(v.job, now, raises);
    FinishedIs(v, CompleteTx(v.job, true, now, raises), cancelled, publishRaises);
  }

  lemma FinishedIs(v: View, tx: Tx<bool>, cancelled: bool, publishRaises: bool)
    ensures var w := Finished(v, tx, cancelled, publishRaises);
            && w.job == (if tx.Commit? then tx.job else v.job)
            && w.where == Working(if tx.Rollback? then if cancelled then Cancelling else Failing
                                  else if tx.value && publishRaises then Failing else Settled)
  {
    match tx
    case Rollback =>
    case Commit(_, _) =>
  }

  /** Failing: an open job fails with its turn and an ended one stays as it is; if the callback raises, the end is
      lost. Either way the worker is done with it. */
  lemma FailDoes(v: View, now: int, code: string, raises: bool)
    requires Consistent(v.job) && v.where == Working(Failing)
    ensures var w := NextWork(v, Fail(now, code, raises));
            && w.where == Working(Settled) && (w.lost <==> v.lost || (IsOpen(v.job) && raises))
            && (IsOpen(v.job) && !raises ==> Became(v.job, w.job, Failed, [OnFailure], now))
            && (!IsOpen(v.job) ==> SameOutcome(w.job, v.job)) && (IsOpen(v.job) && raises ==> w.job == v.job)
  {
    hide Consistent, FailTx, Became, EndedBy;
    FailIs(v.job, true, now, code, raises);
    EndedByIs(v, FailTx(v.job, true, now, code, raises));
  }

  /** Ending a cancelled execution: an open job is cancelled with its turn, and the rest as for a failure. */
  lemma EndCancelledDoes(v: View, now: int, raises: bool)
    requires Consistent(v.job) && v.where == Working(Cancelling)
    ensures var w := NextWork(v, EndCancelled(now, raises));
            && w.where == Working(Settled) && (w.lost <==> v.lost || (IsOpen(v.job) && raises))
            && (IsOpen(v.job) && !raises ==> Became(v.job, w.job, Cancelled, [OnCancel], now))
            && (!IsOpen(v.job) ==> SameOutcome(w.job, v.job)) && (IsOpen(v.job) && raises ==> w.job == v.job)
  {
    hide Consistent, CancelTerminalTx, Became, EndedBy;
    CancelTerminalIs(v.job, true, now, raises);
    EndedByIs(v, CancelTerminalTx(v.job, true, true, now, raises));
  }

  lemma EndedByIs(v: View, tx: Tx<()>)
    ensures var w := EndedBy(v, tx);
            && w.job == (if tx.Commit? then tx.job else v.job) && w.where == Working(Settled)
            && w.lost == (v.lost || tx.Rollback?)
  {
    match tx
    case Rollback =>
    case Commit(_, _) =>
  }

  /** A user's cancel cancels an open job with its turn and leaves an ended one alone; if the callback raises, the
      call ends there and nothing is written. */
  lemma CancelWriteDoes(v: View, k: nat, now: int, raises: bool)
    requires Consistent(v.job) && CanCancel(v, k, Write(now, raises))
    ensures var w, registered := NextCancel(v, k, Write(now, raises)), v.cancels[k].registered;
            if IsOpen(v.job) && registered && raises then w.job == v.job && k !in w.cancels
            else
              && k in w.cancels && w.cancels[k] == Written
              && (if IsOpen(v.job) then Became(v.job, w.job, Cancelled, if registered then [OnCancel] else [], now)
                  else w.job == v.job)
  {
    hide Consistent, CancelTx, Became, CancelWritten;
    CancelIs(v.job, v.cancels[k].registered, now, raises);
    WrittenIs(v, k, CancelTx(v.job, v.cancels[k].registered, now, raises));
  }

  lemma WrittenIs(v: View, k: nat, tx: Tx<bool>)
    ensures CancelWritten(v, k, tx).job == if tx.Commit? then tx.job else v.job
    ensures CancelWritten(v, k, tx).cancels == if tx.Commit? then v.cancels[k := Written] else v.cancels - {k}
  {
    match tx
    case Rollback =>
    case Commit(_, _) =>
  }

  /** A rejection fails an open job and leaves an ended one alone; if the callback raises, the call ends there, and a
      job that it took off the queue is dropped. */
  lemma RejectNoteDoes(v: View, k: nat, now: int, code: string, raises: bool)
    requires Consistent(v.job) && CanReject(v, k, Note(now, code, raises)) && v.job.turn == None
    ensures var w, removed := NextReject(v, k, Note(now, code, raises)), v.rejects[k].removed;
            if IsOpen(v.job) && raises then
              && w.job == v.job && k !in w.rejects && (w.dropped <==> v.dropped || removed)
              && w.where == if removed then Gone else v.where
            else
              && k in w.rejects && w.rejects[k] == Noted(removed) && w.where == v.where && w.dropped == v.dropped
              && (if IsOpen(v.job) then Became(v.job, w.job, Failed, [OnFailure], now) else SameOutcome(w.job, v.job))
  {
    hide Consistent, FailTx, Became, RejectNoted;
    FailIs(v.job, false, now, code, raises);
    NotedIs(v, k, v.rejects[k].removed, FailTx(v.job, false, now, code, raises));
  }

  lemma NotedIs(v: View, k: nat, removed: bool, tx: Tx<()>)
    ensures var w := RejectNoted(v, k, removed, tx);
            && w.job == (if tx.Commit? then tx.job else v.job)
            && w.rejects == (if tx.Commit? then v.rejects[k := Noted(removed)] else v.rejects - {k})
    ensures RejectNoted(v, k, removed, tx).dropped == (v.dropped || (tx.Rollback? && removed))
    ensures RejectNoted(v, k, removed, tx).where == if tx.Rollback? && removed then Gone else v.where
  {
    match tx
    case Rollback =>
    case Commit(_, _) =>
  }

  /** Shutdown cancels a detached job that is open, with its turn, and leaves an ended one alone; if the callback
      raises, the job stays detached as it was. */
  lemma FinalWriteDoes(v: View, now: int, raises: bool)
    requires Consistent(v.job) && v.where.Inspected?
    ensures var w, registered := NextFinalize(v, WriteCancelled(now, raises)), v.where.registered;
            if IsOpen(v.job) && registered && raises then w.job == v.job && w.where == Detached
            else
              && w.where == Finalizing(v.where.hadDone)
              && (if IsOpen(v.job) then Became(v.job, w.job, Cancelled, if registered then [OnCancel] else [], now)
                  else SameOutcome(w.job, v.job))
  {
    hide Consistent, CancelTerminalTx, Became, Finalized;
    CancelTerminalIs(v.job, v.where.registered, now, raises);
    FinalizedIs(v, v.where.hadDone, CancelTerminalTx(v.job, true, v.where.registered, now, raises));
  }

  lemma FinalizedIs(v: View, hadDone: bool, tx: Tx<()>)
    ensures Finalized(v, hadDone, tx).job == if tx.Commit? then tx.job else v.job
    ensures Finalized(v, hadDone, tx).where == if tx.Commit? then Finalizing(hadDone) else Detached
  {
    match tx
    case Rollback =>
    case Commit(_, _) =>
  }

  // What a step does to where its job is
  predicate WhereMoves(a: Where, step: Step, b: Where) {
    match step
    case Submits(Register) => a == Unsubmitted && b == Registered
    case Submits(Enqueue) => a == Registered && b == Waiting
    case Submits(_) => a == Registered && b == Aborted
    case Works(PickUp) => a == Waiting && b == Working(Selected)
    case Works(Finish) => a == Working(Signalled) && b == Gone
    case Works(_) => a.Working? && b.Working?
    case Cancels(k, Unqueue) => b == if a == Waiting then ByCancel(k) else a
    case Cancels(k, SignalDone) => b == a || (a == ByCancel(k) && b == Gone)
    case Cancels(_, _) => b == a
    case Rejects(k, Take) => b == if a == Waiting then ByReject(k) else a
    case Rejects(k, _) => b == a || (a == ByReject(k) && b == Gone)
    case Finalizes(Inspect) => a == Detached && b.Inspected?
    case Finalizes(WriteCancelled(_, _)) => a.Inspected? && (b == Detached || b.Finalizing?)
    case Finalizes(Forget) => a.Finalizing? && b == Gone
    case Finalizes(Skip) => a.Finalizing? && b == Detached
  }

  lemma WorkMovesWhere(v: View, s: WorkStep)
    requires CanWork(v, s)
    ensures WhereMoves(v.where, Works(s), NextWork(v, s).where) && NextWork(v, s).accepted == v.accepted
  {
    hide BeginTx, CompleteTx, FailTx, CancelTerminalTx;
    match s
    case PickUp =>
    case Begin(now, raises, cancelled) => BegunWhere(v, BeginTx(v.job, true, now, raises), cancelled);
    case Execute(_) =>
    case Complete(now, raises, cancelled, publishRaises) =>
      FinishedWhere(v, CompleteTx(v.job, true, now, raises), cancelled, publishRaises);
    case Fail(now, code, raises) => EndedByWhere(v, FailTx(v.job, true, now, code, raises));
    case EndCancelled(now, raises) => EndedByWhere(v, CancelTerminalTx(v.job, true, true, now, raises));
    case Pop =>
    case Signal =>
    case Finish =>
  }

  lemma BegunWhere(v: View, tx: Tx<bool>, cancelled: bool)
    ensures var w := Begun(v, tx, cancelled); w.where.Working? && w.accepted == v.accepted
  {
  }

  lemma FinishedWhere(v: View, tx: Tx<bool>, cancelled: bool, publishRaises: bool)
    ensures var w := Finished(v, tx, cancelled, publishRaises); w.where.Working? && w.accepted == v.accepted
  {
  }

  lemma EndedByWhere(v: View, tx: Tx<()>)
    ensures EndedBy(v, tx).where.Working? && EndedBy(v, tx).accepted == v.accepted
  {
  }

  lemma CancelMovesWhere(v: View, k: nat, s: CancelStep)
    requires CanCancel(v, k, s) && CancelOk(v, k)
    ensures WhereMoves(v.where, Cancels(k, s), NextCancel(v, k, s).where) && NextCancel(v, k, s).accepted == v.accepted
  {
    hide CancelTx;
    match s
    case Look =>
    case Write(now, raises) => WrittenWhere(v, k, CancelTx(v.job, v.cancels[k].registered, now, raises));
    case Fetch =>
    case Abandon =>
    case Unqueue =>
    case Drop =>
    case SignalDone =>
  }

  lemma WrittenWhere(v: View, k: nat, tx: Tx<bool>)
    ensures CancelWritten(v, k, tx).where == v.where
    ensures CancelWritten(v, k, tx).accepted == v.accepted
  {
    match tx
    case Rollback =>
    case Commit(_, _) =>
  }

  lemma RejectMovesWhere(v: View, k: nat, s: RejectStep)
    requires CanReject(v, k, s) && RejectOk(v, k)
    ensures WhereMoves(v.where, Rejects(k, s), NextReject(v, k, s).where) && NextReject(v, k, s).accepted == v.accepted
  {
    hide FailTx;
    match s
    case Take =>
    case Note(now, code, raises) => NotedWhere(v, k, v.rejects[k].removed, FailTx(v.job, false, now, code, raises));
    case Clear =>
    case Report =>
  }

  lemma NotedWhere(v: View, k: nat, removed: bool, tx: Tx<()>)
    ensures RejectNoted(v, k, removed, tx).where == if removed && tx.Rollback? then Gone else v.where
    ensures RejectNoted(v, k, removed, tx).accepted == v.accepted
  {
  }

  lemma FinalizeMovesWhere(v: View, s: FinalizeStep)
    requires CanFinalize(v, s)
    ensures WhereMoves(v.where, Finalizes(s), NextFinalize(v, s).where) && NextFinalize(v, s).accepted == v.accepted
  {
    hide CancelTerminalTx;
    match s
    case Inspect =>
    case WriteCancelled(now, raises) =>
      FinalizedWhere(v, v.where.hadDone, CancelTerminalTx(v.job, true, v.where.registered, now, raises));
    case Forget =>
    case Skip =>
  }

  lemma FinalizedWhere(v: View, hadDone: bool, tx: Tx<()>)
    ensures var w := Finalized(v, hadDone, tx); (w.where == Detached || w.where.Finalizing?) && w.accepted == v.accepted
  {
  }

  lemma StepMovesWhere(v: View, step: Step)
    requires Calls(v) && Enabled(v, step)
    ensures WhereMoves(v.where, step, Next(v, step).where)
    ensures Next(v, step).accepted <==> v.accepted || step == Submits(Enqueue)
  {
    hide NextWork, NextCancel, NextReject, NextFinalize, CanWork, CanCancel, CanReject, CanFinalize, CancelOk, RejectOk;
    hide WhereMoves;
    match step
    case Submits(u) => SubmitMovesWhere(v, u);
    case Works(w) => WorkMovesWhere(v, w);
    case Cancels(k, c) =>
      assert CancelOk(v, k);
      CancelMovesWhere(v, k, c);
    case Rejects(k, r) =>
      assert RejectOk(v, k);
      RejectMovesWhere(v, k, r);
    case Finalizes(f) => FinalizeMovesWhere(v, f);
  }

  lemma SubmitMovesWhere(v: View, s: SubmitStep)
    requires CanSubmit(v, s)
    ensures WhereMoves(v.where, Submits(s), NextSubmit(v, s).where)
    ensures NextSubmit(v, s).accepted <==> v.accepted || s == Enqueue
  {
    match s
    case Register =>
    case Enqueue =>
    case AbortSubmit =>
    case AbortRaises =>
  }

  // ---------------------------------------------------------------------------
  // The whole service: `start`, `submit`, `stop`

  datatype Phase = Open | Closing | Ending(todo: set<string>, failed: bool) | Joining(failed: bool) | Stopped | Broken

  datatype Service = Service(views: map<string, View>, phase: Phase)

  datatype Move =
    | Create(id: string, hasTurn: bool) | OnJob(id: string, step: Step) | FinalizeRaises(id: string)
    | StopBegins | QueueCloses | CloseRaises | FinalizeEnds | WorkersJoin | JoinRaises | Restart

  // The detached job that the loop of shutdown is working on
  predicate AtHand(where: Where) {
    where.Inspected? || where.Finalizing?
  }

  predicate CanMove(s: Service, m: Move) {
    match m
    case Create(id, _) => id !in s.views
    case OnJob(id, step) =>
      && id in s.views && Enabled(s.views[id], step)
      && (step == Submits(Register) ==> s.phase.Open?)
      && (step.Finalizes? ==> s.phase.Ending? && id in s.phase.todo)
      && (step == Finalizes(Inspect) ==> forall other :: other in s.views ==> !AtHand(s.views[other].where))
    case FinalizeRaises(id) => s.phase.Ending? && id in s.views && AtHand(s.views[id].where)
    case StopBegins =>
      (s.phase.Open? || s.phase.Broken?) && forall id :: id in s.views ==> s.views[id].where != Registered
    case QueueCloses => s.phase.Closing?
    case CloseRaises => s.phase.Closing?
    case FinalizeEnds => s.phase.Ending? && s.phase.todo == {}
    case WorkersJoin => s.phase.Joining? && forall id :: id in s.views ==> !s.views[id].where.Working?
    case JoinRaises => s.phase.Joining?
    case Restart => s.phase.Stopped?
  }

  function Detach(v: View): View {
    if v.where == Waiting then v.(where := Detached) else v
  }

  // `close_and_detach_pending`, and the list of detached jobs that shutdown then works through
  function Closed(views: map<string, View>): (r: map<string, View>)
    ensures r.Keys == views.Keys && forall id :: id in views ==> r[id] == Detach(views[id])
  {
    map id | id in views :: Detach(views[id])
  }

  function DetachedIds(views: map<string, View>): set<string> {
    set id | id in views && views[id].where == Detached
  }

  // The loop over detached jobs after a step on one of them, which is then at `where`
  function PhaseAfter(phase: Phase, id: string, step: Step, where: Where): Phase {
    if !step.Finalizes? || !phase.Ending? then phase
    else match step.finalize
      case Inspect => phase
      case WriteCancelled(_, _) => if where == Detached then Joining(true) else phase
      case Forget => Ending(phase.todo - {id}, phase.failed)
      case Skip => Ending(phase.todo - {id}, true)
  }

  function Moved(s: Service, m: Move): Service
    requires CanMove(s, m)
  {
    match m
    case Create(id, hasTurn) => s.(views := s.views[id := Fresh(hasTurn)])
    case OnJob(id, step) =>
      var w := Next(s.views[id], step);
      Service(s.views[id := w], PhaseAfter(s.phase, id, step, w.where))
    case FinalizeRaises(id) => Service(s.views[id := s.views[id].(where := Detached)], Joining(true))
    case StopBegins => s.(phase := Closing)
    case QueueCloses => var views := Closed(s.views); Service(views, Ending(DetachedIds(views), false))
    case CloseRaises => s.(phase := Broken)
    case FinalizeEnds => s.(phase := Joining(s.phase.failed))
    case WorkersJoin => s.(phase := if s.phase.failed then Broken else Stopped)
    case JoinRaises => s.(phase := Broken)
    case Restart => s.(phase := Open)
  }

  // Where a job can be in each phase of the service
  predicate Placed(phase: Phase, id: string, where: Where) {
    && (where == Registered ==> phase.Open?)
    && (where == Waiting ==> phase.Open? || phase.Closing? || phase.Broken?)
    && (where.Working? ==> !phase.Stopped?)
    && (AtHand(where) ==> phase.Ending? && id in phase.todo)
    && (where == Detached ==>
          && (phase.Ending? ==> phase.failed || id in phase.todo)
          && (phase.Joining? ==> phase.failed)
          && !phase.Stopped?)
  }

  ghost predicate ServiceInv(s: Service) {
    && (forall id :: id in s.views ==> Inv(s.views[id]) && Placed(s.phase, id, s.views[id].where))
    && (forall a, b | a in s.views && b in s.views ::
          AtHand(s.views[a].where) && AtHand(s.views[b].where) ==> a == b)
  }

  predicate Accepted(s: Service, id: string) {
    id in s.views && s.views[id].accepted
  }

  // What the move of one job means for the phase
  lemma OwnPlaced(phase: Phase, id: string, step: Step, a: Where, b: Where)
    requires Placed(phase, id, a) && WhereMoves(a, step, b)
    requires step == Submits(Register) ==> phase.Open?
    requires step.Finalizes? ==> phase.Ending? && id in phase.todo
    ensures Placed(PhaseAfter(phase, id, step, b), id, b)
  {
  }

  lemma OtherPlaced(phase: Phase, id: string, step: Step, a: Where, b: Where, other: string, where: Where)
    requires Placed(phase, other, where) && WhereMoves(a, step, b) && other != id
    requires AtHand(a) ==> !AtHand(where)
    ensures Placed(PhaseAfter(phase, id, step, b), other, where)
  {
  }

  lemma JobMoveKeeps(s: Service, id: string, step: Step)
    requires ServiceInv(s) && CanMove(s, OnJob(id, step))
    ensures ServiceInv(Moved(s, OnJob(id, step)))
  {
    hide Inv, Next, Enabled, Placed, PhaseAfter, WhereMoves, AtHand;
    var v, w := s.views[id], Next(s.views[id], step);
    StepKeepsInv(v, step);
    assert Calls(v) by { InvHas(v); }
    StepMovesWhere(v, step);
    OwnPlaced(s.phase, id, step, v.where, w.where);
    forall other | other in s.views && other != id
      ensures Placed(PhaseAfter(s.phase, id, step, w.where), other, s.views[other].where)
    {
      OtherPlaced(s.phase, id, step, v.where, w.where, other, s.views[other].where);
    }
    HandsOver(v.where, step, w.where);
  }

  lemma InvHas(v: View)
    requires Inv(v)
    ensures Calls(v) && Sound(v)
  {
  }

  // Only the first step of the loop takes a job to hand.
  lemma HandsOver(a: Where, step: Step, b: Where)
    requires WhereMoves(a, step, b)
    ensures AtHand(b) ==> AtHand(a) || step == Finalizes(Inspect)
  {
  }

  lemma ClosingKeeps(s: Service)
    requires ServiceInv(s) && CanMove(s, QueueCloses)
    ensures ServiceInv(Moved(s, QueueCloses))
  {
    hide Inv, AtHand, Detach, Placed;
    var views := Closed(s.views);
    var phase := Ending(DetachedIds(views), false);
    forall id | id in views ensures Inv(views[id]) && Placed(phase, id, views[id].where) && !AtHand(views[id].where) {
      assert Inv(s.views[id]) && Placed(s.phase, id, s.views[id].where);
      DetachKeeps(s.views[id]);
      DetachPlaced(s.views[id], s.phase, phase, id);
    }
  }

  lemma DetachPlaced(v: View, before: Phase, after: Phase, id: string)
    requires before.Closing? && Placed(before, id, v.where)
    requires after.Ending? && (Detach(v).where == Detached ==> id in after.todo)
    ensures Placed(after, id, Detach(v).where) && !AtHand(Detach(v).where)
  {
  }

  lemma RaiseKeeps(s: Service, id: string)
    requires ServiceInv(s) && CanMove(s, FinalizeRaises(id))
    ensures ServiceInv(Moved(s, FinalizeRaises(id)))
  {
    PutBackKeeps(s.views[id]);
    hide Inv;
  }

  lemma PhaseMoveKeeps(s: Service, m: Move)
    requires ServiceInv(s) && CanMove(s, m) && !m.Create? && !m.OnJob? && !m.QueueCloses? && !m.FinalizeRaises?
    ensures ServiceInv(Moved(s, m))
  {
    hide Inv;
  }

  lemma CreateKeeps(s: Service, id: string, hasTurn: bool)
    requires ServiceInv(s) && CanMove(s, Create(id, hasTurn))
    ensures ServiceInv(Moved(s, Create(id, hasTurn)))
  {
    FreshInv(hasTurn);
    hide Inv;
  }

  /** Every move of the service keeps every job's invariant and its place. */
  lemma MoveKeepsServiceInv(s: Service, m: Move)
    requires ServiceInv(s) && CanMove(s, m)
    ensures ServiceInv(Moved(s, m))
  {
    hide ServiceInv, CanMove, Moved;
    match m
    case Create(id, hasTurn) => CreateKeeps(s, id, hasTurn);
    case OnJob(id, step) => JobMoveKeeps(s, id, step);
    case QueueCloses => ClosingKeeps(s);
    case FinalizeRaises(id) => RaiseKeeps(s, id);
    case _ => PhaseMoveKeeps(s, m);
  }

  lemma DetachKeeps(v: View)
    requires Inv(v)
    ensures Inv(Detach(v))
  {
    hide Consistent;
    forall k ensures CancelOk(Detach(v), k) && RejectOk(Detach(v), k) {
      assert CancelOk(v, k) && RejectOk(v, k);
    }
  }

  lemma PutBackKeeps(v: View)
    requires Inv(v) && AtHand(v.where)
    ensures Inv(v.(where := Detached))
  {
    hide Consistent;
    MovingOnKeepsCalls(v, v.(where := Detached));
    hide Calls;
  }

  /** Once `stop` has begun nothing more is accepted, until the service is started again; and what was
      accepted stays on record. */
  lemma AcceptedOnlyWhileOpen(s: Service, m: Move, id: string)
    requires ServiceInv(s) && CanMove(s, m)
    ensures Accepted(s, id) ==> Accepted(Moved(s, m), id)
    ensures Accepted(Moved(s, m), id) ==> Accepted(s, id) || s.phase.Open?
  {
    hide Inv, Next, Enabled, PhaseAfter;
    if m.OnJob? {
      InvHas(s.views[m.id]);
      StepMovesWhere(s.views[m.id], m.step);
    }
  }

  const STARTED: Service := Service(map[], Open)

  ghost predicate IsRun(states: seq<Service>, moves: seq<Move>) {
    && |states| == |moves| + 1
    && states[0] == STARTED
    && forall i :: 0 <= i < |moves| ==> CanMove(states[i], moves[i]) && states[i + 1] == Moved(states[i], moves[i])
  }

  lemma {:induction false} RunKeepsServiceInv(states: seq<Service>, moves: seq<Move>, k: nat)
    requires IsRun(states, moves) && k < |states|
    ensures ServiceInv(states[k])
  {
    hide ServiceInv, CanMove, Moved;
    if k == 0 {
      assert ServiceInv(STARTED) by { EmptyInv(); }
    } else {
      RunKeepsServiceInv(states, moves, k - 1);
      assert CanMove(states[k - 1], moves[k - 1]) && states[k] == Moved(states[k - 1], moves[k - 1]);
      MoveKeepsServiceInv(states[k - 1], moves[k - 1]);
    }
  }

  lemma EmptyInv()
    ensures ServiceInv(STARTED)
  {
  }

  lemma {:induction false} AcceptedStays(states: seq<Service>, moves: seq<Move>, i: nat, k: nat, id: string)
    requires IsRun(states, moves) && i <= k < |states| && Accepted(states[i], id)
    ensures Accepted(states[k], id)
  {
    hide ServiceInv, CanMove, Moved;
    if i < k {
      AcceptedStays(states, moves, i, k - 1, id);
      RunKeepsServiceInv(states, moves, k - 1);
      assert CanMove(states[k - 1], moves[k - 1]) && states[k] == Moved(states[k - 1], moves[k - 1]);
      AcceptedOnlyWhileOpen(states[k - 1], moves[k - 1], id);
    }
  }

  lemma MoveKeepsOutcome(s: Service, m: Move, id: string)
    requires ServiceInv(s) && CanMove(s, m) && id in s.views
    ensures id in Moved(s, m).views && KeepsOutcome(s.views[id].job, Moved(s, m).views[id].job)
  {
    hide Inv, Next, Enabled, PhaseAfter;
    if m.OnJob? && m.id == id {
      StepKeepsOutcome(s.views[id], m.step);
    }
  }

  // A job's outcomes and statuses as they are at any time
  lemma OutcomeIsOne(v: View)
    requires Inv(v)
    ensures |Outcomes(v.job.committed)| <= 1
    ensures v.job.turn.Some? ==> v.job.turn.value.status == v.job.row.status
  {
    hide Calls, Kept, Outcomes;
  }

  /** Cancel wins in the running service: along every interleaving of submission, workers, cancel and reject
      calls and shutdown, once a job is terminal its row, its turn and its committed callbacks stay as they
      are; at most one outcome callback was ever committed, and job and turn have equal status. */
  lemma {:induction false} OutcomeIsFinal(states: seq<Service>, moves: seq<Move>, i: nat, k: nat, id: string)
    requires IsRun(states, moves) && i <= k < |states| && id in states[i].views && Over(states[i].views[id])
    ensures id in states[k].views
    ensures var before, after := states[i].views[id].job, states[k].views[id].job;
            && SameOutcome(after, before) && |Outcomes(after.committed)| <= 1
            && (after.turn.Some? ==> after.turn.value.status == after.row.status)
    decreases k
  {
    hide CanMove, Moved, Outcomes, Inv;
    if i < k {
      OutcomeIsFinal(states, moves, i, k - 1, id);
      RunKeepsServiceInv(states, moves, k - 1);
      assert CanMove(states[k - 1], moves[k - 1]) && states[k] == Moved(states[k - 1], moves[k - 1]);
      MoveKeepsOutcome(states[k - 1], moves[k - 1], id);
    }
    RunKeepsServiceInv(states, moves, k);
    OutcomeIsOne(states[k].views[id]);
  }

  // A submission that was abandoned in good order: never accepted, without entries, its waiters told
  predicate LeftNothing(v: View) {
    v.where == Aborted && NoEntries(v) && !v.doneEntry && v.done && !v.accepted
  }

  lemma CancelLeavesNothing(v: View, k: nat, s: CancelStep)
    requires CancelOk(v, k) && LeftNothing(v) && CanCancel(v, k, s)
    ensures LeftNothing(NextCancel(v, k, s))
  {
    hide Over, CancelTx;
  }

  lemma RejectLeavesNothing(v: View, k: nat, s: RejectStep)
    requires RejectOk(v, k) && LeftNothing(v) && CanReject(v, k, s)
    ensures LeftNothing(NextReject(v, k, s))
  {
    hide Over, FailTx;
  }

  lemma StepLeavesNothing(v: View, s: Step)
    requires Inv(v) && LeftNothing(v) && Enabled(v, s)
    ensures LeftNothing(Next(v, s))
  {
    hide Sound, CancelOk, RejectOk, CanCancel, NextCancel, CanReject, NextReject, NextSubmit, NextWork, NextFinalize;
    match s
    case Submits(_) =>
    case Works(_) =>
    case Cancels(k, c) =>
      assert CancelOk(v, k);
      CancelLeavesNothing(v, k, c);
    case Rejects(k, r) =>
      assert RejectOk(v, k);
      RejectLeavesNothing(v, k, r);
    case Finalizes(_) =>
  }

  /** A submission that the queue refuses leaves nothing of its job, and nothing comes back: whatever else the
      service does from then on, the job is never accepted, has no entries, and its waiters have been told. */
  lemma {:induction false} AbandonedLeavesNothing(states: seq<Service>, moves: seq<Move>, i: nat, k: nat, id: string)
    requires IsRun(states, moves) && i < k < |states| && moves[i] == OnJob(id, Submits(AbortSubmit))
    ensures id in states[k].views && LeftNothing(states[k].views[id])
    decreases k
  {
    hide CanMove, Moved, Inv, LeftNothing, Next, Enabled;
    var before, m := states[k - 1], moves[k - 1];
    assert CanMove(before, m) && states[k] == Moved(before, m);
    RunKeepsServiceInv(states, moves, k - 1);
    if i + 1 < k {
      AbandonedLeavesNothing(states, moves, i, k - 1, id);
      MoveLeavesNothing(before, m, id);
    } else {
      AbortLeavesNothing(before, id);
    }
  }

  lemma MoveLeavesNothing(s: Service, m: Move, id: string)
    requires ServiceInv(s) && CanMove(s, m) && id in s.views && LeftNothing(s.views[id])
    ensures id in Moved(s, m).views && LeftNothing(Moved(s, m).views[id])
  {
    hide Inv, Next, Enabled, PhaseAfter;
    if m.OnJob? && m.id == id {
      StepLeavesNothing(s.views[id], m.step);
    }
  }

  lemma AbortLeavesNothing(s: Service, id: string)
    requires ServiceInv(s) && CanMove(s, OnJob(id, Submits(AbortSubmit)))
    ensures id in Moved(s, OnJob(id, Submits(AbortSubmit))).views
    ensures LeftNothing(Moved(s, OnJob(id, Submits(AbortSubmit))).views[id])
  {
    hide Consistent, Kept, Calls, PhaseAfter;
    assert Inv(s.views[id]);
  }

  // ---------------------------------------------------------------------------
  // The three dictionaries and the done events, one method per block under the service's lock

  class JobEntries {
    var tokens: set<string>
    var executions: set<string>
    var doneEntries: set<string>
    var signalled: set<string>

    // The entries of the job are those of the view.
    predicate Shows(id: string, v: View)
      reads this
    {
      && (id in tokens <==> v.token)
      && (id in executions <==> v.execution)
      && (id in doneEntries <==> v.doneEntry)
      && (id in signalled <==> v.done)
    }

    twostate predicate OnlyMoves(id: string)
      reads this
    {
      forall other :: other != id ==>
        && (other in tokens <==> other in old(tokens))
        && (other in executions <==> other in old(executions))
        && (other in doneEntries <==> other in old(doneEntries))
        && (other in signalled <==> other in old(signalled))
    }

    constructor ()
      ensures forall id, hasTurn :: Shows(id, Fresh(hasTurn))
    {
      tokens, executions, doneEntries, signalled := {}, {}, {}, {};
    }

    method RegisterJob(id: string, ghost v: View)
      requires Shows(id, v) && CanSubmit(v, Register)
      modifies this
      ensures Shows(id, NextSubmit(v, Register)) && OnlyMoves(id)
    {
      tokens, doneEntries, executions := tokens + {id}, doneEntries + {id}, executions + {id};
    }

    // The exception path of `submit`: the done event it pops is signalled
    method AbandonSubmission(id: string, ghost v: View)
      requires Shows(id, v) && CanSubmit(v, AbortSubmit) && v.doneEntry
      modifies this
      ensures Shows(id, NextSubmit(v, AbortSubmit)) && OnlyMoves(id)
    {
      tokens, executions := tokens - {id}, executions - {id};
      var failed := id in doneEntries;
      doneEntries := doneEntries - {id};
      Set(id, failed);
    }

    // `if done: done.set()`
    method Set(id: string, found: bool)
      modifies `signalled
      ensures signalled == if found then old(signalled) + {id} else old(signalled)
    {
      if found {
        signalled := signalled + {id};
      }
    }

    method PopFinished(id: string, ghost v: View) returns (hadDone: bool)
      requires Shows(id, v) && CanWork(v, Pop)
      modifies this
      ensures Shows(id, NextWork(v, Pop)) && OnlyMoves(id)
      ensures NextWork(v, Pop).where == Working(Popped(hadDone))
    {
      tokens, executions := tokens - {id}, executions - {id};
      hadDone := id in doneEntries;
    }

    method SignalFinished(id: string, hadDone: bool, ghost v: View)
      requires Shows(id, v) && CanWork(v, Signal) && v.where.pc.hadDone == hadDone
      modifies this
      ensures Shows(id, NextWork(v, Signal)) && OnlyMoves(id)
    {
      Set(id, hadDone);
    }

    method LookUp(id: string, ghost v: View, ghost k: nat) returns (registered: bool)
      requires Shows(id, v) && CanCancel(v, k, Look)
      ensures NextCancel(v, k, Look).cancels[k] == Read(registered)
    {
      registered := id in executions;
    }

    method FetchDone(id: string, ghost v: View, ghost k: nat) returns (hadDone: bool)
      requires Shows(id, v) && CanCancel(v, k, Fetch)
      ensures NextCancel(v, k, Fetch).cancels[k] == Fetched(hadDone)
    {
      hadDone := id in doneEntries;
    }

    method DropCancelled(id: string, removed: bool, ghost v: View, ghost k: nat)
      requires Shows(id, v) && CanCancel(v, k, Drop) && v.cancels[k].removed == removed
      modifies this
      ensures Shows(id, NextCancel(v, k, Drop)) && OnlyMoves(id)
    {
      if removed {
        tokens, executions := tokens - {id}, executions - {id};
      }
    }

    method SignalCancelled(id: string, hadDone: bool, ghost v: View, ghost k: nat)
      requires Shows(id, v) && CanCancel(v, k, SignalDone) && v.cancels[k].hadDone == hadDone
      modifies this
      ensures Shows(id, NextCancel(v, k, SignalDone)) && OnlyMoves(id)
    {
      Set(id, hadDone);
    }

    method ClearRejected(id: string, ghost v: View, ghost k: nat) returns (hadDone: bool)
      requires Shows(id, v) && CanReject(v, k, Clear)
      modifies this
      ensures Shows(id, NextReject(v, k, Clear)) && OnlyMoves(id)
      ensures NextReject(v, k, Clear).rejects[k] == Cleared(v.rejects[k].removed, hadDone)
    {
      tokens, executions := tokens - {id}, executions - {id};
      hadDone := id in doneEntries;
    }

    method ForgetFinalized(id: string, hadDone: bool, ghost v: View)
      requires Shows(id, v) && CanFinalize(v, Forget) && v.where.hadDone == hadDone
      modifies this
      ensures Shows(id, NextFinalize(v, Forget)) && OnlyMoves(id)
    {
      tokens, executions, doneEntries := tokens - {id}, executions - {id}, doneEntries - {id};
      Set(id, hadDone);
    }
  }
}
