/**
 Durable job and turn rows and the transactions that move them.

 A transaction that raises rolls back, so each one is a function from the rows it starts from to
 `Commit` or `Rollback`. `raises` stands for the callback that runs inside the transaction raising.
 `committed` lists the callbacks whose effects were committed with the job row.
 */
module JobStore {
  import opened Common

  datatype Status = Queued | Running | Completed | Failed | Cancelled {
    predicate Terminal() {
      Completed? || Failed? || Cancelled?
    }
  }

  function Legal(from: Status): set<Status> {
    match from
    case Queued => {Running, Failed, Cancelled}
    case Running => {Completed, Failed, Cancelled}
    case _ => {}
  }

  datatype Callback = OnStart | OnSuccess | OnFailure | OnCancel

  datatype Row = Row(status: Status, startedAt: Option<int>, completedAt: Option<int>, error: Option<string>)

  datatype Job = Job(row: Row, cancelRequested: bool, turn: Option<Row>, committed: seq<Callback>)

  datatype Tx<+T> = Commit(job: Job, value: T) | Rollback

  // The status and time stamps that both transition functions set
  function Stamped(row: Row, to: Status, now: int): Row {
    row.(status := to,
         startedAt := if to == Running then Some(now) else row.startedAt,
         completedAt := if to.Terminal() then Some(now) else row.completedAt)
  }

  predicate Allowed(row: Row, to: Status) {
    to == row.status || to in Legal(row.status)
  }

  // `transition_job`: an error is written only when one is given
  function JobTo(row: Row, to: Status, now: int, error: Option<string> := None): Row
    requires Allowed(row, to)
  {
    if to == row.status then row
    else
      var moved := Stamped(row, to, now);
      if error.Some? then moved.(error := error) else moved
  }

  // `transition_turn`: the error code is always written
  function TurnTo(row: Row, to: Status, now: int, code: Option<string> := None): Row
    requires Allowed(row, to)
  {
    if to == row.status then row else Stamped(row, to, now).(error := code)
  }

  function BeginTx(job: Job, withTurn: bool, now: int, raises: bool): Tx<bool> {
    if job.row.status == Cancelled || job.cancelRequested then Commit(job, false)
    else if !Allowed(job.row, Running) then Rollback
    else if withTurn && job.turn.Some? && !Allowed(job.turn.value, Running) then Rollback
    else if raises then Rollback
    else
      Commit(job.(row := JobTo(job.row, Running, now),
                  turn := if withTurn && job.turn.Some? then Some(TurnTo(job.turn.value, Running, now)) else job.turn,
                  committed := job.committed + [OnStart]), true)
  }

  function CompleteTx(job: Job, withTurn: bool, now: int, raises: bool): Tx<bool> {
    if job.row.status == Cancelled || job.cancelRequested then Commit(job, false)
    else if raises || !Allowed(job.row, Completed) then Rollback
    else if withTurn && job.turn.Some? && !Allowed(job.turn.value, Completed) then Rollback
    else
      Commit(job.(row := JobTo(job.row, Completed, now),
                  turn := if withTurn && job.turn.Some? then Some(TurnTo(job.turn.value, Completed, now)) else job.turn,
                  committed := job.committed + [OnSuccess]), true)
  }

  // A turn row, ended if it is still open. Every open row may fail and may be cancelled.
  function EndedRow(row: Row, to: Status, now: int, code: string): Row
    requires to == Failed || to == Cancelled
  {
    if row.status.Terminal() then row else TurnTo(row, to, now, Some(code))
  }

  function Ended(turn: Option<Row>, to: Status, now: int, code: string): Option<Row>
    requires to == Failed || to == Cancelled
  {
    if turn.Some? then Some(EndedRow(turn.value, to, now, code)) else None
  }

  function FailTx(job: Job, withTurn: bool, now: int, code: string, raises: bool): Tx<()> {
    if job.row.status.Terminal() then Commit(job, ())
    else if raises then Rollback
    else
      Commit(job.(row := JobTo(job.row, Failed, now, Some(code)),
                  turn := if withTurn then Ended(job.turn, Failed, now, code) else job.turn,
                  committed := job.committed + [OnFailure]), ())
  }

  // The job, or the turn handled with it, is still open.
  predicate Closes(job: Job, withTurn: bool) {
    !job.row.status.Terminal() || (withTurn && job.turn.Some? && !job.turn.value.status.Terminal())
  }

  // `_cancel_terminal`: on_cancel runs if the job or its turn changed; `registered` says whether the caller
  // had an execution entry to take it from
  function CancelTerminalTx(job: Job, withTurn: bool, registered: bool, now: int, raises: bool): Tx<()> {
    var changes := Closes(job, withTurn) && registered;
    if changes && raises then Rollback
    else
      Commit(job.(row := if job.row.status.Terminal() then job.row else JobTo(job.row, Cancelled, now),
                  cancelRequested := true,
                  turn := if withTurn then Ended(job.turn, Cancelled, now, "cancelled") else job.turn,
                  committed := if changes then job.committed + [OnCancel] else job.committed), ())
  }

  // The transaction of a user's `cancel`; `registered` says whether an execution entry was read before it
  function CancelTx(job: Job, registered: bool, now: int, raises: bool): Tx<bool> {
    if job.row.status.Terminal() then Commit(job, false)
    else if registered && raises then Rollback
    else
      Commit(job.(row := JobTo(job.row, Cancelled, now),
                  cancelRequested := true,
                  turn := Ended(job.turn, Cancelled, now, "cancelled"),
                  committed := if registered then job.committed + [OnCancel] else job.committed), true)
  }

  datatype Transaction =
    | DoBegin(withTurn: bool, now: int, raises: bool)
    | DoComplete(withTurn: bool, now: int, raises: bool)
    | DoFail(withTurn: bool, now: int, code: string, raises: bool)
    | DoCancelTerminal(withTurn: bool, registered: bool, now: int, raises: bool)
    | DoCancel(registered: bool, now: int, raises: bool)

  // The job after the transaction, whether it committed or rolled back
  function Apply(job: Job, t: Transaction): Job {
    match t
    case DoBegin(w, now, raises) => var r := BeginTx(job, w, now, raises); if r.Commit? then r.job else job
    case DoComplete(w, now, raises) => var r := CompleteTx(job, w, now, raises); if r.Commit? then r.job else job
    case DoFail(w, now, code, raises) => var r := FailTx(job, w, now, code, raises); if r.Commit? then r.job else job
    case DoCancelTerminal(w, g, now, raises) =>
      var r := CancelTerminalTx(job, w, g, now, raises); if r.Commit? then r.job else job
    case DoCancel(g, now, raises) => var r := CancelTx(job, g, now, raises); if r.Commit? then r.job else job
  }

  // ---------------------------------------------------------------------------
  // Outcomes

  function Outcomes(committed: seq<Callback>): seq<Callback> {
    if committed == [] then []
    else
      var before := Outcomes(committed[..|committed| - 1]);
      var last := committed[|committed| - 1];
      if last == OnStart then before else before + [last]
  }

  // The callback that belongs to a terminal status
  function OutcomeOf(status: Status): seq<Callback> {
    match status
    case Completed => [OnSuccess]
    case Failed => [OnFailure]
    case Cancelled => [OnCancel]
    case _ => []
  }

  // Job and turn agree, a cancel request is on a terminal job only, the time of completion is recorded
  // exactly for terminal jobs, and the outcome callbacks committed are none, or the one of the status.
  ghost predicate Consistent(job: Job) {
    && (job.turn.Some? ==> job.turn.value.status == job.row.status)
    && (job.cancelRequested ==> job.row.status.Terminal())
    && (job.row.completedAt.Some? <==> job.row.status.Terminal())
    && (Outcomes(job.committed) == [] || Outcomes(job.committed) == OutcomeOf(job.row.status))
    && (!job.row.status.Terminal() ==> Outcomes(job.committed) == [])
    && (job.row.status.Completed? || job.row.status.Failed? ==> Outcomes(job.committed) != [])
  }

  predicate WithTurn(t: Transaction) {
    t.DoCancel? || t.withTurn
  }

  lemma OutcomesAppend(committed: seq<Callback>, c: Callback)
    ensures Outcomes(committed + [c]) == if c == OnStart then Outcomes(committed) else Outcomes(committed) + [c]
    ensures Outcomes(committed) == [] && c != OnStart ==> Outcomes(committed + [c]) == [c]
  {
    assert (committed + [c])[..|committed|] == committed;
  }

  /** Every transaction that handles the job's turn keeps job, turn and callbacks consistent. */
  lemma TransactionKeepsConsistent(job: Job, t: Transaction)
    requires Consistent(job) && (WithTurn(t) || job.turn == None) && (t.DoComplete? ==> job.row.status != Completed)
    ensures Consistent(Apply(job, t))
    ensures Apply(job, t).row.status == Completed && job.row.status != Completed ==> t.DoComplete?
  {
    hide Outcomes;
    forall c: Callback { OutcomesAppend(job.committed, c); }
  }

  // ---------------------------------------------------------------------------
  // What each transaction brings about

  // The status a transaction is meant to bring
  function Target(t: Transaction): Status {
    match t
    case DoBegin(_, _, _) => Running
    case DoComplete(_, _, _) => Completed
    case DoFail(_, _, _, _) => Failed
    case DoCancelTerminal(_, _, _, _) => Cancelled
    case DoCancel(_, _, _) => Cancelled
  }

  // The callback that runs inside it
  function CallbackOf(t: Transaction): seq<Callback> {
    match t
    case DoBegin(_, _, _) => [OnStart]
    case DoComplete(_, _, _) => [OnSuccess]
    case DoFail(_, _, _, _) => [OnFailure]
    case DoCancelTerminal(_, registered, _, _) => if registered then [OnCancel] else []
    case DoCancel(registered, _, _) => if registered then [OnCancel] else []
  }

  // The error code that it writes on the turn
  function TurnCode(t: Transaction): Option<string> {
    match t
    case DoBegin(_, _, _) => None
    case DoComplete(_, _, _) => None
    case DoFail(_, _, code, _) => Some(code)
    case DoCancelTerminal(_, _, _, _) => Some("cancelled")
    case DoCancel(_, _, _) => Some("cancelled")
  }

  // A transaction takes effect on a job in these statuses, unless the callback it runs raises.
  predicate Takes(job: Job, t: Transaction) {
    match t
    case DoBegin(_, _, raises) => (job.row.status == Queued || job.row.status == Running) && !raises
    case DoComplete(_, _, raises) => job.row.status == Running && !raises
    case DoFail(_, _, _, raises) => (job.row.status == Queued || job.row.status == Running) && !raises
    case DoCancelTerminal(_, g, _, raises) =>
      (job.row.status == Queued || job.row.status == Running) && !(g && raises)
    case DoCancel(g, _, raises) => (job.row.status == Queued || job.row.status == Running) && !(g && raises)
  }

  // A row that has been given the status, stamped with the time when it started or ended
  predicate Reached(before: Row, after: Row, to: Status, now: int) {
    && after.status == to
    && after.startedAt == (if to == Running && before.status != Running then Some(now) else before.startedAt)
    && after.completedAt == (if to == Running then before.completedAt else Some(now))
  }

  /** A transaction that takes effect gives job and turn the status it is meant to bring, stamps them with the
      time, and commits its own callback; one that does not leaves row, turn and callbacks as they were. */
  lemma TransactionDoes(job: Job, t: Transaction)
    requires Consistent(job) && (WithTurn(t) || job.turn == None) && (t.DoComplete? ==> job.row.status != Completed)
    ensures var after := Apply(job, t);
            if Takes(job, t) then
              && Reached(job.row, after.row, Target(t), t.now)
              && (job.turn.Some? ==>
                    && after.turn.Some? && Reached(job.turn.value, after.turn.value, Target(t), t.now)
                    && (job.row.status != Target(t) ==> after.turn.value.error == TurnCode(t)))
              && after.committed == job.committed + CallbackOf(t)
              && after.row.error == (if t.DoFail? then Some(t.code) else job.row.error)
              && after.cancelRequested == (t.DoCancelTerminal? || t.DoCancel?)
            else
              && after.row == job.row && after.turn == job.turn && after.committed == job.committed
              && (after.cancelRequested <==>
                    job.cancelRequested || (t.DoCancelTerminal? && job.row.status.Terminal()))
  {
    hide Outcomes;
    match t
    case DoBegin(_, _, _) =>
    case DoComplete(_, _, _) =>
    case DoFail(_, _, _, _) =>
    case DoCancelTerminal(_, _, _, _) =>
    case DoCancel(_, _, _) =>
  }

  /** Completing completes: a running job whose completion does not raise is completed, with its turn, at that
      time, and the success callback is its one outcome. */
  lemma CompletionCompletes(job: Job, withTurn: bool, now: int)
    requires Consistent(job) && job.row.status == Running && (withTurn || job.turn == None)
    ensures var after := Apply(job, DoComplete(withTurn, now, false));
            && after.row.status == Completed && after.row.completedAt == Some(now)
            && (job.turn.Some? ==> after.turn.Some? && after.turn.value.status == Completed)
            && Outcomes(after.committed) == [OnSuccess]
  {
    TransactionDoes(job, DoComplete(withTurn, now, false));
    OutcomesAppend(job.committed, OnSuccess);
    hide Apply;
  }

  /** Failing a job without its turn keeps them equal exactly when there is no open turn to leave behind. */
  lemma TurnlessFailureIff(job: Job, now: int, code: string)
    requires Consistent(job)
    ensures Consistent(Apply(job, DoFail(false, now, code, false))) <==> job.turn == None || job.row.status.Terminal()
  {
    if job.turn == None {
      TransactionKeepsConsistent(job, DoFail(false, now, code, false));
    }
  }

  /** It happens: a new job with a turn, failed without it, leaves the turn queued, and of all transactions
      only the cancel at the end of a run or at shutdown would still move the turn. */
  lemma TurnlessFailureStrands(now: int, code: string)
    ensures var job := Apply(NewJob(true), DoFail(false, now, code, false));
            && !Consistent(job) && job.row.status == Failed && job.turn == Some(CREATED)
            && (forall t: Transaction ::
                  Apply(job, t).turn != job.turn <==>
                    t.DoCancelTerminal? && t.withTurn && !(t.registered && t.raises))
  {
    hide Outcomes;
  }

  /** Once a job is terminal no transaction changes its row, its turn or the callbacks it committed. */
  lemma TerminalIsFinal(job: Job, t: Transaction)
    requires Consistent(job) && job.row.status.Terminal() && (t.DoComplete? ==> job.row.status != Completed)
    ensures var after := Apply(job, t);
            after.row == job.row && after.turn == job.turn && after.committed == job.committed
  {
  }

  predicate Refuses(tx: Tx<bool>) {
    tx.Commit? && !tx.value
  }

  // The transaction commits and ends the job or finds it ended; a begin does so only by refusing.
  predicate Ends(job: Job, t: Transaction) {
    match t
    case DoBegin(w, now, raises) => Refuses(BeginTx(job, w, now, raises))
    case DoComplete(w, now, raises) => CompleteTx(job, w, now, raises).Commit?
    case DoFail(w, now, code, raises) => FailTx(job, w, now, code, raises).Commit?
    case DoCancelTerminal(w, g, now, raises) => CancelTerminalTx(job, w, g, now, raises).Commit?
    case DoCancel(registered, now, raises) => CancelTx(job, registered, now, raises).Commit?
  }

  /** A committed ending leaves the job terminal, and a begin is refused only on a terminal job. */
  lemma EndingEnds(job: Job, t: Transaction)
    requires Consistent(job) && Ends(job, t)
    ensures Apply(job, t).row.status.Terminal()
  {
  }

  function ApplyAll(job: Job, ts: seq<Transaction>): Job {
    if ts == [] then job else Apply(ApplyAll(job, ts[..|ts| - 1]), ts[|ts| - 1])
  }

  const CREATED: Row := Row(Queued, None, None, None)

  function NewJob(hasTurn: bool): Job {
    Job(CREATED, false, if hasTurn then Some(CREATED) else None, [])
  }

  ghost predicate Completes(ts: seq<Transaction>) {
    exists i :: 0 <= i < |ts| && ts[i].DoComplete?
  }

  // A job is executed by one worker, so it completes at most once.
  ghost predicate OneCompletion(ts: seq<Transaction>) {
    forall i, j :: 0 <= i < j < |ts| ==> !(ts[i].DoComplete? && ts[j].DoComplete?)
  }

  lemma {:induction false} RunConsistent(hasTurn: bool, ts: seq<Transaction>)
    requires forall i :: 0 <= i < |ts| ==> WithTurn(ts[i]) || !hasTurn
    requires OneCompletion(ts)
    ensures var job := ApplyAll(NewJob(hasTurn), ts);
            Consistent(job) && (job.turn.Some? <==> hasTurn) && (job.row.status == Completed ==> Completes(ts))
  {
    hide Consistent, Apply;
    if ts == [] {
      assert Consistent(NewJob(hasTurn)) by { NewIsConsistent(hasTurn); }
    } else {
      var init, last := ts[..|ts| - 1], ts[|ts| - 1];
      RunConsistent(hasTurn, init);
      var now := ApplyAll(NewJob(hasTurn), init);
      assert forall i :: 0 <= i < |init| ==> init[i] == ts[i];
      if last.DoComplete? { assert now.row.status != Completed; }
      TransactionKeepsConsistent(now, last);
      TransactionKeepsTurn(now, last);
      if now.row.status == Completed {
        var i :| 0 <= i < |init| && init[i].DoComplete?;
        assert ts[i].DoComplete?;
      }
    }
  }

  // The first `i` transactions of a run leave the job such that the next one takes effect and brings this status.
  ghost predicate Brings(hasTurn: bool, ts: seq<Transaction>, i: nat, status: Status)
    requires i < |ts|
  {
    Takes(ApplyAll(NewJob(hasTurn), ts[..i]), ts[i]) && Target(ts[i]) == status
  }

  ghost predicate Brought(hasTurn: bool, ts: seq<Transaction>, status: Status) {
    exists i :: 0 <= i < |ts| && Brings(hasTurn, ts, i, status)
  }

  lemma BroughtMore(hasTurn: bool, ts: seq<Transaction>, status: Status)
    requires ts != []
    ensures Brought(hasTurn, ts, status) <==>
              Brought(hasTurn, ts[..|ts| - 1], status) || Brings(hasTurn, ts, |ts| - 1, status)
  {
    hide Takes, ApplyAll;
    var init := ts[..|ts| - 1];
    assert forall i :: 0 <= i < |init| ==> init[i] == ts[i] && init[..i] == ts[..i];
    assert forall i :: 0 <= i < |init| ==> (Brings(hasTurn, init, i, status) <==> Brings(hasTurn, ts, i, status));
  }

  /** Along every run a job has an outcome exactly if a transaction meant to bring it took effect: it is completed
      exactly if a completion that did not raise met the running job, failed exactly if such a failure met the
      open job, cancelled exactly if such a cancel did; and it is running exactly if such a begin met the open
      job and none of the others has taken effect. */
  lemma {:induction false} OutcomeIff(hasTurn: bool, ts: seq<Transaction>, s: Status)
    requires forall i :: 0 <= i < |ts| ==> WithTurn(ts[i]) || !hasTurn
    requires OneCompletion(ts)
    ensures var status := ApplyAll(NewJob(hasTurn), ts).row.status;
            && (s.Terminal() ==> (status == s <==> Brought(hasTurn, ts, s)))
            && (!status.Terminal() ==> (status == Running <==> Brought(hasTurn, ts, Running)))
  {
    hide Apply, Takes, Consistent, Brings, Brought;
    if ts == [] {
      assert !Brought(hasTurn, ts, s) && !Brought(hasTurn, ts, Running) by { NothingBrought(hasTurn, ts); }
    } else {
      var n := |ts| - 1;
      var init := ts[..n];
      assert forall i :: 0 <= i < n ==> init[i] == ts[i];
      OutcomeIff(hasTurn, init, s);
      RunConsistent(hasTurn, init);
      var now := ApplyAll(NewJob(hasTurn), init);
      if ts[n].DoComplete? { NotTwice(ts); }
      BroughtMore(hasTurn, ts, s);
      BroughtMore(hasTurn, ts, Running);
      OutcomeStep(hasTurn, ts, n, s, now);
      OutcomeStep(hasTurn, ts, n, Running, now);
    }
  }

  lemma NotTwice(ts: seq<Transaction>)
    requires ts != [] && OneCompletion(ts) && ts[|ts| - 1].DoComplete?
    ensures !Completes(ts[..|ts| - 1])
  {
  }

  lemma NothingBrought(hasTurn: bool, ts: seq<Transaction>)
    requires ts == []
    ensures forall s :: !Brought(hasTurn, ts, s)
  {
  }

  // What one more transaction does to the status, and when it is the one to bring it
  lemma OutcomeStep(hasTurn: bool, ts: seq<Transaction>, n: nat, s: Status, now: Job)
    requires n < |ts| && now == ApplyAll(NewJob(hasTurn), ts[..n]) && Consistent(now)
    requires (WithTurn(ts[n]) || now.turn == None) && (ts[n].DoComplete? ==> now.row.status != Completed)
    ensures Brings(hasTurn, ts, n, s) <==> Takes(now, ts[n]) && Target(ts[n]) == s
    ensures Takes(now, ts[n]) ==> !now.row.status.Terminal() && Apply(now, ts[n]).row.status == Target(ts[n])
    ensures !Takes(now, ts[n]) ==> Apply(now, ts[n]).row.status == now.row.status
  {
    hide Apply, Takes, Consistent, ApplyAll;
    TransactionDoes(now, ts[n]);
    TakesOpen(now, ts[n]);
  }

  // No transaction takes effect on a job that has ended.
  lemma TakesOpen(job: Job, t: Transaction)
    ensures Takes(job, t) ==> !job.row.status.Terminal()
  {
  }

  lemma NewIsConsistent(hasTurn: bool)
    ensures Consistent(NewJob(hasTurn))
  {
  }

  lemma TransactionKeepsTurn(job: Job, t: Transaction)
    ensures Apply(job, t).turn.Some? <==> job.turn.Some?
  {
  }

  /** Cancel wins, and outcomes are unique: along any interleaving of transactions a terminal status is
      kept, so is every committed callback, and at most one outcome callback ever commits. */
  lemma {:induction false} CancelWins(hasTurn: bool, ts: seq<Transaction>, more: seq<Transaction>)
    requires forall i :: 0 <= i < |ts + more| ==> WithTurn((ts + more)[i]) || !hasTurn
    requires OneCompletion(ts + more)
    ensures var before, after := ApplyAll(NewJob(hasTurn), ts), ApplyAll(NewJob(hasTurn), ts + more);
            && |Outcomes(after.committed)| <= 1
            && (after.turn.Some? ==> after.turn.value.status == after.row.status)
            && (before.row.status.Terminal() ==>
                  after.row == before.row && after.turn == before.turn && after.committed == before.committed)
    decreases |more|
  {
    hide Apply;
    RunConsistent(hasTurn, ts + more);
    assert ts + [] == ts;
    if more != [] {
      var init, last := more[..|more| - 1], more[|more| - 1];
      var all := ts + more;
      assert all[..|all| - 1] == ts + init;
      assert forall i :: 0 <= i < |ts + init| ==> (ts + init)[i] == all[i];
      CancelWins(hasTurn, ts, init);
      RunConsistent(hasTurn, ts + init);
      var now := ApplyAll(NewJob(hasTurn), ts + init);
      if now.row.status == Completed {
        var i :| 0 <= i < |ts + init| && (ts + init)[i].DoComplete?;
        assert all[i].DoComplete? && !last.DoComplete?;
      }
      if now.row.status.Terminal() {
        TerminalIsFinal(now, last);
      }
    }
  }

  // ---------------------------------------------------------------------------
  // The rows themselves

  // `committed` stands for the effects of the callbacks committed together with the row.
  datatype JobRow = JobRow(row: Row, cancelRequested: bool, turnId: Option<string>, committed: seq<Callback>)

  class JobTable {
    var jobs: map<string, JobRow>
    var turns: map<string, Row>

    // A turn belongs to at most one job.
    ghost predicate Valid()
      reads this
    {
      forall a, b :: a in jobs && b in jobs && jobs[a].turnId.Some? && jobs[a].turnId == jobs[b].turnId ==> a == b
    }

    ghost function View(id: string): Job
      requires Valid() && id in jobs
      reads this
    {
      var j := jobs[id];
      Job(j.row, j.cancelRequested,
          if j.turnId.Some? && j.turnId.value in turns then Some(turns[j.turnId.value]) else None,
          j.committed)
    }

    // The turn id a caller passes along with a job is the job's own, or none.
    ghost predicate Fits(id: string, turnId: Option<string>)
      reads this
    {
      turnId.Some? ==> id in jobs && jobs[id].turnId == turnId
    }

    twostate predicate Moved(id: string, t: Transaction)
      requires old(Valid()) && Valid()
      reads this
    {
      && jobs.Keys == old(jobs.Keys)
      && (id in jobs ==> View(id) == Apply(old(View(id)), t))
      && (forall other :: other in jobs && other != id ==> View(other) == old(View(other)))
    }

    // Writing one job's row, its own turn and its callbacks leaves every other job as it was.
    twostate lemma OthersUnmoved(id: string)
      requires old(Valid()) && id in jobs && jobs.Keys == old(jobs.Keys)
      requires turns.Keys == old(turns.Keys) && jobs[id].turnId == old(jobs[id].turnId)
      requires forall other :: other in jobs && other != id ==>
                 jobs[other] == old(jobs[other])
      requires forall t :: t in turns && Some(t) != jobs[id].turnId ==> turns[t] == old(turns[t])
      ensures Valid() && forall other :: other in jobs && other != id ==> View(other) == old(View(other))
    {
    }

    method TransitionJob(id: string, to: Status, now: int, error: Option<string>) returns (ok: bool)
      requires id in jobs
      modifies `jobs
      ensures ok == Allowed(old(jobs[id].row), to)
      ensures jobs == if ok then old(jobs)[id := old(jobs[id]).(row := JobTo(old(jobs[id].row), to, now, error))]
                      else old(jobs)
    {
      var job := jobs[id];
      if to == job.row.status {
        return true;
      }
      if to !in Legal(job.row.status) {
        return false;
      }
      var row := job.row.(status := to);
      if to == Running {
        row := row.(startedAt := Some(now));
      }
      if to.Terminal() {
        row := row.(completedAt := Some(now));
      }
      if error.Some? {
        row := row.(error := error);
      }
      jobs := jobs[id := job.(row := row)];
      ok := true;
    }

    method TransitionTurn(id: string, to: Status, now: int, code: Option<string>) returns (ok: bool)
      requires id in turns
      modifies `turns
      ensures ok == Allowed(old(turns[id]), to)
      ensures turns == if ok then old(turns)[id := TurnTo(old(turns[id]), to, now, code)] else old(turns)
    {
      var row := turns[id];
      if to == row.status {
        return true;
      }
      if to !in Legal(row.status) {
        return false;
      }
      row := row.(status := to);
      if to == Running {
        row := row.(startedAt := Some(now));
      }
      if to.Terminal() {
        row := row.(completedAt := Some(now));
      }
      turns := turns[id := row.(error := code)];
      ok := true;
    }

    // Ends the turn if it exists and is still open.
    method EndTurn(turnId: Option<string>, to: Status, now: int, code: string) returns (open: bool)
      requires to == Failed || to == Cancelled
      modifies `turns
      ensures open <==> turnId.Some? && turnId.value in old(turns) && !old(turns)[turnId.value].status.Terminal()
      ensures turns == if turnId.Some? && turnId.value in old(turns)
                       then old(turns)[turnId.value := EndedRow(old(turns)[turnId.value], to, now, code)]
                       else old(turns)
    {
      open := turnId.Some? && turnId.value in turns && !turns[turnId.value].status.Terminal();
      if open {
        var _ := TransitionTurn(turnId.value, to, now, Some(code));
      }
    }

    method Record(id: string, c: Callback)
      requires id in jobs
      modifies `jobs
      ensures jobs == old(jobs)[id := old(jobs)[id].(committed := old(jobs)[id].committed + [c])]
    {
      jobs := jobs[id := jobs[id].(committed := jobs[id].committed + [c])];
    }

    // Both transitions of a job that starts or completes
    method MoveBoth(id: string, turnId: Option<string>, to: Status, now: int) returns (ok: bool)
      requires id in jobs
      modifies `jobs, `turns
      ensures jobs.Keys == old(jobs.Keys) && turns.Keys == old(turns.Keys)
      ensures var hasTurn := turnId.Some? && turnId.value in turns;
              && ok == (Allowed(old(jobs)[id].row, to) && (hasTurn ==> Allowed(old(turns)[turnId.value], to)))
              && (ok ==>
                    && jobs == old(jobs)[id := old(jobs)[id].(row := JobTo(old(jobs)[id].row, to, now))]
                    && turns == if hasTurn then old(turns)[turnId.value := TurnTo(old(turns)[turnId.value], to, now)]
                                else old(turns))
    {
      hide JobTo, TurnTo, Allowed;
      ok := TransitionJob(id, to, now, None);
      if ok && turnId.Some? && turnId.value in turns {
        ok := TransitionTurn(turnId.value, to, now, None);
      }
    }

    method Begin(id: string, turnId: Option<string>, now: int, raises: bool) returns (r: Result<bool, string>)
      requires Valid() && Fits(id, turnId)
      modifies this
      ensures Valid() && Moved(id, DoBegin(turnId.Some?, now, raises))
      ensures id !in jobs ==> r == Ok(false)
      ensures id in jobs ==> var tx := BeginTx(old(View(id)), turnId.Some?, now, raises);
                             if tx.Commit? then r == Ok(tx.value) else r.Err?
    {
      hide JobTo, TurnTo, Allowed, Legal, Stamped;
      var jobs0, turns0 := jobs, turns;
      if id !in jobs || jobs[id].row.status == Cancelled || jobs[id].cancelRequested {
        return Ok(false);
      }
      var ok := MoveBoth(id, turnId, Running, now);
      if !ok || raises {
        jobs, turns := jobs0, turns0;
        return Err("begin rolled back");
      }
      Record(id, OnStart);
      OthersUnmoved(id);
      r := Ok(true);
    }

    method Complete(id: string, turnId: Option<string>, now: int, raises: bool) returns (r: Result<bool, string>)
      requires Valid() && Fits(id, turnId)
      modifies this
      ensures Valid() && Moved(id, DoComplete(turnId.Some?, now, raises))
      ensures id !in jobs ==> r == Ok(false)
      ensures id in jobs ==> var tx := CompleteTx(old(View(id)), turnId.Some?, now, raises);
                             if tx.Commit? then r == Ok(tx.value) else r.Err?
    {
      hide JobTo, TurnTo, Allowed, Legal, Stamped;
      var jobs0, turns0 := jobs, turns;
      if id !in jobs || jobs[id].row.status == Cancelled || jobs[id].cancelRequested {
        return Ok(false);
      }
      if raises {
        return Err("complete rolled back");
      }
      var ok := MoveBoth(id, turnId, Completed, now);
      if !ok {
        jobs, turns := jobs0, turns0;
        return Err("complete rolled back");
      }
      Record(id, OnSuccess);
      OthersUnmoved(id);
      r := Ok(true);
    }

    method Fail(id: string, turnId: Option<string>, now: int, code: string, raises: bool)
      returns (r: Result<(), string>)
      requires Valid() && Fits(id, turnId)
      modifies this
      ensures Valid() && Moved(id, DoFail(turnId.Some?, now, code, raises))
      ensures id in jobs ==> (r.Ok? <==> FailTx(old(View(id)), turnId.Some?, now, code, raises).Commit?)
    {
      hide JobTo, EndedRow;
      var jobs0, turns0 := jobs, turns;
      if id !in jobs || jobs[id].row.status.Terminal() {
        return Ok(());
      }
      var _ := TransitionJob(id, Failed, now, Some(code));
      var _ := EndTurn(turnId, Failed, now, code);
      if raises {
        jobs, turns := jobs0, turns0;
        return Err("fail rolled back");
      }
      Record(id, OnFailure);
      OthersUnmoved(id);
      r := Ok(());
    }

    // Cancels the job if it is still open, and marks it as asked to cancel.
    method CloseJob(id: string, now: int) returns (open: bool)
      requires id in jobs
      modifies `jobs
      ensures open <==> !old(jobs[id].row.status.Terminal())
      ensures jobs == old(jobs)[id := JobRow(
                if open then JobTo(old(jobs[id].row), Cancelled, now) else old(jobs[id].row), true,
                old(jobs[id].turnId), old(jobs[id].committed))]
    {
      open := !jobs[id].row.status.Terminal();
      if open {
        var _ := TransitionJob(id, Cancelled, now, None);
      }
      jobs := jobs[id := jobs[id].(cancelRequested := true)];
    }

    // Closes the job and ends the turn; `changed` says whether either was open.
    method CloseBoth(id: string, turnId: Option<string>, now: int) returns (changed: bool)
      requires id in jobs
      modifies `jobs, `turns
      ensures changed <==> !old(jobs[id].row.status.Terminal()) ||
                           (turnId.Some? && turnId.value in old(turns) && !old(turns)[turnId.value].status.Terminal())
      ensures jobs == old(jobs)[id := JobRow(
                if old(jobs[id].row.status.Terminal()) then old(jobs[id].row)
                else JobTo(old(jobs[id].row), Cancelled, now),
                true, old(jobs[id].turnId), old(jobs[id].committed))]
      ensures turns == if turnId.Some? && turnId.value in old(turns)
                       then old(turns)[turnId.value := EndedRow(old(turns)[turnId.value], Cancelled, now, "cancelled")]
                       else old(turns)
    {
      hide JobTo, EndedRow;
      changed := CloseJob(id, now);
      var open := EndTurn(turnId, Cancelled, now, "cancelled");
      changed := changed || open;
    }

    // Closes job and turn and runs the callback, if there is one and either was open; says whether it raised.
    method CloseWithCallback(id: string, turnId: Option<string>, registered: bool, now: int, raises: bool)
      returns (raised: bool)
      requires Valid() && Fits(id, turnId) && id in jobs
      modifies this
      ensures raised == (Closes(old(View(id)), turnId.Some?) && registered && raises)
      ensures !raised ==> Valid() && Moved(id, DoCancelTerminal(turnId.Some?, registered, now, raises))
    {
      hide JobTo, EndedRow;
      ghost var was := View(id);
      var changed := CloseBoth(id, turnId, now);
      assert changed == Closes(was, turnId.Some?);
      hide Closes;
      if changed && registered && raises {
        return true;
      }
      if changed && registered {
        Record(id, OnCancel);
      }
      assert View(id) == Apply(was, DoCancelTerminal(turnId.Some?, registered, now, raises));
      hide CancelTerminalTx;
      OthersUnmoved(id);
      raised := false;
    }

    method CancelTerminal(id: string, turnId: Option<string>, registered: bool, now: int, raises: bool)
      returns (r: Result<(), string>)
      requires Valid() && Fits(id, turnId)
      modifies this
      ensures Valid() && Moved(id, DoCancelTerminal(turnId.Some?, registered, now, raises))
      ensures id in jobs ==> (r.Ok? <==> CancelTerminalTx(old(View(id)), turnId.Some?, registered, now, raises).Commit?)
    {
      hide Closes;
      var jobs0, turns0 := jobs, turns;
      if id !in jobs {
        return Ok(());
      }
      var raised := CloseWithCallback(id, turnId, registered, now, raises);
      if raised {
        jobs, turns := jobs0, turns0;
        return Err("cancel rolled back");
      }
      r := Ok(());
    }

    method Cancel(id: string, registered: bool, now: int, raises: bool) returns (r: Result<bool, string>)
      requires Valid()
      modifies this
      ensures Valid() && Moved(id, DoCancel(registered, now, raises))
      ensures id in jobs ==> var tx := CancelTx(old(View(id)), registered, now, raises);
                             if tx.Commit? then r == Ok(tx.value) else r.Err?
    {
      hide JobTo, EndedRow;
      var jobs0, turns0 := jobs, turns;
      if id !in jobs || jobs[id].row.status.Terminal() {
        return Ok(false);
      }
      var _ := CloseBoth(id, jobs[id].turnId, now);
      if registered && raises {
        jobs, turns := jobs0, turns0;
        return Err("cancel rolled back");
      }
      if registered {
        Record(id, OnCancel);
      }
      OthersUnmoved(id);
      r := Ok(true);
    }
  }
}
