/**
 What a clean `stop` leaves behind: for each job ever accepted, exactly when it is terminal, has no
 entries left and has its done event set, in terms of where the job is and what the cancel and reject
 calls on it did during the run.
 */
module JobShutdown {
  import opened Common
  import opened JobStore
  import opened JobService

  // What a cancel or reject call can do about a job that it does not have hold of
  datatype Event = DoneSet | EntriesTaken | EndWritten | EventMissed

  // The step of a call that signals the done event, takes the entries back, commits the end of the job, or
  // looks the done event up before the job is registered
  predicate Does(v: View, s: Step, e: Event) {
    Enabled(v, s) &&
    match s
    case Cancels(k, Write(now, raises)) =>
      e.EndWritten? && CancelTx(v.job, v.cancels[k].registered, now, raises).Commit?
    case Cancels(k, Fetch) => e.EventMissed? && v.where == Unsubmitted
    case Cancels(k, SignalDone) => e.DoneSet? && v.cancels[k].hadDone
    case Rejects(k, Note(now, code, raises)) => e.EndWritten? && FailTx(v.job, false, now, code, raises).Commit?
    case Rejects(k, Clear) => e.EntriesTaken?
    case Rejects(k, Report) => e.DoneSet? && v.rejects[k].hadDone
    case _ => false
  }

  // Some call did it to the job within the first `k` moves of the run.
  ghost predicate Did(states: seq<Service>, moves: seq<Move>, k: nat, id: string, e: Event)
    requires IsRun(states, moves) && k <= |moves|
  {
    exists i :: 0 <= i < k && DoneBy(states[i], moves[i], id, e)
  }

  predicate DoneBy(s: Service, m: Move, id: string, e: Event) {
    m.OnJob? && m.id == id && id in s.views && Does(s.views[id], m.step, e)
  }

  // ---------------------------------------------------------------------------
  // What the calls did, told from where the job is

  // No worker and no shutdown has had hold of the job.
  predicate Untouched(where: Where) {
    where == Unsubmitted || where == Registered || where == Waiting || where.ByCancel? || where.ByReject?
  }

  // The done event of a job is left to the calls.
  predicate LeftUntold(v: View) {
    Untouched(v.where) || v.blind || v.dropped
  }

  // The entries of a job are left to reject calls that do not have hold of it.
  predicate LeftEntered(v: View) {
    match v.where
    case Registered => true
    case Waiting => true
    case ByCancel(k) => k in v.cancels && v.cancels[k].Unqueued?
    case ByReject(k) => k in v.rejects && !v.rejects[k].Cleared?
    case Gone => v.dropped
    case _ => false
  }

  // The end of a job is left to the calls.
  predicate LeftOpen(v: View) {
    (Untouched(v.where) && !v.where.ByCancel?) || v.lost || v.dropped
  }

  predicate TellsDone(v: View, told: bool) {
    LeftUntold(v) ==> (v.done <==> told)
  }

  predicate TellsEntries(v: View, cleared: bool) {
    && (v.where == Unsubmitted ==> !cleared)
    && (LeftEntered(v) ==> (v.token <==> !cleared) && (v.execution <==> !cleared))
  }

  predicate TellsEnd(v: View, ended: bool) {
    && (ended ==> Over(v))
    && (LeftOpen(v) && Over(v) ==> ended)
  }

  predicate FetchedNothing(v: View, k: nat) {
    k in v.cancels && v.cancels[k].Fetched? && !v.cancels[k].hadDone && v.where != Gone && v.where != Aborted
  }

  ghost predicate TellsEarly(v: View, early: bool) {
    && (v.blind ==> early)
    && (forall k :: FetchedNothing(v, k) ==> early)
  }

  datatype History = History(told: bool, cleared: bool, ended: bool, early: bool)

  ghost predicate Tells(v: View, h: History) {
    TellsDone(v, h.told) && TellsEntries(v, h.cleared) && TellsEnd(v, h.ended) && TellsEarly(v, h.early)
  }

  function Extended(h: History, v: View, s: Step): History {
    History(h.told || Does(v, s, DoneSet), h.cleared || Does(v, s, EntriesTaken), h.ended || Does(v, s, EndWritten),
            h.early || Does(v, s, EventMissed))
  }

  // A worker's or shutdown's step: what it leaves to the calls is what it found left to them.
  ghost predicate Apart(v: View, w: View) {
    && w.cancels == v.cancels && w.blind == v.blind && w.dropped == v.dropped
    && !Untouched(w.where) && v.where != Gone && v.where != Aborted
    && !v.blind && !v.dropped
    && (Over(v) ==> Over(w))
    && (w.lost ==> w.job == v.job && (v.lost || !Over(v)))
  }

  lemma ApartTells(v: View, w: View, h: History)
    requires Tells(v, h) && Apart(v, w)
    ensures Tells(w, h)
  {
    forall k | FetchedNothing(w, k) ensures h.early {
      assert FetchedNothing(v, k);
    }
  }

  lemma BegunApart(v: View, tx: Tx<bool>, cancelled: bool)
    requires Excused(v) && v.where == Working(Selected) && !v.lost
    requires tx.Commit? ==> Advances(v.job, tx.job)
    ensures Apart(v, Begun(v, tx, cancelled))
  {
    hide Consistent;
  }

  lemma FinishedApart(v: View, tx: Tx<bool>, cancelled: bool, publishRaises: bool)
    requires Excused(v) && v.where == Working(Returned) && !v.lost
    requires tx.Commit? ==> Advances(v.job, tx.job)
    ensures Apart(v, Finished(v, tx, cancelled, publishRaises))
  {
    hide Consistent;
  }

  lemma EndedByApart(v: View, tx: Tx<()>)
    requires Excused(v) && (v.where == Working(Failing) || v.where == Working(Cancelling)) && !v.lost
    requires tx.Commit? ==> EndsAs(v.job, tx.job)
    requires tx.Rollback? ==> !Over(v)
    ensures Apart(v, EndedBy(v, tx))
  {
    hide Consistent;
  }

  // Only a transaction that would have changed something can raise.
  lemma RaisesOpen(job: Job, now: int, code: string, raises: bool)
    requires Consistent(job)
    ensures FailTx(job, true, now, code, raises).Rollback? ==> !job.row.status.Terminal()
    ensures CancelTerminalTx(job, true, true, now, raises).Rollback? ==> !job.row.status.Terminal()
  {
    hide Outcomes;
  }

  lemma BookkeepingApart(v: View, s: WorkStep)
    requires Excused(v) && CanWork(v, s) && (s.PickUp? || s.Execute? || s.Pop? || s.Signal? || s.Finish?)
    ensures Apart(v, NextWork(v, s))
  {
    match s
    case PickUp =>
    case Execute(_) =>
    case Pop =>
    case Signal =>
    case Finish =>
  }

  lemma WorkApart(v: View, s: WorkStep)
    requires Sound(v) && CanWork(v, s)
    ensures Apart(v, NextWork(v, s))
  {
    hide Consistent, Apart, Advances, EndsAs, Begun, Finished, EndedBy, OnRecord;
    match s
    case Begin(now, raises, cancelled) =>
      BeginAdvances(v.job, now, raises);
      BegunApart(v, BeginTx(v.job, true, now, raises), cancelled);
    case Complete(now, raises, cancelled, publishRaises) =>
      CompleteAdvances(v.job, now, raises);
      FinishedApart(v, CompleteTx(v.job, true, now, raises), cancelled, publishRaises);
    case Fail(now, code, raises) =>
      FailAdvances(v.job, true, now, code, raises);
      RaisesOpen(v.job, now, code, raises);
      EndedByApart(v, FailTx(v.job, true, now, code, raises));
    case EndCancelled(now, raises) =>
      CancelTerminalAdvances(v.job, true, now, raises);
      RaisesOpen(v.job, now, "", raises);
      EndedByApart(v, CancelTerminalTx(v.job, true, true, now, raises));
    case _ => BookkeepingApart(v, s);
  }

  lemma FinalizedApart(v: View, tx: Tx<()>)
    requires Excused(v) && v.where.Inspected? && (tx.Commit? ==> EndsAs(v.job, tx.job))
    ensures Apart(v, Finalized(v, v.where.hadDone, tx))
  {
    hide Consistent;
  }

  lemma FinalizeApart(v: View, s: FinalizeStep)
    requires Sound(v) && CanFinalize(v, s)
    ensures Apart(v, NextFinalize(v, s))
  {
    hide Consistent, Held, EndsAs, Finalized, OnRecord;
    match s
    case Inspect =>
    case WriteCancelled(now, raises) =>
      CancelTerminalAdvances(v.job, v.where.registered, now, raises);
      FinalizedApart(v, CancelTerminalTx(v.job, true, v.where.registered, now, raises));
    case Forget =>
    case Skip =>
  }

  lemma SubmitTells(v: View, s: SubmitStep, h: History)
    requires Excused(v) && CanSubmit(v, s) && Tells(v, h)
    ensures Tells(NextSubmit(v, s), h)
  {
    var w := NextSubmit(v, s);
    forall k | FetchedNothing(w, k) ensures h.early {
      assert FetchedNothing(v, k);
    }
    match s
    case Register =>
    case Enqueue =>
    case AbortSubmit =>
    case AbortRaises =>
  }

  lemma WrittenTells(v: View, c: nat, tx: Tx<bool>, h: History)
    requires c in v.cancels && v.cancels[c].Read? && Tells(v, h)
    requires tx.Commit? ==> EndsAs(v.job, tx.job)
    ensures Tells(CancelWritten(v, c, tx), h.(ended := h.ended || tx.Commit?))
  {
    hide Consistent;
    var w := CancelWritten(v, c, tx);
    forall k | FetchedNothing(w, k) ensures h.early {
      assert FetchedNothing(v, k);
    }
    match tx
    case Rollback =>
    case Commit(_, _) =>
  }

  lemma CancelTellsDone(v: View, c: nat, s: CancelStep, h: History)
    requires Excused(v) && CancelOk(v, c) && CanCancel(v, c, s) && !s.Write? && TellsDone(v, h.told)
    ensures TellsDone(NextCancel(v, c, s), Extended(h, v, Cancels(c, s)).told)
  {
    match s
    case Look =>
    case Fetch =>
    case Abandon =>
    case Unqueue =>
    case Drop =>
    case SignalDone =>
  }

  lemma CancelTellsEntries(v: View, c: nat, s: CancelStep, h: History)
    requires Excused(v) && CancelOk(v, c) && CanCancel(v, c, s) && !s.Write? && TellsEntries(v, h.cleared)
    ensures TellsEntries(NextCancel(v, c, s), Extended(h, v, Cancels(c, s)).cleared)
  {
    match s
    case Look =>
    case Fetch =>
    case Abandon =>
    case Unqueue =>
    case Drop =>
    case SignalDone =>
  }

  lemma CancelTellsEnd(v: View, c: nat, s: CancelStep, h: History)
    requires Excused(v) && CancelOk(v, c) && CanCancel(v, c, s) && !s.Write? && TellsEnd(v, h.ended)
    ensures TellsEnd(NextCancel(v, c, s), Extended(h, v, Cancels(c, s)).ended)
  {
    match s
    case Look =>
    case Fetch =>
    case Abandon =>
    case Unqueue =>
    case Drop =>
    case SignalDone =>
  }

  lemma CancelTellsEarly(v: View, c: nat, s: CancelStep, h: History)
    requires OnRecord(v) && CancelOk(v, c) && CanCancel(v, c, s) && !s.Write? && TellsEarly(v, h.early)
    ensures TellsEarly(NextCancel(v, c, s), Extended(h, v, Cancels(c, s)).early)
  {
    var w := NextCancel(v, c, s);
    forall k | FetchedNothing(w, k) ensures Extended(h, v, Cancels(c, s)).early {
      if !s.Fetch? || k != c { assert FetchedNothing(v, k); }
    }
    if s.Unqueue? && w.blind && !v.blind { assert FetchedNothing(v, c); }
  }

  lemma CancelTells(v: View, c: nat, s: CancelStep, h: History)
    requires Sound(v) && CancelOk(v, c) && CanCancel(v, c, s) && Tells(v, h)
    ensures Tells(NextCancel(v, c, s), Extended(h, v, Cancels(c, s)))
  {
    hide Consistent, OnRecord, Held, Excused, CancelOk, TellsDone, TellsEntries, TellsEnd, TellsEarly, CancelTx, EndsAs;
    if s.Write? {
      CancelAdvances(v.job, v.cancels[c].registered, s.now, s.raises);
      WrittenTells(v, c, CancelTx(v.job, v.cancels[c].registered, s.now, s.raises), h);
    } else {
      CancelTellsDone(v, c, s, h);
      CancelTellsEntries(v, c, s, h);
      CancelTellsEnd(v, c, s, h);
      CancelTellsEarly(v, c, s, h);
    }
  }

  lemma NotedTells(v: View, c: nat, tx: Tx<()>, h: History)
    requires Excused(v) && c in v.rejects && v.rejects[c].Taken? && RejectOk(v, c) && Tells(v, h)
    requires tx.Commit? ==> EndsAs(v.job, tx.job)
    ensures Tells(RejectNoted(v, c, v.rejects[c].removed, tx), h.(ended := h.ended || tx.Commit?))
  {
    hide Consistent;
    var w := RejectNoted(v, c, v.rejects[c].removed, tx);
    forall k | FetchedNothing(w, k) ensures h.early {
      assert FetchedNothing(v, k);
    }
    match tx
    case Rollback =>
    case Commit(_, _) =>
  }

  lemma RejectStepTells(v: View, c: nat, s: RejectStep, h: History)
    requires Excused(v) && RejectOk(v, c) && CanReject(v, c, s) && !s.Note? && Tells(v, h)
    ensures Tells(NextReject(v, c, s), Extended(h, v, Rejects(c, s)))
  {
    var w := NextReject(v, c, s);
    forall k | FetchedNothing(w, k) ensures h.early {
      assert FetchedNothing(v, k);
    }
    match s
    case Take =>
    case Clear =>
    case Report =>
  }

  lemma RejectTells(v: View, c: nat, s: RejectStep, h: History)
    requires Sound(v) && RejectOk(v, c) && CanReject(v, c, s) && Tells(v, h)
    ensures Tells(NextReject(v, c, s), Extended(h, v, Rejects(c, s)))
  {
    hide Consistent, OnRecord, Held, Excused, TellsDone, TellsEntries, TellsEnd, TellsEarly, FailTx, EndsAs;
    if s.Note? {
      FailAdvances(v.job, false, s.now, s.code, s.raises);
      NotedTells(v, c, FailTx(v.job, false, s.now, s.code, s.raises), h);
    } else {
      RejectStepTells(v, c, s, h);
    }
  }

  /** What the calls have done so far can be told from where the job is, after every step of any thread. */
  lemma StepTells(v: View, s: Step, h: History)
    requires Inv(v) && Enabled(v, s) && Tells(v, h)
    ensures Tells(Next(v, s), Extended(h, v, s))
  {
    hide Consistent, OnRecord, Held, Excused, CancelOk, RejectOk, Tells, Apart, CanSubmit, CanWork, CanCancel;
    hide CanReject, CanFinalize, NextSubmit, NextWork, NextCancel, NextReject, NextFinalize;
    match s
    case Submits(u) => SubmitTells(v, u, h);
    case Works(w) =>
      WorkApart(v, w);
      ApartTells(v, NextWork(v, w), h);
    case Cancels(k, c) =>
      assert CancelOk(v, k);
      CancelTells(v, k, c, h);
    case Rejects(k, r) =>
      assert RejectOk(v, k);
      RejectTells(v, k, r, h);
    case Finalizes(f) =>
      FinalizeApart(v, f);
      ApartTells(v, NextFinalize(v, f), h);
  }

  const NOTHING: History := History(false, false, false, false)

  lemma FreshTells(hasTurn: bool)
    ensures Tells(Fresh(hasTurn), NOTHING)
  {
  }

  lemma DetachTells(v: View, h: History)
    requires Tells(v, h) && Excused(v) && (v.where == Waiting || AtHand(v.where))
    ensures Tells(v.(where := Detached), h)
  {
    forall k | FetchedNothing(v.(where := Detached), k) ensures h.early {
      assert FetchedNothing(v, k);
    }
  }

  // ---------------------------------------------------------------------------
  // Along a run

  ghost function HistoryOf(states: seq<Service>, moves: seq<Move>, k: nat, id: string): History
    requires IsRun(states, moves) && k <= |moves|
  {
    History(Did(states, moves, k, id, DoneSet), Did(states, moves, k, id, EntriesTaken),
            Did(states, moves, k, id, EndWritten), Did(states, moves, k, id, EventMissed))
  }

  lemma DidMore(states: seq<Service>, moves: seq<Move>, k: nat, id: string, e: Event)
    requires IsRun(states, moves) && k < |moves|
    ensures Did(states, moves, k + 1, id, e) <==> Did(states, moves, k, id, e) || DoneBy(states[k], moves[k], id, e)
  {
    hide CanMove, Moved, DoneBy;
    if Did(states, moves, k, id, e) {
      var i :| 0 <= i < k && DoneBy(states[i], moves[i], id, e);
      assert 0 <= i < k + 1;
    }
    if DoneBy(states[k], moves[k], id, e) {
      assert 0 <= k < k + 1;
    }
  }

  // The history of one job after a move of the service
  ghost function Later(h: History, s: Service, m: Move, id: string): History {
    History(h.told || DoneBy(s, m, id, DoneSet), h.cleared || DoneBy(s, m, id, EntriesTaken),
            h.ended || DoneBy(s, m, id, EndWritten), h.early || DoneBy(s, m, id, EventMissed))
  }

  // Nothing has happened to a job that is not yet created.
  ghost predicate TellsOf(s: Service, id: string, h: History) {
    if id in s.views then Tells(s.views[id], h) else h == NOTHING
  }

  lemma MoveTells(s: Service, m: Move, id: string, h: History)
    requires ServiceInv(s) && CanMove(s, m) && TellsOf(s, id, h)
    ensures TellsOf(Moved(s, m), id, Later(h, s, m, id))
  {
    hide Inv, Does, Tells, Next, Enabled, PhaseAfter;
    if id in s.views {
      var v := s.views[id];
      assert Excused(v) by { InvExcuses(v); }
      hide Excused;
      match m
      case OnJob(other, step) => if other == id { StepTells(v, step, h); }
      case FinalizeRaises(other) => if other == id { DetachTells(v, h); }
      case QueueCloses => if v.where == Waiting { DetachTells(v, h); }
      case _ =>
    } else if m.Create? && m.id == id {
      FreshTells(m.hasTurn);
    }
  }

  lemma InvExcuses(v: View)
    requires Inv(v)
    ensures Excused(v) && OnRecord(v) && Held(v)
  {
    hide Consistent, Calls;
  }

  lemma {:induction false} RunTells(states: seq<Service>, moves: seq<Move>, k: nat, id: string)
    requires IsRun(states, moves) && k <= |moves|
    ensures TellsOf(states[k], id, HistoryOf(states, moves, k, id))
  {
    hide ServiceInv, CanMove, Moved, TellsOf, Did, DoneBy;
    if k == 0 {
      assert TellsOf(STARTED, id, HistoryOf(states, moves, 0, id)) by { NothingYet(states, moves, id); }
    } else {
      RunTells(states, moves, k - 1, id);
      RunKeepsServiceInv(states, moves, k - 1);
      assert CanMove(states[k - 1], moves[k - 1]) && states[k] == Moved(states[k - 1], moves[k - 1]);
      MoveTells(states[k - 1], moves[k - 1], id, HistoryOf(states, moves, k - 1, id));
      DidMore(states, moves, k - 1, id, DoneSet);
      DidMore(states, moves, k - 1, id, EntriesTaken);
      DidMore(states, moves, k - 1, id, EndWritten);
      DidMore(states, moves, k - 1, id, EventMissed);
    }
  }

  lemma NothingYet(states: seq<Service>, moves: seq<Move>, id: string)
    requires IsRun(states, moves)
    ensures TellsOf(STARTED, id, HistoryOf(states, moves, 0, id))
  {
  }

  // ---------------------------------------------------------------------------
  // A clean `stop`

  // The call that took the job off the queue has not written its end yet, or lost the write.
  predicate EndOutstanding(v: View) {
    v.lost || v.dropped || (v.where.ByReject? && v.where.call in v.rejects && v.rejects[v.where.call].Taken?)
  }

  // The call that took the job off the queue has not taken its entries back yet, or never will.
  predicate EntriesOutstanding(v: View) {
    || v.dropped
    || (v.where.ByCancel? && v.where.call in v.cancels && v.cancels[v.where.call].Unqueued?)
    || (v.where.ByReject? && v.where.call in v.rejects && !v.rejects[v.where.call].Cleared?)
  }

  // The call that took the job off the queue has not set its done event yet, or never will.
  predicate SignalOutstanding(v: View) {
    v.blind || v.dropped || v.where != Gone
  }

  lemma StoppedView(v: View, id: string, h: History)
    requires Inv(v) && Placed(Stopped, id, v.where) && v.accepted && Tells(v, h)
    ensures v.where == Gone || v.where.ByCancel? || v.where.ByReject?
    ensures Over(v) <==> !EndOutstanding(v) || h.ended
    ensures NoEntries(v) <==> !EntriesOutstanding(v) || h.cleared
    ensures v.done <==> !SignalOutstanding(v) || h.told
    ensures v.blind ==> h.early
  {
    hide Consistent;
    if v.where.ByCancel? { assert CancelOk(v, v.where.call); }
    if v.where.ByReject? { assert RejectOk(v, v.where.call); }
  }

  /** Clean shutdown, exactly: in every run, when `stop` has ended without an error, a job accepted at any
      earlier point is with no worker and no longer in line, and it is
      - terminal unless the worker or the reject call that was to end it lost its write, or a reject call has
        taken it off the queue and not written yet, and no other call committed its end either;
      - without entries unless the call that took it off the queue has not come to taking them back, or gave
        up before, and no other reject call took them either;
      - told unless it is in the hands of the call that took it off the queue, or that call gave up or had
        found no done event, and no other call set the event either. */
  lemma StoppedIsClean(states: seq<Service>, moves: seq<Move>, i: nat, k: nat, id: string)
    requires IsRun(states, moves) && i <= k < |states| && Accepted(states[i], id) && states[k].phase == Stopped
    ensures id in states[k].views
    ensures var v := states[k].views[id];
            && (v.where == Gone || v.where.ByCancel? || v.where.ByReject?)
            && (Over(v) <==> !EndOutstanding(v) || Did(states, moves, k, id, EndWritten))
            && (NoEntries(v) <==> !EntriesOutstanding(v) || Did(states, moves, k, id, EntriesTaken))
            && (v.done <==> !SignalOutstanding(v) || Did(states, moves, k, id, DoneSet))
  {
    hide CanMove, Moved, Inv, Did, Tells, Placed, Over, NoEntries, EndOutstanding, EntriesOutstanding;
    hide SignalOutstanding;
    AcceptedStays(states, moves, i, k, id);
    RunKeepsServiceInv(states, moves, k);
    RunTells(states, moves, k, id);
    StoppedView(states[k].views[id], id, HistoryOf(states, moves, k, id));
  }

  /** So a job that no call has in its hands is left clean if no write of its end was lost and no cancel call
      looked up its done event before it was registered. */
  lemma UnheldIsClean(states: seq<Service>, moves: seq<Move>, i: nat, k: nat, id: string)
    requires IsRun(states, moves) && i <= k < |states| && Accepted(states[i], id) && states[k].phase == Stopped
    requires !Did(states, moves, k, id, EventMissed)
    ensures id in states[k].views
    ensures var v := states[k].views[id];
            v.where == Gone && !v.lost && !v.dropped ==> Over(v) && NoEntries(v) && v.done
  {
    hide CanMove, Moved, Inv, Did, Tells, Placed, Over, NoEntries;
    AcceptedStays(states, moves, i, k, id);
    RunKeepsServiceInv(states, moves, k);
    RunTells(states, moves, k, id);
    StoppedView(states[k].views[id], id, HistoryOf(states, moves, k, id));
  }

  // ---------------------------------------------------------------------------
  // Each of these conditions fails in some run with a clean `stop`

  ghost predicate Reachable(s: Service) {
    exists states, moves :: IsRun(states, moves) && states[|moves|] == s
  }

  lemma ReachMore(s: Service, m: Move)
    requires Reachable(s) && CanMove(s, m)
    ensures Reachable(Moved(s, m))
  {
    var states, moves :| IsRun(states, moves) && states[|moves|] == s;
    assert IsRun(states + [Moved(s, m)], moves + [m]) by { hide CanMove, Moved; }
    hide CanMove, Moved;
  }

  // A service with one job
  function One(v: View, phase: Phase): Service {
    Service(map["job" := v], phase)
  }

  lemma Along(v: View, s: Step, w: View)
    requires Reachable(One(v, Open)) && Enabled(v, s) && !s.Finalizes? && Next(v, s) == w
    ensures Reachable(One(w, Open))
  {
    hide Reachable, Enabled, Next;
    ReachMore(One(v, Open), OnJob("job", s));
    assert map["job" := v]["job" := w] == map["job" := w];
  }

  lemma ClosingOne(v: View)
    requires v.where != Waiting && v.where != Detached
    ensures CanMove(One(v, Closing), QueueCloses) && Moved(One(v, Closing), QueueCloses) == One(v, Ending({}, false))
  {
    assert Closed(map["job" := v]) == map["job" := v];
    assert DetachedIds(map["job" := v]) == {};
  }

  lemma StopOne(v: View)
    requires Reachable(One(v, Open)) && (v.where == Gone || v.where.ByCancel? || v.where.ByReject?)
    ensures Reachable(One(v, Stopped))
  {
    hide Reachable, Detach, Closed, DetachedIds;
    ReachMore(One(v, Open), StopBegins);
    ClosingOne(v);
    ReachMore(One(v, Closing), QueueCloses);
    ReachMore(One(v, Ending({}, false)), FinalizeEnds);
    ReachMore(One(v, Joining(false)), WorkersJoin);
  }

  const CREATED_JOB: View := Fresh(false)

  const WAITING_JOB: View :=
    CREATED_JOB.(token := true, execution := true, doneEntry := true, accepted := true, where := Waiting)

  // The row a cancel call leaves behind when it finds no execution entry
  const CANCELLED_JOB: Job := Job(Row(Cancelled, None, Some(0), None), true, None, [])

  lemma CancelCommits(registered: bool)
    ensures CancelTx(NewJob(false), registered, 0, false) ==
              Commit(CANCELLED_JOB.(committed := if registered then [OnCancel] else []), true)
  {
  }

  lemma CreateOne()
    ensures Reachable(One(CREATED_JOB, Open))
  {
    assert IsRun([STARTED], []);
    ReachMore(STARTED, Create("job", false));
  }

  lemma WaitOne()
    ensures Reachable(One(WAITING_JOB, Open))
  {
    hide Reachable;
    CreateOne();
    var r := CREATED_JOB.(token := true, execution := true, doneEntry := true, where := Registered);
    Along(CREATED_JOB, Submits(Register), r);
    Along(r, Submits(Enqueue), WAITING_JOB);
  }

  const READ_EARLY: View := CREATED_JOB.(job := CANCELLED_JOB, cancels := map[0 := Fetched(false)])

  lemma ReadEarly()
    ensures Reachable(One(READ_EARLY, Open))
  {
    hide Reachable, CancelTx;
    CreateOne();
    CancelCommits(false);
    var v := CREATED_JOB.(cancels := map[0 := Read(false)]);
    Along(CREATED_JOB, Cancels(0, Look), v);
    var w := v.(job := CANCELLED_JOB, cancels := map[0 := Written]);
    Along(v, Cancels(0, Write(0, false)), w);
    Along(w, Cancels(0, Fetch), READ_EARLY);
  }

  /** A cancel call that looked up the done event before the job was registered, and unqueues the job
      after it was submitted, leaves the done event unset: shutdown succeeds and a waiter is never told. */
  lemma EarlyCancelLeavesDoneUnset() returns (v: View)
    ensures Reachable(One(v, Stopped)) && v.accepted && Over(v) && NoEntries(v) && !v.done
    ensures v.where == Gone && !v.lost && !v.dropped
  {
    hide Reachable, CancelTx;
    ReadEarly();
    var a := READ_EARLY.(token := true, execution := true, doneEntry := true, where := Registered);
    Along(READ_EARLY, Submits(Register), a);
    var b := a.(accepted := true, where := Waiting);
    Along(a, Submits(Enqueue), b);
    var c := b.(cancels := map[0 := Unqueued(true, false)], where := ByCancel(0), blind := true);
    Along(b, Cancels(0, Unqueue), c);
    var d := c.(token := false, execution := false, cancels := map[0 := Dropped(true, false)]);
    Along(c, Cancels(0, Drop), d);
    v := d.(cancels := map[], where := Gone);
    Along(d, Cancels(0, SignalDone), v);
    StopOne(v);
  }

  const UNQUEUED_JOB: View :=
    WAITING_JOB.(job := CANCELLED_JOB.(committed := [OnCancel]), cancels := map[0 := Unqueued(true, true)],
                 where := ByCancel(0))

  lemma UnqueueOne()
    ensures Reachable(One(UNQUEUED_JOB, Open))
  {
    hide Reachable, CancelTx;
    WaitOne();
    CancelCommits(true);
    var a := WAITING_JOB.(cancels := map[0 := Read(true)]);
    Along(WAITING_JOB, Cancels(0, Look), a);
    var b := a.(job := CANCELLED_JOB.(committed := [OnCancel]), cancels := map[0 := Written]);
    Along(a, Cancels(0, Write(0, false)), b);
    var c := b.(cancels := map[0 := Fetched(true)]);
    Along(b, Cancels(0, Fetch), c);
    Along(c, Cancels(0, Unqueue), UNQUEUED_JOB);
  }

  /** A cancel call that has unqueued a job outlives shutdown: `stop` ends without an error while the
      job's entries remain and its done event is unset. */
  lemma InFlightCancelOutlivesStop() returns (v: View)
    ensures Reachable(One(v, Stopped)) && v.accepted && Over(v) && v.token && v.execution && !v.done
    ensures v.where.ByCancel? && !v.lost && !v.dropped && !v.blind
  {
    hide Reachable;
    UnqueueOne();
    v := UNQUEUED_JOB;
    StopOne(v);
  }

  const TAKEN_JOB: View := WAITING_JOB.(rejects := map[0 := Taken(true)], where := ByReject(0))

  lemma TakeOne()
    ensures Reachable(One(TAKEN_JOB, Open))
  {
    hide Reachable;
    WaitOne();
    Along(WAITING_JOB, Rejects(0, Take), TAKEN_JOB);
  }

  /** So does a reject call: `stop` ends without an error while the job is not even terminal. */
  lemma InFlightRejectOutlivesStop() returns (v: View)
    ensures Reachable(One(v, Stopped)) && v.accepted && !Over(v) && v.token && v.execution && !v.done
    ensures v.where.ByReject? && !v.lost && !v.dropped
  {
    hide Reachable;
    TakeOne();
    v := TAKEN_JOB;
    StopOne(v);
  }

  /** A reject call whose write raises gives up a job that it has taken off the queue: nobody ends it, takes
      its entries back or tells a waiter. */
  lemma FailedRejectDropsJob() returns (v: View)
    ensures Reachable(One(v, Stopped)) && v.accepted && !Over(v) && v.token && v.execution && !v.done
    ensures v.where == Gone && v.rejects == map[] && !v.lost
  {
    hide Reachable;
    TakeOne();
    v := TAKEN_JOB.(rejects := map[], where := Gone, dropped := true);
    Along(TAKEN_JOB, Rejects(0, Note(0, "", true)), v);
    StopOne(v);
  }

  /** A worker whose ending write raises as well leaves the job open for ever, though it tells the waiters. */
  lemma LostWriteLeavesJobOpen() returns (v: View)
    ensures Reachable(One(v, Stopped)) && v.accepted && !Over(v) && NoEntries(v) && v.done
    ensures v.where == Gone && v.cancels == map[] && v.rejects == map[] && !v.dropped
  {
    hide Reachable;
    WaitOne();
    var a := WAITING_JOB.(where := Working(Selected));
    Along(WAITING_JOB, Works(PickUp), a);
    var b := a.(where := Working(Failing));
    Along(a, Works(Begin(0, true, false)), b);
    var c := b.(where := Working(Settled), lost := true);
    Along(b, Works(Fail(0, "", true)), c);
    var d := c.(token := false, execution := false, where := Working(Popped(true)));
    Along(c, Works(Pop), d);
    var e := d.(done := true, where := Working(Signalled));
    Along(d, Works(Signal), e);
    v := e.(where := Gone);
    Along(e, Works(Finish), v);
    StopOne(v);
  }

  // ---------------------------------------------------------------------------
  // And the ordinary ways through the service are clean

  predicate IsClean(v: View, outcome: Status, callbacks: seq<Callback>) {
    && v.accepted && v.where == Gone && NoEntries(v) && v.done
    && v.job.row.status == outcome && v.job.committed == callbacks
    && v.cancels == map[] && v.rejects == map[]
  }

  const RUNNING: Job := Job(Row(Running, Some(0), None, None), false, None, [OnStart])

  const COMPLETED: Job := Job(Row(Completed, Some(0), Some(1), None), false, None, [OnStart, OnSuccess])

  lemma SettledOne(v: View, w: View)
    requires Reachable(One(v, Open)) && v.where == Working(Settled) && v.doneEntry
    requires w == v.(token := false, execution := false, done := true, where := Gone)
    ensures Reachable(One(w, Stopped))
  {
    hide Reachable;
    var a := v.(token := false, execution := false, where := Working(Popped(true)));
    Along(v, Works(Pop), a);
    var b := a.(done := true, where := Working(Signalled));
    Along(a, Works(Signal), b);
    Along(b, Works(Finish), w);
    StopOne(w);
  }

  /** An undisturbed job is begun, executed and completed, and nothing of it is left. */
  lemma UndisturbedJobCompletes() returns (v: View)
    ensures Reachable(One(v, Stopped)) && IsClean(v, Completed, [OnStart, OnSuccess])
  {
    hide Reachable;
    WaitOne();
    var a := WAITING_JOB.(where := Working(Selected));
    Along(WAITING_JOB, Works(PickUp), a);
    var b := a.(job := RUNNING, where := Working(Executing));
    Along(a, Works(Begin(0, false, false)), b);
    var c := b.(where := Working(Returned));
    Along(b, Works(Execute(Returned)), c);
    var d := c.(job := COMPLETED, where := Working(Settled));
    assert [OnStart] + [OnSuccess] == [OnStart, OnSuccess];
    Along(c, Works(Complete(1, false, false, false)), d);
    v := d.(token := false, execution := false, done := true, where := Gone);
    SettledOne(d, v);
  }

  /** A user's cancel of a waiting job cancels it, takes it off the queue and leaves nothing of it. */
  lemma WaitingJobIsCancelled() returns (v: View)
    ensures Reachable(One(v, Stopped)) && IsClean(v, Cancelled, [OnCancel])
  {
    hide Reachable;
    UnqueueOne();
    var e := UNQUEUED_JOB.(token := false, execution := false, cancels := map[0 := Dropped(true, true)]);
    Along(UNQUEUED_JOB, Cancels(0, Drop), e);
    v := e.(done := true, cancels := map[], where := Gone);
    Along(e, Cancels(0, SignalDone), v);
    StopOne(v);
  }

  /** A rejection of a waiting job fails it, takes it off the queue and leaves nothing of it. */
  lemma WaitingJobIsRejected() returns (v: View)
    ensures Reachable(One(v, Stopped)) && IsClean(v, Failed, [OnFailure])
  {
    hide Reachable;
    TakeOne();
    var failed := Job(Row(Failed, None, Some(0), Some("")), false, None, [OnFailure]);
    var b := TAKEN_JOB.(job := failed, rejects := map[0 := Noted(true)]);
    Along(TAKEN_JOB, Rejects(0, Note(0, "", false)), b);
    var c := b.(token := false, execution := false, rejects := map[0 := RejectCall.Cleared(true, true)]);
    Along(b, Rejects(0, Clear), c);
    v := c.(done := true, rejects := map[], where := Gone);
    Along(c, Rejects(0, Report), v);
    StopOne(v);
  }

  lemma AlongEnding(v: View, todo: set<string>, s: FinalizeStep, w: View, after: set<string>)
    requires Reachable(One(v, Ending(todo, false))) && Enabled(v, Finalizes(s)) && NextFinalize(v, s) == w
    requires "job" in todo && (s.Inspect? ==> !AtHand(v.where)) && !s.Skip?
    requires w.where != Detached && after == if s.Forget? then todo - {"job"} else todo
    ensures Reachable(One(w, Ending(after, false)))
  {
    hide Reachable, Enabled, NextFinalize;
    ReachMore(One(v, Ending(todo, false)), OnJob("job", Finalizes(s)));
    assert map["job" := v]["job" := w] == map["job" := w];
  }

  lemma DetachOne()
    ensures Reachable(One(WAITING_JOB.(where := Detached), Ending({"job"}, false)))
  {
    hide Reachable;
    WaitOne();
    ReachMore(One(WAITING_JOB, Open), StopBegins);
    var v := WAITING_JOB.(where := Detached);
    assert Closed(map["job" := WAITING_JOB]) == map["job" := v];
    assert DetachedIds(map["job" := v]) == {"job"};
    ReachMore(One(WAITING_JOB, Closing), QueueCloses);
  }

  /** A job that still waits when the service stops is cancelled, and not even its done event stays on record. */
  lemma StoppedJobIsCancelled() returns (v: View)
    ensures Reachable(One(v, Stopped)) && IsClean(v, Cancelled, [OnCancel]) && !v.doneEntry
  {
    hide Reachable;
    DetachOne();
    var a := WAITING_JOB.(where := Detached);
    var b := a.(where := Inspected(true, true));
    AlongEnding(a, {"job"}, Inspect, b, {"job"});
    var c := b.(job := CANCELLED_JOB.(committed := [OnCancel]), where := Finalizing(true));
    assert [] + [OnCancel] == [OnCancel];
    AlongEnding(b, {"job"}, WriteCancelled(0, false), c, {"job"});
    v := c.(token := false, execution := false, doneEntry := false, done := true, where := Gone);
    AlongEnding(c, {"job"}, Forget, v, {});
    ReachMore(One(v, Ending({}, false)), FinalizeEnds);
    ReachMore(One(v, Joining(false)), WorkersJoin);
  }
}
