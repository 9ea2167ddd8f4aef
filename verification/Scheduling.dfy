/**
 The scheduler and the job service together: where one of them moves a job on the queue, so does the other.

 The service submits one queue job for each of its own and never a group; `tickets` records which. After
 a clean `stop` the next `start` makes a new queue.
 */
module Scheduling {
  import opened Common
  import Q = JobQueue
  import R = JobStore
  import S = JobService

  datatype World = World(queue: Q.State, service: S.Service, tickets: map<string, Q.Job>)

  datatype Act =
    | Alone(move: S.Move)
    | Submits(id: string, job: Q.Job)
    | Starts(id: string, worker: Q.Worker, seen: Q.Env, env: Q.Env)
    | Ends(id: string, worker: Q.Worker)
    | Cancels(id: string, call: nat)
    | Rejects(id: string, call: nat)
    | Closes
    | Forgets(id: string)
    | Restarts

  // A move of the service that is also a step of the queue
  predicate Shared(m: S.Move) {
    match m
    case OnJob(_, Submits(Enqueue)) => true
    case OnJob(_, Works(PickUp)) => true
    case OnJob(_, Works(Finish)) => true
    case OnJob(_, Cancels(_, Unqueue)) => true
    case OnJob(_, Rejects(_, Take)) => true
    case OnJob(_, Finalizes(Forget)) => true
    case QueueCloses => true
    case Restart => true
    case _ => false
  }

  // What the service does in the act
  function MoveOf(a: Act): S.Move {
    match a
    case Alone(move) => move
    case Submits(id, _) => S.OnJob(id, S.Submits(S.Enqueue))
    case Starts(id, _, _, _) => S.OnJob(id, S.Works(S.PickUp))
    case Ends(id, _) => S.OnJob(id, S.Works(S.WorkStep.Finish))
    case Cancels(id, k) => S.OnJob(id, S.Cancels(k, S.Unqueue))
    case Rejects(id, k) => S.OnJob(id, S.Rejects(k, S.Take))
    case Closes => S.QueueCloses
    case Forgets(id) => S.OnJob(id, S.Finalizes(S.Forget))
    case Restarts => S.Restart
  }

  ghost predicate CanAct(c: Q.Config, w: World, a: Act) {
    && S.CanMove(w.service, MoveOf(a))
    && match a
       case Alone(move) => !Shared(move)
       case Submits(id, job) =>
         Q.Enabled(c, w.queue, Q.Submit([job])) && job.asyncJobId == id && job.groupId == ""
       case Starts(id, worker, seen, env) =>
         && Q.Enabled(c, w.queue, Q.Select(worker, seen, env))
         && Q.Pick(c, w.queue, c.workers[worker], env).job.asyncJobId == id
       case Ends(id, worker) =>
         worker in c.workers && worker in w.queue.running && w.queue.running[worker].asyncJobId == id
       case Forgets(id) => id in w.tickets
       case _ => true
  }

  function QueueAfter(c: Q.Config, w: World, a: Act): Q.State
    requires a.Starts? ==> a.worker in c.workers && Q.Choosable(w.queue, c.workers[a.worker], a.env)
    requires a.Ends? ==> a.worker in c.workers && a.worker in w.queue.running
    requires a.Forgets? ==> a.id in w.tickets
  {
    match a
    case Alone(_) => w.queue
    case Submits(_, job) => Q.SubmitStep(w.queue, [job])
    case Starts(_, worker, _, env) => Q.SelectStep(c, w.queue, worker, env)
    case Ends(_, worker) => Q.FinishStep(c, w.queue, worker)
    case Cancels(id, _) => Q.CancelStep(w.queue, id)
    case Rejects(id, _) => Q.CancelStep(w.queue, id)
    case Closes => Q.CloseStep(w.queue)
    case Forgets(id) => Q.AcknowledgeStep(w.queue, w.tickets[id].id)
    case Restarts => Q.EMPTY
  }

  ghost function After(c: Q.Config, w: World, a: Act): World
    requires CanAct(c, w, a)
  {
    World(QueueAfter(c, w, a), S.Moved(w.service, MoveOf(a)),
          if a.Submits? then w.tickets[a.id := a.job] else w.tickets)
  }

  // ---------------------------------------------------------------------------
  // The queue and the service agree where every job is

  // Where the current queue has the job
  function PlaceOf(w: World, id: string): Option<Q.Place> {
    if id in w.tickets && w.tickets[id] in w.queue.place then Some(w.queue.place[w.tickets[id]]) else None
  }

  predicate Agree(where: S.Where, place: Option<Q.Place>) {
    match where
    case Unsubmitted => place == None
    case Registered => place == None
    case Aborted => place == None
    case Waiting => place == Some(Q.Pending)
    case Working(_) => place.Some? && place.value.Executing?
    case Detached => place == Some(Q.Detached)
    case Inspected(_, _) => place == Some(Q.Detached)
    case Finalizing(_) => place == Some(Q.Detached)
    case ByCancel(_) => place == None || place == Some(Q.Cancelled)
    case ByReject(_) => place == None || place == Some(Q.Cancelled)
    case Gone => place == None || place.value.Finished? || place.value.Cancelled? || place.value.Acknowledged?
  }

  // Every queue job is the one submitted for its service job, and it is in no group.
  predicate Ticketed(w: World) {
    && (forall id :: id in w.tickets ==> w.tickets[id].asyncJobId == id && id in w.service.views)
    && (forall job :: job in w.queue.place ==>
          job.asyncJobId in w.tickets && w.tickets[job.asyncJobId] == job && job.groupId == "")
  }

  predicate Linked(w: World) {
    && Ticketed(w)
    && (forall id :: id in w.service.views ==> Agree(w.service.views[id].where, PlaceOf(w, id)))
    && (w.service.phase.Open? ==> !w.queue.stop)
  }

  // Only a worker has its job running, unless it lost the write that was to end it.
  predicate RunsAtWork(v: S.View) {
    v.job.row.status.Running? ==> v.where.Working? || v.lost
  }

  ghost predicate WorldInv(c: Q.Config, w: World) {
    && S.ServiceInv(w.service) && Q.Inv(c, w.queue) && Q.Exclusive(w.queue)
    && Linked(w)
    && (forall id :: id in w.service.views ==> RunsAtWork(w.service.views[id]))
  }

  // ---------------------------------------------------------------------------
  // Running jobs are at work

  // The job stays as it is or ends.
  predicate Settles(v: S.View, w: S.View) {
    (w.job.row.status == v.job.row.status || w.job.row.status.Terminal()) && w.lost == v.lost
  }

  lemma WrittenSettles(v: S.View, k: nat, tx: R.Tx<bool>)
    requires tx.Commit? ==> S.EndsAs(v.job, tx.job)
    ensures Settles(v, S.CancelWritten(v, k, tx))
  {
    hide R.Consistent;
  }

  lemma CancelSettles(v: S.View, k: nat, s: S.CancelStep)
    requires R.Consistent(v.job) && S.CanCancel(v, k, s)
    ensures Settles(v, S.NextCancel(v, k, s))
  {
    hide R.Consistent, R.CancelTx, S.EndsAs;
    match s
    case Look =>
    case Write(now, raises) =>
      S.CancelAdvances(v.job, v.cancels[k].registered, now, raises);
      WrittenSettles(v, k, R.CancelTx(v.job, v.cancels[k].registered, now, raises));
    case Fetch =>
    case Abandon =>
    case Unqueue =>
    case Drop =>
    case SignalDone =>
  }

  lemma NotedSettles(v: S.View, k: nat, removed: bool, tx: R.Tx<()>)
    requires tx.Commit? ==> S.EndsAs(v.job, tx.job)
    ensures Settles(v, S.RejectNoted(v, k, removed, tx))
  {
    hide R.Consistent;
  }

  lemma RejectSettles(v: S.View, k: nat, s: S.RejectStep)
    requires R.Consistent(v.job) && S.CanReject(v, k, s) && S.RejectOk(v, k)
    ensures Settles(v, S.NextReject(v, k, s))
  {
    hide R.Consistent, R.FailTx, S.EndsAs;
    match s
    case Take =>
    case Note(now, code, raises) =>
      S.FailAdvances(v.job, false, now, code, raises);
      NotedSettles(v, k, v.rejects[k].removed, R.FailTx(v.job, false, now, code, raises));
    case Clear =>
    case Report =>
  }

  lemma FinalizedSettles(v: S.View, hadDone: bool, tx: R.Tx<()>)
    requires tx.Commit? ==> S.EndsAs(v.job, tx.job)
    ensures Settles(v, S.Finalized(v, hadDone, tx))
  {
    hide R.Consistent;
  }

  lemma FinalizeSettles(v: S.View, s: S.FinalizeStep)
    requires R.Consistent(v.job) && S.CanFinalize(v, s)
    ensures Settles(v, S.NextFinalize(v, s))
  {
    hide R.Consistent, R.CancelTerminalTx, S.EndsAs;
    match s
    case Inspect =>
    case WriteCancelled(now, raises) =>
      S.CancelTerminalAdvances(v.job, v.where.registered, now, raises);
      FinalizedSettles(v, v.where.hadDone, R.CancelTerminalTx(v.job, true, v.where.registered, now, raises));
    case Forget =>
    case Skip =>
  }

  lemma FinishRuns(v: S.View)
    requires S.Held(v) && S.CanWork(v, S.WorkStep.Finish)
    ensures RunsAtWork(S.NextWork(v, S.WorkStep.Finish))
  {
  }

  lemma SubmitSettles(v: S.View, s: S.SubmitStep)
    requires S.CanSubmit(v, s)
    ensures Settles(v, S.NextSubmit(v, s))
  {
    match s
    case Register =>
    case Enqueue =>
    case AbortSubmit =>
    case AbortRaises =>
  }

  lemma StepKeepsRuns(v: S.View, s: S.Step)
    requires S.Inv(v) && S.Enabled(v, s) && RunsAtWork(v)
    ensures RunsAtWork(S.Next(v, s))
  {
    hide R.Consistent, S.Held, S.OnRecord, S.CancelOk, S.RejectOk, S.CanSubmit, S.CanWork, S.CanCancel, S.CanReject;
    hide S.CanFinalize, S.NextSubmit, S.NextWork, S.NextCancel, S.NextReject, S.NextFinalize;
    S.StepMovesWhere(v, s);
    match s
    case Submits(u) => SubmitSettles(v, u);
    case Works(w) => if w.Finish? { FinishRuns(v); }
    case Cancels(k, c) => CancelSettles(v, k, c);
    case Rejects(k, r) =>
      assert S.RejectOk(v, k);
      RejectSettles(v, k, r);
    case Finalizes(f) => FinalizeSettles(v, f);
  }

  // ---------------------------------------------------------------------------
  // The link is kept

  // Only the one job has moved in the service, and the service has not been opened.
  predicate OneMoved(s: S.Service, t: S.Service, id: string) {
    && t.views.Keys == s.views.Keys
    && (forall other :: other in s.views && other != id ==> t.views[other].where == s.views[other].where)
    && (t.phase.Open? ==> s.phase.Open?)
  }

  lemma StillTicketed(w: World, u: World)
    requires Ticketed(w) && u.tickets == w.tickets && u.service.views.Keys == w.service.views.Keys
    requires forall job :: job in u.queue.place <==> job in w.queue.place
    ensures Ticketed(u)
  {
  }

  // Its queue job has moved along.
  lemma MovedAlong(w: World, u: World, id: string, to: Q.Place)
    requires Linked(w) && id in w.service.views && OneMoved(w.service, u.service, id)
    requires id in w.tickets && w.tickets[id] in w.queue.place && u.tickets == w.tickets
    requires u.queue.place == w.queue.place[w.tickets[id] := to] && u.queue.stop == w.queue.stop
    requires Agree(u.service.views[id].where, Some(to))
    ensures Linked(u)
  {
    hide Agree;
    forall other | other in u.service.views ensures Agree(u.service.views[other].where, PlaceOf(u, other)) {
      assert other != id ==> PlaceOf(u, other) == PlaceOf(w, other);
      assert Agree(w.service.views[other].where, PlaceOf(w, other));
    }
  }

  // Its queue job, if it has one, is where it was.
  lemma MovedAlone(w: World, u: World, id: string)
    requires Linked(w) && id in w.service.views && OneMoved(w.service, u.service, id)
    requires u.tickets == w.tickets && u.queue.place == w.queue.place && u.queue.stop == w.queue.stop
    requires Agree(u.service.views[id].where, PlaceOf(w, id))
    ensures Linked(u)
  {
    hide Agree, Ticketed;
    StillTicketed(w, u);
    forall other | other in u.service.views ensures Agree(u.service.views[other].where, PlaceOf(u, other)) {
      assert PlaceOf(u, other) == PlaceOf(w, other);
      assert Agree(w.service.views[other].where, PlaceOf(w, other));
    }
  }

  // What a move of one job is for the service as a whole
  lemma JobMoves(s: S.Service, id: string, step: S.Step)
    requires S.ServiceInv(s) && S.CanMove(s, S.OnJob(id, step))
    ensures var t := S.Moved(s, S.OnJob(id, step));
            OneMoved(s, t, id) && S.WhereMoves(s.views[id].where, step, t.views[id].where)
  {
    hide S.Inv, S.Next, S.Enabled, S.Placed, S.WhereMoves;
    S.InvHas(s.views[id]);
    S.StepMovesWhere(s.views[id], step);
  }

  lemma AloneAgrees(a: S.Where, step: S.Step, b: S.Where, place: Option<Q.Place>, id: string)
    requires Agree(a, place) && S.WhereMoves(a, step, b) && !Shared(S.OnJob(id, step))
    ensures Agree(b, place)
  {
  }

  lemma AloneKeepsLinked(c: Q.Config, w: World, m: S.Move)
    requires WorldInv(c, w) && CanAct(c, w, Alone(m))
    ensures Linked(After(c, w, Alone(m)))
  {
    hide S.Inv, S.Next, S.Enabled, S.Placed, S.WhereMoves, Agree, Ticketed, Q.Inv, Q.Exclusive, RunsAtWork;
    var u := After(c, w, Alone(m));
    match m
    case OnJob(id, step) =>
      JobMoves(w.service, id, step);
      AloneAgrees(w.service.views[id].where, step, u.service.views[id].where, PlaceOf(w, id), id);
      MovedAlone(w, u, id);
    case FinalizeRaises(id) =>
      assert Agree(S.Detached, PlaceOf(w, id)) by { PutBackAgrees(w.service.views[id].where, PlaceOf(w, id)); }
      MovedAlone(w, u, id);
    case Create(id, hasTurn) => CreateKeepsLinked(w, u, id);
    case _ => SameViewsLinked(w, u);
  }

  lemma PutBackAgrees(where: S.Where, place: Option<Q.Place>)
    requires S.AtHand(where) && Agree(where, place)
    ensures Agree(S.Detached, place)
  {
  }

  lemma CreateKeepsLinked(w: World, u: World, id: string)
    requires Linked(w) && id !in w.service.views && u.queue == w.queue && u.tickets == w.tickets
    requires u.service.phase == w.service.phase
    requires exists v: S.View :: v.where == S.Unsubmitted && u.service.views == w.service.views[id := v]
    ensures Linked(u)
  {
    hide Agree;
    assert Agree(S.Unsubmitted, None) by { NoneYet(); }
    forall other | other in u.service.views ensures Agree(u.service.views[other].where, PlaceOf(u, other)) {
      if other != id { assert Agree(w.service.views[other].where, PlaceOf(w, other)); }
    }
  }

  lemma NoneYet()
    ensures Agree(S.Unsubmitted, None)
  {
  }

  lemma SameViewsLinked(w: World, u: World)
    requires Linked(w) && u.queue == w.queue && u.tickets == w.tickets && u.service.views == w.service.views
    requires u.service.phase.Open? ==> w.service.phase.Open?
    ensures Linked(u)
  {
    hide Agree;
    forall other | other in u.service.views ensures Agree(u.service.views[other].where, PlaceOf(u, other)) {
      assert Agree(w.service.views[other].where, PlaceOf(w, other));
    }
  }

  lemma WaitsIff(w: World, id: string)
    requires Linked(w) && id in w.service.views
    ensures w.service.views[id].where == S.Waiting <==> PlaceOf(w, id) == Some(Q.Pending)
  {
    hide Ticketed, PlaceOf;
    LinkedAt(w, id);
  }

  // The queue has the job pending exactly while it waits.
  lemma PendingIff(c: Q.Config, w: World, id: string)
    requires Linked(w) && Q.Conserved(c, w.queue) && id in w.service.views
    ensures w.service.views[id].where == S.Waiting <==> PlaceOf(w, id) == Some(Q.Pending)
    ensures PlaceOf(w, id) == Some(Q.Pending) <==> Q.Matching(w.queue.pending, id) != []
    ensures PlaceOf(w, id) == Some(Q.Pending) ==>
              id in w.tickets && w.tickets[id] in w.queue.pending && Q.Matching(w.queue.pending, id)[0] == w.tickets[id]
  {
    hide Q.Manned, Q.Identified, Q.NoDup, Agree;
    WaitsIff(w, id);
    var found := Q.Matching(w.queue.pending, id);
    if found != [] { assert found[0] in found; }
    if PlaceOf(w, id) == Some(Q.Pending) { assert w.tickets[id] in w.queue.pending; }
  }

  lemma TakeKeepsLinked(c: Q.Config, w: World, id: string, step: S.Step)
    requires S.ServiceInv(w.service) && Q.Conserved(c, w.queue) && Linked(w)
    requires S.CanMove(w.service, S.OnJob(id, step))
    requires (step.Cancels? && step.cancel.Unqueue?) || (step.Rejects? && step.reject.Take?)
    ensures Linked(World(Q.CancelStep(w.queue, id), S.Moved(w.service, S.OnJob(id, step)), w.tickets))
  {
    hide S.ServiceInv, S.Moved, S.CanMove, Q.Conserved, Q.Matching, Q.Remove, Linked;
    var u := World(Q.CancelStep(w.queue, id), S.Moved(w.service, S.OnJob(id, step)), w.tickets);
    JobMoves(w.service, id, step);
    assert id in w.service.views by { Present(w.service, id, step); }
    PendingIff(c, w, id);
    if w.service.views[id].where == S.Waiting {
      MovedAlong(w, u, id, Q.Cancelled);
    } else {
      assert Agree(w.service.views[id].where, PlaceOf(w, id)) by { LinkedAt(w, id); }
      MovedAlone(w, u, id);
    }
  }

  lemma Present(s: S.Service, id: string, step: S.Step)
    requires S.CanMove(s, S.OnJob(id, step))
    ensures id in s.views && S.Enabled(s.views[id], step)
  {
  }

  lemma LinkedAt(w: World, id: string)
    requires Linked(w) && id in w.service.views
    ensures Agree(w.service.views[id].where, PlaceOf(w, id))
  {
  }

  lemma StartKeepsLinked(c: Q.Config, w: World, id: string, worker: Q.Worker, seen: Q.Env, env: Q.Env)
    requires WorldInv(c, w) && CanAct(c, w, Starts(id, worker, seen, env))
    ensures Linked(After(c, w, Starts(id, worker, seen, env)))
  {
    hide S.ServiceInv, S.Moved, S.CanMove, Q.Pick, Q.Choosable, Q.Remove, Q.Counted, Q.Manned, Q.Identified;
    hide Q.Exclusive, Agree, RunsAtWork;
    var u, lane := After(c, w, Starts(id, worker, seen, env)), c.workers[worker];
    JobMoves(w.service, id, S.Works(S.PickUp));
    Present(w.service, id, S.Works(S.PickUp));
    Q.PickIsPending(c, w.queue, lane, env);
    assert Agree(S.Working(S.Selected), Some(Q.Executing(worker))) by { AtWork(worker); }
    MovedAlong(w, u, id, Q.Executing(worker));
  }

  lemma AtWork(worker: Q.Worker)
    ensures Agree(S.Working(S.Selected), Some(Q.Executing(worker)))
    ensures Agree(S.Gone, Some(Q.Finished)) && Agree(S.Gone, Some(Q.Acknowledged))
    ensures Agree(S.Waiting, Some(Q.Pending))
  {
  }

  lemma EndKeepsLinked(c: Q.Config, w: World, id: string, worker: Q.Worker)
    requires WorldInv(c, w) && CanAct(c, w, Ends(id, worker))
    ensures Linked(After(c, w, Ends(id, worker)))
  {
    hide S.ServiceInv, S.Moved, S.CanMove, Q.Counted, Q.Listed, Q.Identified, Q.Exclusive, Agree, RunsAtWork;
    JobMoves(w.service, id, S.Works(S.WorkStep.Finish));
    Present(w.service, id, S.Works(S.WorkStep.Finish));
    AtWork(worker);
    MovedAlong(w, After(c, w, Ends(id, worker)), id, Q.Finished);
  }

  lemma ForgetKeepsLinked(c: Q.Config, w: World, id: string)
    requires WorldInv(c, w) && CanAct(c, w, Forgets(id))
    ensures Linked(After(c, w, Forgets(id)))
  {
    hide S.ServiceInv, S.Moved, S.CanMove, Q.Counted, Q.Listed, Q.Manned, Q.Identified, Q.Exclusive, RunsAtWork, Agree;
    JobMoves(w.service, id, S.Finalizes(S.Forget));
    Present(w.service, id, S.Finalizes(S.Forget));
    DetachedThere(w, id);
    OnlyOne(w.queue, w.tickets[id]);
    AtWork(0);
    MovedAlong(w, After(c, w, Forgets(id)), id, Q.Acknowledged);
  }

  lemma DetachedThere(w: World, id: string)
    requires Linked(w) && Q.Listed(w.queue) && id in w.service.views && w.service.views[id].where.Finalizing?
    ensures id in w.tickets && w.tickets[id] in w.queue.place && w.tickets[id] in w.queue.stopped
  {
    hide Q.NoDup, Ticketed;
    LinkedAt(w, id);
  }

  // Acknowledging by queue id forgets the one job.
  lemma OnlyOne(q: Q.State, job: Q.Job)
    requires Q.Listed(q) && Q.Identified(q) && job in q.stopped
    ensures Q.AcknowledgeStep(q, job.id).place == q.place[job := Q.Acknowledged]
  {
    hide Q.NoDup, Q.Placed;
    forall other | other in q.stopped && other.id == job.id ensures other == job {
      assert other in q.place && job in q.place;
    }
  }

  lemma ArrivedTicketed(w: World, u: World, id: string, job: Q.Job)
    requires Ticketed(w) && id in w.service.views && u.service.views.Keys == w.service.views.Keys
    requires job.asyncJobId == id && job.groupId == "" && PlaceOf(w, id) == None
    requires u.tickets == w.tickets[id := job]
    requires forall other :: other in u.queue.place <==> other in w.queue.place || other == job
    ensures Ticketed(u)
  {
    forall other | other in w.queue.place ensures other.asyncJobId != id {
      assert w.tickets[other.asyncJobId] == other;
    }
  }

  lemma ElsewhereSame(w: World, u: World, id: string, job: Q.Job, other: string)
    requires Ticketed(w) && other != id && job.asyncJobId == id && u.tickets == w.tickets[id := job]
    requires forall x :: x in u.queue.place <==> x in w.queue.place || x == job
    requires forall x :: x in w.queue.place && x != job ==> u.queue.place[x] == w.queue.place[x]
    ensures PlaceOf(u, other) == PlaceOf(w, other)
  {
  }

  // The job has got its queue job.
  lemma Arrived(w: World, u: World, id: string, job: Q.Job)
    requires Linked(w) && id in w.service.views && OneMoved(w.service, u.service, id)
    requires job.asyncJobId == id && job.groupId == "" && PlaceOf(w, id) == None
    requires u.tickets == w.tickets[id := job] && u.queue.stop == w.queue.stop
    requires forall other :: other in u.queue.place <==> other in w.queue.place || other == job
    requires u.queue.place[job] == Q.Pending
    requires forall other :: other in w.queue.place && other != job ==> u.queue.place[other] == w.queue.place[other]
    requires Agree(u.service.views[id].where, Some(Q.Pending))
    ensures Linked(u)
  {
    hide Agree;
    forall other | other in w.service.views && other != id ensures PlaceOf(u, other) == PlaceOf(w, other) {
      ElsewhereSame(w, u, id, job, other);
    }
    assert PlaceOf(u, id) == Some(Q.Pending);
    ArrivedTicketed(w, u, id, job);
    hide Ticketed, PlaceOf;
    forall other | other in u.service.views && other != id
      ensures Agree(u.service.views[other].where, PlaceOf(u, other))
    {
      assert Agree(w.service.views[other].where, PlaceOf(w, other));
    }
  }

  lemma SubmitKeepsLinked(c: Q.Config, w: World, id: string, job: Q.Job)
    requires WorldInv(c, w) && CanAct(c, w, Submits(id, job))
    ensures Linked(After(c, w, Submits(id, job)))
  {
    hide S.ServiceInv, S.Moved, S.CanMove, Q.Inv, Q.NoDup, Q.Placed, Q.Exclusive, RunsAtWork, Agree, Ticketed;
    var u := After(c, w, Submits(id, job));
    JobMoves(w.service, id, S.Submits(S.Enqueue));
    Present(w.service, id, S.Submits(S.Enqueue));
    assert w.service.phase.Open? && PlaceOf(w, id) == None by {
      RegisteredOpen(w.service, id);
      NotYet(w, id);
    }
    AtWork(0);
    assert job in [job];
    Arrived(w, u, id, job);
  }

  lemma NotYet(w: World, id: string)
    requires Linked(w) && id in w.service.views && w.service.views[id].where == S.Registered
    ensures PlaceOf(w, id) == None
  {
  }

  lemma RegisteredOpen(s: S.Service, id: string)
    requires S.ServiceInv(s) && id in s.views && s.views[id].where == S.Registered
    ensures s.phase.Open?
  {
    hide S.Inv;
  }

  // Whatever was pending is detached.
  predicate DetachedAll(before: map<Q.Job, Q.Place>, after: map<Q.Job, Q.Place>) {
    && after.Keys == before.Keys
    && forall job :: job in before ==> after[job] == if before[job] == Q.Pending then Q.Detached else before[job]
  }

  lemma CloseDetaches(q: Q.State)
    requires Q.Listed(q)
    ensures DetachedAll(q.place, Q.CloseStep(q).place)
  {
    hide Q.NoDup, Q.Placed;
  }

  lemma DetachAgrees(v: S.View, place: Option<Q.Place>)
    requires Agree(v.where, place)
    ensures Agree(S.Detach(v).where, if place == Some(Q.Pending) then Some(Q.Detached) else place)
  {
  }

  lemma CloseKeepsLinked(c: Q.Config, w: World)
    requires WorldInv(c, w) && CanAct(c, w, Closes)
    ensures Linked(After(c, w, Closes))
  {
    hide S.ServiceInv, Q.Counted, Q.Listed, Q.Manned, Q.Identified, Q.Exclusive, Q.Placed, RunsAtWork, Agree, Ticketed;
    hide S.Detach;
    var u := After(c, w, Closes);
    CloseDetaches(w.queue);
    StillTicketed(w, u);
    forall id | id in u.service.views ensures Agree(u.service.views[id].where, PlaceOf(u, id)) {
      LinkedAt(w, id);
      DetachAgrees(w.service.views[id], PlaceOf(w, id));
    }
  }

  lemma LeftAgrees(id: string, where: S.Where, place: Option<Q.Place>)
    requires Agree(where, place) && S.Placed(S.Stopped, id, where)
    ensures Agree(where, None)
  {
  }

  lemma RestartKeepsLinked(c: Q.Config, w: World)
    requires WorldInv(c, w) && CanAct(c, w, Restarts)
    ensures Linked(After(c, w, Restarts))
  {
    hide S.Inv, S.Placed, Q.Inv, Q.Exclusive, RunsAtWork, Agree;
    forall id | id in w.service.views ensures Agree(w.service.views[id].where, None) {
      assert S.Placed(w.service.phase, id, w.service.views[id].where);
      LinkedAt(w, id);
      LeftAgrees(id, w.service.views[id].where, PlaceOf(w, id));
    }
  }

  // ---------------------------------------------------------------------------
  // Every act keeps the invariant

  lemma Keyless(w: World)
    requires Ticketed(w)
    ensures Q.KeylessGroups(w.queue.place.Keys)
  {
  }

  lemma QueueKeeps(c: Q.Config, w: World, step: Q.Step)
    requires Q.Inv(c, w.queue) && Q.Exclusive(w.queue) && Ticketed(w)
    requires Q.Enabled(c, w.queue, step) && Q.Possible(c, w.queue, step)
    requires step.Submit? ==> forall job :: job in step.jobs ==> job.groupId == ""
    ensures Q.Inv(c, Q.Next(c, w.queue, step)) && Q.Exclusive(Q.Next(c, w.queue, step))
  {
    Keyless(w);
    hide Ticketed, Q.Conserved, Q.Counted, Q.Exclusive, Q.Enabled, Q.Possible, Q.Next;
    Q.StepKeepsInv(c, w.queue, step);
    Q.StepKeepsExclusion(c, w.queue, step);
  }

  lemma EmptyKeeps(c: Q.Config)
    ensures Q.Inv(c, Q.EMPTY) && Q.Exclusive(Q.EMPTY)
  {
    Q.RunKeepsInv(c, [Q.EMPTY], [], 0);
  }

  lemma ActKeepsQueue(c: Q.Config, w: World, a: Act)
    requires Q.Inv(c, w.queue) && Q.Exclusive(w.queue) && Ticketed(w) && CanAct(c, w, a)
    ensures Q.Inv(c, QueueAfter(c, w, a)) && Q.Exclusive(QueueAfter(c, w, a))
  {
    hide Q.Inv, Q.Exclusive, Ticketed, S.CanMove, Q.Choosable, Q.Pick, Q.SelectStep, Q.FinishStep, Q.SubmitStep;
    hide Q.CancelStep, Q.CloseStep, Q.AcknowledgeStep;
    match a
    case Alone(_) =>
    case Submits(_, job) => QueueKeeps(c, w, Q.Submit([job]));
    case Starts(_, worker, seen, env) => QueueKeeps(c, w, Q.Select(worker, seen, env));
    case Ends(_, worker) => QueueKeeps(c, w, Q.Step.Finish(worker));
    case Cancels(id, _) => QueueKeeps(c, w, Q.Step.Cancel(id));
    case Rejects(id, _) => QueueKeeps(c, w, Q.Step.Cancel(id));
    case Closes => QueueKeeps(c, w, Q.Step.Close);
    case Forgets(id) => QueueKeeps(c, w, Q.Step.Acknowledge(w.tickets[id].id));
    case Restarts => EmptyKeeps(c);
  }

  lemma PutBackRuns(v: S.View)
    requires RunsAtWork(v) && (v.where == S.Waiting || S.AtHand(v.where))
    ensures RunsAtWork(v.(where := S.Detached))
  {
  }

  lemma FreshRuns(hasTurn: bool)
    ensures RunsAtWork(S.Fresh(hasTurn))
  {
  }

  lemma MoveKeepsRuns(s: S.Service, m: S.Move, id: string)
    requires S.ServiceInv(s) && S.CanMove(s, m) && id in S.Moved(s, m).views
    requires forall other :: other in s.views ==> RunsAtWork(s.views[other])
    ensures RunsAtWork(S.Moved(s, m).views[id])
  {
    hide S.Inv, S.Placed, S.Next, S.Enabled, RunsAtWork;
    match m
    case Create(other, hasTurn) => FreshRuns(hasTurn);
    case OnJob(other, step) => if other == id { StepKeepsRuns(s.views[id], step); }
    case FinalizeRaises(other) => if other == id { PutBackRuns(s.views[id]); }
    case QueueCloses => if s.views[id].where == S.Waiting { PutBackRuns(s.views[id]); }
    case _ =>
  }

  lemma ActKeepsLinked(c: Q.Config, w: World, a: Act)
    requires WorldInv(c, w) && CanAct(c, w, a)
    ensures Linked(After(c, w, a))
  {
    hide WorldInv, CanAct, After, Linked;
    match a
    case Alone(move) => AloneKeepsLinked(c, w, move);
    case Submits(id, job) => SubmitKeepsLinked(c, w, id, job);
    case Starts(id, worker, seen, env) => StartKeepsLinked(c, w, id, worker, seen, env);
    case Ends(id, worker) => EndKeepsLinked(c, w, id, worker);
    case Cancels(id, k) => CancelKeepsLinked(c, w, id, k);
    case Rejects(id, k) => RejectKeepsLinked(c, w, id, k);
    case Closes => CloseKeepsLinked(c, w);
    case Forgets(id) => ForgetKeepsLinked(c, w, id);
    case Restarts => RestartKeepsLinked(c, w);
  }

  lemma CancelKeepsLinked(c: Q.Config, w: World, id: string, k: nat)
    requires WorldInv(c, w) && CanAct(c, w, Cancels(id, k))
    ensures Linked(After(c, w, Cancels(id, k)))
  {
    hide S.ServiceInv, S.Moved, S.CanMove, Q.Conserved, Q.Counted, Q.Exclusive, Q.CancelStep, Linked, RunsAtWork;
    TakeKeepsLinked(c, w, id, S.Cancels(k, S.Unqueue));
  }

  lemma RejectKeepsLinked(c: Q.Config, w: World, id: string, k: nat)
    requires WorldInv(c, w) && CanAct(c, w, Rejects(id, k))
    ensures Linked(After(c, w, Rejects(id, k)))
  {
    hide S.ServiceInv, S.Moved, S.CanMove, Q.Conserved, Q.Counted, Q.Exclusive, Q.CancelStep, Linked, RunsAtWork;
    TakeKeepsLinked(c, w, id, S.Rejects(k, S.Take));
  }

  /** Every act of the two together keeps both their invariants, keeps them in agreement about where every job
      is, and keeps same-key jobs apart. */
  lemma ActKeepsInv(c: Q.Config, w: World, a: Act)
    requires WorldInv(c, w) && CanAct(c, w, a)
    ensures WorldInv(c, After(c, w, a))
  {
    hide S.ServiceInv, S.Moved, S.CanMove, Q.Inv, Q.Exclusive, QueueAfter, Agree, RunsAtWork;
    ActKeepsQueue(c, w, a);
    S.MoveKeepsServiceInv(w.service, MoveOf(a));
    ActKeepsLinked(c, w, a);
    forall id | id in After(c, w, a).service.views ensures RunsAtWork(After(c, w, a).service.views[id]) {
      MoveKeepsRuns(w.service, MoveOf(a), id);
    }
  }

  // ---------------------------------------------------------------------------
  // Whole runs

  const BEGINNING: World := World(Q.EMPTY, S.STARTED, map[])

  ghost predicate IsRun(c: Q.Config, worlds: seq<World>, acts: seq<Act>) {
    && |worlds| == |acts| + 1 && worlds[0] == BEGINNING
    && forall i :: 0 <= i < |acts| ==> CanAct(c, worlds[i], acts[i]) && worlds[i + 1] == After(c, worlds[i], acts[i])
  }

  lemma {:induction false} RunKeepsWorldInv(c: Q.Config, worlds: seq<World>, acts: seq<Act>, k: nat)
    requires IsRun(c, worlds, acts) && k < |worlds|
    ensures WorldInv(c, worlds[k])
  {
    hide WorldInv, CanAct, After;
    if k == 0 {
      assert WorldInv(c, BEGINNING) by { BeginningInv(c); }
    } else {
      RunKeepsWorldInv(c, worlds, acts, k - 1);
      assert CanAct(c, worlds[k - 1], acts[k - 1]) && worlds[k] == After(c, worlds[k - 1], acts[k - 1]);
      ActKeepsInv(c, worlds[k - 1], acts[k - 1]);
    }
  }

  lemma BeginningInv(c: Q.Config)
    ensures WorldInv(c, BEGINNING)
  {
    EmptyKeeps(c);
    S.EmptyInv();
    hide Q.Inv, Q.Exclusive;
  }

  // The durable row says that the job is running, and no write has been lost on it.
  predicate IsRunning(w: World, id: string) {
    id in w.service.views && w.service.views[id].job.row.status.Running? && !w.service.views[id].lost
  }

  predicate SameKey(w: World, x: string, y: string) {
    x in w.tickets && y in w.tickets && w.tickets[x].orderingKey == w.tickets[y].orderingKey != ""
  }

  lemma RunningExecutes(c: Q.Config, w: World, id: string) returns (worker: Q.Worker)
    requires WorldInv(c, w) && IsRunning(w, id)
    ensures id in w.tickets && worker in w.queue.running && w.queue.running[worker] == w.tickets[id]
    ensures w.tickets[id].asyncJobId == id
  {
    hide S.ServiceInv, Q.Listed, Q.Identified, Q.Counted, Q.Exclusive, Agree;
    assert w.service.views[id].where.Working?;
    LinkedAt(w, id);
    assert PlaceOf(w, id).Some? && PlaceOf(w, id).value.Executing? by {
      WorkingPlace(w.service.views[id].where, PlaceOf(w, id));
    }
    worker := w.queue.place[w.tickets[id]].worker;
  }

  lemma WorkingPlace(where: S.Where, place: Option<Q.Place>)
    requires where.Working? && Agree(where, place)
    ensures place.Some? && place.value.Executing?
  {
  }

  /** In every run of scheduler and service together at most one job per ordering key is durably running. */
  lemma OneRunsPerKey(c: Q.Config, worlds: seq<World>, acts: seq<Act>, k: nat, x: string, y: string)
    requires IsRun(c, worlds, acts) && k < |worlds|
    requires IsRunning(worlds[k], x) && IsRunning(worlds[k], y) && SameKey(worlds[k], x, y)
    ensures x == y
  {
    hide IsRun, S.ServiceInv, Q.Inv, Linked, RunsAtWork;
    RunKeepsWorldInv(c, worlds, acts, k);
    var v := RunningExecutes(c, worlds[k], x);
    var w := RunningExecutes(c, worlds[k], y);
    assert v == w;
  }

  // Not yet with a worker, or still with one
  predicate InLine(where: S.Where) {
    where == S.Unsubmitted || where == S.Registered || where == S.Waiting || where.Working?
  }

  lemma LeftLine(w: World, id: string)
    requires Linked(w) && id in w.tickets && w.tickets[id] in w.queue.place && !Q.InQueue(w.queue, w.tickets[id])
    ensures id in w.service.views && !InLine(w.service.views[id].where)
  {
    LinkedAt(w, id);
  }

  lemma StaysOut(s: S.Service, m: S.Move, id: string)
    requires S.ServiceInv(s) && S.CanMove(s, m) && id in s.views && !InLine(s.views[id].where)
    ensures id in S.Moved(s, m).views && !InLine(S.Moved(s, m).views[id].where)
  {
    hide S.Inv, S.Placed, S.Next, S.Enabled;
    if m.OnJob? { JobMoves(s, m.id, m.step); }
  }

  lemma {:induction false} OutForGood(c: Q.Config, worlds: seq<World>, acts: seq<Act>, i: nat, k: nat, id: string)
    requires IsRun(c, worlds, acts) && i <= k < |worlds|
    requires id in worlds[i].service.views && !InLine(worlds[i].service.views[id].where)
    ensures id in worlds[k].service.views && !InLine(worlds[k].service.views[id].where)
    decreases k
  {
    hide Q.Inv, Q.Exclusive, Linked, RunsAtWork, InLine, S.ServiceInv, S.CanMove, S.Moved, QueueAfter;
    if i < k {
      OutForGood(c, worlds, acts, i, k - 1, id);
      RunKeepsWorldInv(c, worlds, acts, k - 1);
      assert CanAct(c, worlds[k - 1], acts[k - 1]) && worlds[k] == After(c, worlds[k - 1], acts[k - 1]);
      StaysOut(worlds[k - 1].service, MoveOf(acts[k - 1]), id);
    }
  }

  // The act starts a keyed job although `x`, of the same key and lane, arrived before it and was admitted.
  ghost predicate Overtakes(c: Q.Config, w: World, a: Act, x: string) {
    && a.Starts? && CanAct(c, w, a) && x in w.tickets && w.tickets[x] in w.queue.place
    && Q.StartsAhead(c, w.queue, Q.Select(a.worker, a.seen, a.env), w.tickets[x],
                     Q.Pick(c, w.queue, c.workers[a.worker], a.env).job)
  }

  // A worker takes the job, or its begin transaction runs.
  predicate TakesUp(a: Act, x: string) {
    || (a.Starts? && a.id == x)
    || (a.Alone? && a.move.OnJob? && a.move.id == x && a.move.step.Works? && a.move.step.work.Begin?)
  }

  lemma OvertakenIsOut(c: Q.Config, w: World, a: Act, x: string)
    requires WorldInv(c, w) && Overtakes(c, w, a, x)
    ensures x in w.service.views && !InLine(w.service.views[x].where)
  {
    hide Q.StartsAhead, Q.Pick, Q.Counted, Q.Exclusive, Agree, RunsAtWork, S.ServiceInv, InLine;
    Keyless(w);
    Q.StartedAlone(c, w.queue, Q.Select(a.worker, a.seen, a.env), w.tickets[x],
                   Q.Pick(c, w.queue, c.workers[a.worker], a.env).job);
    LeftLine(w, x);
  }

  lemma OutIsNotTaken(c: Q.Config, w: World, a: Act, x: string)
    requires CanAct(c, w, a) && x in w.service.views && !InLine(w.service.views[x].where)
    ensures !TakesUp(a, x)
  {
    hide Q.Enabled, Q.Pick;
  }

  /** And same-key jobs begin in the order of arrival: once a worker takes a keyed job, a job of the same key and
      lane that arrived before it and was admitted then is never taken or begun any more. */
  lemma BeginsInOrder(c: Q.Config, worlds: seq<World>, acts: seq<Act>, i: nat, k: nat, x: string)
    requires IsRun(c, worlds, acts) && i <= k < |acts| && Overtakes(c, worlds[i], acts[i], x)
    ensures !TakesUp(acts[k], x)
  {
    hide WorldInv, CanAct, After, Overtakes, InLine, TakesUp;
    RunKeepsWorldInv(c, worlds, acts, i);
    OvertakenIsOut(c, worlds[i], acts[i], x);
    OutForGood(c, worlds, acts, i, k, x);
    assert CanAct(c, worlds[k], acts[k]);
    OutIsNotTaken(c, worlds[k], acts[k], x);
  }

  // ---------------------------------------------------------------------------
  // Neither holds up the other

  /** Whatever a worker of the queue picks is a service job that waits for it. */
  lemma PickIsTaken(c: Q.Config, w: World, worker: Q.Worker, seen: Q.Env, env: Q.Env, job: Q.Job)
    requires WorldInv(c, w) && Q.Enabled(c, w.queue, Q.Select(worker, seen, env))
    requires job == Q.Pick(c, w.queue, c.workers[worker], env).job
    ensures CanAct(c, w, Starts(job.asyncJobId, worker, seen, env))
  {
    hide S.ServiceInv, Q.Pick, Q.Choosable, Q.Eligible, Q.Inv, Q.Exclusive, Linked, RunsAtWork;
    assert job in w.queue.pending by { Q.PickIsPending(c, w.queue, c.workers[worker], env); }
    PickedWaits(c, w, job);
  }

  /** A worker that has finished with a service job executes it in the queue. */
  lemma FinishedIsExecuting(c: Q.Config, w: World, id: string) returns (worker: Q.Worker)
    requires WorldInv(c, w) && S.CanMove(w.service, S.OnJob(id, S.Works(S.WorkStep.Finish)))
    ensures CanAct(c, w, Ends(id, worker))
  {
    hide S.ServiceInv, Q.Listed, Q.Identified, Q.Counted, Q.Exclusive, Agree, RunsAtWork;
    LinkedAt(w, id);
    WorkingPlace(w.service.views[id].where, PlaceOf(w, id));
    worker := w.queue.place[w.tickets[id]].worker;
  }

  /** Shutdown finds the queue job of what it forgets among the detached ones. */
  lemma ForgottenIsDetached(c: Q.Config, w: World, id: string)
    requires WorldInv(c, w) && S.CanMove(w.service, S.OnJob(id, S.Finalizes(S.Forget)))
    ensures id in w.tickets && w.tickets[id] in w.queue.stopped
    ensures CanAct(c, w, Forgets(id))
  {
    hide S.ServiceInv, Q.Manned, Q.Identified, Q.Counted, Q.Exclusive, Linked, RunsAtWork;
    DetachedThere(w, id);
  }

  lemma PickedWaits(c: Q.Config, w: World, job: Q.Job)
    requires Linked(w) && Q.Inv(c, w.queue) && job in w.queue.pending
    ensures job.asyncJobId in w.service.views && w.service.views[job.asyncJobId].where == S.Waiting
  {
    hide Q.NoDup, Q.Counted, Q.Manned, Q.Identified;
    LinkedAt(w, job.asyncJobId);
  }
}
