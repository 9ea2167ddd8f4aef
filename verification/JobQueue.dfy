/**
 The in-process job scheduler: a pending list shared by one pool of worker threads per lane.

 Each block the source runs under its condition variable is one step. `State` is the queue's data
 together with what every worker thread is executing; `place` records where each job ever accepted is.
 The admission check, the resource-serialising switch and the clock are inputs (`Env`), read once each
 time the eligible jobs are listed.
 */
module JobQueue {
  import opened Common

  datatype Lane = Interactive | Media | OtherLane(name: string)

  datatype JobType = Chat | Text | MemoryExtraction | TaskModel | Image | Video | OtherType(name: string)

  datatype LatencyClass = InteractiveClass | StandardClass | BulkClass | OtherClass(name: string)

  datatype Job = Job(
    id: nat, jobType: JobType, latency: LatencyClass, arrival: real, modelKey: string, groupId: string, groupIndex: nat,
    queueLane: Option<Lane>, orderingKey: string, coordinated: bool, asyncJobId: string)

  type Worker = nat

  datatype Config = Config(maxWait: map<LatencyClass, real>, standardWait: real, workers: map<Worker, Lane>)

  datatype Env = Env(admitted: set<Job>, serialized: bool, now: real)

  datatype Place = Pending | Executing(worker: Worker) | Finished | Cancelled | Detached | Acknowledged

  datatype State = State(
    pending: seq<Job>, currentModel: map<Lane, string>, activeByLane: map<Lane, int>,
    activeKeys: set<string>, stopped: seq<Job>, stop: bool,
    running: map<Worker, Job>, place: map<Job, Place>)

  function LaneOf(job: Job): Lane {
    if job.queueLane.Some? then job.queueLane.value
    else match job.jobType
      case Chat | Text | MemoryExtraction | TaskModel => Interactive
      case Image | Video => Media
      case OtherType(_) => if job.latency == InteractiveClass then Interactive else Media
  }

  function Priority(latency: LatencyClass): int {
    match latency
    case InteractiveClass => 0
    case StandardClass => 1
    case BulkClass => 2
    case OtherClass(_) => 1
  }

  function WaitLimit(c: Config, latency: LatencyClass): real {
    if latency in c.maxWait then c.maxWait[latency] else c.standardWait
  }

  predicate Overdue(c: Config, now: real, job: Job) {
    now - job.arrival >= WaitLimit(c, job.latency)
  }

  // ---------------------------------------------------------------------------
  // Lists

  function Members<T>(s: seq<T>): set<T> {
    set x | x in s
  }

  predicate NoDup<T(==)>(s: seq<T>) {
    forall i, j :: 0 <= i < j < |s| ==> s[i] != s[j]
  }

  // list.remove
  function Remove<T(==)>(s: seq<T>, x: T): seq<T> {
    if s == [] then [] else if s[0] == x then s[1..] else [s[0]] + Remove(s[1..], x)
  }

  lemma {:induction false} RemoveMembers<T>(s: seq<T>, x: T)
    requires NoDup(s)
    ensures NoDup(Remove(s, x))
    ensures forall y :: y in Remove(s, x) <==> y in s && y != x
  {
    if s != [] {
      RemoveMembers(s[1..], x);
      assert forall y :: y in s <==> y == s[0] || y in s[1..];
      var r := Remove(s[1..], x);
      assert s[0] !in s[1..];
      assert forall y :: y in [s[0]] + r <==> y == s[0] || y in r;
    }
  }

  lemma {:induction false} FilterNoDup<T(!new)>(s: seq<T>, p: T -> bool)
    requires NoDup(s)
    ensures NoDup(Filter(s, p))
  {
    if s != [] {
      var init, last := s[..|s| - 1], s[|s| - 1];
      assert NoDup(init) && last !in init;
      FilterNoDup(init, p);
      if p(last) {
        assert Filter(s, p) == Filter(init, p) + [last];
        NoDupConcat(Filter(init, p), [last]);
      } else {
        assert Filter(s, p) == Filter(init, p);
      }
    }
  }

  lemma {:induction false} FilterFirst<T(!new)>(s: seq<T>, p: T -> bool, i: nat)
    requires i <= |s| && forall k :: 0 <= k < i ==> !p(s[k])
    ensures i == |s| ==> Filter(s, p) == []
    ensures i < |s| && p(s[i]) ==> Filter(s, p) != [] && Filter(s, p)[0] == s[i]
  {
    if s != [] {
      if i < |s| - 1 {
        FilterFirst(s[..|s| - 1], p, i);
      } else {
        FilterFirst(s[..|s| - 1], p, |s| - 1);
      }
    }
  }

  lemma NoDupConcat<T>(a: seq<T>, b: seq<T>)
    requires NoDup(a) && NoDup(b) && forall x :: x in a ==> x !in b
    ensures NoDup(a + b)
    ensures forall x :: x in a + b <==> x in a || x in b
  {
    forall i, j | 0 <= i < j < |a + b| ensures (a + b)[i] != (a + b)[j] {
      if i < |a| <= j {
        assert (a + b)[i] in a && (a + b)[j] in b;
      }
    }
  }

  predicate SortedByArrival(s: seq<Job>) {
    forall i, j :: 0 <= i < j < |s| ==> s[i].arrival <= s[j].arrival
  }

  function Insert(s: seq<Job>, job: Job): (r: seq<Job>)
    ensures |r| == |s| + 1
  {
    if s == [] || s[|s| - 1].arrival <= job.arrival then s + [job]
    else Insert(s[..|s| - 1], job) + [s[|s| - 1]]
  }

  // sorted(jobs, key=arrival_time): stable
  function SortByArrival(s: seq<Job>): seq<Job> {
    if s == [] then [] else Insert(SortByArrival(s[..|s| - 1]), s[|s| - 1])
  }

  lemma {:induction false} InsertSorted(s: seq<Job>, job: Job)
    requires SortedByArrival(s)
    ensures SortedByArrival(Insert(s, job))
    ensures forall x :: x in Insert(s, job) <==> x in s || x == job
  {
    if !(s == [] || s[|s| - 1].arrival <= job.arrival) {
      var init, last := s[..|s| - 1], s[|s| - 1];
      assert forall x :: x in s <==> x in init || x == last;
      InsertSorted(init, job);
      assert forall i :: 0 <= i < |init| + 1 ==> Insert(init, job)[i] in Insert(init, job);
    }
  }

  lemma {:induction false} SortSorted(s: seq<Job>)
    ensures SortedByArrival(SortByArrival(s))
    ensures forall x :: x in SortByArrival(s) <==> x in s
  {
    if s != [] {
      SortSorted(s[..|s| - 1]);
      InsertSorted(SortByArrival(s[..|s| - 1]), s[|s| - 1]);
      assert forall x :: x in s <==> x in s[..|s| - 1] || x == s[|s| - 1];
    }
  }

  // ---------------------------------------------------------------------------
  // Eligibility

  function LanePending(pending: seq<Job>, lane: Lane): seq<Job> {
    Filter(pending, (job: Job) => LaneOf(job) == lane)
  }

  // The i-th lane job in arrival order may start: it is admitted, and if it carries an ordering key then
  // no executing job holds the key and no admitted job before it in the lane has the key.
  predicate MayStart(sorted: seq<Job>, i: nat, activeKeys: set<string>, admitted: set<Job>)
    requires i < |sorted|
  {
    && sorted[i] in admitted
    && (sorted[i].orderingKey != "" ==>
          && sorted[i].orderingKey !in activeKeys
          && forall k :: 0 <= k < i && sorted[k] in admitted ==> sorted[k].orderingKey != sorted[i].orderingKey)
  }

  function Startable(sorted: seq<Job>, n: nat, activeKeys: set<string>, admitted: set<Job>): (r: seq<Job>)
    requires n <= |sorted|
  {
    if n == 0 then []
    else
      var before := Startable(sorted, n - 1, activeKeys, admitted);
      if MayStart(sorted, n - 1, activeKeys, admitted) then before + [sorted[n - 1]] else before
  }

  predicate HeldForInteractive(pending: seq<Job>, lane: Lane, e: Env) {
    lane == Media && e.serialized && exists job :: job in pending && LaneOf(job) == Interactive && job.coordinated
  }

  function Eligible(s: State, lane: Lane, e: Env): seq<Job> {
    if HeldForInteractive(s.pending, lane, e) then []
    else
      var sorted := SortByArrival(LanePending(s.pending, lane));
      Startable(sorted, |sorted|, s.activeKeys, e.admitted)
  }

  lemma {:induction false} StartableMembers(sorted: seq<Job>, n: nat, keys: set<string>, admitted: set<Job>)
    requires n <= |sorted| && SortedByArrival(sorted)
    ensures var r := Startable(sorted, n, keys, admitted);
            && SortedByArrival(r)
            && forall x :: x in r <==> exists i :: 0 <= i < n && sorted[i] == x && MayStart(sorted, i, keys, admitted)
  {
    if n > 0 {
      StartableMembers(sorted, n - 1, keys, admitted);
      var before := Startable(sorted, n - 1, keys, admitted);
      forall i | 0 <= i < |before| ensures before[i].arrival <= sorted[n - 1].arrival {
        assert before[i] in before;
      }
    }
  }

  /** The eligible jobs of a lane, in arrival order, described without the scan that finds them. */
  lemma EligibleJobs(s: State, lane: Lane, e: Env)
    ensures var r := Eligible(s, lane, e);
            && SortedByArrival(r)
            && (forall x :: x in r ==> x in s.pending && LaneOf(x) == lane && x in e.admitted)
            && (forall x :: x in r && x.orderingKey != "" ==> x.orderingKey !in s.activeKeys)
            && (forall x, y | x in r && x.orderingKey != "" && y in s.pending ::
                  LaneOf(y) == lane && y in e.admitted && y.orderingKey == x.orderingKey ==> x.arrival <= y.arrival)
  {
    if !HeldForInteractive(s.pending, lane, e) {
      var r := Eligible(s, lane, e);
      var sorted := SortByArrival(LanePending(s.pending, lane));
      SortSorted(LanePending(s.pending, lane));
      hide SortByArrival, Startable;
      StartableMembers(sorted, |sorted|, s.activeKeys, e.admitted);
      forall x | x in r
        ensures x in s.pending && LaneOf(x) == lane && x in e.admitted
        ensures x.orderingKey != "" ==> x.orderingKey !in s.activeKeys
      {
        var i :| 0 <= i < |sorted| && sorted[i] == x && MayStart(sorted, i, s.activeKeys, e.admitted);
        assert x in sorted;
      }
      forall x, y | x in r && x.orderingKey != "" && y in s.pending && LaneOf(y) == lane && y in e.admitted &&
                    y.orderingKey == x.orderingKey
        ensures x.arrival <= y.arrival
      {
        var i :| 0 <= i < |sorted| && sorted[i] == x && MayStart(sorted, i, s.activeKeys, e.admitted);
        assert y in sorted;
        var k :| 0 <= k < |sorted| && sorted[k] == y;
      }
    }
  }

  // Conversely, an admitted job starts its way unless its key is taken or claimed by an earlier admitted job.
  lemma EligibleIf(s: State, lane: Lane, e: Env, x: Job)
    requires !HeldForInteractive(s.pending, lane, e)
    requires x in s.pending && LaneOf(x) == lane && x in e.admitted
    requires x.orderingKey != "" ==>
               && x.orderingKey !in s.activeKeys
               && forall y | y in s.pending && LaneOf(y) == lane && y in e.admitted && y != x ::
                    y.orderingKey == x.orderingKey ==> x.arrival < y.arrival
    requires NoDup(s.pending)
    ensures x in Eligible(s, lane, e)
  {
    var sorted := SortByArrival(LanePending(s.pending, lane));
    SortSorted(LanePending(s.pending, lane));
    hide SortByArrival, Startable;
    StartableMembers(sorted, |sorted|, s.activeKeys, e.admitted);
    assert x in sorted;
    var i := FirstIndex(sorted, x);
    forall k | 0 <= k < i && sorted[k] in e.admitted && x.orderingKey != ""
      ensures sorted[k].orderingKey != x.orderingKey
    {
      assert sorted[k] in sorted;
    }
    assert MayStart(sorted, i, s.activeKeys, e.admitted);
  }

  lemma {:induction false} FirstIndex(s: seq<Job>, x: Job) returns (i: nat)
    requires x in s
    ensures i < |s| && s[i] == x && forall k :: 0 <= k < i ==> s[k] != x
  {
    if s[0] == x {
      i := 0;
    } else {
      i := FirstIndex(s[1..], x);
      i := i + 1;
    }
  }

  // ---------------------------------------------------------------------------
  // Choice

  function Key(job: Job, byPriority: bool): (int, real) {
    (if byPriority then Priority(job.latency) else 0, job.arrival)
  }

  predicate Less(a: (int, real), b: (int, real)) {
    a.0 < b.0 || (a.0 == b.0 && a.1 < b.1)
  }

  // min(jobs, key=...): the first of the smallest
  function FirstMin(jobs: seq<Job>, byPriority: bool): (r: Job)
    requires jobs != []
    ensures r in jobs
    ensures forall x :: x in jobs ==> !Less(Key(x, byPriority), Key(r, byPriority))
  {
    if |jobs| == 1 then jobs[0]
    else
      var init, last := jobs[..|jobs| - 1], jobs[|jobs| - 1];
      var best := FirstMin(init, byPriority);
      assert forall x :: x in jobs ==> x in init || x == last;
      if Less(Key(last, byPriority), Key(best, byPriority)) then last else best
  }

  predicate TextAndImage(pending: seq<Job>, group: string) {
    && group != ""
    && (exists job :: job in pending && job.groupId == group && job.jobType == Text)
    && (exists job :: job in pending && job.groupId == group && job.jobType == Image)
  }

  // The first group, in order of first appearance, that holds both a text and an image job
  function NextGroup(pending: seq<Job>, n: nat := |pending|): (r: Option<string>)
    requires n <= |pending|
    ensures r.Some? ==> TextAndImage(pending, r.value)
  {
    if n == 0 then None
    else
      var before := NextGroup(pending, n - 1);
      if before.Some? then before
      else if TextAndImage(pending, pending[n - 1].groupId) then Some(pending[n - 1].groupId)
      else None
  }

  function GroupMembers(pending: seq<Job>, group: string): seq<Job> {
    Filter(pending, (job: Job) => job.groupId == group)
  }

  function GroupJobs(pending: seq<Job>, group: string): seq<Job> {
    SortByArrival(GroupMembers(pending, group))
  }

  // The image job of that group which arrived first
  function GroupImage(pending: seq<Job>, lane: Lane): (r: Option<Job>)
    ensures r.Some? ==> r.value in pending && r.value.groupId != "" && r.value.jobType == Image && lane == Media
  {
    if lane != Media then None
    else match NextGroup(pending)
      case None => None
      case Some(group) =>
        SortSorted(GroupMembers(pending, group));
        var images := Filter(GroupJobs(pending, group), (job: Job) => job.jobType == Image);
        if images == [] then None else assert images[0] in images; Some(images[0])
  }

  datatype Reason = WaitedTooLong | FirstOfGroup | SameModel | BestPriority

  datatype Choice = Choice(job: Job, reason: Reason)

  function Affine(eligible: seq<Job>, model: string): seq<Job> {
    Filter(eligible, (job: Job) => job.modelKey != "" && job.modelKey == model)
  }

  // A worker that finds neither raises, and its thread ends.
  predicate Choosable(s: State, lane: Lane, e: Env) {
    Eligible(s, lane, e) != [] || GroupImage(s.pending, lane).Some?
  }

  function Pick(c: Config, s: State, lane: Lane, e: Env): Choice
    requires Choosable(s, lane, e)
  {
    var eligible := Eligible(s, lane, e);
    var overdue := Filter(eligible, (job: Job) => Overdue(c, e.now, job));
    var model := if lane in s.currentModel then s.currentModel[lane] else "";
    if overdue != [] then Choice(FirstMin(overdue, false), WaitedTooLong)
    else if GroupImage(s.pending, lane).Some? then Choice(GroupImage(s.pending, lane).value, FirstOfGroup)
    else if |eligible| > 1 && model != "" && Affine(eligible, model) != [] then
      Choice(Affine(eligible, model)[0], SameModel)
    else Choice(FirstMin(eligible, true), BestPriority)
  }

  // ---------------------------------------------------------------------------
  // Steps

  datatype Step =
    | Submit(jobs: seq<Job>)
    | Select(worker: Worker, seen: Env, env: Env)
    | Finish(worker: Worker)
    | Cancel(asyncJobId: string)
    | Close
    | Acknowledge(id: nat)

  // When a step can happen. Job ids are random, hence new. A worker that saw eligible work lists it once
  // more when it picks, and admission may have changed in between.
  ghost predicate Enabled(c: Config, s: State, step: Step) {
    match step
    case Submit(jobs) =>
      && (forall i, j :: 0 <= i < j < |jobs| ==> jobs[i].id != jobs[j].id)
      && forall job, old' :: job in jobs && old' in s.place ==> job.id != old'.id
    case Select(w, seen, e) =>
      && w in c.workers && w !in s.running && !s.stop
      && Eligible(s, c.workers[w], seen) != [] && Choosable(s, c.workers[w], e)
    case Finish(w) => w in s.running
    case _ => true
  }

  function Bump(counts: map<Lane, int>, lane: Lane): map<Lane, int> {
    counts[lane := (if lane in counts then counts[lane] else 0) + 1]
  }

  function Drop(counts: map<Lane, int>, lane: Lane): map<Lane, int> {
    var n := (if lane in counts then counts[lane] else 1) - 1;
    counts[lane := if n > 0 then n else 0]
  }

  function Placed(place: map<Job, Place>, jobs: seq<Job>, to: Place): (r: map<Job, Place>)
    ensures forall job :: job in r <==> job in place || job in jobs
    ensures forall job :: job in r ==> r[job] == if job in jobs then to else place[job]
  {
    place + map job | job in jobs :: to
  }

  function SubmitStep(s: State, jobs: seq<Job>): State {
    if s.stop then s else s.(pending := s.pending + jobs, place := Placed(s.place, jobs, Pending))
  }

  function SelectStep(c: Config, s: State, w: Worker, e: Env): State
    requires w in c.workers && Choosable(s, c.workers[w], e)
  {
    Start(c, s, w, Pick(c, s, c.workers[w], e))
  }

  function Start(c: Config, s: State, w: Worker, pick: Choice): State
    requires w in c.workers
  {
    var lane := c.workers[w];
    s.(pending := Remove(s.pending, pick.job),
       currentModel := if pick.reason == FirstOfGroup || pick.reason == BestPriority
                       then s.currentModel[lane := pick.job.modelKey] else s.currentModel,
       activeByLane := Bump(s.activeByLane, lane),
       activeKeys := if pick.job.orderingKey != "" then s.activeKeys + {pick.job.orderingKey} else s.activeKeys,
       running := s.running[w := pick.job],
       place := s.place[pick.job := Executing(w)])
  }

  function FinishStep(c: Config, s: State, w: Worker): State
    requires w in c.workers && w in s.running
  {
    var job := s.running[w];
    s.(activeByLane := Drop(s.activeByLane, c.workers[w]),
       activeKeys := if job.orderingKey != "" then s.activeKeys - {job.orderingKey} else s.activeKeys,
       running := s.running - {w},
       place := s.place[job := Finished])
  }

  // The first pending job that belongs to the given durable job
  function Matching(pending: seq<Job>, asyncJobId: string): seq<Job> {
    Filter(pending, (job: Job) => job.asyncJobId == asyncJobId)
  }

  function CancelStep(s: State, asyncJobId: string): State {
    var found := Matching(s.pending, asyncJobId);
    if found == [] then s
    else s.(pending := Remove(s.pending, found[0]), place := s.place[found[0] := Cancelled])
  }

  function CloseStep(s: State): State {
    s.(stop := true, pending := [], stopped := s.stopped + s.pending,
       place := Placed(s.place, s.pending, Detached))
  }

  function AcknowledgeStep(s: State, id: nat): State {
    s.(stopped := Filter(s.stopped, (job: Job) => job.id != id),
       place := Placed(s.place, Filter(s.stopped, (job: Job) => job.id == id), Acknowledged))
  }

  function Next(c: Config, s: State, step: Step): State
    requires match step
             case Select(w, _, e) => w in c.workers && Choosable(s, c.workers[w], e)
             case Finish(w) => w in c.workers && w in s.running
             case _ => true
  {
    match step
    case Submit(jobs) => SubmitStep(s, jobs)
    case Select(w, _, e) => SelectStep(c, s, w, e)
    case Finish(w) => FinishStep(c, s, w)
    case Cancel(a) => CancelStep(s, a)
    case Close => CloseStep(s)
    case Acknowledge(id) => AcknowledgeStep(s, id)
  }

  // ---------------------------------------------------------------------------
  // What every step keeps

  function Working(c: Config, s: State, lane: Lane): set<Worker> {
    set w | w in s.running && w in c.workers && c.workers[w] == lane
  }

  function WorkersOf(c: Config, lane: Lane): set<Worker> {
    set w | w in c.workers && c.workers[w] == lane
  }

  function ActiveIn(s: State, lane: Lane): int {
    if lane in s.activeByLane then s.activeByLane[lane] else 0
  }

  ghost predicate Listed(s: State) {
    && NoDup(s.pending) && NoDup(s.stopped)
    && (forall job :: job in s.pending <==> job in s.place && s.place[job] == Pending)
    && (forall job :: job in s.stopped <==> job in s.place && s.place[job] == Detached)
    && (s.stop ==> s.pending == [])
  }

  ghost predicate Manned(c: Config, s: State) {
    && (forall w :: w in s.running ==>
          w in c.workers && s.running[w] in s.place && s.place[s.running[w]] == Executing(w))
    && (forall job :: job in s.place && s.place[job].Executing? ==>
          s.place[job].worker in s.running && s.running[s.place[job].worker] == job)
  }

  ghost predicate Identified(s: State) {
    forall a, b :: a in s.place && b in s.place && a.id == b.id ==> a == b
  }

  // Every accepted job is in exactly the place recorded for it, and nowhere else.
  ghost predicate Conserved(c: Config, s: State) {
    Listed(s) && Manned(c, s) && Identified(s)
  }

  ghost predicate Counted(c: Config, s: State) {
    forall lane :: ActiveIn(s, lane) == |Working(c, s, lane)|
  }

  ghost predicate Inv(c: Config, s: State) {
    Conserved(c, s) && Counted(c, s)
  }

  // At most one executing job per ordering key, and the active keys are exactly theirs.
  ghost predicate Exclusive(s: State) {
    && (forall v, w | v in s.running && w in s.running && s.running[v].orderingKey != "" ::
          s.running[v].orderingKey == s.running[w].orderingKey ==> v == w)
    && (forall key :: key in s.activeKeys <==>
          key != "" && exists w :: w in s.running && s.running[w].orderingKey == key)
  }

  const EMPTY: State := State([], map[], map[], {}, [], false, map[], map[])

  lemma PickIsPending(c: Config, s: State, lane: Lane, e: Env)
    requires Choosable(s, lane, e)
    ensures var p := Pick(c, s, lane, e);
            && p.job in s.pending
            && (p.reason != FirstOfGroup ==> p.job in Eligible(s, lane, e))
            && (p.reason == FirstOfGroup ==> GroupImage(s.pending, lane) == Some(p.job))
  {
    EligibleJobs(s, lane, e);
    hide Eligible, NextGroup, SortByArrival;
    var eligible := Eligible(s, lane, e);
    var model := if lane in s.currentModel then s.currentModel[lane] else "";
    if Affine(eligible, model) != [] { assert Affine(eligible, model)[0] in Affine(eligible, model); }
  }

  lemma StartConserves(c: Config, s: State, w: Worker, pick: Choice)
    requires Conserved(c, s) && !s.stop && w in c.workers && w !in s.running && pick.job in s.pending
    ensures Conserved(c, Start(c, s, w, pick))
  {
    hide Listed, Manned;
    StartLists(c, s, w, pick);
    StartMans(c, s, w, pick);
  }

  lemma StartLists(c: Config, s: State, w: Worker, pick: Choice)
    requires Listed(s) && !s.stop && w in c.workers && pick.job in s.pending
    ensures Listed(Start(c, s, w, pick)) && pick.job in s.place && s.place[pick.job] == Pending
  {
    RemoveMembers(s.pending, pick.job);
    hide Remove, NoDup;
  }

  lemma StartMans(c: Config, s: State, w: Worker, pick: Choice)
    requires Manned(c, s) && w in c.workers && w !in s.running && pick.job in s.place && s.place[pick.job] == Pending
    ensures Manned(c, Start(c, s, w, pick))
  {
    hide Remove;
  }

  lemma SubmitConserves(c: Config, s: State, jobs: seq<Job>)
    requires Conserved(c, s) && Enabled(c, s, Submit(jobs))
    ensures Conserved(c, SubmitStep(s, jobs))
  {
    hide Placed, Listed, Manned;
    assert forall job :: job in jobs ==> job !in s.place;
    SubmitLists(s, jobs);
    SubmitMans(c, s, jobs);
  }

  lemma SubmitLists(s: State, jobs: seq<Job>)
    requires Listed(s) && NoDup(jobs) && forall job :: job in jobs ==> job !in s.place
    ensures Listed(SubmitStep(s, jobs))
  {
    hide Placed;
    NoDupConcat(s.pending, jobs);
    hide NoDup;
  }

  lemma SubmitMans(c: Config, s: State, jobs: seq<Job>)
    requires Manned(c, s) && forall job :: job in jobs ==> job !in s.place
    ensures Manned(c, SubmitStep(s, jobs))
  {
    hide Placed;
  }

  lemma CancelConserves(c: Config, s: State, asyncJobId: string)
    requires Conserved(c, s)
    ensures Conserved(c, CancelStep(s, asyncJobId))
  {
    hide Remove, Listed, Manned;
    var found := Matching(s.pending, asyncJobId);
    if found != [] {
      assert found[0] in found;
      TakeLists(s, found[0]);
      TakeMans(c, s, found[0]);
    }
  }

  lemma TakeLists(s: State, job: Job)
    requires Listed(s) && job in s.pending
    ensures Listed(s.(pending := Remove(s.pending, job), place := s.place[job := Cancelled]))
    ensures job in s.place && s.place[job] == Pending
  {
    RemoveMembers(s.pending, job);
    hide Remove, NoDup;
  }

  lemma TakeMans(c: Config, s: State, job: Job)
    requires Manned(c, s) && job in s.place && s.place[job] == Pending
    ensures Manned(c, s.(pending := Remove(s.pending, job), place := s.place[job := Cancelled]))
  {
    hide Remove;
  }

  lemma CloseConserves(c: Config, s: State)
    requires Conserved(c, s)
    ensures Conserved(c, CloseStep(s))
  {
    NoDupConcat(s.stopped, s.pending);
  }

  lemma AcknowledgeConserves(c: Config, s: State, id: nat)
    requires Conserved(c, s)
    ensures Conserved(c, AcknowledgeStep(s, id))
  {
    var kept := Filter(s.stopped, (job: Job) => job.id != id);
    var gone := Filter(s.stopped, (job: Job) => job.id == id);
    FilterNoDup(s.stopped, (job: Job) => job.id != id);
    assert forall job :: job in s.stopped <==> job in kept || job in gone;
    assert forall job :: job in gone ==> job !in kept;
    ReleaseConserves(c, s, kept, gone);
  }

  lemma ReleaseConserves(c: Config, s: State, kept: seq<Job>, gone: seq<Job>)
    requires Conserved(c, s) && NoDup(kept)
    requires forall job :: job in s.stopped <==> job in kept || job in gone
    requires forall job :: job in gone ==> job !in kept
    ensures Conserved(c, s.(stopped := kept, place := Placed(s.place, gone, Acknowledged)))
  {
    hide Placed, NoDup;
    assert forall job :: job in gone ==> s.place[job] == Detached;
  }

  lemma FinishConserves(c: Config, s: State, w: Worker)
    requires Conserved(c, s) && w in s.running
    ensures Conserved(c, FinishStep(c, s, w))
  {
  }

  // The worker counts

  // One more worker runs a job, and it is not a new worker.
  lemma OneMoreWorking(c: Config, s: State, after: State, w: Worker, lane: Lane)
    requires w in c.workers && w !in s.running && forall x :: x in after.running <==> x in s.running || x == w
    ensures |Working(c, after, lane)| == |Working(c, s, lane)| + if lane == c.workers[w] then 1 else 0
  {
    var before, now := Working(c, s, lane), Working(c, after, lane);
    if lane == c.workers[w] {
      assert forall x :: x in now <==> x in before || x == w;
      hide Working;
      assert now == before + {w};
    } else {
      assert forall x :: x in now <==> x in before;
      hide Working;
      assert now == before;
    }
  }

  lemma StartCounts(c: Config, s: State, w: Worker, pick: Choice)
    requires Counted(c, s) && w in c.workers && w !in s.running
    ensures Counted(c, Start(c, s, w, pick))
  {
    hide Remove, Working;
    var after := Start(c, s, w, pick);
    forall lane ensures ActiveIn(after, lane) == |Working(c, after, lane)| {
      OneMoreWorking(c, s, after, w, lane);
    }
  }

  /** The decrement when a worker finishes is never clamped: the count it lowers is at least one. */
  lemma FinishCounts(c: Config, s: State, w: Worker)
    requires Counted(c, s) && w in s.running && w in c.workers
    ensures Counted(c, FinishStep(c, s, w))
    ensures ActiveIn(FinishStep(c, s, w), c.workers[w]) == ActiveIn(s, c.workers[w]) - 1
  {
    var after := FinishStep(c, s, w);
    assert w in Working(c, s, c.workers[w]);
    forall lane
      ensures |Working(c, after, lane)| == |Working(c, s, lane)| - if lane == c.workers[w] then 1 else 0
    {
      if lane == c.workers[w] {
        assert Working(c, s, lane) == Working(c, after, lane) + {w};
      } else {
        assert Working(c, after, lane) == Working(c, s, lane);
      }
    }
  }

  lemma WithinWorkers(c: Config, s: State, lane: Lane)
    requires Counted(c, s)
    ensures 0 <= ActiveIn(s, lane) <= |WorkersOf(c, lane)|
  {
    SubsetSize(Working(c, s, lane), WorkersOf(c, lane));
  }

  lemma {:induction false} SubsetSize<T>(a: set<T>, b: set<T>)
    requires a <= b
    ensures |a| <= |b|
  {
    if a != {} {
      var x :| x in a;
      SubsetSize(a - {x}, b - {x});
    }
  }

  // Mutual exclusion

  lemma StartKeepsExclusionIff(c: Config, s: State, w: Worker, pick: Choice)
    requires Exclusive(s) && w in c.workers && w !in s.running
    ensures Exclusive(Start(c, s, w, pick)) <==> pick.job.orderingKey !in s.activeKeys
  {
    hide Remove;
    var after := Start(c, s, w, pick);
    var key := pick.job.orderingKey;
    if key in s.activeKeys {
      var v :| v in s.running && s.running[v].orderingKey == key;
      assert after.running[v].orderingKey == after.running[w].orderingKey;
    } else {
      forall k | k in s.activeKeys ensures exists v :: v in after.running && after.running[v].orderingKey == k {
        var v :| v in s.running && s.running[v].orderingKey == k;
        assert v in after.running && after.running[v] == s.running[v];
      }
      assert w in after.running && after.running[w].orderingKey == key;
      assert forall v :: v in after.running && v != w ==> v in s.running && after.running[v] == s.running[v];
    }
  }

  // No eligible job is overdue, so the image of a group goes first, and that image's key is held.
  predicate StartsHeldImage(c: Config, s: State, lane: Lane, e: Env) {
    && (forall job :: job in Eligible(s, lane, e) ==> !Overdue(c, e.now, job))
    && GroupImage(s.pending, lane).Some?
    && GroupImage(s.pending, lane).value.orderingKey in s.activeKeys
  }

  lemma PickIfGroup(c: Config, s: State, lane: Lane, e: Env)
    requires Choosable(s, lane, e)
    ensures Pick(c, s, lane, e).reason == FirstOfGroup <==>
              GroupImage(s.pending, lane).Some? && forall job :: job in Eligible(s, lane, e) ==> !Overdue(c, e.now, job)
  {
    hide Eligible, GroupImage, Affine, Overdue;
    var overdue := Filter(Eligible(s, lane, e), (job: Job) => Overdue(c, e.now, job));
    assert overdue != [] ==> overdue[0] in overdue;
  }

  /** A selection keeps same-key jobs apart exactly when it does not start a group's image whose key is held:
      no eligible job is overdue, a group has an image, and some executing job has the image's key. */
  lemma SelectKeepsExclusionIff(c: Config, s: State, w: Worker, seen: Env, e: Env)
    requires Exclusive(s) && Enabled(c, s, Select(w, seen, e))
    ensures Exclusive(SelectStep(c, s, w, e)) <==> !StartsHeldImage(c, s, c.workers[w], e)
  {
    hide Pick, Eligible, GroupImage, Start, Overdue, Choosable;
    PickIsPending(c, s, c.workers[w], e);
    PickIfGroup(c, s, c.workers[w], e);
    EligibleJobs(s, c.workers[w], e);
    StartKeepsExclusionIff(c, s, w, Pick(c, s, c.workers[w], e));
  }

  lemma FinishKeepsExclusion(c: Config, s: State, w: Worker)
    requires Exclusive(s) && w in s.running && w in c.workers
    ensures Exclusive(FinishStep(c, s, w))
  {
    var after := FinishStep(c, s, w);
    assert forall v :: v in after.running <==> v in s.running && v != w;
    forall key | key in after.activeKeys
      ensures exists v :: v in after.running && after.running[v].orderingKey == key
    {
      var v :| v in s.running && s.running[v].orderingKey == key;
      assert v in after.running;
    }
  }

  // ---------------------------------------------------------------------------
  // Whole runs

  ghost predicate Run(c: Config, states: seq<State>, steps: seq<Step>) {
    && |states| == |steps| + 1
    && forall i :: 0 <= i < |steps| ==>
          Enabled(c, states[i], steps[i]) && Possible(c, states[i], steps[i]) &&
          states[i + 1] == Next(c, states[i], steps[i])
  }

  // A step names a worker thread that exists.
  predicate Possible(c: Config, s: State, step: Step) {
    match step
    case Select(w, _, e) => w in c.workers && Choosable(s, c.workers[w], e)
    case Finish(w) => w in c.workers && w in s.running
    case _ => true
  }

  lemma StepKeepsInv(c: Config, s: State, step: Step)
    requires Inv(c, s) && Enabled(c, s, step) && Possible(c, s, step)
    ensures Inv(c, Next(c, s, step))
  {
    hide Pick, Choosable, Eligible, Start, FinishStep, Conserved;
    match step
    case Submit(jobs) => SubmitConserves(c, s, jobs); SameWorkers(c, s, SubmitStep(s, jobs));
    case Select(w, _, e) =>
      PickIsPending(c, s, c.workers[w], e);
      StartConserves(c, s, w, Pick(c, s, c.workers[w], e));
      StartCounts(c, s, w, Pick(c, s, c.workers[w], e));
    case Finish(w) => FinishConserves(c, s, w); FinishCounts(c, s, w);
    case Cancel(a) => CancelConserves(c, s, a); SameWorkers(c, s, CancelStep(s, a));
    case Close => CloseConserves(c, s); SameWorkers(c, s, CloseStep(s));
    case Acknowledge(id) => AcknowledgeConserves(c, s, id); SameWorkers(c, s, AcknowledgeStep(s, id));
  }

  lemma SameWorkers(c: Config, s: State, t: State)
    requires Counted(c, s) && s.running == t.running && s.activeByLane == t.activeByLane
    ensures Counted(c, t)
  {
    forall lane ensures ActiveIn(t, lane) == |Working(c, t, lane)| {
      assert Working(c, t, lane) == Working(c, s, lane);
    }
  }

  /** Conservation and the worker counts hold in every state of every run. */
  lemma {:induction false} RunKeepsInv(c: Config, states: seq<State>, steps: seq<Step>, k: nat)
    requires Run(c, states, steps) && states[0] == EMPTY && k < |states|
    ensures Inv(c, states[k])
  {
    if k == 0 {
      forall lane ensures Working(c, EMPTY, lane) == {} {}
    } else {
      RunKeepsInv(c, states, steps, k - 1);
      StepKeepsInv(c, states[k - 1], steps[k - 1]);
    }
  }

  // Grouped jobs carry no ordering key, which is how the service submits every job.
  ghost predicate KeylessGroups(jobs: set<Job>) {
    forall job :: job in jobs && job.groupId != "" ==> job.orderingKey == ""
  }

  lemma PendingStepKeepsExclusion(c: Config, s: State, step: Step)
    requires Conserved(c, s) && Exclusive(s) && KeylessGroups(s.place.Keys)
    requires Enabled(c, s, step) && !step.Select? && !step.Finish?
    requires step.Submit? ==> KeylessGroups(Members(step.jobs))
    ensures Exclusive(Next(c, s, step)) && KeylessGroups(Next(c, s, step).place.Keys)
  {
    hide Filter, NoDup, Placed, Remove;
    SameRunning(s, Next(c, s, step));
    hide Exclusive;
    match step
    case Submit(jobs) =>
    case Cancel(a) =>
      var found := Matching(s.pending, a);
      if found != [] { assert found[0] in found; }
    case Close =>
    case Acknowledge(id) =>
  }

  lemma SameRunning(s: State, t: State)
    requires Exclusive(s) && t.running == s.running && t.activeKeys == s.activeKeys
    ensures Exclusive(t)
  {
  }

  lemma StepKeepsExclusion(c: Config, s: State, step: Step)
    requires Conserved(c, s) && Exclusive(s) && KeylessGroups(s.place.Keys)
    requires Enabled(c, s, step) && Possible(c, s, step)
    requires step.Submit? ==> KeylessGroups(Members(step.jobs))
    ensures Exclusive(Next(c, s, step)) && KeylessGroups(Next(c, s, step).place.Keys)
  {
    match step
    case Select(w, seen, e) =>
      SelectKeepsExclusionIff(c, s, w, seen, e);
      PickIsPending(c, s, c.workers[w], e);
      hide Pick, Choosable, Eligible, Start, GroupImage, Exclusive, KeylessGroups;
      StartPlaces(c, s, w, Pick(c, s, c.workers[w], e));
    case Finish(w) =>
      FinishKeepsExclusion(c, s, w);
      FinishPlaces(c, s, w);
      hide FinishStep, Exclusive, KeylessGroups;
    case _ =>
      PendingStepKeepsExclusion(c, s, step);
      hide Exclusive, KeylessGroups, Next;
  }

  lemma StartPlaces(c: Config, s: State, w: Worker, pick: Choice)
    requires w in c.workers && pick.job in s.place
    ensures Start(c, s, w, pick).place.Keys == s.place.Keys
  {
  }

  lemma FinishPlaces(c: Config, s: State, w: Worker)
    requires w in c.workers && w in s.running && s.running[w] in s.place
    ensures FinishStep(c, s, w).place.Keys == s.place.Keys
  {
  }

  /** In every run whose grouped jobs are keyless, at most one job per ordering key executes at a time. */
  lemma {:induction false} RunKeepsExclusion(c: Config, states: seq<State>, steps: seq<Step>, k: nat)
    requires Run(c, states, steps) && states[0] == EMPTY && k < |states|
    requires forall i :: 0 <= i < |steps| && steps[i].Submit? ==> KeylessGroups(Members(steps[i].jobs))
    ensures Exclusive(states[k]) && KeylessGroups(states[k].place.Keys)
  {
    if k > 0 {
      RunKeepsInv(c, states, steps, k - 1);
      RunKeepsExclusion(c, states, steps, k - 1);
      StepKeepsExclusion(c, states[k - 1], steps[k - 1]);
    }
  }

  /** In every state of every run the count of a lane is within its workers. */
  lemma RunWithinWorkers(c: Config, states: seq<State>, steps: seq<Step>, k: nat, lane: Lane)
    requires Run(c, states, steps) && states[0] == EMPTY && k < |states|
    ensures 0 <= ActiveIn(states[k], lane) <= |WorkersOf(c, lane)|
  {
    RunKeepsInv(c, states, steps, k);
    WithinWorkers(c, states[k], lane);
  }

  // ---------------------------------------------------------------------------
  // Where a job goes

  // A pending job may go anywhere; an executing one can only finish, a detached one only be acknowledged; and
  // a job that finished, was cancelled or was acknowledged stays so.
  predicate PlaceMoves(from: Place, to: Place) {
    match from
    case Pending => true
    case Executing(_) => to == from || to == Finished
    case Detached => to == from || to == Acknowledged
    case _ => to == from
  }

  lemma StepMovesPlace(c: Config, s: State, step: Step, job: Job)
    requires Conserved(c, s) && Enabled(c, s, step) && Possible(c, s, step) && job in s.place
    ensures job in Next(c, s, step).place && PlaceMoves(s.place[job], Next(c, s, step).place[job])
  {
    hide Pick, Choosable, Eligible, Remove, NoDup, Placed, Identified;
    match step
    case Submit(jobs) =>
    case Select(w, _, e) =>
      PickIsPending(c, s, c.workers[w], e);
      assert s.place[Pick(c, s, c.workers[w], e).job] == Pending;
    case Finish(w) =>
    case Cancel(a) =>
      var found := Matching(s.pending, a);
      if found != [] { assert found[0] in found; }
    case Close =>
    case Acknowledge(id) =>
  }

  /** No job is ever forgotten: along every run a job that was accepted stays on record, and its place only moves
      on, so that finished, cancelled and acknowledged are final. */
  lemma {:induction false} PlaceIsFinal(c: Config, states: seq<State>, steps: seq<Step>, i: nat, k: nat, job: Job)
    requires Run(c, states, steps) && states[0] == EMPTY && i <= k < |states| && job in states[i].place
    ensures job in states[k].place && PlaceMoves(states[i].place[job], states[k].place[job])
    decreases k
  {
    hide Conserved, Counted, Enabled, Possible, Next;
    if i < k {
      PlaceIsFinal(c, states, steps, i, k - 1, job);
      RunKeepsInv(c, states, steps, k - 1);
      StepMovesPlace(c, states[k - 1], steps[k - 1], job);
    }
  }

  predicate InQueue(s: State, job: Job) {
    job in s.place && (s.place[job] == Pending || s.place[job].Executing?)
  }

  // The selection starts `b` although `a`, of the same key and lane, arrived before it and was admitted.
  ghost predicate StartsAhead(c: Config, s: State, step: Step, a: Job, b: Job) {
    && step.Select? && Enabled(c, s, step) && Pick(c, s, c.workers[step.worker], step.env).job == b
    && a.orderingKey == b.orderingKey != "" && LaneOf(a) == c.workers[step.worker]
    && a.arrival < b.arrival && a in step.env.admitted
  }

  lemma StartedAlone(c: Config, s: State, step: Step, a: Job, b: Job)
    requires Conserved(c, s) && Exclusive(s) && KeylessGroups(s.place.Keys) && StartsAhead(c, s, step, a, b)
    ensures !InQueue(s, a)
  {
    hide NoDup, Identified, Pick, Choosable, Eligible;
    var lane := c.workers[step.worker];
    PickIsPending(c, s, lane, step.env);
    EligibleJobs(s, lane, step.env);
    assert a in s.place && s.place[a].Executing? ==> a.orderingKey in s.activeKeys;
  }

  /** Jobs of one key start in the order of arrival: in every run whose grouped jobs are keyless, when a keyed job
      starts, every accepted job of its key and lane that arrived before it and was admitted then has left
      the queue already, and never comes back to it. */
  lemma StartedInOrder(c: Config, states: seq<State>, steps: seq<Step>, i: nat, k: nat, a: Job, b: Job)
    requires Run(c, states, steps) && states[0] == EMPTY && i < |steps| && i <= k < |states|
    requires forall j :: 0 <= j < |steps| && steps[j].Submit? ==> KeylessGroups(Members(steps[j].jobs))
    requires StartsAhead(c, states[i], steps[i], a, b) && a in states[i].place
    ensures !InQueue(states[k], a)
  {
    hide StartsAhead, Counted, Exclusive, KeylessGroups, Conserved;
    RunKeepsInv(c, states, steps, i);
    RunKeepsExclusion(c, states, steps, i);
    StartedAlone(c, states[i], steps[i], a, b);
    PlaceIsFinal(c, states, steps, i, k, a);
  }

  lemma OnlyGroupIsPicked(c: Config, s: State, e: Env, text: Job, image: Job)
    requires forall x :: x in s.pending ==> !Overdue(c, e.now, x)
    requires text in s.pending && text.jobType == Text && image in s.pending && image.jobType == Image
    requires text.groupId == image.groupId != ""
    requires forall x :: x in s.pending && x.groupId != "" ==> x == text || x == image
    ensures Choosable(s, Media, e) && Pick(c, s, Media, e) == Choice(image, FirstOfGroup)
  {
    EligibleJobs(s, Media, e);
    hide Eligible, SortByArrival, TextAndImage;
    var overdue := Filter(Eligible(s, Media, e), (job: Job) => Overdue(c, e.now, job));
    assert overdue == [] || overdue[0] in overdue;
    var group := image.groupId;
    GroupFound(s.pending, text, image);
    SortSorted(GroupMembers(s.pending, group));
    var images := Filter(GroupJobs(s.pending, group), (job: Job) => job.jobType == Image);
    assert image in images;
    assert images[0] in images;
  }

  lemma GroupFound(pending: seq<Job>, text: Job, image: Job)
    requires text in pending && text.jobType == Text && image in pending && image.jobType == Image
    requires text.groupId == image.groupId != ""
    requires forall x :: x in pending && x.groupId != "" ==> x == text || x == image
    ensures NextGroup(pending) == Some(image.groupId)
  {
    hide TextAndImage;
    assert forall k :: 0 <= k < |pending| && TextAndImage(pending, pending[k].groupId) ==>
        pending[k].groupId == image.groupId by { BothAre(pending, text, image); }
    var i :| 0 <= i < |pending| && pending[i] == text;
    BothAre(pending, text, image);
    NextGroupFrom(pending, |pending|, i, image.groupId);
  }

  lemma BothAre(pending: seq<Job>, text: Job, image: Job)
    requires text in pending && text.jobType == Text && image in pending && image.jobType == Image
    requires text.groupId == image.groupId != ""
    requires forall x :: x in pending && x.groupId != "" ==> x == text || x == image
    ensures TextAndImage(pending, image.groupId)
    ensures forall group :: TextAndImage(pending, group) ==> group == image.groupId
  {
  }

  lemma {:induction false} NextGroupFrom(pending: seq<Job>, n: nat, i: nat, group: string)
    requires i < n <= |pending| && pending[i].groupId == group && TextAndImage(pending, group)
    requires forall k :: 0 <= k < |pending| && TextAndImage(pending, pending[k].groupId) ==> pending[k].groupId == group
    ensures NextGroup(pending, n) == Some(group)
  {
    hide TextAndImage;
    if i < n - 1 {
      NextGroupFrom(pending, n - 1, i, group);
    } else {
      NextGroupOnly(pending, n - 1, group);
    }
  }

  lemma {:induction false} NextGroupOnly(pending: seq<Job>, n: nat, group: string)
    requires n <= |pending|
    requires forall k :: 0 <= k < |pending| && TextAndImage(pending, pending[k].groupId) ==> pending[k].groupId == group
    ensures NextGroup(pending, n) == None || NextGroup(pending, n) == Some(group)
  {
    if n > 0 {
      NextGroupOnly(pending, n - 1, group);
    }
  }

  // A keyed job executes while a text-and-image group waits whose image has the same key.
  const HELD: Job := Job(0, Image, StandardClass, 0.0, "", "", 0, None, "k", false, "")
  const GROUP_TEXT: Job := Job(1, Text, StandardClass, 1.0, "", "g", 0, None, "", false, "")
  const GROUP_IMAGE: Job := Job(2, Image, StandardClass, 1.0, "", "g", 1, None, "k", false, "")
  const PLAIN_IMAGE: Job := Job(3, Image, StandardClass, 1.0, "", "", 0, None, "", false, "")
  const TWO_MEDIA_WORKERS: Config := Config(map[], 5.0, map[0 := Media, 1 := Media])

  function JobHeld(held: Job): State {
    State([], map[Media := held.modelKey], map[Media := 1], {"k"}, [], false, map[0 := held],
          map[held := Executing(0)])
  }

  function KeyedGroup(held: Job, text: Job, image: Job, other: Job): State {
    SubmitStep(JobHeld(held), [text, image, other])
  }

  lemma OnlyJobStarts(c: Config, s: State, e: Env, held: Job)
    requires s == EMPTY.(pending := [held], place := map[held := Pending])
    requires c.workers == map[0 := Media, 1 := Media] && held in e.admitted && !e.serialized
    requires LaneOf(held) == Media && held.orderingKey == "k" && held.groupId == "" && !Overdue(c, e.now, held)
    ensures Enabled(c, s, Select(0, e, e)) && Possible(c, s, Select(0, e, e))
    ensures SelectStep(c, s, 0, e) == JobHeld(held)
  {
    hide Eligible, Start, GroupImage, Pick, Overdue;
    EligibleIf(s, Media, e, held);
    EligibleJobs(s, Media, e);
    PickIsPending(c, s, Media, e);
    assert GroupImage(s.pending, Media) == None by { NoGroup(held); }
    OnlyPick(c, s, e, held);
    StartOnly(c, s, held);
  }

  lemma NoGroup(held: Job)
    requires held.groupId == ""
    ensures GroupImage([held], Media) == None
  {
    assert NextGroup([held], 0) == None;
  }

  lemma OnlyPick(c: Config, s: State, e: Env, held: Job)
    requires s.pending == [held] && s.currentModel == map[] && Choosable(s, Media, e)
    requires GroupImage(s.pending, Media) == None && !Overdue(c, e.now, held)
    ensures Pick(c, s, Media, e) == Choice(held, BestPriority)
  {
    hide Eligible, GroupImage, Overdue;
    EligibleJobs(s, Media, e);
    var eligible := Eligible(s, Media, e);
    forall k | 0 <= k < |eligible| ensures eligible[k] == held {
      assert eligible[k] in eligible;
    }
    FilterFirst(eligible, (job: Job) => Overdue(c, e.now, job), |eligible|);
  }

  lemma StartOnly(c: Config, s: State, held: Job)
    requires s == EMPTY.(pending := [held], place := map[held := Pending])
    requires c.workers == map[0 := Media, 1 := Media] && held.orderingKey == "k"
    ensures Start(c, s, 0, Choice(held, BestPriority)) == JobHeld(held)
  {
    assert Remove([held], held) == [];
  }

  lemma HeldIsExclusive(held: Job, text: Job, image: Job, other: Job)
    requires held.orderingKey == "k"
    ensures Exclusive(KeyedGroup(held, text, image, other))
  {
    assert JobHeld(held).running[0].orderingKey == "k";
  }

  lemma KeyedGroupStarts(c: Config, s: State, e: Env, text: Job, image: Job, other: Job)
    requires c.workers == map[0 := Media, 1 := Media] && 1 !in s.running && !s.stop && Exclusive(s)
    requires s.pending == [text, image, other] && NoDup(s.pending) && other in e.admitted && !e.serialized
    requires forall x :: x in s.pending ==> !Overdue(c, e.now, x)
    requires LaneOf(other) == Media && other.orderingKey == "" && other.groupId == ""
    requires text.jobType == Text && image.jobType == Image && text.groupId == image.groupId != ""
    requires image.orderingKey in s.activeKeys
    ensures Enabled(c, s, Select(1, e, e)) && Possible(c, s, Select(1, e, e)) && Choosable(s, c.workers[1], e)
    ensures !Exclusive(SelectStep(c, s, 1, e))
  {
    hide Eligible, Pick, GroupImage, Start, Overdue;
    assert forall x :: x in s.pending <==> x == text || x == image || x == other;
    assert s.pending[0] == text && s.pending[1] == image && s.pending[2] == other;
    EligibleIf(s, Media, e, other);
    EligibleJobs(s, Media, e);
    OnlyGroupIsPicked(c, s, e, text, image);
    PickIsPending(c, s, Media, e);
    SelectKeepsExclusionIff(c, s, 1, e, e);
  }

  lemma KeyedGroupRuns(c: Config, e: Env, held: Job, text: Job, image: Job, other: Job)
    returns (states: seq<State>, steps: seq<Step>)
    requires c.workers == map[0 := Media, 1 := Media] && held in e.admitted && other in e.admitted && !e.serialized
    requires LaneOf(held) == Media && held.orderingKey == "k" && held.groupId == "" && !Overdue(c, e.now, held)
    requires LaneOf(other) == Media && other.orderingKey == "" && other.groupId == ""
    requires text.jobType == Text && image.jobType == Image && text.groupId == image.groupId != ""
    requires image.orderingKey == "k" && held.id == 0 && text.id == 1 && image.id == 2 && other.id == 3
    requires !Overdue(c, e.now, text) && !Overdue(c, e.now, image) && !Overdue(c, e.now, other)
    ensures |steps| == 4 && |states| == 5 && Run(c, states, steps) && states[0] == EMPTY
    ensures Exclusive(states[3]) && !Exclusive(states[4])
  {
    hide Run, JobHeld, KeyedGroup, SubmitStep, LaneOf, Choosable, Eligible, SelectStep, Exclusive, Enabled, Possible;
    hide Overdue, NoDup;
    var s1, s2, s3 := SubmitStep(EMPTY, [held]), JobHeld(held), KeyedGroup(held, text, image, other);
    var group := [text, image, other];
    FirstFits(c, held);
    GroupFits(c, held, text, image, other);
    OnlyJobStarts(c, s1, e, held);
    HeldIsExclusive(held, text, image, other);
    KeyedGroupStarts(c, s3, e, text, image, other);
    steps := [Submit([held]), Select(0, e, e), Submit(group), Select(1, e, e)];
    states := [EMPTY, s1, s2, s3, SelectStep(c, s3, 1, e)];
    FourSteps(c, EMPTY, s1, s2, s3, Submit([held]), Select(0, e, e), Submit(group), Select(1, e, e));
  }

  lemma FirstFits(c: Config, held: Job)
    ensures Enabled(c, EMPTY, Submit([held])) && Possible(c, EMPTY, Submit([held]))
    ensures Next(c, EMPTY, Submit([held])) == SubmitStep(EMPTY, [held])
    ensures SubmitStep(EMPTY, [held]) == EMPTY.(pending := [held], place := map[held := Pending])
  {
    assert SubmitStep(EMPTY, [held]).place == map[held := Pending];
  }

  lemma GroupFits(c: Config, held: Job, text: Job, image: Job, other: Job)
    requires held.id == 0 && text.id == 1 && image.id == 2 && other.id == 3
    ensures Enabled(c, JobHeld(held), Submit([text, image, other]))
    ensures Possible(c, JobHeld(held), Submit([text, image, other]))
    ensures NoDup([text, image, other])
    ensures var s := KeyedGroup(held, text, image, other);
            && s == Next(c, JobHeld(held), Submit([text, image, other]))
            && s.pending == [text, image, other] && !s.stop && 1 !in s.running && s.activeKeys == {"k"}
  {
    hide Placed;
  }

  // A run of four steps, put together
  lemma FourSteps(c: Config, s0: State, s1: State, s2: State, s3: State, a: Step, b: Step, d: Step, f: Step)
    requires Enabled(c, s0, a) && Possible(c, s0, a) && s1 == Next(c, s0, a)
    requires Enabled(c, s1, b) && Possible(c, s1, b) && s2 == Next(c, s1, b)
    requires Enabled(c, s2, d) && Possible(c, s2, d) && s3 == Next(c, s2, d)
    requires Enabled(c, s3, f) && Possible(c, s3, f)
    ensures Run(c, [s0, s1, s2, s3, Next(c, s3, f)], [a, b, d, f])
  {
    hide Enabled, Possible, Next;
  }

  /** With a keyed grouped image the rule breaks in a run of four steps: a keyed job is submitted and started,
      a group is submitted whose image has the same key, and the image starts. */
  lemma KeyedGroupBreaksExclusion() returns (states: seq<State>, steps: seq<Step>)
    ensures Run(TWO_MEDIA_WORKERS, states, steps) && states[0] == EMPTY && |steps| == 4
    ensures Inv(TWO_MEDIA_WORKERS, states[3]) && Exclusive(states[3]) && !Exclusive(states[4])
  {
    hide Run, Inv, Exclusive;
    var c, e := TWO_MEDIA_WORKERS, Env({HELD, PLAIN_IMAGE}, false, 1.0);
    assert c.workers == map[0 := Media, 1 := Media];
    assert LaneOf(HELD) == Media && LaneOf(PLAIN_IMAGE) == Media;
    assert !Overdue(c, e.now, HELD) && !Overdue(c, e.now, GROUP_TEXT);
    assert !Overdue(c, e.now, GROUP_IMAGE) && !Overdue(c, e.now, PLAIN_IMAGE);
    assert GROUP_TEXT.groupId == GROUP_IMAGE.groupId == "g";
    states, steps := KeyedGroupRuns(TWO_MEDIA_WORKERS, e, HELD, GROUP_TEXT, GROUP_IMAGE, PLAIN_IMAGE);
    RunKeepsInv(TWO_MEDIA_WORKERS, states, steps, 3);
  }

  /** Same-key work starts in arrival order: no admitted job of the key waits in the lane from earlier. */
  lemma KeyedJobsStartInOrder(c: Config, s: State, lane: Lane, e: Env, other: Job)
    requires Choosable(s, lane, e) && Pick(c, s, lane, e).reason != FirstOfGroup
    requires other in s.pending && LaneOf(other) == lane && other in e.admitted
    requires other.orderingKey == Pick(c, s, lane, e).job.orderingKey != ""
    ensures Pick(c, s, lane, e).job.arrival <= other.arrival
  {
    PickIsPending(c, s, lane, e);
    EligibleJobs(s, lane, e);
  }

  // ---------------------------------------------------------------------------
  // Which job is chosen

  // An eligible job that has waited at least as long as its class may
  predicate WaitedOut(c: Config, e: Env, job: Job) {
    e.now - job.arrival >= if job.latency in c.maxWait then c.maxWait[job.latency] else c.standardWait
  }

  predicate OfLoadedModel(s: State, lane: Lane, job: Job) {
    lane in s.currentModel && s.currentModel[lane] != "" && job.modelKey == s.currentModel[lane]
  }

  /** When each of the four choices is made: an overdue job whenever an eligible one has waited out its limit;
      otherwise the image of a group whenever there is one; otherwise a job of the loaded model whenever more
      than one job is eligible and one of them is of that model; otherwise the best by priority. */
  lemma ReasonIff(c: Config, s: State, lane: Lane, e: Env)
    requires Choosable(s, lane, e)
    ensures var reason, eligible := Pick(c, s, lane, e).reason, Eligible(s, lane, e);
            var overdue := exists job :: job in eligible && WaitedOut(c, e, job);
            var affine := |eligible| > 1 && exists job :: job in eligible && OfLoadedModel(s, lane, job);
            var grouped := GroupImage(s.pending, lane).Some?;
            && (reason == WaitedTooLong <==> overdue)
            && (reason == FirstOfGroup <==> !overdue && grouped)
            && (reason == SameModel <==> !overdue && !grouped && affine)
            && (reason == BestPriority <==> !overdue && !grouped && !affine)
  {
    hide Eligible, GroupImage, FirstMin;
    var eligible := Eligible(s, lane, e);
    var overdue := Filter(eligible, (job: Job) => Overdue(c, e.now, job));
    assert overdue != [] ==> overdue[0] in overdue;
    var model := if lane in s.currentModel then s.currentModel[lane] else "";
    var affine := Affine(eligible, model);
    assert affine != [] ==> affine[0] in affine;
  }

  /** The overdue job chosen is the one that arrived first of all overdue ones. */
  lemma OverdueChoice(c: Config, s: State, lane: Lane, e: Env, other: Job)
    requires Choosable(s, lane, e) && Pick(c, s, lane, e).reason == WaitedTooLong
    requires other in Eligible(s, lane, e) && WaitedOut(c, e, other)
    ensures var job := Pick(c, s, lane, e).job;
            job in Eligible(s, lane, e) && WaitedOut(c, e, job) && job.arrival <= other.arrival
  {
    hide Eligible, GroupImage;
    assert other in Filter(Eligible(s, lane, e), (job: Job) => Overdue(c, e.now, job));
  }

  // The classes that the scheduler does not tell apart: an unknown one counts as standard.
  predicate SameClass(a: LatencyClass, b: LatencyClass) {
    a == b || ((a.StandardClass? || a.OtherClass?) && (b.StandardClass? || b.OtherClass?))
  }

  /** The best by priority: an interactive job before all others, a bulk job only if nothing but bulk jobs is
      eligible, and within its class the one that arrived first. */
  lemma PriorityChoice(c: Config, s: State, lane: Lane, e: Env, other: Job)
    requires Choosable(s, lane, e) && Pick(c, s, lane, e).reason == BestPriority && other in Eligible(s, lane, e)
    ensures var job := Pick(c, s, lane, e).job;
            && job in Eligible(s, lane, e)
            && (other.latency == InteractiveClass ==> job.latency == InteractiveClass)
            && (job.latency == BulkClass ==> other.latency == BulkClass)
            && (SameClass(job.latency, other.latency) ==> job.arrival <= other.arrival)
  {
    hide Eligible, GroupImage, Affine;
  }

  /** The job of the loaded model is the one that arrived first of all eligible ones of that model. */
  lemma ModelChoice(c: Config, s: State, lane: Lane, e: Env, other: Job)
    requires Choosable(s, lane, e) && Pick(c, s, lane, e).reason == SameModel
    requires other in Eligible(s, lane, e) && OfLoadedModel(s, lane, other)
    ensures var job := Pick(c, s, lane, e).job;
            job in Eligible(s, lane, e) && OfLoadedModel(s, lane, job) && job.arrival <= other.arrival
  {
    hide Eligible, GroupImage, FirstMin, Filter;
    EligibleJobs(s, lane, e);
    var eligible, model := Eligible(s, lane, e), s.currentModel[lane];
    var i :| 0 <= i < |eligible| && eligible[i] == other;
    FirstAffineArrival(eligible, model, i);
  }

  lemma {:induction false} FirstAffineArrival(eligible: seq<Job>, model: string, i: nat)
    requires SortedByArrival(eligible) && i < |eligible| && model != "" && eligible[i].modelKey == model
    ensures var affine := Affine(eligible, model);
            && affine != [] && affine[0] in eligible && affine[0].modelKey == model
            && affine[0].arrival <= eligible[i].arrival
  {
    if i > 0 && exists k :: 0 <= k < i && eligible[k].modelKey == model {
      var k :| 0 <= k < i && eligible[k].modelKey == model;
      FirstAffineArrival(eligible, model, k);
    } else {
      FilterFirst(eligible, (job: Job) => job.modelKey != "" && job.modelKey == model, i);
    }
  }

  // The group of the job at `i` is complete, and no complete one has a job before.
  predicate FirstComplete(pending: seq<Job>, i: nat)
    requires i < |pending|
  {
    TextAndImage(pending, pending[i].groupId) &&
    forall k :: 0 <= k < i ==> !TextAndImage(pending, pending[k].groupId)
  }

  lemma {:induction false} NextGroupIs(pending: seq<Job>, n: nat)
    requires n <= |pending|
    ensures NextGroup(pending, n).None? <==> forall k :: 0 <= k < n ==> !TextAndImage(pending, pending[k].groupId)
    ensures NextGroup(pending, n).Some? ==>
              exists i :: 0 <= i < n && FirstComplete(pending, i) && pending[i].groupId == NextGroup(pending, n).value
  {
    hide TextAndImage;
    if n > 0 {
      NextGroupIs(pending, n - 1);
      if NextGroup(pending, n).Some? && NextGroup(pending, n - 1).None? {
        assert FirstComplete(pending, n - 1);
      }
    }
  }

  /** The group's image: the media lane takes one exactly if some group is complete; it is of the complete group
      whose first job was submitted first, and of its images the one that arrived first. */
  lemma GroupChoice(pending: seq<Job>, lane: Lane)
    ensures GroupImage(pending, lane).Some? <==>
              lane == Media && exists k :: 0 <= k < |pending| && TextAndImage(pending, pending[k].groupId)
    ensures GroupImage(pending, lane).Some? ==>
              var image := GroupImage(pending, lane).value;
              && image in pending && image.jobType == Image
              && (exists i :: 0 <= i < |pending| && FirstComplete(pending, i) && pending[i].groupId == image.groupId)
              && (forall other :: other in pending && other.jobType == Image && other.groupId == image.groupId ==>
                    image.arrival <= other.arrival)
  {
    hide SortByArrival, NextGroup, FirstComplete;
    NextGroupIs(pending, |pending|);
    if lane == Media && NextGroup(pending).Some? {
      GroupImages(pending, NextGroup(pending).value);
    }
  }

  lemma GroupImages(pending: seq<Job>, group: string)
    requires TextAndImage(pending, group)
    ensures var images := Filter(GroupJobs(pending, group), (job: Job) => job.jobType == Image);
            && images != [] && images[0] in pending && images[0].groupId == group
            && forall other :: other in pending && other.jobType == Image && other.groupId == group ==>
                 images[0].arrival <= other.arrival
  {
    hide SortByArrival;
    var sorted := GroupJobs(pending, group);
    SortSorted(GroupMembers(pending, group));
    var images := Filter(sorted, (job: Job) => job.jobType == Image);
    var image :| image in pending && image.groupId == group && image.jobType == Image;
    assert image in images;
    assert images[0] in images;
    forall other | other in pending && other.jobType == Image && other.groupId == group
      ensures images[0].arrival <= other.arrival
    {
      assert other in sorted;
      var k :| 0 <= k < |sorted| && sorted[k] == other;
      FirstImageArrival(sorted, k);
    }
  }

  lemma {:induction false} FirstImageArrival(sorted: seq<Job>, i: nat)
    requires SortedByArrival(sorted) && i < |sorted| && sorted[i].jobType == Image
    ensures var images := Filter(sorted, (job: Job) => job.jobType == Image);
            images != [] && images[0].arrival <= sorted[i].arrival
  {
    if i > 0 && exists k :: 0 <= k < i && sorted[k].jobType == Image {
      var k :| 0 <= k < i && sorted[k].jobType == Image;
      FirstImageArrival(sorted, k);
    } else {
      FilterFirst(sorted, (job: Job) => job.jobType == Image, i);
    }
  }

  // Work that is routed by its type alone
  predicate Routed(job: Job, types: set<JobType>) {
    job.queueLane == None && job.jobType in types
  }

  /** While resources are serialised and coordinated chat or text work waits, no image or video job is eligible,
      and of those only the image of a complete group can still be picked. */
  lemma MediaIsHeldUp(c: Config, s: State, lane: Lane, e: Env, waiting: Job, job: Job)
    requires e.serialized && waiting in s.pending && waiting.coordinated
    requires Routed(waiting, {Chat, Text, MemoryExtraction, TaskModel}) && Routed(job, {Image, Video})
    ensures job !in Eligible(s, lane, e)
    ensures Choosable(s, lane, e) && Pick(c, s, lane, e).job == job ==> Pick(c, s, lane, e).reason == FirstOfGroup
  {
    hide Startable, SortByArrival;
    EligibleJobs(s, lane, e);
    if Choosable(s, lane, e) {
      PickIsPending(c, s, lane, e);
    }
    hide Pick;
  }

  /** What a selection does to its lane's loaded model: the image of a group and the best by priority bring their
      own model, an overdue job and one of the loaded model leave it as it is, and no other lane is touched. */
  lemma SelectLoads(c: Config, s: State, w: Worker, e: Env, lane: Lane)
    requires w in c.workers && Choosable(s, c.workers[w], e)
    ensures var pick, after := Pick(c, s, c.workers[w], e), SelectStep(c, s, w, e);
            var loads := lane == c.workers[w] && (pick.reason == FirstOfGroup || pick.reason == BestPriority);
            && (loads ==> lane in after.currentModel && after.currentModel[lane] == pick.job.modelKey)
            && (!loads ==> (lane in after.currentModel <==> lane in s.currentModel))
            && (!loads && lane in s.currentModel ==> after.currentModel[lane] == s.currentModel[lane])
  {
    hide Pick, Choosable;
  }

  /** What waits keeps its place in line: submitted jobs come after it in the order given, and taking one job
      out leaves the order of the others. */
  lemma LineIsKept(c: Config, s: State, step: Step)
    requires Inv(c, s) && Enabled(c, s, step) && Possible(c, s, step)
    ensures step.Submit? && !s.stop ==> Next(c, s, step).pending == s.pending + step.jobs
    ensures step.Select? || step.Cancel? ==> Thinned(s.pending, Next(c, s, step).pending)
    ensures step.Finish? || step.Acknowledge? || s.stop ==> Next(c, s, step).pending == s.pending
  {
    hide Eligible, Choosable, Pick, Remove;
    match step
    case Submit(_) =>
    case Select(w, _, e) => RemoveThins(s.pending, Pick(c, s, c.workers[w], e).job);
    case Finish(_) =>
    case Cancel(a) =>
      var found := Matching(s.pending, a);
      if found != [] { RemoveThins(s.pending, found[0]); } else { assert s.pending == s.pending[..|s.pending|]; }
    case Close =>
    case Acknowledge(_) =>
  }

  // The list, or the list without one of its jobs
  predicate Thinned(before: seq<Job>, after: seq<Job>) {
    after == before || exists i :: 0 <= i < |before| && after == before[..i] + before[i + 1..]
  }

  lemma {:induction false} RemoveThins(s: seq<Job>, x: Job)
    ensures Thinned(s, Remove(s, x))
  {
    if s == [] {
    } else if s[0] == x {
      assert s[..0] + s[0 + 1..] == s[1..];
    } else {
      RemoveThins(s[1..], x);
      ThinnedBehind(s[0], s[1..], Remove(s[1..], x));
      assert s == [s[0]] + s[1..];
    }
  }

  lemma ThinnedBehind(head: Job, before: seq<Job>, after: seq<Job>)
    requires Thinned(before, after)
    ensures Thinned([head] + before, [head] + after)
  {
    if after != before {
      var i :| 0 <= i < |before| && after == before[..i] + before[i + 1..];
      var all := [head] + before;
      assert all[..i + 1] == [head] + before[..i];
      assert all[i + 2..] == before[i + 1..];
      assert [head] + after == all[..i + 1] + all[i + 1 + 1..];
    }
  }

  // ---------------------------------------------------------------------------
  // Bounded overtaking

  // Pending jobs of the lane that arrived no later than `job`
  function Ahead(s: State, lane: Lane, job: Job): set<Job> {
    set other | other in s.pending && LaneOf(other) == lane && other != job && other.arrival <= job.arrival
  }

  lemma OverdueFirst(c: Config, s: State, lane: Lane, e: Env, job: Job)
    requires job in Eligible(s, lane, e) && Overdue(c, e.now, job)
    ensures Choosable(s, lane, e)
    ensures var picked := Pick(c, s, lane, e).job; picked == job || picked in Ahead(s, lane, job)
  {
    EligibleJobs(s, lane, e);
    hide Eligible;
    assert job in Filter(Eligible(s, lane, e), (x: Job) => Overdue(c, e.now, x));
  }

  // `job` waits through the step: it is overdue and eligible whenever its lane selects, another job
  // is selected, and what is submitted to the lane arrives later.
  ghost predicate WaitsThrough(c: Config, s: State, step: Step, lane: Lane, job: Job) {
    match step
    case Select(w, _, e) =>
      w in c.workers && Choosable(s, c.workers[w], e) && Pick(c, s, c.workers[w], e).job != job &&
      (c.workers[w] == lane ==> job in Eligible(s, lane, e) && Overdue(c, e.now, job))
    case Submit(jobs) => forall x :: x in jobs && LaneOf(x) == lane ==> job.arrival < x.arrival
    case _ => true
  }

  function LaneSelections(c: Config, steps: seq<Step>, lane: Lane): nat {
    if steps == [] then 0
    else
      var last := steps[|steps| - 1];
      var here := last.Select? && last.worker in c.workers && c.workers[last.worker] == lane;
      LaneSelections(c, steps[..|steps| - 1], lane) + if here then 1 else 0
  }

  lemma SelectShrinksAhead(c: Config, s: State, w: Worker, seen: Env, e: Env, lane: Lane, job: Job)
    requires NoDup(s.pending) && WaitsThrough(c, s, Select(w, seen, e), lane, job)
    ensures Ahead(SelectStep(c, s, w, e), lane, job) <= Ahead(s, lane, job)
    ensures c.workers[w] == lane ==> |Ahead(SelectStep(c, s, w, e), lane, job)| < |Ahead(s, lane, job)|
  {
    hide Pick, Choosable, Eligible, Remove;
    PickIsPending(c, s, c.workers[w], e);
    var picked := Pick(c, s, c.workers[w], e).job;
    RemoveMembers(s.pending, picked);
    var after := Ahead(SelectStep(c, s, w, e), lane, job);
    assert after <= Ahead(s, lane, job) - {picked};
    if c.workers[w] == lane {
      OverdueFirst(c, s, lane, e, job);
      SubsetSize(after, Ahead(s, lane, job) - {picked});
    }
  }

  lemma StepShrinksAhead(c: Config, s: State, step: Step, lane: Lane, job: Job)
    requires NoDup(s.pending) && Enabled(c, s, step) && Possible(c, s, step) && WaitsThrough(c, s, step, lane, job)
    ensures Ahead(Next(c, s, step), lane, job) <= Ahead(s, lane, job)
    ensures step.Select? && c.workers[step.worker] == lane ==>
              |Ahead(Next(c, s, step), lane, job)| < |Ahead(s, lane, job)|
  {
    hide Pick, Choosable, Eligible, SelectStep;
    match step
    case Select(w, seen, e) => SelectShrinksAhead(c, s, w, seen, e, lane, job);
    case Cancel(a) =>
      var found := Matching(s.pending, a);
      if found != [] { RemoveMembers(s.pending, found[0]); }
    case _ =>
  }

  lemma PendingNoDup(c: Config, s: State)
    requires Inv(c, s)
    ensures NoDup(s.pending)
  {
  }

  /** While an overdue, eligible job waits, its lane makes at most as many selections as there were
      pending lane jobs with no later arrival. */
  lemma {:induction false} BoundedOvertaking(
    c: Config, states: seq<State>, steps: seq<Step>, lane: Lane, job: Job)
    requires Run(c, states, steps) && Inv(c, states[0])
    requires forall i :: 0 <= i < |steps| ==> WaitsThrough(c, states[i], steps[i], lane, job)
    ensures Inv(c, states[|steps|])
    ensures LaneSelections(c, steps, lane) + |Ahead(states[|steps|], lane, job)| <= |Ahead(states[0], lane, job)|
  {
    hide Inv, NoDup, Ahead, WaitsThrough, Enabled, Possible, Next;
    if steps != [] {
      var n := |steps| - 1;
      var before := states[..n + 1];
      assert Run(c, before, steps[..n]);
      BoundedOvertaking(c, before, steps[..n], lane, job);
      StepKeepsInv(c, states[n], steps[n]);
      PendingNoDup(c, states[n]);
      StepShrinksAhead(c, states[n], steps[n], lane, job);
      SubsetSize(Ahead(states[n + 1], lane, job), Ahead(states[n], lane, job));
    }
  }

  // ---------------------------------------------------------------------------
  // Shutdown

  /** Once closed, the queue stays closed and empty, selects nothing, and keeps every detached job until
      that job is acknowledged. */
  lemma {:induction false} ClosedForGood(c: Config, states: seq<State>, steps: seq<Step>, k: nat, job: Job)
    requires Run(c, states, steps) && Inv(c, states[0]) && states[0].stop && k < |states|
    requires forall i :: 0 <= i < k ==> steps[i] != Acknowledge(job.id)
    ensures Inv(c, states[k]) && states[k].stop && states[k].pending == []
    ensures job in states[0].stopped ==> job in states[k].stopped
    ensures k < |steps| ==> !steps[k].Select?
  {
    if k > 0 {
      ClosedForGood(c, states, steps, k - 1, job);
      StepKeepsInv(c, states[k - 1], steps[k - 1]);
    }
  }

  /** What `wait_until_idle` waits for is exactly that nothing is pending and no worker executes a job. */
  lemma IdleIff(c: Config, s: State)
    requires Inv(c, s)
    ensures (s.pending == [] && forall lane :: lane in s.activeByLane ==> s.activeByLane[lane] == 0) <==>
            (s.pending == [] && s.running == map[])
  {
    if s.running == map[] {
      forall lane | lane in s.activeByLane ensures ActiveIn(s, lane) == 0 {
        assert Working(c, s, lane) == {};
      }
    } else {
      var w :| w in s.running;
      var lane := c.workers[w];
      assert w in Working(c, s, lane);
      assert ActiveIn(s, lane) > 0;
    }
  }

  // ---------------------------------------------------------------------------
  // The queue itself

  class JobQueue {
    const config: Config
    var pending: seq<Job>
    var currentModelKeyByLane: map<Lane, string>
    var activeByLane: map<Lane, int>
    var activeOrderingKeys: set<string>
    var stopping: bool
    var stoppedPending: seq<Job>
    ghost var running: map<Worker, Job>
    ghost var place: map<Job, Place>

    ghost function Now(): State
      reads this
    {
      State(pending, currentModelKeyByLane, activeByLane, activeOrderingKeys, stoppedPending, stopping, running, place)
    }

    ghost predicate Valid()
      reads this
    {
      Inv(config, Now())
    }

    constructor (config: Config)
      ensures Valid() && Now() == EMPTY && this.config == config
    {
      this.config := config;
      pending, stoppedPending, stopping := [], [], false;
      currentModelKeyByLane, activeByLane, activeOrderingKeys := map[], map[], {};
      running, place := map[], map[];
      new;
      RunKeepsInv(config, [EMPTY], [], 0);
    }

    method Submit(job: Job) returns (r: Result<Job, string>)
      requires Valid() && Enabled(config, Now(), Step.Submit([job]))
      modifies this
      ensures Valid() && Now() == SubmitStep(old(Now()), [job])
      ensures r == if old(stopping) then Err("job queue stopped") else Ok(job)
    {
      hide Inv;
      StepKeepsInv(config, Now(), Step.Submit([job]));
      if stopping {
        return Err("job queue stopped");
      }
      pending := pending + [job];
      place := Placed(place, [job], Pending);
      r := Ok(job);
    }

    method SubmitGroup(jobs: seq<Job>, groupId: string) returns (r: Result<seq<Job>, string>)
      requires Valid() && Enabled(config, Now(), Step.Submit(Grouped(jobs, groupId)))
      modifies this
      ensures Valid() && Now() == SubmitStep(old(Now()), Grouped(jobs, groupId))
      ensures r == if old(stopping) then Err("job queue stopped") else Ok(Grouped(jobs, groupId))
    {
      hide Inv;
      StepKeepsInv(config, Now(), Step.Submit(Grouped(jobs, groupId)));
      var grouped: seq<Job> := [];
      for i := 0 to |jobs|
        invariant grouped == Grouped(jobs[..i], groupId)
      {
        grouped := grouped + [jobs[i].(groupId := groupId, groupIndex := i)];
        assert jobs[..i + 1][..i] == jobs[..i];
      }
      assert jobs[..|jobs|] == jobs;
      if stopping {
        return Err("job queue stopped");
      }
      pending := pending + grouped;
      place := Placed(place, grouped, Pending);
      r := Ok(grouped);
    }

    method CancelPendingForMetadata(asyncJobId: string) returns (removed: bool)
      requires Valid()
      modifies this
      ensures Valid() && Now() == CancelStep(old(Now()), asyncJobId)
      ensures removed <==> exists job :: job in old(pending) && job.asyncJobId == asyncJobId
    {
      hide Inv, Remove;
      StepKeepsInv(config, Now(), Step.Cancel(asyncJobId));
      var i := 0;
      while i < |pending|
        invariant i <= |pending| && unchanged(this)
        invariant forall k :: 0 <= k < i ==> pending[k].asyncJobId != asyncJobId
      {
        var job := pending[i];
        if job.asyncJobId != asyncJobId {
          i := i + 1;
          continue;
        }
        FilterFirst(pending, (job: Job) => job.asyncJobId == asyncJobId, i);
        pending := Remove(pending, job);
        place := place[job := Cancelled];
        return true;
      }
      FilterFirst(pending, (job: Job) => job.asyncJobId == asyncJobId, i);
      removed := false;
    }

    method CloseAndDetachPending() returns (detached: seq<Job>)
      requires Valid()
      modifies this
      ensures Valid() && Now() == CloseStep(old(Now())) && detached == old(pending)
    {
      hide Inv;
      StepKeepsInv(config, Now(), Step.Close);
      stopping := true;
      detached := pending;
      pending := [];
      stoppedPending := stoppedPending + detached;
      place := Placed(place, detached, Detached);
    }

    method AcknowledgeStoppedPending(id: nat)
      requires Valid()
      modifies this
      ensures Valid() && Now() == AcknowledgeStep(old(Now()), id)
    {
      hide Inv;
      StepKeepsInv(config, Now(), Step.Acknowledge(id));
      var kept: seq<Job> := [];
      for i := 0 to |stoppedPending|
        invariant unchanged(this) && kept == Filter(stoppedPending[..i], (job: Job) => job.id != id)
      {
        assert stoppedPending[..i + 1][..i] == stoppedPending[..i];
        if stoppedPending[i].id != id {
          kept := kept + [stoppedPending[i]];
        }
      }
      assert stoppedPending[..|stoppedPending|] == stoppedPending;
      place := Placed(place, Filter(stoppedPending, (job: Job) => job.id == id), Acknowledged);
      stoppedPending := kept;
    }

    method EligiblePendingForLane(lane: Lane, e: Env) returns (eligible: seq<Job>)
      ensures eligible == Eligible(Now(), lane, e)
    {
      if lane == Media && e.serialized {
        if exists job :: job in pending && LaneOf(job) == Interactive && job.coordinated {
          return [];
        }
      }
      var sorted := SortByArrival(LanePending(pending, lane));
      var seen: set<string> := {};
      eligible := [];
      for i := 0 to |sorted|
        invariant eligible == Startable(sorted, i, activeOrderingKeys, e.admitted)
        invariant "" !in seen
        invariant forall key | key != "" ::
            key in seen <==> exists k :: 0 <= k < i && sorted[k] in e.admitted && sorted[k].orderingKey == key
      {
        var job := sorted[i];
        if job !in e.admitted {
          continue;
        }
        if job.orderingKey == "" {
          eligible := eligible + [job];
          continue;
        }
        if job.orderingKey in seen {
          continue;
        }
        seen := seen + {job.orderingKey};
        if job.orderingKey !in activeOrderingKeys {
          eligible := eligible + [job];
        }
      }
    }

    method OverdueOf(eligible: seq<Job>, now: real) returns (overdue: seq<Job>)
      ensures overdue == Filter(eligible, (job: Job) => Overdue(config, now, job))
    {
      hide Overdue;
      overdue := [];
      for i := 0 to |eligible|
        invariant overdue == Filter(eligible[..i], (job: Job) => Overdue(config, now, job))
      {
        assert eligible[..i + 1][..i] == eligible[..i];
        if Overdue(config, now, eligible[i]) {
          overdue := overdue + [eligible[i]];
        }
      }
      assert eligible[..|eligible|] == eligible;
    }

    // The first eligible job of the lane's loaded model
    method FirstAffine(eligible: seq<Job>, model: string) returns (r: Option<Job>)
      ensures r == if Affine(eligible, model) != [] then Some(Affine(eligible, model)[0]) else None
    {
      for i := 0 to |eligible|
        invariant forall k :: 0 <= k < i ==> !(eligible[k].modelKey != "" && eligible[k].modelKey == model)
      {
        if eligible[i].modelKey != "" && eligible[i].modelKey == model {
          FilterFirst(eligible, (job: Job) => job.modelKey != "" && job.modelKey == model, i);
          return Some(eligible[i]);
        }
      }
      FilterFirst(eligible, (job: Job) => job.modelKey != "" && job.modelKey == model, |eligible|);
      r := None;
    }

    // No job when the minimum of an empty list raises
    method PickNextJob(lane: Lane, e: Env) returns (r: Option<Job>)
      modifies `pending, `currentModelKeyByLane
      ensures r.Some? <==> Choosable(old(Now()), lane, e)
      ensures r.None? ==> unchanged(this)
      ensures r.Some? ==>
                var pick := Pick(config, old(Now()), lane, e);
                && r.value == pick.job && pending == Remove(old(pending), pick.job)
                && currentModelKeyByLane == if pick.reason == FirstOfGroup || pick.reason == BestPriority
                                            then old(currentModelKeyByLane)[lane := pick.job.modelKey]
                                            else old(currentModelKeyByLane)
    {
      hide Eligible, FirstMin, Remove, NextGroup, GroupJobs, Affine, Overdue;
      ghost var s := Now();
      var lanePending := EligiblePendingForLane(lane, e);
      var overdue := OverdueOf(lanePending, e.now);
      if overdue != [] {
        var job := FirstMin(overdue, false);
        assert Choosable(s, lane, e) && Pick(config, s, lane, e) == Choice(job, WaitedTooLong);
        hide Pick, Choosable;
        pending := Remove(pending, job);
        return Some(job);
      }
      var group := NextTextImageGroup(lane);
      if group.Some? {
        var images := Filter(group.value, (job: Job) => job.jobType == Image);
        if images != [] {
          var job := images[0];
          assert Choosable(s, lane, e) && Pick(config, s, lane, e) == Choice(job, FirstOfGroup);
          hide Pick, Choosable;
          pending := Remove(pending, job);
          currentModelKeyByLane := currentModelKeyByLane[lane := job.modelKey];
          return Some(job);
        }
      }
      var model := if lane in currentModelKeyByLane then currentModelKeyByLane[lane] else "";
      if |lanePending| > 1 && model != "" {
        var same := FirstAffine(lanePending, model);
        if same.Some? {
          assert Choosable(s, lane, e) && Pick(config, s, lane, e) == Choice(same.value, SameModel);
          hide Pick, Choosable;
          pending := Remove(pending, same.value);
          return same;
        }
      }
      if lanePending == [] {
        return None;
      }
      var job := FirstMin(lanePending, true);
      assert Choosable(s, lane, e) && Pick(config, s, lane, e) == Choice(job, BestPriority);
      hide Pick, Choosable;
      pending := Remove(pending, job);
      currentModelKeyByLane := currentModelKeyByLane[lane := job.modelKey];
      r := Some(job);
    }

    method NextTextImageGroup(lane: Lane) returns (r: Option<seq<Job>>)
      ensures r == if lane == Media && NextGroup(pending).Some?
                   then Some(GroupJobs(pending, NextGroup(pending).value)) else None
    {
      if lane != Media {
        return None;
      }
      hide TextAndImage, GroupMembers, SortByArrival, Groups, NextGroup, FirstBoth, BothTypes;
      var order := GroupsInOrder(pending);
      OrderedChoice(pending, |pending|);
      for k := 0 to |order|
        invariant FirstBoth(pending, order, k) == None
      {
        var group := order[k];
        assert group in order;
        var jobs := GroupMembers(pending, group);
        HoldsBoth(pending, group, jobs);
        FirstBothStep(pending, order, k);
        if BothTypes(jobs) {
          FirstBothStays(pending, order, k + 1, |order|);
          return Some(SortByArrival(jobs));
        }
      }
      r := None;
    }

    /** The block a worker runs once it has seen eligible work or the queue is stopping. It ends the thread
        without a job when the queue is stopping, and raises when it no longer finds anything to pick. */
    method Select(w: Worker, seen: Env, e: Env) returns (r: Result<Option<Job>, string>)
      requires Valid() && w in config.workers && w !in running
      requires stopping || Eligible(Now(), config.workers[w], seen) != []
      modifies this
      ensures Valid()
      ensures old(stopping) ==> r == Ok(None) && unchanged(this)
      ensures !old(stopping) && !Choosable(old(Now()), config.workers[w], e) ==> r.Err? && unchanged(this)
      ensures !old(stopping) && Choosable(old(Now()), config.workers[w], e) ==>
                && Now() == SelectStep(config, old(Now()), w, e)
                && r == Ok(Some(Pick(config, old(Now()), config.workers[w], e).job))
    {
      hide Inv, Pick, Choosable, Eligible, Remove;
      if stopping {
        return Ok(None);
      }
      var lane := config.workers[w];
      if Choosable(Now(), lane, e) { StepKeepsInv(config, Now(), Step.Select(w, seen, e)); }
      var picked := PickNextJob(lane, e);
      if picked == None {
        return Err("nothing to pick");
      }
      var job := picked.value;
      activeByLane := Bump(activeByLane, lane);
      if job.orderingKey != "" {
        activeOrderingKeys := activeOrderingKeys + {job.orderingKey};
      }
      running := running[w := job];
      place := place[job := Executing(w)];
      r := Ok(Some(job));
    }

    /** The block a worker runs after its job, whatever the outcome. */
    method Finish(w: Worker, job: Job)
      requires Valid() && w in config.workers && w in running && running[w] == job
      modifies this
      ensures Valid() && Now() == FinishStep(config, old(Now()), w)
      ensures ActiveIn(Now(), config.workers[w]) == old(ActiveIn(Now(), config.workers[w])) - 1
    {
      hide Conserved, Counted;
      StepKeepsInv(config, Now(), Step.Finish(w));
      FinishCounts(config, Now(), w);
      activeByLane := Drop(activeByLane, config.workers[w]);
      if job.orderingKey != "" {
        activeOrderingKeys := activeOrderingKeys - {job.orderingKey};
      }
      running := running - {w};
      place := place[job := Finished];
    }
  }

  // The group ids in order of first appearance, which is the order of the source's dict of groups
  function Groups(pending: seq<Job>, n: nat): (r: seq<string>)
    requires n <= |pending|
    ensures forall group :: group in r ==> group != ""
  {
    if n == 0 then []
    else
      var group := pending[n - 1].groupId;
      if group == "" || group in Groups(pending, n - 1) then Groups(pending, n - 1)
      else Groups(pending, n - 1) + [group]
  }

  method GroupsInOrder(pending: seq<Job>) returns (order: seq<string>)
    ensures order == Groups(pending, |pending|)
  {
    order := [];
    for i := 0 to |pending|
      invariant order == Groups(pending, i)
    {
      if pending[i].groupId != "" && pending[i].groupId !in order {
        order := order + [pending[i].groupId];
      }
    }
  }

  function FirstBoth(pending: seq<Job>, order: seq<string>, n: nat): Option<string>
    requires n <= |order|
  {
    if n == 0 then None
    else if FirstBoth(pending, order, n - 1).Some? then FirstBoth(pending, order, n - 1)
    else if TextAndImage(pending, order[n - 1]) then Some(order[n - 1]) else None
  }

  lemma FirstBothStep(pending: seq<Job>, order: seq<string>, k: nat)
    requires k < |order| && FirstBoth(pending, order, k) == None
    ensures FirstBoth(pending, order, k + 1) == if TextAndImage(pending, order[k]) then Some(order[k]) else None
  {
  }

  lemma {:induction false} FirstBothStays(pending: seq<Job>, order: seq<string>, k: nat, n: nat)
    requires k <= n <= |order| && FirstBoth(pending, order, k).Some?
    ensures FirstBoth(pending, order, n) == FirstBoth(pending, order, k)
  {
    if k < n {
      FirstBothStays(pending, order, k, n - 1);
    }
  }

  lemma {:induction false} FirstBothPrefix(pending: seq<Job>, order: seq<string>, more: seq<string>, n: nat)
    requires n <= |order|
    ensures FirstBoth(pending, order + more, n) == FirstBoth(pending, order, n)
    ensures FirstBoth(pending, order, n) == None ==> forall k :: 0 <= k < n ==> !TextAndImage(pending, order[k])
  {
    if n > 0 {
      FirstBothPrefix(pending, order, more, n - 1);
    }
  }

  // Walking the distinct groups finds the same group as walking the pending list.
  lemma {:induction false} OrderedChoice(pending: seq<Job>, n: nat)
    requires n <= |pending|
    ensures FirstBoth(pending, Groups(pending, n), |Groups(pending, n)|) == NextGroup(pending, n)
  {
    if n > 0 {
      OrderedChoice(pending, n - 1);
      var before, group := Groups(pending, n - 1), pending[n - 1].groupId;
      FirstBothPrefix(pending, before, [group], |before|);
    }
  }

  predicate BothTypes(jobs: seq<Job>) {
    (exists job :: job in jobs && job.jobType == Text) && exists job :: job in jobs && job.jobType == Image
  }

  lemma HoldsBoth(pending: seq<Job>, group: string, jobs: seq<Job>)
    requires group != "" && jobs == GroupMembers(pending, group)
    ensures TextAndImage(pending, group) <==> BothTypes(jobs)
  {
  }

  function Grouped(jobs: seq<Job>, groupId: string): seq<Job> {
    if jobs == [] then []
    else
      var n := |jobs| - 1;
      Grouped(jobs[..n], groupId) + [jobs[n].(groupId := groupId, groupIndex := n)]
  }
}
