/**
 A persona's visual identity: consent, reference pictures under review, and the revision counter that
 planned requests are checked against.

 Queries run against the rows as already changed in the same transaction. A persona without a stored
 profile is shown as the profile that would be created for it.
 */
module Identity {
  import opened Common

  datatype Consent = NotGranted | Granted | Withdrawn

  datatype Status = Draft | Active | Disabled

  datatype Review = Pending | Approved | Rejected | Deleted

  datatype Reference = Reference(id: string, review: Review, primary: bool, createdAt: int)

  datatype Policy = Policy(
    appearance: string, threshold: real, maxAttempts: nat, mechanism: string, presets: seq<string>,
    comparisonRetry: bool, failurePolicy: string, conditioningFallback: string)

  datatype Profile = Profile(
    stored: bool, consent: Consent, status: Status, revision: nat, policy: Policy, refs: seq<Reference>)

  datatype Error = BadRequest | Conflict | NotFound

  const DEFAULT_POLICY: Policy := Policy(
    "", 0.78, 2, "reference_adapter", [], false, "show_unverified", "allow_unconditioned")

  const UNSTORED: Profile := Profile(false, NotGranted, Draft, 1, DEFAULT_POLICY, [])

  predicate IsApproved(r: Reference) {
    r.review == Approved
  }

  predicate AnyApproved(refs: seq<Reference>) {
    exists r :: r in refs && IsApproved(r)
  }

  predicate AnyPrimary(refs: seq<Reference>) {
    exists r :: r in refs && IsApproved(r) && r.primary
  }

  // The order of `approved_identity_references`
  predicate Before(a: Reference, b: Reference) {
    (a.primary && !b.primary) || (a.primary == b.primary && a.createdAt < b.createdAt)
  }

  // The first approved reference in that order; rows that tie stay in stored order
  function First(refs: seq<Reference>): (r: Option<nat>)
    ensures r.Some? ==> r.value < |refs| && IsApproved(refs[r.value])
    ensures r.None? <==> !AnyApproved(refs)
  {
    if refs == [] then None
    else
      var n := |refs| - 1;
      var first := First(refs[..n]);
      assert refs == refs[..n] + [refs[n]];
      if IsApproved(refs[n]) && (first.None? || Before(refs[n], refs[first.value])) then Some(n) else first
  }

  function Find(refs: seq<Reference>, id: string): (r: Option<nat>)
    ensures r.Some? ==> r.value < |refs| && refs[r.value].id == id && forall j :: 0 <= j < r.value ==> refs[j].id != id
    ensures r.None? ==> forall j :: 0 <= j < |refs| ==> refs[j].id != id
  {
    if refs == [] then None
    else
      var n := |refs| - 1;
      var found := Find(refs[..n], id);
      if found.Some? then found else if refs[n].id == id then Some(n) else None
  }

  // `remaining[0].is_primary = 1`
  function Promoted(refs: seq<Reference>): seq<Reference> {
    var first := First(refs);
    if first.Some? then refs[first.value := refs[first.value].(primary := true)] else refs
  }

  function Removed(refs: seq<Reference>): (r: seq<Reference>)
    ensures |r| == |refs|
  {
    seq(|refs|, i requires 0 <= i < |refs| => refs[i].(review := Deleted, primary := false))
  }

  function Bumped(p: Profile): Profile {
    p.(revision := p.revision + 1)
  }

  // ---------------------------------------------------------------------------
  // The operations

  // The policy given carries new preferred presets only when the caller sent them.
  function SaveProfile(p: Profile, policy: Policy, withPresets: bool, expected: Option<int>): Result<Profile, Error> {
    if p.stored && expected.Some? && expected.value != p.revision then Err(Conflict)
    else
      var presets := if withPresets then policy.presets else p.policy.presets;
      Ok(Bumped(p.(stored := true, policy := policy.(presets := presets))))
  }

  function GrantConsent(p: Profile, attested: bool): Result<Profile, Error> {
    if !attested then Err(BadRequest)
    else Ok(Bumped(p.(stored := true, consent := Granted, status := if AnyApproved(p.refs) then Active else Draft)))
  }

  function WithdrawConsent(p: Profile): Result<Profile, Error> {
    if !p.stored then Err(NotFound)
    else Ok(Bumped(p.(consent := Withdrawn, status := Disabled, refs := Removed(p.refs))))
  }

  function AddReference(p: Profile, id: string, createdAt: int, attested: bool, sourceFound: bool)
    : Result<Profile, Error>
  {
    if !attested then Err(BadRequest)
    else if !p.stored || p.consent != Granted then Err(Conflict)
    else if !sourceFound then Err(NotFound)
    else Ok(p.(refs := p.refs + [Reference(id, Pending, false, createdAt)]))
  }

  predicate Live(p: Profile, i: Option<nat>)
    requires i.Some? ==> i.value < |p.refs|
  {
    i.Some? && p.refs[i.value].review != Deleted
  }

  function Approving(refs: seq<Reference>, i: nat): seq<Reference>
    requires i < |refs|
  {
    var marked := refs[i := refs[i].(review := Approved)];
    if AnyPrimary(marked) then marked else marked[i := marked[i].(primary := true)]
  }

  // The references once one of them stops being approved, with the primary role handed on
  function Dropping(refs: seq<Reference>, i: nat, to: Review): seq<Reference>
    requires i < |refs| && to != Approved
  {
    var marked := refs[i := refs[i].(review := to, primary := false)];
    if refs[i].primary then Promoted(marked) else marked
  }

  function ReviewReference(p: Profile, id: string, approve: bool): Result<Profile, Error> {
    var i := Find(p.refs, id);
    if !Live(p, i) then Err(NotFound)
    else if p.consent != Granted then Err(Conflict)
    else if approve then Ok(Bumped(p.(refs := Approving(p.refs, i.value), status := Active)))
    else
      var refs := Dropping(p.refs, i.value, Rejected);
      Ok(Bumped(p.(refs := refs, status := if AnyApproved(refs) then p.status else Draft)))
  }

  function DeleteReference(p: Profile, id: string): Result<Profile, Error> {
    var i := Find(p.refs, id);
    if !Live(p, i) then Err(NotFound)
    else
      var refs := Dropping(p.refs, i.value, Deleted);
      Ok(Bumped(p.(refs := refs,
                   status := if AnyApproved(refs) then p.status else if p.consent == Granted then Draft else Disabled)))
  }

  datatype Step =
    | Save(policy: Policy, withPresets: bool, expected: Option<int>)
    | Grant(attested: bool) | Withdraw
    | Add(id: string, createdAt: int, attested: bool, sourceFound: bool)
    | Decide(id: string, approve: bool) | Remove(id: string)

  function Perform(p: Profile, s: Step): Result<Profile, Error> {
    match s
    case Save(policy, withPresets, expected) => SaveProfile(p, policy, withPresets, expected)
    case Grant(attested) => GrantConsent(p, attested)
    case Withdraw => WithdrawConsent(p)
    case Add(id, createdAt, attested, sourceFound) => AddReference(p, id, createdAt, attested, sourceFound)
    case Decide(id, approve) => ReviewReference(p, id, approve)
    case Remove(id) => DeleteReference(p, id)
  }

  // An operation that raises rolls back.
  function Next(p: Profile, s: Step): Profile {
    var result := Perform(p, s);
    if result.Ok? then result.value else p
  }

  // ---------------------------------------------------------------------------
  // What every operation keeps

  predicate OnePrimary(refs: seq<Reference>) {
    && (forall i :: 0 <= i < |refs| && refs[i].primary ==> IsApproved(refs[i]))
    && (forall i, j :: 0 <= i < j < |refs| && refs[i].primary ==> !refs[j].primary)
    && (AnyApproved(refs) ==> AnyPrimary(refs))
  }

  predicate Inv(p: Profile) {
    && (p.status == Active <==> p.consent == Granted && AnyApproved(p.refs))
    && (p.status == Disabled <==> p.consent == Withdrawn)
    && OnePrimary(p.refs)
    && (p.consent != Granted ==> forall r :: r in p.refs ==> r.review == Deleted)
    && (!p.stored ==> p == UNSTORED)
  }

  /** The reference that takes the primary role is approved, and none of those left is older. */
  lemma {:induction false} FirstIsFirst(refs: seq<Reference>)
    requires AnyApproved(refs)
    ensures var first := refs[First(refs).value];
            forall i :: 0 <= i < |refs| && IsApproved(refs[i]) ==> !Before(refs[i], first)
  {
    var n := |refs| - 1;
    var init := refs[..n];
    var last := First(init);
    assert last.None? ==> forall i :: 0 <= i < n ==> init[i] in init && !IsApproved(init[i]);
    if last.Some? {
      FirstIsFirst(init);
    }
    forall i | 0 <= i < |refs| && IsApproved(refs[i]) ensures !Before(refs[i], refs[First(refs).value]) {
      hide AnyApproved;
      if i < n {
        assert init[i] == refs[i];
      }
    }
  }

  lemma ApprovingKeeps(refs: seq<Reference>, i: nat)
    requires OnePrimary(refs) && i < |refs|
    ensures OnePrimary(Approving(refs, i)) && AnyApproved(Approving(refs, i))
  {
    var marked := refs[i := refs[i].(review := Approved)];
    assert marked[i] in marked;
    assert Approving(refs, i)[i] in Approving(refs, i);
    if refs[i].primary {
      assert AnyPrimary(marked);
    }
  }

  lemma DroppingKeeps(refs: seq<Reference>, i: nat, to: Review)
    requires OnePrimary(refs) && i < |refs| && to != Approved
    ensures OnePrimary(Dropping(refs, i, to))
    ensures AnyApproved(Dropping(refs, i, to)) <==> exists j :: 0 <= j < |refs| && j != i && IsApproved(refs[j])
  {
    var marked := refs[i := refs[i].(review := to, primary := false)];
    var after := Dropping(refs, i, to);
    assert forall j :: 0 <= j < |refs| ==> (IsApproved(after[j]) <==> j != i && IsApproved(refs[j]));
    forall j | 0 <= j < |refs| && j != i && IsApproved(refs[j]) ensures AnyApproved(after) && AnyApproved(marked) {
      assert after[j] in after && marked[j] in marked;
    }
    if AnyApproved(after) {
      if refs[i].primary {
        var first := First(marked);
        assert after[first.value] in after;
      } else {
        assert AnyApproved(refs) by { assert forall j :: 0 <= j < |refs| ==> refs[j] in refs; }
        var r :| r in refs && IsApproved(r) && r.primary;
        var k :| 0 <= k < |refs| && refs[k] == r;
        assert after[k] in after;
      }
    }
  }

  lemma RemovedKeeps(refs: seq<Reference>)
    ensures OnePrimary(Removed(refs)) && !AnyApproved(Removed(refs))
    ensures forall r :: r in Removed(refs) ==> r.review == Deleted
  {
  }

  lemma AddedKeeps(refs: seq<Reference>, r: Reference)
    requires OnePrimary(refs) && r.review == Pending && !r.primary
    ensures OnePrimary(refs + [r]) && (AnyApproved(refs + [r]) <==> AnyApproved(refs))
  {
    assert forall x :: x in refs + [r] <==> x in refs || x == r;
  }

  lemma OthersApproved(refs: seq<Reference>, i: nat)
    requires i < |refs|
    ensures (exists j :: 0 <= j < |refs| && j != i && IsApproved(refs[j])) ==> AnyApproved(refs)
  {
    assert forall j :: 0 <= j < |refs| ==> refs[j] in refs;
  }

  /** Every operation keeps: active exactly if consent is granted and some reference is approved, disabled
      exactly if consent is withdrawn, and one approved primary reference as soon as any is approved. */
  lemma StepKeepsInv(p: Profile, s: Step)
    requires Inv(p)
    ensures Inv(Next(p, s))
  {
    match s {
      case Save(_, _, _) =>
      case Grant(_) =>
      case Withdraw => RemovedKeeps(p.refs);
      case Add(id, createdAt, _, _) => AddedKeeps(p.refs, Reference(id, Pending, false, createdAt));
      case Decide(id, approve) =>
        var i := Find(p.refs, id);
        if Live(p, i) {
          ApprovingKeeps(p.refs, i.value);
          DroppingKeeps(p.refs, i.value, Rejected);
          OthersApproved(p.refs, i.value);
        }
      case Remove(id) =>
        var i := Find(p.refs, id);
        if Live(p, i) {
          assert p.refs[i.value] in p.refs;
          DroppingKeeps(p.refs, i.value, Deleted);
          OthersApproved(p.refs, i.value);
        }
    }
    hide OnePrimary, AnyApproved, Approving, Dropping, Removed, Find;
  }

  lemma DroppingHandsOver(refs: seq<Reference>, i: nat, to: Review)
    requires i < |refs| && to != Approved
    ensures var after := Dropping(refs, i, to);
            && |after| == |refs| && !IsApproved(after[i])
            && (forall j :: 0 <= j < |after| && j != i ==> after[j].(primary := false) == refs[j].(primary := false))
            && (!refs[i].primary ==> forall j :: 0 <= j < |after| && j != i ==> after[j] == refs[j])
  {
    hide First;
  }

  lemma DroppingPromotes(refs: seq<Reference>, i: nat, to: Review)
    requires OnePrimary(refs) && i < |refs| && to != Approved && refs[i].primary
    ensures var after := Dropping(refs, i, to);
            forall j, k :: 0 <= j < |after| && after[j].primary && 0 <= k < |after| && IsApproved(after[k]) ==>
                after[j].createdAt <= after[k].createdAt
  {
    hide First;
    var marked := refs[i := refs[i].(review := to, primary := false)];
    if AnyApproved(marked) {
      FirstIsFirst(marked);
    }
    hide AnyApproved;
    assert forall j :: 0 <= j < |refs| ==> !marked[j].primary;
  }

  /** When the primary reference is rejected or deleted, the oldest approved one left takes over; if the
      reference that goes was not the primary one, the primary stays. */
  lemma PrimaryHandsOver(p: Profile, id: string, s: Step)
    requires Inv(p) && (s == Decide(id, false) || s == Remove(id)) && Perform(p, s).Ok?
    ensures var i, after := Find(p.refs, id).value, Next(p, s).refs;
            && |after| == |p.refs| && !IsApproved(after[i])
            && (forall j :: 0 <= j < |after| && j != i ==>
                  after[j].(primary := false) == p.refs[j].(primary := false))
            && (!p.refs[i].primary ==> forall j :: 0 <= j < |after| && j != i ==> after[j] == p.refs[j])
            && (p.refs[i].primary ==> forall j, k ::
                  0 <= j < |after| && after[j].primary && 0 <= k < |after| && IsApproved(after[k]) ==>
                    after[j].createdAt <= after[k].createdAt)
  {
    hide Find, Dropping, AnyApproved, OnePrimary;
    var i, to := Find(p.refs, id).value, if s.Remove? then Deleted else Rejected;
    assert Next(p, s).refs == Dropping(p.refs, i, to);
    DroppingHandsOver(p.refs, i, to);
    if p.refs[i].primary { DroppingPromotes(p.refs, i, to); }
  }

  // ---------------------------------------------------------------------------
  // What each operation brings about

  // The same pictures, which may have changed in review and role
  predicate SamePictures(before: seq<Reference>, after: seq<Reference>) {
    && |after| == |before|
    && forall j :: 0 <= j < |before| ==> after[j].id == before[j].id && after[j].createdAt == before[j].createdAt
  }

  /** Withdrawing consent takes everything back: on a stored profile it always succeeds, consent is withdrawn, the
      profile is disabled, and every reference is deleted and none is primary. */
  lemma WithdrawDoes(p: Profile)
    ensures if p.stored then Perform(p, Withdraw).Ok? else Perform(p, Withdraw) == Err(NotFound)
    ensures p.stored ==>
              var q := Next(p, Withdraw);
              && q.consent == Withdrawn && q.status == Disabled && q.revision == p.revision + 1
              && q.policy == p.policy && q.stored && SamePictures(p.refs, q.refs)
              && forall r :: r in q.refs ==> r.review == Deleted && !r.primary
  {
  }

  /** Granting consent needs the attestation; it activates the profile exactly if a reference is approved, and
      touches no reference. */
  lemma GrantDoes(p: Profile, attested: bool)
    ensures if attested then Perform(p, Grant(attested)).Ok? else Perform(p, Grant(attested)) == Err(BadRequest)
    ensures attested ==>
              var q := Next(p, Grant(attested));
              && q.consent == Granted && q.revision == p.revision + 1 && q.policy == p.policy && q.stored
              && q.refs == p.refs && (q.status == Active || q.status == Draft)
              && (q.status == Active <==> exists r :: r in p.refs && r.review == Approved)
  {
  }

  /** Adding a reference needs attestation, granted consent and a source; the new one is pending, and nothing
      else changes, the revision included. */
  lemma AddDoes(p: Profile, id: string, createdAt: int, attested: bool, sourceFound: bool)
    ensures var s := Add(id, createdAt, attested, sourceFound);
            && (Perform(p, s).Ok? <==> attested && p.stored && p.consent == Granted && sourceFound)
            && (Perform(p, s) == Err(BadRequest) <==> !attested)
            && (Perform(p, s) == Err(NotFound) <==> attested && p.stored && p.consent == Granted && !sourceFound)
            && (Perform(p, s).Ok? ==>
                  Next(p, s) == p.(refs := p.refs + [Reference(id, Pending, false, createdAt)]))
  {
  }

  /** Approving needs granted consent and a reference that is not deleted; exactly that reference becomes
      approved, the profile is active, all others keep review and role, and it becomes the primary one exactly if
      no other approved one is primary, or if it was marked so before. */
  lemma ApproveDoes(p: Profile, id: string)
    ensures var i := Find(p.refs, id);
            && (Perform(p, Decide(id, true)).Ok? <==>
                  i.Some? && p.refs[i.value].review != Deleted && p.consent == Granted)
            && (Perform(p, Decide(id, true)) == Err(NotFound) <==> i.None? || p.refs[i.value].review == Deleted)
            && Perform(p, Decide(id, true)) != Err(BadRequest)
            && (Perform(p, Decide(id, true)).Ok? ==>
                  var q := Next(p, Decide(id, true));
                  && q.status == Active && q.consent == Granted && q.revision == p.revision + 1
                  && q.policy == p.policy && q.stored == p.stored && SamePictures(p.refs, q.refs)
                  && q.refs[i.value].review == Approved
                  && (forall j :: 0 <= j < |p.refs| && j != i.value ==> q.refs[j] == p.refs[j])
                  && (q.refs[i.value].primary <==>
                        p.refs[i.value].primary ||
                        forall j :: 0 <= j < |p.refs| && j != i.value && p.refs[j].primary ==>
                          p.refs[j].review != Approved))
  {
    hide Find;
    var i := Find(p.refs, id);
    if i.Some? && p.refs[i.value].review != Deleted && p.consent == Granted {
      var marked := p.refs[i.value := p.refs[i.value].(review := Approved)];
      assert marked[i.value] in marked;
      assert forall j :: 0 <= j < |marked| && j != i.value ==> marked[j] == p.refs[j] && marked[j] in marked;
    }
  }

  /** Rejecting and deleting: exactly that reference gets the new review and loses its role; rejecting needs
      granted consent, deleting does not. */
  lemma DropDoes(p: Profile, id: string, s: Step)
    requires s == Decide(id, false) || s == Remove(id)
    ensures var i := Find(p.refs, id);
            && (Perform(p, s).Ok? <==>
                  i.Some? && p.refs[i.value].review != Deleted && (s.Decide? ==> p.consent == Granted))
            && (Perform(p, s) == Err(NotFound) <==> i.None? || p.refs[i.value].review == Deleted)
            && Perform(p, s) != Err(BadRequest)
            && (Perform(p, s).Ok? ==>
                  var q := Next(p, s);
                  && q.consent == p.consent && q.revision == p.revision + 1 && q.policy == p.policy
                  && q.stored == p.stored && SamePictures(p.refs, q.refs)
                  && q.refs[i.value].review == (if s.Remove? then Deleted else Rejected)
                  && !q.refs[i.value].primary
                  && (forall j :: 0 <= j < |p.refs| && j != i.value ==> q.refs[j].review == p.refs[j].review))
  {
    hide Find, First;
  }

  /** Saving the policy is refused exactly if a revision is expected of a stored profile and it is not the
      current one; otherwise the new policy stands, with the old presets unless new ones were sent, and
      consent, status and references are untouched. */
  lemma SaveDoes(p: Profile, policy: Policy, withPresets: bool, expected: Option<int>)
    ensures var s := Save(policy, withPresets, expected);
            && (Perform(p, s).Ok? <==> !(p.stored && expected.Some? && expected.value != p.revision))
            && (Perform(p, s).Err? ==> Perform(p, s) == Err(Conflict))
            && (Perform(p, s).Ok? ==>
                  var q := Next(p, s);
                  && q.policy == policy.(presets := if withPresets then policy.presets else p.policy.presets)
                  && q.consent == p.consent && q.status == p.status && q.refs == p.refs && q.stored
                  && q.revision == p.revision + 1)
  {
  }

  // ---------------------------------------------------------------------------
  // Whole runs

  // What a planned request depends on
  datatype Facts = Facts(consent: Consent, status: Status, policy: Policy, approved: set<string>, primary: set<string>)

  function ApprovedIds(refs: seq<Reference>): set<string> {
    set r | r in refs && IsApproved(r) :: r.id
  }

  function PrimaryIds(refs: seq<Reference>): set<string> {
    set r | r in refs && r.primary :: r.id
  }

  function FactsOf(p: Profile): Facts {
    Facts(p.consent, p.status, p.policy, ApprovedIds(p.refs), PrimaryIds(p.refs))
  }

  lemma AddedIds(refs: seq<Reference>, r: Reference)
    requires r.review == Pending && !r.primary
    ensures ApprovedIds(refs + [r]) == ApprovedIds(refs) && PrimaryIds(refs + [r]) == PrimaryIds(refs)
  {
    assert forall x :: x in refs + [r] <==> x in refs || x == r;
  }

  lemma StepRevision(p: Profile, s: Step)
    ensures p.revision <= Next(p, s).revision <= p.revision + 1
    ensures Next(p, s).revision == p.revision ==> FactsOf(Next(p, s)) == FactsOf(p)
  {
    if s.Add? { AddedIds(p.refs, Reference(s.id, Pending, false, s.createdAt)); }
    hide Find, Approving, Dropping, Removed, ApprovedIds, PrimaryIds, AnyApproved;
  }

  ghost predicate IsRun(profiles: seq<Profile>, steps: seq<Step>) {
    && |profiles| == |steps| + 1 && profiles[0] == UNSTORED
    && forall i :: 0 <= i < |steps| ==> profiles[i + 1] == Next(profiles[i], steps[i])
  }

  lemma {:induction false} RunKeepsInv(profiles: seq<Profile>, steps: seq<Step>, k: nat)
    requires IsRun(profiles, steps) && k < |profiles|
    ensures Inv(profiles[k])
  {
    if k > 0 {
      RunKeepsInv(profiles, steps, k - 1);
      StepKeepsInv(profiles[k - 1], steps[k - 1]);
      hide Inv, Next;
    }
  }

  lemma StepStaysWithdrawn(p: Profile, s: Step)
    requires Inv(p) && p.stored && p.consent == Withdrawn && !(s.Grant? && s.attested)
    ensures Next(p, s).stored && Next(p, s).consent == Withdrawn
  {
    hide Find, First;
  }

  /** Withdrawal lasts: after a successful withdrawal the profile is disabled and all its references are deleted
      until consent is granted again. */
  lemma {:induction false} WithdrawalLasts(profiles: seq<Profile>, steps: seq<Step>, i: nat, k: nat)
    requires IsRun(profiles, steps) && i < k < |profiles| && steps[i] == Withdraw && profiles[i].stored
    requires forall j :: i < j < k ==> !(steps[j].Grant? && steps[j].attested)
    ensures profiles[k].stored && profiles[k].consent == Withdrawn && profiles[k].status == Disabled
    ensures forall r :: r in profiles[k].refs ==> r.review == Deleted
    decreases k
  {
    RunKeepsInv(profiles, steps, k);
    hide Next, Find;
    assert profiles[k] == Next(profiles[k - 1], steps[k - 1]);
    if k == i + 1 {
      WithdrawDoes(profiles[i]);
    } else {
      WithdrawalLasts(profiles, steps, i, k - 1);
      RunKeepsInv(profiles, steps, k - 1);
      StepStaysWithdrawn(profiles[k - 1], steps[k - 1]);
    }
  }

  lemma {:induction false} RevisionGrows(profiles: seq<Profile>, steps: seq<Step>, i: nat, k: nat)
    requires IsRun(profiles, steps) && i <= k < |profiles|
    ensures profiles[i].revision <= profiles[k].revision
    ensures profiles[i].revision == profiles[k].revision ==> FactsOf(profiles[i]) == FactsOf(profiles[k])
  {
    hide Next, FactsOf;
    if i < k {
      RevisionGrows(profiles, steps, i, k - 1);
      StepRevision(profiles[k - 1], steps[k - 1]);
      assert profiles[k] == Next(profiles[k - 1], steps[k - 1]);
    }
  }

  /** A request planned at one point of a run is checked at a later one: if the revision is the one it was
      planned with and the profile is active, then consent is granted, the profile was active already, and
      its policy, approved references and primary reference are those it was planned with. */
  lemma RevalidationIsSound(profiles: seq<Profile>, steps: seq<Step>, i: nat, k: nat)
    requires IsRun(profiles, steps) && i <= k < |profiles|
    requires profiles[i].revision == profiles[k].revision && profiles[k].status == Active
    ensures FactsOf(profiles[i]) == FactsOf(profiles[k])
    ensures profiles[i].consent == Granted && profiles[i].status == Active
    ensures AnyApproved(profiles[i].refs) && AnyPrimary(profiles[i].refs)
  {
    RevisionGrows(profiles, steps, i, k);
    RunKeepsInv(profiles, steps, i);
    hide IsRun, ApprovedIds, PrimaryIds;
  }

  // ---------------------------------------------------------------------------
  // The stored rows

  class VisualIdentity {
    var stored: bool
    var consent: Consent
    var status: Status
    var revision: nat
    var policy: Policy
    var refs: seq<Reference>

    ghost function View(): Profile
      reads this
    {
      Profile(stored, consent, status, revision, policy, refs)
    }

    constructor ()
      ensures View() == UNSTORED
    {
      stored, consent, status, revision, policy, refs := false, NotGranted, Draft, 1, DEFAULT_POLICY, [];
    }

    // The index of the reference with this id, or the number of references
    method IndexOf(id: string) returns (i: nat)
      ensures i <= |refs| && Find(refs, id) == if i < |refs| then Some(i) else None
    {
      i := 0;
      while i < |refs| && refs[i].id != id
        invariant i <= |refs|
        invariant forall j :: 0 <= j < i ==> refs[j].id != id
      {
        i := i + 1;
      }
    }

    // The first row of `approved_identity_references`, or the number of references
    method FirstApproved() returns (first: nat)
      ensures first <= |refs| && First(refs) == if first < |refs| then Some(first) else None
    {
      first := |refs|;
      var found := false;
      var i := 0;
      while i < |refs|
        invariant 0 <= i <= |refs| && found == First(refs[..i]).Some?
        invariant first == if found then First(refs[..i]).value else |refs|
      {
        assert refs[..i + 1][..i] == refs[..i];
        if IsApproved(refs[i]) && (!found || Before(refs[i], refs[first])) {
          first, found := i, true;
        }
        i := i + 1;
      }
      assert refs[..i] == refs;
    }

    method HasPrimary() returns (found: bool)
      ensures found == AnyPrimary(refs)
    {
      var i := 0;
      found := false;
      while i < |refs|
        invariant 0 <= i <= |refs| && found == AnyPrimary(refs[..i])
      {
        assert refs[..i + 1] == refs[..i] + [refs[i]];
        if IsApproved(refs[i]) && refs[i].primary {
          found := true;
        }
        i := i + 1;
      }
      assert refs[..i] == refs;
    }

    method SaveValues(values: Policy, withPresets: bool, expected: Option<int>) returns (r: Result<(), Error>)
      modifies this
      ensures var result := SaveProfile(old(View()), values, withPresets, expected);
              View() == Next(old(View()), Save(values, withPresets, expected)) && (r.Ok? <==> result.Ok?)
    {
      if stored && expected.Some? && expected.value != revision {
        return Err(Conflict);
      }
      stored := true;
      policy := values.(presets := if withPresets then values.presets else policy.presets);
      revision := revision + 1;
      r := Ok(());
    }

    method GiveConsent(attested: bool) returns (r: Result<(), Error>)
      modifies this
      ensures View() == Next(old(View()), Grant(attested)) && (r.Ok? <==> attested)
    {
      if !attested {
        return Err(BadRequest);
      }
      stored := true;
      consent := Granted;
      var first := FirstApproved();
      status := if first < |refs| then Active else Draft;
      revision := revision + 1;
      r := Ok(());
    }

    method RevokeConsent() returns (r: Result<(), Error>)
      modifies this
      ensures View() == Next(old(View()), Withdraw) && (r.Ok? <==> old(stored))
    {
      if !stored {
        return Err(NotFound);
      }
      consent, status, revision := Withdrawn, Disabled, revision + 1;
      var i := 0;
      while i < |refs|
        invariant 0 <= i <= |refs| == |old(refs)|
        invariant forall j :: 0 <= j < |refs| ==> refs[j] == if j < i then Removed(old(refs))[j] else old(refs)[j]
        invariant stored && consent == Withdrawn && status == Disabled
        invariant revision == old(revision) + 1 && policy == old(policy)
      {
        refs := refs[i := refs[i].(review := Deleted, primary := false)];
        i := i + 1;
      }
      assert refs == Removed(old(refs));
      r := Ok(());
    }

    method Attach(id: string, createdAt: int, attested: bool, sourceFound: bool) returns (r: Result<(), Error>)
      modifies `refs
      ensures View() == Next(old(View()), Add(id, createdAt, attested, sourceFound))
      ensures r.Ok? <==> Perform(old(View()), Add(id, createdAt, attested, sourceFound)).Ok?
    {
      if !attested {
        return Err(BadRequest);
      }
      if !stored || consent != Granted {
        return Err(Conflict);
      }
      if !sourceFound {
        return Err(NotFound);
      }
      refs := refs + [Reference(id, Pending, false, createdAt)];
      r := Ok(());
    }

    // `remaining[0].is_primary = 1`, if there is one; `any` says whether any approved reference is left
    method Promote(wanted: bool) returns (any: bool)
      modifies `refs
      ensures refs == if wanted then Promoted(old(refs)) else old(refs)
      ensures any == AnyApproved(old(refs))
    {
      var first := FirstApproved();
      any := first < |refs|;
      if wanted && any {
        refs := refs[first := refs[first].(primary := true)];
      }
    }

    // Takes the approval of a reference away and hands its primary role on.
    method Drop(i: nat, to: Review) returns (any: bool)
      requires i < |refs| && to != Approved
      modifies `refs
      ensures refs == Dropping(old(refs), i, to) && any == AnyApproved(refs)
    {
      var wasPrimary := refs[i].primary;
      refs := refs[i := refs[i].(review := to, primary := false)];
      ghost var marked := refs;
      any := Promote(wasPrimary);
      PromotedApproved(marked);
    }

    method Review(id: string, approve: bool) returns (r: Result<(), Error>)
      modifies this
      ensures View() == Next(old(View()), Decide(id, approve))
      ensures r.Ok? <==> Perform(old(View()), Decide(id, approve)).Ok?
    {
      var i := IndexOf(id);
      if i == |refs| || refs[i].review == Deleted {
        return Err(NotFound);
      }
      if consent != Granted {
        return Err(Conflict);
      }
      if approve {
        refs := refs[i := refs[i].(review := Approved)];
        var primary := HasPrimary();
        if !primary {
          refs := refs[i := refs[i].(primary := true)];
        }
        status := Active;
      } else {
        var any := Drop(i, Rejected);
        if !any {
          status := Draft;
        }
      }
      revision := revision + 1;
      r := Ok(());
    }

    method Delete(id: string) returns (r: Result<(), Error>)
      modifies this
      ensures View() == Next(old(View()), Step.Remove(id))
      ensures r.Ok? <==> Perform(old(View()), Step.Remove(id)).Ok?
    {
      var i := IndexOf(id);
      if i == |refs| || refs[i].review == Deleted {
        return Err(NotFound);
      }
      var any := Drop(i, Deleted);
      if !any {
        status := if consent == Granted then Draft else Disabled;
      }
      revision := revision + 1;
      r := Ok(());
    }
  }

  lemma PromotedApproved(refs: seq<Reference>)
    ensures AnyApproved(Promoted(refs)) <==> AnyApproved(refs)
  {
    var first := First(refs);
    if first.Some? {
      assert Promoted(refs)[first.value] in Promoted(refs);
    }
  }
}
