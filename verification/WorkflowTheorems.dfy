/** What holds in every reachable state of the editorial workflow. */
module WorkflowTheorems {
  import opened Common
  import opened Workflow
  import opened WorkflowInvariant
  import opened WorkflowSteps
  import P = PublicationProtocol
  import PW = PublicationRows
  import R = ReviewChain
  import RP = ReviewChainProofs
  import RT = ReviewChainTheorems

  lemma Reached(actions: seq<Action>)
    requires CanRun(EMPTY, actions)
    ensures Inv(Run(EMPTY, actions))
  {
    assert Inv(EMPTY);
    RunKeeps(EMPTY, actions);
  }

  // ----- workspace pinning -----

  /** While a job is REQUESTED, ASSEMBLING, PROMOTING, VERIFYING or
      RECOVERY_REQUIRED its workspace is frozen, so no fence test on it fails. */
  lemma {:induction false} WorkspacePinned(actions: seq<Action>, p: nat)
    requires CanRun(EMPTY, actions) && p < |Run(EMPTY, actions).publications|
    requires Pinning(Run(EMPTY, actions).publications[p].state)
    ensures var s := Run(EMPTY, actions); var job := s.publications[p];
      && FenceHolds(s, p)
      && s.checkouts[job.checkout].draft == job.draft < |s.drafts|
      && s.drafts[job.draft].active
      && Latest(s.drafts[job.draft].revisions).Some?
      && Latest(s.drafts[job.draft].revisions).value.id == job.targetRevision
      && Latest(s.drafts[job.draft].revisions).value.hash == job.targetHash
      && !ReviewUnderway(s.reviews, job.situation)
  {
    Reached(actions);
    var s := Run(EMPTY, actions);
    var job := s.publications[p];
    assert Pinned(job, s.fences, s.drafts, s.checkouts, s.reviews);
    assert CheckoutOk(s.checkouts[job.checkout], s.fences, s.drafts);
    assert DraftOk(s.drafts[job.draft], s.nextRevision);
    LatestIsHead(s.drafts[job.draft], s.nextRevision);
  }

  /** finalizeSuccess of a VERIFYING job is never fenced: it succeeds, releases the
      checkout and archives the draft. */
  lemma {:induction false} FinalizationNeverFenced(actions: seq<Action>, p: nat)
    requires CanRun(EMPTY, actions) && p < |Run(EMPTY, actions).publications|
    requires Run(EMPTY, actions).publications[p].state == P.Verifying
    ensures var s := Run(EMPTY, actions); var s' := FinalizeSuccess(s, p); var job := s.publications[p];
      && s'.publications[p].state == P.Succeeded
      && |s'.checkouts| == |s.checkouts| && job.checkout < |s.checkouts| && s'.checkouts[job.checkout].released
      && |s'.drafts| == |s.drafts| && job.draft < |s.drafts| && !s'.drafts[job.draft].active
      && s'.drafts[job.draft].revisions == s.drafts[job.draft].revisions
  {
    WorkspacePinned(actions, p);
  }

  /** A publication is accepted exactly when nothing is recovered, the sealed receipt
      matches, and either it was accepted before, or the editor holds the checkout, names
      the head of its draft, nothing is published or reviewed there, and runtime, base
      and backup do not refuse. */
  lemma {:induction false} PublishExact(actions: seq<Action>, preflight: Preflight, receipt: nat, actor: nat, c: nat, fence: nat, revision: nat, hash: Hash)
    requires CanRun(EMPTY, actions)
    ensures var s := Run(EMPTY, actions);
      RequestPublication(s, preflight, receipt, actor, c, fence, revision, hash).error.None? <==>
        && !RecoveryPending(s.publications) && preflight.found && preflight.matches
        && (|| Requested(s.publications, receipt)
            || (HoldsCheckout(s.checkouts, c, actor, fence)
                && s.checkouts[c].draft < |s.drafts| && |s.drafts[s.checkouts[c].draft].revisions| > 0
                && Head(s.drafts[s.checkouts[c].draft]).id == revision && Head(s.drafts[s.checkouts[c].draft]).hash == hash
                && !PublicationUnderway(s.publications, s.checkouts[c].situation)
                && !ReviewUnderway(s.reviews, s.checkouts[c].situation)
                && preflight.early.None? && preflight.late.None?))
  {
    Reached(actions);
    var s := Run(EMPTY, actions);
    if HoldsCheckout(s.checkouts, c, actor, fence) {
      assert CheckoutOk(s.checkouts[c], s.fences, s.drafts);
      var draft := s.drafts[s.checkouts[c].draft];
      assert DraftOk(draft, s.nextRevision);
      var target := FindRevision(draft.revisions, revision);
      if target.Some? && target.value.number == draft.currentNumber {
        TargetIsHead(draft, s.nextRevision, revision);
      }
      if Head(draft).id == revision {
        HeadIsFound(s, s.checkouts[c].draft);
      }
    }
    hide Inv, RecoveryPending, PublicationUnderway, ReviewUnderway, Requested;
  }

  lemma HeadIsFound(s: State, d: nat)
    requires Inv(s) && d < |s.drafts|
    ensures |s.drafts[d].revisions| > 0
    ensures FindRevision(s.drafts[d].revisions, Head(s.drafts[d]).id) == Some(Head(s.drafts[d]))
  {
    var draft := s.drafts[d];
    assert DraftOk(draft, s.nextRevision);
    var found := FindRevision(draft.revisions, Head(draft).id);
    assert Head(draft) in draft.revisions;
    var i :| 0 <= i < |draft.revisions| && draft.revisions[i] == found.value;
    assert s.drafts[d].revisions[i].id == s.drafts[d].revisions[|draft.revisions| - 1].id;
  }

  // ----- drafts and proposals -----

  /** Revisions are numbered 1..n in a chain of parents, the cached head is right,
      and a proposal that is not superseded targets the head of its own draft. */
  lemma {:induction false} DraftsAndProposals(actions: seq<Action>)
    requires CanRun(EMPTY, actions)
    ensures var s := Run(EMPTY, actions);
      && (forall d :: 0 <= d < |s.drafts| ==>
            var revisions := s.drafts[d].revisions;
            && |revisions| == s.drafts[d].currentNumber > 0
            && s.drafts[d].currentHash == Some(revisions[|revisions| - 1].hash)
            && (forall i :: 0 <= i < |revisions| ==> revisions[i].number == i + 1)
            && revisions[0].parent.None?
            && (forall i :: 0 < i < |revisions| ==> revisions[i].parent == Some(revisions[i - 1].id)))
      && (forall q :: 0 <= q < |s.proposals| && !s.proposals[q].superseded ==>
            && s.proposals[q].draft < |s.drafts| && |s.drafts[s.proposals[q].draft].revisions| > 0
            && Head(s.drafts[s.proposals[q].draft]).id == s.proposals[q].currentRevision
            && Head(s.drafts[s.proposals[q].draft]).hash == s.proposals[q].currentHash)
  {
    Reached(actions);
    var s := Run(EMPTY, actions);
    forall d | 0 <= d < |s.drafts|
      ensures DraftOk(s.drafts[d], s.nextRevision)
    {
    }
    forall q | 0 <= q < |s.proposals|
      ensures ProposalOk(s.proposals[q], s.drafts, s.reviews)
    {
    }
    hide DraftsOk, WorkspacesOk, ReviewsOk, PinsOk;
  }

  /** The proposal belonged to the checked-out draft and targeted its head; the
      result is the new head, or the same head when nothing changed. */
  predicate LandsOnHead(s: State, s': State, d: nat, q: nat, revision: nat, hash: Hash) {
    && d < |s.drafts| && |s'.drafts| == |s.drafts| && q < |s.proposals| && |s'.proposals| == |s.proposals|
    && s.proposals[q].draft == d && !s.proposals[q].superseded
    && |s.drafts[d].revisions| > 0 && Head(s.drafts[d]).id == revision
    && |s'.drafts[d].revisions| > 0 && Head(s'.drafts[d]).hash == hash
    && (s'.drafts[d] == s.drafts[d] || Head(s'.drafts[d]).parent == Some(revision))
    && s'.proposals[q].currentRevision == Head(s'.drafts[d]).id && !s'.proposals[q].superseded
  }

  /** No other proposal of a revised draft stays open. */
  predicate OthersSuperseded(s: State, s': State, d: nat, q: nat)
    requires d < |s.drafts| && |s'.drafts| == |s.drafts| && |s'.proposals| == |s.proposals|
  {
    s'.drafts[d] != s.drafts[d] ==>
      forall z :: 0 <= z < |s.proposals| && z != q && s.proposals[z].draft == d ==> s'.proposals[z].superseded
  }

  /** An accepted suggestion lands on the head of the draft its proposal reviewed;
      when a revision is made, it follows that head and no other proposal of the
      draft stays open. */
  lemma {:induction false} AcceptedLandsOnHead(actions: seq<Action>, actor: nat, c: nat, fence: nat, q: nat,
                                               revision: nat, rhash: Hash, hash: Hash)
    requires CanRun(EMPTY, actions)
    requires AcceptChanges(Run(EMPTY, actions), actor, c, fence, q, revision, rhash, hash).error.None?
    ensures var s := Run(EMPTY, actions); var s' := AcceptChanges(s, actor, c, fence, q, revision, rhash, hash).state;
      && c < |s.checkouts|
      && LandsOnHead(s, s', s.checkouts[c].draft, q, revision, hash)
      && OthersSuperseded(s, s', s.checkouts[c].draft, q)
  {
    Reached(actions);
    hide Inv, AcceptChanges;
    AcceptLands(Run(EMPTY, actions), actor, c, fence, q, revision, rhash, hash);
  }

  /** What a successful acceptance has checked and done. */
  lemma AcceptedSteps(s: State, actor: nat, c: nat, fence: nat, q: nat, revision: nat, rhash: Hash, hash: Hash)
    requires Inv(s) && AcceptChanges(s, actor, c, fence, q, revision, rhash, hash).error.None?
    ensures c < |s.checkouts| && s.checkouts[c].draft < |s.drafts| && q < |s.proposals|
    ensures var d := s.checkouts[c].draft; var made := CreateRevision(s, d, hash, Some((revision, rhash)), Some(q));
      && DraftOk(s.drafts[d], s.nextRevision) && s.proposals[q].draft == d && !s.proposals[q].superseded
      && Head(s.drafts[d]).id == revision
      && made.revision.Some? && q < |made.state.proposals|
      && AcceptChanges(s, actor, c, fence, q, revision, rhash, hash).state == made.state.(proposals := made.state.proposals[
           q := made.state.proposals[q].(currentRevision := made.revision.value.id, currentHash := made.revision.value.hash)])
  {
    var d := s.checkouts[c].draft;
    assert DraftOk(s.drafts[d], s.nextRevision);
    LatestIsHead(s.drafts[d], s.nextRevision);
    hide Latest, CreateRevision;
    AcceptableIsOwn(s, d, q);
  }

  lemma AcceptLands(s: State, actor: nat, c: nat, fence: nat, q: nat, revision: nat, rhash: Hash, hash: Hash)
    requires Inv(s) && AcceptChanges(s, actor, c, fence, q, revision, rhash, hash).error.None?
    ensures c < |s.checkouts|
    ensures var s' := AcceptChanges(s, actor, c, fence, q, revision, rhash, hash).state; var d := s.checkouts[c].draft;
      LandsOnHead(s, s', d, q, revision, hash) && OthersSuperseded(s, s', d, q)
  {
    AcceptedSteps(s, actor, c, fence, q, revision, rhash, hash);
    var d := s.checkouts[c].draft;
    var expected := Some((revision, rhash));
    CreateRevisionKeeps(s, d, hash, expected, Some(q));
    RevisionFollows(s, d, hash, expected, Some(q));
    OpenTargetsHead(s, d);
    var made := CreateRevision(s, d, hash, expected, Some(q));
    var s' := AcceptChanges(s, actor, c, fence, q, revision, rhash, hash).state;
    hide Inv, DraftOk, CreateRevision, AcceptChanges;
    LandsFromMade(s, d, q, hash, expected, made, s');
    OthersFromMade(s, d, q, hash, expected, made, s');
  }

  lemma OpenTargetsHead(s: State, d: nat)
    requires Inv(s) && d < |s.drafts| && |s.drafts[d].revisions| > 0
    ensures forall z :: 0 <= z < |s.proposals| && s.proposals[z].draft == d ==>
      s.proposals[z].superseded || s.proposals[z].currentRevision == Head(s.drafts[d]).id
  {
    forall z | 0 <= z < |s.proposals|
      ensures ProposalOk(s.proposals[z], s.drafts, s.reviews)
    {
    }
  }

  /** `made` is the created revision and `s'` the state after the proposal follows it. */
  predicate Followed(s: State, d: nat, q: nat, hash: Hash, expected: Option<(nat, Hash)>, made: Revised, s': State) {
    && d < |s.drafts| && q < |s.proposals| && |s.drafts[d].revisions| > 0
    && s.proposals[q].draft == d && !s.proposals[q].superseded
    && RevisionMade(s, d, hash, expected, Some(q), made) && made.revision.Some?
    && s' == made.state.(proposals := made.state.proposals[
         q := made.state.proposals[q].(currentRevision := made.revision.value.id, currentHash := made.revision.value.hash)])
    && (made.state.drafts[d] == s.drafts[d] ||
          (Head(made.state.drafts[d]).parent == Some(Head(s.drafts[d]).id) && Head(made.state.drafts[d]) != Head(s.drafts[d])))
  }

  lemma LandsFromMade(s: State, d: nat, q: nat, hash: Hash, expected: Option<(nat, Hash)>, made: Revised, s': State)
    requires Followed(s, d, q, hash, expected, made, s')
    ensures LandsOnHead(s, s', d, q, Head(s.drafts[d]).id, hash)
  {
  }

  lemma OthersFromMade(s: State, d: nat, q: nat, hash: Hash, expected: Option<(nat, Hash)>, made: Revised, s': State)
    requires Followed(s, d, q, hash, expected, made, s')
    requires forall z :: 0 <= z < |s.proposals| && s.proposals[z].draft == d ==>
      s.proposals[z].superseded || s.proposals[z].currentRevision == Head(s.drafts[d]).id
    ensures |s'.drafts| == |s.drafts| && |s'.proposals| == |s.proposals| && OthersSuperseded(s, s', d, q)
  {
  }

  lemma RevisionFollows(s: State, d: nat, hash: Hash, expected: Option<(nat, Hash)>, preserve: Option<nat>)
    requires d < |s.drafts| && DraftOk(s.drafts[d], s.nextRevision)
    ensures var made := CreateRevision(s, d, hash, expected, preserve);
      && |made.state.drafts| == |s.drafts| && |made.state.drafts[d].revisions| > 0
      && (made.state.drafts[d] == s.drafts[d] ||
            (Head(made.state.drafts[d]).parent == Some(Head(s.drafts[d]).id) && Head(made.state.drafts[d]) != Head(s.drafts[d])))
  {
    LatestIsHead(s.drafts[d], s.nextRevision);
  }

  // ----- the focused review lane -----

  /** At most one review owns the lane; a RUNNING review does, a finished one never
      does, and the checkout of an owner is active. */
  lemma {:induction false} LaneRules(actions: seq<Action>)
    requires CanRun(EMPTY, actions)
    ensures var s := Run(EMPTY, actions);
      && (forall r, q :: 0 <= r < |s.reviews| && 0 <= q < |s.reviews| && s.reviews[r].job.laneOwner && s.reviews[q].job.laneOwner ==> r == q)
      && (forall r :: 0 <= r < |s.reviews| && s.reviews[r].job.state == R.Running ==> s.reviews[r].job.laneOwner)
      && (forall r :: 0 <= r < |s.reviews| && s.reviews[r].job.laneOwner ==>
            ActiveReview(s.reviews[r].job.state) && CheckoutActive(s.checkouts, s.reviews[r]))
  {
    Reached(actions);
    var s := Run(EMPTY, actions);
    OwnerIsSelectable(s);
    forall r | 0 <= r < |s.reviews|
      ensures ReviewOk(s.reviews[r], s.checkouts, |s.drafts|)
    {
    }
    hide DraftsOk, WorkspacesOk, ProposalsOk, PinsOk;
  }

  /** An owner that waits for an automatic retry, or runs under a live lease, keeps
      every other review from starting: claiming changes nothing at all. */
  lemma {:induction false} OwnerBlocksTheLane(actions: seq<Action>, r: nat, now: int, leaseMs: int)
    requires CanRun(EMPTY, actions) && r < |Run(EMPTY, actions).reviews|
    requires Run(EMPTY, actions).reviews[r].job.laneOwner && MustWait(Run(EMPTY, actions).reviews[r].job, now)
    ensures ClaimNextReview(Run(EMPTY, actions), now, leaseMs) == Run(EMPTY, actions)
  {
    Reached(actions);
    var s := Run(EMPTY, actions);
    OwnerIsSelectable(s);
    OthersDoNotOwn(s, r);
  }

  /** What claiming may do to one review. */
  predicate RightlyClaimed(s: State, r: nat, after: R.Job, now: int)
    requires r < |s.reviews|
  {
    var job := s.reviews[r].job;
    && (job.laneOwner || (job.state == R.Queued
          && (forall q :: 0 <= q < |s.reviews| ==> !s.reviews[q].job.laneOwner)
          && (forall q :: 0 <= q < r && s.reviews[q].job.state == R.Queued ==> !CheckoutActive(s.checkouts, s.reviews[q]))))
    && after.laneOwner
    && (after.state == R.Running ==> after.claimToken == Some(s.nextToken) && !MustWait(job, now))
  }

  /** Otherwise the one that starts is the owner, or the oldest queued review when there is none. */
  lemma {:induction false} ClaimTakesTheRightOne(actions: seq<Action>, now: int, leaseMs: int, r: nat)
    requires CanRun(EMPTY, actions) && r < |Run(EMPTY, actions).reviews|
    ensures var s := Run(EMPTY, actions); var s' := ClaimNextReview(s, now, leaseMs);
      |s'.reviews| == |s.reviews| && (s'.reviews[r] != s.reviews[r] ==> RightlyClaimed(s, r, s'.reviews[r].job, now))
  {
    Reached(actions);
    var s := Run(EMPTY, actions);
    OwnerIsSelectable(s);
    hide Inv;
    ClaimChoice(s, now, leaseMs, r);
  }

  lemma ClaimChoice(s: State, now: int, leaseMs: int, r: nat)
    requires forall q :: 0 <= q < |s.reviews| && s.reviews[q].job.laneOwner ==> Selectable(s, q)
    requires r < |s.reviews|
    ensures var s' := ClaimNextReview(s, now, leaseMs);
      |s'.reviews| == |s.reviews| && (s'.reviews[r] != s.reviews[r] ==> RightlyClaimed(s, r, s'.reviews[r].job, now))
  {
    var focus := Focus(s);
    var owner := LaneOwner(s.reviews, 0);
    var next := NextQueued(s.reviews, s.checkouts, 0);
    if owner < |s.reviews| {
      assert focus == (s, Some(owner));
    } else if next < |s.reviews| {
      assert focus == (SetReviewJob(s, next, s.reviews[next].job.(laneOwner := true)), Some(next));
    } else {
      assert focus == (s, None);
    }
  }

  /** publication_jobs_one_pointer_transaction. */
  predicate OnePointerJob(publications: seq<Publication>) {
    forall p, q :: 0 <= p < q < |publications| ==> !(P.PointerPhase(publications[p].state) && P.PointerPhase(publications[q].state))
  }

  /** What any other transaction does to the publication rows: nothing, or one request more. */
  lemma RequestsOnly(s: State, a: Action)
    requires Enabled(s, a) && !a.Move? && !a.Finalize?
    ensures |s.publications| <= |Apply(s, a).publications| && Apply(s, a).publications[..|s.publications|] == s.publications
    ensures forall p :: |s.publications| <= p < |Apply(s, a).publications| ==> Apply(s, a).publications[p].state == P.Requested
  {
    if a.ReturnCheckout? || a.ForceReturn? || a.Queue? || a.StopReview? || a.Resume? || a.ClaimReview? || a.WorkReview? || a.WakeLate? {
      ReviewsOnly(s, a);
      hide Apply, Enabled;
    } else if a.ImportSituation? || a.NewSituation? || a.TakeCheckout? {
      WorkspacesOnly(s, a);
      hide Apply, Enabled;
    } else if a.Save? || a.Restart? {
      DraftsOnly(s, a);
      hide Apply, Enabled;
    } else if a.Propose? || a.Accept? {
      ProposalsOnly(s, a);
      hide Apply, Enabled;
    } else {
      PublishOnly(s, a);
      hide Apply, Enabled;
    }
  }

  lemma ReviewsOnly(s: State, a: Action)
    requires Enabled(s, a)
    requires a.ReturnCheckout? || a.ForceReturn? || a.Queue? || a.StopReview? || a.Resume? || a.ClaimReview? || a.WorkReview? || a.WakeLate?
    ensures Apply(s, a).publications == s.publications
  {
    hide Latest, PublicationGuard, ReviewUnderway, FocusedReview, LaneOwner, NextQueued, LeaveLane, CancelAll, Selectable, MustWait,
      R.Advance, R.Apply, R.StepEnabled, R.Cancel, R.ManualRetry, R.Claim;
  }

  lemma WorkspacesOnly(s: State, a: Action)
    requires Enabled(s, a) && (a.ImportSituation? || a.NewSituation? || a.TakeCheckout?)
    ensures Apply(s, a).publications == s.publications && Apply(s, a).reviews == s.reviews
  {
    hide Latest, PublicationGuard, ActiveDraftOf, ActiveCheckoutOf;
  }

  lemma DraftsOnly(s: State, a: Action)
    requires Enabled(s, a) && (a.Save? || a.Restart?)
    ensures Apply(s, a).publications == s.publications && Apply(s, a).reviews == s.reviews
  {
    match a
    case Save(actor, c, fence, expected, hash, content) => SaveLeaves(s, actor, c, fence, expected, hash, content);
    case Restart(actor, c, fence, restoring, hash) => RestartLeaves(s, actor, c, fence, restoring, hash);
    case _ =>
    hide SaveDraft, StartOver;
  }

  lemma RevisionLeaves(s: State, d: nat, hash: Hash, expected: Option<(nat, Hash)>, preserve: Option<nat>)
    requires d < |s.drafts|
    ensures var next := CreateRevision(s, d, hash, expected, preserve).state;
      next.publications == s.publications && next.reviews == s.reviews && next.checkouts == s.checkouts
  {
    hide Latest, Supersede;
  }

  lemma SaveLeaves(s: State, actor: nat, c: nat, fence: nat, expected: Option<(nat, Hash)>, hash: Hash, content: Option<Error>)
    ensures var next := SaveDraft(s, actor, c, fence, expected, hash, content).state;
      next.publications == s.publications && next.reviews == s.reviews
  {
    hide CreateRevision, PublicationGuard;
    if c < |s.checkouts| && s.checkouts[c].draft < |s.drafts| {
      RevisionLeaves(s, s.checkouts[c].draft, hash, expected, None);
    }
  }

  lemma RestartLeaves(s: State, actor: nat, c: nat, fence: nat, restoring: bool, hash: Hash)
    ensures var next := StartOver(s, actor, c, fence, restoring, hash).state;
      next.publications == s.publications && next.reviews == s.reviews
  {
    hide PublicationGuard, ReviewUnderway, Latest;
  }

  lemma ProposalsOnly(s: State, a: Action)
    requires Enabled(s, a) && (a.Propose? || a.Accept?)
    ensures Apply(s, a).publications == s.publications
  {
    match a
    case Propose(r) => MaterializeLeaves(s, r);
    case Accept(actor, c, fence, q, revision, rhash, hash) => AcceptLeaves(s, actor, c, fence, q, revision, rhash, hash);
    case _ =>
    hide Materialize, AcceptChanges;
  }

  lemma MaterializeLeaves(s: State, r: nat)
    requires r < |s.reviews| && R.StepEnabled(s.reviews[r].job, R.MaterializeSucceeds) && s.reviews[r].draft < |s.drafts|
    ensures Materialize(s, r).publications == s.publications
  {
    hide Latest, R.StepEnabled, R.Complete;
  }

  lemma AcceptLeaves(s: State, actor: nat, c: nat, fence: nat, q: nat, revision: nat, rhash: Hash, hash: Hash)
    ensures var next := AcceptChanges(s, actor, c, fence, q, revision, rhash, hash).state;
      next.publications == s.publications && next.reviews == s.reviews
  {
    hide CreateRevision, PublicationGuard, FindRevision, Latest;
    if c < |s.checkouts| && s.checkouts[c].draft < |s.drafts| {
      RevisionLeaves(s, s.checkouts[c].draft, hash, Some((revision, rhash)), Some(q));
    }
  }

  lemma PublishOnly(s: State, a: Action)
    requires Enabled(s, a) && a.Publish?
    ensures |s.publications| <= |Apply(s, a).publications| && Apply(s, a).publications[..|s.publications|] == s.publications
    ensures forall p :: |s.publications| <= p < |Apply(s, a).publications| ==> Apply(s, a).publications[p].state == P.Requested
  {
    hide FindRevision, Latest, RecoveryPending, ReviewUnderway, PublicationUnderway, Requested;
  }

  lemma KeepsOnePointer(s: State, a: Action)
    requires OnePointerJob(s.publications) && Enabled(s, a)
    ensures OnePointerJob(Apply(s, a).publications)
  {
    if !a.Move? && !a.Finalize? {
      RequestsOnly(s, a);
      hide Apply, Enabled;
      var before, after := s.publications, Apply(s, a).publications;
      assert forall p :: 0 <= p < |before| ==> after[p] == after[..|before|][p];
    }
  }

  lemma {:induction false} RunKeepsOnePointer(s: State, actions: seq<Action>)
    requires OnePointerJob(s.publications) && CanRun(s, actions)
    ensures OnePointerJob(Run(s, actions).publications)
    decreases |actions|
  {
    hide OnePointerJob, Apply, Enabled;
    if actions != [] {
      KeepsOnePointer(s, actions[0]);
      RunKeepsOnePointer(Apply(s, actions[0]), actions[1..]);
    }
  }

  /** In every run each partial unique index of the workflow's tables holds: those that
      the transactions test, and those that their other tests make hold. */
  lemma {:induction false} UniqueIndexesHold(actions: seq<Action>)
    requires CanRun(EMPTY, actions)
    ensures var s := Run(EMPTY, actions);
      && (forall c, e :: 0 <= c < e < |s.checkouts| && !s.checkouts[c].released && !s.checkouts[e].released ==>
            s.checkouts[c].situation != s.checkouts[e].situation)
      && (forall d, e :: 0 <= d < e < |s.drafts| && s.drafts[d].active && s.drafts[e].active ==>
            s.drafts[d].situation != s.drafts[e].situation)
      && (forall r, q :: 0 <= r < q < |s.reviews| && ActiveReview(s.reviews[r].job.state) && ActiveReview(s.reviews[q].job.state) ==>
            s.reviews[r].situation != s.reviews[q].situation)
      && (forall r, q :: 0 <= r < q < |s.reviews| ==> !(s.reviews[r].job.state == R.Running && s.reviews[q].job.state == R.Running))
      && (forall r, q :: 0 <= r < q < |s.reviews| ==> !(s.reviews[r].job.laneOwner && s.reviews[q].job.laneOwner))
      && (forall p, q :: 0 <= p < q < |s.publications| && Pinning(s.publications[p].state) && Pinning(s.publications[q].state) ==>
            s.publications[p].situation != s.publications[q].situation)
      && OnePointerJob(s.publications)
  {
    Reached(actions);
    LaneRules(actions);
    RunKeepsOnePointer(EMPTY, actions);
    hide DraftsOk, ProposalsOk, Pinned, ReviewOk, CheckoutOk;
  }

  // ----- each review is a run of its chain -----

  /** What the chain of a review needs from one action of the workflow. */
  predicate Granted(s: State, a: Action)
    requires Enabled(s, a)
  {
    && (a.WorkReview? ==> RP.Granted(s.reviews[a.r].job, R.Work(a.step)))
    && (a.WakeLate? ==> RP.Granted(s.reviews[a.r].job, R.LateDependents(a.process)))
  }

  predicate GrantedRun(s: State, actions: seq<Action>)
    requires CanRun(s, actions)
    decreases |actions|
  {
    actions == [] || (Granted(s, actions[0]) && GrantedRun(Apply(s, actions[0]), actions[1..]))
  }

  /** The job is reached by a run of its own chain, by a granted one if `granted`. */
  ghost predicate ByChain(job: R.Job, granted: bool) {
    exists chain ::
      R.CanRun(R.NewJob(), chain) && (granted ==> RP.GrantedRun(R.NewJob(), chain)) && R.Run(R.NewJob(), chain) == job
  }

  lemma {:induction false} ChainThen(job: R.Job, chain: seq<R.Action>, a: R.Action, granted: bool)
    requires R.CanRun(job, chain) && (granted ==> RP.GrantedRun(job, chain))
    requires R.Enabled(R.Run(job, chain), a) && (granted ==> RP.Granted(R.Run(job, chain), a))
    ensures R.CanRun(job, chain + [a]) && (granted ==> RP.GrantedRun(job, chain + [a]))
    ensures R.Run(job, chain + [a]) == R.Apply(R.Run(job, chain), a)
    decreases |chain|
  {
    hide R.Apply, R.Enabled, RP.Granted;
    if chain == [] {
      assert [] + [a] == [a];
    } else {
      ChainThen(R.Apply(job, chain[0]), chain[1..], a, granted);
      assert (chain + [a])[1..] == chain[1..] + [a];
    }
  }

  lemma ByChainThen(job: R.Job, a: R.Action, granted: bool)
    requires ByChain(job, granted) && R.Enabled(job, a) && (granted ==> RP.Granted(job, a))
    ensures ByChain(R.Apply(job, a), granted)
  {
    hide R.Apply, R.Enabled, RP.Granted;
    var chain :| R.CanRun(R.NewJob(), chain) && (granted ==> RP.GrantedRun(R.NewJob(), chain)) && R.Run(R.NewJob(), chain) == job;
    ChainThen(R.NewJob(), chain, a, granted);
  }

  lemma ByChainStart(granted: bool)
    ensures ByChain(R.NewJob(), granted)
  {
    assert R.Run(R.NewJob(), []) == R.NewJob();
  }

  ghost predicate AllByChain(reviews: seq<Review>, granted: bool) {
    forall r :: 0 <= r < |reviews| ==> ByChain(reviews[r].job, granted)
  }

  lemma OneByChain(s: State, r: nat, a: R.Action, granted: bool)
    requires AllByChain(s.reviews, granted) && r < |s.reviews| && R.Enabled(s.reviews[r].job, a)
    requires granted ==> RP.Granted(s.reviews[r].job, a)
    ensures AllByChain(SetReviewJob(s, r, R.Apply(s.reviews[r].job, a)).reviews, granted)
  {
    ByChainThen(s.reviews[r].job, a, granted);
    hide ByChain, R.Apply, R.Enabled, RP.Granted;
  }

  lemma LeaveLaneByChain(s: State, c: nat, granted: bool)
    requires AllByChain(s.reviews, granted)
    requires forall r :: 0 <= r < |s.reviews| && s.reviews[r].checkout == c ==> !ActiveReview(s.reviews[r].job.state)
    ensures AllByChain(LeaveLane(s.reviews, c), granted)
  {
    forall r | 0 <= r < |s.reviews|
      ensures ByChain(LeaveLane(s.reviews, c)[r].job, granted)
    {
      if s.reviews[r].checkout == c {
        ByChainThen(s.reviews[r].job, R.DropLane, granted);
      }
    }
  }

  lemma CancelAllByChain(s: State, c: nat, granted: bool)
    requires AllByChain(s.reviews, granted)
    ensures AllByChain(CancelAll(s.reviews, c), granted)
  {
    forall r | 0 <= r < |s.reviews|
      ensures ByChain(CancelAll(s.reviews, c)[r].job, granted)
    {
      if s.reviews[r].checkout == c && Stoppable(s.reviews[r].job.state) {
        ByChainThen(s.reviews[r].job, R.CancelJob, granted);
      }
    }
  }

  lemma FocusByChain(s: State, granted: bool)
    requires Inv(s) && AllByChain(s.reviews, granted)
    ensures AllByChain(Focus(s).0.reviews, granted)
  {
    OwnerIsSelectable(s);
    hide Inv, ByChain;
    var owner := LaneOwner(s.reviews, 0);
    var next := NextQueued(s.reviews, s.checkouts, 0);
    if !Selectable(s, owner) && next < |s.reviews| {
      OneByChain(s, next, R.TakeLane, granted);
    }
  }

  lemma ClaimByChain(s: State, now: int, leaseMs: int, granted: bool)
    requires Inv(s) && AllByChain(s.reviews, granted)
    ensures AllByChain(ClaimNextReview(s, now, leaseMs).reviews, granted)
  {
    FocusKeeps(s);
    FocusByChain(s, granted);
    hide Inv, AllByChain, Focus;
    var focus := Focus(s);
    if focus.1.Some? {
      OneByChain(focus.0, focus.1.value, R.ClaimJob(s.nextToken, now, leaseMs), granted);
    }
  }

  /** The actions that do not touch a review row. */
  lemma OtherTablesOnly(s: State, a: Action)
    requires Enabled(s, a)
    requires !a.ReturnCheckout? && !a.ForceReturn? && !a.Queue? && !a.StopReview? && !a.Resume?
    requires !a.ClaimReview? && !a.WorkReview? && !a.WakeLate? && !a.Propose?
    ensures Apply(s, a).reviews == s.reviews
  {
    if a.ImportSituation? || a.NewSituation? || a.TakeCheckout? {
      WorkspacesOnly(s, a);
      hide Apply, Enabled;
    } else if a.Save? || a.Restart? {
      DraftsOnly(s, a);
      hide Apply, Enabled;
    } else {
      PublisherOnly(s, a);
      hide Apply, Enabled;
    }
  }

  lemma PublisherOnly(s: State, a: Action)
    requires Enabled(s, a) && (a.Accept? || a.Publish? || a.Move? || a.Finalize?)
    ensures Apply(s, a).reviews == s.reviews
  {
    hide FindRevision, Latest, FenceHolds, SlotFree, PublicationGuard, RecoveryPending, ReviewUnderway, AcceptChanges;
    if a.Accept? {
      AcceptLeaves(s, a.actor, a.c, a.fence, a.q, a.revision, a.rhash, a.hash);
    }
  }

  lemma CheckInByChain(s: State, actor: nat, c: nat, fence: nat, granted: bool)
    requires Inv(s) && AllByChain(s.reviews, granted)
    ensures AllByChain(CheckIn(s, actor, c, fence).state.reviews, granted)
  {
    hide ByChain;
    if CheckIn(s, actor, c, fence).error.None? {
      forall r | 0 <= r < |s.reviews| && s.reviews[r].checkout == c
        ensures !ActiveReview(s.reviews[r].job.state)
      {
        assert ReviewOk(s.reviews[r], s.checkouts, |s.drafts|);
      }
      LeaveLaneByChain(s, c, granted);
    }
  }

  lemma CancelByChain(s: State, actor: nat, r: nat, revision: nat, hash: Hash, granted: bool)
    requires AllByChain(s.reviews, granted)
    ensures AllByChain(CancelReview(s, actor, r, revision, hash).state.reviews, granted)
  {
    hide ByChain;
    if CancelReview(s, actor, r, revision, hash).error.None? {
      OneByChain(s, r, R.CancelJob, granted);
    }
  }

  lemma RetryByChain(s: State, actor: nat, r: nat, revision: nat, hash: Hash, granted: bool)
    requires AllByChain(s.reviews, granted)
    ensures AllByChain(RetryReview(s, actor, r, revision, hash).state.reviews, granted)
  {
    hide ByChain;
    if RetryReview(s, actor, r, revision, hash).error.None? {
      OneByChain(s, r, R.RetryJob, granted);
    }
  }

  lemma ChainStep(s: State, a: Action, granted: bool)
    requires Inv(s) && AllByChain(s.reviews, granted) && Enabled(s, a) && (granted ==> Granted(s, a))
    ensures AllByChain(Apply(s, a).reviews, granted)
  {
    hide ByChain, Inv;
    match a
    case ReturnCheckout(actor, c, fence) => CheckInByChain(s, actor, c, fence, granted);
    case ForceReturn(situation) =>
      CancelAllByChain(s, ActiveCheckoutOf(s.checkouts, situation, 0), granted);
      hide CancelAll;
    case Queue(actor, c, fence, revision, hash, content) => ByChainStart(granted);
    case StopReview(actor, r, revision, hash) => CancelByChain(s, actor, r, revision, hash, granted);
    case Resume(actor, r, revision, hash) => RetryByChain(s, actor, r, revision, hash, granted);
    case ClaimReview(now, leaseMs) => ClaimByChain(s, now, leaseMs, granted);
    case WorkReview(r, step) => OneByChain(s, r, R.Work(step), granted);
    case WakeLate(r, process) => OneByChain(s, r, R.LateDependents(process), granted);
    case Propose(r) => OneByChain(WithProposal(s, r), r, R.Work(R.MaterializeSucceeds), granted);
    case _ => OtherTablesOnly(s, a);
  }

  lemma {:induction false} ChainRun(s: State, actions: seq<Action>, granted: bool)
    requires Inv(s) && AllByChain(s.reviews, granted) && CanRun(s, actions) && (granted ==> GrantedRun(s, actions))
    ensures AllByChain(Run(s, actions).reviews, granted)
    decreases |actions|
  {
    hide Inv, AllByChain, Apply, Enabled, Granted;
    if actions != [] {
      ChainStep(s, actions[0], granted);
      ActionKeeps(s, actions[0]);
      ChainRun(Apply(s, actions[0]), actions[1..], granted);
    }
  }

  /** Every review of the workflow goes through a run of its own chain, so the bounds
      proved there hold among all editors, workers and publications; in a granted run
      its steps keep their order besides. */
  lemma {:induction false} ReviewsFollowTheirChain(actions: seq<Action>, r: nat)
    requires CanRun(EMPTY, actions) && r < |Run(EMPTY, actions).reviews|
    ensures var job := Run(EMPTY, actions).reviews[r].job;
      && ByChain(job, false) && job.repairs <= 1
      && R.TotalRuns(job.steps) <= 14 + job.lost + 2 * job.retried
      && (GrantedRun(EMPTY, actions) ==> ByChain(job, true) && RP.Shape(job))
  {
    assert Inv(EMPTY);
    var job := Run(EMPTY, actions).reviews[r].job;
    ChainRun(EMPTY, actions, false);
    ChainBounds(job);
    if GrantedRun(EMPTY, actions) {
      ChainRun(EMPTY, actions, true);
      ChainOrder(job);
    }
    hide Run, CanRun, GrantedRun, ByChain, RP.Shape;
  }

  lemma ChainBounds(job: R.Job)
    requires ByChain(job, false)
    ensures job.repairs <= 1 && R.TotalRuns(job.steps) <= 14 + job.lost + 2 * job.retried
  {
    var chain :| R.CanRun(R.NewJob(), chain) && R.Run(R.NewJob(), chain) == job;
    RT.NewJobOk();
    RP.RunBounded(R.NewJob(), chain);
    RT.BudgetOf(job);
  }

  lemma ChainOrder(job: R.Job)
    requires ByChain(job, true)
    ensures RP.Shape(job)
  {
    var chain :| R.CanRun(R.NewJob(), chain) && RP.GrantedRun(R.NewJob(), chain) && R.Run(R.NewJob(), chain) == job;
    RT.NewJobOk();
    RP.RunKeeps(R.NewJob(), chain);
  }

  // ----- the publisher's own steps -----

  predicate AllowedMove(from: P.JobState, to: P.JobState, finalizing: bool) {
    to == from || MayMove(from, to) || (from == P.Verifying && to == P.Succeeded && finalizing)
  }

  lemma ClaimantMoves(s: P.State, t: P.Token, step: P.Step, j: nat)
    requires P.StepEnabled(s, t, step) && j < |s.jobs|
    requires step.RenewLease? || step.MarkPromoting? || step.BeforeCommit? || step.RecordConflict? || step.RecordVerifying?
    ensures |P.Advance(s, t, step).jobs| == |s.jobs|
    ensures AllowedMove(s.jobs[j].state, P.Advance(s, t, step).jobs[j].state, false)
  {
  }

  lemma ConclusionMoves(s: P.State, t: P.Token, step: P.Step, j: nat)
    requires P.StepEnabled(s, t, step) && j < |s.jobs|
    requires step.FinalizeSuccess? || step.SuppressRestoration? || step.CatchBranch? || step.ConcludeRestoration?
    ensures |P.Advance(s, t, step).jobs| == |s.jobs|
    ensures AllowedMove(s.jobs[j].state, P.Advance(s, t, step).jobs[j].state, step.FinalizeSuccess?)
  {
  }

  lemma PromotionMoves(s: P.State, t: P.Token, step: P.Step)
    requires P.StepEnabled(s, t, step)
    requires step.InsertAndPromote? || step.IssueCommit? || step.ReceiveReply? || step.ReconcileAmbiguous? || step.CheckPromotion?
             || step.RestoreRelease? || step.CheckRestoration? || step.Fail? || step.Die?
    ensures P.Advance(s, t, step).jobs == s.jobs
  {
  }

  lemma LocalMoves(s: P.State, t: P.Token, step: P.Step)
    requires P.StepEnabled(s, t, step)
    requires step.StartAttempt? || step.LoadCandidate? || step.ReconcileReclaimed? || step.ObservePointer? || step.ChooseBranch?
             || step.RuntimeVerified? || step.CatchReconciliation? || step.ReadForRestore?
    ensures P.Advance(s, t, step).jobs == s.jobs
  {
  }

  lemma WorkMoves(s: P.State, t: P.Token, step: P.Step, j: nat)
    requires P.StepEnabled(s, t, step) && j < |s.jobs|
    ensures |P.Advance(s, t, step).jobs| == |s.jobs|
    ensures AllowedMove(s.jobs[j].state, P.Advance(s, t, step).jobs[j].state, step.FinalizeSuccess?)
  {
    hide P.Advance, P.StepEnabled;
    if step.RenewLease? || step.MarkPromoting? || step.BeforeCommit? || step.RecordConflict? || step.RecordVerifying? {
      ClaimantMoves(s, t, step, j);
    } else if step.FinalizeSuccess? || step.SuppressRestoration? || step.CatchBranch? || step.ConcludeRestoration? {
      ConclusionMoves(s, t, step, j);
    } else if step.InsertAndPromote? || step.IssueCommit? || step.ReceiveReply? || step.ReconcileAmbiguous? || step.CheckPromotion?
              || step.RestoreRelease? || step.CheckRestoration? || step.Fail? || step.Die? {
      PromotionMoves(s, t, step);
    } else {
      LocalMoves(s, t, step);
    }
  }

  /** Every step of the publication protocol moves a job as this workflow allows;
      only finalizeSuccess makes a VERIFYING job SUCCEEDED. */
  lemma ProtocolMovesAsAllowed(s: P.State, a: P.Action, j: nat)
    requires P.Enabled(s, a) && j < |s.jobs|
    ensures |P.Apply(s, a).jobs| >= |s.jobs|
    ensures AllowedMove(s.jobs[j].state, P.Apply(s, a).jobs[j].state, a.Work? && a.step.FinalizeSuccess?)
    ensures P.PointerPhase(P.Apply(s, a).jobs[j].state) ==> P.PointerPhase(s.jobs[j].state) || P.SlotFree(s.jobs, j)
  {
    match a
    case Work(t, step) =>
      WorkMoves(s, t, step, j);
      PW.WorkTakesSlot(s, t, step);
      PW.WorkTouchesOwnRow(s, t, step);
      hide P.Advance, P.StepEnabled;
    case _ =>
  }
}
