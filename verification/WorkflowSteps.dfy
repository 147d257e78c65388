/** Every transaction of the editorial workflow keeps its invariant. */
module WorkflowSteps {
  import opened Common
  import opened Workflow
  import opened WorkflowInvariant
  import P = PublicationProtocol
  import R = ReviewChain

  // ----- drafts and checkouts -----

  function FirstRevision(situation: nat, id: nat, hash: Hash): Draft {
    Draft(situation, true, [Revision(id, 1, None, hash)], 1, Some(hash))
  }

  lemma NewDraft(s: State, situation: nat, hash: Hash)
    ensures CreateDraft(s, situation, hash) ==
      s.(drafts := s.drafts + [FirstRevision(situation, s.nextRevision, hash)], nextRevision := s.nextRevision + 1)
  {
    var empty := Draft(situation, true, [], 0, None);
    var s1 := s.(drafts := s.drafts + [empty]);
    assert s1.drafts[|s.drafts|] == empty;
    assert [] + [Revision(s.nextRevision, 1, None, hash)] == [Revision(s.nextRevision, 1, None, hash)];
    assert s1.drafts[|s.drafts| := FirstRevision(situation, s.nextRevision, hash)] ==
           s.drafts + [FirstRevision(situation, s.nextRevision, hash)];
  }

  lemma DraftsGrow(drafts: seq<Draft>, next: nat, situation: nat, hash: Hash)
    requires DraftsOk(drafts, next)
    ensures DraftsOk(drafts + [FirstRevision(situation, next, hash)], next + 1)
  {
    var after := drafts + [FirstRevision(situation, next, hash)];
    forall d | 0 <= d < |after|
      ensures DraftOk(after[d], next + 1)
    {
      if d < |drafts| {
        assert DraftOk(drafts[d], next);
      }
    }
    forall d, e, i, j | 0 <= d < |after| && 0 <= e < |after| && 0 <= i < |after[d].revisions| && 0 <= j < |after[e].revisions|
      ensures after[d].revisions[i].id == after[e].revisions[j].id ==> d == e && i == j
    {
      if d < |drafts| {
        assert DraftOk(drafts[d], next);
      }
      if e < |drafts| {
        assert DraftOk(drafts[e], next);
      }
    }
  }

  lemma ProposalsKeepGrowth(proposals: seq<Proposal>, drafts: seq<Draft>, reviews: seq<Review>, drafts': seq<Draft>, reviews': seq<Review>)
    requires ProposalsOk(proposals, drafts, reviews) && |drafts| <= |drafts'| && |reviews| <= |reviews'|
    requires forall d :: 0 <= d < |drafts| ==> drafts'[d].revisions == drafts[d].revisions
    requires forall r :: 0 <= r < |reviews| ==> reviews'[r].draft == reviews[r].draft
    ensures ProposalsOk(proposals, drafts', reviews')
  {
    forall q | 0 <= q < |proposals|
      ensures ProposalOk(proposals[q], drafts', reviews')
    {
      assert ProposalOk(proposals[q], drafts, reviews);
    }
  }

  lemma CreateDraftKeeps(s: State, situation: nat, hash: Hash)
    requires Inv(s) && situation < |s.fences|
    requires forall d :: 0 <= d < |s.drafts| && s.drafts[d].active ==> s.drafts[d].situation != situation
    ensures Inv(CreateDraft(s, situation, hash))
  {
    NewDraft(s, situation, hash);
    var drafts' := s.drafts + [FirstRevision(situation, s.nextRevision, hash)];
    DraftsGrow(s.drafts, s.nextRevision, situation, hash);
    ProposalsKeepGrowth(s.proposals, s.drafts, s.reviews, drafts', s.reviews);
    PinnedRows(s);
    PinsKeepDrafts(s.publications, s.fences, s.drafts, s.checkouts, s.reviews, drafts');
    WorkspacesGrow(s.fences, s.drafts, s.checkouts, drafts'[|s.drafts|]);
    ReviewsGrow(s.reviews, s.checkouts, |s.drafts|, |drafts'|, s.checkouts);
    hide CreateDraft, DraftsOk, WorkspacesOk, ReviewsOk, ProposalsOk, PinsOk;
  }

  /** The rows a pinning job names exist. */
  lemma PinnedRows(s: State)
    requires Inv(s)
    ensures forall p :: 0 <= p < |s.publications| && Pinning(s.publications[p].state) ==>
      var job := s.publications[p];
      && job.checkout < |s.checkouts| && job.draft < |s.drafts| && job.situation < |s.fences|
      && s.checkouts[job.checkout].situation == job.situation && !s.checkouts[job.checkout].released
      && s.checkouts[job.checkout].draft == job.draft && s.drafts[job.draft].situation == job.situation
  {
    forall p | 0 <= p < |s.publications| && Pinning(s.publications[p].state)
      ensures s.publications[p].draft < |s.drafts| && s.drafts[s.publications[p].draft].situation == s.publications[p].situation
    {
      assert Pinned(s.publications[p], s.fences, s.drafts, s.checkouts, s.reviews);
      assert CheckoutOk(s.checkouts[s.publications[p].checkout], s.fences, s.drafts);
    }
  }

  lemma WorkspacesGrow(fences: seq<nat>, drafts: seq<Draft>, checkouts: seq<Checkout>, d: Draft)
    requires WorkspacesOk(fences, drafts, checkouts) && d.situation < |fences|
    requires d.active ==> forall e :: 0 <= e < |drafts| && drafts[e].active ==> drafts[e].situation != d.situation
    ensures WorkspacesOk(fences, drafts + [d], checkouts)
  {
    forall c | 0 <= c < |checkouts|
      ensures CheckoutOk(checkouts[c], fences, drafts + [d])
    {
      assert CheckoutOk(checkouts[c], fences, drafts);
    }
  }

  lemma ReviewsGrow(reviews: seq<Review>, checkouts: seq<Checkout>, count: nat, count': nat, checkouts': seq<Checkout>)
    requires ReviewsOk(reviews, checkouts, count) && count <= count' && |checkouts| <= |checkouts'|
    requires forall c :: 0 <= c < |checkouts| ==>
      && checkouts'[c].situation == checkouts[c].situation && checkouts'[c].fence == checkouts[c].fence
      && checkouts'[c].released == checkouts[c].released
    ensures ReviewsOk(reviews, checkouts', count')
  {
    forall r | 0 <= r < |reviews|
      ensures ReviewOk(reviews[r], checkouts', count')
    {
      assert ReviewOk(reviews[r], checkouts, count);
    }
  }

  lemma OpenWorkspaces(fences: seq<nat>, drafts: seq<Draft>, checkouts: seq<Checkout>, situation: nat, actor: nat, draft: nat)
    requires WorkspacesOk(fences, drafts, checkouts) && situation < |fences| && draft < |drafts|
    requires drafts[draft].situation == situation && drafts[draft].active
    requires forall c :: 0 <= c < |checkouts| && !checkouts[c].released ==> checkouts[c].situation != situation
    ensures WorkspacesOk(fences[situation := fences[situation] + 1], drafts,
                         checkouts + [Checkout(situation, actor, draft, fences[situation] + 1, false)])
  {
    var fences' := fences[situation := fences[situation] + 1];
    forall c | 0 <= c < |checkouts|
      ensures CheckoutOk(checkouts[c], fences', drafts)
    {
      assert CheckoutOk(checkouts[c], fences, drafts);
    }
    assert CheckoutOk(Checkout(situation, actor, draft, fences[situation] + 1, false), fences', drafts);
  }

  lemma OpenCheckoutKeeps(s: State, situation: nat, actor: nat, draft: nat)
    requires Inv(s) && situation < |s.fences| && draft < |s.drafts|
    requires s.drafts[draft].situation == situation && s.drafts[draft].active
    requires forall c :: 0 <= c < |s.checkouts| && !s.checkouts[c].released ==> s.checkouts[c].situation != situation
    ensures Inv(OpenCheckout(s, situation, actor, draft))
  {
    var s' := OpenCheckout(s, situation, actor, draft);
    OpenWorkspaces(s.fences, s.drafts, s.checkouts, situation, actor, draft);
    ReviewsGrow(s.reviews, s.checkouts, |s.drafts|, |s.drafts|, s'.checkouts);
    PinnedRows(s);
    PinsKeepWorkspaces(s.publications, s.fences, s.drafts, s.checkouts, s.reviews, s'.fences, s'.checkouts);
    hide DraftsOk, WorkspacesOk, ReviewsOk, ProposalsOk, PinsOk;
  }

  lemma ImportKeeps(s: State)
    requires Inv(s)
    ensures Inv(s.(fences := s.fences + [0]))
  {
    var fences' := s.fences + [0];
    forall c | 0 <= c < |s.checkouts|
      ensures CheckoutOk(s.checkouts[c], fences', s.drafts)
    {
      assert CheckoutOk(s.checkouts[c], s.fences, s.drafts);
    }
    PinnedRows(s);
    PinsKeepWorkspaces(s.publications, s.fences, s.drafts, s.checkouts, s.reviews, fences', s.checkouts);
    hide DraftsOk, ReviewsOk, ProposalsOk, PinsOk;
  }

  lemma CreateSituationKeeps(s: State, actor: nat, hash: Hash)
    requires Inv(s)
    ensures Inv(CreateSituation(s, actor, hash).state)
  {
    var n := |s.fences|;
    var s1 := s.(fences := s.fences + [0]);
    ImportKeeps(s);
    NothingThere(s);
    CreateDraftKeeps(s1, n, hash);
    NewDraft(s1, n, hash);
    var s2 := CreateDraft(s1, n, hash);
    assert s2.drafts[|s.drafts|] == FirstRevision(n, s.nextRevision, hash);
    hide Inv, CreateDraft;
    OpenCheckoutKeeps(s2, n, actor, |s.drafts|);
  }

  lemma NothingThere(s: State)
    requires Inv(s)
    ensures forall d :: 0 <= d < |s.drafts| ==> s.drafts[d].situation < |s.fences|
    ensures forall c :: 0 <= c < |s.checkouts| ==> s.checkouts[c].situation < |s.fences|
  {
    forall c | 0 <= c < |s.checkouts|
      ensures s.checkouts[c].situation < |s.fences|
    {
      assert CheckoutOk(s.checkouts[c], s.fences, s.drafts);
    }
  }

  lemma CheckOutKeeps(s: State, situation: nat, actor: nat, hash: Hash)
    requires Inv(s) && situation < |s.fences|
    ensures Inv(CheckOut(s, situation, actor, hash).state)
  {
    hide Inv;
    var d := ActiveDraftOf(s.drafts, situation);
    if !RecoveryPending(s.publications) && ActiveCheckoutOf(s.checkouts, situation, 0) == |s.checkouts| {
      if d.Some? {
        OpenCheckoutKeeps(s, situation, actor, d.value);
      } else {
        CreateDraftKeeps(s, situation, hash);
        NewDraft(s, situation, hash);
        var s1 := CreateDraft(s, situation, hash);
        assert s1.drafts[|s.drafts|] == FirstRevision(situation, s.nextRevision, hash);
        hide CreateDraft;
        OpenCheckoutKeeps(s1, situation, actor, |s.drafts|);
      }
    }
  }

  lemma SaveKeeps(s: State, actor: nat, c: nat, fence: nat, expected: Option<(nat, Hash)>, hash: Hash, content: Option<Error>)
    requires Inv(s)
    ensures Inv(SaveDraft(s, actor, c, fence, expected, hash, content).state)
  {
    if HoldsCheckout(s.checkouts, c, actor, fence) && s.checkouts[c].draft < |s.drafts|
       && PublicationGuard(s.publications, s.checkouts[c].situation).None? {
      assert CheckoutOk(s.checkouts[c], s.fences, s.drafts);
      ReviseKeeps(s, s.checkouts[c].draft, hash, expected);
      hide Inv, CreateRevision, PublicationGuard;
    }
  }

  /** Releasing a checkout of a situation where nothing is pinned and no review is active. */
  lemma ReleaseKeeps(s: State, c: nat)
    requires Inv(s) && c < |s.checkouts|
    requires forall p :: 0 <= p < |s.publications| && Pinning(s.publications[p].state) ==> s.publications[p].checkout != c
    requires forall r :: 0 <= r < |s.reviews| && s.reviews[r].checkout == c ==> !ActiveReview(s.reviews[r].job.state)
    ensures Inv(s.(checkouts := s.checkouts[c := s.checkouts[c].(released := true)]))
  {
    var checkouts' := s.checkouts[c := s.checkouts[c].(released := true)];
    forall e | 0 <= e < |s.checkouts|
      ensures CheckoutOk(checkouts'[e], s.fences, s.drafts)
    {
      assert CheckoutOk(s.checkouts[e], s.fences, s.drafts);
    }
    forall r | 0 <= r < |s.reviews|
      ensures ReviewOk(s.reviews[r], checkouts', |s.drafts|)
    {
      assert ReviewOk(s.reviews[r], s.checkouts, |s.drafts|);
    }
    PinnedRows(s);
    PinsKeepWorkspaces(s.publications, s.fences, s.drafts, s.checkouts, s.reviews, s.fences, checkouts');
    hide DraftsOk, ProposalsOk, PinsOk;
  }

  // ----- reviews -----

  predicate SameInput(a: Review, b: Review) {
    && b.situation == a.situation && b.checkout == a.checkout && b.checkoutFence == a.checkoutFence
    && b.draft == a.draft && b.inputRevision == a.inputRevision && b.inputHash == a.inputHash
  }

  predicate JobOk(job: R.Job) {
    && (job.laneOwner ==> ActiveReview(job.state))
    && (job.state == R.Running ==> job.laneOwner)
  }

  /** The row may have ended or left the lane, nothing more. */
  predicate Receded(a: Review, b: Review) {
    && SameInput(a, b) && JobOk(b.job)
    && (ActiveReview(b.job.state) ==> ActiveReview(a.job.state))
    && (b.job.laneOwner ==> a.job.laneOwner)
  }

  lemma ReviewsRecede(s: State, reviews': seq<Review>)
    requires Inv(s) && |reviews'| == |s.reviews|
    requires forall r :: 0 <= r < |s.reviews| ==> Receded(s.reviews[r], reviews'[r])
    ensures Inv(s.(reviews := reviews'))
  {
    forall r | 0 <= r < |s.reviews|
      ensures ReviewOk(reviews'[r], s.checkouts, |s.drafts|)
      ensures ActiveReview(reviews'[r].job.state) ==> ActiveReview(s.reviews[r].job.state) && reviews'[r].situation == s.reviews[r].situation
    {
      assert ReviewOk(s.reviews[r], s.checkouts, |s.drafts|) && Receded(s.reviews[r], reviews'[r]);
    }
    assert OneActiveReview(reviews') && OneLaneOwner(reviews') by {
      forall r | 0 <= r < |s.reviews|
        ensures Receded(s.reviews[r], reviews'[r])
      {
      }
    }
    ProposalsKeepGrowth(s.proposals, s.drafts, s.reviews, s.drafts, reviews');
    PinsKeepReviews(s.publications, s.fences, s.drafts, s.checkouts, s.reviews, reviews');
    hide DraftsOk, WorkspacesOk, ProposalsOk, PinsOk;
  }

  lemma ReviewRecedes(s: State, r: nat, job: R.Job)
    requires Inv(s) && r < |s.reviews| && Receded(s.reviews[r], s.reviews[r].(job := job))
    ensures Inv(SetReviewJob(s, r, job))
  {
    forall q | 0 <= q < |s.reviews|
      ensures Receded(s.reviews[q], SetReviewJob(s, r, job).reviews[q])
    {
      assert ReviewOk(s.reviews[q], s.checkouts, |s.drafts|);
    }
    ReviewsRecede(s, SetReviewJob(s, r, job).reviews);
    hide Inv;
  }

  /** A review becomes active, or takes a lane that nobody else owns. */
  lemma ReviewAdvances(s: State, r: nat, job: R.Job)
    requires Inv(s) && r < |s.reviews| && JobOk(job) && ActiveReview(job.state)
    requires CheckoutActive(s.checkouts, s.reviews[r])
    requires forall q :: 0 <= q < |s.reviews| && q != r && s.reviews[q].job.laneOwner ==> !job.laneOwner
    requires ActiveReview(s.reviews[r].job.state) ||
      (!ReviewUnderway(s.reviews, s.reviews[r].situation) && PublicationGuard(s.publications, s.reviews[r].situation).None?)
    ensures Inv(SetReviewJob(s, r, job))
  {
    var reviews' := SetReviewJob(s, r, job).reviews;
    forall q | 0 <= q < |s.reviews|
      ensures ReviewOk(reviews'[q], s.checkouts, |s.drafts|)
    {
      assert ReviewOk(s.reviews[q], s.checkouts, |s.drafts|);
    }
    ProposalsKeepGrowth(s.proposals, s.drafts, s.reviews, s.drafts, reviews');
    if PublicationGuard(s.publications, s.reviews[r].situation).None? {
      GuardClears(s.publications, s.reviews[r].situation);
    }
    PinsKeepReviews(s.publications, s.fences, s.drafts, s.checkouts, s.reviews, reviews');
    hide DraftsOk, WorkspacesOk, ProposalsOk, PinsOk;
  }

  lemma CheckInKeeps(s: State, actor: nat, c: nat, fence: nat)
    requires Inv(s)
    ensures Inv(CheckIn(s, actor, c, fence).state)
  {
    if HoldsCheckout(s.checkouts, c, actor, fence) {
      var situation := s.checkouts[c].situation;
      if PublicationGuard(s.publications, situation).None? && !ReviewUnderway(s.reviews, situation) {
        var s1 := s.(reviews := LeaveLane(s.reviews, c));
        forall r | 0 <= r < |s.reviews|
          ensures Receded(s.reviews[r], s1.reviews[r])
          ensures s.reviews[r].checkout == c ==> !ActiveReview(s.reviews[r].job.state)
        {
          assert ReviewOk(s.reviews[r], s.checkouts, |s.drafts|);
        }
        ReviewsRecede(s, s1.reviews);
        GuardClears(s.publications, situation);
        PinnedRows(s);
        hide Inv, PublicationGuard;
        ReleaseKeeps(s1, c);
      }
    }
  }

  lemma CancelRecedes(s: State, c: nat)
    requires Inv(s)
    ensures Inv(s.(reviews := CancelAll(s.reviews, c)))
    ensures forall r :: 0 <= r < |s.reviews| && CancelAll(s.reviews, c)[r].checkout == c ==>
      !ActiveReview(CancelAll(s.reviews, c)[r].job.state)
  {
    var reviews' := CancelAll(s.reviews, c);
    forall r | 0 <= r < |s.reviews|
      ensures Receded(s.reviews[r], reviews'[r])
    {
      assert ReviewOk(s.reviews[r], s.checkouts, |s.drafts|);
    }
    ReviewsRecede(s, reviews');
  }

  lemma FenceRises(s: State, situation: nat)
    requires Inv(s) && situation < |s.fences|
    requires forall c :: 0 <= c < |s.checkouts| && !s.checkouts[c].released ==> s.checkouts[c].situation != situation
    ensures Inv(s.(fences := s.fences[situation := s.fences[situation] + 1]))
  {
    var fences' := s.fences[situation := s.fences[situation] + 1];
    forall c | 0 <= c < |s.checkouts|
      ensures CheckoutOk(s.checkouts[c], fences', s.drafts)
    {
      assert CheckoutOk(s.checkouts[c], s.fences, s.drafts);
    }
    PinnedRows(s);
    PinsKeepWorkspaces(s.publications, s.fences, s.drafts, s.checkouts, s.reviews, fences', s.checkouts);
    hide DraftsOk, ReviewsOk, ProposalsOk, PinsOk;
  }

  lemma ForceCheckInKeeps(s: State, situation: nat)
    requires Inv(s) && situation < |s.fences|
    ensures Inv(ForceCheckIn(s, situation).state)
  {
    var c := ActiveCheckoutOf(s.checkouts, situation, 0);
    if c < |s.checkouts| && PublicationGuard(s.publications, situation).None? {
      CancelRecedes(s, c);
      GuardClears(s.publications, situation);
      PinnedRows(s);
      OthersReleased(s, c);
      hide Inv, PublicationGuard, CancelAll;
      var s1 := s.(reviews := CancelAll(s.reviews, c));
      ReleaseKeeps(s1, c);
      var s2 := s1.(checkouts := s1.checkouts[c := s1.checkouts[c].(released := true)]);
      FenceRises(s2, situation);
    }
  }

  lemma OthersReleased(s: State, c: nat)
    requires Inv(s) && c < |s.checkouts| && !s.checkouts[c].released
    ensures forall e :: 0 <= e < |s.checkouts| && e != c && !s.checkouts[e].released ==>
      s.checkouts[e].situation != s.checkouts[c].situation
  {
  }

  /** The checked-out draft is archived and a fresh one takes its place. */
  lemma ReplaceDraft(s: State, c: nat, hash: Hash)
    requires Inv(s) && c < |s.checkouts| && !s.checkouts[c].released
    requires PublicationGuard(s.publications, s.checkouts[c].situation).None?
    ensures s.checkouts[c].draft < |s.drafts| && s.checkouts[c].situation < |s.fences|
    ensures var d := s.checkouts[c].draft;
      var drafts' := s.drafts[d := s.drafts[d].(active := false)] + [FirstRevision(s.checkouts[c].situation, s.nextRevision, hash)];
      Inv(s.(drafts := drafts', nextRevision := s.nextRevision + 1,
             checkouts := s.checkouts[c := s.checkouts[c].(draft := |s.drafts|)]))
  {
    var checkout := s.checkouts[c];
    assert CheckoutOk(checkout, s.fences, s.drafts);
    var d := checkout.draft;
    var archived := s.drafts[d := s.drafts[d].(active := false)];
    var drafts' := archived + [FirstRevision(checkout.situation, s.nextRevision, hash)];
    var checkouts' := s.checkouts[c := checkout.(draft := |s.drafts|)];
    ArchiveKeepsDrafts(s.drafts, s.nextRevision, d);
    DraftsGrow(archived, s.nextRevision, checkout.situation, hash);
    ProposalsKeepGrowth(s.proposals, s.drafts, s.reviews, drafts', s.reviews);
    ReviewsGrow(s.reviews, s.checkouts, |s.drafts|, |drafts'|, checkouts');
    GuardClears(s.publications, checkout.situation);
    PinnedRows(s);
    PinsKeepDrafts(s.publications, s.fences, s.drafts, s.checkouts, s.reviews, drafts');
    PinsKeepWorkspaces(s.publications, s.fences, drafts', s.checkouts, s.reviews, s.fences, checkouts');
    ReplaceWorkspaces(s.fences, s.drafts, s.checkouts, c, drafts', checkouts');
    hide DraftsOk, WorkspacesOk, ReviewsOk, ProposalsOk, PinsOk, PublicationGuard;
  }

  lemma ArchiveKeepsDrafts(drafts: seq<Draft>, next: nat, d: nat)
    requires DraftsOk(drafts, next) && d < |drafts|
    ensures DraftsOk(drafts[d := drafts[d].(active := false)], next)
  {
    var after := drafts[d := drafts[d].(active := false)];
    SameRevisions(drafts, next, after);
  }

  lemma StateIsFree(d: Draft, active: bool, next: nat)
    requires DraftOk(d, next)
    ensures DraftOk(d.(active := active), next)
  {
  }

  lemma SameRevisions(drafts: seq<Draft>, next: nat, after: seq<Draft>)
    requires DraftsOk(drafts, next) && |after| == |drafts|
    requires forall e :: 0 <= e < |drafts| ==> after[e] == drafts[e].(active := after[e].active)
    ensures DraftsOk(after, next)
  {
    forall e | 0 <= e < |after|
      ensures DraftOk(after[e], next)
    {
      assert DraftOk(drafts[e], next);
      StateIsFree(drafts[e], after[e].active, next);
    }
    assert IdsDistinct(after) by {
      hide DraftOk;
      assert forall e :: 0 <= e < |after| ==> after[e].revisions == drafts[e].revisions;
    }
  }

  lemma ReplaceWorkspaces(fences: seq<nat>, drafts: seq<Draft>, checkouts: seq<Checkout>, c: nat,
                          drafts': seq<Draft>, checkouts': seq<Checkout>)
    requires WorkspacesOk(fences, drafts, checkouts) && c < |checkouts| && !checkouts[c].released
    requires checkouts[c].draft < |drafts| && |drafts'| == |drafts| + 1
    requires drafts'[..|drafts|] == drafts[checkouts[c].draft := drafts[checkouts[c].draft].(active := false)]
    requires drafts'[|drafts|].situation == checkouts[c].situation && drafts'[|drafts|].active
    requires checkouts' == checkouts[c := checkouts[c].(draft := |drafts|)]
    ensures WorkspacesOk(fences, drafts', checkouts')
  {
    assert CheckoutOk(checkouts[c], fences, drafts);
    assert forall e :: 0 <= e < |drafts| ==> drafts'[e] == drafts'[..|drafts|][e];
    forall e | 0 <= e < |checkouts|
      ensures CheckoutOk(checkouts'[e], fences, drafts')
    {
      assert CheckoutOk(checkouts[e], fences, drafts);
    }
  }

  lemma StartOverKeeps(s: State, actor: nat, c: nat, fence: nat, restoring: bool, hash: Hash)
    requires Inv(s)
    ensures Inv(StartOver(s, actor, c, fence, restoring, hash).state)
  {
    if HoldsCheckout(s.checkouts, c, actor, fence) && s.checkouts[c].draft < |s.drafts|
       && PublicationGuard(s.publications, s.checkouts[c].situation).None?
       && !(restoring && ReviewUnderway(s.reviews, s.checkouts[c].situation)) {
      var checkout := s.checkouts[c];
      ReplaceDraft(s, c, hash);
      var archived := s.(drafts := s.drafts[checkout.draft := s.drafts[checkout.draft].(active := false)]);
      NewDraft(archived, checkout.situation, hash);
      hide Inv, CreateDraft, PublicationGuard, ReviewUnderway;
    }
  }

  lemma ReviewQueued(reviews: seq<Review>, checkouts: seq<Checkout>, count: nat, row: Review)
    requires ReviewsOk(reviews, checkouts, count) && ReviewOk(row, checkouts, count)
    requires !row.job.laneOwner && !ReviewUnderway(reviews, row.situation)
    ensures ReviewsOk(reviews + [row], checkouts, count)
  {
  }

  lemma QueueKeeps(s: State, actor: nat, c: nat, fence: nat, revision: nat, hash: Hash, content: Option<Error>)
    requires Inv(s)
    ensures Inv(QueueReview(s, actor, c, fence, revision, hash, content).state)
  {
    var o := QueueReview(s, actor, c, fence, revision, hash, content);
    if o.error.None? {
      var checkout := s.checkouts[c];
      var row := Review(checkout.situation, c, fence, checkout.draft, revision, hash, R.NewJob());
      assert CheckoutOk(checkout, s.fences, s.drafts);
      ReviewQueued(s.reviews, s.checkouts, |s.drafts|, row);
      GuardClears(s.publications, checkout.situation);
      PinsKeepReviews(s.publications, s.fences, s.drafts, s.checkouts, s.reviews, s.reviews + [row]);
      ProposalsKeepGrowth(s.proposals, s.drafts, s.reviews, s.drafts, s.reviews + [row]);
      hide DraftsOk, WorkspacesOk, ReviewsOk, ProposalsOk, PinsOk, FocusedReview, PublicationGuard, ReviewUnderway;
    }
  }

  lemma CancelKeeps(s: State, actor: nat, r: nat, revision: nat, hash: Hash)
    requires Inv(s)
    ensures Inv(CancelReview(s, actor, r, revision, hash).state)
  {
    if r < |s.reviews| {
      ReviewRecedes(s, r, R.Cancel(s.reviews[r].job));
    }
  }

  lemma RetryKeeps(s: State, actor: nat, r: nat, revision: nat, hash: Hash)
    requires Inv(s)
    ensures Inv(RetryReview(s, actor, r, revision, hash).state)
  {
    if RetryReview(s, actor, r, revision, hash).error.None? {
      var row := s.reviews[r];
      assert ReviewOk(row, s.checkouts, |s.drafts|);
      hide Inv, PublicationGuard, ReviewUnderway;
      ReviewAdvances(s, r, R.ManualRetry(row.job));
    }
  }

  lemma FocusKeeps(s: State)
    requires Inv(s)
    ensures Inv(Focus(s).0)
    ensures var focus := Focus(s);
      focus.1.Some? ==>
        && focus.1.value < |focus.0.reviews| && focus.0.reviews[focus.1.value].job.laneOwner
        && Selectable(focus.0, focus.1.value)
        && (Selectable(s, LaneOwner(s.reviews, 0)) ==> focus == (s, Some(LaneOwner(s.reviews, 0))))
  {
    var owner := LaneOwner(s.reviews, 0);
    if !Selectable(s, owner) {
      OwnerIsSelectable(s);
      var next := NextQueued(s.reviews, s.checkouts, 0);
      if next < |s.reviews| {
        hide Inv;
        ReviewAdvances(s, next, s.reviews[next].job.(laneOwner := true));
      }
    }
  }

  /** A lane owner is always selectable: the branch that drops a dead owner never runs. */
  lemma OwnerIsSelectable(s: State)
    requires Inv(s)
    ensures forall r :: 0 <= r < |s.reviews| && s.reviews[r].job.laneOwner ==> Selectable(s, r)
  {
    forall r | 0 <= r < |s.reviews| && s.reviews[r].job.laneOwner
      ensures Selectable(s, r)
    {
      assert ReviewOk(s.reviews[r], s.checkouts, |s.drafts|);
    }
  }

  lemma OthersDoNotOwn(s: State, r: nat)
    requires Inv(s) && r < |s.reviews| && s.reviews[r].job.laneOwner
    ensures forall q :: 0 <= q < |s.reviews| && q != r ==> !s.reviews[q].job.laneOwner
  {
  }

  lemma ClaimKeeps(s: State, now: int, leaseMs: int)
    requires Inv(s)
    ensures Inv(ClaimNextReview(s, now, leaseMs))
  {
    FocusKeeps(s);
    var focus := Focus(s);
    if focus.1.Some? && !MustWait(focus.0.reviews[focus.1.value].job, now) {
      var s1 := focus.0;
      var r := focus.1.value;
      OthersDoNotOwn(s1, r);
      ReviewAdvances(s1, r, R.Claim(s1.reviews[r].job, s.nextToken, now, leaseMs));
      hide Focus;
    }
  }

  lemma AdvanceRecedes(job: R.Job, step: R.WorkerStep)
    requires R.StepEnabled(job, step) && JobOk(job)
    ensures var after := R.Advance(job, step);
      && JobOk(after) && (after.laneOwner ==> job.laneOwner)
  {
  }

  lemma WorkKeeps(s: State, r: nat, step: R.WorkerStep)
    requires Inv(s) && r < |s.reviews| && R.StepEnabled(s.reviews[r].job, step)
    ensures Inv(SetReviewJob(s, r, R.Advance(s.reviews[r].job, step)))
  {
    assert ReviewOk(s.reviews[r], s.checkouts, |s.drafts|);
    AdvanceRecedes(s.reviews[r].job, step);
    hide Inv, R.Advance;
    ReviewRecedes(s, r, R.Advance(s.reviews[r].job, step));
  }

  lemma WakeKeeps(s: State, r: nat, process: nat)
    requires Inv(s) && Enabled(s, WakeLate(r, process))
    ensures Inv(Apply(s, WakeLate(r, process)))
  {
    assert ReviewOk(s.reviews[r], s.checkouts, |s.drafts|);
    hide Inv;
    ReviewRecedes(s, r, R.Apply(s.reviews[r].job, R.LateDependents(process)));
  }

  // ----- proposals -----

  lemma ProposalAdded(s: State, row: Proposal)
    requires Inv(s) && ProposalOk(row, s.drafts, s.reviews)
    requires forall q :: 0 <= q < |s.proposals| ==> s.proposals[q].review != row.review
    ensures Inv(s.(proposals := s.proposals + [row]))
  {
    hide DraftsOk, WorkspacesOk, ReviewsOk, PinsOk;
  }

  lemma WithProposalKeeps(s: State, r: nat)
    requires Inv(s) && r < |s.reviews|
    ensures s.reviews[r].draft < |s.drafts|
    ensures Inv(WithProposal(s, r))
  {
    var row := s.reviews[r];
    assert ReviewOk(row, s.checkouts, |s.drafts|);
    assert DraftOk(s.drafts[row.draft], s.nextRevision);
    LatestIsHead(s.drafts[row.draft], s.nextRevision);
    var head := Head(s.drafts[row.draft]);
    var superseded := head.id != row.inputRevision || head.hash != row.inputHash;
    var proposal := Proposal(r, row.draft, row.inputRevision, row.inputRevision, row.inputHash, superseded);
    assert ProposalOk(proposal, s.drafts, s.reviews);
    hide Latest, Inv;
    if WithProposal(s, r) != s {
      ProposalAdded(s, proposal);
    }
  }

  lemma MaterializeKeeps(s: State, r: nat)
    requires Inv(s) && Enabled(s, Propose(r))
    ensures Inv(Materialize(s, r))
  {
    assert ReviewOk(s.reviews[r], s.checkouts, |s.drafts|);
    WithProposalKeeps(s, r);
    hide Inv;
    ReviewRecedes(WithProposal(s, r), r, R.Complete(s.reviews[r].job));
  }

  /** The accepted proposal follows the draft to the created revision. */
  lemma AcceptedProposals(s: State, d: nat, hash: Hash, expected: Option<(nat, Hash)>, q: nat)
    requires DraftsOk(s.drafts, s.nextRevision) && ProposalsOk(s.proposals, s.drafts, s.reviews)
    requires d < |s.drafts| && q < |s.proposals| && s.proposals[q].draft == d && !s.proposals[q].superseded
    ensures var made := CreateRevision(s, d, hash, expected, Some(q)); var created := made.revision;
      |made.state.proposals| == |s.proposals| && (created.Some? ==>
        ProposalsOk(made.state.proposals[q := made.state.proposals[q].(currentRevision := created.value.id, currentHash := created.value.hash)],
                    made.state.drafts, s.reviews))
  {
    CreateRevisionKeeps(s, d, hash, expected, Some(q));
    hide DraftsOk, CreateRevision;
    var made := CreateRevision(s, d, hash, expected, Some(q));
    if made.revision.Some? {
      var created := made.revision.value;
      var after := made.state.proposals[q := made.state.proposals[q].(currentRevision := created.id, currentHash := created.hash)];
      forall z | 0 <= z < |s.proposals|
        ensures ProposalOk(after[z], made.state.drafts, s.reviews) && after[z].review == s.proposals[z].review
      {
        AcceptedProposal(s, d, hash, expected, q, made, z);
      }
    }
  }

  lemma AcceptedProposal(s: State, d: nat, hash: Hash, expected: Option<(nat, Hash)>, q: nat, made: Revised, z: nat)
    requires ProposalsOk(s.proposals, s.drafts, s.reviews) && d < |s.drafts| && |s.drafts[d].revisions| > 0
    requires RevisionMade(s, d, hash, expected, Some(q), made) && made.revision.Some?
    requires q < |s.proposals| && s.proposals[q].draft == d && !s.proposals[q].superseded && z < |s.proposals|
    ensures var created := made.revision.value;
      var after := made.state.proposals[q := made.state.proposals[q].(currentRevision := created.id, currentHash := created.hash)];
      ProposalOk(after[z], made.state.drafts, s.reviews) && after[z].review == s.proposals[z].review
  {
    assert ProposalOk(s.proposals[z], s.drafts, s.reviews) && ProposalOk(s.proposals[q], s.drafts, s.reviews);
    assert s.proposals[z].draft != d ==> made.state.drafts[s.proposals[z].draft] == s.drafts[s.proposals[z].draft];
  }

  /** An acceptable proposal belongs to the checked-out draft. */
  lemma AcceptableIsOwn(s: State, d: nat, q: nat)
    requires Inv(s) && d < |s.drafts| && |s.drafts[d].revisions| > 0 && q < |s.proposals| && !s.proposals[q].superseded
    requires s.proposals[q].currentRevision == Head(s.drafts[d]).id
    ensures s.proposals[q].draft == d
  {
    var e := s.proposals[q].draft;
    assert ProposalOk(s.proposals[q], s.drafts, s.reviews);
    assert s.drafts[e].revisions[|s.drafts[e].revisions| - 1].id == s.drafts[d].revisions[|s.drafts[d].revisions| - 1].id;
  }

  lemma AcceptKeeps(s: State, actor: nat, c: nat, fence: nat, q: nat, revision: nat, rhash: Hash, hash: Hash)
    requires Inv(s)
    ensures Inv(AcceptChanges(s, actor, c, fence, q, revision, rhash, hash).state)
  {
    hide CreateRevision, PublicationGuard, Latest, ReviewsOk, ProposalsOk, PinsOk;
    if AcceptChanges(s, actor, c, fence, q, revision, rhash, hash).error.None? {
      var d := s.checkouts[c].draft;
      assert CheckoutOk(s.checkouts[c], s.fences, s.drafts);
      assert DraftOk(s.drafts[d], s.nextRevision);
      LatestIsHead(s.drafts[d], s.nextRevision);
      AcceptableIsOwn(s, d, q);
      AcceptedProposals(s, d, hash, Some((revision, rhash)), q);
      UnpinnedDraft(s, d);
      RevisedRest(s, d, hash, Some((revision, rhash)), Some(q));
      hide DraftsOk, WorkspacesOk;
    }
  }

  /** Everything but the proposals after createRevision on an unpinned draft. */
  lemma RevisedRest(s: State, d: nat, hash: Hash, expected: Option<(nat, Hash)>, preserve: Option<nat>)
    requires Inv(s) && d < |s.drafts|
    requires forall p :: 0 <= p < |s.publications| && Pinning(s.publications[p].state) ==> s.publications[p].draft != d
    ensures var s' := CreateRevision(s, d, hash, expected, preserve).state;
      && s' == s.(drafts := s'.drafts, proposals := s'.proposals, nextRevision := s'.nextRevision)
      && DraftsOk(s'.drafts, s'.nextRevision) && WorkspacesOk(s.fences, s'.drafts, s.checkouts)
      && ReviewsOk(s.reviews, s.checkouts, |s'.drafts|)
      && PinsOk(s.publications, s.fences, s'.drafts, s.checkouts, s.reviews)
  {
    CreateRevisionKeeps(s, d, hash, expected, preserve);
    var s' := CreateRevision(s, d, hash, expected, preserve).state;
    WorkspacesKeepRevisions(s.fences, s.drafts, s.checkouts, s'.drafts);
    PinsKeepDrafts(s.publications, s.fences, s.drafts, s.checkouts, s.reviews, s'.drafts);
    hide DraftsOk, WorkspacesOk, ReviewsOk, ProposalsOk, PinsOk, CreateRevision;
  }

  // ----- publications -----

  lemma RequestKeeps(s: State, preflight: Preflight, receipt: nat, actor: nat, c: nat, fence: nat, revision: nat, hash: Hash)
    requires Inv(s)
    ensures Inv(RequestPublication(s, preflight, receipt, actor, c, fence, revision, hash).state)
  {
    var o := RequestPublication(s, preflight, receipt, actor, c, fence, revision, hash);
    if o.error.None? && |o.state.publications| > |s.publications| {
      var checkout := s.checkouts[c];
      var draft := s.drafts[checkout.draft];
      var row := Publication(receipt, checkout.situation, c, fence, checkout.draft, revision, hash, P.Requested);
      assert CheckoutOk(checkout, s.fences, s.drafts);
      assert DraftOk(draft, s.nextRevision);
      TargetIsHead(draft, s.nextRevision, revision);
      assert Pinned(row, s.fences, s.drafts, s.checkouts, s.reviews);
      GuardClears(s.publications, checkout.situation);
      hide DraftsOk, WorkspacesOk, ReviewsOk, ProposalsOk, PublicationGuard, ReviewUnderway;
    }
  }

  /** The revision with the cached number is the head. */
  lemma TargetIsHead(d: Draft, next: nat, id: nat)
    requires DraftOk(d, next)
    requires var target := FindRevision(d.revisions, id); target.Some? && target.value.number == d.currentNumber
    ensures FindRevision(d.revisions, id) == Some(Head(d))
  {
    var target := FindRevision(d.revisions, id);
    var i :| 0 <= i < |d.revisions| && d.revisions[i] == target.value;
  }

  lemma MoveKeeps(s: State, p: nat, to: P.JobState)
    requires Inv(s) && p < |s.publications|
    ensures Inv(MovePublication(s, p, to))
  {
    hide DraftsOk, WorkspacesOk, ReviewsOk, ProposalsOk, ReviewUnderway;
    if MovePublication(s, p, to) != s {
      var publications' := MovePublication(s, p, to).publications;
      forall q | 0 <= q < |publications'| && Pinning(publications'[q].state)
        ensures Pinned(publications'[q], s.fences, s.drafts, s.checkouts, s.reviews)
      {
        assert Pinned(s.publications[q], s.fences, s.drafts, s.checkouts, s.reviews);
      }
    }
  }

  lemma ArchiveDraft(s: State, d: nat)
    requires Inv(s) && d < |s.drafts|
    requires forall c :: 0 <= c < |s.checkouts| && s.checkouts[c].draft == d ==> s.checkouts[c].released
    ensures Inv(s.(drafts := s.drafts[d := s.drafts[d].(active := false)]))
  {
    var drafts' := s.drafts[d := s.drafts[d].(active := false)];
    ArchiveKeepsDrafts(s.drafts, s.nextRevision, d);
    forall c | 0 <= c < |s.checkouts|
      ensures CheckoutOk(s.checkouts[c], s.fences, drafts')
    {
      assert CheckoutOk(s.checkouts[c], s.fences, s.drafts);
    }
    ProposalsKeepGrowth(s.proposals, s.drafts, s.reviews, drafts', s.reviews);
    PinnedRows(s);
    PinsKeepDrafts(s.publications, s.fences, s.drafts, s.checkouts, s.reviews, drafts');
    hide DraftsOk, ReviewsOk, ProposalsOk, PinsOk;
  }

  lemma SucceedKeeps(s: State, p: nat)
    requires Inv(s) && p < |s.publications| && s.publications[p].state == P.Verifying
    ensures Inv(s.(publications := s.publications[p := s.publications[p].(state := P.Succeeded)]))
    ensures forall q :: 0 <= q < |s.publications| && q != p && Pinning(s.publications[q].state) ==>
      s.publications[q].situation != s.publications[p].situation
  {
    var publications' := s.publications[p := s.publications[p].(state := P.Succeeded)];
    forall q | 0 <= q < |publications'| && Pinning(publications'[q].state)
      ensures Pinned(publications'[q], s.fences, s.drafts, s.checkouts, s.reviews)
    {
      assert Pinned(s.publications[q], s.fences, s.drafts, s.checkouts, s.reviews);
    }
    hide DraftsOk, WorkspacesOk, ReviewsOk, ProposalsOk;
  }

  lemma FinalizeKeeps(s: State, p: nat)
    requires Inv(s) && p < |s.publications|
    ensures Inv(FinalizeSuccess(s, p))
  {
    var job := s.publications[p];
    if job.state == P.Verifying && FenceHolds(s, p) && job.draft < |s.drafts| {
      SucceedKeeps(s, p);
      PinnedRows(s);
      NoReviewThere(s, p);
      OthersReleased(s, job.checkout);
      DraftUsers(s, job.draft);
      hide Inv;
      var s1 := s.(publications := s.publications[p := job.(state := P.Succeeded)]);
      PinnedRows(s1);
      ReleaseKeeps(s1, job.checkout);
      var s2 := s1.(checkouts := s1.checkouts[job.checkout := s1.checkouts[job.checkout].(released := true)]);
      ArchiveDraft(s2, job.draft);
    }
  }

  lemma NoReviewThere(s: State, p: nat)
    requires Inv(s) && p < |s.publications| && Pinning(s.publications[p].state)
    ensures s.publications[p].checkout < |s.checkouts|
    ensures forall r :: 0 <= r < |s.reviews| && s.reviews[r].checkout == s.publications[p].checkout ==>
      !ActiveReview(s.reviews[r].job.state)
  {
    assert Pinned(s.publications[p], s.fences, s.drafts, s.checkouts, s.reviews);
    forall r | 0 <= r < |s.reviews| && s.reviews[r].checkout == s.publications[p].checkout
      ensures !ActiveReview(s.reviews[r].job.state)
    {
      assert ReviewOk(s.reviews[r], s.checkouts, |s.drafts|);
    }
  }

  lemma DraftUsers(s: State, d: nat)
    requires Inv(s) && d < |s.drafts|
    ensures forall c :: 0 <= c < |s.checkouts| && s.checkouts[c].draft == d ==> s.checkouts[c].situation == s.drafts[d].situation
  {
    forall c | 0 <= c < |s.checkouts| && s.checkouts[c].draft == d
      ensures s.checkouts[c].situation == s.drafts[d].situation
    {
      assert CheckoutOk(s.checkouts[c], s.fences, s.drafts);
    }
  }

  // ----- every action -----

  lemma ActionKeeps(s: State, a: Action)
    requires Inv(s) && Enabled(s, a)
    ensures Inv(Apply(s, a))
  {
    hide Inv;
    match a
    case ImportSituation => ImportKeeps(s);
    case NewSituation(actor, hash) => CreateSituationKeeps(s, actor, hash);
    case TakeCheckout(situation, actor, hash) => CheckOutKeeps(s, situation, actor, hash);
    case Save(actor, c, fence, expected, hash, content) => SaveKeeps(s, actor, c, fence, expected, hash, content);
    case ReturnCheckout(actor, c, fence) => CheckInKeeps(s, actor, c, fence);
    case ForceReturn(situation) => ForceCheckInKeeps(s, situation);
    case Restart(actor, c, fence, restoring, hash) => StartOverKeeps(s, actor, c, fence, restoring, hash);
    case Queue(actor, c, fence, revision, hash, content) => QueueKeeps(s, actor, c, fence, revision, hash, content);
    case StopReview(actor, r, revision, hash) => CancelKeeps(s, actor, r, revision, hash);
    case Resume(actor, r, revision, hash) => RetryKeeps(s, actor, r, revision, hash);
    case ClaimReview(now, leaseMs) => ClaimKeeps(s, now, leaseMs);
    case WorkReview(r, step) => WorkKeeps(s, r, step);
    case WakeLate(r, process) => WakeKeeps(s, r, process);
    case Propose(r) => MaterializeKeeps(s, r);
    case Accept(actor, c, fence, q, revision, rhash, hash) => AcceptKeeps(s, actor, c, fence, q, revision, rhash, hash);
    case Publish(preflight, receipt, actor, c, fence, revision, hash) => RequestKeeps(s, preflight, receipt, actor, c, fence, revision, hash);
    case Move(p, to) => MoveKeeps(s, p, to);
    case Finalize(p) => FinalizeKeeps(s, p);
  }

  lemma {:induction false} RunKeeps(s: State, actions: seq<Action>)
    requires Inv(s) && CanRun(s, actions)
    ensures Inv(Run(s, actions))
    decreases |actions|
  {
    hide Inv, Apply, Enabled;
    if actions != [] {
      ActionKeeps(s, actions[0]);
      RunKeeps(Apply(s, actions[0]), actions[1..]);
    }
  }
}
