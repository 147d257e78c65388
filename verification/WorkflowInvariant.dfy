/** What every editorial transaction keeps, one predicate per group of tables. */
module WorkflowInvariant {
  import opened Common
  import opened Workflow
  import P = PublicationProtocol
  import R = ReviewChain

  /** Revisions are numbered 1..n, each names the one before it as its parent, and
      the cached number and hash are those of the head. */
  predicate DraftOk(d: Draft, nextRevision: nat) {
    && |d.revisions| > 0
    && (forall i :: 0 <= i < |d.revisions| ==>
          && d.revisions[i].number == i + 1
          && (i == 0 ==> d.revisions[i].parent.None?)
          && (i > 0 ==> d.revisions[i].parent == Some(d.revisions[i - 1].id))
          && d.revisions[i].id < nextRevision)
    && d.currentNumber == |d.revisions|
    && d.currentHash == Some(d.revisions[|d.revisions| - 1].hash)
  }

  function Head(d: Draft): Revision
    requires |d.revisions| > 0
  {
    d.revisions[|d.revisions| - 1]
  }

  predicate IdsDistinct(drafts: seq<Draft>) {
    forall d, e, i, j | 0 <= d < |drafts| && 0 <= e < |drafts| && 0 <= i < |drafts[d].revisions| && 0 <= j < |drafts[e].revisions| ::
      drafts[d].revisions[i].id == drafts[e].revisions[j].id ==> d == e && i == j
  }

  predicate DraftsOk(drafts: seq<Draft>, nextRevision: nat) {
    (forall d :: 0 <= d < |drafts| ==> DraftOk(drafts[d], nextRevision)) && IdsDistinct(drafts)
  }

  predicate CheckoutOk(c: Checkout, fences: seq<nat>, drafts: seq<Draft>) {
    && c.situation < |fences| && c.draft < |drafts|
    && drafts[c.draft].situation == c.situation
    && c.fence <= fences[c.situation]
    && (!c.released ==> c.fence == fences[c.situation] && drafts[c.draft].active)
  }

  predicate WorkspacesOk(fences: seq<nat>, drafts: seq<Draft>, checkouts: seq<Checkout>) {
    && (forall c :: 0 <= c < |checkouts| ==> CheckoutOk(checkouts[c], fences, drafts))
    && (forall c, e :: 0 <= c < e < |checkouts| && !checkouts[c].released && !checkouts[e].released ==>
          checkouts[c].situation != checkouts[e].situation)
    && (forall d :: 0 <= d < |drafts| ==> drafts[d].situation < |fences|)
    && (forall d, e :: 0 <= d < e < |drafts| && drafts[d].active && drafts[e].active ==>
          drafts[d].situation != drafts[e].situation)
  }

  predicate ReviewOk(r: Review, checkouts: seq<Checkout>, draftCount: nat) {
    && r.checkout < |checkouts| && r.draft < draftCount
    && checkouts[r.checkout].situation == r.situation
    && checkouts[r.checkout].fence == r.checkoutFence
    && (ActiveReview(r.job.state) ==> !checkouts[r.checkout].released)
    && (r.job.laneOwner ==> ActiveReview(r.job.state))
    && (r.job.state == R.Running ==> r.job.laneOwner)
  }

  predicate OneActiveReview(reviews: seq<Review>) {
    forall r, q :: 0 <= r < q < |reviews| && ActiveReview(reviews[r].job.state) && ActiveReview(reviews[q].job.state) ==>
      reviews[r].situation != reviews[q].situation
  }

  predicate OneLaneOwner(reviews: seq<Review>) {
    forall r, q :: 0 <= r < q < |reviews| ==> !(reviews[r].job.laneOwner && reviews[q].job.laneOwner)
  }

  predicate ReviewsOk(reviews: seq<Review>, checkouts: seq<Checkout>, draftCount: nat) {
    && (forall r :: 0 <= r < |reviews| ==> ReviewOk(reviews[r], checkouts, draftCount))
    && OneActiveReview(reviews)
    && OneLaneOwner(reviews)
  }

  /** A proposal that is not superseded targets the head of its own draft. */
  predicate ProposalOk(p: Proposal, drafts: seq<Draft>, reviews: seq<Review>) {
    && p.review < |reviews| && p.draft < |drafts| && reviews[p.review].draft == p.draft
    && |drafts[p.draft].revisions| > 0
    && (!p.superseded ==>
          Head(drafts[p.draft]).id == p.currentRevision && Head(drafts[p.draft]).hash == p.currentHash)
  }

  predicate ProposalsOk(proposals: seq<Proposal>, drafts: seq<Draft>, reviews: seq<Review>) {
    && (forall q :: 0 <= q < |proposals| ==> ProposalOk(proposals[q], drafts, reviews))
    && (forall q, z :: 0 <= q < z < |proposals| ==> proposals[q].review != proposals[z].review)
  }

  /** The workspace of a job is exactly what it was when publication was requested. */
  predicate Pinned(p: Publication, fences: seq<nat>, drafts: seq<Draft>, checkouts: seq<Checkout>, reviews: seq<Review>) {
    && p.checkout < |checkouts| && p.situation < |fences| && p.draft < |drafts|
    && !checkouts[p.checkout].released
    && checkouts[p.checkout].situation == p.situation
    && checkouts[p.checkout].fence == p.checkoutFence == fences[p.situation]
    && checkouts[p.checkout].draft == p.draft
    && |drafts[p.draft].revisions| > 0
    && Head(drafts[p.draft]).id == p.targetRevision && Head(drafts[p.draft]).hash == p.targetHash
    && !ReviewUnderway(reviews, p.situation)
  }

  predicate PinsOk(publications: seq<Publication>, fences: seq<nat>, drafts: seq<Draft>, checkouts: seq<Checkout>, reviews: seq<Review>) {
    && (forall p :: 0 <= p < |publications| && Pinning(publications[p].state) ==>
          Pinned(publications[p], fences, drafts, checkouts, reviews))
    && (forall p, q :: 0 <= p < q < |publications| && Pinning(publications[p].state) && Pinning(publications[q].state) ==>
          publications[p].situation != publications[q].situation)
  }

  predicate Inv(s: State) {
    && DraftsOk(s.drafts, s.nextRevision)
    && WorkspacesOk(s.fences, s.drafts, s.checkouts)
    && ReviewsOk(s.reviews, s.checkouts, |s.drafts|)
    && ProposalsOk(s.proposals, s.drafts, s.reviews)
    && PinsOk(s.publications, s.fences, s.drafts, s.checkouts, s.reviews)
  }

  // ----- lookups -----

  lemma {:induction false} LatestIsHead(d: Draft, nextRevision: nat)
    requires DraftOk(d, nextRevision)
    ensures Latest(d.revisions) == Some(Head(d))
  {
    var latest := Latest(d.revisions);
    var i :| 0 <= i < |d.revisions| && d.revisions[i] == latest.value;
    assert Head(d).number <= latest.value.number;
  }

  /** With the guard passed, no job pins this situation. */
  lemma GuardClears(publications: seq<Publication>, situation: nat)
    requires PublicationGuard(publications, situation).None?
    ensures forall p :: 0 <= p < |publications| && Pinning(publications[p].state) ==> publications[p].situation != situation
  {
  }

  // ----- frames for the pins -----

  /** Drafts may change except those of pinned situations, which keep their head. */
  lemma PinsKeepDrafts(publications: seq<Publication>, fences: seq<nat>, drafts: seq<Draft>, checkouts: seq<Checkout>,
                       reviews: seq<Review>, drafts': seq<Draft>)
    requires PinsOk(publications, fences, drafts, checkouts, reviews)
    requires |drafts| <= |drafts'|
    requires forall p :: 0 <= p < |publications| && Pinning(publications[p].state) ==>
      drafts'[publications[p].draft].revisions == drafts[publications[p].draft].revisions
    ensures PinsOk(publications, fences, drafts', checkouts, reviews)
  {
    forall p | 0 <= p < |publications| && Pinning(publications[p].state)
      ensures Pinned(publications[p], fences, drafts', checkouts, reviews)
    {
      assert Pinned(publications[p], fences, drafts, checkouts, reviews);
    }
  }

  /** Checkouts and fences may change except those of pinned situations. */
  lemma PinsKeepWorkspaces(publications: seq<Publication>, fences: seq<nat>, drafts: seq<Draft>, checkouts: seq<Checkout>,
                           reviews: seq<Review>, fences': seq<nat>, checkouts': seq<Checkout>)
    requires PinsOk(publications, fences, drafts, checkouts, reviews)
    requires |fences| <= |fences'| && |checkouts| <= |checkouts'|
    requires forall p :: 0 <= p < |publications| && Pinning(publications[p].state) ==>
      && checkouts'[publications[p].checkout] == checkouts[publications[p].checkout]
      && fences'[publications[p].situation] == fences[publications[p].situation]
    ensures PinsOk(publications, fences', drafts, checkouts', reviews)
  {
    forall p | 0 <= p < |publications| && Pinning(publications[p].state)
      ensures Pinned(publications[p], fences', drafts, checkouts', reviews)
    {
      assert Pinned(publications[p], fences, drafts, checkouts, reviews);
    }
  }

  /** A review may only become active where nothing is pinned. */
  lemma PinsKeepReviews(publications: seq<Publication>, fences: seq<nat>, drafts: seq<Draft>, checkouts: seq<Checkout>,
                        reviews: seq<Review>, reviews': seq<Review>)
    requires PinsOk(publications, fences, drafts, checkouts, reviews)
    requires forall r :: 0 <= r < |reviews'| && ActiveReview(reviews'[r].job.state) ==>
      || (r < |reviews| && ActiveReview(reviews[r].job.state) && reviews[r].situation == reviews'[r].situation)
      || (forall p :: 0 <= p < |publications| && Pinning(publications[p].state) ==>
            publications[p].situation != reviews'[r].situation)
    ensures PinsOk(publications, fences, drafts, checkouts, reviews')
  {
    forall p | 0 <= p < |publications| && Pinning(publications[p].state)
      ensures Pinned(publications[p], fences, drafts, checkouts, reviews')
    {
      assert Pinned(publications[p], fences, drafts, checkouts, reviews);
    }
  }

  // ----- createRevision -----

  lemma AppendKeepsDraft(d: Draft, next: nat, row: Revision, d': Draft)
    requires DraftOk(d, next) && row.id == next && row.number == d.currentNumber + 1 && row.parent == Some(Head(d).id)
    requires d' == d.(revisions := d.revisions + [row], currentNumber := row.number, currentHash := Some(row.hash))
    ensures DraftOk(d', next + 1) && Head(d') == row
  {
  }

  lemma AppendKeepsDrafts(drafts: seq<Draft>, next: nat, d: nat, row: Revision, d': Draft)
    requires DraftsOk(drafts, next) && d < |drafts|
    requires row.id == next && row.number == drafts[d].currentNumber + 1 && row.parent == Some(Head(drafts[d]).id)
    requires d' == drafts[d].(revisions := drafts[d].revisions + [row], currentNumber := row.number, currentHash := Some(row.hash))
    ensures DraftsOk(drafts[d := d'], next + 1) && Head(d') == row
  {
    AppendKeepsDraft(drafts[d], next, row, d');
    var after := drafts[d := d'];
    forall e | 0 <= e < |after|
      ensures DraftOk(after[e], next + 1)
    {
      assert DraftOk(drafts[e], next);
    }
    forall e, f, i, j | 0 <= e < |after| && 0 <= f < |after| && 0 <= i < |after[e].revisions| && 0 <= j < |after[f].revisions|
      ensures after[e].revisions[i].id == after[f].revisions[j].id ==> e == f && i == j
    {
      IdIsOld(drafts, next, d, row, d', e, i);
      IdIsOld(drafts, next, d, row, d', f, j);
    }
  }

  lemma IdIsOld(drafts: seq<Draft>, next: nat, d: nat, row: Revision, d': Draft, e: nat, i: nat)
    requires DraftsOk(drafts, next) && d < |drafts| && e < |drafts| && i < |drafts[d := d'][e].revisions|
    requires row.id == next && d'.revisions == drafts[d].revisions + [row]
    ensures drafts[d := d'][e].revisions[i].id ==
            if e == d && i == |drafts[d].revisions| then next else drafts[e].revisions[i].id
    ensures !(e == d && i == |drafts[d].revisions|) ==> i < |drafts[e].revisions| && drafts[e].revisions[i].id < next
  {
    assert DraftOk(drafts[e], next);
  }

  /** What createRevision returns and writes. */
  predicate RevisionMade(s: State, d: nat, hash: Hash, expected: Option<(nat, Hash)>, preserve: Option<nat>, made: Revised)
    requires d < |s.drafts| && |s.drafts[d].revisions| > 0
  {
    var s' := made.state;
    && (made.revision.None? ==> s' == s)
    && (made.revision.None? <==> expected.Some? && expected.value != (Head(s.drafts[d]).id, Head(s.drafts[d]).hash))
    && s' == s.(drafts := s'.drafts, proposals := s'.proposals, nextRevision := s'.nextRevision)
    && |s'.drafts| == |s.drafts| && |s'.proposals| == |s.proposals|
    && (forall e :: 0 <= e < |s.drafts| && e != d ==> s'.drafts[e] == s.drafts[e])
    && s'.drafts[d].situation == s.drafts[d].situation && s'.drafts[d].active == s.drafts[d].active
    && |s'.drafts[d].revisions| > 0
    && (made.revision.Some? ==> Head(s'.drafts[d]) == made.revision.value && made.revision.value.hash == hash)
    && (forall q :: 0 <= q < |s.proposals| ==>
          s'.proposals[q] == if made.revision.Some? && made.revision.value != Head(s.drafts[d])
                                && s.proposals[q].currentRevision == Head(s.drafts[d]).id && preserve != Some(q)
                             then s.proposals[q].(superseded := true) else s.proposals[q])
  }

  /** The new revision is the head, follows the old head, and every other proposal
      that targeted the old head is superseded. */
  lemma RevisionIsMade(s: State, d: nat, hash: Hash, expected: Option<(nat, Hash)>, preserve: Option<nat>)
    requires d < |s.drafts| && DraftOk(s.drafts[d], s.nextRevision)
    ensures RevisionMade(s, d, hash, expected, preserve, CreateRevision(s, d, hash, expected, preserve))
  {
    var draft := s.drafts[d];
    LatestIsHead(draft, s.nextRevision);
    var made := CreateRevision(s, d, hash, expected, preserve);
    assert Head(draft).id < s.nextRevision;
    if made.revision.Some? && Head(draft).hash != hash {
      AppendKeepsDraft(draft, s.nextRevision, made.revision.value, made.state.drafts[d]);
    }
  }

  lemma RevisionKeepsDrafts(s: State, d: nat, hash: Hash, expected: Option<(nat, Hash)>, preserve: Option<nat>)
    requires d < |s.drafts| && DraftsOk(s.drafts, s.nextRevision)
    ensures var made := CreateRevision(s, d, hash, expected, preserve).state; DraftsOk(made.drafts, made.nextRevision)
  {
    var draft := s.drafts[d];
    assert DraftOk(draft, s.nextRevision);
    LatestIsHead(draft, s.nextRevision);
    var row := Revision(s.nextRevision, draft.currentNumber + 1, Some(Head(draft).id), hash);
    var draft' := draft.(revisions := draft.revisions + [row], currentNumber := row.number, currentHash := Some(hash));
    AppendKeepsDrafts(s.drafts, s.nextRevision, d, row, draft');
    hide DraftsOk, DraftOk, Latest, Supersede;
  }

  lemma CreateRevisionKeeps(s: State, d: nat, hash: Hash, expected: Option<(nat, Hash)>, preserve: Option<nat>)
    requires d < |s.drafts| && DraftsOk(s.drafts, s.nextRevision)
    ensures |s.drafts[d].revisions| > 0
    ensures var made := CreateRevision(s, d, hash, expected, preserve);
      DraftsOk(made.state.drafts, made.state.nextRevision) && RevisionMade(s, d, hash, expected, preserve, made)
  {
    assert DraftOk(s.drafts[d], s.nextRevision);
    RevisionKeepsDrafts(s, d, hash, expected, preserve);
    RevisionIsMade(s, d, hash, expected, preserve);
    hide DraftsOk, RevisionMade, CreateRevision;
  }

  lemma RevisedProposals(s: State, d: nat, hash: Hash, expected: Option<(nat, Hash)>)
    requires d < |s.drafts| && DraftsOk(s.drafts, s.nextRevision) && ProposalsOk(s.proposals, s.drafts, s.reviews)
    ensures var s' := CreateRevision(s, d, hash, expected, None).state; ProposalsOk(s'.proposals, s'.drafts, s.reviews)
  {
    CreateRevisionKeeps(s, d, hash, expected, None);
    var made := CreateRevision(s, d, hash, expected, None);
    forall q | 0 <= q < |s.proposals|
      ensures ProposalOk(made.state.proposals[q], made.state.drafts, s.reviews)
    {
      assert ProposalOk(s.proposals[q], s.drafts, s.reviews);
    }
  }

  /** The workspace tables do not look at revisions. */
  lemma WorkspacesKeepRevisions(fences: seq<nat>, drafts: seq<Draft>, checkouts: seq<Checkout>, drafts': seq<Draft>)
    requires WorkspacesOk(fences, drafts, checkouts) && |drafts'| == |drafts|
    requires forall d :: 0 <= d < |drafts| ==> drafts'[d].situation == drafts[d].situation && drafts'[d].active == drafts[d].active
    ensures WorkspacesOk(fences, drafts', checkouts)
  {
    forall c | 0 <= c < |checkouts|
      ensures CheckoutOk(checkouts[c], fences, drafts')
    {
      assert CheckoutOk(checkouts[c], fences, drafts);
    }
  }

  /** createRevision on a draft whose situation nothing pins. */
  lemma ReviseKeeps(s: State, d: nat, hash: Hash, expected: Option<(nat, Hash)>)
    requires Inv(s) && d < |s.drafts|
    requires PublicationGuard(s.publications, s.drafts[d].situation).None?
    ensures Inv(CreateRevision(s, d, hash, expected, None).state)
  {
    var s' := CreateRevision(s, d, hash, expected, None).state;
    CreateRevisionKeeps(s, d, hash, expected, None);
    RevisedProposals(s, d, hash, expected);
    WorkspacesKeepRevisions(s.fences, s.drafts, s.checkouts, s'.drafts);
    UnpinnedDraft(s, d);
    PinsKeepDrafts(s.publications, s.fences, s.drafts, s.checkouts, s.reviews, s'.drafts);
  }

  lemma UnpinnedDraft(s: State, d: nat)
    requires Inv(s) && d < |s.drafts| && PublicationGuard(s.publications, s.drafts[d].situation).None?
    ensures forall p :: 0 <= p < |s.publications| && Pinning(s.publications[p].state) ==> s.publications[p].draft != d
  {
    GuardClears(s.publications, s.drafts[d].situation);
    forall p | 0 <= p < |s.publications| && Pinning(s.publications[p].state)
      ensures s.publications[p].draft != d
    {
      assert Pinned(s.publications[p], s.fences, s.drafts, s.checkouts, s.reviews);
      assert CheckoutOk(s.checkouts[s.publications[p].checkout], s.fences, s.drafts);
    }
  }
}
